/**
 * The PCIe-tunnelled UART register bridge of the Nereid SoC (`PCIeUART`).
 *
 * The bridge sits between the two streams of an RS-232 PHY interface and six
 * host-visible registers. `sink` is the stream the SoC's UART core transmits
 * into; the bridge only mirrors it (combinational). `source` is the stream the
 * bridge drives into the UART core; its `valid` is the bridge's one clocked bit.
 *
 * Register kinds: a CSR write strobe (`rx_ready`, `tx_valid`) is an input that
 * is high for the one cycle of the write; `tx_data` is a storage register that
 * takes a written value at the clock edge; status registers are outputs.
 */
module PcieUart {
  import opened Wrappers

  type Byte = x: int | 0 <= x < 256

  /** The clocked state: `uart.source.valid` and the `tx_data` storage register. */
  datatype TxState = TxState(sourceValid: bool, txData: Byte)

  /** Both registers come out of reset at zero. */
  const Reset: TxState := TxState(false, 0)

  /** Everything sampled in one clock cycle. */
  datatype CycleInputs = CycleInputs(
    sinkValid: bool,            // uart.sink.valid
    sinkData: Byte,             // uart.sink.data
    rxReadyWrite: bool,         // rx_ready.re: the host wrote rx_ready this cycle
    txValidWrite: bool,         // tx_valid.re: the host wrote tx_valid this cycle
    txDataWrite: Option<Byte>,  // a host write of the tx_data storage this cycle
    sourceReady: bool           // uart.source.ready
  )

  /** Everything the bridge drives in one clock cycle. */
  datatype CycleOutputs = CycleOutputs(
    rxValid: bool,      // rx_valid.status
    rxData: Byte,       // rx_data.status
    sinkReady: bool,    // uart.sink.ready
    txReady: bool,      // tx_ready.status
    sourceValid: bool,  // uart.source.valid
    sourceData: Byte    // uart.source.data
  )

  /** The combinational part: the RX mirror, `tx_ready` and the outgoing byte. */
  function Outputs(s: TxState, i: CycleInputs): CycleOutputs
  {
    CycleOutputs(
      rxValid := i.sinkValid,
      rxData := i.sinkData,
      sinkReady := i.rxReadyWrite,
      txReady := !s.sourceValid,
      sourceValid := s.sourceValid,
      sourceData := s.txData)
  }

  /**
   * The value of `uart.source.valid` after the clock edge: a `tx_valid` write
   * sets it, otherwise downstream `ready` clears it, otherwise it holds.
   */
  function NextSourceValid(valid: bool, txValidWrite: bool, sourceReady: bool): (r: bool)
    // Idle -> Transmitting only on a strobe; Transmitting -> Idle only on ready without a strobe
    ensures r <==> txValidWrite || (valid && !sourceReady)
  {
    if txValidWrite then true
    else if sourceReady then false
    else valid
  }

  /** The clocked part: the state after the clock edge that ends this cycle. */
  function Next(s: TxState, i: CycleInputs): TxState
  {
    TxState(
      NextSourceValid(s.sourceValid, i.txValidWrite, i.sourceReady),
      if i.txDataWrite.Some? then i.txDataWrite.value else s.txData)
  }

  /** The byte a valid/ready handshake moves in one cycle, if any. */
  function Handshake(valid: bool, ready: bool, data: Byte): (t: Option<Byte>)
    ensures t.Some? <==> valid && ready
    ensures t.Some? ==> t.value == data
  {
    if valid && ready then Some(data) else None
  }

  /** The byte the bridge hands to the UART core in this cycle, if any. */
  function TxTransfer(s: TxState, i: CycleInputs): Option<Byte>
  {
    var o := Outputs(s, i);
    Handshake(o.sourceValid, i.sourceReady, o.sourceData)
  }

  /** The byte the bridge takes from the UART core in this cycle, if any. */
  function RxTransfer(s: TxState, i: CycleInputs): Option<Byte>
  {
    var o := Outputs(s, i);
    Handshake(i.sinkValid, o.sinkReady, i.sinkData)
  }

  /** The states of a run: `Run(s, ins)[k]` is the state at the start of cycle k. */
  function Run(s: TxState, ins: seq<CycleInputs>): (ss: seq<TxState>)
    ensures |ss| == |ins| + 1 && ss[0] == s
    ensures forall k :: 0 <= k < |ins| ==> ss[k + 1] == Next(ss[k], ins[k])
    decreases |ins|
  {
    if ins == [] then [s] else [s] + Run(Next(s, ins[0]), ins[1..])
  }

  /** The bridge as a piece of clocked hardware. */
  class PCIeUART {
    var sourceValid: bool
    var txData: Byte

    constructor ()
      ensures State() == Reset
    {
      sourceValid := false;
      txData := 0;
    }

    function State(): TxState
      reads this
    {
      TxState(sourceValid, txData)
    }

    /** What the bridge drives during the current cycle, given that cycle's inputs. */
    function Drive(i: CycleInputs): CycleOutputs
      reads this
    {
      Outputs(State(), i)
    }

    /** One rising clock edge. */
    method Step(i: CycleInputs)
      modifies this
      ensures State() == Next(old(State()), i)
    {
      if i.txValidWrite {
        sourceValid := true;
      } else if i.sourceReady {
        sourceValid := false;
      }
      if i.txDataWrite.Some? {
        txData := i.txDataWrite.value;
      }
    }
  }

  // ---------------------------------------------------------------------------
  // Properties of one cycle

  /** `tx_ready` is the negation of `source.valid`, and the byte on the stream is `tx_data` itself. */
  lemma TxStatusWiring(s: TxState, i: CycleInputs)
    ensures Outputs(s, i).txReady == !Outputs(s, i).sourceValid
    ensures Outputs(s, i).sourceValid == s.sourceValid
    ensures Outputs(s, i).sourceData == s.txData
  {
  }

  /** A `tx_valid` write wins over a simultaneous downstream `ready`. */
  lemma StrobeHasPriority(s: TxState, i: CycleInputs)
    requires i.txValidWrite
    ensures Next(s, i).sourceValid
    ensures i.sourceReady && s.sourceValid ==> TxTransfer(s, i).Some? && Next(s, i).sourceValid
  {
  }

  /** With neither a strobe nor `ready`, `source.valid` keeps its value. */
  lemma ValidHolds(s: TxState, i: CycleInputs)
    requires !i.txValidWrite && !i.sourceReady
    ensures Next(s, i).sourceValid == s.sourceValid
  {
  }

  /** `source.valid` falls only on `ready` without a strobe and rises only on a strobe. */
  lemma ValidChangesOnlyOnEvents(s: TxState, i: CycleInputs)
    ensures s.sourceValid && !Next(s, i).sourceValid <==> s.sourceValid && i.sourceReady && !i.txValidWrite
    ensures !s.sourceValid && Next(s, i).sourceValid <==> !s.sourceValid && i.txValidWrite
  {
  }

  /**
   * No second buffered byte: while a byte is in flight and not being taken,
   * a `tx_valid` write changes nothing at all.
   */
  lemma StrobeWhileBusyIsIgnored(s: TxState, i: CycleInputs)
    requires s.sourceValid && !i.sourceReady
    ensures Next(s, i) == Next(s, i.(txValidWrite := !i.txValidWrite))
    ensures Next(s, i).sourceValid
  {
  }

  /** The outgoing byte is not latched: rewriting `tx_data` in flight changes the byte presented. */
  lemma TxDataNotLatched(s: TxState, i: CycleInputs, b: Byte)
    requires s.sourceValid && !i.sourceReady && i.txDataWrite == Some(b)
    ensures Next(s, i).sourceValid
    ensures Outputs(Next(s, i), i).sourceData == b
  {
  }

  /**
   * The RX mirror: the status registers show the sink stream, and the sink
   * stream moves a byte exactly when the host writes `rx_ready` while
   * `rx_valid` reads 1; that byte is the one `rx_data` shows.
   */
  lemma RxAcknowledge(s: TxState, i: CycleInputs)
    ensures Outputs(s, i).rxValid == i.sinkValid && Outputs(s, i).rxData == i.sinkData
    ensures Outputs(s, i).sinkReady == i.rxReadyWrite
    ensures RxTransfer(s, i).Some? <==> i.rxReadyWrite && Outputs(s, i).rxValid
    ensures RxTransfer(s, i).Some? ==> RxTransfer(s, i).value == Outputs(s, i).rxData
  {
  }

  // ---------------------------------------------------------------------------
  // Properties of runs

  /** Over a whole run, `sink.ready` is high in exactly the cycles in which `rx_ready` is written. */
  lemma RxReadyPulses(s: TxState, ins: seq<CycleInputs>)
    ensures forall k :: 0 <= k < |ins| ==>
      (Outputs(Run(s, ins)[k], ins[k]).sinkReady <==> ins[k].rxReadyWrite)
  {
  }

  /**
   * After a `tx_valid` write at cycle 0 with byte `b` staged, the stream
   * presents `valid` and `b` in every later cycle up to `n` as long as
   * downstream is not ready and `tx_data` is not rewritten.
   */
  lemma {:induction false} TxHeld(s: TxState, ins: seq<CycleInputs>, b: Byte, n: nat)
    requires 1 <= n <= |ins|
    requires ins[0].txValidWrite && ins[0].txDataWrite.None? && s.txData == b
    requires forall k :: 1 <= k < n ==> !ins[k].sourceReady && ins[k].txDataWrite.None?
    ensures Run(s, ins)[n].sourceValid && Run(s, ins)[n].txData == b
  {
    if n > 1 {
      TxHeld(s, ins, b, n - 1);
    }
  }

  /**
   * Delivery: the host stages `b`, sees `tx_ready` and writes `tx_valid` at
   * cycle 0; downstream first becomes ready at cycle `m` (a cycle with no
   * strobe). Then exactly one byte moves, `b`, at cycle `m`, and `tx_ready`
   * reads 1 again from cycle `m + 1`. Further strobes in between queue nothing.
   */
  lemma {:induction false} TxDelivery(s: TxState, ins: seq<CycleInputs>, b: Byte)
    requires |ins| >= 2
    requires Outputs(s, ins[0]).txReady && s.txData == b
    requires ins[0].txValidWrite && ins[0].txDataWrite.None?
    requires forall k :: 1 <= k < |ins| - 1 ==> !ins[k].sourceReady && ins[k].txDataWrite.None?
    requires ins[|ins| - 1].sourceReady && !ins[|ins| - 1].txValidWrite
    ensures forall k :: 1 <= k < |ins| ==>
      Outputs(Run(s, ins)[k], ins[k]).sourceValid && Outputs(Run(s, ins)[k], ins[k]).sourceData == b
    ensures forall k :: 0 <= k < |ins| ==>
      (TxTransfer(Run(s, ins)[k], ins[k]).Some? <==> k == |ins| - 1)
    ensures TxTransfer(Run(s, ins)[|ins| - 1], ins[|ins| - 1]) == Some(b)
    ensures Outputs(Run(s, ins)[|ins|], ins[|ins| - 1]).txReady
  {
    var ss := Run(s, ins);
    var m := |ins| - 1;
    forall k | 1 <= k <= m
      ensures ss[k].sourceValid && ss[k].txData == b
    {
      TxHeld(s, ins, b, k);
    }
  }
}
