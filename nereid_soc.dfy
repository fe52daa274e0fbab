/**
 * The Nereid SoC composition: which UART route is built, the MSI allocation
 * and the registers that tick with the system clock. The SoC's other
 * submodules (clocking, DNA, XADC, the PCIe PHY, endpoint, Wishbone bridge and
 * DMA) are external IP; only the names under which their registers are
 * registered are recorded here.
 */
module NereidSoc {
  import PcieUart
  import MsiAllocation
  import LedHeartbeat

  /** The Nereid build uses the PCIe-tunnelled UART unless told otherwise. */
  const DefaultWithPcieUart: bool := true

  /** The UART routes a composition builds. */
  datatype UartRoutes = UartRoutes(
    coreUart: bool,   // the SoC's own UART on the board's serial pins (`with_uart`)
    pcieBridge: bool  // a UART core on an RS-232 PHY interface, bridged by `PCIeUART`
  )

  function UartRouting(withPcieUart: bool): (r: UartRoutes)
    ensures r.coreUart != r.pcieBridge
    ensures r.pcieBridge <==> withPcieUart
  {
    UartRoutes(coreUart := !withPcieUart, pcieBridge := withPcieUart)
  }

  /**
   * The names this file registers with `add_csr`, in order. Registrations
   * the framework makes itself, such as the core UART's when `with_uart`
   * is set, are not in this list.
   */
  function CsrNames(routes: UartRoutes): seq<string>
  {
    ["crg", "dna", "xadc", "pcie_phy", "pcie_dma", "pcie_msi"]
      + (if routes.pcieBridge then ["uart", "pcie_uart"] else [])
  }

  /**
   * The names this file registers with `add_interrupt`. The core UART's
   * interrupt, registered by the framework, is not in this list.
   */
  function InterruptNames(routes: UartRoutes): seq<string>
  {
    if routes.pcieBridge then ["uart"] else []
  }

  /** With the default the bridge is built and the core UART is not. */
  lemma DefaultRoute()
    ensures UartRouting(DefaultWithPcieUart) == UartRoutes(false, true)
    ensures "pcie_uart" in CsrNames(UartRouting(DefaultWithPcieUart))
  {
  }

  /** This file registers the bridge's registers and its UART's interrupt exactly when the bridge route is taken. */
  lemma BridgeRegistrations(withPcieUart: bool)
    ensures "pcie_uart" in CsrNames(UartRouting(withPcieUart)) <==> withPcieUart
    ensures "uart" in InterruptNames(UartRouting(withPcieUart)) <==> !UartRouting(withPcieUart).coreUart
  {
    var names := CsrNames(UartRouting(withPcieUart));
    if !withPcieUart {
      assert forall j :: 0 <= j < |names| ==> names[j] != "pcie_uart";
    }
  }

  class NereidSoC {
    const routes: UartRoutes
    const pcieUart: PcieUart.PCIeUART?
    const heartbeat: LedHeartbeat.Heartbeat
    const msiLines: seq<MsiAllocation.Irq>
    const constants: map<string, int>
    const csrs: seq<string>
    const interrupts: seq<string>

    constructor (withPcieUart: bool)
      ensures routes == UartRouting(withPcieUart)
      ensures routes.coreUart <==> !withPcieUart
      ensures (pcieUart != null) <==> withPcieUart
      ensures pcieUart != null ==> fresh(pcieUart) && pcieUart.State() == PcieUart.Reset
      ensures fresh(heartbeat) && heartbeat.sysCounter == 0
      ensures msiLines == [MsiAllocation.Irq("pcie_dma.reader.irq"), MsiAllocation.Irq("pcie_dma.writer.irq")]
      ensures constants == map["DMA_READER_INTERRUPT" := 0, "DMA_WRITER_INTERRUPT" := 1]
      ensures csrs == CsrNames(routes) && interrupts == InterruptNames(routes)
    {
      var r := UartRouting(withPcieUart);
      routes := r;
      MsiAllocation.NereidMsiAllocation();
      var lines, table := MsiAllocation.AllocateMsis(MsiAllocation.NereidMsis);
      msiLines := lines;
      constants := table;
      if r.pcieBridge {
        pcieUart := new PcieUart.PCIeUART();
      } else {
        pcieUart := null;
      }
      csrs := CsrNames(r);
      interrupts := InterruptNames(r);
      heartbeat := new LedHeartbeat.Heartbeat();
    }

    /** One system clock edge: every register of the SoC's own logic updates together. */
    method Tick(i: PcieUart.CycleInputs)
      modifies heartbeat, pcieUart
      ensures heartbeat.sysCounter == LedHeartbeat.Increment(old(heartbeat.sysCounter))
      ensures pcieUart != null ==> pcieUart.State() == PcieUart.Next(old(pcieUart.State()), i)
    {
      heartbeat.Tick();
      if pcieUart != null {
        pcieUart.Step(i);
      }
    }
  }
}
