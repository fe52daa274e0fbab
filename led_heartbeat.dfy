/**
 * The LED heartbeat of the Nereid SoC: a 32-bit register `sys_counter` that
 * counts every system clock cycle and wraps around; bit 26 drives the green
 * channel of the RGB LED, and the red and blue channels are tied to 1.
 */
module LedHeartbeat {

  const Modulus: int := 0x1_0000_0000  // 2^32, the width of `sys_counter`
  const GreenWeight: int := 0x400_0000  // 2^26, the weight of the bit that drives green

  type Word32 = x: int | 0 <= x < 0x1_0000_0000

  datatype Rgb = Rgb(r: bool, g: bool, b: bool)

  /** `sys_counter + 1`, truncated to the register's 32 bits. */
  function Increment(c: Word32): (r: Word32)
    ensures c < Modulus - 1 ==> r == c + 1
    ensures c == Modulus - 1 ==> r == 0
  {
    (c + 1) % Modulus
  }

  /** Bit 26 of the counter. */
  predicate GreenBit(c: Word32)
  {
    (c / GreenWeight) % 2 == 1
  }

  /** The LED drive for a counter value. */
  function LedDrive(c: Word32): Rgb
  {
    Rgb(true, GreenBit(c), true)
  }

  /** The counter value `n` cycles after reset. */
  function CounterAfter(n: nat): Word32
  {
    if n == 0 then 0 else Increment(CounterAfter(n - 1))
  }

  class Heartbeat {
    var sysCounter: Word32

    constructor ()
      ensures sysCounter == 0
    {
      sysCounter := 0;
    }

    function Leds(): Rgb
      reads this
    {
      LedDrive(sysCounter)
    }

    /** One rising edge of the system clock. */
    method Tick()
      modifies this
      ensures sysCounter == Increment(old(sysCounter))
    {
      if sysCounter == Modulus - 1 {
        sysCounter := 0;
      } else {
        sysCounter := sysCounter + 1;
      }
    }
  }

  /** After `n` cycles the counter holds `n mod 2^32`. */
  lemma {:induction false} CounterAfterWraps(n: nat)
    ensures CounterAfter(n) == n % Modulus
  {
    if n > 0 {
      CounterAfterWraps(n - 1);
      var p := n - 1;
      if p % Modulus == Modulus - 1 {
        assert n % Modulus == 0 by {
          assert n == (p / Modulus + 1) * Modulus;
        }
      } else {
        assert n % Modulus == p % Modulus + 1 by {
          assert n == (p / Modulus) * Modulus + (p % Modulus + 1);
        }
      }
    }
  }

  /** Red and blue stay lit; green is bit 26 of the counter. */
  lemma LedDriveChannels(c: Word32)
    ensures LedDrive(c).r && LedDrive(c).b
    ensures LedDrive(c).g <==> (c / GreenWeight) % 2 == 1
  {
  }

  /**
   * Green changes on a clock edge exactly when the low 26 bits of the counter
   * wrap, that is once every 2^26 cycles.
   */
  lemma GreenToggles(c: Word32)
    ensures GreenBit(Increment(c)) != GreenBit(c) <==> (c + 1) % GreenWeight == 0
  {
    var q, r := c / GreenWeight, c % GreenWeight;
    assert c == q * GreenWeight + r;
    if c == Modulus - 1 {
      assert q == 63;
    } else if r == GreenWeight - 1 {
      assert c + 1 == (q + 1) * GreenWeight;
      assert (c + 1) / GreenWeight == q + 1;
    } else {
      assert c + 1 == q * GreenWeight + (r + 1);
      assert (c + 1) / GreenWeight == q;
    }
  }

  /** Euclidean division by 2^26, from a quotient and remainder. */
  lemma DivByGreenWeight(n: int, q: int, r: int)
    requires 0 <= r < GreenWeight && n == q * GreenWeight + r
    ensures n / GreenWeight == q
  {
  }

  /** Bit 26 and up of a number are those of its low 32 bits plus 64 per wrap of the counter. */
  lemma SplitAtWrap(n: nat)
    ensures n / GreenWeight == (n / Modulus) * 64 + (n % Modulus) / GreenWeight
  {
    var q, r := n / Modulus, n % Modulus;
    var hi, lo := r / GreenWeight, r % GreenWeight;
    assert r == hi * GreenWeight + lo;
    assert q * Modulus == (q * 64) * GreenWeight;
    DivByGreenWeight(n, q * 64 + hi, lo);
  }

  lemma ParityAfterWraps(q: int, hi: int)
    ensures (q * 64 + hi) % 2 == hi % 2
  {
    assert q * 64 + hi == 2 * (q * 32) + hi;
  }

  /** Green is lit in the second half of every 2^27-cycle period after reset. */
  lemma {:induction false} GreenAfter(n: nat)
    ensures GreenBit(CounterAfter(n)) <==> (n / GreenWeight) % 2 == 1
  {
    CounterAfterWraps(n);
    SplitAtWrap(n);
    ParityAfterWraps(n / Modulus, (n % Modulus) / GreenWeight);
  }
}
