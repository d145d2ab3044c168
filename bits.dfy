/**
 * The bit helpers of the checkers engine (class `Utility`).
 *
 * A bitboard is a non-negative integer used as a set of square indices: square
 * `p` is in the set when bit `p` is 1. The engine's masks start non-negative
 * and setting or clearing a bit keeps them so, hence `nat` here; Python
 * integers have no width, so none is imposed. Bit positions are `nat`: a
 * negative shift count raises an error in the source, and the board code
 * handles the one place where that can happen itself.
 */
module Bits {

  /** 2 to the power `p`, the value of `1 << p`. */
  function Pow2(p: nat): (r: nat)
    ensures r >= 1
  {
    if p == 0 then 1 else 2 * Pow2(p - 1)
  }

  /** `(value >> position) & 1`: bit `position` of `value`, as the integer 0 or 1. */
  function CheckBit(value: nat, position: nat): (b: nat)
    ensures b == 0 || b == 1
  {
    (value / Pow2(position)) % 2
  }

  /** `value | (1 << position)`: adds 2^position exactly when that bit is clear. */
  function SetBit(value: nat, position: nat): (r: nat)
    ensures CheckBit(r, position) == 1
    ensures forall q: nat :: q != position ==> CheckBit(r, q) == CheckBit(value, q)
    ensures r >= value
  {
    if CheckBit(value, position) == 1 then value
    else
      AddBit(value, position);
      value + Pow2(position)
  }

  /** `value & ~(1 << position)`: subtracts 2^position exactly when that bit is set. */
  function ClearBit(value: nat, position: nat): (r: nat)
    ensures CheckBit(r, position) == 0
    ensures forall q: nat :: q != position ==> CheckBit(r, q) == CheckBit(value, q)
    ensures r <= value
  {
    if CheckBit(value, position) == 0 then value
    else
      RemoveBit(value, position);
      value - Pow2(position)
  }

  /** `value ^ (1 << position)`: toggles bit `position`. */
  function FlipBit(value: nat, position: nat): (r: nat)
    ensures CheckBit(r, position) == 1 - CheckBit(value, position)
    ensures forall q: nat :: q != position ==> CheckBit(r, q) == CheckBit(value, q)
  {
    if CheckBit(value, position) == 1 then
      RemoveBit(value, position);
      value - Pow2(position)
    else
      AddBit(value, position);
      value + Pow2(position)
  }

  // ---------------------------------------------------------------------------
  // Arithmetic behind the bit view
  // ---------------------------------------------------------------------------

  /** The quotient is determined by any decomposition with a remainder in range. */
  lemma DivUnique(v: int, d: int, a: int, m: int)
    requires d > 0 && v == d * a + m && 0 <= m < d
    ensures v / d == a
  {
    var a', m' := v / d, v % d;
    assert v == d * a' + m';
    if a > a' {
      assert d * a == d * a' + d * (a - a');
      MulAtLeast(d, a - a');
    } else if a < a' {
      assert d * a' == d * a + d * (a' - a);
      MulAtLeast(d, a' - a);
    }
  }

  lemma MulAtLeast(d: nat, t: nat)
    requires t >= 1
    ensures d * t >= d
  {
  }

  lemma DivTwice(v: nat, k: nat)
    requires k > 0
    ensures v / (2 * k) == (v / 2) / k
  {
    var h := v / 2;
    var a, c := h / k, h % k;
    assert v == (2 * k) * a + (2 * c + v % 2);
    DivUnique(v, 2 * k, a, 2 * c + v % 2);
  }

  /** Shifting right by `p + 1` is halving, then shifting by `p`. */
  lemma CheckBitSucc(value: nat, p: nat)
    ensures CheckBit(value, p + 1) == CheckBit(value / 2, p)
  {
    DivTwice(value, Pow2(p));
  }

  lemma CheckBitZero(p: nat)
    ensures CheckBit(0, p) == 0
  {
  }

  lemma CheckBitLow(value: nat)
    ensures CheckBit(value, 0) == value % 2
  {
    assert Pow2(0) == 1;
  }

  /** Adding 2^p for p > 0 keeps the parity and adds 2^(p-1) to the half. */
  lemma HalveAddPow2(value: nat, p: nat)
    requires p > 0
    ensures (value + Pow2(p)) % 2 == value % 2
    ensures (value + Pow2(p)) / 2 == value / 2 + Pow2(p - 1)
  {
    var w := value + Pow2(p);
    assert w == 2 * (value / 2 + Pow2(p - 1)) + value % 2;
    DivUnique(w, 2, value / 2 + Pow2(p - 1), value % 2);
  }

  /** Adding 2^p to a value whose bit p is clear sets bit p and nothing else. */
  lemma {:induction false} AddBitAt(value: nat, p: nat, q: nat)
    requires CheckBit(value, p) == 0
    ensures CheckBit(value + Pow2(p), q) == if q == p then 1 else CheckBit(value, q)
  {
    var w := value + Pow2(p);
    if p == 0 {
      CheckBitLow(value);
      CheckBitLow(w);
      if q > 0 {
        CheckBitSucc(w, q - 1);
        CheckBitSucc(value, q - 1);
        assert w / 2 == value / 2;
      }
    } else {
      HalveAddPow2(value, p);
      CheckBitSucc(value, p - 1);
      if q == 0 {
        CheckBitLow(value);
        CheckBitLow(w);
      } else {
        CheckBitSucc(w, q - 1);
        CheckBitSucc(value, q - 1);
        AddBitAt(value / 2, p - 1, q - 1);
      }
    }
  }

  lemma AddBit(value: nat, p: nat)
    requires CheckBit(value, p) == 0
    ensures CheckBit(value + Pow2(p), p) == 1
    ensures forall q: nat :: q != p ==> CheckBit(value + Pow2(p), q) == CheckBit(value, q)
  {
    AddBitAt(value, p, p);
    forall q: nat | q != p
      ensures CheckBit(value + Pow2(p), q) == CheckBit(value, q)
    {
      AddBitAt(value, p, q);
    }
  }

  /** A value whose bit p is set is at least 2^p, and subtracting 2^p clears that bit only. */
  lemma {:induction false} RemoveBitAt(value: nat, p: nat, q: nat)
    requires CheckBit(value, p) == 1
    ensures value >= Pow2(p)
    ensures CheckBit(value - Pow2(p), q) == if q == p then 0 else CheckBit(value, q)
  {
    if p == 0 {
      assert value % 2 == 1;
      var w := value - 1;
      if q != 0 {
        CheckBitSucc(w, q - 1);
        CheckBitSucc(value, q - 1);
        assert w / 2 == value / 2;
      }
    } else {
      CheckBitSucc(value, p - 1);
      RemoveBitAt(value / 2, p - 1, if q == 0 then 0 else q - 1);
      var w := value - Pow2(p);
      assert w / 2 == value / 2 - Pow2(p - 1);
      if q != 0 {
        CheckBitSucc(w, q - 1);
        CheckBitSucc(value, q - 1);
      }
    }
  }

  lemma RemoveBit(value: nat, p: nat)
    requires CheckBit(value, p) == 1
    ensures value >= Pow2(p)
    ensures CheckBit(value - Pow2(p), p) == 0
    ensures forall q: nat :: q != p ==> CheckBit(value - Pow2(p), q) == CheckBit(value, q)
  {
    RemoveBitAt(value, p, p);
    forall q: nat | q != p
      ensures CheckBit(value - Pow2(p), q) == CheckBit(value, q)
    {
      RemoveBitAt(value, p, q);
    }
  }

  // ---------------------------------------------------------------------------
  // Properties of the helpers
  // ---------------------------------------------------------------------------

  /** Two values with the same bits are the same value. */
  lemma {:induction false} BitsDetermineValue(a: nat, b: nat)
    requires forall q: nat :: CheckBit(a, q) == CheckBit(b, q)
    ensures a == b
    decreases a + b
  {
    assert CheckBit(a, 0) == CheckBit(b, 0);
    if a + b != 0 {
      forall q: nat
        ensures CheckBit(a / 2, q) == CheckBit(b / 2, q)
      {
        CheckBitSucc(a, q);
        CheckBitSucc(b, q);
      }
      BitsDetermineValue(a / 2, b / 2);
    }
  }

  /** Flipping a bit twice gives back the original value. */
  lemma FlipBitTwice(value: nat, position: nat)
    ensures FlipBit(FlipBit(value, position), position) == value
  {
    BitsDetermineValue(FlipBit(FlipBit(value, position), position), value);
  }

  /** Setting a bit that is already set, or clearing one that is clear, changes nothing. */
  lemma SetClearIdle(value: nat, position: nat)
    ensures CheckBit(value, position) == 1 <==> SetBit(value, position) == value
    ensures CheckBit(value, position) == 0 <==> ClearBit(value, position) == value
  {
  }

  /** Clearing after setting is clearing; setting after clearing is setting. */
  lemma SetClearAbsorb(value: nat, position: nat)
    ensures ClearBit(SetBit(value, position), position) == ClearBit(value, position)
    ensures SetBit(ClearBit(value, position), position) == SetBit(value, position)
  {
    BitsDetermineValue(ClearBit(SetBit(value, position), position), ClearBit(value, position));
    BitsDetermineValue(SetBit(ClearBit(value, position), position), SetBit(value, position));
  }

  /** A value with a set bit is not zero. */
  lemma {:induction false} NonZeroWhenBitSet(value: nat, p: nat)
    requires CheckBit(value, p) == 1
    ensures value != 0
  {
    CheckBitZero(p);
  }

  // ---------------------------------------------------------------------------
  // Counting set bits (pieces on a bitboard)
  // ---------------------------------------------------------------------------

  /** The number of set bits of `value`. */
  function PopCount(value: nat): nat
  {
    if value == 0 then 0 else value % 2 + PopCount(value / 2)
  }

  lemma PopCountUnfold(value: nat)
    ensures PopCount(value) == value % 2 + PopCount(value / 2)
  {
  }

  lemma {:induction false} PopCountAddBit(value: nat, p: nat)
    requires CheckBit(value, p) == 0
    ensures PopCount(value + Pow2(p)) == PopCount(value) + 1
  {
    var w := value + Pow2(p);
    PopCountUnfold(w);
    PopCountUnfold(value);
    if p == 0 {
      CheckBitLow(value);
      assert w == 2 * (value / 2) + 1;
      DivUnique(w, 2, value / 2, 1);
    } else {
      var half := value / 2 + Pow2(p - 1);
      HalveAddPow2(value, p);
      CheckBitSucc(value, p - 1);
      assert CheckBit(value / 2, p - 1) == 0;
      PopCountAddBit(value / 2, p - 1);
      assert PopCount(half) == PopCount(value / 2) + 1;
      assert PopCount(w) == value % 2 + PopCount(half);
    }
  }

  /** Setting a bit adds one to the count exactly when the bit was clear. */
  lemma PopCountSetBit(value: nat, position: nat)
    ensures PopCount(SetBit(value, position)) == PopCount(value) + 1 - CheckBit(value, position)
  {
    if CheckBit(value, position) == 0 {
      PopCountAddBit(value, position);
    }
  }

  /** Clearing a bit removes one from the count exactly when the bit was set. */
  lemma PopCountClearBit(value: nat, position: nat)
    ensures PopCount(ClearBit(value, position)) == PopCount(value) - CheckBit(value, position)
  {
    if CheckBit(value, position) == 1 {
      var w := ClearBit(value, position);
      RemoveBit(value, position);
      PopCountAddBit(w, position);
    }
  }

  /** Flipping a bit lowers the count by one when the bit was set and raises it by one when it was clear. */
  lemma PopCountFlipBit(value: nat, position: nat)
    ensures PopCount(FlipBit(value, position))
            == if CheckBit(value, position) == 1 then PopCount(value) - 1 else PopCount(value) + 1
  {
    if CheckBit(value, position) == 1 {
      assert FlipBit(value, position) == ClearBit(value, position);
      PopCountClearBit(value, position);
    } else {
      assert FlipBit(value, position) == SetBit(value, position);
      PopCountSetBit(value, position);
    }
  }

  // ---------------------------------------------------------------------------
  // Contiguous runs of squares, as in the opening position
  // ---------------------------------------------------------------------------

  /** The value 2^n - 1 has exactly bits 0 .. n-1 set. */
  lemma {:induction false} LowBits(n: nat, q: nat)
    ensures CheckBit(Pow2(n) - 1, q) == if q < n then 1 else 0
  {
    if n == 0 {
      CheckBitZero(q);
    } else if q > 0 {
      CheckBitSucc(Pow2(n) - 1, q - 1);
      assert (Pow2(n) - 1) / 2 == Pow2(n - 1) - 1;
      LowBits(n - 1, q - 1);
    }
  }

  /** Multiplying by 2^k shifts every bit up by k places. */
  lemma {:induction false} ShiftedBits(value: nat, k: nat, q: nat)
    ensures CheckBit(value * Pow2(k), q) == if q < k then 0 else CheckBit(value, q - k)
  {
    if k > 0 {
      var w := value * Pow2(k - 1);
      assert value * Pow2(k) == 2 * w;
      if q == 0 {
        assert CheckBit(2 * w, 0) == (2 * w) % 2;
      } else {
        CheckBitSucc(2 * w, q - 1);
        assert (2 * w) / 2 == w;
        ShiftedBits(value, k - 1, q - 1);
      }
    }
  }
}
