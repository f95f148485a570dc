/** The battery max-voltage tweak: one global that a validating setter
    rounds up to the 16 mV step of the fuel gauge. */
module Max17048Tweaks {

  const VBT_MAX_MV: int := 4400
  const VBT_MIN_MV: int := 3504
  const VBT_STEP_MV: int := 16

  /** C's `/` on int: truncates toward zero (for a positive divisor). */
  function CDiv(a: int, b: int): (q: int)
    requires b > 0
    ensures a >= 0 ==> q == a / b
    // the quotient truncates toward zero: a negative dividend never gives a positive quotient
    ensures a < 0 ==> q <= 0
  {
    if a >= 0 then a / b else
      var m := -a;
      assert m / b >= 0 by { assert m >= 0 && b > 0; }
      -(m / b)
  }

  /** C's `%` on int: the remainder takes the sign of the dividend. */
  function CRem(a: int, b: int): (r: int)
    requires b > 0
    ensures a == CDiv(a, b) * b + r
    ensures -b < r < b
    // and the remainder has the sign of the dividend
    ensures a >= 0 ==> r >= 0
    ensures a < 0 ==> r <= 0
    ensures a >= 0 ==> r == a % b
  {
    a - CDiv(a, b) * b
  }

  /** The setter's rounding (max17048_tweaks.c line 66): the quotient by 16, plus one when
      there is a positive remainder, times 16, with C arithmetic; the least multiple of 16
      that is at least `data`. */
  function RoundUpToStep(data: int): (r: int)
    ensures r % 16 == 0
    ensures data <= r < data + 16
  {
    (CDiv(data, 16) + (if CRem(data, 16) > 0 then 1 else 0)) * 16
  }

  /** The range check of the setter. */
  predicate InRange(data: int)
  {
    VBT_MIN_MV <= data <= VBT_MAX_MV
  }

  /** Both bounds are multiples of 16, so rounding an accepted value never leaves the range. */
  lemma RoundedStaysInRange(data: int)
    requires InRange(data)
    ensures InRange(RoundUpToStep(data))
    ensures RoundUpToStep(data) % VBT_STEP_MV == 0
  {
  }

  /** An in-range multiple of 16 is stored as it is. */
  lemma RoundUpKeepsSteps(data: int)
    requires data % 16 == 0
    ensures RoundUpToStep(data) == data
  {
  }

  /** The stored value is the least multiple of 16 that is at least the input. */
  lemma RoundUpIsLeast(data: int, m: int)
    requires m % 16 == 0 && m >= data
    ensures RoundUpToStep(data) <= m
  {
  }

  /** The module's state: the global `max_voltage_mv`. */
  class MaxVoltageTweak {
    var maxVoltageMv: int

    /** The stored value is 0 (never set) or an accepted, rounded value. */
    ghost predicate Valid()
      reads this
    {
      maxVoltageMv == 0 || (InRange(maxVoltageMv) && maxVoltageMv % VBT_STEP_MV == 0)
    }

    constructor ()
      ensures Valid() && maxVoltageMv == 0
    {
      maxVoltageMv := 0;
    }

    /** get_max_voltage_mv: the last stored value. */
    method GetMaxVoltageMv() returns (v: int)
      requires Valid()
      ensures v == maxVoltageMv
      ensures v == 0 || (InRange(v) && v % VBT_STEP_MV == 0)
    {
      v := maxVoltageMv;
    }

    /** set_max_voltage_mv: an in-range value is rounded up and stored; anything else is ignored. */
    method SetMaxVoltageMv(data: int)
      requires Valid()
      modifies this
      ensures Valid()
      ensures InRange(data) ==> maxVoltageMv == RoundUpToStep(data)
      ensures !InRange(data) ==> maxVoltageMv == old(maxVoltageMv)
    {
      if data >= VBT_MIN_MV && data <= VBT_MAX_MV {
        RoundedStaysInRange(data);
        maxVoltageMv := RoundUpToStep(data);
      }
    }
  }

  /** Writing back what was read is a no-op: set(get()) leaves the stored value unchanged. */
  method SetOfGetIsNoOp(t: MaxVoltageTweak)
    requires t.Valid()
    modifies t
    ensures t.Valid() && t.maxVoltageMv == old(t.maxVoltageMv)
  {
    var v := t.GetMaxVoltageMv();
    if v != 0 {
      RoundUpKeepsSteps(v);
    }
    t.SetMaxVoltageMv(v);
  }
}
