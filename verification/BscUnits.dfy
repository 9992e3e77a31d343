/**
 Base units of a token with `decimals` decimals, in micro-USDT, rounded down.
 */
module BscUnits {
  import opened Basics

  const I64_MAX := 0x7fff_ffff_ffff_ffff
  const U128_MAX := 0xffff_ffff_ffff_ffff_ffff_ffff_ffff_ffff

  function Pow10(n: nat): (r: nat)
    ensures r > 0
  {
    if n == 0 then 1 else 10 * Pow10(n - 1)
  }

  /** `None` below 6 decimals, where the power of ten leaves 128 bits, or where the result leaves 63. */
  function ToMicro(value: nat, decimals: nat): Option<nat> {
    if decimals < 6 || Pow10(decimals - 6) > U128_MAX || value / Pow10(decimals - 6) > I64_MAX then None
    else Some(value / Pow10(decimals - 6))
  }

  lemma FloorBrackets(value: nat, unit: nat)
    requires unit > 0
    ensures value / unit * unit <= value < (value / unit + 1) * unit
  {
  }

  lemma ProductsOrder(a: nat, b: nat, unit: nat)
    requires a <= b
    ensures a * unit <= b * unit
  {
    assert b * unit - a * unit == (b - a) * unit;
  }

  /** Never more than what arrived, and short of it by less than one micro-USDT. */
  lemma FloorIsClose(value: nat, decimals: nat)
    requires ToMicro(value, decimals).Some?
    ensures var unit := Pow10(decimals - 6); var micro := ToMicro(value, decimals).value;
            micro * unit <= value < (micro + 1) * unit
  {
    FloorBrackets(value, Pow10(decimals - 6));
  }

  lemma FloorIsGreatest(k: nat, value: nat, unit: nat)
    requires unit > 0 && k * unit <= value
    ensures k <= value / unit
  {
    FloorBrackets(value, unit);
    if k > value / unit {
      ProductsOrder(value / unit + 1, k, unit);
    }
  }

  /** Flooring the parts gives no more than flooring the whole. */
  lemma FloorsAddUp(a: nat, b: nat, unit: nat)
    requires unit > 0
    ensures a / unit + b / unit <= (a + b) / unit
  {
    var x, y := a / unit, b / unit;
    FloorBrackets(a, unit);
    FloorBrackets(b, unit);
    assert (x + y) * unit == x * unit + y * unit;
    FloorIsGreatest(x + y, a + b, unit);
  }
}
