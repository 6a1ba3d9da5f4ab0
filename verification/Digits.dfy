/** Numbers written with a fixed number of digits, the most significant first. */
module Digits {
  datatype Base = Ten | Sixteen

  function Size(base: Base): nat {
    match base case Ten => 10 case Sixteen => 16
  }

  function Join(high: nat, low: nat, base: Base): nat {
    match base case Ten => 10 * high + low case Sixteen => 16 * high + low
  }

  function High(n: nat, base: Base): nat {
    match base case Ten => n / 10 case Sixteen => n / 16
  }

  function Low(n: nat, base: Base): (d: nat)
    ensures d < Size(base) && Join(High(n, base), d, base) == n
  {
    match base case Ten => n % 10 case Sixteen => n % 16
  }

  /** How many numbers have at most `width` digits. */
  function Count(base: Base, width: nat): nat {
    if width == 0 then 1 else Join(Count(base, width - 1), 0, base)
  }

  function Write(n: nat, base: Base, width: nat): (digits: seq<nat>)
    ensures |digits| == width && forall i :: 0 <= i < width ==> digits[i] < Size(base)
  {
    if width == 0 then [] else Write(High(n, base), base, width - 1) + [Low(n, base)]
  }

  function Read(digits: seq<nat>, base: Base): nat {
    if digits == [] then 0 else Join(Read(digits[..|digits| - 1], base), digits[|digits| - 1], base)
  }

  lemma {:induction false} ReadWritten(n: nat, base: Base, width: nat)
    requires n < Count(base, width)
    ensures Read(Write(n, base, width), base) == n
  {
    if width > 0 {
      var all := Write(n, base, width);
      ReadWritten(High(n, base), base, width - 1);
      assert all[..width - 1] == Write(High(n, base), base, width - 1);
    }
  }

  lemma {:induction false} WriteRead(digits: seq<nat>, base: Base)
    requires forall i :: 0 <= i < |digits| ==> digits[i] < Size(base)
    ensures Read(digits, base) < Count(base, |digits|)
    ensures Write(Read(digits, base), base, |digits|) == digits
  {
    if digits != [] {
      WriteRead(digits[..|digits| - 1], base);
      Split(Read(digits[..|digits| - 1], base), digits[|digits| - 1], base);
    }
  }

  lemma Split(high: nat, low: nat, base: Base)
    requires low < Size(base)
    ensures High(Join(high, low, base), base) == high && Low(Join(high, low, base), base) == low
    ensures forall bound: nat :: high < bound ==> Join(high, low, base) < Join(bound, 0, base)
  {
  }
}
