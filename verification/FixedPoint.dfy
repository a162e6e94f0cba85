/** C integer widths and the fixed-point sums of the echo cancellers. */
module FixedPoint {

  /** The value a 32-bit signed variable holds after `x` is stored in it. */
  function Int32(x: int): int {
    (x + 0x8000_0000) % 0x1_0000_0000 - 0x8000_0000
  }

  /** The value a 16-bit signed variable holds after `x` is stored in it. */
  function Int16(x: int): (r: int)
    ensures -32768 <= r <= 32767
    ensures -32768 <= x <= 32767 ==> r == x
  {
    (x + 0x8000) % 0x1_0000 - 0x8000
  }

  /** Arithmetic shift right by 15. */
  function Shift15(x: int): int {
    x / 0x8000
  }

  lemma Int32Absorbs(a: int, b: int)
    ensures Int32(Int32(a) + b) == Int32(a + b)
  {
    var m := 0x1_0000_0000;
    var x := a + 0x8000_0000;
    assert (x % m + b) % m == (x + b) % m by {
      assert x == x / m * m + x % m;
      assert x + b == x / m * m + (x % m + b);
    }
  }

  predicate Fits32(x: int) {
    -0x8000_0000 <= x < 0x8000_0000
  }

  /** A 32-bit variable holds the one value of its range that differs by whole multiples. */
  lemma Int32Wraps(x: int, turns: int)
    ensures Fits32(Int32(x)) && Int32(x + 0x1_0000_0000 * turns) == Int32(x) && (Fits32(x) ==> Int32(x) == x)
  {
    var m, z := 0x1_0000_0000, x + 0x8000_0000;
    assert (z + m * turns) % m == z % m;
  }

  /** The upper 17 bits of a 31-bit value, in 16 bits: the part that a shift drops is never negative. */
  lemma UpperHalf(x: int)
    requires -0x4000_0000 <= x < 0x4000_0000
    ensures var r := Int16(Shift15(Int32(x))); 0x8000 * r <= x < 0x8000 * r + 0x8000
  {
  }

  /** The products of two rows of numbers, added up. */
  function Dot(a: seq<int>, b: seq<int>): int
    requires |a| == |b|
  {
    if a == [] then 0 else Dot(a[..|a| - 1], b[..|b| - 1]) + a[|a| - 1] * b[|b| - 1]
  }

  lemma DotSnoc(a: seq<int>, b: seq<int>, n: nat)
    requires |a| == |b| && n < |a|
    ensures Dot(a[..n + 1], b[..n + 1]) == Dot(a[..n], b[..n]) + a[n] * b[n]
  {
    assert a[..n + 1][..n] == a[..n] && b[..n + 1][..n] == b[..n];
  }

  /** A row with a single value that is not zero picks out the number it meets. */
  lemma {:induction false} DotOfOne(a: seq<int>, b: seq<int>, j: nat)
    requires |a| == |b| && j < |a| && forall i :: 0 <= i < |a| && i != j ==> a[i] == 0
    ensures Dot(a, b) == a[j] * b[j]
  {
    var n := |a| - 1;
    if j < n {
      DotOfOne(a[..n], b[..n], j);
      assert a[n] == 0;
    } else {
      DotOfZeros(a[..n], b[..n]);
    }
  }

  lemma {:induction false} DotOfZeros(a: seq<int>, b: seq<int>)
    requires |a| == |b| && forall i :: 0 <= i < |a| ==> a[i] == 0
    ensures Dot(a, b) == 0
  {
    if a != [] {
      DotOfZeros(a[..|a| - 1], b[..|b| - 1]);
    }
  }

  /** The sum of the squares. */
  function Energy(s: seq<int>): nat {
    if s == [] then 0 else Energy(s[..|s| - 1]) + Square(s[|s| - 1])
  }

  function Square(x: int): nat {
    SquareIsPositive(x);
    x * x
  }

  lemma SquareIsPositive(x: int)
    ensures x * x >= 0 && (x * x == 0 <==> x == 0)
  {
  }

  lemma {:induction false} EnergyCons(x: int, s: seq<int>)
    ensures Energy([x] + s) == Square(x) + Energy(s)
  {
    var t := [x] + s;
    if s == [] {
      assert t[..0] == [];
    } else {
      EnergyCons(x, s[..|s| - 1]);
      assert t[..|t| - 1] == [x] + s[..|s| - 1];
    }
  }

  lemma EnergySnoc(s: seq<int>, x: int)
    ensures Energy(s + [x]) == Energy(s) + Square(x)
  {
    assert (s + [x])[..|s|] == s;
  }

  lemma {:induction false} EnergyIsPositive(s: seq<int>, k: nat)
    requires k < |s| && s[k] != 0
    ensures Energy(s) > 0
  {
    var n := |s| - 1;
    SquareIsPositive(s[n]);
    if k < n {
      EnergyIsPositive(s[..n], k);
    }
  }

  /** Moving every coefficient by a multiple of the sample it meets moves the sum by that
      multiple of the samples' energy. */
  lemma {:induction false} DotOfMoved(a: seq<int>, from: seq<int>, b: seq<int>, factor: int)
    requires |a| == |from| == |b| && forall i {:trigger a[i]} :: 0 <= i < |a| ==> a[i] == from[i] + factor * b[i]
    ensures Dot(a, b) == Dot(from, b) + factor * Energy(b)
  {
    var n := |a| - 1;
    if n >= 0 {
      var e, f, x, y := Energy(b[..n]), from[n], b[n], a[n];
      DotOfMoved(a[..n], from[..n], b[..n], factor);
      Distributes(f, factor, x, e);
      assert y == f + factor * x;
    }
  }

  lemma Distributes(f: int, factor: int, x: int, e: int)
    ensures (f + factor * x) * x == f * x + factor * Square(x) && factor * (e + Square(x)) == factor * e + factor * Square(x)
  {
    assert (f + factor * x) * x == f * x + factor * x * x;
    assert factor * x * x == factor * (x * x);
  }
}
