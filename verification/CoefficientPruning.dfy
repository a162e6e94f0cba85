/** The coefficient update of the MG2 echo canceller with its selection of the largest
    coefficients by in-place insertion. */
module CoefficientPruning {
  import opened Words
  import opened FixedPoint
  import HistoryRing

  /** How many of the values exceed `v`. */
  function Above(s: seq<int>, v: int): (r: nat)
    ensures r <= |s|
  {
    if s == [] then 0 else Above(s[..|s| - 1], v) + (if s[|s| - 1] > v then 1 else 0)
  }

  lemma {:induction false} AboveConcat(a: seq<int>, b: seq<int>, v: int)
    ensures Above(a + b, v) == Above(a, v) + Above(b, v)
  {
    if b == [] {
      assert a + b == a;
    } else {
      assert (a + b)[..|a + b| - 1] == a + b[..|b| - 1];
      AboveConcat(a, b[..|b| - 1], v);
    }
  }

  lemma AboveOne(x: int, v: int)
    ensures Above([x], v) == if x > v then 1 else 0
  {
    assert [x][..0] == [];
  }

  ghost predicate Descending(s: seq<int>) {
    forall i, j :: 0 <= i < j < |s| ==> s[i] >= s[j]
  }

  /** In a descending list every value above `v` comes first. */
  lemma {:induction false} AboveInDescending(s: seq<int>, v: int, k: nat)
    requires Descending(s) && k < |s|
    ensures s[k] > v <==> Above(s, v) > k
    decreases |s|
  {
    var n := |s| - 1;
    if k < n {
      AboveInDescending(s[..n], v, k);
      if s[n] > v && n > 0 {
        assert s[k] > v;
      }
    } else {
      if s[n] > v {
        AllAbove(s, v);
      }
    }
  }

  lemma {:induction false} AllAbove(s: seq<int>, v: int)
    requires forall i :: 0 <= i < |s| ==> s[i] > v
    ensures Above(s, v) == |s|
  {
    if s != [] {
      AllAbove(s[..|s| - 1], v);
    }
  }

  /** `top` holds the |top| largest of the values seen, zeros standing in while there
      are fewer: for every threshold it has as many values above it, up to |top|. */
  ghost predicate TopOf(top: seq<int>, seen: seq<int>) {
    && Descending(top) && (forall i :: 0 <= i < |top| ==> top[i] >= 0)
    && (forall v :: v >= 0 ==> Above(top, v) == Min(|top|, Above(seen, v)))
  }

  /** The descending list with one value put in its place and the last one dropped. */
  ghost function Inserted(top: seq<int>, pos: nat, m: int): (r: seq<int>)
    requires pos < |top|
    ensures |r| == |top|
  {
    top[..pos] + [m] + top[pos..|top| - 1]
  }

  lemma InsertKeepsTop(top: seq<int>, pos: nat, m: int, seen: seq<int>)
    requires TopOf(top, seen) && pos < |top| && m > top[|top| - 1]
    requires top[pos] <= m && forall i :: 0 <= i < pos ==> top[i] > m
    ensures TopOf(Inserted(top, pos, m), seen + [m])
  {
    var n := |top|;
    var r := Inserted(top, pos, m);
    assert forall i :: 0 <= i < n ==> r[i] == if i < pos then top[i] else if i == pos then m else top[i - 1];
    assert Descending(r);
    forall v | v >= 0
      ensures Above(r, v) == Min(n, Above(seen + [m], v))
    {
      InsertedCount(top, pos, m, seen, v);
    }
  }

  lemma InsertedCount(top: seq<int>, pos: nat, m: int, seen: seq<int>, v: int)
    requires Descending(top) && pos < |top| && m > top[|top| - 1]
    requires Above(top, v) == Min(|top|, Above(seen, v))
    ensures Above(Inserted(top, pos, m), v) == Min(|top|, Above(seen + [m], v))
  {
    InsertedAbove(top, pos, m, v);
    AboveConcat(seen, [m], v);
    AboveOne(m, v);
    AboveOne(top[|top| - 1], v);
    AboveInDescending(top, v, |top| - 1);
  }

  lemma AboveInFour(front: seq<int>, m: seq<int>, back: seq<int>, last: seq<int>, v: int)
    ensures Above(front + m + back, v) == Above(front, v) + Above(m, v) + Above(back, v)
    ensures Above(front + back + last, v) == Above(front, v) + Above(back, v) + Above(last, v)
  {
    AboveConcat(front + m, back, v);
    AboveConcat(front, m, v);
    AboveConcat(front + back, last, v);
    AboveConcat(front, back, v);
  }

  lemma InsertedAbove(top: seq<int>, pos: nat, m: int, v: int)
    requires pos < |top|
    ensures Above(Inserted(top, pos, m), v) == Above(top, v) + Above([m], v) - Above([top[|top| - 1]], v)
  {
    var n := |top|;
    var front, back := top[..pos], top[pos..n - 1];
    assert top == front + back + [top[n - 1]];
    AboveInFour(front, [m], back, [top[n - 1]], v);
  }

  /** A value not above the smallest one kept changes nothing. */
  lemma SkipKeepsTop(top: seq<int>, m: int, seen: seq<int>)
    requires TopOf(top, seen) && |top| > 0 && m <= top[|top| - 1]
    ensures TopOf(top, seen + [m])
  {
    forall v | v >= 0
      ensures Above(top, v) == Min(|top|, Above(seen + [m], v))
    {
      AboveConcat(seen, [m], v);
      AboveOne(m, v);
      AboveInDescending(top, v, |top| - 1);
    }
  }

  lemma {:induction false} ZerosAreTop(top: seq<int>)
    requires forall i :: 0 <= i < |top| ==> top[i] == 0
    ensures TopOf(top, [])
  {
    forall v | v >= 0
      ensures Above(top, v) == 0
    {
      NoneAbove(top, v);
    }
  }

  lemma {:induction false} NoneAbove(s: seq<int>, v: int)
    requires forall i :: 0 <= i < |s| ==> s[i] <= v
    ensures Above(s, v) == 0
  {
    if s != [] {
      NoneAbove(s[..|s| - 1], v);
    }
  }

  /** The smallest value kept exceeds `v` exactly when enough of the values seen do. */
  lemma SmallestKept(top: seq<int>, seen: seq<int>, v: int)
    requires TopOf(top, seen) && |top| > 0 && v >= 0
    ensures v < top[|top| - 1] <==> Above(seen, v) >= |top|
  {
    AboveInDescending(top, v, |top| - 1);
  }

  // ---------------------------------------------------------------- the code

  /** Insertion into the list of the largest magnitudes, in place. */
  method Insert(maxCoeffs: array<int>, m: int, ghost seen: seq<int>)
    requires maxCoeffs.Length > 0 && TopOf(maxCoeffs[..], seen)
    modifies maxCoeffs
    ensures TopOf(maxCoeffs[..], seen + [m])
  {
    var last := maxCoeffs.Length - 1;
    ghost var top := maxCoeffs[..];
    if m > maxCoeffs[last] {
      var pos := 0;
      while maxCoeffs[pos] > m
        invariant 0 <= pos <= last && forall i :: 0 <= i < pos ==> top[i] > m
        decreases last - pos
      {
        pos := pos + 1;
      }
      if maxCoeffs[pos] > maxCoeffs[last] {
        ShiftRight(maxCoeffs, pos);
      } else {
        assert forall i :: pos <= i <= last ==> top[i] == top[last];
      }
      assert maxCoeffs[..pos] == top[..pos] && maxCoeffs[pos + 1..] == top[pos..last];
      maxCoeffs[pos] := m;
      assert maxCoeffs[..pos] == top[..pos] && maxCoeffs[pos + 1..] == top[pos..last];
      assert maxCoeffs[..] == Inserted(top, pos, m);
      InsertKeepsTop(top, pos, m, seen);
    } else {
      SkipKeepsTop(top, m, seen);
    }
  }

  /** The memmove: everything from `pos` on moves up one place, the last value is lost. */
  method ShiftRight(a: array<int>, pos: nat)
    requires pos < a.Length
    modifies a
    ensures a[..pos] == old(a[..pos]) && a[pos + 1..] == old(a[pos..a.Length - 1])
  {
    var k := a.Length - 1;
    while k > pos
      invariant pos <= k < a.Length
      invariant forall i :: 0 <= i <= k ==> a[i] == old(a[i])
      invariant forall i :: k < i < a.Length ==> a[i] == old(a[i - 1])
    {
      a[k] := a[k - 1];
      k := k - 1;
    }
  }

  /** abs() of a 32-bit value: the lowest one stays what it is. */
  function Magnitude(x: int): (r: int)
    ensures r == -0x8000_0000 || r >= 0
  {
    if x == -0x8000_0000 then x else Abs(x)
  }

  function Magnitudes(s: seq<int>): (r: seq<int>)
    ensures |r| == |s| && forall i :: 0 <= i < |s| ==> r[i] == Magnitude(s[i])
  {
    seq(|s|, i requires 0 <= i < |s| => Magnitude(s[i]))
  }

  /** Division that truncates toward zero. */
  function Quotient(x: int, y: int): int
    requires y != 0
  {
    if x >= 0 then x / y else -(-x / y)
  }

  /** What the divisor goes into lies between 0 and `x`, less than one divisor from `x`. */
  lemma QuotientTruncates(x: int, y: int)
    requires y != 0
    ensures var p := Quotient(x, y) * y; Abs(x - p) < Abs(y) && (x >= 0 ==> 0 <= p <= x) && (x <= 0 ==> x <= p <= 0)
  {
    var z := Abs(x);
    var q := z / y;
    assert z == q * y + z % y && 0 <= z % y < Abs(y);
    assert 0 <= q * y <= z by {
      EuclideanIsBelow(z, y);
    }
    assert (-q) * y == -(q * y);
  }

  lemma EuclideanIsBelow(z: nat, y: int)
    requires y != 0
    ensures 0 <= z / y * y <= z
  {
    assert z == z / y * y + z % y;
    if y > 0 {
      assert z / y >= 0;
    } else {
      assert z / y == -(z / -y);
      assert z / -y >= 0;
    }
  }

  /** The gradient step of tap `k`: the newest `m` outputs against the far-end samples
      from age `k` on. */
  function Gradient(u: seq<int>, y: seq<int>, k: nat, m: nat, twoBeta: int): int
    requires m <= |u| && k + m <= |y| && twoBeta != 0
  {
    Quotient(Int32(Dot(u[..m], y[k..k + m])), twoBeta)
  }

  /** A single output of age `j` moves tap `k` by its product with the far-end sample that is
      `k` samples older, divided by `twoBeta` and truncated: toward the echo. */
  lemma TapFollowsItsSample(u: seq<int>, y: seq<int>, k: nat, m: nat, twoBeta: int, j: nat)
    requires j < m <= |u| && k + m <= |y| && twoBeta > 0 && Fits32(u[j] * y[k + j])
    requires forall i :: 0 <= i < m && i != j ==> u[i] == 0
    ensures var step, product := Gradient(u, y, k, m, twoBeta), u[j] * y[k + j];
            && Abs(product - step * twoBeta) < twoBeta
            && (product >= 0 ==> 0 <= step * twoBeta <= product) && (product <= 0 ==> product <= step * twoBeta <= 0)
  {
    DotOfOne(u[..m], y[k..k + m], j);
    QuotientTruncates(u[j] * y[k + j], twoBeta);
  }

  /** The coefficients after the gradient step. */
  function Stepped(a: seq<int>, u: seq<int>, y: seq<int>, m: nat, twoBeta: int): (r: seq<int>)
    requires m <= |u| && |a| + m <= |y| && twoBeta != 0
    ensures |r| == |a| && forall k :: 0 <= k < |a| ==> r[k] == Int32(a[k] + Gradient(u, y, k, m, twoBeta))
  {
    seq(|a|, k requires 0 <= k < |a| && |a| + m <= |y| => Int32(a[k] + Gradient(u, y, k, m, twoBeta)))
  }

  /** A coefficient survives when fewer than `used` have a larger magnitude; the lowest
      32-bit value, which has none, never does. */
  ghost predicate Survives(c: seq<int>, used: nat, k: nat)
    requires k < |c|
  {
    Magnitude(c[k]) >= 0 && Above(Magnitudes(c), Magnitude(c[k])) < used
  }

  /** The places that hold more than `v`. */
  ghost function PlacesAbove(s: seq<int>, v: int): set<nat> {
    set i: nat | i < |s| && s[i] > v
  }

  lemma {:induction false} AboveCounts(s: seq<int>, v: int)
    ensures Above(s, v) == |PlacesAbove(s, v)|
    decreases |s|
  {
    if s != [] {
      var n := |s| - 1;
      AboveCounts(s[..n], v);
      if s[n] > v {
        assert PlacesAbove(s, v) == PlacesAbove(s[..n], v) + {n};
      } else {
        assert PlacesAbove(s, v) == PlacesAbove(s[..n], v);
      }
    }
  }

  /** The coefficients that are larger than coefficient `k`. */
  ghost function Larger(c: seq<int>, k: nat): set<nat>
    requires k < |c|
  {
    set i: nat | i < |c| && c[i] != -0x8000_0000 && Abs(c[i]) > Abs(c[k])
  }

  /** Those that survive are the ones that fewer than `used` others outdo. */
  lemma SurvivorsAreLargest(c: seq<int>, used: nat, k: nat)
    requires k < |c|
    ensures Survives(c, used, k) <==> c[k] != -0x8000_0000 && |Larger(c, k)| < used
  {
    AboveCounts(Magnitudes(c), Magnitude(c[k]));
    if c[k] != -0x8000_0000 {
      assert Larger(c, k) == PlacesAbove(Magnitudes(c), Magnitude(c[k]));
    }
  }

  /** The coefficients `c` and their upper halves, from `k` on. */
  ghost predicate Kept(a: seq<int>, aShort: seq<int>, c: seq<int>, lo: nat, hi: nat)
    requires |a| == |aShort| == |c|
  {
    forall k :: 0 <= k < |a| && lo <= k < hi ==> a[k] == c[k] && aShort[k] == c[k] / 0x1_0000
  }

  ghost predicate Pruned(a: seq<int>, aShort: seq<int>, c: seq<int>, used: nat, hi: nat)
    requires |a| == |aShort| == |c|
  {
    forall k :: 0 <= k < |a| && k < hi ==>
      if Survives(c, used, k) then a[k] == c[k] && aShort[k] == c[k] / 0x1_0000 else a[k] == 0 && aShort[k] == 0
  }

  /** The first `k` coefficients have their steps and `top` their largest magnitudes. */
  ghost predicate Stepping(before: seq<int>, a: seq<int>, aShort: seq<int>, c: seq<int>, top: seq<int>, k: nat) {
    && |before| == |a| == |aShort| == |c| && k <= |a|
    && Kept(a, aShort, c, 0, k) && a[k..] == before[k..] && TopOf(top, Magnitudes(c)[..k])
  }

  lemma SteppingAt(before: seq<int>, a: seq<int>, aShort: seq<int>, c: seq<int>, top: seq<int>, k: nat)
    requires Stepping(before, a, aShort, c, top, k) && k < |a|
    ensures a[k] == before[k]
  {
    assert a[k] == a[k..][0] && before[k] == before[k..][0];
  }

  lemma SteppingNext(before: seq<int>, a: seq<int>, aShort: seq<int>, c: seq<int>, top: seq<int>, k: nat, top': seq<int>)
    requires Stepping(before, a, aShort, c, top, k) && k < |a|
    requires TopOf(top', Magnitudes(c)[..k] + [Magnitude(c[k])])
    ensures Stepping(before, a[k := c[k]], aShort[k := c[k] / 0x1_0000], c, top', k + 1)
  {
    assert a[k := c[k]][k + 1..] == a[k..][1..] && before[k + 1..] == before[k..][1..];
    assert Magnitudes(c)[..k + 1] == Magnitudes(c)[..k] + [Magnitude(c[k])];
  }

  /** The gradient step of one coefficient. */
  method Step(a: array<int>, aShort: array<int>, k: nat, u: HistoryRing.Ring, y: HistoryRing.Ring, m: nat, twoBeta: int)
    requires a != aShort && k < a.Length == aShort.Length && u.Valid() && y.Valid()
    requires m <= u.size && k + m <= y.size && twoBeta != 0
    requires a != u.buf && a != y.buf && aShort != u.buf && aShort != y.buf
    modifies a, aShort
    ensures u.Valid() && y.Valid()
    ensures var c := Int32(old(a[k]) + Gradient(u.Window(), y.Window(), k, m, twoBeta));
            a[..] == old(a[..])[k := c] && aShort[..] == old(aShort[..])[k := c / 0x1_0000]
  {
    var outputs := u.buf[..][u.idx..u.idx + m];
    assert outputs == u.Window()[..m];
    var grad2 := y.Convolve(outputs, k);
    a[k] := Int32(a[k] + Quotient(grad2, twoBeta));
    aShort[k] := a[k] / 0x1_0000;
  }

  /** The gradient step of one coefficient and its place among the largest. */
  method UpdateOne(a: array<int>, aShort: array<int>, maxCoeffs: array<int>, k: nat, u: HistoryRing.Ring, y: HistoryRing.Ring,
                   m: nat, twoBeta: int, ghost seen: seq<int>, ghost c: int)
    requires a != aShort && k < a.Length == aShort.Length && u.Valid() && y.Valid()
    requires m <= u.size && k + m <= y.size && twoBeta != 0
    requires a != u.buf && a != y.buf && aShort != u.buf && aShort != y.buf
    requires maxCoeffs != a && maxCoeffs != aShort && maxCoeffs != u.buf && maxCoeffs != y.buf
    requires maxCoeffs.Length > 0 && TopOf(maxCoeffs[..], seen)
    requires c == Int32(a[k] + Gradient(u.Window(), y.Window(), k, m, twoBeta))
    modifies a, aShort, maxCoeffs
    ensures u.Valid() && y.Valid() && u.Window() == old(u.Window()) && y.Window() == old(y.Window())
    ensures a[..] == old(a[..])[k := c] && aShort[..] == old(aShort[..])[k := c / 0x1_0000]
    ensures TopOf(maxCoeffs[..], seen + [Magnitude(c)])
  {
    Step(a, aShort, k, u, y, m, twoBeta);
    Insert(maxCoeffs, Magnitude(a[k]), seen);
  }

  /** The coefficient update with more taps than `used` coefficients are kept: every
      coefficient takes its gradient step, then exactly those survive that fewer than
      `used` exceed in magnitude. */
  method UpdateCoefficients(a: array<int>, aShort: array<int>, u: HistoryRing.Ring, y: HistoryRing.Ring,
                            m: nat, twoBeta: int, used: nat)
    requires a != aShort && a.Length == aShort.Length && 0 < used < a.Length && u.Valid() && y.Valid()
    requires m <= u.size && a.Length + m <= y.size && twoBeta != 0
    requires a != u.buf && a != y.buf && aShort != u.buf && aShort != y.buf
    modifies a, aShort
    ensures u.Valid() && y.Valid()
    ensures Pruned(a[..], aShort[..], Stepped(old(a[..]), u.Window(), y.Window(), m, twoBeta), used, a.Length)
  {
    ghost var before, uw, yw := a[..], u.Window(), y.Window();
    ghost var c := Stepped(before, uw, yw, m, twoBeta);
    var maxCoeffs := new int[used](_ => 0);
    ZerosAreTop(maxCoeffs[..]);
    for k := 0 to a.Length
      invariant u.Valid() && y.Valid() && u.Window() == uw && y.Window() == yw
      invariant Stepping(before, a[..], aShort[..], c, maxCoeffs[..], k)
    {
      ghost var a0, short0, top0 := a[..], aShort[..], maxCoeffs[..];
      SteppingAt(before, a0, short0, c, top0, k);
      UpdateOne(a, aShort, maxCoeffs, k, u, y, m, twoBeta, Magnitudes(c)[..k], c[k]);
      SteppingNext(before, a0, short0, c, top0, k, maxCoeffs[..]);
    }
    assert Magnitudes(c)[..a.Length] == Magnitudes(c);
    Prune(a, aShort, c, maxCoeffs, used);
    assert u.Window() == uw && y.Window() == yw;
  }

  /** Zeroes every coefficient smaller than the smallest magnitude kept. */
  method Prune(a: array<int>, aShort: array<int>, ghost c: seq<int>, maxCoeffs: array<int>, used: nat)
    requires a != aShort && a != maxCoeffs && aShort != maxCoeffs && a.Length == aShort.Length == |c|
    requires maxCoeffs.Length == used > 0 && TopOf(maxCoeffs[..], Magnitudes(c))
    requires Kept(a[..], aShort[..], c, 0, a.Length)
    modifies a, aShort
    ensures Pruned(a[..], aShort[..], c, used, a.Length)
  {
    ghost var top := maxCoeffs[..];
    for k := 0 to a.Length
      invariant maxCoeffs[..] == top
      invariant Pruned(a[..], aShort[..], c, used, k) && Kept(a[..], aShort[..], c, k, a.Length)
    {
      assert a[..][k] == c[k];
      if Magnitude(c[k]) >= 0 {
        SmallestKept(top, Magnitudes(c), Magnitude(c[k]));
      }
      if Magnitude(a[k]) < maxCoeffs[used - 1] {
        a[k] := 0;
        aShort[k] := 0;
      }
    }
  }
}
