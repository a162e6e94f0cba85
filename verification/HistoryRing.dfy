/** The doubled circular buffer of the MG2 and KB1 echo cancellers and the array
    routines that read windows of it. */
module HistoryRing {
  import opened FixedPoint

  class Ring {
    const size: nat
    var idx: nat
    const buf: array<int>

    ghost predicate Valid()
      reads this, buf
    {
      size >= 1 && idx < size && Doubled(buf[..], size)
    }

    /** The last `size` samples, newest first. */
    ghost function Window(): (r: seq<int>)
      requires Valid()
      reads this, buf
      ensures |r| == size
    {
      buf[..][idx..idx + size]
    }

    constructor (size: nat)
      requires size >= 1
      ensures Valid() && this.size == size && fresh(buf)
      ensures Window() == seq(size, _ => 0)
    {
      this.size, idx := size, 0;
      buf := new int[2 * size](_ => 0);
    }

    /** Pushes a sample; the oldest one leaves the window. */
    method Add(newval: int)
      requires Valid()
      modifies this`idx, buf
      ensures Valid() && Window() == [newval] + old(Window())[..size - 1]
    {
      ghost var before, was := buf[..], idx;
      if idx == 0 {
        idx := size - 1;
      } else {
        idx := idx - 1;
      }
      buf[idx] := newval;
      buf[idx + size] := newval;
      assert buf[..] == before[idx := newval][idx + size := newval];
      RotateIn(before, size, was, idx, newval, buf[..]);
    }

    /** The sample of age `pos`. */
    method Get(pos: nat) returns (r: int)
      requires Valid() && pos < size
      ensures r == Window()[pos]
    {
      r := buf[idx + pos];
    }

    /** CONVOLVE2 of coefficients with the samples of age `start` on, newest first. */
    method Convolve(coeffs: seq<int>, start: nat) returns (sum: int)
      requires Valid() && start + |coeffs| <= size
      ensures sum == Int32(Dot(coeffs, Window()[start..start + |coeffs|]))
    {
      ghost var h := Window()[start..start + |coeffs|];
      sum := 0;
      for x := 0 to |coeffs|
        invariant sum == Int32(Dot(coeffs[..x], h[..x]))
      {
        var coeff, sample := coeffs[x], buf[idx + start + x];
        assert sample == h[x];
        DotSnoc(coeffs, h, x);
        Int32Absorbs(Dot(coeffs[..x], h[..x]), coeff * sample);
        sum := Int32(sum + coeff * sample);
      }
      assert coeffs[..|coeffs|] == coeffs && h[..|coeffs|] == h;
    }

    /** MAX16 over the whole window: the maximum, never below 0, and how many samples
        its first place still has to live. */
    method Max16() returns (max: int, pos: int)
      requires Valid()
      ensures max >= 0 && forall k :: 0 <= k < size ==> Window()[k] <= max
      ensures 0 <= pos < size && (max > 0 ==> Window()[size - 1 - pos] == max)
      ensures max > 0 ==> forall k :: 0 <= k < size - 1 - pos ==> Window()[k] < max
      ensures max == 0 ==> pos == size - 1
    {
      max := 0;
      var bestpos := 0;
      for k := 0 to size
        invariant 0 <= bestpos < size && max >= 0 && (max == 0 ==> bestpos == 0)
        invariant forall j :: 0 <= j < k ==> Window()[j] <= max
        invariant max > 0 ==> Window()[bestpos] == max && forall j :: 0 <= j < bestpos ==> Window()[j] < max
      {
        if max < buf[idx + k] {
          bestpos := k;
          max := buf[idx + k];
        }
      }
      pos := size - 1 - bestpos;
    }
  }

  ghost predicate Doubled(buf: seq<int>, size: nat) {
    |buf| == 2 * size && forall i, j :: 0 <= i < size && j == size + i ==> buf[i] == buf[j]
  }

  /** Writing one place before the start of the window, in both halves. */
  lemma RotateIn(before: seq<int>, size: nat, idx: nat, at: nat, v: int, after: seq<int>)
    requires idx < size && Doubled(before, size) && at == if idx == 0 then size - 1 else idx - 1
    requires after == before[at := v][at + size := v]
    ensures Doubled(after, size)
    ensures after[at..at + size] == [v] + before[idx..idx + size][..size - 1]
  {
    var now, was := after[at..at + size], before[idx..idx + size];
    forall k | 1 <= k < size ensures now[k] == was[k - 1] {
      assert now[k] == after[at + k] && was[k - 1] == before[idx + (k - 1)];
      if idx == 0 {
        assert at + k == size + (k - 1);
        assert before[k - 1] == before[at + k];
      }
    }
  }
}
