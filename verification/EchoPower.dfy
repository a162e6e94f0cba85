/** The signal power bookkeeping of one echo canceller sample: running sums over
    windows and the cached peak of the short-time average. */
module EchoPower {
  import opened Words
  import opened FixedPoint
  import HistoryRing

  // ---------------------------------------------------------- running sums

  function Scaled(x: int, div: nat): nat
    requires div > 0
  {
    Abs(x) / div
  }

  /** The magnitudes of a window, each divided by `div`, added up. */
  function SumAbs(s: seq<int>, div: nat): nat
    requires div > 0
  {
    if s == [] then 0 else Scaled(s[0], div) + SumAbs(s[1..], div)
  }

  lemma {:induction false} SumAbsSnoc(s: seq<int>, v: int, div: nat)
    requires div > 0
    ensures SumAbs(s + [v], div) == SumAbs(s, div) + Scaled(v, div)
  {
    if s == [] {
      assert [v][1..] == [];
    } else {
      assert (s + [v])[1..] == s[1..] + [v];
      SumAbsSnoc(s[1..], v, div);
    }
  }

  /** A window after one more sample. */
  function Push(w: seq<int>, v: int): seq<int>
    requires |w| > 0
  {
    [v] + w[..|w| - 1]
  }

  /** Subtracting what leaves and adding what comes keeps a running sum exact. */
  lemma SumSlides(w: seq<int>, v: int, n: nat, div: nat)
    requires div > 0 && 1 <= n <= |w|
    ensures SumAbs(Push(w, v)[..n], div) == SumAbs(w[..n], div) - Scaled(w[n - 1], div) + Scaled(v, div)
  {
    assert w[..n] == w[..n - 1] + [w[n - 1]];
    SumAbsSnoc(w[..n - 1], w[n - 1], div);
    assert Push(w, v)[..n] == [v] + w[..n - 1];
    assert ([v] + w[..n - 1])[1..] == w[..n - 1];
  }

  lemma {:induction false} SumOfZeros(s: seq<int>, div: nat)
    requires div > 0 && forall i :: 0 <= i < |s| ==> s[i] == 0
    ensures SumAbs(s, div) == 0
  {
    if s != [] {
      SumOfZeros(s[1..], div);
    }
  }

  ghost predicate AllLowest(s: seq<int>) {
    forall i :: 0 <= i < |s| ==> s[i] == -32768
  }

  lemma {:induction false} AverageBound(w: seq<int>)
    requires Shorts(w)
    ensures SumAbs(w, 32) <= 1024 * |w|
    ensures SumAbs(w, 32) == 1024 * |w| <==> AllLowest(w)
  {
    if w != [] {
      AverageBound(w[1..]);
      assert w == [w[0]] + w[1..];
      assert Abs(w[0]) / 32 <= 1024 && (Abs(w[0]) / 32 == 1024 <==> w[0] == -32768);
      if AllLowest(w[1..]) && w[0] == -32768 {
        assert AllLowest(w);
      }
    }
  }

  /** The short-time average fits a 16-bit sample except for 32 lowest samples in a row. */
  lemma AverageFits(w: seq<int>)
    requires |w| == 32 && Shorts(w)
    ensures Int16(SumAbs(w, 32)) == SumAbs(w, 32) <==> !AllLowest(w)
  {
    AverageBound(w);
  }

  // ---------------------------------------------------------- cached peak

  datatype Peak = Peak(max: int, pos: int)

  /** `max` is the maximum of the window; `pos` more samples may come before its place
      leaves the window. */
  ghost predicate PeakOf(w: seq<int>, p: Peak) {
    && 0 <= p.pos < |w| && w[|w| - 1 - p.pos] == p.max
    && (forall k :: 0 <= k < |w| ==> 0 <= w[k] <= p.max)
  }

  /** A new sample above the peak starts a full lifetime. */
  lemma PeakRises(w: seq<int>, p: Peak, v: int)
    requires PeakOf(w, p) && v > p.max
    ensures PeakOf(Push(w, v), Peak(v, |w| - 1))
  {
  }

  /** Any other sample costs the peak one sample of its life. */
  lemma PeakAges(w: seq<int>, p: Peak, v: int)
    requires PeakOf(w, p) && 0 <= v <= p.max && p.pos > 0
    ensures PeakOf(Push(w, v), Peak(p.max, p.pos - 1))
  {
  }

  /** A search of the new window finds its peak. */
  lemma PeakFound(w: seq<int>, p: Peak, v: int, found: Peak)
    requires PeakOf(w, p) && 0 <= v && found.max >= 0 && 0 <= found.pos < |w|
    requires forall k :: 0 <= k < |w| ==> Push(w, v)[k] <= found.max
    requires if found.max > 0 then Push(w, v)[|w| - 1 - found.pos] == found.max else found.pos == |w| - 1
    ensures PeakOf(Push(w, v), found)
  {
    assert Push(w, v)[0] == v;
  }

  /** The output for a near-end sample: the estimated echo taken off. */
  function Output(isig: int, coeffs: seq<int>, w: seq<int>): int
    requires |coeffs| <= |w|
  {
    Int16(isig - Shift15(Int32(Dot(coeffs, w[..|coeffs|]))))
  }

  /** What is taken from the near-end sample is the estimate, so a right one leaves nothing. */
  lemma OutputRemovesEcho(isig: int, coeffs: seq<int>, w: seq<int>)
    requires |coeffs| <= |w|
    requires var sum := Dot(coeffs, w[..|coeffs|]);
             -0x4000_0000 <= sum < 0x4000_0000 && -32768 <= isig - sum / 0x8000 <= 32767
    ensures var sum, echo := Dot(coeffs, w[..|coeffs|]), isig - Output(isig, coeffs, w);
            0x8000 * echo <= sum < 0x8000 * echo + 0x8000
    ensures var sum := Dot(coeffs, w[..|coeffs|]);
            0x8000 * isig <= sum < 0x8000 * isig + 0x8000 ==> Output(isig, coeffs, w) == 0
  {
    Int32Wraps(Dot(coeffs, w[..|coeffs|]), 0);
  }

  /** Short-time averages of 32 samples. */
  ghost predicate Averages(yTilde: int, sTilde: int, y: seq<int>, s: seq<int>)
    requires |y| >= 32 && |s| >= 32
  {
    Shorts(y) && yTilde == SumAbs(y[..32], 32) && sTilde == SumAbs(s[..32], 1)
  }

  /** Long-time powers of 127 samples on top of the cutoff. */
  ghost predicate LongPowers(Lu: int, Ly: int, u: seq<int>, y: seq<int>)
    requires |u| >= 128 && |y| >= 128
  {
    Lu == 128 + SumAbs(u[..127], 1) && Ly == 128 + SumAbs(y[..127], 1)
  }

  ghost predicate Zeros(s: seq<int>) {
    forall i :: 0 <= i < |s| ==> s[i] == 0
  }

  lemma AtRest(y: seq<int>, s: seq<int>, u: seq<int>)
    requires Zeros(y) && Zeros(s) && Zeros(u) && |y| >= 128 && |s| >= 32 && |u| >= 128
    ensures Averages(0, 0, y, s) && LongPowers(128, 128, u, y)
  {
    SumOfZeros(y[..32], 32);
    SumOfZeros(s[..32], 1);
    SumOfZeros(u[..127], 1);
    SumOfZeros(y[..127], 1);
  }

  class Tracker {
    const taps: nat
    const y: HistoryRing.Ring
    const s: HistoryRing.Ring
    const u: HistoryRing.Ring
    const t: HistoryRing.Ring
    const coeffs: array<int>

    var yTilde: int
    var sTilde: int
    var Lu: int
    var Ly: int
    var maxYTilde: int
    var maxYTildePos: int

    ghost predicate Layout()
      reads this, y, s, u, t, y.buf, s.buf, u.buf, t.buf
    {
      && taps >= 1 && coeffs.Length == taps
      && y.Valid() && s.Valid() && u.Valid() && t.Valid()
      && y.size >= 128 && y.size >= taps && s.size == 32 && u.size >= 128 && t.size == taps
      && y != s && y != u && y != t && s != u && s != t && u != t
      && y.buf != s.buf && y.buf != u.buf && y.buf != t.buf && s.buf != u.buf && s.buf != t.buf && u.buf != t.buf
      && coeffs != y.buf && coeffs != s.buf && coeffs != u.buf && coeffs != t.buf
    }

    /** Every accumulator is exactly the sum it stands for. */
    ghost predicate Valid()
      reads this, y, s, u, t, y.buf, s.buf, u.buf, t.buf
    {
      && Layout()
      && Averages(yTilde, sTilde, y.Window(), s.Window())
      && LongPowers(Lu, Ly, u.Window(), y.Window())
      && Shorts(t.Window())
    }

    /** The cached peak is the maximum of the last `taps` averages. */
    ghost predicate PeakHolds()
      requires t.Valid()
      reads this, t, t.buf
    {
      PeakOf(t.Window(), Peak(maxYTilde, maxYTildePos))
    }

    /** A canceller at rest, on four freshly cleared rings of the sizes it is created with. */
    constructor (taps: nat, y: HistoryRing.Ring, s: HistoryRing.Ring, u: HistoryRing.Ring, t: HistoryRing.Ring,
                 coeffs: array<int>)
      requires taps >= 1 && coeffs.Length == taps
      requires y.Valid() && s.Valid() && u.Valid() && t.Valid()
      requires y.size == (if taps + 16 < 128 then 128 else taps + 16) && s.size == 32 && u.size == 128 && t.size == taps
      requires y != s && y != u && y != t && s != u && s != t && u != t
      requires y.buf != s.buf && y.buf != u.buf && y.buf != t.buf && s.buf != u.buf && s.buf != t.buf && u.buf != t.buf
      requires coeffs != y.buf && coeffs != s.buf && coeffs != u.buf && coeffs != t.buf
      requires Zeros(y.Window()) && Zeros(s.Window()) && Zeros(u.Window()) && Zeros(t.Window())
      ensures Valid() && PeakHolds() && this.taps == taps && this.y == y && this.s == s && this.u == u && this.t == t
    {
      this.taps, this.y, this.s, this.u, this.t, this.coeffs := taps, y, s, u, t, coeffs;
      yTilde, sTilde, Lu, Ly, maxYTilde, maxYTildePos := 0, 0, 128, 128, 0, 0;
      new;
      AtRest(y.Window(), s.Window(), u.Window());
    }

    /** The far-end sample enters its window and average. */
    method FarEnd(iref: int)
      requires Layout() && yTilde == SumAbs(y.Window()[..32], 32)
      modifies this`yTilde, y`idx, y.buf
      ensures Layout() && y.Window() == Push(old(y.Window()), iref)
      ensures yTilde == SumAbs(y.Window()[..32], 32)
    {
      SumSlides(y.Window(), iref, 32, 32);
      var oldest := y.Get(31);
      yTilde := yTilde - Abs(oldest) / 32 + Abs(iref) / 32;
      y.Add(iref);
    }

    /** The near-end sample enters its window and average. */
    method NearEnd(isig: int)
      requires Layout() && sTilde == SumAbs(s.Window()[..32], 1)
      modifies this`sTilde, s`idx, s.buf
      ensures Layout() && s.Window() == Push(old(s.Window()), isig)
      ensures sTilde == SumAbs(s.Window()[..32], 1)
    {
      SumSlides(s.Window(), isig, 32, 1);
      var oldest := s.Get(31);
      sTilde := sTilde - Abs(oldest) + Abs(isig);
      s.Add(isig);
    }

    /** The powers of the output and of the far end; both windows hold the new sample
        already. The cutoff that guards the far-end power never acts. */
    method Powers(out: int, iref: int, ghost uOld: seq<int>, ghost yOld: seq<int>)
      requires Layout() && |uOld| == u.size && |yOld| == y.size
      requires u.Window() == Push(uOld, out) && y.Window() == Push(yOld, iref)
      requires LongPowers(Lu, Ly, uOld, yOld)
      modifies this`Lu, this`Ly
      ensures LongPowers(Lu, Ly, u.Window(), y.Window())
    {
      SumSlides(uOld, out, 127, 1);
      SumSlides(yOld, iref, 127, 1);
      var oldest := u.Get(127);
      Lu := Lu - Abs(oldest) + Abs(out);
      oldest := y.Get(127);
      Ly := Ly - Abs(oldest) + Abs(iref);
      Ly := if Ly < 128 then 128 else Ly;
    }

    /** The newest average, already in its window, updates the cached peak: it stays
        right exactly when the average fits its window. */
    method UpdatePeak(ghost w: seq<int>)
      requires t.Valid() && |w| == t.size && Shorts(w) && 0 <= yTilde <= 32768 && t.Window() == Push(w, Int16(yTilde))
      modifies this`maxYTilde, this`maxYTildePos
      ensures old(PeakOf(w, Peak(maxYTilde, maxYTildePos))) ==> (PeakHolds() <==> yTilde < 32768)
    {
      ghost var p := Peak(maxYTilde, maxYTildePos);
      assert yTilde == 32768 ==> t.Window()[0] == -32768;
      if yTilde > maxYTilde {
        if PeakOf(w, p) && yTilde < 32768 {
          PeakRises(w, p, yTilde);
        }
        maxYTilde := yTilde;
        maxYTildePos := t.size - 1;
      } else {
        AgePeak(w);
      }
    }

    /** The cached peak has one sample less to live, and at its end a new one is searched. */
    method AgePeak(ghost w: seq<int>)
      requires t.Valid() && |w| == t.size && 0 <= yTilde <= maxYTilde && t.Window() == Push(w, Int16(yTilde)) && Shorts(w)
      modifies this`maxYTilde, this`maxYTildePos
      ensures old(PeakOf(w, Peak(maxYTilde, maxYTildePos))) ==> yTilde < 32768 && PeakHolds()
    {
      ghost var p := Peak(maxYTilde, maxYTildePos);
      if PeakOf(w, p) && maxYTildePos > 0 {
        PeakAges(w, p, yTilde);
      }
      maxYTildePos := maxYTildePos - 1;
      if maxYTildePos < 0 {
        maxYTilde, maxYTildePos := t.Max16();
        if PeakOf(w, p) {
          assert t.Window() == Push(w, yTilde);
          assert forall k :: 0 <= k < |w| ==> Push(w, yTilde)[k] <= maxYTilde;
          PeakFound(w, p, yTilde, Peak(maxYTilde, maxYTildePos));
        }
      }
    }

    /** One sample: the echo estimate taken off, then all windows, sums and the peak.
        The sums stay exact for every stream; the peak stays right exactly as long as
        there are not 32 lowest far-end samples in a row. */
    method SampleUpdate(iref: int, isig: int) returns (out: int)
      requires Valid() && -32768 <= iref <= 32767 && -32768 <= isig <= 32767
      modifies this`yTilde, this`sTilde, this`Lu, this`Ly, this`maxYTilde, this`maxYTildePos
      modifies y`idx, s`idx, u`idx, t`idx, y.buf, s.buf, u.buf, t.buf
      ensures Valid()
      ensures old(PeakHolds()) ==> (PeakHolds() <==> !AllLowest(y.Window()[..32]))
      ensures y.Window() == Push(old(y.Window()), iref) && s.Window() == Push(old(s.Window()), isig)
      ensures u.Window() == Push(old(u.Window()), out)
      ensures t.Window() == Push(old(t.Window()), Int16(SumAbs(y.Window()[..32], 32)))
      ensures out == Output(isig, coeffs[..], y.Window())
    {
      ghost var y0, u0 := y.Window(), u.Window();
      out := Inputs(iref, isig);
      AverageBound(y.Window()[..32]);
      Powers(out, iref, u0, y0);
      TrackPeak();
    }

    /** Both samples enter and the output leaves. */
    method Inputs(iref: int, isig: int) returns (out: int)
      requires Layout() && Averages(yTilde, sTilde, y.Window(), s.Window()) && -32768 <= iref <= 32767
      modifies this`yTilde, this`sTilde, y`idx, s`idx, u`idx, y.buf, s.buf, u.buf
      ensures Layout() && Averages(yTilde, sTilde, y.Window(), s.Window())
      ensures y.Window() == Push(old(y.Window()), iref) && s.Window() == Push(old(s.Window()), isig)
      ensures u.Window() == Push(old(u.Window()), out)
      ensures t.Window() == old(t.Window())
      ensures out == Output(isig, coeffs[..], y.Window())
    {
      FarEnd(iref);
      out := Cancel(isig);
      NearEnd(isig);
    }

    /** The output is the input less the estimated echo. */
    method Cancel(isig: int) returns (out: int)
      requires Layout()
      modifies u`idx, u.buf
      ensures Layout() && u.Window() == Push(old(u.Window()), out)
      ensures out == Output(isig, coeffs[..], y.Window())
    {
      var rs := y.Convolve(coeffs[..], 0);
      assert y.Window()[0..taps] == y.Window()[..taps];
      out := Int16(isig - Shift15(rs));
      u.Add(out);
    }

    /** The average enters its window and the cached peak follows. */
    method TrackPeak()
      requires Layout() && 0 <= yTilde <= 32768 && Shorts(t.Window())
      modifies this`maxYTilde, this`maxYTildePos, t`idx, t.buf
      ensures Layout() && t.Window() == Push(old(t.Window()), Int16(yTilde)) && Shorts(t.Window())
      ensures y.Window() == old(y.Window()) && s.Window() == old(s.Window()) && u.Window() == old(u.Window())
      ensures old(PeakHolds()) ==> (PeakHolds() <==> yTilde < 32768)
    {
      ghost var t0 := t.Window();
      t.Add(Int16(yTilde));
      UpdatePeak(t0);
    }
  }
}
