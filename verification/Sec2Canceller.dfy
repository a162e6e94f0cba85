/** The rotating FIR filter and the SEC2 echo canceller that trains its taps in step
    with it. */
module Sec2Canceller {
  import opened Words
  import opened FixedPoint

  /** The history newest first, seen from the write position: the newest sample is at
      `pos`, the next older one just above it, wrapping round. */
  function Aged(history: seq<int>, pos: nat): (r: seq<int>)
    requires pos < |history|
    ensures |r| == |history|
  {
    history[pos..] + history[..pos]
  }

  /** The order in which samples meet the taps. */
  function Paired(aged: seq<int>): (r: seq<int>)
    requires |aged| > 0
    ensures |r| == |aged|
  {
    aged[1..] + [aged[0]]
  }

  /** Tap `i` meets the sample of age (i + 1) mod taps. */
  lemma PairedByAge(aged: seq<int>, i: nat)
    requires i < |aged|
    ensures Paired(aged)[i] == aged[(i + 1) % |aged|]
  {
    RingNext(i, |aged|);
  }

  /** Where the two loops of the filter find the sample for tap `i`. */
  lemma TapSample(history: seq<int>, pos: nat, i: nat)
    requires pos < |history| && i < |history|
    ensures var offset2 := pos + 1;
            var offset1 := |history| - offset2;
            var from := if i >= offset1 then i - offset1 else i + offset2;
            0 <= from < |history| && Paired(Aged(history, pos))[i] == history[from]
  {
  }

  /** A sample written at the oldest place becomes the newest. */
  lemma AgedWithSample(history: seq<int>, pos: nat, sample: int)
    requires pos < |history|
    ensures Aged(history[pos := sample], pos) == [sample] + (history[pos + 1..] + history[..pos + 1])[..|history| - 1]
  {
  }

  /** The products of taps and samples from tap `i` up, added up. */
  function SumFrom(coeffs: seq<int>, samples: seq<int>, i: nat): int
    requires |coeffs| == |samples| && i <= |coeffs|
    decreases |coeffs| - i
  {
    if i == |coeffs| then 0 else SumFrom(coeffs, samples, i + 1) + coeffs[i] * samples[i]
  }

  lemma {:induction false} SumFromIsDot(coeffs: seq<int>, samples: seq<int>, i: nat)
    requires |coeffs| == |samples| && i <= |coeffs|
    ensures Dot(coeffs[..i], samples[..i]) + SumFrom(coeffs, samples, i) == Dot(coeffs, samples)
    decreases |coeffs| - i
  {
    if i == |coeffs| {
      assert coeffs[..i] == coeffs && samples[..i] == samples;
    } else {
      SumFromIsDot(coeffs, samples, i + 1);
      DotSnoc(coeffs, samples, i);
    }
  }

  class Fir16 {
    const taps: nat
    var currPos: nat
    const coeffs: array<int>
    const history: array<int>

    ghost predicate Valid()
      reads this
    {
      && taps >= 1 && currPos < taps && coeffs.Length == taps && history.Length == taps && coeffs != history
    }

    /** The samples between calls, newest first; the slot at `currPos` is the oldest. */
    ghost function Samples(): (r: seq<int>)
      requires Valid()
      reads this, history
      ensures |r| == taps
    {
      history[currPos + 1..] + history[..currPos + 1]
    }

    /** fir16_create: an empty history for the given coefficients. */
    constructor (coeffs: array<int>)
      requires coeffs.Length >= 1
      ensures Valid() && this.coeffs == coeffs && taps == coeffs.Length && fresh(history)
      ensures currPos == taps - 1 && Samples() == seq(taps, _ => 0)
    {
      taps := coeffs.Length;
      currPos := coeffs.Length - 1;
      this.coeffs := coeffs;
      history := new int[coeffs.Length](_ => 0);
    }

    /** The two loops over the taps, for the sample just written at `currPos`. */
    method Convolve() returns (y: int)
      requires Valid()
      ensures y == Int32(Dot(coeffs[..], Paired(Aged(history[..], currPos))))
    {
      var offset2 := currPos + 1;
      var offset1 := taps - offset2;
      ghost var c, paired := coeffs[..], Paired(Aged(history[..], currPos));
      y := 0;
      var i := taps - 1;
      while i >= offset1
        invariant offset1 - 1 <= i < taps && y == Int32(SumFrom(c, paired, i + 1))
      {
        TapSample(history[..], currPos, i);
        Int32Absorbs(SumFrom(c, paired, i + 1), c[i] * paired[i]);
        y := Int32(y + coeffs[i] * history[i - offset1]);
        i := i - 1;
      }
      while i >= 0
        invariant -1 <= i < offset1 && y == Int32(SumFrom(c, paired, i + 1))
      {
        TapSample(history[..], currPos, i);
        Int32Absorbs(SumFrom(c, paired, i + 1), c[i] * paired[i]);
        y := Int32(y + coeffs[i] * history[i + offset2]);
        i := i - 1;
      }
      SumFromIsDot(c, paired, 0);
      assert Dot(c[..0], paired[..0]) == 0;
    }

    /** Filters one sample. */
    method Filter(sample: int) returns (y: int)
      requires Valid()
      modifies this`currPos, history
      ensures Valid()
      ensures Samples() == [sample] + old(Samples())[..taps - 1]
      ensures Samples() == Aged(history[..], old(currPos))
      ensures y == Echo(old(coeffs[..]), Samples())
      ensures currPos == if old(currPos) == 0 then taps - 1 else old(currPos) - 1
    {
      AgedWithSample(history[..], currPos, sample);
      ghost var aged := Aged(history[..][currPos := sample], currPos);
      history[currPos] := sample;
      y := Convolve();
      if currPos == 0 {
        currPos := taps;
      }
      currPos := currPos - 1;
      assert Samples() == aged;
      y := Int16(Shift15(y));
    }
  }

  // ---------------------------------------------------------------- SEC2

  const MIN_TX_POWER_FOR_ADAPTION := 512
  const MIN_RX_POWER_FOR_ADAPTION := 64
  const NONUPDATE_DWELL_TIME := 600

  /** One tap after training: a little leaks away, the correction is added. */
  function Trained(tap: int, correction: int): int {
    Int32(Int32(tap - tap / 4096) + correction)
  }

  function Correction(sample: int, nsuppr: int): int {
    sample * nsuppr
  }

  /** The taps from `k` on are trained, the others are as they were. */
  ghost predicate TrainedFrom(k: int, before: seq<int>, paired: seq<int>, nsuppr: int, taps: seq<int>, coeffs: seq<int>) {
    && |before| == |paired| == |taps| == |coeffs|
    && (forall j {:trigger taps[j]} :: 0 <= j < |taps| && j < k ==> taps[j] == before[j])
    && (forall j {:trigger taps[j]} :: 0 <= j < |taps| && k <= j ==>
          taps[j] == Trained(before[j], Correction(paired[j], nsuppr)) && coeffs[j] == Int16(Shift15(taps[j])))
  }

  lemma TrainsNext(k: nat, before: seq<int>, paired: seq<int>, nsuppr: int, taps: seq<int>, coeffs: seq<int>)
    requires k < |taps| && TrainedFrom(k + 1, before, paired, nsuppr, taps, coeffs)
    ensures var tap := Trained(taps[k], Correction(paired[k], nsuppr));
            TrainedFrom(k, before, paired, nsuppr, taps[k := tap], coeffs[k := Int16(Shift15(tap))])
  {
  }

  /** What is left of the taps when the 4096th part of each, rounded down, has leaked away. */
  function Leaked(taps: seq<int>): (r: seq<int>)
    ensures |r| == |taps|
    ensures forall i :: 0 <= i < |r| ==> 4096 * (taps[i] - r[i]) <= taps[i] < 4096 * (taps[i] - r[i]) + 4096
  {
    seq(|taps|, i requires 0 <= i < |taps| => taps[i] - taps[i] / 4096)
  }

  /** No sum leaves 32 bits when these taps are trained by `nsuppr`. */
  ghost predicate StaysIn32(taps: seq<int>, aged: seq<int>, nsuppr: int) {
    && |taps| == |aged| > 0
    && forall i {:trigger taps[i]} :: 0 <= i < |taps| ==>
         Fits32(taps[i]) && Fits32(Leaked(taps)[i] + nsuppr * aged[(i + 1) % |aged|])
  }

  lemma LeakFits(tap: int, left: int)
    requires Fits32(tap) && 4096 * (tap - left) <= tap < 4096 * (tap - left) + 4096
    ensures Fits32(left) && left == tap - tap / 4096
  {
  }

  /** Training adds `nsuppr` times the sample of age (i + 1) mod taps to what is left of tap
      `i`, and gives the filter its upper half. */
  lemma TapsFollowSamples(before: seq<int>, aged: seq<int>, nsuppr: int, taps: seq<int>, coeffs: seq<int>, i: nat)
    requires StaysIn32(before, aged, nsuppr) && TrainedFrom(0, before, Paired(aged), nsuppr, taps, coeffs) && i < |aged|
    ensures taps[i] == Leaked(before)[i] + nsuppr * aged[(i + 1) % |aged|]
    ensures -0x4000_0000 <= taps[i] < 0x4000_0000 ==> 0x8000 * coeffs[i] <= taps[i] < 0x8000 * coeffs[i] + 0x8000
  {
    var tap, left, sample := before[i], Leaked(before)[i], aged[(i + 1) % |aged|];
    PairedByAge(aged, i);
    LeakFits(tap, left);
    assert Paired(aged)[i] == sample && sample * nsuppr == nsuppr * sample;
    Int32Wraps(left, 0);
    Int32Wraps(left + nsuppr * sample, 0);
    if -0x4000_0000 <= taps[i] < 0x4000_0000 {
      UpperHalf(taps[i]);
      Int32Wraps(taps[i], 0);
    }
  }

  lemma EnergyOfPaired(aged: seq<int>)
    requires |aged| > 0
    ensures Energy(Paired(aged)) == Energy(aged)
  {
    var newest, older := aged[0], aged[1..];
    assert aged == [newest] + older;
    EnergyCons(newest, older);
    EnergySnoc(older, newest);
  }

  /** Training moves the estimate for the very samples it was made with by `nsuppr` times
      their energy, so always in the direction of the residue. */
  lemma EstimateFollowsResidue(before: seq<int>, aged: seq<int>, nsuppr: int, taps: seq<int>, coeffs: seq<int>)
    requires StaysIn32(before, aged, nsuppr) && TrainedFrom(0, before, Paired(aged), nsuppr, taps, coeffs)
    ensures Dot(taps, Paired(aged)) == Dot(Leaked(before), Paired(aged)) + nsuppr * Energy(aged)
    ensures (exists k :: 0 <= k < |aged| && aged[k] != 0) ==>
              && (nsuppr > 0 <==> Dot(taps, Paired(aged)) > Dot(Leaked(before), Paired(aged)))
              && (nsuppr < 0 <==> Dot(taps, Paired(aged)) < Dot(Leaked(before), Paired(aged)))
  {
    forall i | 0 <= i < |taps| ensures taps[i] == Leaked(before)[i] + nsuppr * Paired(aged)[i] {
      TapsFollowSamples(before, aged, nsuppr, taps, coeffs, i);
      PairedByAge(aged, i);
    }
    DotOfMoved(taps, Leaked(before), Paired(aged), nsuppr);
    EnergyOfPaired(aged);
    if k :| 0 <= k < |aged| && aged[k] != 0 {
      EnergyIsPositive(aged, k);
      SignOfProduct(nsuppr, Energy(aged));
    }
  }

  lemma SignOfProduct(x: int, e: int)
    requires e > 0
    ensures (x > 0 <==> x * e > 0) && (x < 0 <==> x * e < 0)
  {
  }

  function Power(power: int, sample: int): int {
    power + (Abs(sample) - power) / 32
  }

  /** A level never passes the magnitude of the sample, and rests just while that is at
      most 31 higher. */
  lemma PowerApproaches(power: int, sample: int)
    ensures var level := Power(power, sample);
            && (power <= Abs(sample) ==> power <= level <= Abs(sample))
            && (Abs(sample) <= power ==> Abs(sample) <= level <= power)
            && (level == power <==> power <= Abs(sample) < power + 32)
  {
  }

  /** The filter's echo estimate for samples newest first. */
  function Echo(coeffs: seq<int>, samples: seq<int>): int
    requires |coeffs| == |samples| > 0
  {
    Int16(Shift15(Int32(Dot(coeffs, Paired(samples)))))
  }

  /** Where the sum stays in 31 bits, the estimate is its upper half. */
  lemma EchoIsExact(coeffs: seq<int>, aged: seq<int>)
    requires |coeffs| == |aged| > 0 && -0x4000_0000 <= Dot(coeffs, Paired(aged)) < 0x4000_0000
    ensures var echo := Echo(coeffs, aged); 0x8000 * echo <= Dot(coeffs, Paired(aged)) < 0x8000 * echo + 0x8000
  {
    UpperHalf(Dot(coeffs, Paired(aged)));
  }

  /** Either every tap was trained with the sample the filter pairs it with, or none was. */
  ghost predicate TrainedBy(adapts: bool, taps: seq<int>, coeffs: seq<int>, paired: seq<int>, nsuppr: int,
                            taps': seq<int>, coeffs': seq<int>)
  {
    && (adapts ==> TrainedFrom(0, taps, paired, nsuppr, taps', coeffs'))
    && (!adapts ==> taps' == taps && coeffs' == coeffs)
  }

  /** Enough is sent and received to train on. */
  predicate Loud(txPower: int, rxPower: int) {
    txPower > MIN_TX_POWER_FOR_ADAPTION && rxPower > MIN_RX_POWER_FOR_ADAPTION
  }

  /** The samples to wait after a sample, at the power levels before it. */
  function NextDwell(dwell: nat, txPower: int, rxPower: int): (r: nat)
    ensures r > 0 ==> Loud(txPower, rxPower)
  {
    if !Loud(txPower, rxPower) then 0
    else if txPower <= 2 * rxPower then NONUPDATE_DWELL_TIME
    else if dwell > 0 then dwell - 1 else 0
  }

  predicate Trains(dwell: nat, txPower: int, rxPower: int) {
    Loud(txPower, rxPower) && txPower > 2 * rxPower && dwell <= 1
  }

  /** The same over a run of samples with these levels. */
  function DwellAfter(dwell: nat, levels: seq<(int, int)>): nat
    decreases |levels|
  {
    if levels == [] then dwell
    else
      var n := |levels| - 1;
      NextDwell(DwellAfter(dwell, levels[..n]), levels[n].0, levels[n].1)
  }

  /** After far-end speech the canceller trains again at the earliest NONUPDATE_DWELL_TIME
      samples later, unless it was too quiet in between. */
  lemma {:induction false} SpeechStopsTraining(dwell: nat, speech: (int, int), levels: seq<(int, int)>, next: (int, int))
    requires Loud(speech.0, speech.1) && speech.0 <= 2 * speech.1
    requires forall k :: 0 <= k < |levels| ==> Loud(levels[k].0, levels[k].1)
    ensures DwellAfter(dwell, [speech] + levels) + |levels| >= NONUPDATE_DWELL_TIME
    ensures Trains(DwellAfter(dwell, [speech] + levels), next.0, next.1) ==> |levels| + 1 >= NONUPDATE_DWELL_TIME
    decreases |levels|
  {
    var all := [speech] + levels;
    var n := |all| - 1;
    if levels == [] {
      assert all[0] == speech;
    } else {
      assert all[..n] == [speech] + levels[..n - 1];
      SpeechStopsTraining(dwell, speech, levels[..n - 1], next);
      assert all[n] == levels[n - 1];
    }
  }

  /** Samples with far-end signal only, loud enough to train on. */
  predicate OneSided(levels: seq<(int, int)>) {
    forall k :: 0 <= k < |levels| ==> levels[k].0 > 512 && levels[k].1 > 64 && levels[k].0 > 2 * levels[k].1
  }

  /** The canceller trains on such a sample exactly when 599 of them at least came since the
      last one with far-end speech. */
  lemma {:induction false} TrainingResumes(dwell: nat, speech: (int, int), levels: seq<(int, int)>, next: (int, int))
    requires speech.0 > 512 && speech.1 > 64 && speech.0 <= 2 * speech.1 && OneSided(levels) && OneSided([next])
    ensures DwellAfter(dwell, [speech] + levels) == if |levels| < 600 then 600 - |levels| else 0
    ensures Trains(DwellAfter(dwell, [speech] + levels), next.0, next.1) <==> |levels| >= 599
    decreases |levels|
  {
    var all, n := [speech] + levels, |levels|;
    assert [next][0] == next;
    if n == 0 {
      assert all[0] == speech && all[..0] == [];
    } else {
      assert all[..n] == [speech] + levels[..n - 1];
      TrainingResumes(dwell, speech, levels[..n - 1], next);
      assert all[n] == levels[n - 1];
    }
  }

  /** It never trains on a quiet sample or on far-end speech, and a quiet sample ends the wait. */
  lemma QuietEndsTheWait(dwell: nat, tx: int, rx: int)
    ensures tx <= 512 || rx <= 64 || tx <= 2 * rx ==> !Trains(dwell, tx, rx)
    ensures tx <= 512 || rx <= 64 ==> NextDwell(dwell, tx, rx) == 0
  {
  }

  class Canceller {
    const fir: Fir16
    const taps32: array<int>
    var currPos: nat
    var txPower: int
    var rxPower: int
    var cleanRxPower: int
    var nonupdateDwell: nat
    var useNlp: bool

    /** The canceller's own position is always the filter's. */
    ghost predicate Valid()
      reads this, fir
    {
      && fir.Valid() && currPos == fir.currPos
      && taps32.Length == fir.taps && taps32 != fir.coeffs && taps32 != fir.history
    }

    constructor (fir: Fir16, taps32: array<int>)
      requires fir.Valid() && fir.currPos == fir.taps - 1
      requires taps32.Length == fir.taps && taps32 != fir.coeffs && taps32 != fir.history
      ensures Valid() && this.fir == fir && this.taps32 == taps32
    {
      this.fir, this.taps32, currPos := fir, taps32, fir.taps - 1;
      txPower, rxPower, cleanRxPower, nonupdateDwell, useNlp := 0, 0, 0, 0, false;
    }

    /** A little leaks away, the correction is added. */
    method TrainTap(i: nat, correction: int)
      requires taps32.Length == fir.coeffs.Length && taps32 != fir.coeffs && i < taps32.Length
      modifies taps32, fir.coeffs
      ensures taps32[..] == old(taps32[..])[i := Trained(old(taps32[..])[i], correction)]
      ensures fir.coeffs[..] == old(fir.coeffs[..])[i := Int16(Shift15(Trained(old(taps32[..])[i], correction)))]
    {
      var tap := Trained(taps32[i], correction);
      taps32[i] := tap;
      fir.coeffs[i] := Int16(Shift15(tap));
    }

    /** The two training loops, made after the filter has moved on but before the
        canceller has: every tap is paired with the sample the filter gave it. */
    method Train(nsuppr: int)
      requires fir.Valid() && currPos < fir.taps == taps32.Length && taps32 != fir.coeffs && taps32 != fir.history
      requires fir.Samples() == Aged(fir.history[..], currPos)
      modifies taps32, fir.coeffs
      ensures TrainedFrom(0, old(taps32[..]), Paired(fir.Samples()), nsuppr, taps32[..], fir.coeffs[..])
    {
      var offset2 := currPos + 1;
      var offset1 := fir.taps - offset2;
      ghost var before, paired := taps32[..], Paired(fir.Samples());
      var i := fir.taps - 1;
      while i >= offset1
        invariant offset1 - 1 <= i < fir.taps
        invariant TrainedFrom(i + 1, before, paired, nsuppr, taps32[..], fir.coeffs[..])
      {
        TapSample(fir.history[..], currPos, i);
        TrainsNext(i, before, paired, nsuppr, taps32[..], fir.coeffs[..]);
        var correction := Correction(fir.history[i - offset1], nsuppr);
        TrainTap(i, correction);
        i := i - 1;
      }
      while i >= 0
        invariant -1 <= i < offset1
        invariant TrainedFrom(i + 1, before, paired, nsuppr, taps32[..], fir.coeffs[..])
      {
        TapSample(fir.history[..], currPos, i);
        TrainsNext(i, before, paired, nsuppr, taps32[..], fir.coeffs[..]);
        var correction := Correction(fir.history[i + offset2], nsuppr);
        TrainTap(i, correction);
        i := i - 1;
      }
    }

    /** Is there far-end signal only, loud enough and for long enough, to train on? */
    ghost predicate Adapts()
      reads this
    {
      Trains(nonupdateDwell, txPower, rxPower)
    }

    /** The decision whether to train, and the training. */
    method Adapt(clean: int)
      requires fir.Valid() && currPos < fir.taps == taps32.Length && taps32 != fir.coeffs && taps32 != fir.history
      requires fir.Samples() == Aged(fir.history[..], currPos)
      modifies this`nonupdateDwell, taps32, fir.coeffs
      ensures TrainedBy(old(Adapts()), old(taps32[..]), old(fir.coeffs[..]), Paired(fir.Samples()), clean / 8,
                        taps32[..], fir.coeffs[..])
      ensures nonupdateDwell == NextDwell(old(nonupdateDwell), txPower, rxPower)
    {
      if nonupdateDwell > 0 {
        nonupdateDwell := nonupdateDwell - 1;
      }
      if txPower > MIN_TX_POWER_FOR_ADAPTION && rxPower > MIN_RX_POWER_FOR_ADAPTION {
        if txPower > 2 * rxPower {
          if nonupdateDwell == 0 {
            Train(clean / 8);
          }
        } else {
          nonupdateDwell := NONUPDATE_DWELL_TIME;
        }
      } else {
        nonupdateDwell := 0;
      }
    }

    /** The short-term power levels. */
    method UpdatePowers(tx: int, rx: int, clean: int)
      modifies this`txPower, this`rxPower, this`cleanRxPower
      ensures txPower == Power(old(txPower), tx) && rxPower == Power(old(rxPower), rx)
      ensures cleanRxPower == Power(old(cleanRxPower), clean)
    {
      txPower := txPower + (Abs(tx) - txPower) / 32;
      rxPower := rxPower + (Abs(rx) - rxPower) / 32;
      cleanRxPower := cleanRxPower + (Abs(clean) - cleanRxPower) / 32;
    }

    /** One sample through the canceller. */
    method SampleUpdate(tx: int, rx: int) returns (cleanRx: int)
      requires Valid()
      modifies this`currPos, this`txPower, this`rxPower, this`cleanRxPower, this`nonupdateDwell
      modifies fir`currPos, fir.history, fir.coeffs, taps32
      ensures Valid() && fir.Samples() == [tx] + old(fir.Samples())[..fir.taps - 1]
      ensures var clean := rx - Echo(old(fir.coeffs[..]), fir.Samples());
        && cleanRx == (if useNlp && rxPower < 32 then 0 else Int16(clean))
        && cleanRxPower == Power(old(cleanRxPower), clean)
        && TrainedBy(old(Adapts()), old(taps32[..]), old(fir.coeffs[..]), Paired(fir.Samples()), clean / 8,
                     taps32[..], fir.coeffs[..])
      ensures txPower == Power(old(txPower), tx) && rxPower == Power(old(rxPower), rx)
      ensures nonupdateDwell == NextDwell(old(nonupdateDwell), old(txPower), old(rxPower))
    {
      var echo := fir.Filter(tx);
      cleanRx := rx - echo;
      ghost var clean, samples := cleanRx, fir.Samples();
      Adapt(cleanRx);
      ghost var taps, coeffs := taps32[..], fir.coeffs[..];
      assert TrainedBy(old(Adapts()), old(taps32[..]), old(fir.coeffs[..]), Paired(samples), clean / 8, taps, coeffs);
      UpdatePowers(tx, rx, cleanRx);
      cleanRx := if useNlp && rxPower < 32 then 0 else Int16(cleanRx);
      if currPos == 0 {
        currPos := fir.taps;
      }
      currPos := currPos - 1;
      assert fir.Samples() == samples && taps32[..] == taps && fir.coeffs[..] == coeffs;
    }
  }
}
