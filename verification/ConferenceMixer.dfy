/** One tick of the conference bridge: real talkers, bank rotation, pseudo talkers,
    then all listeners, for any number of channels and conferences. */
module ConferenceMixer {
  import opened Words
  import opened Saturation

  /** A channel in plain conference mode, neither muted nor dialing; `confn` is 0 for a
      channel that is in no conference. */
  datatype Channel = Channel(confn: nat, pseudo: bool, talker: bool, listener: bool)

  ghost predicate WellFormed(chans: seq<Channel>, put: seq<seq<int>>, chunk: nat) {
    && |put| == |chans| && (forall i :: 0 <= i < |put| ==> |put[i]| == chunk && Shorts(put[i]))
    && forall i :: 0 <= i < |chans| ==> chans[i].confn == 0 ==> !chans[i].talker && !chans[i].listener
  }

  /** Conference `a` at instant `x`, begun at `start`, after all real channels and then the
      pseudo channels below `n` (`pseudo`), or after the real channels below `n`. */
  ghost function Mix(start: int, chans: seq<Channel>, put: seq<seq<int>>, chunk: nat, n: nat, pseudo: bool, a: nat, x: nat)
    : (r: int)
    requires WellFormed(chans, put, chunk) && n <= |chans| && x < chunk
    ensures Short(start) ==> Short(r)
    decreases pseudo, n
  {
    if n == 0 then (if pseudo then Mix(start, chans, put, chunk, |chans|, false, a, x) else start)
    else
      var sum := Mix(start, chans, put, chunk, n - 1, pseudo, a, x);
      if chans[n - 1].pseudo == pseudo && chans[n - 1].talker && chans[n - 1].confn == a
      then Clamp(sum + put[n - 1][x]) else sum
  }

  /** What channel `i` adds to its conference. */
  ghost function Added(start: int, chans: seq<Channel>, put: seq<seq<int>>, chunk: nat, i: nat, x: nat): int
    requires WellFormed(chans, put, chunk) && i < |chans| && x < chunk
  {
    Mix(start, chans, put, chunk, i + 1, chans[i].pseudo, chans[i].confn, x)
    - Mix(start, chans, put, chunk, i, chans[i].pseudo, chans[i].confn, x)
  }

  // ---------------------------------------------------------- conservation

  /** The entries of one conference's channels below `n`, all but channel `skip`. */
  function ConfSum(chans: seq<Channel>, lane: seq<int>, n: nat, a: nat, skip: int): int
    requires n <= |chans| == |lane|
  {
    if n == 0 then 0
    else
      var more := if chans[n - 1].confn == a && n - 1 != skip then lane[n - 1] else 0;
      ConfSum(chans, lane, n - 1, a, skip) + more
  }

  /** The same for one kind of channel only. */
  function KindSum(chans: seq<Channel>, lane: seq<int>, n: nat, a: nat, pseudo: bool): int
    requires n <= |chans| == |lane|
  {
    if n == 0 then 0
    else
      var more := if chans[n - 1].confn == a && chans[n - 1].pseudo == pseudo then lane[n - 1] else 0;
      KindSum(chans, lane, n - 1, a, pseudo) + more
  }

  lemma {:induction false} KindsAddUp(chans: seq<Channel>, lane: seq<int>, n: nat, a: nat)
    requires n <= |chans| == |lane|
    ensures ConfSum(chans, lane, n, a, -1) == KindSum(chans, lane, n, a, false) + KindSum(chans, lane, n, a, true)
  {
    if n > 0 {
      KindsAddUp(chans, lane, n - 1, a);
    }
  }

  lemma {:induction false} AllButOne(chans: seq<Channel>, lane: seq<int>, n: nat, i: nat)
    requires n <= |chans| == |lane| && i < |chans|
    ensures ConfSum(chans, lane, n, chans[i].confn, -1)
         == ConfSum(chans, lane, n, chans[i].confn, i) + (if i < n then lane[i] else 0)
  {
    if n > 0 {
      AllButOne(chans, lane, n - 1, i);
    }
  }

  /** At instant `x` the lane holds what every channel in conference `a` added. */
  ghost predicate Accounts(lane: seq<int>, start: int, chans: seq<Channel>, put: seq<seq<int>>, chunk: nat, a: nat, x: nat)
    requires WellFormed(chans, put, chunk) && x < chunk
  {
    && |lane| == |chans|
    && forall i {:trigger lane[i]} :: 0 <= i < |chans| && chans[i].confn == a ==>
      lane[i] == Added(start, chans, put, chunk, i, x)
  }

  lemma {:induction false} KindIsConserved(lane: seq<int>, start: int, chans: seq<Channel>, put: seq<seq<int>>, chunk: nat,
                                           n: nat, pseudo: bool, a: nat, x: nat)
    requires WellFormed(chans, put, chunk) && n <= |chans| && x < chunk
    requires Accounts(lane, start, chans, put, chunk, a, x)
    ensures Mix(start, chans, put, chunk, n, pseudo, a, x)
         == Mix(start, chans, put, chunk, 0, pseudo, a, x) + KindSum(chans, lane, n, a, pseudo)
  {
    if n > 0 {
      KindIsConserved(lane, start, chans, put, chunk, n - 1, pseudo, a, x);
    }
  }

  /** Conservation: a conference sum is what it began with and the exact sum of what its
      channels added. */
  lemma SumIsConserved(lane: seq<int>, start: int, chans: seq<Channel>, put: seq<seq<int>>, chunk: nat, a: nat, x: nat)
    requires WellFormed(chans, put, chunk) && x < chunk && Accounts(lane, start, chans, put, chunk, a, x)
    ensures Mix(start, chans, put, chunk, |chans|, true, a, x) == start + ConfSum(chans, lane, |chans|, a, -1)
  {
    KindIsConserved(lane, start, chans, put, chunk, |chans|, false, a, x);
    KindIsConserved(lane, start, chans, put, chunk, |chans|, true, a, x);
    KindsAddUp(chans, lane, |chans|, a);
  }

  /** A talker adds part of the own sample, never more; anyone else adds nothing. */
  lemma AdditionWithinSample(start: int, chans: seq<Channel>, put: seq<seq<int>>, chunk: nat, i: nat, x: nat)
    requires WellFormed(chans, put, chunk) && i < |chans| && x < chunk && Short(start)
    ensures var added := Added(start, chans, put, chunk, i, x);
            if chans[i].talker then Between(added, put[i][x]) else added == 0
  {
    AmountReallyAdded(Mix(start, chans, put, chunk, i, chans[i].pseudo, chans[i].confn, x), put[i][x]);
  }

  /** A silent listener gets the clamp of what the conference began with and the exact sum
      of what the others added, unless the own addition is -32768 and the conference is
      negative. */
  lemma ListenerHearsOthers(lane: seq<int>, start: int, chans: seq<Channel>, put: seq<seq<int>>, chunk: nat, i: nat, x: nat)
    requires WellFormed(chans, put, chunk) && i < |chans| && x < chunk && Short(start)
    requires Accounts(lane, start, chans, put, chunk, chans[i].confn, x)
    ensures var sum := Mix(start, chans, put, chunk, |chans|, true, chans[i].confn, x);
            var others := ConfSum(chans, lane, |chans|, chans[i].confn, i);
            Heard(0, lane[i], sum) == Clamp(start + others) <==> lane[i] > -32768 || sum >= 0
  {
    SumIsConserved(lane, start, chans, put, chunk, chans[i].confn, x);
    AllButOne(chans, lane, |chans|, i);
    AdditionWithinSample(start, chans, put, chunk, i, x);
    assert Short(put[i][x]);
    SilentListener(lane[i], Mix(start, chans, put, chunk, |chans|, true, chans[i].confn, x));
  }

  /** With decoded G.711 samples, which exceed -32768, there is no exception. */
  lemma DecodedListenerHearsOthers(lane: seq<int>, start: int, chans: seq<Channel>, put: seq<seq<int>>, chunk: nat,
                                   i: nat, x: nat)
    requires WellFormed(chans, put, chunk) && i < |chans| && x < chunk && Short(start) && put[i][x] > -32768
    requires Accounts(lane, start, chans, put, chunk, chans[i].confn, x)
    ensures Heard(0, lane[i], Mix(start, chans, put, chunk, |chans|, true, chans[i].confn, x))
         == Clamp(start + ConfSum(chans, lane, |chans|, chans[i].confn, i))
  {
    AdditionWithinSample(start, chans, put, chunk, i, x);
    ListenerHearsOthers(lane, start, chans, put, chunk, i, x);
  }

  /** The exception is real: a single talker at -32768 hears itself. */
  lemma LoudestTalkerHearsItself(chans: seq<Channel>, put: seq<seq<int>>)
    requires chans == [Channel(1, false, true, true)] && put == [[-32768]]
    ensures WellFormed(chans, put, 1) && Accounts([-32768], 0, chans, put, 1, 1, 0)
    ensures Heard(0, -32768, Mix(0, chans, put, 1, 1, true, 1, 0)) == -1
    ensures ConfSum(chans, [-32768], 1, 1, 0) == 0
  {
    assert Mix(0, chans, put, 1, 0, false, 1, 0) == 0;
    assert Mix(0, chans, put, 1, 1, false, 1, 0) == -32768;
    assert Mix(0, chans, put, 1, 0, true, 1, 0) == -32768;
  }

  // ---------------------------------------------------------- banks

  /** A bank of accumulators, one chunk for each conference alias. */
  ghost predicate IsBank(bank: seq<seq<int>>, chunk: nat, maxconf: nat) {
    |bank| == maxconf + 1 && forall a :: 0 <= a <= maxconf ==> |bank[a]| == chunk && Shorts(bank[a])
  }

  /** A bank in which every accumulator is silent. */
  function Silent(chunk: nat, maxconf: nat): (r: seq<seq<int>>)
    ensures |r| == maxconf + 1 && forall a :: 0 <= a < |r| ==> r[a] == seq(chunk, _ => 0)
  {
    seq(maxconf + 1, _ => seq(chunk, _ => 0))
  }

  ghost predicate Fits(chans: seq<Channel>, put: seq<seq<int>>, chunk: nat, maxconf: nat) {
    WellFormed(chans, put, chunk) && forall i :: 0 <= i < |chans| ==> chans[i].confn <= maxconf
  }

  ghost predicate MixedAt(sum: seq<int>, start: seq<int>, chans: seq<Channel>, put: seq<seq<int>>, chunk: nat,
                          n: nat, pseudo: bool, a: nat)
    requires WellFormed(chans, put, chunk) && n <= |chans|
  {
    && |sum| == |start| == chunk
    && forall x: nat {:trigger sum[x]} :: x < chunk ==> sum[x] == Mix(start[x], chans, put, chunk, n, pseudo, a, x)
  }

  /** The conferences, begun at `start`, after all real channels and then the pseudo
      channels below `n`, or after the real channels below `n`. */
  ghost predicate Mixed(bank: seq<seq<int>>, start: seq<seq<int>>, chans: seq<Channel>, put: seq<seq<int>>, chunk: nat,
                        n: nat, pseudo: bool)
    requires WellFormed(chans, put, chunk) && n <= |chans|
  {
    |bank| == |start| && forall a :: 0 <= a < |bank| ==> MixedAt(bank[a], start[a], chans, put, chunk, n, pseudo, a)
  }

  ghost predicate AddedAt(last: seq<int>, begun: seq<int>, chans: seq<Channel>, put: seq<seq<int>>, chunk: nat, i: nat)
    requires WellFormed(chans, put, chunk) && i < |chans|
  {
    && |last| == |begun| == chunk
    && forall x: nat {:trigger last[x]} :: x < chunk ==> last[x] == Added(begun[x], chans, put, chunk, i, x)
  }

  /** The conference members among the real channels and, for `pseudo`, the pseudo
      channels below `n`, or among the real channels below `n`, have what they added. */
  ghost predicate Recorded(last: seq<seq<int>>, start: seq<seq<int>>, chans: seq<Channel>, put: seq<seq<int>>, chunk: nat,
                           n: nat, pseudo: bool)
    requires WellFormed(chans, put, chunk) && n <= |chans|
  {
    && |last| == |chans|
    && forall j {:trigger last[j]} :: 0 <= j < |chans| && 0 < chans[j].confn < |start| && Received(chans, j, n, pseudo) ==>
      AddedAt(last[j], start[chans[j].confn], chans, put, chunk, j)
  }

  predicate Received(chans: seq<Channel>, j: nat, n: nat, pseudo: bool)
    requires j < |chans|
  {
    if chans[j].pseudo then pseudo && j < n else pseudo || j < n
  }

  /** How far the tick is: the conference sums and what the channels added. */
  ghost predicate InProgress(bank: seq<seq<int>>, last: seq<seq<int>>, start: seq<seq<int>>, chans: seq<Channel>,
                             put: seq<seq<int>>, chunk: nat, n: nat, pseudo: bool)
    requires WellFormed(chans, put, chunk) && n <= |chans|
  {
    && Mixed(bank, start, chans, put, chunk, n, pseudo) && Recorded(last, start, chans, put, chunk, n, pseudo)
    && Chunks(last, chunk)
  }

  lemma BeginsMixed(start: seq<seq<int>>, last: seq<seq<int>>, chans: seq<Channel>, put: seq<seq<int>>, chunk: nat, maxconf: nat)
    requires IsBank(start, chunk, maxconf) && WellFormed(chans, put, chunk) && |last| == |chans| && Chunks(last, chunk)
    ensures InProgress(start, last, start, chans, put, chunk, 0, false)
  {
  }

  lemma RealsThenPseudos(bank: seq<seq<int>>, last: seq<seq<int>>, start: seq<seq<int>>, chans: seq<Channel>,
                         put: seq<seq<int>>, chunk: nat)
    requires WellFormed(chans, put, chunk) && InProgress(bank, last, start, chans, put, chunk, |chans|, false)
    ensures InProgress(bank, last, start, chans, put, chunk, 0, true)
  {
    forall a | 0 <= a < |bank| ensures MixedAt(bank[a], start[a], chans, put, chunk, 0, true, a) {
      assert MixedAt(bank[a], start[a], chans, put, chunk, |chans|, false, a);
    }
  }

  /** A channel of the other kind changes nothing. */
  lemma OtherKindPasses(bank: seq<seq<int>>, last: seq<seq<int>>, start: seq<seq<int>>, chans: seq<Channel>,
                        put: seq<seq<int>>, chunk: nat, i: nat, pseudo: bool)
    requires WellFormed(chans, put, chunk) && i < |chans| && chans[i].pseudo != pseudo
    requires InProgress(bank, last, start, chans, put, chunk, i, pseudo)
    ensures InProgress(bank, last, start, chans, put, chunk, i + 1, pseudo)
  {
    forall a | 0 <= a < |bank| ensures MixedAt(bank[a], start[a], chans, put, chunk, i + 1, pseudo, a) {
      assert MixedAt(bank[a], start[a], chans, put, chunk, i, pseudo, a);
    }
  }

  /** One that adds `added` to its conference, which becomes `sum`. */
  lemma OneTalks(bank: seq<seq<int>>, last: seq<seq<int>>, start: seq<seq<int>>, chans: seq<Channel>,
                 put: seq<seq<int>>, chunk: nat, i: nat, sum: seq<int>, added: seq<int>)
    requires WellFormed(chans, put, chunk) && i < |chans| && chans[i].confn < |bank| && |sum| == |added| == chunk
    requires InProgress(bank, last, start, chans, put, chunk, i, chans[i].pseudo)
    requires forall x :: 0 <= x < chunk ==>
      sum[x] == if chans[i].talker then Clamp(bank[chans[i].confn][x] + put[i][x]) else bank[chans[i].confn][x]
    requires forall x :: 0 <= x < chunk ==> added[x] == sum[x] - bank[chans[i].confn][x]
    ensures InProgress(bank[chans[i].confn := sum], last[i := added], start, chans, put, chunk, i + 1, chans[i].pseudo)
  {
    var bank', c := bank[chans[i].confn := sum], chans[i].confn;
    assert MixedAt(bank[c], start[c], chans, put, chunk, i, chans[i].pseudo, c);
    forall a | 0 <= a < |bank'| ensures MixedAt(bank'[a], start[a], chans, put, chunk, i + 1, chans[i].pseudo, a) {
      assert MixedAt(bank[a], start[a], chans, put, chunk, i, chans[i].pseudo, a);
    }
    assert AddedAt(added, start[c], chans, put, chunk, i);
  }

  /** A channel in no conference changes nothing. */
  lemma OneIsAbsent(bank: seq<seq<int>>, last: seq<seq<int>>, start: seq<seq<int>>, chans: seq<Channel>,
                    put: seq<seq<int>>, chunk: nat, i: nat)
    requires WellFormed(chans, put, chunk) && i < |chans| && chans[i].confn == 0
    requires InProgress(bank, last, start, chans, put, chunk, i, chans[i].pseudo)
    ensures InProgress(bank, last, start, chans, put, chunk, i + 1, chans[i].pseudo)
  {
    forall a | 0 <= a < |bank| ensures MixedAt(bank[a], start[a], chans, put, chunk, i + 1, chans[i].pseudo, a) {
      assert MixedAt(bank[a], start[a], chans, put, chunk, i, chans[i].pseudo, a);
    }
  }

  lemma MixedIsBank(bank: seq<seq<int>>, start: seq<seq<int>>, chans: seq<Channel>, put: seq<seq<int>>, chunk: nat,
                    n: nat, pseudo: bool, maxconf: nat)
    requires WellFormed(chans, put, chunk) && n <= |chans| && IsBank(start, chunk, maxconf)
    requires Mixed(bank, start, chans, put, chunk, n, pseudo)
    ensures IsBank(bank, chunk, maxconf)
  {
    forall a | 0 <= a <= maxconf ensures |bank[a]| == chunk && Shorts(bank[a]) {
      assert MixedAt(bank[a], start[a], chans, put, chunk, n, pseudo, a);
      assert forall x :: 0 <= x < chunk ==> Short(start[a][x]);
    }
  }

  /** A bank with the accumulators below `maxconfs` cleared. */
  function Cleared(bank: seq<seq<int>>, maxconfs: nat, chunk: nat): (r: seq<seq<int>>)
    ensures |r| == |bank|
    ensures forall a :: 0 <= a < |r| ==> r[a] == if a < maxconfs then seq(chunk, _ => 0) else bank[a]
  {
    seq(|bank|, a requires 0 <= a < |bank| => if a < maxconfs then seq(chunk, _ => 0) else bank[a])
  }

  ghost predicate SilentBelow(bank: seq<seq<int>>, below: nat, chunk: nat) {
    forall a :: 0 <= a < |bank| && a < below ==> bank[a] == seq(chunk, _ => 0)
  }

  lemma ClearedIsBank(bank: seq<seq<int>>, maxconfs: nat, chunk: nat, maxconf: nat)
    requires IsBank(bank, chunk, maxconf)
    ensures IsBank(Cleared(bank, maxconfs, chunk), chunk, maxconf)
    ensures SilentBelow(Cleared(bank, maxconfs, chunk), maxconfs, chunk)
  {
  }

  /** The samples of one instant. */
  function Lane(last: seq<seq<int>>, x: nat): (r: seq<int>)
    requires forall i :: 0 <= i < |last| ==> x < |last[i]|
    ensures |r| == |last| && forall i :: 0 <= i < |r| ==> r[i] == last[i][x]
  {
    seq(|last|, i requires 0 <= i < |last| => last[i][x])
  }

  ghost predicate Chunks(last: seq<seq<int>>, chunk: nat) {
    forall i :: 0 <= i < |last| ==> |last[i]| == chunk
  }

  /** Each conference sum is what the conference began with and the exact sum of the
      conflast of its channels. */
  ghost predicate Conserved(bank: seq<seq<int>>, last: seq<seq<int>>, start: seq<seq<int>>, chans: seq<Channel>, chunk: nat)
    requires |last| == |chans| && Chunks(last, chunk)
  {
    && |bank| == |start|
    && forall a, x: nat :: 1 <= a < |bank| && x < chunk ==>
      x < |bank[a]| && x < |start[a]| && bank[a][x] == start[a][x] + ConfSum(chans, Lane(last, x), |chans|, a, -1)
  }

  /** Everyone's conflast is part of the own sample; that of one who does not talk is 0. */
  ghost predicate WithinSamples(last: seq<seq<int>>, chans: seq<Channel>, put: seq<seq<int>>, chunk: nat)
    requires WellFormed(chans, put, chunk) && |last| == |chans| && Chunks(last, chunk)
  {
    forall i, x: nat :: 0 <= i < |chans| && x < chunk && chans[i].confn > 0 ==>
      if chans[i].talker then Between(last[i][x], put[i][x]) else last[i][x] == 0
  }

  /** What everyone is given: a listener the conference less the own conflast. */
  ghost predicate Given(out: seq<seq<int>>, bank: seq<seq<int>>, last: seq<seq<int>>, chans: seq<Channel>,
                        own: seq<seq<int>>, chunk: nat, maxconf: nat)
    requires IsBank(bank, chunk, maxconf) && Fits(chans, own, chunk, maxconf) && |last| == |chans| && Chunks(last, chunk)
  {
    && |out| == |chans| && Chunks(out, chunk)
    && forall i, x: nat :: 0 <= i < |chans| && x < chunk ==>
      out[i][x] == if chans[i].listener then Heard(own[i][x], last[i][x], bank[chans[i].confn][x]) else own[i][x]
  }

  /** A silent listener gets the clamp of what the conference began with and the exact sum
      of what the others added. */
  ghost predicate HearsOthers(lin: seq<int>, last: seq<seq<int>>, begun: seq<int>, chans: seq<Channel>,
                              put: seq<int>, own: seq<int>, chunk: nat, i: nat)
    requires |lin| == |begun| == |put| == |own| == chunk && |last| == |chans| && Chunks(last, chunk) && i < |chans|
  {
    forall x: nat :: x < chunk && own[x] == 0 && put[x] > -32768 ==>
      lin[x] == Clamp(begun[x] + ConfSum(chans, Lane(last, x), |chans|, chans[i].confn, i))
  }

  ghost predicate ListenersHear(out: seq<seq<int>>, last: seq<seq<int>>, start: seq<seq<int>>, chans: seq<Channel>,
                                put: seq<seq<int>>, own: seq<seq<int>>, chunk: nat, maxconf: nat)
    requires IsBank(start, chunk, maxconf) && Fits(chans, put, chunk, maxconf) && Fits(chans, own, chunk, maxconf)
    requires |last| == |chans| && Chunks(last, chunk)
  {
    && |out| == |chans| && Chunks(out, chunk)
    && forall i :: 0 <= i < |chans| && chans[i].listener ==>
      HearsOthers(out[i], last, start[chans[i].confn], chans, put[i], own[i], chunk, i)
  }

  lemma LaneAccounts(last: seq<seq<int>>, start: seq<seq<int>>, chans: seq<Channel>, put: seq<seq<int>>, chunk: nat,
                     a: nat, x: nat)
    requires WellFormed(chans, put, chunk) && Recorded(last, start, chans, put, chunk, |chans|, true)
    requires Chunks(last, chunk) && 1 <= a < |start| && |start[a]| == chunk && x < chunk
    ensures Accounts(Lane(last, x), start[a][x], chans, put, chunk, a, x)
  {
    forall i | 0 <= i < |chans| && chans[i].confn == a
      ensures Lane(last, x)[i] == Added(start[a][x], chans, put, chunk, i, x)
    {
      assert AddedAt(last[i], start[chans[i].confn], chans, put, chunk, i);
    }
  }

  lemma TickConserves(bank: seq<seq<int>>, last: seq<seq<int>>, start: seq<seq<int>>, chans: seq<Channel>,
                      put: seq<seq<int>>, chunk: nat)
    requires WellFormed(chans, put, chunk) && InProgress(bank, last, start, chans, put, chunk, |chans|, true)
    ensures Conserved(bank, last, start, chans, chunk)
  {
    forall a, x: nat | 1 <= a < |bank| && x < chunk
      ensures x < |bank[a]| && x < |start[a]| && bank[a][x] == start[a][x] + ConfSum(chans, Lane(last, x), |chans|, a, -1)
    {
      assert MixedAt(bank[a], start[a], chans, put, chunk, |chans|, true, a);
      LaneAccounts(last, start, chans, put, chunk, a, x);
      SumIsConserved(Lane(last, x), start[a][x], chans, put, chunk, a, x);
    }
  }

  lemma TickStaysWithin(last: seq<seq<int>>, start: seq<seq<int>>, chans: seq<Channel>, put: seq<seq<int>>,
                        chunk: nat, maxconf: nat)
    requires Fits(chans, put, chunk, maxconf) && IsBank(start, chunk, maxconf) && Chunks(last, chunk)
    requires Recorded(last, start, chans, put, chunk, |chans|, true)
    ensures WithinSamples(last, chans, put, chunk)
  {
    forall i, x: nat | 0 <= i < |chans| && x < chunk && chans[i].confn > 0
      ensures if chans[i].talker then Between(last[i][x], put[i][x]) else last[i][x] == 0
    {
      var begun := start[chans[i].confn];
      assert AddedAt(last[i], begun, chans, put, chunk, i);
      assert Short(begun[x]);
      AdditionWithinSample(begun[x], chans, put, chunk, i, x);
    }
  }

  lemma OneListens(lin: seq<int>, sum: seq<int>, last: seq<seq<int>>, start: seq<seq<int>>, chans: seq<Channel>,
                   put: seq<seq<int>>, own: seq<int>, chunk: nat, i: nat)
    requires WellFormed(chans, put, chunk) && i < |chans| && 1 <= chans[i].confn < |start| && Shorts(start[chans[i].confn])
    requires Recorded(last, start, chans, put, chunk, |chans|, true) && Chunks(last, chunk)
    requires MixedAt(sum, start[chans[i].confn], chans, put, chunk, |chans|, true, chans[i].confn)
    requires |lin| == |own| == chunk && forall x :: 0 <= x < chunk ==> lin[x] == Heard(own[x], last[i][x], sum[x])
    ensures HearsOthers(lin, last, start[chans[i].confn], chans, put[i], own, chunk, i)
  {
    var a := chans[i].confn;
    forall x: nat | x < chunk && own[x] == 0 && put[i][x] > -32768
      ensures lin[x] == Clamp(start[a][x] + ConfSum(chans, Lane(last, x), |chans|, a, i))
    {
      LaneAccounts(last, start, chans, put, chunk, a, x);
      var lane, begun, total := Lane(last, x), start[a][x], sum[x];
      assert lane[i] == last[i][x] && lin[x] == Heard(0, lane[i], total);
      assert total == Mix(begun, chans, put, chunk, |chans|, true, a, x);
      DecodedListenerHearsOthers(lane, begun, chans, put, chunk, i, x);
    }
  }

  lemma AllListen(out: seq<seq<int>>, bank: seq<seq<int>>, last: seq<seq<int>>, start: seq<seq<int>>, chans: seq<Channel>,
                  put: seq<seq<int>>, own: seq<seq<int>>, chunk: nat, maxconf: nat)
    requires IsBank(start, chunk, maxconf) && IsBank(bank, chunk, maxconf)
    requires Fits(chans, put, chunk, maxconf) && Fits(chans, own, chunk, maxconf)
    requires InProgress(bank, last, start, chans, put, chunk, |chans|, true)
    requires Given(out, bank, last, chans, own, chunk, maxconf)
    ensures ListenersHear(out, last, start, chans, put, own, chunk, maxconf)
  {
    forall i | 0 <= i < |chans| && chans[i].listener
      ensures HearsOthers(out[i], last, start[chans[i].confn], chans, put[i], own[i], chunk, i)
    {
      var a := chans[i].confn;
      assert |bank[a]| == chunk && Shorts(start[a]);
      OneListens(out[i], bank[a], last, start, chans, put, own[i], chunk, i);
    }
  }

  // ---------------------------------------------------------- without clipping

  /** What the talkers of conference `a` below `n` say, added up, all but channel `skip`. */
  function TalkSum(chans: seq<Channel>, said: seq<int>, n: nat, a: nat, skip: int): int
    requires n <= |chans| == |said|
  {
    if n == 0 then 0
    else
      var talks := chans[n - 1].talker && chans[n - 1].confn == a && n - 1 != skip;
      TalkSum(chans, said, n - 1, a, skip) + if talks then said[n - 1] else 0
  }

  /** How loud they are together at most. */
  function Loudness(chans: seq<Channel>, said: seq<int>, n: nat, a: nat): nat
    requires n <= |chans| == |said|
  {
    if n == 0 then 0
    else
      var talks := chans[n - 1].talker && chans[n - 1].confn == a;
      Loudness(chans, said, n - 1, a) + if talks then Abs(said[n - 1]) else 0
  }

  function KindLoudness(chans: seq<Channel>, said: seq<int>, n: nat, a: nat, pseudo: bool): nat
    requires n <= |chans| == |said|
  {
    if n == 0 then 0
    else
      var talks := chans[n - 1].talker && chans[n - 1].confn == a && chans[n - 1].pseudo == pseudo;
      KindLoudness(chans, said, n - 1, a, pseudo) + if talks then Abs(said[n - 1]) else 0
  }

  lemma {:induction false} KindsAreAll(chans: seq<Channel>, said: seq<int>, n: nat, a: nat)
    requires n <= |chans| == |said|
    ensures KindLoudness(chans, said, n, a, false) + KindLoudness(chans, said, n, a, true) == Loudness(chans, said, n, a)
  {
    if n > 0 {
      KindsAreAll(chans, said, n - 1, a);
    }
  }

  lemma {:induction false} LoudnessGrows(chans: seq<Channel>, said: seq<int>, n: nat, a: nat, pseudo: bool)
    requires n <= |chans| == |said|
    ensures KindLoudness(chans, said, n, a, pseudo) <= KindLoudness(chans, said, |chans|, a, pseudo)
    decreases |chans| - n
  {
    if n < |chans| {
      LoudnessGrows(chans, said, n + 1, a, pseudo);
    }
  }

  /** Of the kind now received and of the real channels before, how loud the talkers are. */
  function LoudBefore(chans: seq<Channel>, said: seq<int>, n: nat, a: nat, pseudo: bool): nat
    requires n <= |chans| == |said|
  {
    KindLoudness(chans, said, n, a, pseudo) + if pseudo then KindLoudness(chans, said, |chans|, a, false) else 0
  }

  lemma ClampLoudness(sum: int, sample: int)
    ensures Abs(Clamp(sum + sample)) <= Abs(sum) + Abs(sample)
  {
  }

  lemma {:induction false} MixLoudness(start: int, chans: seq<Channel>, put: seq<seq<int>>, chunk: nat, n: nat, pseudo: bool,
                                       a: nat, x: nat)
    requires WellFormed(chans, put, chunk) && n <= |chans| && x < chunk
    ensures Abs(Mix(start, chans, put, chunk, n, pseudo, a, x)) <= Abs(start) + LoudBefore(chans, Lane(put, x), n, a, pseudo)
    decreases pseudo, n
  {
    if n > 0 {
      MixLoudness(start, chans, put, chunk, n - 1, pseudo, a, x);
      ClampLoudness(Mix(start, chans, put, chunk, n - 1, pseudo, a, x), put[n - 1][x]);
    } else if pseudo {
      MixLoudness(start, chans, put, chunk, |chans|, false, a, x);
    }
  }

  /** Where nothing can clip, each talker adds all it says and nobody else anything. */
  lemma WholeSampleIsAdded(start: int, chans: seq<Channel>, put: seq<seq<int>>, chunk: nat, i: nat, x: nat)
    requires WellFormed(chans, put, chunk) && i < |chans| && x < chunk
    requires Abs(start) + Loudness(chans, Lane(put, x), |chans|, chans[i].confn) <= 32767
    ensures Added(start, chans, put, chunk, i, x) == if chans[i].talker then put[i][x] else 0
  {
    var a, said, kind := chans[i].confn, Lane(put, x), chans[i].pseudo;
    MixLoudness(start, chans, put, chunk, i, kind, a, x);
    LoudnessGrows(chans, said, i + 1, a, kind);
    KindsAreAll(chans, said, |chans|, a);
  }

  lemma {:induction false} SharesAreTalk(lane: seq<int>, start: int, chans: seq<Channel>, put: seq<seq<int>>, chunk: nat,
                                         n: nat, a: nat, x: nat, skip: int)
    requires WellFormed(chans, put, chunk) && n <= |chans| && x < chunk && Accounts(lane, start, chans, put, chunk, a, x)
    requires Abs(start) + Loudness(chans, Lane(put, x), |chans|, a) <= 32767
    ensures ConfSum(chans, lane, n, a, skip) == TalkSum(chans, Lane(put, x), n, a, skip)
  {
    if n > 0 {
      SharesAreTalk(lane, start, chans, put, chunk, n - 1, a, x, skip);
      if chans[n - 1].confn == a {
        WholeSampleIsAdded(start, chans, put, chunk, n - 1, x);
        assert lane[n - 1] == Added(start, chans, put, chunk, n - 1, x);
      }
    }
  }

  lemma {:induction false} TalkIsQuiet(chans: seq<Channel>, said: seq<int>, n: nat, a: nat, skip: int)
    requires n <= |chans| == |said|
    ensures Abs(TalkSum(chans, said, n, a, skip)) <= Loudness(chans, said, n, a)
  {
    if n > 0 {
      TalkIsQuiet(chans, said, n - 1, a, skip);
    }
  }

  // ---------------------------------------------------------- the bridge

  method Fetch(s: seq<int>) returns (a: array<int>)
    ensures fresh(a) && a[..] == s
  {
    a := new int[|s|](i requires 0 <= i < |s| => s[i]);
  }

  /** A talker's chunk goes into a sum; `last` is the amount actually added. Neither the
      subtraction nor the second addition saturates. */
  method Talk(sum: seq<int>, put: seq<int>) returns (sum': seq<int>, last': seq<int>)
    requires |sum| == |put| && Shorts(put) && Shorts(sum)
    ensures |sum'| == |last'| == |put|
    ensures forall x :: 0 <= x < |put| ==> sum'[x] == Clamp(sum[x] + put[x])
    ensures forall x :: 0 <= x < |put| ==> last'[x] == sum'[x] - sum[x] && Between(last'[x], put[x])
  {
    var total := Fetch(sum);
    var last := Fetch(put);
    assert forall x :: 0 <= x < |put| ==> total[x] == sum[x] && last[x] == put[x];
    Acss(last, total);
    Scss(last, total);
    Acss(total, last);
    sum', last' := total[..], last[..];
  }

  /** Clears the accumulators of a bank below `maxconfs`. */
  method ClearBelow(bank: array<seq<int>>, maxconfs: nat, chunk: nat)
    requires maxconfs <= bank.Length
    modifies bank
    ensures bank[..] == Cleared(old(bank[..]), maxconfs, chunk)
  {
    ghost var was := bank[..];
    for a := 0 to maxconfs
      invariant forall d :: 0 <= d < bank.Length ==> bank[d] == if d < a then seq(chunk, _ => 0) else was[d]
    {
      bank[a] := seq(chunk, _ => 0);
    }
  }

  class Mixer {
    const chunk: nat
    const maxconf: nat
    const channels: nat
    /** Three banks of accumulators, which take turns. */
    const sums: seq<array<seq<int>>>
    const conflast: array<seq<int>>

    var pos: nat
    var prev: array<seq<int>>
    var cur: array<seq<int>>
    var next: array<seq<int>>
    /** Every accumulator of the next bank below this alias is silent. */
    ghost var cleared: nat

    /** The three banks are in turn. */
    ghost predicate InTurn()
      reads this
    {
      && |sums| == 3 && pos < 3 && prev == sums[(pos + 2) % 3] && cur == sums[pos] && next == sums[(pos + 1) % 3]
      && prev != cur && cur != next && next != prev
      && conflast != prev && conflast != cur && conflast != next && conflast.Length == channels
    }

    ghost predicate Valid()
      reads this, prev, cur, next, conflast
    {
      && InTurn() && cleared <= maxconf + 1 && Chunks(conflast[..], chunk)
      && IsBank(prev[..], chunk, maxconf) && IsBank(cur[..], chunk, maxconf) && IsBank(next[..], chunk, maxconf)
      && SilentBelow(next[..], cleared, chunk)
    }

    constructor (chunk: nat, maxconf: nat, channels: nat)
      ensures Valid() && cleared == maxconf + 1
      ensures this.chunk == chunk && this.maxconf == maxconf && this.channels == channels
      ensures fresh(conflast) && fresh(prev) && fresh(cur) && fresh(next)
      ensures prev[..] == cur[..] == next[..] == Silent(chunk, maxconf)
    {
      var silence := seq(chunk, _ => 0);
      var bank0 := new seq<int>[maxconf + 1](_ => silence);
      var bank1 := new seq<int>[maxconf + 1](_ => silence);
      var bank2 := new seq<int>[maxconf + 1](_ => silence);
      this.chunk, this.maxconf, this.channels := chunk, maxconf, channels;
      sums := [bank0, bank1, bank2];
      conflast := new seq<int>[channels](_ => silence);
      cleared := maxconf + 1;
      // The first rotation, made when the module is loaded.
      prev, cur, next, pos := bank0, bank1, bank2, 1;
      new;
      assert prev[..] == Silent(chunk, maxconf) && cur[..] == Silent(chunk, maxconf) && next[..] == Silent(chunk, maxconf);
    }

    /** Rotates the banks and clears the next one below `maxconfs`. */
    method RotateSums(maxconfs: nat)
      requires InTurn() && maxconfs <= maxconf + 1 == prev.Length
      modifies this`pos, this`prev, this`cur, this`next, this`cleared, prev
      ensures InTurn() && cleared == maxconfs
      ensures cur == old(next) && prev == old(cur) && next == old(prev)
      ensures next[..] == Cleared(old(prev[..]), maxconfs, chunk)
    {
      ghost var p := pos;
      assert ((p + 1) % 3 + 1) % 3 == (p + 2) % 3 && ((p + 1) % 3 + 2) % 3 == p;
      prev := sums[pos];
      cur := sums[(pos + 1) % 3];
      next := sums[(pos + 2) % 3];
      pos := (pos + 1) % 3;
      cleared := maxconfs;
      ClearBelow(next, maxconfs, chunk);
    }

    /** One channel is received. */
    method TalkOne(bank: array<seq<int>>, ghost start: seq<seq<int>>, chans: seq<Channel>, put: seq<seq<int>>, i: nat)
      requires bank != conflast && Fits(chans, put, chunk, maxconf) && i < |chans| == channels
      requires IsBank(start, chunk, maxconf)
      requires InProgress(bank[..], conflast[..], start, chans, put, chunk, i, chans[i].pseudo)
      modifies bank, conflast
      ensures InProgress(bank[..], conflast[..], start, chans, put, chunk, i + 1, chans[i].pseudo)
    {
      ghost var b, last := bank[..], conflast[..];
      MixedIsBank(b, start, chans, put, chunk, i, chans[i].pseudo, maxconf);
      var confn := chans[i].confn;
      if confn == 0 {
        OneIsAbsent(b, last, start, chans, put, chunk, i);
        return;
      }
      var sum, added := bank[confn], seq(chunk, _ => 0);
      if chans[i].talker {
        sum, added := Talk(sum, put[i]);
      }
      OneTalks(b, last, start, chans, put, chunk, i, sum, added);
      bank[confn] := sum;
      conflast[i] := added;
      assert bank[..] == b[confn := sum] && conflast[..] == last[i := added];
    }

    /** All channels of one kind are received. */
    method TalkAll(bank: array<seq<int>>, ghost start: seq<seq<int>>, chans: seq<Channel>, put: seq<seq<int>>, pseudo: bool)
      requires bank != conflast && Fits(chans, put, chunk, maxconf) && |chans| == channels
      requires IsBank(start, chunk, maxconf) && InProgress(bank[..], conflast[..], start, chans, put, chunk, 0, pseudo)
      modifies bank, conflast
      ensures InProgress(bank[..], conflast[..], start, chans, put, chunk, |chans|, pseudo)
    {
      for i := 0 to |chans|
        invariant InProgress(bank[..], conflast[..], start, chans, put, chunk, i, pseudo)
      {
        if chans[i].pseudo == pseudo {
          TalkOne(bank, start, chans, put, i);
        } else {
          OtherKindPasses(bank[..], conflast[..], start, chans, put, chunk, i, pseudo);
        }
      }
    }

    /** The receive half of _process_masterspan: the real channels into the next bank, a
        rotation, and the pseudo channels into the bank that is current now. */
    method ReceiveTick(ghost start: seq<seq<int>>, chans: seq<Channel>, put: seq<seq<int>>, maxconfs: nat)
      requires Valid() && Fits(chans, put, chunk, maxconf) && |chans| == channels && maxconfs <= maxconf + 1
      requires start == next[..]
      modifies this`pos, this`prev, this`cur, this`next, this`cleared, next, prev, conflast
      ensures Valid() && cleared == maxconfs && cur == old(next) && prev == old(cur) && next == old(prev)
      ensures prev[..] == old(cur[..]) && next[..] == Cleared(old(prev[..]), maxconfs, chunk)
      ensures InProgress(cur[..], conflast[..], start, chans, put, chunk, |chans|, true)
    {
      BeginsMixed(start, conflast[..], chans, put, chunk, maxconf);
      ClearedIsBank(prev[..], maxconfs, chunk, maxconf);
      TalkAll(next, start, chans, put, false);
      RealsThenPseudos(next[..], conflast[..], start, chans, put, chunk);
      RotateSums(maxconfs);
      TalkAll(cur, start, chans, put, true);
      MixedIsBank(cur[..], start, chans, put, chunk, |chans|, true, maxconf);
    }

    /** Listeners get the conference without their own last addition. */
    method ListenAll(chans: seq<Channel>, own: seq<seq<int>>) returns (out: seq<seq<int>>)
      requires Valid() && Fits(chans, own, chunk, maxconf) && |chans| == channels
      ensures Given(out, cur[..], conflast[..], chans, own, chunk, maxconf)
    {
      ghost var bank, last := cur[..], conflast[..];
      out := [];
      for i := 0 to |chans|
        invariant |out| == i && forall j :: 0 <= j < i ==> |out[j]| == chunk
        invariant forall j, x :: 0 <= j < i && 0 <= x < chunk ==>
          out[j][x] == if chans[j].listener then Heard(own[j][x], last[j][x], bank[chans[j].confn][x]) else own[j][x]
      {
        var lin := Fetch(own[i]);
        if chans[i].listener {
          var share := Fetch(conflast[i]);
          var sum := Fetch(cur[chans[i].confn]);
          Scss(lin, share);
          Acss(lin, sum);
          assert forall x :: 0 <= x < chunk ==> share[..][x] == last[i][x] && sum[..][x] == bank[chans[i].confn][x];
        }
        out := out + [lin[..]];
      }
    }

    /** A whole tick over the channels `chans`: `put` is what they send to the bridge, `own`
        their own audio, `out` what they are given. */
    method Tick(chans: seq<Channel>, put: seq<seq<int>>, own: seq<seq<int>>, maxconfs: nat) returns (out: seq<seq<int>>)
      requires Valid() && Fits(chans, put, chunk, maxconf) && Fits(chans, own, chunk, maxconf)
      requires |chans| == channels && maxconfs <= maxconf + 1
      modifies this`pos, this`prev, this`cur, this`next, this`cleared, next, prev, conflast
      ensures Valid() && cleared == maxconfs && cur == old(next) && prev == old(cur) && next == old(prev)
      ensures prev[..] == old(cur[..]) && next[..] == Cleared(old(prev[..]), maxconfs, chunk)
      ensures InProgress(cur[..], conflast[..], old(next[..]), chans, put, chunk, |chans|, true)
      ensures Given(out, cur[..], conflast[..], chans, own, chunk, maxconf)
      ensures Conserved(cur[..], conflast[..], old(next[..]), chans, chunk)
      ensures WithinSamples(conflast[..], chans, put, chunk)
      ensures ListenersHear(out, conflast[..], old(next[..]), chans, put, own, chunk, maxconf)
      ensures forall i :: 0 <= i < |chans| && !chans[i].listener ==> out[i] == own[i]
    {
      ghost var start := next[..];
      ReceiveTick(start, chans, put, maxconfs);
      ghost var bank, last := cur[..], conflast[..];
      TickConserves(bank, last, start, chans, put, chunk);
      TickStaysWithin(last, start, chans, put, chunk, maxconf);
      out := ListenAll(chans, own);
      AllListen(out, bank, last, start, chans, put, own, chunk, maxconf);
    }
  }
}
