/** The conference bridge over its runs: requests that change who is in which conference,
    between ticks that mix the conferences. */
module ConferenceBridge {
  import opened Words
  import opened Saturation
  import opened ConferenceMixer
  import opened ConferenceAliases

  // ---------------------------------------------------------- one accumulator

  /** The accumulators of one conference at one instant, in the three banks. */
  datatype Cell = Cell(prev: int, cur: int, next: int)

  /** What a tick adds there in all, and whether its rotation clears the place. */
  datatype Turn = Turn(total: int, clears: bool)

  function Turned(c: Cell, t: Turn): Cell {
    Cell(c.cur, c.next + t.total, if t.clears then 0 else c.prev)
  }

  function Cells(c: Cell, turns: seq<Turn>): Cell {
    if turns == [] then c else Turned(Cells(c, turns[..|turns| - 1]), turns[|turns| - 1])
  }

  /** What the last tick found in the accumulator: nothing if the tick before cleared it,
      else the sum of three ticks ago. */
  function Stale(c: Cell, turns: seq<Turn>): int
    requires turns != []
  {
    var t := |turns| - 1;
    if t == 0 then c.next
    else if turns[t - 1].clears then 0
    else if t == 1 then c.prev
    else Cells(c, turns[..t - 2]).cur
  }

  lemma LastTurn(c: Cell, turns: seq<Turn>)
    requires turns != []
    ensures Cells(c, turns) == Turned(Cells(c, turns[..|turns| - 1]), turns[|turns| - 1])
  {
  }

  lemma SumIsTotalAndStale(c: Cell, turns: seq<Turn>)
    requires turns != []
    ensures Cells(c, turns).cur == turns[|turns| - 1].total + Stale(c, turns)
  {
    var t := |turns| - 1;
    if t > 0 {
      LastTurn(c, turns[..t]);
      if t > 1 {
        LastTurn(c, turns[..t - 1]);
        assert turns[..t][..t - 1] == turns[..t - 1] && turns[..t - 1][..t - 2] == turns[..t - 2];
      } else {
        assert turns[..t][..t - 1] == [];
      }
    }
  }

  // ---------------------------------------------------------- the bridge and its steps

  datatype Setup = Setup(chunk: nat, maxConf: nat, pseudo: seq<bool>)

  datatype State = State(
    alias: seq<int>,
    rev: seq<int>,
    members: seq<Member>,
    maxconfs: nat,
    prev: seq<seq<int>>,
    cur: seq<seq<int>>,
    next: seq<seq<int>>,
    last: seq<seq<int>>)

  /** `Tick` gives what every channel sends to the bridge and its own audio. */
  datatype Step =
    | Request(i: nat, number: int, confmode: nat, preEcho: bool)
    | Leave(i: nat)
    | Tick(put: seq<seq<int>>, own: seq<seq<int>>)

  datatype Answer = Skipped | Replied(outcome: Outcome, confno: int) | Left | Audio(out: seq<seq<int>>)

  /** The plain conference mode or none that adds into an accumulator. */
  predicate Plain(confmode: nat) {
    Summing(confmode) ==> confmode % 256 == 4
  }

  /** Flags 0x100 and 0x200 of the mode say who listens and who talks. */
  function ChannelOf(m: Member, pseudo: bool): (c: Channel)
    ensures c.confn == 0 ==> !c.talker && !c.listener
  {
    if Summing(m.confmode) && m.confn > 0 then
      Channel(m.confn, pseudo, m.confmode / 512 % 2 == 1, m.confmode / 256 % 2 == 1)
    else Channel(0, pseudo, false, false)
  }

  function Channels(members: seq<Member>, pseudo: seq<bool>): (chans: seq<Channel>)
    requires |members| == |pseudo|
    ensures |chans| == |members|
    ensures forall i :: 0 <= i < |chans| ==> chans[i] == ChannelOf(members[i], pseudo[i])
  {
    seq(|members|, i requires 0 <= i < |members| => ChannelOf(members[i], pseudo[i]))
  }

  /** The tables agree, and `maxconfs` is one above the highest alias in use. */
  ghost predicate TablesSound(s: State, maxConf: nat) {
    && |s.alias| == maxConf + 1 && Inverse(s.alias, s.rev) && Served(s.alias, s.members) && s.maxconfs <= maxConf
    && (forall a :: 0 <= a < |s.rev| && s.rev[a] != 0 ==> a < s.maxconfs)
    && (s.maxconfs > 0 ==> s.rev[s.maxconfs - 1] != 0)
  }

  ghost predicate Sound(s: State, c: Setup) {
    && TablesSound(s, c.maxConf) && |s.members| == |s.last| == |c.pseudo| && Chunks(s.last, c.chunk)
    && (forall i :: 0 <= i < |s.members| ==> Plain(s.members[i].confmode))
    && IsBank(s.prev, c.chunk, c.maxConf) && IsBank(s.cur, c.chunk, c.maxConf) && IsBank(s.next, c.chunk, c.maxConf)
  }

  /** A conference whose members hold its alias is cleared in each rotation, and two
      channels add into one accumulator exactly when they are in one conference. */
  lemma ConferencesAreKeptApart(s: State, c: Setup, i: nat, j: nat)
    requires Sound(s, c) && i < |s.members| && j < |s.members|
    requires Summing(s.members[i].confmode) && Summing(s.members[j].confmode)
    ensures var chans := Channels(s.members, c.pseudo);
            1 <= chans[i].confn < s.maxconfs && (chans[i].confn == chans[j].confn <==> s.members[i].confna == s.members[j].confna)
  {
    assert s.rev[s.members[i].confn] == s.members[i].confna;
    assert s.rev[s.members[j].confn] == s.members[j].confna;
  }

  ghost predicate IsAudio(audio: seq<seq<int>>, c: Setup) {
    |audio| == |c.pseudo| && forall i :: 0 <= i < |audio| ==> |audio[i]| == c.chunk && Shorts(audio[i])
  }

  lemma ChannelsFit(s: State, c: Setup, audio: seq<seq<int>>)
    requires Sound(s, c) && IsAudio(audio, c)
    ensures Fits(Channels(s.members, c.pseudo), audio, c.chunk, c.maxConf)
  {
  }

  ghost predicate Proper(step: Step, c: Setup) {
    match step
    case Request(i, number, confmode, preEcho) =>
      && i < |c.pseudo| && Plain(confmode) && (preEcho ==> 10 <= confmode % 256 <= 12)
      && (Monitoring(confmode) ==> 0 <= number <= c.maxConf)
    case Leave(i) => i < |c.pseudo|
    case Tick(put, own) => IsAudio(put, c) && IsAudio(own, c)
  }

  /** Changing conference clears a number of bytes that is the number of samples. */
  function Forgotten(last: seq<int>): (r: seq<int>)
    ensures |r| == |last|
    ensures forall x :: 0 <= x < |r| ==> r[x] == if 2 * x + 1 < |r| then 0 else last[x]
  {
    seq(|last|, x requires 0 <= x < |last| => if x < |last| / 2 then 0 else last[x])
  }

  ghost predicate SameBanks(s: State, t: State) {
    t.prev == s.prev && t.cur == s.cur && t.next == s.next
  }

  /** The sums of a tick, each channel's share and what everyone is given. */
  ghost predicate Ticked(s: State, put: seq<seq<int>>, own: seq<seq<int>>, out: seq<seq<int>>, t: State,
                         chans: seq<Channel>, c: Setup)
    requires IsBank(t.cur, c.chunk, c.maxConf) && |t.last| == |chans| && Chunks(t.last, c.chunk)
  {
    && Fits(chans, put, c.chunk, c.maxConf) && Fits(chans, own, c.chunk, c.maxConf)
    && InProgress(t.cur, t.last, s.next, chans, put, c.chunk, |chans|, true)
    && Given(out, t.cur, t.last, chans, own, c.chunk, c.maxConf)
  }

  ghost predicate Granted(s: State, i: nat, number: int, confmode: nat, preEcho: bool, answer: Answer, t: State)
    requires |s.alias| >= 1 && i < |s.members| == |s.last| && s.members[i].confna < |s.alias|
    requires Monitoring(confmode) ==> 0 <= number < |s.alias|
  {
    && answer.Replied? && SameBanks(s, t)
    && Answered(s.alias, s.members, i, number, confmode, preEcho, answer.outcome, answer.confno, t.alias, t.members)
    && t.last == if answer.outcome in {Invalid, Busy} || s.members[i].confna == answer.confno then s.last
                 else s.last[i := Forgotten(s.last[i])]
  }

  /** `step` leads from `s` to `t`. A request that needs an alias when none is left, which
      indexes the table with -1, is not made. */
  ghost predicate Follows(s: State, step: Step, answer: Answer, t: State, c: Setup)
    requires Sound(s, c) && Proper(step, c) && c.maxConf >= 1
  {
    match step
    case Request(i, number, confmode, preEcho) =>
      if TakesAlias(s.alias, number, confmode) && (forall a :: 1 <= a < c.maxConf ==> s.rev[a] != 0) then
        answer == Skipped && t == s
      else Granted(s, i, number, confmode, preEcho, answer, t)
    case Leave(i) =>
      && answer == Left && SameBanks(s, t) && t.members == s.members[i := Member(0, 0, 0)]
      && t.alias == Checked(s.alias, t.members, s.members[i].confna)
      && t.last == s.last[i := seq(c.chunk, _ => 0)]
    case Tick(put, own) =>
      && answer.Audio? && (t.alias, t.rev, t.members, t.maxconfs) == (s.alias, s.rev, s.members, s.maxconfs)
      && t.prev == s.cur && t.next == Cleared(s.prev, s.maxconfs, c.chunk)
      && IsBank(t.cur, c.chunk, c.maxConf) && |t.last| == |s.last| && Chunks(t.last, c.chunk)
      && Ticked(s, put, own, answer.out, t, Channels(s.members, c.pseudo), c)
  }

  // ---------------------------------------------------------- runs

  ghost predicate Run(trace: seq<State>, steps: seq<Step>, answers: seq<Answer>, c: Setup) {
    && c.maxConf >= 1 && |trace| == |steps| + 1 == |answers| + 1
    && (forall k :: 0 <= k < |trace| ==> Sound(trace[k], c)) && (forall k :: 0 <= k < |steps| ==> Proper(steps[k], c))
    && forall k {:trigger steps[k]} :: 0 <= k < |steps| ==> Follows(trace[k], steps[k], answers[k], trace[k + 1], c)
  }

  function At(bank: seq<seq<int>>, a: nat, x: nat): int {
    if a < |bank| && x < |bank[a]| then bank[a][x] else 0
  }

  function CellOf(s: State, a: nat, x: nat): Cell {
    Cell(At(s.prev, a, x), At(s.cur, a, x), At(s.next, a, x))
  }

  /** The exact sum of the shares in `t` of the channels that are in the conference in `s`,
      all but channel `skip`. */
  ghost function Total(s: State, t: State, c: Setup, a: nat, x: nat, skip: int): int {
    if Sound(s, c) && Sound(t, c) && x < c.chunk then
      ConfSum(Channels(s.members, c.pseudo), Lane(t.last, x), |s.members|, a, skip)
    else 0
  }

  ghost function TurnOf(s: State, t: State, c: Setup, a: nat, x: nat): Turn {
    Turn(Total(s, t, c, a, x, -1), a < s.maxconfs)
  }

  lemma TickTurns(s: State, step: Step, answer: Answer, t: State, c: Setup, a: nat, x: nat)
    requires c.maxConf >= 1 && Sound(s, c) && Sound(t, c) && Proper(step, c) && Follows(s, step, answer, t, c)
    requires step.Tick? && 1 <= a <= c.maxConf && x < c.chunk
    ensures CellOf(t, a, x) == Turned(CellOf(s, a, x), TurnOf(s, t, c, a, x))
  {
    TickConserves(t.cur, t.last, s.next, Channels(s.members, c.pseudo), step.put, c.chunk);
    assert t.next[a] == if a < s.maxconfs then seq(c.chunk, _ => 0) else s.prev[a];
  }

  /** What the ticks of a run do to one accumulator. */
  ghost function Turns(trace: seq<State>, steps: seq<Step>, c: Setup, a: nat, x: nat): seq<Turn>
    requires |trace| == |steps| + 1
  {
    var n := |steps|;
    if n == 0 then []
    else
      var before := Turns(trace[..n], steps[..n - 1], c, a, x);
      if steps[n - 1].Tick? then before + [TurnOf(trace[n - 1], trace[n], c, a, x)] else before
  }

  lemma RunBefore(trace: seq<State>, steps: seq<Step>, answers: seq<Answer>, c: Setup)
    requires Run(trace, steps, answers, c) && steps != []
    ensures var n := |steps| - 1;
            && Run(trace[..n + 1], steps[..n], answers[..n], c)
            && Follows(trace[n], steps[n], answers[n], trace[n + 1], c)
  {
    var n := |steps| - 1;
    assert Follows(trace[n], steps[n], answers[n], trace[n + 1], c);
    forall k | 0 <= k < n ensures Follows(trace[..n + 1][k], steps[..n][k], answers[..n][k], trace[..n + 1][k + 1], c) {
      assert steps[..n][k] == steps[k];
    }
  }

  lemma {:induction false} RunTurns(trace: seq<State>, steps: seq<Step>, answers: seq<Answer>, c: Setup, a: nat, x: nat)
    requires Run(trace, steps, answers, c) && 1 <= a <= c.maxConf && x < c.chunk
    ensures CellOf(trace[|steps|], a, x) == Cells(CellOf(trace[0], a, x), Turns(trace, steps, c, a, x))
  {
    var n := |steps|;
    if n > 0 {
      RunBefore(trace, steps, answers, c);
      RunTurns(trace[..n], steps[..n - 1], answers[..n - 1], c, a, x);
      OneStep(trace[n - 1], steps[n - 1], answers[n - 1], trace[n], c, CellOf(trace[0], a, x),
              Turns(trace[..n], steps[..n - 1], c, a, x), a, x);
    }
  }

  lemma OneStep(s: State, step: Step, answer: Answer, t: State, c: Setup, first: Cell, before: seq<Turn>, a: nat, x: nat)
    requires c.maxConf >= 1 && Sound(s, c) && Sound(t, c) && Proper(step, c) && Follows(s, step, answer, t, c)
    requires 1 <= a <= c.maxConf && x < c.chunk && CellOf(s, a, x) == Cells(first, before)
    ensures CellOf(t, a, x)
         == Cells(first, if step.Tick? then before + [TurnOf(s, t, c, a, x)] else before)
  {
    if step.Tick? {
      TickTurns(s, step, answer, t, c, a, x);
      assert (before + [TurnOf(s, t, c, a, x)])[..|before|] == before;
    }
  }

  /** Over any run that ends in a tick, what earlier ticks left in a conference is exactly the
      sum of three ticks ago if the last rotation before did not clear its alias. */
  lemma SumOfRun(trace: seq<State>, steps: seq<Step>, answers: seq<Answer>, c: Setup, a: nat, x: nat)
    requires Run(trace, steps, answers, c) && steps != [] && steps[|steps| - 1].Tick?
    requires 1 <= a <= c.maxConf && x < c.chunk
    ensures var n, turns := |steps|, Turns(trace, steps, c, a, x);
            && turns != []
            && At(trace[n].cur, a, x)
            == Total(trace[n - 1], trace[n], c, a, x, -1) + Stale(CellOf(trace[0], a, x), turns)
  {
    RunTurns(trace, steps, answers, c, a, x);
    SumIsTotalAndStale(CellOf(trace[0], a, x), Turns(trace, steps, c, a, x));
  }

  /** A run from `first` to `last`. */
  ghost predicate Leads(first: State, trace: seq<State>, steps: seq<Step>, answers: seq<Answer>, last: State, c: Setup) {
    Run(trace, steps, answers, c) && trace[0] == first && trace[|steps|] == last
  }

  lemma RunExtends(first: State, trace: seq<State>, steps: seq<Step>, answers: seq<Answer>, s: State, c: Setup,
                   step: Step, answer: Answer, t: State)
    requires Leads(first, trace, steps, answers, s, c) && Proper(step, c) && Sound(t, c) && Follows(s, step, answer, t, c)
    ensures Leads(first, trace + [t], steps + [step], answers + [answer], t, c)
  {
    var n, trace', steps', answers' := |steps|, trace + [t], steps + [step], answers + [answer];
    forall k | 0 <= k <= n ensures Follows(trace'[k], steps'[k], answers'[k], trace'[k + 1], c) {
      if k < n {
        assert Follows(trace[k], steps[k], answers[k], trace[k + 1], c);
      }
    }
  }

  ghost predicate SilentAtFirst(s: State, a: nat, x: nat) {
    CellOf(s, a, x) == Cell(0, 0, 0)
  }

  lemma StaleFromSilence(turns: seq<Turn>)
    requires turns != []
    ensures Stale(Cell(0, 0, 0), turns) == 0 <==>
      |turns| <= 3 || turns[|turns| - 2].clears || Cells(Cell(0, 0, 0), turns[..|turns| - 3]).cur == 0
  {
  }

  /** So from silence a sum is that of its members' shares alone exactly when the tick before
      cleared the alias or nothing was in that accumulator three ticks ago. */
  lemma ExactUnlessReused(trace: seq<State>, steps: seq<Step>, answers: seq<Answer>, c: Setup, a: nat, x: nat)
    requires Run(trace, steps, answers, c) && steps != [] && steps[|steps| - 1].Tick?
    requires 1 <= a <= c.maxConf && x < c.chunk && SilentAtFirst(trace[0], a, x)
    ensures var n, turns := |steps|, Turns(trace, steps, c, a, x);
            && turns != []
            && (At(trace[n].cur, a, x) == Total(trace[n - 1], trace[n], c, a, x, -1) <==>
                || |turns| <= 3 || turns[|turns| - 2].clears
                || Cells(Cell(0, 0, 0), turns[..|turns| - 3]).cur == 0)
  {
    SumOfRun(trace, steps, answers, c, a, x);
    StaleFromSilence(Turns(trace, steps, c, a, x));
  }

  /** Some channel is in the conference that has alias `a`. */
  ghost predicate Used(s: State, c: Setup, a: nat) {
    |s.members| == |c.pseudo| && exists i :: 0 <= i < |c.pseudo| && Channels(s.members, c.pseudo)[i].confn == a
  }

  lemma UsedIsCleared(s: State, c: Setup, a: nat)
    requires Sound(s, c) && a >= 1 && Used(s, c, a)
    ensures a < s.maxconfs
  {
    var i :| 0 <= i < |c.pseudo| && Channels(s.members, c.pseudo)[i].confn == a;
    ConferencesAreKeptApart(s, c, i, i);
  }

  /** There was a tick, and the last one found some channel in the conference. */
  ghost predicate UsedAtLastTick(trace: seq<State>, steps: seq<Step>, c: Setup, a: nat)
    requires |trace| == |steps| + 1
  {
    var n := |steps|;
    n > 0 && if steps[n - 1].Tick? then Used(trace[n - 1], c, a) else UsedAtLastTick(trace[..n], steps[..n - 1], c, a)
  }

  ghost predicate AllSound(trace: seq<State>, c: Setup) {
    forall k :: 0 <= k < |trace| ==> Sound(trace[k], c)
  }

  lemma {:induction false} UsedTurnClears(trace: seq<State>, steps: seq<Step>, c: Setup, a: nat, x: nat)
    requires |trace| == |steps| + 1 && AllSound(trace, c) && a >= 1 && UsedAtLastTick(trace, steps, c, a)
    ensures var turns := Turns(trace, steps, c, a, x); turns != [] && turns[|turns| - 1].clears
    decreases |steps|
  {
    var n := |steps|;
    if steps[n - 1].Tick? {
      UsedIsCleared(trace[n - 1], c, a);
    } else {
      UsedTurnClears(trace[..n], steps[..n - 1], c, a, x);
    }
  }

  lemma SumAfterClear(trace: seq<State>, steps: seq<Step>, answers: seq<Answer>, c: Setup, a: nat, x: nat)
    requires Run(trace, steps, answers, c) && steps != [] && steps[|steps| - 1].Tick? && 1 <= a <= c.maxConf && x < c.chunk
    requires var turns := Turns(trace, steps, c, a, x); |turns| >= 2 && turns[|turns| - 2].clears
    ensures var n := |steps|; At(trace[n].cur, a, x) == Total(trace[n - 1], trace[n], c, a, x, -1)
  {
    SumOfRun(trace, steps, answers, c, a, x);
  }

  lemma TurnsEnd(trace: seq<State>, steps: seq<Step>, c: Setup, a: nat, x: nat)
    requires |trace| == |steps| + 1 && steps != [] && steps[|steps| - 1].Tick?
    ensures var n := |steps|;
            Turns(trace, steps, c, a, x)
            == Turns(trace[..n], steps[..n - 1], c, a, x) + [TurnOf(trace[n - 1], trace[n], c, a, x)]
  {
  }

  lemma UsedBefore(trace: seq<State>, steps: seq<Step>, c: Setup, a: nat, x: nat)
    requires |trace| == |steps| + 1 && AllSound(trace, c) && steps != [] && steps[|steps| - 1].Tick? && a >= 1
    requires UsedAtLastTick(trace[..|steps|], steps[..|steps| - 1], c, a)
    ensures var turns := Turns(trace, steps, c, a, x); |turns| >= 2 && turns[|turns| - 2].clears
  {
    var turns, before := Turns(trace, steps, c, a, x), Turns(trace[..|steps|], steps[..|steps| - 1], c, a, x);
    UsedTurnClears(trace[..|steps|], steps[..|steps| - 1], c, a, x);
    TurnsEnd(trace, steps, c, a, x);
    assert |turns| == |before| + 1 && turns[|turns| - 2] == before[|before| - 1];
  }

  /** A conference that was used in the tick before has the exact sum of its members' shares,
      whatever happened earlier. */
  lemma UsedConferenceIsExact(trace: seq<State>, steps: seq<Step>, answers: seq<Answer>, c: Setup, a: nat, x: nat)
    requires Run(trace, steps, answers, c) && steps != [] && steps[|steps| - 1].Tick? && 1 <= a <= c.maxConf && x < c.chunk
    requires UsedAtLastTick(trace[..|steps|], steps[..|steps| - 1], c, a)
    ensures var n := |steps|; At(trace[n].cur, a, x) == Total(trace[n - 1], trace[n], c, a, x, -1)
  {
    UsedBefore(trace, steps, c, a, x);
    SumAfterClear(trace, steps, answers, c, a, x);
  }

  /** In the plain conference mode, flag 0x200 makes a talker and flag 0x100 a listener. */
  predicate TalksIn(m: Member, a: nat) {
    m.confmode % 0x100 == 4 && m.confn == a && m.confmode / 0x200 % 2 == 1
  }

  predicate ListensIn(m: Member, a: nat) {
    m.confmode % 0x100 == 4 && m.confn == a && m.confmode / 0x100 % 2 == 1
  }

  /** The flags of a member's mode, and nothing else, say whether it talks and listens. */
  lemma FlagsSayWho(s: State, c: Setup, i: nat, a: nat)
    requires Sound(s, c) && i < |c.pseudo| && a >= 1
    ensures var ch := Channels(s.members, c.pseudo)[i];
            && (ch.talker && ch.confn == a <==> TalksIn(s.members[i], a))
            && (ch.listener && ch.confn == a <==> ListensIn(s.members[i], a))
  {
    assert Plain(s.members[i].confmode);
  }

  ghost predicate ListensTo(s: State, c: Setup, i: nat, a: nat) {
    i < |s.members| == |c.pseudo| && a >= 1 && ListensIn(s.members[i], a)
  }

  lemma TickIsHeard(s: State, step: Step, answer: Answer, t: State, c: Setup, a: nat, i: nat, x: nat)
    requires c.maxConf >= 1 && Sound(s, c) && Sound(t, c) && Proper(step, c) && Follows(s, step, answer, t, c)
    requires step.Tick? && x < c.chunk && ListensTo(s, c, i, a)
    requires step.own[i][x] == 0 && step.put[i][x] > -32768
    ensures 1 <= a <= c.maxConf && |answer.out| == |c.pseudo| && |answer.out[i]| == c.chunk
    ensures At(t.cur, a, x) == At(s.next, a, x) + Total(s, t, c, a, x, -1)
    ensures answer.out[i][x] == Clamp(At(s.next, a, x) + Total(s, t, c, a, x, i))
  {
    var chans := Channels(s.members, c.pseudo);
    FlagsSayWho(s, c, i, a);
    TickConserves(t.cur, t.last, s.next, chans, step.put, c.chunk);
    AllListen(answer.out, t.cur, t.last, s.next, chans, step.put, step.own, c.chunk, c.maxConf);
  }

  /** Then every silent listener there hears the clamp of the exact sum of what the others
      of the conference added. */
  lemma UsedConferenceIsHeard(trace: seq<State>, steps: seq<Step>, answers: seq<Answer>, c: Setup, a: nat, i: nat, x: nat)
    requires Run(trace, steps, answers, c) && steps != [] && steps[|steps| - 1].Tick? && i < |c.pseudo| && x < c.chunk
    requires ListensTo(trace[|steps| - 1], c, i, a) && UsedAtLastTick(trace[..|steps|], steps[..|steps| - 1], c, a)
    requires steps[|steps| - 1].own[i][x] == 0 && steps[|steps| - 1].put[i][x] > -32768
    ensures var n := |steps|;
            && answers[n - 1].Audio? && |answers[n - 1].out| == |c.pseudo| && |answers[n - 1].out[i]| == c.chunk
            && answers[n - 1].out[i][x] == Clamp(Total(trace[n - 1], trace[n], c, a, x, i))
  {
    var n := |steps|;
    RunBefore(trace, steps, answers, c);
    TickIsHeard(trace[n - 1], steps[n - 1], answers[n - 1], trace[n], c, a, i, x);
    UsedConferenceIsExact(trace, steps, answers, c, a, x);
  }

  /** Whoever does not listen is given the own audio. */
  lemma OthersKeepTheirOwn(s: State, step: Step, answer: Answer, t: State, c: Setup, i: nat)
    requires c.maxConf >= 1 && Sound(s, c) && Sound(t, c) && Proper(step, c) && Follows(s, step, answer, t, c)
    requires step.Tick? && i < |c.pseudo| && (s.members[i].confmode % 0x100 == 4 ==> s.members[i].confmode / 0x100 % 2 == 0)
    ensures |answer.out| == |c.pseudo| && answer.out[i] == step.own[i]
  {
    assert Plain(s.members[i].confmode);
    assert !Channels(s.members, c.pseudo)[i].listener;
  }

  /** What the talkers among the members of alias `a` say, all but channel `skip`. */
  function Spoken(members: seq<Member>, said: seq<int>, n: nat, a: nat, skip: int): int
    requires n <= |members| == |said|
  {
    if n == 0 then 0
    else
      Spoken(members, said, n - 1, a, skip) + if TalksIn(members[n - 1], a) && n - 1 != skip then said[n - 1] else 0
  }

  /** How loud they are together at most. */
  function Volume(members: seq<Member>, said: seq<int>, n: nat, a: nat): nat
    requires n <= |members| == |said|
  {
    if n == 0 then 0
    else Volume(members, said, n - 1, a) + if TalksIn(members[n - 1], a) then Abs(said[n - 1]) else 0
  }

  lemma {:induction false} MembersTalk(s: State, c: Setup, said: seq<int>, n: nat, a: nat, skip: int)
    requires Sound(s, c) && n <= |s.members| == |said| && a >= 1
    ensures var chans := Channels(s.members, c.pseudo);
            && TalkSum(chans, said, n, a, skip) == Spoken(s.members, said, n, a, skip)
            && Loudness(chans, said, n, a) == Volume(s.members, said, n, a)
  {
    if n > 0 {
      MembersTalk(s, c, said, n - 1, a, skip);
      FlagsSayWho(s, c, n - 1, a);
    }
  }

  /** A tick that begins in silence and cannot clip adds up what the talkers say. */
  lemma TotalIsSpoken(s: State, step: Step, answer: Answer, t: State, c: Setup, a: nat, x: nat, skip: int)
    requires c.maxConf >= 1 && Sound(s, c) && Sound(t, c) && Proper(step, c) && Follows(s, step, answer, t, c)
    requires step.Tick? && 1 <= a <= c.maxConf && x < c.chunk && At(s.next, a, x) == 0
    requires Volume(s.members, Lane(step.put, x), |s.members|, a) <= 32767
    ensures Total(s, t, c, a, x, skip) == Spoken(s.members, Lane(step.put, x), |s.members|, a, skip)
    ensures Abs(Total(s, t, c, a, x, skip)) <= 32767
  {
    var chans, said := Channels(s.members, c.pseudo), Lane(step.put, x);
    MembersTalk(s, c, said, |chans|, a, skip);
    LaneAccounts(t.last, s.next, chans, step.put, c.chunk, a, x);
    SharesAreTalk(Lane(t.last, x), 0, chans, step.put, c.chunk, |chans|, a, x, skip);
    TalkIsQuiet(chans, said, |chans|, a, skip);
  }

  /** Over every run, a listener of a conference that was used in the tick before is given
      the exact sum of the samples of the other talkers, where they cannot clip. */
  lemma TalkersAreHeard(trace: seq<State>, steps: seq<Step>, answers: seq<Answer>, c: Setup, a: nat, i: nat, x: nat)
    requires Run(trace, steps, answers, c) && steps != [] && steps[|steps| - 1].Tick? && i < |c.pseudo| && x < c.chunk
    requires var s := trace[|steps| - 1];
      && 1 <= a <= c.maxConf && ListensIn(s.members[i], a)
      && Volume(s.members, Lane(steps[|steps| - 1].put, x), |s.members|, a) <= 32767
    requires UsedAtLastTick(trace[..|steps|], steps[..|steps| - 1], c, a)
    requires steps[|steps| - 1].own[i][x] == 0 && steps[|steps| - 1].put[i][x] > -32768
    ensures var n := |steps|; var s := trace[n - 1];
            && answers[n - 1].Audio? && |answers[n - 1].out| == |c.pseudo| && |answers[n - 1].out[i]| == c.chunk
            && answers[n - 1].out[i][x] == Spoken(s.members, Lane(steps[n - 1].put, x), |s.members|, a, i)
  {
    var n := |steps|;
    RunBefore(trace, steps, answers, c);
    TickIsHeard(trace[n - 1], steps[n - 1], answers[n - 1], trace[n], c, a, i, x);
    UsedConferenceIsExact(trace, steps, answers, c, a, x);
    TotalIsSpoken(trace[n - 1], steps[n - 1], answers[n - 1], trace[n], c, a, x, i);
  }

  // ---------------------------------------------------------- the bridge

  class Bridge {
    const table: Table
    const mixer: Mixer
    const pseudo: seq<bool>

    ghost predicate Valid()
      reads this, table, table.confalias, table.confrev, table.chans
      reads mixer, mixer.prev, mixer.cur, mixer.next, mixer.conflast
    {
      && table.Valid() && mixer.Valid() && table.maxConf == mixer.maxconf
      && |pseudo| == table.chans.Length == mixer.channels
      && forall i :: 0 <= i < |pseudo| ==> Plain(table.chans[i].confmode)
    }

    ghost function Config(): Setup {
      Setup(mixer.chunk, mixer.maxconf, pseudo)
    }

    ghost function Now(): State
      reads this, table, table.confalias, table.confrev, table.chans
      reads mixer, mixer.prev, mixer.cur, mixer.next, mixer.conflast
    {
      State(table.confalias[..], table.confrev[..], table.chans[..], table.maxconfs,
            mixer.prev[..], mixer.cur[..], mixer.next[..], mixer.conflast[..])
    }

    lemma ValidIsSound()
      requires Valid()
      ensures Sound(Now(), Config()) && Config().maxConf >= 1
    {
    }

    constructor (chunk: nat, maxConf: nat, pseudo: seq<bool>)
      requires maxConf >= 1
      ensures Valid() && Config() == Setup(chunk, maxConf, pseudo)
      ensures fresh(table) && fresh(table.confalias) && fresh(table.confrev) && fresh(table.chans)
      ensures fresh(mixer) && fresh(mixer.prev) && fresh(mixer.cur) && fresh(mixer.next) && fresh(mixer.conflast)
      ensures table.maxconfs == 0 && NoneLeft(table.confalias[..], table.chans[..], 0)
      ensures forall i :: 0 <= i < |pseudo| ==> table.chans[i] == Member(0, 0, 0)
      ensures forall a :: 0 <= a <= maxConf ==> table.confrev[a] == 0 && table.confalias[a] == 0
      ensures forall a: nat, x: nat :: SilentAtFirst(Now(), a, x)
    {
      this.pseudo := pseudo;
      table := new Table(maxConf, |pseudo|);
      mixer := new Mixer(chunk, maxConf, |pseudo|);
    }

    method MakeRequest(i: nat, number: int, confmode: nat, preEcho: bool) returns (answer: Answer)
      requires Valid() && Proper(Request(i, number, confmode, preEcho), Config())
      modifies table`maxconfs, table.confalias, table.confrev, table.chans, mixer.conflast
      ensures Valid() && Follows(old(Now()), Request(i, number, confmode, preEcho), answer, Now(), Config())
    {
      if TakesAlias(table.confalias[..], number, confmode) {
        var a := table.FirstEmptyAlias();
        if a == -1 {
          return Skipped;
        }
        assert table.confrev[..][a] == 0;
      }
      answer := Grant(i, number, confmode, preEcho);
    }

    method Grant(i: nat, number: int, confmode: nat, preEcho: bool) returns (answer: Answer)
      requires Valid() && Proper(Request(i, number, confmode, preEcho), Config())
      requires TakesAlias(table.confalias[..], number, confmode) ==> table.SomeFree()
      modifies table`maxconfs, table.confalias, table.confrev, table.chans, mixer.conflast
      ensures Valid() && Granted(old(Now()), i, number, confmode, preEcho, answer, Now())
    {
      var oldconf := table.chans[i].confna;
      var r, confno := table.SetConf(i, number, confmode, preEcho);
      answer := Replied(r, confno);
      if r != Invalid && r != Busy && confno != oldconf {
        Forget(i);
      }
    }

    method Forget(i: nat)
      requires Valid() && i < |pseudo|
      modifies mixer.conflast
      ensures Valid() && Now() == old(Now()).(last := old(Now()).last[i := Forgotten(old(Now()).last[i])])
    {
      mixer.conflast[i] := Forgotten(mixer.conflast[i]);
    }

    method CloseChannel(i: nat)
      requires Valid() && Proper(Leave(i), Config())
      modifies table`maxconfs, table.confalias, table.confrev, table.chans, mixer.conflast
      ensures Valid() && Follows(old(Now()), Leave(i), Left, Now(), Config())
    {
      table.Close(i);
      mixer.conflast[i] := seq(mixer.chunk, _ => 0);
    }

    method RunTick(put: seq<seq<int>>, own: seq<seq<int>>) returns (out: seq<seq<int>>)
      requires Valid() && Proper(Tick(put, own), Config())
      modifies mixer`pos, mixer`prev, mixer`cur, mixer`next, mixer`cleared, mixer.next, mixer.prev, mixer.conflast
      ensures Valid() && Follows(old(Now()), Tick(put, own), Audio(out), Now(), Config())
      ensures mixer.cur == old(mixer.next) && mixer.prev == old(mixer.cur) && mixer.next == old(mixer.prev)
    {
      ValidIsSound();
      ChannelsFit(Now(), Config(), put);
      ChannelsFit(Now(), Config(), own);
      out := mixer.Tick(Channels(table.chans[..], pseudo), put, own, table.maxconfs);
    }

    ghost function Banks(): set<array<seq<int>>>
      reads mixer
    {
      {mixer.prev, mixer.cur, mixer.next}
    }

    method Perform(step: Step) returns (answer: Answer)
      requires Valid() && Proper(step, Config())
      modifies table`maxconfs, table.confalias, table.confrev, table.chans
      modifies mixer`pos, mixer`prev, mixer`cur, mixer`next, mixer`cleared, Banks(), mixer.conflast
      ensures Valid() && Follows(old(Now()), step, answer, Now(), Config()) && Banks() == old(Banks())
    {
      match step
      case Request(i, number, confmode, preEcho) =>
        answer := MakeRequest(i, number, confmode, preEcho);
      case Leave(i) =>
        CloseChannel(i);
        answer := Left;
      case Tick(put, own) =>
        var out := RunTick(put, own);
        answer := Audio(out);
    }

    /** Requests, departures and ticks in any order. */
    method Serve(steps: seq<Step>) returns (answers: seq<Answer>, ghost trace: seq<State>)
      requires Valid() && forall k :: 0 <= k < |steps| ==> Proper(steps[k], Config())
      modifies table`maxconfs, table.confalias, table.confrev, table.chans
      modifies mixer`pos, mixer`prev, mixer`cur, mixer`next, mixer`cleared, Banks(), mixer.conflast
      ensures Valid() && Leads(old(Now()), trace, steps, answers, Now(), Config())
    {
      answers, trace := [], [Now()];
      ghost var first := Now();
      ValidIsSound();
      for k := 0 to |steps|
        invariant Valid() && Banks() == old(Banks()) && Leads(first, trace, steps[..k], answers, Now(), Config())
      {
        ghost var s := Now();
        var answer := Perform(steps[k]);
        ValidIsSound();
        RunExtends(first, trace, steps[..k], answers, s, Config(), steps[k], answer, Now());
        PrefixGrows(steps, k);
        answers, trace := answers + [answer], trace + [Now()];
      }
      assert steps[..|steps|] == steps;
    }
  }

  // ---------------------------------------------------------- a stale conference

  const LONE := Setup(1, 2, [false])

  /** The only channel is in no conference. */
  ghost predicate Idle(s: State) {
    Sound(s, LONE) && s.alias == [0, 0, 0] && s.members == [Member(0, 0, 0)]
  }

  /** The only channel talks in conference 1. */
  ghost predicate Talking(s: State) {
    Sound(s, LONE) && s.alias == [0, 1, 0] && s.members == [Member(1, 0x204, 1)]
  }

  lemma MaxconfsOf(s: State)
    requires Sound(s, LONE)
    ensures Idle(s) ==> s.maxconfs == 0 && s.rev[1] == 0
    ensures Talking(s) ==> s.maxconfs == 2
  {
    if Idle(s) {
      forall a | 1 <= a < 3 ensures s.rev[a] == 0 {
        assert s.rev[a] == 1 <==> s.alias[1] == a;
        assert s.rev[a] == 2 <==> s.alias[2] == a;
      }
    }
    if Talking(s) {
      assert s.rev[s.alias[1]] == 1;
    }
  }

  lemma JoinStep(s: State, answer: Answer, t: State)
    requires Idle(s) && Sound(t, LONE) && Follows(s, Request(0, 1, 0x204, false), answer, t, LONE)
    ensures Talking(t) && SameBanks(s, t)
  {
    MaxconfsOf(s);
    assert Checked(s.alias, s.members, 1) == s.alias && Unused(s.alias, 1);
    assert t.members[0].confn == 1;
  }

  lemma LeaveStep(s: State, answer: Answer, t: State)
    requires Talking(s) && Sound(t, LONE) && Follows(s, Leave(0), answer, t, LONE)
    ensures Idle(t) && SameBanks(s, t)
  {
  }

  lemma IdleTick(s: State, put: int, answer: Answer, t: State)
    requires Idle(s) && Sound(t, LONE) && Short(put) && Follows(s, Tick([[put]], [[0]]), answer, t, LONE)
    ensures Idle(t) && CellOf(t, 1, 0) == Turned(CellOf(s, 1, 0), Turn(0, false))
  {
    MaxconfsOf(s);
    TickTurns(s, Tick([[put]], [[0]]), answer, t, LONE, 1, 0);
    assert Total(s, t, LONE, 1, 0, -1) == 0;
  }

  lemma TalkingTick(s: State, put: int, answer: Answer, t: State)
    requires Talking(s) && Sound(t, LONE) && Short(put) && Follows(s, Tick([[put]], [[0]]), answer, t, LONE)
    requires Short(At(s.next, 1, 0) + put)
    ensures Talking(t) && CellOf(t, 1, 0) == Turned(CellOf(s, 1, 0), Turn(put, true))
  {
    MaxconfsOf(s);
    var chans := Channels(s.members, LONE.pseudo);
    assert MixedAt(t.cur[1], s.next[1], chans, [[put]], 1, 1, true, 1);
    assert Mix(s.next[1][0], chans, [[put]], 1, 1, false, 1, 0) == s.next[1][0] + put;
  }

  /** A channel that says 100, leaves for two ticks and comes back to say 50. */
  function Reuse(): (steps: seq<Step>)
    ensures |steps| == 7 && steps[0] == steps[5] == Request(0, 1, 0x204, false) && steps[2] == Leave(0)
    ensures steps[1] == Tick([[100]], [[0]]) && steps[3] == steps[4] == Tick([[0]], [[0]]) && steps[6] == Tick([[50]], [[0]])
  {
    [Request(0, 1, 0x204, false), Tick([[100]], [[0]]), Leave(0), Tick([[0]], [[0]]), Tick([[0]], [[0]]),
     Request(0, 1, 0x204, false), Tick([[50]], [[0]])]
  }

  /** A channel joins, says `put` and is heard as that and what was there. */
  lemma JoinAndTalk(s: State, joined: Answer, t: State, put: int, said: Answer, u: State)
    requires Idle(s) && Sound(t, LONE) && Follows(s, Request(0, 1, 0x204, false), joined, t, LONE)
    requires Sound(u, LONE) && Short(put) && Follows(t, Tick([[put]], [[0]]), said, u, LONE)
    requires Short(At(s.next, 1, 0) + put)
    ensures Talking(u) && CellOf(u, 1, 0) == Turned(CellOf(s, 1, 0), Turn(put, true)) && Total(t, u, LONE, 1, 0, -1) == put
  {
    JoinStep(s, joined, t);
    TalkingTick(t, put, said, u);
    TickTurns(t, Tick([[put]], [[0]]), said, u, LONE, 1, 0);
  }

  lemma LeaveForTwo(s: State, left: Answer, t: State, first: Answer, u: State, second: Answer, v: State)
    requires Talking(s) && Sound(t, LONE) && Follows(s, Leave(0), left, t, LONE)
    requires Sound(u, LONE) && Follows(t, Tick([[0]], [[0]]), first, u, LONE)
    requires Sound(v, LONE) && Follows(u, Tick([[0]], [[0]]), second, v, LONE)
    ensures Idle(v) && CellOf(v, 1, 0) == Turned(Turned(CellOf(s, 1, 0), Turn(0, false)), Turn(0, false))
  {
    LeaveStep(s, left, t);
    IdleTick(t, 0, first, u);
    IdleTick(u, 0, second, v);
  }

  lemma StepOf(trace: seq<State>, steps: seq<Step>, answers: seq<Answer>, c: Setup, k: nat)
    requires Run(trace, steps, answers, c) && k < |steps|
    ensures Sound(trace[k], c) && Sound(trace[k + 1], c) && Proper(steps[k], c)
    ensures Follows(trace[k], steps[k], answers[k], trace[k + 1], c)
  {
  }

  /** It finds itself in a conference that holds 150. */
  lemma ReusedAliasIsStale(trace: seq<State>, answers: seq<Answer>)
    requires Run(trace, Reuse(), answers, LONE) && Idle(trace[0]) && SilentAtFirst(trace[0], 1, 0)
    ensures Total(trace[6], trace[7], LONE, 1, 0, -1) == 50 && At(trace[7].cur, 1, 0) == 150
  {
    var steps := Reuse();
    assert Talking(trace[2]) && CellOf(trace[2], 1, 0) == Cell(0, 100, 0) by {
      StepOf(trace, steps, answers, LONE, 0);
      StepOf(trace, steps, answers, LONE, 1);
      JoinAndTalk(trace[0], answers[0], trace[1], 100, answers[1], trace[2]);
    }
    assert Idle(trace[5]) && CellOf(trace[5], 1, 0) == Cell(0, 0, 100) by {
      StepOf(trace, steps, answers, LONE, 2);
      StepOf(trace, steps, answers, LONE, 3);
      StepOf(trace, steps, answers, LONE, 4);
      LeaveForTwo(trace[2], answers[2], trace[3], answers[3], trace[4], answers[4], trace[5]);
    }
    StepOf(trace, steps, answers, LONE, 5);
    StepOf(trace, steps, answers, LONE, 6);
    JoinAndTalk(trace[5], answers[5], trace[6], 50, answers[6], trace[7]);
  }

  /** A bridge with a single channel. */
  method NewLone() returns (b: Bridge)
    ensures fresh(b) && fresh(b.table) && fresh(b.table.confalias) && fresh(b.table.confrev) && fresh(b.table.chans)
    ensures fresh(b.mixer) && fresh(b.mixer.prev) && fresh(b.mixer.cur) && fresh(b.mixer.next) && fresh(b.mixer.conflast)
    ensures b.Valid() && b.Config() == LONE && Idle(b.Now()) && SilentAtFirst(b.Now(), 1, 0)
  {
    b := new Bridge(1, 2, [false]);
    b.ValidIsSound();
    assert b.Now().members == [Member(0, 0, 0)];
  }

  method ReuseAlias() returns (b: Bridge)
    ensures b.Valid() && b.mixer.chunk == 1 && b.mixer.maxconf == 2 && b.mixer.cur[1][0] == 150
  {
    b := NewLone();
    var answers, trace := b.Serve(Reuse());
    ReusedAliasIsStale(trace, answers);
    assert At(b.Now().cur, 1, 0) == 150;
  }

  lemma TalkerUses(s: State)
    requires Talking(s)
    ensures Used(s, LONE, 1)
  {
    assert Channels(s.members, LONE.pseudo)[0].confn == 1;
  }

  /** Had it stayed instead. */
  lemma StayingIsExact(trace: seq<State>, steps: seq<Step>, answers: seq<Answer>)
    requires steps == [Request(0, 1, 0x204, false), Tick([[100]], [[0]]), Tick([[50]], [[0]])]
    requires Run(trace, steps, answers, LONE) && Idle(trace[0]) && SilentAtFirst(trace[0], 1, 0)
    ensures UsedAtLastTick(trace[..3], steps[..2], LONE, 1)
    ensures At(trace[3].cur, 1, 0) == Total(trace[2], trace[3], LONE, 1, 0, -1) == 50
  {
    assert Talking(trace[1]) && Talking(trace[2]) && CellOf(trace[2], 1, 0) == Cell(0, 100, 0) by {
      StepOf(trace, steps, answers, LONE, 0);
      StepOf(trace, steps, answers, LONE, 1);
      JoinStep(trace[0], answers[0], trace[1]);
      JoinAndTalk(trace[0], answers[0], trace[1], 100, answers[1], trace[2]);
    }
    TalkerUses(trace[1]);
    assert steps[..2][1] == steps[1] && trace[..3][1] == trace[1];
    assert At(trace[3].cur, 1, 0) == 50 by {
      StepOf(trace, steps, answers, LONE, 2);
      TalkingTick(trace[2], 50, answers[2], trace[3]);
    }
    UsedConferenceIsExact(trace, steps, answers, LONE, 1, 0);
  }

  method Stay() returns (b: Bridge)
    ensures b.Valid() && b.mixer.chunk == 1 && b.mixer.maxconf == 2 && b.mixer.cur[1][0] == 50
  {
    b := NewLone();
    var steps := [Request(0, 1, 0x204, false), Tick([[100]], [[0]]), Tick([[50]], [[0]])];
    var answers, trace := b.Serve(steps);
    StayingIsExact(trace, steps, answers);
    assert At(b.Now().cur, 1, 0) == 50;
  }

  // ---------------------------------------------------------- one who talks and one who listens

  const PAIR := Setup(1, 2, [false, false])
  const APART := Member(0, 0, 0)

  /** Two channels, of which `first` and `second` say where they are. */
  ghost predicate Pair(s: State, alias: seq<int>, first: Member, second: Member) {
    Sound(s, PAIR) && s.alias == alias && s.members == [first, second] && SilentAtFirst(s, 1, 0)
  }

  lemma TalkerJoins(s: State, answer: Answer, t: State)
    requires Pair(s, [0, 0, 0], APART, APART)
    requires Sound(t, PAIR) && Follows(s, Request(0, 1, 0x204, false), answer, t, PAIR)
    ensures Pair(t, [0, 1, 0], Member(1, 0x204, 1), APART)
  {
    assert s.rev[1] == 1 <==> s.alias[1] == 1;
    assert s.rev[1] == 2 <==> s.alias[2] == 1;
    assert Checked(s.alias, s.members, 1) == s.alias && Unused(s.alias, 1);
    assert t.members[0].confn == 1;
  }

  lemma ListenerJoins(s: State, answer: Answer, t: State)
    requires Pair(s, [0, 1, 0], Member(1, 0x204, 1), APART)
    requires Sound(t, PAIR) && Follows(s, Request(1, 1, 0x104, false), answer, t, PAIR)
    ensures Pair(t, [0, 1, 0], Member(1, 0x204, 1), Member(1, 0x104, 1))
  {
    assert In(s.members[0], 1);
    assert Checked(s.alias, s.members, 1) == s.alias;
    assert t.members[1].confn == 1;
  }

  /** Only the first talks. */
  lemma PairSpeaks(members: seq<Member>, said: seq<int>)
    requires members == [Member(1, 0x204, 1), Member(1, 0x104, 1)] && |said| == 2
    ensures Spoken(members, said, 2, 1, 1) == said[0] && Volume(members, said, 2, 1) == Abs(said[0])
  {
    assert TalksIn(members[0], 1) && !TalksIn(members[1], 1);
    assert Spoken(members, said, 1, 1, 1) == Spoken(members, said, 0, 1, 1) + said[0];
    assert Volume(members, said, 1, 1) == Volume(members, said, 0, 1) + Abs(said[0]);
  }

  lemma FirstKeepsItsOwn(s: State, step: Step, answer: Answer, t: State)
    requires Pair(s, [0, 1, 0], Member(1, 0x204, 1), Member(1, 0x104, 1)) && Sound(t, PAIR)
    requires step.Tick? && Proper(step, PAIR) && Follows(s, step, answer, t, PAIR)
    ensures |answer.out| == 2 && answer.out[0] == step.own[0]
  {
    OthersKeepTheirOwn(s, step, answer, t, PAIR, 0);
  }

  lemma SecondHearsFirst(s: State, step: Step, answer: Answer, t: State)
    requires Pair(s, [0, 1, 0], Member(1, 0x204, 1), Member(1, 0x104, 1)) && Sound(t, PAIR)
    requires step.Tick? && Proper(step, PAIR) && Follows(s, step, answer, t, PAIR)
    requires step.own[1][0] == 0 && step.put[1][0] > -32768 && step.put[0][0] > -32768
    ensures |answer.out| == 2 && answer.out[1] == step.put[0]
  {
    var said := Lane(step.put, 0);
    TickIsHeard(s, step, answer, t, PAIR, 1, 1, 0);
    PairSpeaks(s.members, said);
    TotalIsSpoken(s, step, answer, t, PAIR, 1, 0, 1);
    assert answer.out[1][0] == step.put[0][0];
  }

  /** What is sent and what the channels' own audio is; the second is silent. */
  ghost predicate PairAudio(put: seq<seq<int>>, own: seq<seq<int>>) {
    && IsAudio(put, PAIR) && IsAudio(own, PAIR)
    && put[0][0] > -32768 && put[1][0] > -32768 && own[1][0] == 0
  }

  /** A talker joins, a listener joins, and a tick comes. */
  ghost predicate PairSteps(steps: seq<Step>, put: seq<seq<int>>, own: seq<seq<int>>) {
    && |steps| == 3 && steps[0] == Request(0, 1, 0x204, false) && steps[1] == Request(1, 1, 0x104, false)
    && steps[2] == Tick(put, own)
  }

  lemma PairTalks(trace: seq<State>, steps: seq<Step>, answers: seq<Answer>)
    requires Run(trace, steps, answers, PAIR) && Pair(trace[0], [0, 0, 0], APART, APART)
    requires |steps| > 0 && steps[0] == Request(0, 1, 0x204, false)
    ensures Pair(trace[1], [0, 1, 0], Member(1, 0x204, 1), APART)
  {
    StepOf(trace, steps, answers, PAIR, 0);
    TalkerJoins(trace[0], answers[0], trace[1]);
  }

  lemma PairMeets(trace: seq<State>, steps: seq<Step>, answers: seq<Answer>)
    requires Run(trace, steps, answers, PAIR) && |steps| > 1 && Pair(trace[1], [0, 1, 0], Member(1, 0x204, 1), APART)
    requires steps[1] == Request(1, 1, 0x104, false)
    ensures Pair(trace[2], [0, 1, 0], Member(1, 0x204, 1), Member(1, 0x104, 1))
  {
    StepOf(trace, steps, answers, PAIR, 1);
    ListenerJoins(trace[1], answers[1], trace[2]);
  }

  lemma PairHears(s: State, put: seq<seq<int>>, own: seq<seq<int>>, answer: Answer, t: State)
    requires Pair(s, [0, 1, 0], Member(1, 0x204, 1), Member(1, 0x104, 1)) && Sound(t, PAIR) && PairAudio(put, own)
    requires Follows(s, Tick(put, own), answer, t, PAIR)
    ensures answer.Audio? && answer.out == [own[0], put[0]]
  {
    FirstKeepsItsOwn(s, Tick(put, own), answer, t);
    SecondHearsFirst(s, Tick(put, own), answer, t);
  }

  /** The one with flag 0x100 hears the one with flag 0x200, who is given the own audio. */
  lemma ListenerHearsTalker(trace: seq<State>, steps: seq<Step>, answers: seq<Answer>, put: seq<seq<int>>, own: seq<seq<int>>)
    requires PairSteps(steps, put, own) && PairAudio(put, own)
    requires Run(trace, steps, answers, PAIR) && Pair(trace[0], [0, 0, 0], APART, APART)
    ensures answers[2].Audio? && answers[2].out == [own[0], put[0]]
  {
    PairTalks(trace, steps, answers);
    PairMeets(trace, steps, answers);
    StepOf(trace, steps, answers, PAIR, 2);
    PairHears(trace[2], put, own, answers[2], trace[3]);
  }

  /** A bridge with two channels. */
  method NewPair() returns (b: Bridge)
    ensures fresh(b) && fresh(b.table) && fresh(b.table.confalias) && fresh(b.table.confrev) && fresh(b.table.chans)
    ensures fresh(b.mixer) && fresh(b.mixer.prev) && fresh(b.mixer.cur) && fresh(b.mixer.next) && fresh(b.mixer.conflast)
    ensures b.Valid() && b.Config() == PAIR && Pair(b.Now(), [0, 0, 0], APART, APART)
  {
    b := new Bridge(1, 2, [false, false]);
    b.ValidIsSound();
    assert b.Now().members == [APART, APART];
  }

  method TwoParties(put: seq<seq<int>>, own: seq<seq<int>>) returns (out: seq<seq<int>>)
    requires PairAudio(put, own)
    ensures out == [own[0], put[0]]
  {
    var b := NewPair();
    var steps := [Request(0, 1, 0x204, false), Request(1, 1, 0x104, false), Tick(put, own)];
    var answers, trace := b.Serve(steps);
    ListenerHearsTalker(trace, steps, answers, put, own);
    out := answers[2].out;
  }
}
