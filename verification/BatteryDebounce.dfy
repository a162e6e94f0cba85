/** The battery debouncer of an FXO port, over all runs of polls. */
module BatteryDebounce {
  datatype Battery = Unknown
    | DebouncingPresent | DebouncingPresentFromLostAlarm | DebouncingPresentAlarm | Present
    | DebouncingLost | DebouncingLostFromPresentAlarm | DebouncingLostAlarm | Lost

  /** What one poll reports: ONHOOK is `Hook(true)`, OFFHOOK `Hook(false)`, a red alarm
      `Alarm(true)`, the end of the alarm `Alarm(false)`. */
  datatype Said = Nothing | Hook(lost: bool) | Alarm(lost: bool)

  /** The two module parameters, in frames. */
  datatype Settings = Settings(debounce: nat, alarm: nat) {
    predicate Ok() {
      debounce <= alarm
    }
  }

  datatype Line = Line(battery: Battery, timer: nat)

  datatype Outcome = Outcome(line: Line, said: Said)

  /** One reading of the voltage; `forget` when the channel asked for a fresh report. */
  datatype Poll = Poll(frame: nat, lost: bool, forget: bool)

  // ---------------------------------------------------------------- one poll

  /** The state with the roles of lost and present battery exchanged. */
  function Mirror(b: Battery): (r: Battery)
    ensures r.Unknown? <==> b.Unknown?
  {
    match b
    case Unknown => Unknown
    case DebouncingPresent => DebouncingLost
    case DebouncingPresentFromLostAlarm => DebouncingLostFromPresentAlarm
    case DebouncingPresentAlarm => DebouncingLostAlarm
    case Present => Lost
    case DebouncingLost => DebouncingPresent
    case DebouncingLostFromPresentAlarm => DebouncingPresentFromLostAlarm
    case DebouncingLostAlarm => DebouncingPresentAlarm
    case Lost => Present
  }

  function MirrorLine(l: Line): Line {
    Line(Mirror(l.battery), l.timer)
  }

  function Reflect(o: Outcome): Outcome {
    Outcome(MirrorLine(o.line),
            match o.said
            case Nothing => Nothing
            case Hook(lost) => Hook(!lost)
            case Alarm(lost) => Alarm(!lost))
  }

  /** A reading without battery. */
  function OnLost(l: Line, frame: nat, s: Settings): Outcome
    requires s.Ok()
  {
    var debouncing, alarming := frame + s.debounce, frame + s.alarm - s.debounce;
    match l.battery
    case Unknown => Outcome(Line(DebouncingLost, debouncing), Hook(true))
    case Present => Outcome(Line(DebouncingLost, debouncing), Nothing)
    case DebouncingPresent => Outcome(Line(Lost, l.timer), Nothing)
    case DebouncingPresentAlarm => Outcome(Line(DebouncingLostFromPresentAlarm, debouncing), Nothing)
    case DebouncingPresentFromLostAlarm => Outcome(Line(DebouncingLostAlarm, alarming), Nothing)
    case DebouncingLost =>
      if frame > l.timer then Outcome(Line(DebouncingLostAlarm, alarming), Hook(true)) else Outcome(l, Nothing)
    case DebouncingLostFromPresentAlarm =>
      if frame > l.timer then Outcome(Line(DebouncingLostAlarm, alarming), Hook(true)) else Outcome(l, Nothing)
    case DebouncingLostAlarm =>
      if frame > l.timer then Outcome(Line(Lost, l.timer), Alarm(true)) else Outcome(l, Nothing)
    case Lost => Outcome(l, Nothing)
  }

  /** One poll: a reading with battery does the mirror image of one without. */
  function OnPoll(l: Line, p: Poll, s: Settings): Outcome
    requires s.Ok()
  {
    var start := if p.forget then Line(Unknown, l.timer) else l;
    if p.lost then OnLost(start, p.frame, s) else Reflect(OnLost(MirrorLine(start), p.frame, s))
  }

  // ---------------------------------------------------------------- runs

  function After(l: Line, polls: seq<Poll>, s: Settings): Line
    requires s.Ok()
    decreases |polls|
  {
    if polls == [] then l
    else
      var n := |polls| - 1;
      OnPoll(After(l, polls[..n], s), polls[n], s).line
  }

  lemma AfterSnoc(l: Line, polls: seq<Poll>, p: Poll, s: Settings)
    requires s.Ok()
    ensures After(l, polls + [p], s) == OnPoll(After(l, polls, s), p, s).line
  {
    assert (polls + [p])[..|polls|] == polls;
  }

  function SaidAt(l: Line, polls: seq<Poll>, k: nat, s: Settings): Said
    requires s.Ok() && k < |polls|
  {
    OnPoll(After(l, polls[..k], s), polls[k], s).said
  }

  ghost predicate InOrder(polls: seq<Poll>) {
    forall i, j :: 0 <= i < j < |polls| ==> polls[i].frame <= polls[j].frame
  }

  /** Up to poll `k`, all polls of more than `frames` frames read `lost`. */
  ghost predicate SteadyFor(polls: seq<Poll>, k: nat, lost: bool, frames: nat)
    requires k < |polls|
  {
    exists j :: 0 <= j <= k && SteadySince(polls, j, k, lost) && polls[k].frame > polls[j].frame + frames
  }

  ghost predicate SteadySince(polls: seq<Poll>, j: nat, k: nat, lost: bool)
    requires k < |polls|
  {
    forall i :: j <= i <= k ==> polls[i].lost == lost
  }

  /** The first of the polls up to `k` that read the same as poll `k`. */
  function RunStart(polls: seq<Poll>, k: nat): (j: nat)
    requires k < |polls|
    ensures j <= k && SteadySince(polls, j, k, polls[k].lost)
    ensures j > 0 ==> polls[j - 1].lost != polls[k].lost
  {
    if k > 0 && polls[k - 1].lost == polls[k].lost then RunStart(polls, k - 1) else k
  }

  /** The timer of a state reached while reading no battery since frame `since`. */
  ghost predicate SoundLost(l: Line, since: nat, s: Settings) {
    match l.battery
    case DebouncingLost => l.timer >= since + s.debounce
    case DebouncingLostFromPresentAlarm => l.timer >= since + s.debounce
    case DebouncingLostAlarm => l.timer >= since + s.alarm - s.debounce
    case Lost => true
    case _ => false
  }

  ghost predicate Sound(l: Line, lost: bool, since: nat, s: Settings) {
    SoundLost(if lost then l else MirrorLine(l), since, s)
  }

  /** Another poll that reads the same. */
  lemma SameReading(l: Line, p: Poll, since: nat, s: Settings)
    requires s.Ok() && since <= p.frame && Sound(l, p.lost, since, s)
    ensures var o := OnPoll(l, p, s);
            && Sound(o.line, p.lost, since, s)
            && (o.said.Alarm? ==> o.said.lost == p.lost && p.frame > since + s.alarm - s.debounce)
            && (o.said.Hook? ==> o.said.lost == p.lost && (p.forget || p.frame > since + s.debounce))
  {
  }

  /** The first poll of a run, or one that reads the opposite of the last. */
  lemma OtherReading(l: Line, p: Poll, since: nat, s: Settings)
    requires s.Ok() && (l.battery.Unknown? || Sound(l, !p.lost, since, s))
    ensures var o := OnPoll(l, p, s);
            && Sound(o.line, p.lost, p.frame, s) && !o.said.Alarm?
            && (o.said.Hook? ==> o.said.lost == p.lost && (p.forget || l.battery.Unknown?))
  {
  }

  lemma {:induction false} RunIsSound(l: Line, polls: seq<Poll>, k: nat, s: Settings)
    requires s.Ok() && l.battery.Unknown? && InOrder(polls) && k < |polls|
    ensures Sound(After(l, polls[..k + 1], s), polls[k].lost, polls[RunStart(polls, k)].frame, s)
    ensures var said, since := SaidAt(l, polls, k, s), polls[RunStart(polls, k)].frame;
            && (said.Alarm? ==> said.lost == polls[k].lost && polls[k].frame > since + s.alarm - s.debounce)
            && (said.Hook? ==> && said.lost == polls[k].lost
                               && (k == 0 || polls[k].forget || polls[k].frame > since + s.debounce))
  {
    assert polls[..k + 1][..k] == polls[..k];
    var before := After(l, polls[..k], s);
    if k == 0 {
      OtherReading(before, polls[k], 0, s);
    } else {
      RunIsSound(l, polls, k - 1, s);
      var since := polls[RunStart(polls, k - 1)].frame;
      if polls[k - 1].lost == polls[k].lost {
        SameReading(before, polls[k], since, s);
      } else {
        OtherReading(before, polls[k], since, s);
      }
    }
  }

  /** In every run from the unknown state, an alarm is raised (or cleared) only after
      every poll of more than alarm - debounce frames found no battery (or found it),
      and a hook state is reported only after more than debounce such frames, but for
      the first report after the state was forgotten. */
  lemma ReportsNeedASteadyReading(l: Line, polls: seq<Poll>, k: nat, s: Settings)
    requires s.Ok() && l.battery.Unknown? && InOrder(polls) && k < |polls|
    ensures var said := SaidAt(l, polls, k, s);
            && (said.Alarm? ==> SteadyFor(polls, k, said.lost, s.alarm - s.debounce))
            && (said.Hook? ==> k == 0 || polls[k].forget || SteadyFor(polls, k, said.lost, s.debounce))
  {
    RunIsSound(l, polls, k, s);
    var j := RunStart(polls, k);
    assert SteadySince(polls, j, k, polls[k].lost);
  }

  /** The bound cannot be raised: battery that comes back for one poll while the alarm
      is pending restarts the shorter timer. */
  lemma AlarmBoundIsTight(s: Settings)
    returns (polls: seq<Poll>)
    requires s.Ok()
    ensures InOrder(polls) && |polls| == 5 && RunStart(polls, 4) == 3
    ensures SaidAt(Line(Unknown, 0), polls, 4, s) == Alarm(true)
    ensures polls[4].frame == polls[3].frame + (s.alarm - s.debounce) + 1
  {
    var d := s.debounce;
    polls := [Poll(0, true, false), Poll(d + 1, true, false), Poll(d + 2, false, false),
              Poll(d + 3, true, false), Poll(s.alarm + 4, true, false)];
    var l0 := Line(Unknown, 0);
    assert After(l0, polls[..1], s) == Line(DebouncingLost, d) by { assert polls[..1][..0] == []; }
    assert After(l0, polls[..2], s) == Line(DebouncingLostAlarm, s.alarm + 1) by { assert polls[..2][..1] == polls[..1]; }
    assert After(l0, polls[..3], s) == Line(DebouncingPresentFromLostAlarm, 2 * d + 2) by {
      assert polls[..3][..2] == polls[..2];
    }
    assert After(l0, polls[..4], s) == Line(DebouncingLostAlarm, s.alarm + 3) by { assert polls[..4][..3] == polls[..3]; }
  }

  // ---------------------------------------------------------------- the full alarm time

  /** The states that a line without the reading `lost` may be in. */
  predicate OtherWay(b: Battery, lost: bool) {
    var side := if lost then b else Mirror(b);
    side.Unknown? || side.Present? || side.DebouncingPresent? || side.DebouncingPresentFromLostAlarm?
    || side.DebouncingPresentAlarm?
  }

  /** The other reading came while the alarm for `lost` was pending. */
  predicate Interrupted(b: Battery, lost: bool) {
    (if lost then b else Mirror(b)).DebouncingPresentFromLostAlarm?
  }

  /** The timer of a state that the full alarm time leads through. */
  ghost predicate FullLost(l: Line, since: nat, s: Settings) {
    match l.battery
    case DebouncingLost => l.timer >= since + s.debounce
    case DebouncingLostFromPresentAlarm => l.timer >= since + s.debounce
    case DebouncingLostAlarm => l.timer >= since + s.alarm
    case Lost => true
    case _ => false
  }

  ghost predicate Full(l: Line, lost: bool, since: nat, s: Settings) {
    FullLost(if lost then l else MirrorLine(l), since, s)
  }

  lemma FullFirst(l: Line, p: Poll, s: Settings)
    requires s.Ok() && OtherWay(l.battery, p.lost)
    requires !Interrupted(l.battery, p.lost) || p.forget || s.debounce == 0
    ensures Full(OnPoll(l, p, s).line, p.lost, p.frame, s) && !OnPoll(l, p, s).said.Alarm?
  {
  }

  lemma FullNext(l: Line, p: Poll, since: nat, s: Settings)
    requires s.Ok() && since <= p.frame && Full(l, p.lost, since, s)
    ensures Full(OnPoll(l, p, s).line, p.lost, since, s)
    ensures OnPoll(l, p, s).said.Alarm? ==> p.frame > since + s.alarm
  {
  }

  /** Polls that all read the same. */
  ghost predicate AllRead(polls: seq<Poll>, lost: bool) {
    forall i :: 0 <= i < |polls| ==> polls[i].lost == lost
  }

  lemma {:induction false} FullRun(l: Line, polls: seq<Poll>, lost: bool, s: Settings)
    requires s.Ok() && OtherWay(l.battery, lost) && polls != [] && InOrder(polls) && AllRead(polls, lost)
    requires !Interrupted(l.battery, lost) || polls[0].forget || s.debounce == 0
    ensures Full(After(l, polls, s), lost, polls[0].frame, s)
    ensures SaidAt(l, polls, |polls| - 1, s).Alarm? ==> polls[|polls| - 1].frame > polls[0].frame + s.alarm
    decreases |polls|
  {
    var n := |polls| - 1;
    if n == 0 {
      FullFirst(l, polls[0], s);
    } else {
      FullRun(l, polls[..n], lost, s);
      FullNext(After(l, polls[..n], s), polls[n], polls[0].frame, s);
    }
  }

  /** A steady reading that ends with its alarm. */
  ghost predicate AlarmRun(l: Line, polls: seq<Poll>, lost: bool, s: Settings)
    requires s.Ok()
  {
    && polls != [] && InOrder(polls) && AllRead(polls, lost)
    && SaidAt(l, polls, |polls| - 1, s) == Alarm(lost)
  }

  ghost predicate FullTime(polls: seq<Poll>, s: Settings)
    requires polls != []
  {
    polls[|polls| - 1].frame > polls[0].frame + s.alarm
  }

  lemma ShortRun(l: Line, lost: bool, s: Settings, polls: seq<Poll>)
    requires s.Ok() && Interrupted(l.battery, lost) && s.debounce > 0
    requires polls == [Poll(0, lost, false), Poll(s.alarm - s.debounce + 1, lost, false)]
    ensures AlarmRun(l, polls, lost, s) && !FullTime(polls, s)
  {
    var first := polls[0];
    AfterSnoc(l, [], first, s);
    assert [] + [first] == [first] && polls[..1] == [first];
  }

  /** The full alarm time passes before every alarm exactly when the steady reading did
      not interrupt an interruption of the pending alarm (or nothing is debounced). */
  lemma AlarmTimeIsExact(l: Line, lost: bool, s: Settings)
    requires s.Ok() && OtherWay(l.battery, lost)
    ensures (forall polls :: AlarmRun(l, polls, lost, s) ==> FullTime(polls, s))
            <==> !Interrupted(l.battery, lost) || s.debounce == 0
  {
    if !Interrupted(l.battery, lost) || s.debounce == 0 {
      forall polls | AlarmRun(l, polls, lost, s) ensures FullTime(polls, s) {
        FullRun(l, polls, lost, s);
      }
    } else {
      ShortRun(l, lost, s, [Poll(0, lost, false), Poll(s.alarm - s.debounce + 1, lost, false)]);
    }
  }

  lemma {:induction false} AfterConcat(l: Line, polls: seq<Poll>, more: seq<Poll>, s: Settings)
    requires s.Ok()
    ensures After(l, polls + more, s) == After(After(l, polls, s), more, s)
    decreases |more|
  {
    if more == [] {
      assert polls + more == polls;
    } else {
      var n := |more| - 1;
      assert polls + more == (polls + more[..n]) + [more[n]] && more == more[..n] + [more[n]];
      AfterSnoc(l, polls + more[..n], more[n], s);
      AfterSnoc(After(l, polls, s), more[..n], more[n], s);
      AfterConcat(l, polls, more[..n], s);
    }
  }

  lemma FullAlarm(l: Line, polls: seq<Poll>, lost: bool, s: Settings)
    requires s.Ok() && OtherWay(l.battery, lost) && polls != [] && InOrder(polls) && AllRead(polls, lost)
    requires !Interrupted(l.battery, lost) || polls[0].forget || s.debounce == 0
    requires SaidAt(l, polls, |polls| - 1, s).Alarm?
    ensures FullTime(polls, s)
  {
    FullRun(l, polls, lost, s);
  }

  lemma SoundIsOtherWay(l: Line, lost: bool, since: nat, s: Settings)
    requires Sound(l, !lost, since, s)
    ensures OtherWay(l.battery, lost)
  {
  }

  /** A steady reading begins where the other reading left the line. */
  lemma BeginsOtherWay(l: Line, polls: seq<Poll>, k: nat, s: Settings)
    requires s.Ok() && l.battery.Unknown? && InOrder(polls) && k < |polls|
    ensures OtherWay(After(l, polls[..RunStart(polls, k)], s).battery, polls[k].lost)
  {
    var j := RunStart(polls, k);
    if j > 0 {
      assert polls[..j - 1 + 1] == polls[..j];
      LeftOtherWay(l, polls, j - 1, s);
    }
  }

  lemma LeftOtherWay(l: Line, polls: seq<Poll>, k: nat, s: Settings)
    requires s.Ok() && l.battery.Unknown? && InOrder(polls) && k < |polls|
    ensures OtherWay(After(l, polls[..k + 1], s).battery, !polls[k].lost)
  {
    RunIsSound(l, polls, k, s);
    SoundIsOtherWay(After(l, polls[..k + 1], s), !polls[k].lost, polls[RunStart(polls, k)].frame, s);
  }

  lemma SteadyPart(polls: seq<Poll>, k: nat)
    requires InOrder(polls) && k < |polls|
    ensures var j := RunStart(polls, k);
            var steady := polls[j..k + 1];
            && |steady| == k - j + 1 && steady[0] == polls[j] && steady[k - j] == polls[k]
            && InOrder(steady) && AllRead(steady, polls[k].lost)
  {
  }

  lemma SaidInside(l: Line, polls: seq<Poll>, j: nat, k: nat, s: Settings)
    requires s.Ok() && j <= k < |polls|
    ensures SaidAt(l, polls, k, s) == SaidAt(After(l, polls[..j], s), polls[j..k + 1], k - j, s)
  {
    var steady := polls[j..k + 1];
    assert polls[..k] == polls[..j] + steady[..k - j];
    AfterConcat(l, polls[..j], steady[..k - j], s);
  }

  /** So in every run an alarm comes only after more than the full alarm time, unless its
      steady reading began as such an interruption. */
  lemma ShortAlarmsAreInterruptions(l: Line, polls: seq<Poll>, k: nat, s: Settings)
    requires s.Ok() && l.battery.Unknown? && InOrder(polls) && k < |polls| && SaidAt(l, polls, k, s).Alarm?
    ensures var j := RunStart(polls, k);
            || polls[k].frame > polls[j].frame + s.alarm
            || (Interrupted(After(l, polls[..j], s).battery, polls[k].lost) && !polls[j].forget && s.debounce > 0)
  {
    var j := RunStart(polls, k);
    var before, steady := After(l, polls[..j], s), polls[j..k + 1];
    SteadyPart(polls, k);
    BeginsOtherWay(l, polls, k, s);
    SaidInside(l, polls, j, k, s);
    if !Interrupted(before.battery, polls[k].lost) || polls[j].forget || s.debounce == 0 {
      FullAlarm(before, steady, polls[k].lost, s);
    }
  }

  // ---------------------------------------------------------------- a steady reading settles

  /** `n` polls, one each frame from `first`, that all read the same. */
  function Steady(first: nat, n: nat, lost: bool): seq<Poll> {
    seq(n, i requires 0 <= i < n => Poll(first + i, lost, false))
  }

  /** No timer runs further ahead of `frame` than it may be set. */
  ghost predicate Timely(l: Line, frame: nat, s: Settings)
    requires s.Ok()
  {
    match l.battery
    case Unknown => true
    case Present => true
    case Lost => true
    case DebouncingPresentAlarm => l.timer <= frame + s.alarm - s.debounce
    case DebouncingLostAlarm => l.timer <= frame + s.alarm - s.debounce
    case _ => l.timer <= frame + s.debounce
  }

  /** Every poll leaves timers so. */
  lemma PollKeepsTimely(l: Line, p: Poll, s: Settings)
    requires s.Ok() && Timely(l, p.frame, s)
    ensures Timely(OnPoll(l, p, s).line, p.frame, s)
  {
  }

  /** How far a line without battery has come by poll `i` after frame `first`. */
  ghost predicate Settling(l: Line, first: nat, i: nat, s: Settings) {
    match l.battery
    case DebouncingLost => l.timer <= first + s.debounce && i <= s.debounce
    case DebouncingLostFromPresentAlarm => l.timer <= first + s.debounce && i <= s.debounce
    case DebouncingLostAlarm => l.timer <= first + s.alarm + 1 && i <= s.alarm + 1
    case Lost => true
    case _ => false
  }

  ghost predicate SettlingSide(l: Line, lost: bool, first: nat, i: nat, s: Settings) {
    Settling(if lost then l else MirrorLine(l), first, i, s)
  }

  lemma StartsSettling(l: Line, p: Poll, s: Settings)
    requires s.Ok() && Timely(l, p.frame, s)
    ensures SettlingSide(OnPoll(l, p, s).line, p.lost, p.frame, 0, s)
  {
  }

  lemma KeepsSettling(l: Line, first: nat, i: nat, lost: bool, s: Settings)
    requires s.Ok() && i > 0 && SettlingSide(l, lost, first, i - 1, s)
    ensures SettlingSide(OnPoll(l, Poll(first + i, lost, false), s).line, lost, first, i, s)
  {
  }

  lemma SteadyOn(l: Line, first: nat, n: nat, lost: bool, s: Settings)
    requires s.Ok()
    ensures After(l, Steady(first, n + 1, lost), s)
         == OnPoll(After(l, Steady(first, n, lost), s), Poll(first + n, lost, false), s).line
    ensures After(l, Steady(first, 0, lost), s) == l
  {
    AfterSnoc(l, Steady(first, n, lost), Poll(first + n, lost, false), s);
    assert Steady(first, n + 1, lost) == Steady(first, n, lost) + [Poll(first + n, lost, false)];
  }

  lemma {:induction false} SettlesFurther(l: Line, first: nat, i: nat, lost: bool, s: Settings)
    requires s.Ok() && Timely(l, first, s)
    ensures SettlingSide(After(l, Steady(first, i + 1, lost), s), lost, first, i, s)
  {
    SteadyOn(l, first, i, lost, s);
    if i == 0 {
      StartsSettling(l, Poll(first, lost, false), s);
    } else {
      SettlesFurther(l, first, i - 1, lost, s);
      KeepsSettling(After(l, Steady(first, i, lost), s), first, i, lost, s);
    }
  }

  /** From every state, alarm + 3 polls in a row that read the same settle the line. */
  lemma SteadyReadingSettles(l: Line, first: nat, lost: bool, s: Settings)
    requires s.Ok() && Timely(l, first, s)
    ensures After(l, Steady(first, s.alarm + 3, lost), s).battery == if lost then Lost else Present
  {
    SettlesFurther(l, first, s.alarm + 2, lost, s);
  }

  // ---------------------------------------------------------------- what a steady reading reports

  /** All that a run reports, in order. */
  function Reports(l: Line, polls: seq<Poll>, s: Settings): seq<Said>
    requires s.Ok()
    decreases |polls|
  {
    if polls == [] then []
    else
      var n := |polls| - 1;
      Reports(l, polls[..n], s) + Spoken(SaidAt(l, polls, n, s))
  }

  function Spoken(said: Said): seq<Said> {
    if said.Nothing? then [] else [said]
  }

  /** What is still to be reported from a state if battery stays lost (`lost`) or stays. */
  function Due(b: Battery, lost: bool): seq<Said> {
    var hook, alarm := Hook(lost), Alarm(lost);
    if b.Unknown? then [hook, hook, alarm]
    else if lost then
      match b
      case Present => [hook, alarm]
      case DebouncingPresentAlarm => [hook, alarm]
      case DebouncingLost => [hook, alarm]
      case DebouncingLostFromPresentAlarm => [hook, alarm]
      case DebouncingPresentFromLostAlarm => [alarm]
      case DebouncingLostAlarm => [alarm]
      case DebouncingPresent => []
      case Lost => []
    else
      match b
      case Lost => [hook, alarm]
      case DebouncingLostAlarm => [hook, alarm]
      case DebouncingPresent => [hook, alarm]
      case DebouncingPresentFromLostAlarm => [hook, alarm]
      case DebouncingLostFromPresentAlarm => [alarm]
      case DebouncingPresentAlarm => [alarm]
      case DebouncingLost => []
      case Present => []
  }

  lemma PollReportsWhatIsDue(l: Line, p: Poll, s: Settings)
    requires s.Ok() && !p.forget
    ensures Spoken(OnPoll(l, p, s).said) + Due(OnPoll(l, p, s).line.battery, p.lost) == Due(l.battery, p.lost)
  {
  }

  lemma ReportsStep(l: Line, polls: seq<Poll>, s: Settings)
    requires s.Ok() && polls != []
    ensures var n := |polls| - 1; var o := OnPoll(After(l, polls[..n], s), polls[n], s);
            Reports(l, polls, s) == Reports(l, polls[..n], s) + Spoken(o.said) && After(l, polls, s) == o.line
  {
  }

  lemma Rejoined(first: seq<Said>, second: seq<Said>, rest: seq<Said>, more: seq<Said>)
    requires second + rest == more
    ensures (first + second) + rest == first + more
  {
  }

  /** Whatever the state, a steady reading reports exactly what is due, in that order and
      nothing else: what it has reported and what is due after it make up what was due. */
  lemma {:induction false} SteadyReportsWhatIsDue(l: Line, polls: seq<Poll>, lost: bool, s: Settings)
    requires s.Ok() && AllRead(polls, lost) && forall i :: 0 <= i < |polls| ==> !polls[i].forget
    ensures Reports(l, polls, s) + Due(After(l, polls, s).battery, lost) == Due(l.battery, lost)
    decreases |polls|
  {
    if polls != [] {
      var n := |polls| - 1;
      var t := After(l, polls[..n], s);
      var o := OnPoll(t, polls[n], s);
      SteadyReportsWhatIsDue(l, polls[..n], lost, s);
      PollReportsWhatIsDue(t, polls[n], s);
      ReportsStep(l, polls, s);
      Rejoined(Reports(l, polls[..n], s), Spoken(o.said), Due(o.line.battery, lost), Due(t.battery, lost));
    }
  }

  /** All of it within alarm + 3 polls in a row. */
  lemma SteadyReportsAll(l: Line, first: nat, lost: bool, s: Settings)
    requires s.Ok() && Timely(l, first, s)
    ensures Reports(l, Steady(first, s.alarm + 3, lost), s) == Due(l.battery, lost)
  {
    var polls := Steady(first, s.alarm + 3, lost);
    SteadyReportsWhatIsDue(l, polls, lost, s);
    SteadyReadingSettles(l, first, lost, s);
    assert Reports(l, polls, s) + [] == Reports(l, polls, s);
  }

  /** Waiting for the timer with a steady reading. */
  ghost predicate Waiting(l: Line, lost: bool) {
    if lost then l.battery.DebouncingLost? || l.battery.DebouncingLostFromPresentAlarm? || l.battery.DebouncingLostAlarm?
    else l.battery.DebouncingPresent? || l.battery.DebouncingPresentFromLostAlarm? || l.battery.DebouncingPresentAlarm?
  }

  /** Until the timer runs out nothing happens. */
  lemma {:induction false} NothingUntil(l: Line, polls: seq<Poll>, lost: bool, s: Settings)
    requires s.Ok() && Waiting(l, lost) && AllRead(polls, lost)
    requires forall i :: 0 <= i < |polls| ==> !polls[i].forget && polls[i].frame <= l.timer
    ensures After(l, polls, s) == l && Reports(l, polls, s) == []
    decreases |polls|
  {
    if polls != [] {
      NothingUntil(l, polls[..|polls| - 1], lost, s);
    }
  }

  /** `polls` and then `p` read `lost`, and `p` is the first of them that comes more than
      `frames` frames after `frame`. */
  ghost predicate FirstAfter(polls: seq<Poll>, p: Poll, lost: bool, frame: nat, frames: nat) {
    && AllRead(polls + [p], lost) && !p.forget && p.frame > frame + frames
    && forall i :: 0 <= i < |polls| ==> !polls[i].forget && polls[i].frame <= frame + frames
  }

  /** What the poll `p` reports after `polls`, which report nothing. */
  ghost predicate OnlyLastSays(l: Line, polls: seq<Poll>, p: Poll, said: Said, s: Settings)
    requires s.Ok()
  {
    Reports(l, polls, s) == [] && OnPoll(After(l, polls, s), p, s).said == said
  }

  /** Every hook report of a state that is known is followed by its alarm, at the first
      poll more than alarm - debounce frames later, if the reading is steady. */
  lemma AlarmFollowsHook(l: Line, q: Poll, polls: seq<Poll>, p: Poll, s: Settings)
    requires s.Ok() && !l.battery.Unknown? && !q.forget && OnPoll(l, q, s).said.Hook?
    requires FirstAfter(polls, p, q.lost, q.frame, s.alarm - s.debounce)
    ensures OnlyLastSays(OnPoll(l, q, s).line, polls, p, Alarm(q.lost), s)
  {
    var t := OnPoll(l, q, s).line;
    assert forall i :: 0 <= i < |polls| ==> polls[i] == (polls + [p])[i];
    assert p == (polls + [p])[|polls|];
    NothingUntil(t, polls, q.lost, s);
  }

  /** A change of a settled line, or of one whose alarm was pending, is reported at the
      first poll more than debounce frames later, if the reading is steady. */
  lemma HookFollowsChange(l: Line, q: Poll, polls: seq<Poll>, p: Poll, s: Settings)
    requires s.Ok() && !q.forget && FirstAfter(polls, p, q.lost, q.frame, s.debounce)
    requires if q.lost then l.battery.Present? || l.battery.DebouncingPresentAlarm?
             else l.battery.Lost? || l.battery.DebouncingLostAlarm?
    ensures OnPoll(l, q, s).said == Nothing && OnlyLastSays(OnPoll(l, q, s).line, polls, p, Hook(q.lost), s)
  {
    var t := OnPoll(l, q, s).line;
    assert forall i :: 0 <= i < |polls| ==> polls[i] == (polls + [p])[i];
    assert p == (polls + [p])[|polls|];
    NothingUntil(t, polls, q.lost, s);
  }

  /** A pending alarm whose interruption is interrupted is raised at the first poll more than
      alarm - debounce frames later, if the reading is steady. */
  lemma AlarmFollowsInterruption(l: Line, q: Poll, polls: seq<Poll>, p: Poll, s: Settings)
    requires s.Ok() && !q.forget && FirstAfter(polls, p, q.lost, q.frame, s.alarm - s.debounce)
    requires if q.lost then l.battery.DebouncingPresentFromLostAlarm? else l.battery.DebouncingLostFromPresentAlarm?
    ensures OnPoll(l, q, s).said == Nothing && OnlyLastSays(OnPoll(l, q, s).line, polls, p, Alarm(q.lost), s)
  {
    var t := OnPoll(l, q, s).line;
    assert forall i :: 0 <= i < |polls| ==> polls[i] == (polls + [p])[i];
    assert p == (polls + [p])[|polls|];
    NothingUntil(t, polls, q.lost, s);
  }

  lemma ComesBack(l: Line, q: Poll, back: Poll, s: Settings)
    requires s.Ok() && !q.forget && !back.forget && back.lost != q.lost
    requires if q.lost then l.battery.Present? || l.battery.DebouncingPresentAlarm?
             else l.battery.Lost? || l.battery.DebouncingLostAlarm?
    ensures var t := OnPoll(l, q, s);
            && t.said == Nothing && Waiting(t.line, q.lost) && t.line.timer == q.frame + s.debounce
            && OnPoll(t.line, back, s).said == Nothing && OnPoll(t.line, back, s).line.battery == l.battery
  {
  }

  /** A reading that changes back within the debounce time is never reported and leaves the
      line settled, or with its alarm pending, as it was. */
  lemma ShortChangeIsIgnored(l: Line, q: Poll, polls: seq<Poll>, back: Poll, s: Settings)
    requires s.Ok() && !q.forget && !back.forget && back.lost != q.lost && AllRead(polls, q.lost)
    requires forall i :: 0 <= i < |polls| ==> !polls[i].forget && polls[i].frame <= q.frame + s.debounce
    requires if q.lost then l.battery.Present? || l.battery.DebouncingPresentAlarm?
             else l.battery.Lost? || l.battery.DebouncingLostAlarm?
    ensures var t := OnPoll(l, q, s).line;
            && OnPoll(l, q, s).said == Nothing && OnlyLastSays(t, polls, back, Nothing, s)
            && OnPoll(After(t, polls, s), back, s).line.battery == l.battery
  {
    var t := OnPoll(l, q, s).line;
    ComesBack(l, q, back, s);
    NothingUntil(t, polls, q.lost, s);
    assert After(t, polls, s) == t;
  }

  /** A fresh report is made at once. */
  lemma FreshReport(l: Line, p: Poll, s: Settings)
    requires s.Ok() && (l.battery.Unknown? || p.forget)
    ensures OnPoll(l, p, s).said == Hook(p.lost)
  {
  }

  // ---------------------------------------------------------------- hook reports alternate

  /** The hook states reported in a run, in order. */
  function Hooks(l: Line, polls: seq<Poll>, s: Settings): seq<bool>
    requires s.Ok()
    decreases |polls|
  {
    if polls == [] then []
    else
      var n := |polls| - 1;
      Hooks(l, polls[..n], s) + HookIn(SaidAt(l, polls, n, s))
  }

  function HookIn(said: Said): seq<bool> {
    if said.Hook? then [said.lost] else []
  }

  ghost predicate Alternates(hooks: seq<bool>) {
    forall i :: 0 < i < |hooks| ==> hooks[i] != hooks[i - 1]
  }

  ghost predicate NeverForgets(polls: seq<Poll>) {
    forall i :: 0 <= i < |polls| ==> !polls[i].forget
  }

  /** The hook state the machine takes as reported last. */
  function Told(b: Battery): bool
    requires !b.Unknown?
  {
    b.DebouncingLostAlarm? || b.Lost? || b.DebouncingPresentFromLostAlarm? || b.DebouncingPresent?
  }

  lemma HookFlips(l: Line, p: Poll, s: Settings)
    requires s.Ok() && !l.battery.Unknown? && !p.forget
    ensures var o := OnPoll(l, p, s);
            && !o.line.battery.Unknown?
            && (o.said.Hook? ==> o.said.lost != Told(l.battery) && Told(o.line.battery) == o.said.lost)
            && (!o.said.Hook? ==> Told(o.line.battery) == Told(l.battery))
  {
  }

  /** `hooks` alternates, from what was told before to what was told last. */
  ghost predicate Toggles(hooks: seq<bool>, before: bool, after: bool) {
    && Alternates(hooks)
    && after == (if hooks == [] then before else hooks[|hooks| - 1])
    && (hooks != [] ==> hooks[0] != before)
  }

  lemma TogglesSnoc(hooks: seq<bool>, before: bool, after: bool, said: Said)
    requires Toggles(hooks, before, after) && (said.Hook? ==> said.lost != after)
    ensures Toggles(hooks + HookIn(said), before, if said.Hook? then said.lost else after)
  {
    if !said.Hook? {
      assert hooks + HookIn(said) == hooks;
    }
  }

  lemma {:induction false} HooksAlternate(l: Line, polls: seq<Poll>, s: Settings)
    requires s.Ok() && !l.battery.Unknown? && NeverForgets(polls)
    ensures !After(l, polls, s).battery.Unknown?
    ensures Toggles(Hooks(l, polls, s), Told(l.battery), Told(After(l, polls, s).battery))
    decreases |polls|
  {
    if polls != [] {
      var n := |polls| - 1;
      HooksAlternate(l, polls[..n], s);
      var before := After(l, polls[..n], s);
      HookFlips(before, polls[n], s);
      TogglesSnoc(Hooks(l, polls[..n], s), Told(l.battery), Told(before.battery), SaidAt(l, polls, n, s));
    }
  }

  lemma HooksSnoc(l: Line, polls: seq<Poll>, p: Poll, s: Settings)
    requires s.Ok()
    ensures Hooks(l, polls + [p], s) == Hooks(l, polls, s) + HookIn(OnPoll(After(l, polls, s), p, s).said)
  {
    assert (polls + [p])[..|polls|] == polls;
  }

  /** The first poll in front of the others. */
  lemma {:induction false} FirstPoll(l: Line, p: Poll, polls: seq<Poll>, s: Settings)
    requires s.Ok()
    ensures var o := OnPoll(l, p, s);
            && After(l, [p] + polls, s) == After(o.line, polls, s)
            && Hooks(l, [p] + polls, s) == HookIn(o.said) + Hooks(o.line, polls, s)
    decreases |polls|
  {
    if polls == [] {
      AfterSnoc(l, [], p, s);
      HooksSnoc(l, [], p, s);
      assert [p] + polls == [] + [p];
    } else {
      var n := |polls| - 1;
      var front, last := polls[..n], polls[n];
      assert polls == front + [last] && [p] + polls == ([p] + front) + [last];
      FirstPoll(l, p, front, s);
      AfterSnoc(l, [p] + front, last, s);
      HooksSnoc(l, [p] + front, last, s);
      AfterSnoc(OnPoll(l, p, s).line, front, last, s);
      HooksSnoc(OnPoll(l, p, s).line, front, last, s);
    }
  }

  /** From the unknown state the first report is made at once, and the next one, if any,
      repeats it; from there on they alternate. */
  lemma UnknownRepeatsOnce(l: Line, polls: seq<Poll>, s: Settings)
    requires s.Ok() && l.battery.Unknown? && polls != [] && NeverForgets(polls)
    ensures var h := Hooks(l, polls, s);
            && h != [] && h[0] == polls[0].lost && Alternates(h[1..])
            && (|h| > 1 ==> h[1] == h[0])
  {
    var p, rest := polls[0], polls[1..];
    assert polls == [p] + rest;
    FirstPoll(l, p, rest, s);
    UnknownTellsAtOnce(l, p, s);
    var o := OnPoll(l, p, s);
    HooksAlternate(o.line, rest, s);
    RepeatsThenToggles(Hooks(o.line, rest, s), p.lost, Told(After(o.line, rest, s).battery));
  }

  lemma UnknownTellsAtOnce(l: Line, p: Poll, s: Settings)
    requires s.Ok() && l.battery.Unknown?
    ensures var o := OnPoll(l, p, s);
            o.said == Hook(p.lost) && !o.line.battery.Unknown? && Told(o.line.battery) == !p.lost
  {
  }

  lemma RepeatsThenToggles(hooks: seq<bool>, first: bool, last: bool)
    requires Toggles(hooks, !first, last)
    ensures var h := [first] + hooks; Alternates(h[1..]) && (|h| > 1 ==> h[1] == h[0])
  {
    assert ([first] + hooks)[1..] == hooks;
  }

  /** So hook reports alternate in every run exactly when it does not start unknown. */
  lemma AlternationIsExact(l: Line, s: Settings)
    requires s.Ok()
    ensures (forall polls :: InOrder(polls) && NeverForgets(polls) ==> Alternates(Hooks(l, polls, s)))
            <==> !l.battery.Unknown?
  {
    if l.battery.Unknown? {
      var first, second := Poll(0, true, false), Poll(s.debounce + 1, true, false);
      var polls := [first, second];
      assert polls == [first] + [second] && [second] == [second] + [];
      FirstPoll(l, first, [second], s);
      FirstPoll(Line(DebouncingLost, s.debounce), second, [], s);
      var h := Hooks(l, polls, s);
      assert h == [true, true];
      assert h[1] == h[0];
    } else {
      forall polls | InOrder(polls) && NeverForgets(polls)
        ensures Alternates(Hooks(l, polls, s))
      {
        HooksAlternate(l, polls, s);
      }
    }
  }

  /** What the channel core takes note of: a report of the state it has noted already
      is ignored. */
  function Noted(hooks: seq<bool>): (r: seq<bool>)
    ensures hooks != [] ==> r != [] && r[|r| - 1] == hooks[|hooks| - 1]
    decreases |hooks|
  {
    if hooks == [] then []
    else
      var n := |hooks| - 1;
      if n > 0 && hooks[n] == hooks[n - 1] then Noted(hooks[..n]) else Noted(hooks[..n]) + [hooks[n]]
  }

  /** So hook states as the core notes them alternate in every run, and are the reports
      but for the one that an unknown state repeats. */
  lemma {:induction false} NotedAlternate(hooks: seq<bool>)
    ensures Alternates(Noted(hooks))
    decreases |hooks|
  {
    if hooks != [] {
      NotedAlternate(hooks[..|hooks| - 1]);
    }
  }

  lemma {:induction false} NotedIsAll(hooks: seq<bool>)
    requires Alternates(hooks)
    ensures Noted(hooks) == hooks
    decreases |hooks|
  {
    if hooks != [] {
      NotedIsAll(hooks[..|hooks| - 1]);
    }
  }

  lemma RepeatedFirst(h: bool, hooks: seq<bool>)
    requires hooks != []
    ensures var n, twice, once := |hooks| - 1, [h, h] + hooks, [h] + hooks;
            && twice[..n + 2] == [h, h] + hooks[..n] && once[..n + 1] == [h] + hooks[..n]
            && twice[n + 2] == once[n + 1] && twice[n + 1] == once[n]
  {
  }

  lemma {:induction false} NotedTwice(h: bool, hooks: seq<bool>)
    ensures Noted([h, h] + hooks) == Noted([h] + hooks)
    decreases |hooks|
  {
    if hooks == [] {
      assert [h, h] + hooks == [h, h] && [h] + hooks == [h];
      assert [h, h][..1] == [h];
    } else {
      NotedTwice(h, hooks[..|hooks| - 1]);
      RepeatedFirst(h, hooks);
    }
  }

  /** From the unknown state the core notes every report but the repeated one. */
  lemma CoreIgnoresTheRepeat(l: Line, polls: seq<Poll>, s: Settings)
    requires s.Ok() && l.battery.Unknown? && polls != [] && NeverForgets(polls)
    ensures var h := Hooks(l, polls, s);
            Noted(h) == if |h| > 1 then h[1..] else h
  {
    UnknownRepeatsOnce(l, polls, s);
    var h := Hooks(l, polls, s);
    if |h| > 1 {
      assert h == [h[0], h[0]] + h[2..] && h[1..] == [h[0]] + h[2..];
      NotedTwice(h[0], h[2..]);
      NotedIsAll(h[1..]);
    } else {
      NotedIsAll(h);
    }
  }

  // ---------------------------------------------------------------- the driver

  class Fxo {
    const settings: Settings
    var batteryState: Battery
    var battdebounceTimer: nat

    ghost function View(): Line
      reads this
    {
      Line(batteryState, battdebounceTimer)
    }

    constructor (settings: Settings)
      ensures this.settings == settings && View() == Line(Unknown, 0)
    {
      this.settings := settings;
      batteryState, battdebounceTimer := Unknown, 0;
    }

    /** wcaxx_check_battery_lost. */
    method CheckBatteryLost(framecount: nat) returns (said: Said)
      requires settings.Ok()
      modifies this
      ensures Outcome(View(), said) == OnLost(old(View()), framecount, settings)
    {
      said := Nothing;
      match batteryState {
        case DebouncingPresentAlarm =>
          batteryState := DebouncingLostFromPresentAlarm;
          battdebounceTimer := framecount + settings.debounce;
        case DebouncingPresent =>
          batteryState := Lost;
        case DebouncingPresentFromLostAlarm =>
          batteryState := DebouncingLostAlarm;
          battdebounceTimer := framecount + settings.alarm - settings.debounce;
        case Unknown | Present =>
          if batteryState.Unknown? {
            said := Hook(true);
          }
          batteryState := DebouncingLost;
          battdebounceTimer := framecount + settings.debounce;
        case DebouncingLostFromPresentAlarm | DebouncingLost =>
          if framecount > battdebounceTimer {
            said := Hook(true);
            batteryState := DebouncingLostAlarm;
            battdebounceTimer := framecount + settings.alarm - settings.debounce;
          }
        case DebouncingLostAlarm =>
          if framecount > battdebounceTimer {
            batteryState := Lost;
            said := Alarm(true);
          }
        case Lost =>
      }
    }

    /** wcaxx_check_battery_present, a second switch, is the exact mirror image. */
    method CheckBatteryPresent(framecount: nat) returns (said: Said)
      requires settings.Ok()
      modifies this
      ensures Outcome(View(), said) == Reflect(OnLost(MirrorLine(old(View())), framecount, settings))
    {
      said := Nothing;
      match batteryState {
        case DebouncingPresentFromLostAlarm | DebouncingPresent =>
          if framecount > battdebounceTimer {
            said := Hook(false);
            batteryState := DebouncingPresentAlarm;
            battdebounceTimer := framecount + settings.alarm - settings.debounce;
          }
        case DebouncingPresentAlarm =>
          if framecount > battdebounceTimer {
            batteryState := Present;
            said := Alarm(false);
          }
        case Present =>
        case DebouncingLostAlarm =>
          batteryState := DebouncingPresentFromLostAlarm;
          battdebounceTimer := framecount + settings.debounce;
        case DebouncingLostFromPresentAlarm =>
          batteryState := DebouncingPresentAlarm;
          battdebounceTimer := framecount + settings.alarm - settings.debounce;
        case DebouncingLost =>
          batteryState := Present;
        case Unknown | Lost =>
          if batteryState.Unknown? {
            said := Hook(false);
          }
          batteryState := DebouncingPresent;
          battdebounceTimer := framecount + settings.debounce;
      }
    }

    /** One pass of the voltage check. */
    method CheckHook(p: Poll) returns (said: Said)
      requires settings.Ok()
      modifies this
      ensures Outcome(View(), said) == OnPoll(old(View()), p, settings)
    {
      if p.forget {
        batteryState := Unknown;
      }
      if p.lost {
        said := CheckBatteryLost(p.frame);
      } else {
        said := CheckBatteryPresent(p.frame);
      }
    }

    /** A whole run of polls, with everything it reports. */
    method Watch(polls: seq<Poll>) returns (said: seq<Said>)
      requires settings.Ok()
      modifies this
      ensures View() == After(old(View()), polls, settings) && |said| == |polls|
      ensures forall k :: 0 <= k < |polls| ==> said[k] == SaidAt(old(View()), polls, k, settings)
    {
      said := [];
      ghost var start := View();
      for k := 0 to |polls|
        invariant View() == After(start, polls[..k], settings) && |said| == k
        invariant forall j :: 0 <= j < k ==> said[j] == SaidAt(start, polls, j, settings)
      {
        var report := CheckHook(polls[k]);
        said := said + [report];
        assert polls[..k + 1][..k] == polls[..k];
      }
      assert polls[..|polls|] == polls;
    }
  }
}
