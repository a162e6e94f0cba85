/** Pulse dialing: the dial buffer, the pulse states and the signalling timer of one
    channel on a span that reports hook changes itself. */
module PulseDialer {
  import opened Words

  datatype Hook = OnHook | OffHook
  datatype TxState = Idle | PulseBreak | PulseMake | PulseAfter
  datatype DigitMode = Dtmf | Mfr1 | Pulse | Mfr2Fwd | Mfr2Rev

  /** Times are in ticks, the timer in samples. `mfTone` gives the length in samples of the
      tones that a character dials, 0 if it dials none. */
  datatype Config = Config(chunk: nat, breakTime: nat, makeTime: nat, afterTime: nat, mfTone: (char, DigitMode) -> nat)

  ghost predicate Positive(c: Config) {
    c.chunk > 0 && c.breakTime > 0 && c.makeTime > 0 && c.afterTime > 0
  }

  /** `Idle` stands for being off hook with no pulse under way; `tone` is what
      is left to play of a tone, in samples, and `completes` counts the DIALCOMPLETE events. */
  datatype Line = Line(txstate: TxState, hook: Hook, otimer: int, pdialcount: nat, dialbuf: string,
                       mode: DigitMode, dialing: bool, tone: nat, completes: nat)

  function SetHook(s: Line, hook: Hook, txstate: TxState, timeout: nat, c: Config): Line {
    s.(hook := hook, txstate := txstate, otimer := timeout * c.chunk)
  }

  predicate IsDigit(ch: char) {
    '0' <= ch <= '9'
  }

  function PulsesOf(ch: char): (d: nat)
    requires IsDigit(ch)
    ensures 1 <= d <= 10
  {
    if ch == '0' then 10 else (ch as int) - ('0' as int)
  }

  /** Goes on with the dial string until something has to be waited for. */
  function DoDtmf(s: Line, c: Config): Line
    decreases |s.dialbuf|
  {
    if s.dialbuf == "" then s.(dialing := false, completes := s.completes + 1)
    else
      var ch := s.dialbuf[0];
      var s := s.(dialbuf := s.dialbuf[1..]);
      if ch == 'T' then DoDtmf(s.(mode := Dtmf), c)
      else if ch == 'M' then DoDtmf(s.(mode := Mfr1), c)
      else if ch == 'O' then DoDtmf(s.(mode := Mfr2Fwd), c)
      else if ch == 'R' then DoDtmf(s.(mode := Mfr2Rev), c)
      else if ch == 'P' then DoDtmf(s.(mode := Pulse), c)
      else if ch != 'W' && s.mode == Pulse then
        if IsDigit(ch) && s.hook == OffHook
        then SetHook(s.(pdialcount := PulsesOf(ch)), OnHook, PulseBreak, c.breakTime, c)
        else DoDtmf(s, c)
      else if c.mfTone(ch, s.mode) > 0 then s.(tone := c.mfTone(ch, s.mode))
      else DoDtmf(s.(tone := 0), c)
  }

  function Expire(s: Line, c: Config): Line {
    var s := s.(otimer := 0);
    match s.txstate
    case Idle => s
    case PulseBreak => SetHook(s, OffHook, PulseMake, c.makeTime, c)
    case PulseMake =>
      var s := s.(pdialcount := if s.pdialcount > 0 then s.pdialcount - 1 else 0);
      if s.pdialcount > 0 then SetHook(s, OnHook, PulseBreak, c.breakTime, c)
      else s.(txstate := PulseAfter, otimer := c.afterTime * c.chunk)
    case PulseAfter => DoDtmf(s.(txstate := Idle), c)
  }

  /** The tone part of one transmit tick, for `bytes` samples: when a tone ends, dialing
      goes on. */
  function Play(s: Line, bytes: nat, c: Config): Line
    decreases bytes
  {
    if bytes == 0 || s.tone == 0 then s
    else
      var left := Min(s.tone, bytes);
      var s := s.(tone := s.tone - left);
      Play(if s.tone == 0 && s.dialing then DoDtmf(s, c) else s, bytes - left, c)
  }

  /** The timer part. */
  function Timer(s: Line, c: Config): Line {
    if s.otimer == 0 then s
    else if s.otimer - c.chunk <= 0 then Expire(s, c)
    else s.(otimer := s.otimer - c.chunk)
  }

  /** One transmit tick of a channel with nothing else to send. */
  function Tick(s: Line, c: Config): Line {
    Timer(Play(s, c.chunk, c), c)
  }

  // ---------------------------------------------------------------- runs

  function After(s: Line, n: nat, c: Config): Line
    decreases n
  {
    if n == 0 then s else After(Tick(s, c), n - 1, c)
  }

  /** The hook signal at each of the next `n` ticks. */
  function Signal(s: Line, n: nat, c: Config): (r: seq<Hook>)
    ensures |r| == n
    decreases n
  {
    if n == 0 then [] else [s.hook] + Signal(Tick(s, c), n - 1, c)
  }

  lemma {:induction false} RunConcat(s: Line, m: nat, n: nat, c: Config)
    ensures After(s, m + n, c) == After(After(s, m, c), n, c)
    ensures Signal(s, m + n, c) == Signal(s, m, c) + Signal(After(s, m, c), n, c)
    decreases m
  {
    if m == 0 {
      assert [] + Signal(s, n, c) == Signal(s, n, c);
    } else {
      RunConcat(Tick(s, c), m - 1, n, c);
      ConcatAssoc([s.hook], Signal(Tick(s, c), m - 1, c), Signal(After(s, m, c), n, c));
    }
  }

  /** In `|signal|` ticks the line shows `signal` and gets from `s` to `t`. */
  ghost predicate Path(s: Line, signal: seq<Hook>, t: Line, c: Config) {
    Signal(s, |signal|, c) == signal && After(s, |signal|, c) == t
  }

  lemma PathConcat(s: Line, a: seq<Hook>, t: Line, b: seq<Hook>, u: Line, c: Config)
    requires Path(s, a, t, c) && Path(t, b, u, c)
    ensures Path(s, a + b, u, c)
  {
    RunConcat(s, |a|, |b|, c);
  }

  function Hold(hook: Hook, n: nat): (r: seq<Hook>)
    ensures |r| == n
  {
    if n == 0 then [] else [hook] + Hold(hook, n - 1)
  }

  /** `d` breaks, each followed by a make. */
  function Pulses(d: nat, c: Config): seq<Hook> {
    if d == 0 then [] else Hold(OnHook, c.breakTime) + Hold(OffHook, c.makeTime) + Pulses(d - 1, c)
  }

  /** The mode that a letter switches to. */
  function Switched(ch: char, mode: DigitMode): DigitMode {
    match ch
    case 'T' => Dtmf
    case 'M' => Mfr1
    case 'O' => Mfr2Fwd
    case 'R' => Mfr2Rev
    case 'P' => Pulse
    case _ => mode
  }

  predicate IsSwitch(ch: char) {
    ch in "TMORP"
  }

  /** The character is dialed by pulses, or ignored, rather than by a tone. */
  predicate IsPulsed(ch: char, mode: DigitMode) {
    ch != 'W' && mode == Pulse
  }

  /** What the line must do for a dial string, up to its first tone: each digit its pulses
      and then a pause. */
  function Waveform(dialbuf: string, mode: DigitMode, c: Config): seq<Hook> {
    if dialbuf == "" then []
    else
      var ch, rest := dialbuf[0], dialbuf[1..];
      if IsSwitch(ch) then Waveform(rest, Switched(ch, mode), c)
      else if IsPulsed(ch, mode) then
        (if IsDigit(ch) then Pulses(PulsesOf(ch), c) + Hold(OffHook, c.afterTime) else []) + Waveform(rest, mode, c)
      else if c.mfTone(ch, mode) > 0 then []
      else Waveform(rest, mode, c)
  }

  function Duration(dialbuf: string, mode: DigitMode, c: Config): nat {
    if dialbuf == "" then 0
    else
      var ch, rest := dialbuf[0], dialbuf[1..];
      if IsSwitch(ch) then Duration(rest, Switched(ch, mode), c)
      else if IsPulsed(ch, mode) then
        (if IsDigit(ch) then PulsesOf(ch) * (c.breakTime + c.makeTime) + c.afterTime else 0) + Duration(rest, mode, c)
      else if c.mfTone(ch, mode) > 0 then 0
      else Duration(rest, mode, c)
  }

  lemma {:induction false} PulsesLength(d: nat, c: Config)
    ensures |Pulses(d, c)| == d * (c.breakTime + c.makeTime)
  {
    if d > 0 {
      PulsesLength(d - 1, c);
      assert d * (c.breakTime + c.makeTime) == (d - 1) * (c.breakTime + c.makeTime) + (c.breakTime + c.makeTime);
    }
  }

  lemma {:induction false} WaveformLength(dialbuf: string, mode: DigitMode, c: Config)
    ensures |Waveform(dialbuf, mode, c)| == Duration(dialbuf, mode, c)
    decreases |dialbuf|
  {
    if dialbuf != "" {
      var ch, rest := dialbuf[0], dialbuf[1..];
      WaveformLength(rest, Switched(ch, mode), c);
      WaveformLength(rest, mode, c);
      if IsDigit(ch) {
        PulsesLength(PulsesOf(ch), c);
      }
    }
  }

  lemma OneTickLess(t: nat, chunk: nat)
    requires t > 0
    ensures t * chunk == (t - 1) * chunk + chunk && (t > 1 ==> (t - 1) * chunk >= chunk)
  {
    if t > 1 {
      assert (t - 1) * chunk == (t - 2) * chunk + chunk && (t - 2) * chunk >= 0;
    }
  }

  /** A timer of `t` ticks holds the hook for exactly `t` ticks. */
  lemma {:induction false} Countdown(s: Line, t: nat, c: Config)
    requires c.chunk > 0 && t > 0 && s.otimer == t * c.chunk && s.tone == 0
    ensures Path(s, Hold(s.hook, t), Expire(s, c), c)
    decreases t
  {
    var s1 := Tick(s, c);
    OneTickLess(t, c.chunk);
    assert Signal(s, 1, c) == [s.hook] + Signal(s1, 0, c);
    assert Path(s, [s.hook], s1, c) by {
      assert After(s, 1, c) == After(s1, 0, c);
    }
    if t == 1 {
      assert Hold(s.hook, 1) == [s.hook] + Hold(s.hook, 0);
    } else {
      assert s1 == s.(otimer := (t - 1) * c.chunk);
      Countdown(s1, t - 1, c);
      assert Expire(s1, c) == Expire(s, c);
      PathConcat(s, [s.hook], s1, Hold(s.hook, t - 1), Expire(s, c), c);
    }
  }

  /** A digit under way produces its remaining pulses and then goes off hook. */
  lemma {:induction false} DigitPulses(s: Line, c: Config)
    requires Positive(c) && s.pdialcount > 0
    requires s.txstate == PulseBreak && s.hook == OnHook && s.otimer == c.breakTime * c.chunk && s.tone == 0
    ensures Path(s, Pulses(s.pdialcount, c),
      s.(txstate := PulseAfter, hook := OffHook, otimer := c.afterTime * c.chunk, pdialcount := 0), c)
    decreases s.pdialcount
  {
    var on, off := Hold(OnHook, c.breakTime), Hold(OffHook, c.makeTime);
    var end := s.(txstate := PulseAfter, hook := OffHook, otimer := c.afterTime * c.chunk, pdialcount := 0);
    Countdown(s, c.breakTime, c);
    var s1 := Expire(s, c);
    Countdown(s1, c.makeTime, c);
    var s2 := Expire(s1, c);
    PathConcat(s, on, s1, off, s2, c);
    if s.pdialcount == 1 {
      assert s2 == end && Pulses(1, c) == on + off + Pulses(0, c) == on + off;
    } else {
      DigitPulses(s2, c);
      PathConcat(s, on + off, s2, Pulses(s.pdialcount - 1, c), end, c);
    }
  }

  /** Off hook with no pulse under way. */
  predicate AtRest(s: Line) {
    s.txstate == Idle && s.hook == OffHook && s.otimer == 0 && s.pdialcount == 0
  }

  /** And with no tone playing. */
  predicate Quiet(s: Line) {
    AtRest(s) && s.tone == 0
  }

  /** The line with its string dialed up to the first tone, which then plays, or to the
      end, with one DIALCOMPLETE. */
  function Dialed(s: Line, c: Config): Line
    decreases |s.dialbuf|
  {
    if s.dialbuf == "" then s.(dialing := false, completes := s.completes + 1)
    else
      var ch, rest := s.dialbuf[0], s.(dialbuf := s.dialbuf[1..]);
      if IsSwitch(ch) then Dialed(rest.(mode := Switched(ch, s.mode)), c)
      else if IsPulsed(ch, s.mode) then Dialed(rest, c)
      else if c.mfTone(ch, s.mode) > 0 then rest.(tone := c.mfTone(ch, s.mode))
      else Dialed(rest.(tone := 0), c)
  }

  /** No character that leaves pulse dialing or asks for a pause tone. */
  ghost predicate PulseString(dialbuf: string) {
    forall i :: 0 <= i < |dialbuf| ==> dialbuf[i] !in "TMORW"
  }

  /** A string without those is dialed to its end. */
  lemma {:induction false} PulseStringsComplete(s: Line, c: Config)
    requires PulseString(s.dialbuf) && s.mode == Pulse
    ensures Dialed(s, c) == s.(dialbuf := "", dialing := false, completes := s.completes + 1)
    decreases |s.dialbuf|
  {
    if s.dialbuf != "" {
      assert s.dialbuf[0] !in "TMORW";
      PulseStringsComplete(s.(dialbuf := s.dialbuf[1..]), c);
    }
  }

  lemma StartsDigit(s: Line, c: Config)
    requires s.dialbuf != "" && IsDigit(s.dialbuf[0]) && s.mode == Pulse && s.hook == OffHook
    ensures DoDtmf(s, c)
         == SetHook(s.(dialbuf := s.dialbuf[1..], pdialcount := PulsesOf(s.dialbuf[0])), OnHook, PulseBreak, c.breakTime, c)
  {
  }

  /** A digit dialed from rest comes to rest after its pulses and the pause. */
  lemma DialsDigit(s: Line, c: Config)
    requires Positive(c) && Quiet(s) && s.mode == Pulse && s.dialbuf != "" && IsDigit(s.dialbuf[0])
    ensures var rest := s.(dialbuf := s.dialbuf[1..]);
            Path(DoDtmf(s, c), Pulses(PulsesOf(s.dialbuf[0]), c) + Hold(OffHook, c.afterTime), DoDtmf(rest, c), c)
  {
    StartsDigit(s, c);
    var rest, s2 := s.(dialbuf := s.dialbuf[1..]), DoDtmf(s, c);
    DigitPulses(s2, c);
    var s3 := rest.(txstate := PulseAfter, otimer := c.afterTime * c.chunk);
    Countdown(s3, c.afterTime, c);
    assert Expire(s3, c) == DoDtmf(rest, c);
    PathConcat(s2, Pulses(PulsesOf(s.dialbuf[0]), c), s3, Hold(OffHook, c.afterTime), DoDtmf(rest, c), c);
  }

  lemma EmptyPath(s: Line, c: Config)
    ensures Path(s, [], s, c)
  {
  }

  /** Dialing any string from rest makes exactly the waveform of the string up to its
      first tone. */
  lemma {:induction false} DialsTheString(s: Line, c: Config)
    requires Positive(c) && Quiet(s)
    ensures Path(DoDtmf(s, c), Waveform(s.dialbuf, s.mode, c), Dialed(s, c), c)
    decreases |s.dialbuf|
  {
    EmptyPath(DoDtmf(s, c), c);
    if s.dialbuf != "" {
      var ch, rest := s.dialbuf[0], s.(dialbuf := s.dialbuf[1..]);
      if IsSwitch(ch) {
        DialsTheString(rest.(mode := Switched(ch, s.mode)), c);
      } else if IsPulsed(ch, s.mode) {
        DialsTheString(rest, c);
        var more := Waveform(rest.dialbuf, s.mode, c);
        if IsDigit(ch) {
          DialsDigit(s, c);
          PathConcat(DoDtmf(s, c), Pulses(PulsesOf(ch), c) + Hold(OffHook, c.afterTime), DoDtmf(rest, c), more,
                     Dialed(s, c), c);
        } else {
          assert [] + more == more;
        }
      } else if c.mfTone(ch, s.mode) == 0 {
        DialsTheString(rest.(tone := 0), c);
      }
    }
  }

  // ---------------------------------------------------------------- counting pulses

  /** What a digit means: its value, and ten for '0'. */
  function Meant(dialbuf: string): nat {
    if dialbuf == "" then 0
    else
      var value := (dialbuf[0] as int) - ('0' as int);
      (if 0 < value <= 9 then value else if value == 0 then 10 else 0) + Meant(dialbuf[1..])
  }

  function Digits(dialbuf: string): nat {
    if dialbuf == "" then 0 else (if '0' <= dialbuf[0] <= '9' then 1 else 0) + Digits(dialbuf[1..])
  }

  /** How often the line goes on hook, being at `before` first. */
  function Breaks(signal: seq<Hook>, before: Hook): nat {
    if signal == [] then 0
    else (if signal[0] == OnHook && before == OffHook then 1 else 0) + Breaks(signal[1..], signal[0])
  }

  /** For how many ticks it is on hook. */
  function OnHookTicks(signal: seq<Hook>): nat {
    if signal == [] then 0 else (if signal[0] == OnHook then 1 else 0) + OnHookTicks(signal[1..])
  }

  function LastHook(signal: seq<Hook>, before: Hook): Hook {
    if signal == [] then before else signal[|signal| - 1]
  }

  lemma {:induction false} CountsConcat(a: seq<Hook>, b: seq<Hook>, before: Hook)
    ensures Breaks(a + b, before) == Breaks(a, before) + Breaks(b, LastHook(a, before))
    ensures OnHookTicks(a + b) == OnHookTicks(a) + OnHookTicks(b)
    decreases |a|
  {
    if a == [] {
      assert a + b == b;
    } else {
      assert (a + b)[0] == a[0] && (a + b)[1..] == a[1..] + b;
      CountsConcat(a[1..], b, a[0]);
    }
  }

  lemma {:induction false} CountsHold(hook: Hook, n: nat, before: Hook)
    requires n > 0
    ensures Breaks(Hold(hook, n), before) == if hook == OnHook && before == OffHook then 1 else 0
    ensures OnHookTicks(Hold(hook, n)) == if hook == OnHook then n else 0
    ensures LastHook(Hold(hook, n), before) == hook
    decreases n
  {
    var rest := Hold(hook, n - 1);
    assert Hold(hook, n)[1..] == rest;
    if n > 1 {
      CountsHold(hook, n - 1, hook);
    }
  }

  lemma {:induction false} CountsPulses(d: nat, c: Config)
    requires Positive(c)
    ensures Breaks(Pulses(d, c), OffHook) == d && OnHookTicks(Pulses(d, c)) == d * c.breakTime
    ensures LastHook(Pulses(d, c), OffHook) == OffHook
    decreases d
  {
    if d > 0 {
      var on, off, rest := Hold(OnHook, c.breakTime), Hold(OffHook, c.makeTime), Pulses(d - 1, c);
      CountsHold(OnHook, c.breakTime, OffHook);
      CountsHold(OffHook, c.makeTime, OnHook);
      CountsConcat(on, off, OffHook);
      CountsConcat(on + off, rest, OffHook);
      CountsPulses(d - 1, c);
      assert (d - 1) * c.breakTime + c.breakTime == d * c.breakTime;
    }
  }

  /** Each digit has as many pulses as it means. */
  lemma PulsesOfDigit(ch: char)
    requires '0' <= ch <= '9'
    ensures PulsesOf(ch) == Meant([ch]) && PulsesOf(ch) % 10 == (ch as int) - ('0' as int)
  {
    assert [ch][1..] == "";
  }

  lemma OneDigitCounts(ch: char, c: Config)
    requires Positive(c) && '0' <= ch <= '9'
    ensures var signal := Pulses(PulsesOf(ch), c) + Hold(OffHook, c.afterTime);
            && Breaks(signal, OffHook) == Meant([ch]) && OnHookTicks(signal) == Meant([ch]) * c.breakTime
            && |signal| == Meant([ch]) * (c.breakTime + c.makeTime) + c.afterTime && LastHook(signal, OffHook) == OffHook
  {
    PulsesOfDigit(ch);
    CountsPulses(PulsesOf(ch), c);
    CountsHold(OffHook, c.afterTime, OffHook);
    CountsConcat(Pulses(PulsesOf(ch), c), Hold(OffHook, c.afterTime), OffHook);
    PulsesLength(PulsesOf(ch), c);
  }

  lemma MultiplesAdd(a: nat, b: nat, x: nat)
    ensures (a + b) * x == a * x + b * x
  {
  }

  /** A pulse string goes on hook as often as its digits mean together, each time for the
      break time, and takes the makes and pauses besides. */
  lemma {:induction false} StringCounts(dialbuf: string, c: Config)
    requires Positive(c) && PulseString(dialbuf)
    ensures var signal := Waveform(dialbuf, Pulse, c);
            && Breaks(signal, OffHook) == Meant(dialbuf) && OnHookTicks(signal) == Meant(dialbuf) * c.breakTime
            && |signal| == Meant(dialbuf) * (c.breakTime + c.makeTime) + Digits(dialbuf) * c.afterTime
    decreases |dialbuf|
  {
    if dialbuf != "" {
      var ch, rest := dialbuf[0], dialbuf[1..];
      assert ch !in "TMORW";
      StringCounts(rest, c);
      var more := Waveform(rest, Pulse, c);
      if '0' <= ch <= '9' {
        OneDigitCounts(ch, c);
        assert [ch][1..] == "" && Meant(dialbuf) == Meant([ch]) + Meant(rest);
        CountsConcat(Pulses(PulsesOf(ch), c) + Hold(OffHook, c.afterTime), more, OffHook);
        MultiplesAdd(Meant([ch]), Meant(rest), c.breakTime);
        MultiplesAdd(Meant([ch]), Meant(rest), c.breakTime + c.makeTime);
        MultiplesAdd(1, Digits(rest), c.afterTime);
      } else {
        assert [] + more == more;
      }
    }
  }

  /** The letters that choose how the characters after them are dialed. */
  lemma LettersSwitch(s: Line, c: Config)
    requires s.dialbuf != "" && s.dialbuf[0] in "TMORP"
    ensures var ch := s.dialbuf[0];
            DoDtmf(s, c)
            == DoDtmf(s.(dialbuf := s.dialbuf[1..],
                         mode := if ch == 'T' then Dtmf else if ch == 'M' then Mfr1 else if ch == 'O' then Mfr2Fwd
                                 else if ch == 'R' then Mfr2Rev else Pulse), c)
  {
  }

  // ---------------------------------------------------------------- a tone that still plays

  /** Dialing a pulse string by pulses. */
  ghost predicate Pulsing(s: Line) {
    s.mode == Pulse && PulseString(s.dialbuf)
  }

  /** The place of the first digit. */
  function FirstDigit(dialbuf: string): (k: nat)
    ensures k <= |dialbuf| && (k < |dialbuf| ==> IsDigit(dialbuf[k]))
  {
    if dialbuf == "" || IsDigit(dialbuf[0]) then 0 else 1 + FirstDigit(dialbuf[1..])
  }

  /** Characters that are not dialed now are passed over. */
  lemma PassOver(s: Line, c: Config)
    requires Pulsing(s) && s.dialbuf != "" && !(IsDigit(s.dialbuf[0]) && s.hook == OffHook)
    ensures DoDtmf(s, c) == DoDtmf(s.(dialbuf := s.dialbuf[1..]), c) && Pulsing(s.(dialbuf := s.dialbuf[1..]))
  {
    assert s.dialbuf[0] !in "TMORW";
  }

  lemma {:induction false} NoDigitNow(s: Line, c: Config)
    requires Pulsing(s) && (s.hook == OnHook || FirstDigit(s.dialbuf) == |s.dialbuf|)
    ensures DoDtmf(s, c) == s.(dialbuf := "", dialing := false, completes := s.completes + 1)
    decreases |s.dialbuf|
  {
    if s.dialbuf != "" {
      PassOver(s, c);
      NoDigitNow(s.(dialbuf := s.dialbuf[1..]), c);
    }
  }

  lemma {:induction false} DigitNow(s: Line, c: Config)
    requires Pulsing(s) && s.hook == OffHook && FirstDigit(s.dialbuf) < |s.dialbuf|
    ensures var k := FirstDigit(s.dialbuf);
            DoDtmf(s, c)
            == SetHook(s.(dialbuf := s.dialbuf[k + 1..], pdialcount := PulsesOf(s.dialbuf[k])), OnHook, PulseBreak,
                       c.breakTime, c)
    decreases |s.dialbuf|
  {
    if IsDigit(s.dialbuf[0]) {
      StartsDigit(s, c);
    } else {
      PassOver(s, c);
      var rest := s.(dialbuf := s.dialbuf[1..]);
      DigitNow(rest, c);
      var k := FirstDigit(rest.dialbuf);
      assert rest.dialbuf[k + 1..] == s.dialbuf[k + 2..];
    }
  }

  /** What dialing a pulse string goes on to: its first digit, or its end. */
  lemma NextDigit(s: Line, c: Config)
    requires Pulsing(s)
    ensures var k := FirstDigit(s.dialbuf);
            DoDtmf(s, c)
            == if k < |s.dialbuf| && s.hook == OffHook
               then SetHook(s.(dialbuf := s.dialbuf[k + 1..], pdialcount := PulsesOf(s.dialbuf[k])), OnHook, PulseBreak,
                            c.breakTime, c)
               else s.(dialbuf := "", dialing := false, completes := s.completes + 1)
  {
    if FirstDigit(s.dialbuf) < |s.dialbuf| && s.hook == OffHook {
      DigitNow(s, c);
    } else {
      NoDigitNow(s, c);
    }
  }

  /** A pulse string does not touch the tone. */
  lemma DialingKeepsTone(s: Line, tone: nat, c: Config)
    requires Pulsing(s)
    ensures DoDtmf(s.(tone := tone), c) == DoDtmf(s, c).(tone := tone) && Pulsing(DoDtmf(s, c)) && DoDtmf(s, c).tone == s.tone
  {
    NextDigit(s, c);
    NextDigit(s.(tone := tone), c);
  }

  lemma ToneStays(s: Line, tone: nat, c: Config)
    requires Pulsing(s)
    ensures Timer(s.(tone := tone), c) == Timer(s, c).(tone := tone) && Pulsing(Timer(s, c)) && Timer(s, c).tone == s.tone
  {
    var e := s.(otimer := 0, txstate := Idle);
    DialingKeepsTone(e, tone, c);
    assert e.(tone := tone) == s.(tone := tone).(otimer := 0, txstate := Idle);
  }

  lemma TickPlaysOn(s: Line, c: Config)
    requires Pulsing(s) && c.chunk < s.tone
    ensures Tick(s, c) == Tick(s.(tone := 0), c).(tone := s.tone - c.chunk) && Pulsing(Tick(s.(tone := 0), c))
    ensures Tick(s.(tone := 0), c).tone == 0
  {
    var on := s.(tone := s.tone - c.chunk);
    assert Play(on, 0, c) == on;
    ToneStays(s.(tone := 0), s.tone - c.chunk, c);
  }

  /** The tone plays on for `n` ticks beside the dialing. */
  lemma {:induction false} TonePlaysOn(s: Line, n: nat, c: Config)
    requires Pulsing(s) && n * c.chunk < s.tone
    ensures After(s, n, c) == After(s.(tone := 0), n, c).(tone := s.tone - n * c.chunk) && Pulsing(After(s.(tone := 0), n, c))
    decreases n
  {
    if n > 0 {
      assert n * c.chunk == (n - 1) * c.chunk + c.chunk && (n - 1) * c.chunk >= 0;
      TickPlaysOn(s, c);
      TonePlaysOn(Tick(s, c), n - 1, c);
      assert Tick(s, c).(tone := 0) == Tick(s.(tone := 0), c);
    }
  }

  /** Only the end of the pause takes digits from the buffer. */
  lemma TimerKeepsBuffer(s: Line, c: Config)
    requires s.txstate != PulseAfter || s.otimer == 0 || s.otimer > c.chunk
    ensures Timer(s, c).dialbuf == s.dialbuf
  {
  }

  lemma StartsBreak(s: Line, c: Config)
    requires Pulsing(s) && s.hook == OffHook && FirstDigit(s.dialbuf) < |s.dialbuf|
    ensures var t := DoDtmf(s, c);
            t.txstate == PulseBreak && t.otimer == c.breakTime * c.chunk && |t.dialbuf| < |s.dialbuf|
  {
    NextDigit(s, c);
  }

  lemma BreakGoesOn(s: Line, c: Config)
    requires c.chunk > 0 && s.txstate == PulseBreak && s.otimer > 0
    ensures Timer(s, c).txstate != PulseBreak || Timer(s, c).otimer < s.otimer
  {
  }

  lemma BreakIsPositive(c: Config)
    requires Positive(c)
    ensures c.breakTime * c.chunk > 0
  {
  }

  lemma PauseCutShort(s: Line, c: Config)
    requires Positive(c) && Pulsing(s) && s.hook == OffHook && FirstDigit(s.dialbuf) < |s.dialbuf|
    requires s.txstate == PulseAfter && s.otimer != 0 && s.otimer <= c.chunk
    ensures Timer(DoDtmf(s, c), c) != Timer(s, c)
  {
    var e := s.(otimer := 0, txstate := Idle);
    StartsBreak(s, c);
    StartsBreak(e, c);
    BreakIsPositive(c);
    SameBreak(DoDtmf(s, c), DoDtmf(e, c), c);
    EndOfPause(s, c);
  }

  lemma EndOfPause(s: Line, c: Config)
    requires s.txstate == PulseAfter && s.otimer != 0 && s.otimer <= c.chunk
    ensures Timer(s, c) == DoDtmf(s.(otimer := 0, txstate := Idle), c)
  {
  }

  lemma SameBreak(v: Line, w: Line, c: Config)
    requires c.chunk > 0 && v.txstate == w.txstate == PulseBreak && v.otimer == w.otimer > 0
    ensures Timer(v, c) != w
  {
    BreakGoesOn(v, c);
  }

  lemma DigitCutsIn(s: Line, c: Config)
    requires Positive(c) && Pulsing(s) && s.hook == OffHook && FirstDigit(s.dialbuf) < |s.dialbuf|
    ensures Timer(DoDtmf(s, c), c) != Timer(s, c)
  {
    if s.txstate == PulseAfter && s.otimer != 0 && s.otimer <= c.chunk {
      PauseCutShort(s, c);
    } else {
      StartsBreak(s, c);
      TimerKeepsBuffer(s, c);
      TimerKeepsBuffer(DoDtmf(s, c), c);
    }
  }

  lemma RestIsDropped(s: Line, c: Config)
    requires Pulsing(s) && !(s.hook == OffHook && FirstDigit(s.dialbuf) < |s.dialbuf|)
    requires s.txstate == PulseAfter ==> s.hook == OffHook
    ensures Timer(DoDtmf(s, c), c) != Timer(s, c)
  {
    var e := s.(otimer := 0, txstate := Idle);
    NextDigit(s, c);
    NextDigit(e, c);
    var ended := s.(dialbuf := "", dialing := false, completes := s.completes + 1);
    NextDigit(ended.(otimer := 0, txstate := Idle), c);
    assert Timer(ended, c).completes == Timer(s, c).completes + 1;
  }

  /** If the tone ends while dialing goes on, the line is not where it would be without the
      tone: its pulses are cut short, or digits are swallowed, or DIALCOMPLETE comes once
      too often. */
  lemma ToneEndDisturbs(s: Line, c: Config)
    requires Positive(c) && Pulsing(s) && (s.txstate == PulseAfter ==> s.hook == OffHook)
    ensures Timer(DoDtmf(s, c), c) != Timer(s, c)
  {
    if s.hook == OffHook && FirstDigit(s.dialbuf) < |s.dialbuf| {
      DigitCutsIn(s, c);
    } else {
      RestIsDropped(s, c);
    }
  }

  /** Off hook after every break. */
  ghost predicate Hooked(s: Line) {
    s.txstate == PulseMake || s.txstate == PulseAfter ==> s.hook == OffHook
  }

  lemma TickStaysQuiet(s: Line, c: Config)
    requires Pulsing(s) && Hooked(s) && s.tone == 0
    ensures var t := Tick(s, c); t == Timer(s, c) && Pulsing(t) && Hooked(t) && t.tone == 0
  {
    var e := s.(otimer := 0, txstate := Idle);
    ToneStays(s, 0, c);
    NextDigit(e, c);
  }

  lemma {:induction false} RunStaysQuiet(s: Line, n: nat, c: Config)
    requires Pulsing(s) && Hooked(s) && s.tone == 0
    ensures var t := After(s, n, c); Pulsing(t) && Hooked(t) && t.tone == 0
    decreases n
  {
    if n > 0 {
      TickStaysQuiet(s, c);
      RunStaysQuiet(Tick(s, c), n - 1, c);
    }
  }

  /** The tick in which the tone ends. */
  lemma TickEndsTone(s: Line, c: Config)
    requires Pulsing(s) && 0 < s.tone <= c.chunk
    ensures var quiet := s.(tone := 0); Tick(s, c) == Timer(if s.dialing then DoDtmf(quiet, c) else quiet, c)
  {
    var quiet := s.(tone := 0);
    DialingKeepsTone(quiet, 0, c);
    assert Play(quiet, c.chunk - s.tone, c) == quiet;
    assert Play(DoDtmf(quiet, c), c.chunk - s.tone, c) == DoDtmf(quiet, c);
  }

  /** With the tone the line is at each of the next `n` ticks where it is without. */
  ghost predicate Undisturbed(s: Line, n: nat, c: Config) {
    forall k: nat :: k <= n ==> After(s, k, c).(tone := 0) == After(s.(tone := 0), k, c)
  }

  /** How many ticks pass before that in which the tone ends. */
  function FullTicks(tone: nat, c: Config): (e: nat)
    requires tone > 0 && c.chunk > 0
    ensures e * c.chunk < tone <= e * c.chunk + c.chunk
  {
    (tone - 1) / c.chunk
  }

  lemma MoreTicks(m: nat, n: nat, chunk: nat)
    requires m <= n
    ensures m * chunk <= n * chunk
  {
    assert n * chunk == m * chunk + (n - m) * chunk && (n - m) * chunk >= 0;
  }

  lemma FullTicksBelow(tone: nat, n: nat, c: Config)
    requires tone > 0 && c.chunk > 0
    ensures n * c.chunk < tone <==> n <= FullTicks(tone, c)
  {
    var e := FullTicks(tone, c);
    if n <= e {
      MoreTicks(n, e, c.chunk);
    } else {
      MoreTicks(e + 1, n, c.chunk);
      assert (e + 1) * c.chunk == e * c.chunk + c.chunk;
    }
  }

  /** The tone plays to its end beside a line that is no longer dialing. */
  lemma EndUnnoticed(s: Line, k: nat, c: Config)
    requires c.chunk > 0 && Pulsing(s) && Hooked(s) && s.tone > 0 && k > FullTicks(s.tone, c)
    requires !After(s.(tone := 0), FullTicks(s.tone, c), c).dialing
    ensures After(s, k, c) == After(s.(tone := 0), k, c) && After(s, k, c).tone == 0
  {
    var e, quiet := FullTicks(s.tone, c), s.(tone := 0);
    TonePlaysOn(s, e, c);
    RunStaysQuiet(quiet, k, c);
    RunStaysQuiet(quiet, e, c);
    var u, v := After(s, e, c), After(quiet, e, c);
    TickEndsTone(u, c);
    TickStaysQuiet(v, c);
    assert Tick(u, c) == Tick(v, c);
    RunConcat(s, e, k - e, c);
    RunConcat(quiet, e, k - e, c);
  }

  lemma EndNoticed(s: Line, c: Config)
    requires Positive(c) && Pulsing(s) && Hooked(s) && s.tone > 0
    requires After(s.(tone := 0), FullTicks(s.tone, c), c).dialing
    ensures var k := FullTicks(s.tone, c) + 1; After(s, k, c).(tone := 0) != After(s.(tone := 0), k, c)
  {
    var e, quiet := FullTicks(s.tone, c), s.(tone := 0);
    TonePlaysOn(s, e, c);
    RunStaysQuiet(quiet, e, c);
    var u, v := After(s, e, c), After(quiet, e, c);
    TickEndsTone(u, c);
    TickStaysQuiet(v, c);
    ToneEndDisturbs(v, c);
    DialingKeepsTone(v, 0, c);
    ToneStays(DoDtmf(v, c), 0, c);
    RunConcat(s, e, 1, c);
    RunConcat(quiet, e, 1, c);
    assert After(u, 1, c) == After(Tick(u, c), 0, c) && After(v, 1, c) == After(Tick(v, c), 0, c);
  }

  /** A tone that still plays leaves the dialing as it would be without it exactly as long as
      it does not end while dialing goes on. */
  lemma ToneIsExact(s: Line, n: nat, c: Config)
    requires Positive(c) && Pulsing(s) && Hooked(s) && s.tone > 0
    ensures Undisturbed(s, n, c) <==>
      n * c.chunk < s.tone || !After(s.(tone := 0), FullTicks(s.tone, c), c).dialing
  {
    var e := FullTicks(s.tone, c);
    FullTicksBelow(s.tone, n, c);
    if n > e && After(s.(tone := 0), e, c).dialing {
      EndNoticed(s, c);
    } else {
      forall k: nat | k <= n ensures After(s, k, c).(tone := 0) == After(s.(tone := 0), k, c) {
        FullTicksBelow(s.tone, k, c);
        if k <= e {
          TonePlaysOn(s, k, c);
          RunStaysQuiet(s.(tone := 0), k, c);
        } else {
          EndUnnoticed(s, k, c);
        }
      }
    }
  }

  // ---------------------------------------------------------------- how long dialing goes on

  /** The line is dialing at each of the next `n` ticks. */
  ghost predicate Dials(s: Line, n: nat, c: Config) {
    forall k: nat :: k < n ==> After(s, k, c).dialing
  }

  lemma DialsConcat(s: Line, m: nat, n: nat, c: Config)
    requires Dials(s, m, c) && Dials(After(s, m, c), n, c)
    ensures Dials(s, m + n, c)
  {
    forall k: nat | k < m + n ensures After(s, k, c).dialing {
      if k >= m {
        RunConcat(s, m, k - m, c);
      }
    }
  }

  lemma {:induction false} CountdownDials(s: Line, t: nat, c: Config)
    requires c.chunk > 0 && t > 0 && s.otimer == t * c.chunk && s.tone == 0 && s.dialing
    ensures Dials(s, t, c)
    decreases t
  {
    OneTickLess(t, c.chunk);
    if t > 1 {
      var s1 := Tick(s, c);
      assert s1 == s.(otimer := (t - 1) * c.chunk);
      CountdownDials(s1, t - 1, c);
      forall k: nat | k < t ensures After(s, k, c).dialing {
        if k > 0 {
          assert After(s, k, c) == After(s1, k - 1, c);
        }
      }
    }
  }

  lemma {:induction false} DigitDials(s: Line, c: Config)
    requires Positive(c) && s.pdialcount > 0 && s.dialing
    requires s.txstate == PulseBreak && s.hook == OnHook && s.otimer == c.breakTime * c.chunk && s.tone == 0
    ensures Dials(s, |Pulses(s.pdialcount, c)|, c)
    decreases s.pdialcount
  {
    Countdown(s, c.breakTime, c);
    CountdownDials(s, c.breakTime, c);
    var s1 := Expire(s, c);
    Countdown(s1, c.makeTime, c);
    CountdownDials(s1, c.makeTime, c);
    DialsConcat(s, c.breakTime, c.makeTime, c);
    if s.pdialcount > 1 {
      var s2 := Expire(s1, c);
      PathConcat(s, Hold(OnHook, c.breakTime), s1, Hold(OffHook, c.makeTime), s2, c);
      DigitDials(s2, c);
      DialsConcat(s, c.breakTime + c.makeTime, |Pulses(s.pdialcount - 1, c)|, c);
    } else {
      assert Pulses(0, c) == [];
    }
  }

  /** A pulse string is dialed for exactly the time of its waveform. */
  lemma {:induction false} StringDials(s: Line, c: Config)
    requires Positive(c) && Quiet(s) && Pulsing(s) && s.dialing
    ensures Dials(DoDtmf(s, c), |Waveform(s.dialbuf, Pulse, c)|, c)
    decreases |s.dialbuf|
  {
    if s.dialbuf != "" {
      var ch, rest := s.dialbuf[0], s.(dialbuf := s.dialbuf[1..]);
      assert ch !in "TMORW";
      StringDials(rest, c);
      if IsDigit(ch) {
        StartsDigit(s, c);
        DialsDigit(s, c);
        DigitAndPauseDial(s, c);
        DialsConcat(DoDtmf(s, c), |Pulses(PulsesOf(ch), c)| + c.afterTime, |Waveform(rest.dialbuf, Pulse, c)|, c);
      }
    }
  }

  lemma DigitAndPauseDial(s: Line, c: Config)
    requires Positive(c) && Quiet(s) && s.mode == Pulse && s.dialbuf != "" && IsDigit(s.dialbuf[0]) && s.dialing
    ensures Dials(DoDtmf(s, c), |Pulses(PulsesOf(s.dialbuf[0]), c)| + c.afterTime, c)
  {
    StartsDigit(s, c);
    var t := DoDtmf(s, c);
    DigitDials(t, c);
    DigitPulses(t, c);
    var n := |Pulses(PulsesOf(s.dialbuf[0]), c)|;
    CountdownDials(After(t, n, c), c.afterTime, c);
    DialsConcat(t, n, c.afterTime, c);
  }

  /** Dialing a pulse string while a tone still plays goes as without the tone if and only
      if the tone outlasts it. */
  lemma DialOverTone(s: Line, c: Config)
    requires Positive(c) && AtRest(s) && Pulsing(s) && s.dialing && s.tone > 0
    ensures var n := Duration(s.dialbuf, Pulse, c); Undisturbed(DoDtmf(s, c), n, c) <==> n * c.chunk < s.tone
  {
    var n, quiet := Duration(s.dialbuf, Pulse, c), s.(tone := 0);
    WaveformLength(s.dialbuf, Pulse, c);
    StringDials(quiet, c);
    DialingKeepsTone(quiet, s.tone, c);
    NextDigit(quiet, c);
    var t := DoDtmf(s, c);
    assert t.(tone := 0) == DoDtmf(quiet, c) && t.tone == s.tone;
    ToneIsExact(t, n, c);
    FullTicksBelow(s.tone, n, c);
  }

  lemma {:induction false} SignalAt(s: Line, n: nat, k: nat, c: Config)
    requires k < n
    ensures Signal(s, n, c)[k] == After(s, k, c).hook
    decreases k
  {
    if k > 0 {
      SignalAt(Tick(s, c), n - 1, k - 1, c);
    }
  }

  /** Under a tone that outlasts it a pulse string makes its waveform. */
  lemma DialsUnderLongTone(s: Line, c: Config)
    requires Positive(c) && AtRest(s) && Pulsing(s) && Duration(s.dialbuf, Pulse, c) * c.chunk < s.tone
    ensures Path(DoDtmf(s, c), Waveform(s.dialbuf, Pulse, c),
                 Dialed(s, c).(tone := s.tone - Duration(s.dialbuf, Pulse, c) * c.chunk), c)
  {
    var n, quiet := Duration(s.dialbuf, Pulse, c), s.(tone := 0);
    WaveformLength(s.dialbuf, Pulse, c);
    DialsTheString(quiet, c);
    DialingKeepsTone(quiet, s.tone, c);
    PulseStringsComplete(s, c);
    PulseStringsComplete(quiet, c);
    NextDigit(quiet, c);
    var t := DoDtmf(s, c);
    assert t.(tone := 0) == DoDtmf(quiet, c) && t.tone == s.tone;
    TonePlaysOn(t, n, c);
    forall k | 0 <= k < n ensures Signal(t, n, c)[k] == Signal(DoDtmf(quiet, c), n, c)[k] {
      MoreTicks(k, n, c.chunk);
      TonePlaysOn(t, k, c);
      SignalAt(t, n, k, c);
      SignalAt(DoDtmf(quiet, c), n, k, c);
    }
    assert Signal(t, n, c) == Signal(DoDtmf(quiet, c), n, c);
  }

  /** A tone that ends during a break swallows every digit still to be dialed. */
  lemma EndInBreakSwallows(s: Line, c: Config)
    requires Pulsing(s) && s.dialing && s.txstate == PulseBreak && s.hook == OnHook && 0 < s.tone <= c.chunk
    ensures var t := Tick(s, c); t.dialbuf == "" && !t.dialing && t.completes == s.completes + 1
    ensures Tick(s, c).pdialcount == s.pdialcount
  {
    TickEndsTone(s, c);
    NextDigit(s.(tone := 0), c);
  }

  // ---------------------------------------------------------------- the channel

  class Channel {
    const config: Config
    var txstate: TxState
    var txhooksig: Hook
    var otimer: int
    var pdialcount: nat
    var txdialbuf: string
    var digitmode: DigitMode
    var dialing: bool
    /** What is left of the tone that plays, in samples. */
    var curtone: nat
    var completes: nat

    ghost function View(): Line
      reads this
    {
      Line(txstate, txhooksig, otimer, pdialcount, txdialbuf, digitmode, dialing, curtone, completes)
    }

    constructor (config: Config)
      ensures this.config == config && View() == Line(Idle, OffHook, 0, 0, "", Dtmf, false, 0, 0)
    {
      this.config := config;
      txstate, txhooksig, otimer, pdialcount := Idle, OffHook, 0, 0;
      txdialbuf, digitmode, dialing, curtone, completes := "", Dtmf, false, 0, 0;
    }

    method RbsSetHook(txsig: Hook, state: TxState, timeout: nat)
      modifies this`txstate, this`txhooksig, this`otimer
      ensures View() == SetHook(old(View()), txsig, state, timeout, config)
    {
      txstate := state;
      if txhooksig != txsig {
        txhooksig := txsig;
      }
      otimer := timeout * config.chunk;
    }

    method DoDtmfNext()
      modifies this
      ensures View() == DoDtmf(old(View()), config)
    {
      while txdialbuf != ""
        invariant DoDtmf(View(), config) == DoDtmf(old(View()), config)
        decreases |txdialbuf|
      {
        var ch := txdialbuf[0];
        txdialbuf := txdialbuf[1..];
        match ch
        case 'T' => digitmode := Dtmf;
        case 'M' => digitmode := Mfr1;
        case 'O' => digitmode := Mfr2Fwd;
        case 'R' => digitmode := Mfr2Rev;
        case 'P' => digitmode := Pulse;
        case _ =>
          if ch != 'W' && digitmode == Pulse {
            if '0' <= ch <= '9' && txhooksig == OffHook {
              pdialcount := if ch == '0' then 10 else (ch as int) - ('0' as int);
              RbsSetHook(OnHook, PulseBreak, config.breakTime);
              return;
            }
          } else {
            curtone := config.mfTone(ch, digitmode);
            if curtone > 0 {
              return;
            }
          }
      }
      dialing := false;
      completes := completes + 1;
    }

    method RbsOtimerExpire()
      modifies this
      ensures View() == Expire(old(View()), config)
    {
      otimer := 0;
      match txstate
      case Idle =>
      case PulseBreak =>
        RbsSetHook(OffHook, PulseMake, config.makeTime);
      case PulseMake =>
        if pdialcount > 0 {
          pdialcount := pdialcount - 1;
        }
        if pdialcount > 0 {
          RbsSetHook(OnHook, PulseBreak, config.breakTime);
        } else {
          txstate := PulseAfter;
          otimer := config.afterTime * config.chunk;
        }
      case PulseAfter =>
        txstate := Idle;
        DoDtmfNext();
    }

    /** The tone part of __dahdi_getbuf_chunk. */
    method PlayTone()
      modifies this
      ensures View() == Play(old(View()), config.chunk, config)
    {
      var bytes: nat := config.chunk;
      while bytes > 0 && curtone > 0
        invariant Play(View(), bytes, config) == Play(old(View()), config.chunk, config)
      {
        var left := Min(curtone, bytes);
        curtone := curtone - left;
        bytes := bytes - left;
        if curtone == 0 && dialing {
          DoDtmfNext();
        }
      }
    }

    /** dahdi_transmit for this channel. */
    method Transmit()
      modifies this
      ensures View() == Tick(old(View()), config)
    {
      PlayTone();
      ghost var s := View();
      if otimer != 0 {
        otimer := otimer - config.chunk;
        if otimer <= 0 {
          assert Expire(View(), config) == Expire(s, config);
          RbsOtimerExpire();
        }
      }
    }

    /** DAHDI_DIAL with the replace operation. */
    method Dial(digits: string)
      modifies this
      ensures View() == DoDtmf(old(View()).(dialbuf := digits, dialing := true), config)
    {
      txdialbuf := digits;
      dialing := true;
      DoDtmfNext();
    }

    /** A dial request followed by exactly as many ticks as the string needs up to its
        first tone. */
    method DialAndWait(digits: string) returns (signal: seq<Hook>)
      requires Positive(config) && Quiet(View())
      modifies this
      ensures signal == Waveform(digits, old(digitmode), config)
      ensures View() == Dialed(old(View()).(dialbuf := digits, dialing := true), config)
      ensures old(digitmode) == Pulse && PulseString(digits) ==>
        Breaks(signal, OffHook) == Meant(digits) && OnHookTicks(signal) == Meant(digits) * config.breakTime
    {
      ghost var s := View().(dialbuf := digits, dialing := true);
      if digitmode == Pulse && PulseString(digits) {
        StringCounts(digits, config);
      }
      DialsTheString(s, config);
      WaveformLength(digits, digitmode, config);
      var ticks := Duration(digits, digitmode, config);
      Dial(digits);
      ghost var s0 := View();
      signal := [];
      for i := 0 to ticks
        invariant View() == After(s0, i, config) && signal == Signal(s0, i, config)
      {
        RunConcat(s0, i, 1, config);
        assert After(After(s0, i, config), 1, config) == Tick(After(s0, i, config), config);
        assert Signal(After(s0, i, config), 1, config) == [txhooksig] + Signal(Tick(View(), config), 0, config);
        signal := signal + [txhooksig];
        Transmit();
      }
    }
  }
}
