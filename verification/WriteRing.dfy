/** The transmit block buffers of a channel: a user process writes whole blocks,
    the tick handler takes a fixed-size chunk of bytes per tick. */
module WriteRing {
  import opened Words
  import opened SlotRing

  datatype Policy = Immediate | WhenFull | HalfFull

  /** What the ring stands for: the unsent part of every committed block, oldest
      first, and whether the transmitter waits for more blocks. */
  datatype Queue = Queue(blocks: seq<seq<Byte>>, disabled: bool)

  function Commit(q: Queue, block: seq<Byte>, numbufs: nat, policy: Policy): Queue {
    var blocks := q.blocks + [block];
    Queue(blocks, q.disabled && |blocks| != numbufs && !(policy.HalfFull? && |blocks| >= numbufs / 2))
  }

  /** What the oldest block gives at once, and the queue without it. */
  function Take(q: Queue, want: nat, policy: Policy): (seq<Byte>, Queue)
    requires q.blocks != []
  {
    var block, rest := q.blocks[0], q.blocks[1..];
    if want < |block| then (block[..want], q.(blocks := [block[want..]] + rest))
    else (block, Queue(rest, rest == [] && policy != Immediate))
  }

  /** At most `want` bytes taken off the front, and what is left. */
  function Drain(q: Queue, want: nat, policy: Policy): (seq<Byte>, Queue)
    decreases |q.blocks|, want
  {
    if want == 0 || q.blocks == [] || q.disabled then ([], q)
    else
      var (out, q1) := Take(q, want, policy);
      var (more, q2) := Drain(q1, want - |out|, policy);
      (out + more, q2)
  }

  /** Whatever is taken off is what is missing. */
  lemma {:induction false} DrainConserves(q: Queue, want: nat, policy: Policy)
    ensures Drain(q, want, policy).0 + Flatten(Drain(q, want, policy).1.blocks) == Flatten(q.blocks)
    decreases |q.blocks|, want
  {
    if want == 0 || q.blocks == [] || q.disabled {
    } else {
      var (out, q1) := Take(q, want, policy);
      if want < |q.blocks[0]| {
        FlattenCons(q.blocks[0][want..], q.blocks[1..]);
        ConcatAssoc(out, q.blocks[0][want..], Flatten(q.blocks[1..]));
      }
      assert out + Flatten(q1.blocks) == Flatten(q.blocks);
      DrainConserves(q1, want - |out|, policy);
      var (more, q2) := Drain(q1, want - |out|, policy);
      ConcatAssoc(out, more, Flatten(q2.blocks));
    }
  }

  /** An enabled transmitter takes as many bytes as there are, up to `want`. */
  lemma {:induction false} DrainTakesAll(q: Queue, want: nat, policy: Policy)
    requires !q.disabled
    ensures |Drain(q, want, policy).0| == Min(want, |Flatten(q.blocks)|)
    decreases |q.blocks|, want
  {
    if want == 0 || q.blocks == [] {
    } else {
      var (out, q1) := Take(q, want, policy);
      if |out| < want && q1.blocks != [] {
        DrainTakesAll(q1, want - |out|, policy);
      }
    }
  }

  /** Part of a drain: `sent` is off, `bytes` are still wanted from `q`. */
  ghost predicate Draining(q0: Queue, want: nat, sent: seq<Byte>, q: Queue, bytes: nat, policy: Policy) {
    && Drain(q0, want, policy).0 == sent + Drain(q, bytes, policy).0
    && Drain(q0, want, policy).1 == Drain(q, bytes, policy).1
  }

  lemma DrainingTakes(q0: Queue, want: nat, sent: seq<Byte>, q: Queue, bytes: nat, taken: seq<Byte>, q1: Queue,
                      policy: Policy)
    requires Draining(q0, want, sent, q, bytes, policy) && bytes > 0 && q.blocks != [] && !q.disabled
    requires (taken, q1) == Take(q, bytes, policy) && |taken| <= bytes
    ensures Draining(q0, want, sent + taken, q1, bytes - |taken|, policy)
    ensures |taken| > 0 || |q1.blocks| < |q.blocks|
  {
    ConcatAssoc(sent, taken, Drain(q1, bytes - |taken|, policy).0);
  }

  lemma DrainingEnds(q0: Queue, want: nat, sent: seq<Byte>, q: Queue, bytes: nat, policy: Policy)
    requires Draining(q0, want, sent, q, bytes, policy) && (bytes == 0 || q.blocks == [] || q.disabled)
    ensures Drain(q0, want, policy) == (sent, q) && Draining(q0, want, sent, q, 0, policy)
  {
    assert sent + [] == sent;
  }

  // ---------------------------------------------------------------- runs

  datatype Event = Write(block: seq<Byte>) | Tick

  /** The bytes each event puts on the line from the buffers. */
  function Run(q: Queue, events: seq<Event>, chunk: nat, numbufs: nat, policy: Policy): (seq<seq<Byte>>, Queue)
    decreases |events|
  {
    if events == [] then ([], q)
    else match events[0]
      case Write(block) => Run(Commit(q, block, numbufs, policy), events[1..], chunk, numbufs, policy)
      case Tick =>
        var (out, q1) := Drain(q, chunk, policy);
        var (outs, q2) := Run(q1, events[1..], chunk, numbufs, policy);
        ([out] + outs, q2)
  }

  function Written(events: seq<Event>): seq<Byte> {
    if events == [] then []
    else (if events[0].Write? then events[0].block else []) + Written(events[1..])
  }

  /** The bytes sent and those still there are the bytes there before and those written. */
  ghost predicate StreamKept(q: Queue, events: seq<Event>, chunk: nat, numbufs: nat, policy: Policy) {
    var (outs, q') := Run(q, events, chunk, numbufs, policy);
    Flatten(outs) + Flatten(q'.blocks) == Flatten(q.blocks) + Written(events)
  }

  /** Over every interleaving of writes and ticks the bytes sent are exactly the
      bytes written, in order: none lost, none repeated, none invented. */
  lemma {:induction false} RunIsAStream(q: Queue, events: seq<Event>, chunk: nat, numbufs: nat, policy: Policy)
    ensures var (outs, q') := Run(q, events, chunk, numbufs, policy);
            Flatten(outs) + Flatten(q'.blocks) == Flatten(q.blocks) + Written(events)
    decreases |events|, 1
  {
    if events != [] {
      match events[0]
      case Write(block) => WriteIsAStream(q, block, events, chunk, numbufs, policy);
      case Tick => TickIsAStream(q, events, chunk, numbufs, policy);
    }
  }

  lemma {:induction false} WriteIsAStream(q: Queue, block: seq<Byte>, events: seq<Event>, chunk: nat, numbufs: nat,
                                          policy: Policy)
    requires events != [] && events[0] == Write(block)
    ensures StreamKept(q, events, chunk, numbufs, policy)
    decreases |events|, 0
  {
    var rest, q1 := events[1..], Commit(q, block, numbufs, policy);
    RunIsAStream(q1, rest, chunk, numbufs, policy);
    FlattenConcat(q.blocks, [block]);
    FlattenOne(block);
    ConcatAssoc(Flatten(q.blocks), block, Written(rest));
  }

  lemma {:induction false} TickIsAStream(q: Queue, events: seq<Event>, chunk: nat, numbufs: nat, policy: Policy)
    requires events != [] && events[0].Tick?
    ensures StreamKept(q, events, chunk, numbufs, policy)
    decreases |events|, 0
  {
    var rest := events[1..];
    var (out, q1) := Drain(q, chunk, policy);
    DrainConserves(q, chunk, policy);
    RunIsAStream(q1, rest, chunk, numbufs, policy);
    var (outs, q2) := Run(q1, rest, chunk, numbufs, policy);
    FlattenCons(out, outs);
    ConcatAssoc(out, Flatten(outs), Flatten(q2.blocks));
    ConcatAssoc(out, Flatten(q1.blocks), Written(rest));
    assert Written(events) == Written(rest);
  }

  lemma {:induction false} RunAppend(q: Queue, events: seq<Event>, last: Event, chunk: nat, numbufs: nat, policy: Policy)
    ensures var (outs, q1) := Run(q, events, chunk, numbufs, policy);
            var (more, q2) := Run(q1, [last], chunk, numbufs, policy);
            Run(q, events + [last], chunk, numbufs, policy) == (outs + more, q2)
    decreases |events|
  {
    var all := events + [last];
    if events == [] {
      assert all == [last];
      assert [] + Run(q, [last], chunk, numbufs, policy).0 == Run(q, [last], chunk, numbufs, policy).0;
    } else {
      assert all[0] == events[0] && all[1..] == events[1..] + [last];
      match events[0]
      case Write(block) =>
        RunAppend(Commit(q, block, numbufs, policy), events[1..], last, chunk, numbufs, policy);
      case Tick =>
        var (out, q1) := Drain(q, chunk, policy);
        RunAppend(q1, events[1..], last, chunk, numbufs, policy);
        ConcatAssoc([out], Run(q1, events[1..], chunk, numbufs, policy).0,
                    Run(Run(q1, events[1..], chunk, numbufs, policy).1, [last], chunk, numbufs, policy).0);
    }
  }

  // ---------------------------------------------------------------- when bytes go out

  /** How many blocks a stopped transmitter waits for. */
  function Mark(numbufs: nat, policy: Policy): nat {
    match policy
    case Immediate => 0
    case WhenFull => numbufs
    case HalfFull => numbufs / 2
  }

  function Writes(events: seq<Event>): nat {
    if events == [] then 0 else (if events[0].Write? then 1 else 0) + Writes(events[1..])
  }

  function Blocks(events: seq<Event>): seq<seq<Byte>> {
    if events == [] then [] else (if events[0].Write? then [events[0].block] else []) + Blocks(events[1..])
  }

  /** A stopped transmitter sends nothing and stays stopped while the blocks written do not
      reach the mark. */
  lemma {:induction false} SilentBelowMark(q: Queue, events: seq<Event>, chunk: nat, numbufs: nat, policy: Policy)
    requires q.disabled && numbufs >= 2 && |q.blocks| + Writes(events) < Mark(numbufs, policy)
    ensures var (outs, q') := Run(q, events, chunk, numbufs, policy);
            (forall k :: 0 <= k < |outs| ==> outs[k] == []) && q' == Queue(q.blocks + Blocks(events), true)
    decreases |events|
  {
    if events == [] {
      assert q.blocks + [] == q.blocks;
    } else {
      match events[0]
      case Write(block) =>
        SilentBelowMark(Commit(q, block, numbufs, policy), events[1..], chunk, numbufs, policy);
        ConcatAssoc(q.blocks, [block], Blocks(events[1..]));
      case Tick =>
        SilentBelowMark(q, events[1..], chunk, numbufs, policy);
        assert [] + Blocks(events[1..]) == Blocks(events[1..]);
    }
  }

  /** A write starts a stopped transmitter exactly when it reaches the mark, and never stops
      one that runs. */
  lemma WriteStartsAtMark(q: Queue, block: seq<Byte>, numbufs: nat, policy: Policy)
    requires numbufs >= 2 && |q.blocks| < numbufs && (q.disabled ==> policy != Immediate)
    ensures Commit(q, block, numbufs, policy).disabled <==> q.disabled && |q.blocks| + 1 < Mark(numbufs, policy)
    ensures Commit(q, block, numbufs, policy).blocks == q.blocks + [block]
  {
  }

  /** A tick stops a running transmitter exactly when it takes the last of the blocks, under
      a policy with a mark. */
  lemma {:induction false} EmptyStops(q: Queue, want: nat, policy: Policy)
    requires !q.disabled
    ensures Drain(q, want, policy).1.disabled <==>
      policy != Immediate && want > 0 && q.blocks != [] && Drain(q, want, policy).1.blocks == []
    decreases |q.blocks|, want
  {
    if want > 0 && q.blocks != [] {
      var (out, q1) := Take(q, want, policy);
      if |out| < want && q1.blocks != [] {
        EmptyStops(q1, want - |out|, policy);
      }
    }
  }

  /** A running transmitter sends from the next tick on. */
  lemma RunningSends(q: Queue, events: seq<Event>, chunk: nat, numbufs: nat, policy: Policy)
    requires !q.disabled && events != [] && events[0].Tick?
    ensures var outs := Run(q, events, chunk, numbufs, policy).0;
            outs != [] && |outs[0]| == Min(chunk, |Flatten(q.blocks)|)
  {
    DrainTakesAll(q, chunk, policy);
  }

  // ---------------------------------------------------------------- programs

  datatype Settings = Settings(chunk: nat, numbufs: nat, blocksize: nat, linear: bool, policy: Policy, silence: Byte)

  datatype Phase = Outside | Copying | Ready
  datatype BeginResult = Grabbed | Invalid | WouldBlock

  /** What one process and the interrupt may do next; `CopyFault` is a copy from user
      space that fails before it is complete. */
  datatype Step = BeginWrite(count: nat) | CopyByte(value: Byte) | CopyFault | SetLength | EndWrite | TransmitTick

  /** The queue and where the process is: how much it is to copy and what it has copied. */
  datatype Program = Program(q: Queue, phase: Phase, amnt: nat, supplied: seq<Byte>)

  /** Where steps lead, the writes and ticks among them, what each tick takes from the
      buffers and the chunk it puts on the line. */
  datatype Trace = Trace(program: Program, events: seq<Event>, sent: seq<seq<Byte>>, lines: seq<seq<Byte>>)

  /** A chunk that begins with `out`. */
  function Line(out: seq<Byte>, c: Settings): (line: seq<Byte>)
    ensures out <= line && |line| == if |out| <= c.chunk then c.chunk else |out|
  {
    out + seq(if |out| <= c.chunk then c.chunk - |out| else 0, _ => c.silence)
  }

  function Silently(p: Program): Trace {
    Trace(p, [], [], [])
  }

  /** One step; a step that the program counter does not allow does nothing. */
  function Do(p: Program, step: Step, c: Settings): Trace {
    match step
    case BeginWrite(count) =>
      var n := count % 0x1_0000;
      Silently(if p.phase == Outside && n >= 1 && |p.q.blocks| != c.numbufs
               then Program(p.q, Copying, Amount(n, c.blocksize, c.linear), []) else p)
    case CopyByte(value) =>
      Silently(if p.phase == Copying && |p.supplied| < p.amnt then p.(supplied := p.supplied + [value]) else p)
    case CopyFault =>
      Silently(if p.phase == Copying && |p.supplied| < p.amnt then Program(p.q, Outside, 0, []) else p)
    case SetLength =>
      Silently(if p.phase == Copying && |p.supplied| == p.amnt then p.(phase := Ready) else p)
    case EndWrite =>
      if p.phase == Ready
      then Trace(Program(Commit(p.q, p.supplied, c.numbufs, c.policy), Outside, 0, []), [Write(p.supplied)], [], [])
      else Silently(p)
    case TransmitTick =>
      var (out, q) := Drain(p.q, c.chunk, c.policy);
      Trace(p.(q := q), [Tick], [out], [Line(out, c)])
  }

  function Then(t: Trace, u: Trace): Trace {
    Trace(u.program, t.events + u.events, t.sent + u.sent, t.lines + u.lines)
  }

  function Exec(p: Program, steps: seq<Step>, c: Settings): Trace
    decreases |steps|
  {
    if steps == [] then Silently(p)
    else
      var n := |steps| - 1;
      var t := Exec(p, steps[..n], c);
      Then(t, Do(t.program, steps[n], c))
  }

  lemma ExecSnoc(p: Program, steps: seq<Step>, step: Step, c: Settings)
    ensures var t := Exec(p, steps, c); Exec(p, steps + [step], c) == Then(t, Do(t.program, step, c))
  {
    assert (steps + [step])[..|steps|] == steps;
  }

  function Ticks(steps: seq<Step>): nat
    decreases |steps|
  {
    if steps == [] then 0 else Ticks(steps[..|steps| - 1]) + if steps[|steps| - 1].TransmitTick? then 1 else 0
  }

  lemma DoIsARun(p: Program, step: Step, c: Settings)
    ensures var t := Do(p, step, c); Run(p.q, t.events, c.chunk, c.numbufs, c.policy) == (t.sent, t.program.q)
  {
    match step
    case EndWrite =>
      assert [Write(p.supplied)][1..] == [];
    case TransmitTick =>
      var (out, q) := Drain(p.q, c.chunk, c.policy);
      assert [Event.Tick][1..] == [];
      assert [out] + [] == [out];
    case _ =>
  }

  lemma RunThen(q: Queue, t: Trace, u: Trace, c: Settings)
    requires Run(q, t.events, c.chunk, c.numbufs, c.policy) == (t.sent, t.program.q) && |u.events| <= 1
    requires Run(t.program.q, u.events, c.chunk, c.numbufs, c.policy) == (u.sent, u.program.q)
    ensures Run(q, Then(t, u).events, c.chunk, c.numbufs, c.policy) == (Then(t, u).sent, u.program.q)
  {
    if u.events == [] {
      assert t.events + [] == t.events && t.sent + [] == t.sent;
    } else {
      assert u.events == [u.events[0]];
      RunAppend(q, t.events, u.events[0], c.chunk, c.numbufs, c.policy);
    }
  }

  /** Whatever the interleaving, its writes and ticks are a run of the queue. */
  lemma {:induction false} ExecIsARun(p: Program, steps: seq<Step>, c: Settings)
    ensures var t := Exec(p, steps, c); Run(p.q, t.events, c.chunk, c.numbufs, c.policy) == (t.sent, t.program.q)
    decreases |steps|
  {
    if steps != [] {
      var n := |steps| - 1;
      ExecIsARun(p, steps[..n], c);
      var t := Exec(p, steps[..n], c);
      var u := Do(t.program, steps[n], c);
      DoIsARun(t.program, steps[n], c);
      RunThen(p.q, t, u, c);
    }
  }

  /** So the bytes sent and those still buffered are those buffered before and those
      written, in order. */
  lemma ExecIsAStream(p: Program, steps: seq<Step>, c: Settings)
    ensures var t := Exec(p, steps, c);
            Flatten(t.sent) + Flatten(t.program.q.blocks) == Flatten(p.q.blocks) + Written(t.events)
  {
    ExecIsARun(p, steps, c);
    RunIsAStream(p.q, Exec(p, steps, c).events, c.chunk, c.numbufs, c.policy);
  }

  lemma {:induction false} DrainAtMost(q: Queue, want: nat, policy: Policy)
    ensures |Drain(q, want, policy).0| <= want
    decreases |q.blocks|, want
  {
    if want == 0 || q.blocks == [] || q.disabled {
    } else {
      var (out, q1) := Take(q, want, policy);
      DrainAtMost(q1, want - |out|, policy);
    }
  }

  /** Lines that are full chunks: what was taken, then silence. */
  ghost predicate FullChunks(sent: seq<seq<Byte>>, lines: seq<seq<Byte>>, c: Settings) {
    && |lines| == |sent|
    && forall k :: 0 <= k < |lines| ==> |sent[k]| <= c.chunk && lines[k] == Line(sent[k], c) && |lines[k]| == c.chunk
  }

  lemma DoMakesFullChunks(p: Program, step: Step, c: Settings)
    ensures var t := Do(p, step, c);
            FullChunks(t.sent, t.lines, c) && |t.lines| == if step.TransmitTick? then 1 else 0
  {
    DrainAtMost(p.q, c.chunk, c.policy);
  }

  /** Every tick puts one full chunk on the line: what it takes, then silence. */
  lemma {:induction false} OneChunkPerTick(p: Program, steps: seq<Step>, c: Settings)
    ensures var t := Exec(p, steps, c); FullChunks(t.sent, t.lines, c) && |t.lines| == Ticks(steps)
    decreases |steps|
  {
    if steps != [] {
      var n := |steps| - 1;
      OneChunkPerTick(p, steps[..n], c);
      DoMakesFullChunks(Exec(p, steps[..n], c).program, steps[n], c);
    }
  }

  /** So whatever the interleaving, a stopped transmitter has only silence on the line while
      the blocks committed do not reach the mark. */
  lemma SilenceBelowMark(p: Program, steps: seq<Step>, c: Settings)
    requires p.q.disabled && c.numbufs >= 2
    requires |p.q.blocks| + Writes(Exec(p, steps, c).events) < Mark(c.numbufs, c.policy)
    ensures var t := Exec(p, steps, c);
            t.program.q.disabled && forall k :: 0 <= k < |t.lines| ==> t.lines[k] == seq(c.chunk, _ => c.silence)
  {
    var t := Exec(p, steps, c);
    ExecIsARun(p, steps, c);
    OneChunkPerTick(p, steps, c);
    SilentBelowMark(p.q, t.events, c.chunk, c.numbufs, c.policy);
    forall k | 0 <= k < |t.lines| ensures t.lines[k] == seq(c.chunk, _ => c.silence) {
      assert t.lines[k] == Line(t.sent[k], c) && t.sent[k] == [];
    }
  }

  /** The bytes that the copying steps offer. */
  function Values(steps: seq<Step>): seq<Byte>
    decreases |steps|
  {
    if steps == [] then []
    else
      var n := |steps| - 1;
      Values(steps[..n]) + if steps[n].CopyByte? then [steps[n].value] else []
  }

  /** The last beginning of a write that was allowed. */
  function LastBegin(p: Program, steps: seq<Step>, c: Settings): (b: nat)
    ensures steps != [] ==> b < |steps|
    decreases |steps|
  {
    if steps == [] then 0
    else
      var n := |steps| - 1;
      if steps[n].BeginWrite? && Exec(p, steps[..n], c).program.phase == Outside then n
      else LastBegin(p, steps[..n], c)
  }

  /** For a request of `count` bytes the process has copied the first of the values offered,
      at most as many as it asked for. */
  ghost predicate CopiedFrom(u: Program, count: nat, values: seq<Byte>, c: Settings) {
    && u.amnt == Amount(count % 0x1_0000, c.blocksize, c.linear) && u.supplied == First(values, u.amnt)
    && (u.phase == Ready ==> |u.supplied| == u.amnt)
  }

  /** The process has copied the bytes offered since the write began at `b`. */
  ghost predicate Copied(u: Program, steps: seq<Step>, b: nat, c: Settings) {
    u.phase != Outside ==>
      b < |steps| && steps[b].BeginWrite? && CopiedFrom(u, steps[b].count, Values(steps[b + 1..]), c)
  }

  lemma ValuesSnoc(steps: seq<Step>, b: nat)
    requires b < |steps| - 1
    ensures var n := |steps| - 1;
            Values(steps[b + 1..]) == Values(steps[..n][b + 1..]) + if steps[n].CopyByte? then [steps[n].value] else []
  {
    var n := |steps| - 1;
    assert steps[b + 1..][..n - b - 1] == steps[..n][b + 1..];
  }

  lemma FirstGrows(values: seq<Byte>, more: seq<Byte>, amnt: nat)
    requires |more| <= 1
    ensures First(values + more, amnt) == if |values| < amnt then First(values, amnt) + more else First(values, amnt)
  {
    assert values + [] == values;
  }

  lemma CopiesOn(before: Program, step: Step, count: nat, values: seq<Byte>, c: Settings)
    requires before.phase != Outside && CopiedFrom(before, count, values, c)
    ensures var u := Do(before, step, c).program;
            u.phase != Outside ==> CopiedFrom(u, count, values + if step.CopyByte? then [step.value] else [], c)
  {
    FirstGrows(values, if step.CopyByte? then [step.value] else [], before.amnt);
  }

  lemma DoCopies(before: Program, steps: seq<Step>, b: nat, c: Settings)
    requires steps != [] && before.phase != Outside && Copied(before, steps[..|steps| - 1], b, c)
    ensures Copied(Do(before, steps[|steps| - 1], c).program, steps, b, c)
  {
    var n := |steps| - 1;
    ValuesSnoc(steps, b);
    CopiesOn(before, steps[n], steps[b].count, Values(steps[..n][b + 1..]), c);
  }

  lemma DoBegins(before: Program, steps: seq<Step>, c: Settings)
    requires steps != [] && before.phase == Outside
    ensures Copied(Do(before, steps[|steps| - 1], c).program, steps, |steps| - 1, c)
    ensures !steps[|steps| - 1].BeginWrite? ==> Do(before, steps[|steps| - 1], c).program.phase == Outside
  {
    assert steps[|steps|..] == [];
  }

  /** So it is with every block, in particular with every one that is committed. */
  lemma {:induction false} BlockIsWhatWasCopied(p: Program, steps: seq<Step>, c: Settings)
    requires p.phase == Outside
    ensures Copied(Exec(p, steps, c).program, steps, LastBegin(p, steps, c), c)
    decreases |steps|
  {
    if steps != [] {
      var n := |steps| - 1;
      var before := Exec(p, steps[..n], c).program;
      if before.phase == Outside {
        DoBegins(before, steps, c);
      } else {
        BlockIsWhatWasCopied(p, steps[..n], c);
        DoCopies(before, steps, LastBegin(p, steps[..n], c), c);
      }
    }
  }

  function Copies(values: seq<Byte>): (r: seq<Step>)
    ensures |r| == |values| && forall i :: 0 <= i < |r| ==> r[i] == CopyByte(values[i])
  {
    seq(|values|, i requires 0 <= i < |values| => CopyByte(values[i]))
  }

  lemma CopiesSnoc(values: seq<Byte>, n: nat)
    requires n < |values|
    ensures Copies(values[..n + 1]) == Copies(values[..n]) + [CopyByte(values[n])]
  {
  }

  lemma {:induction false} CopiesFill(p: Program, values: seq<Byte>, n: nat, c: Settings)
    requires p.phase == Copying && p.supplied == [] && n <= |values| <= p.amnt
    ensures Exec(p, Copies(values[..n]), c) == Silently(p.(supplied := values[..n]))
  {
    if n > 0 {
      CopiesFill(p, values, n - 1, c);
      CopiesSnoc(values, n - 1);
      ExecSnoc(p, Copies(values[..n - 1]), CopyByte(values[n - 1]), c);
      assert values[..n - 1] + [values[n - 1]] == values[..n];
    }
  }

  lemma ThenAssoc(t: Trace, u: Trace, v: Trace)
    ensures Then(Then(t, u), v) == Then(t, Then(u, v))
  {
    assert t.events + u.events + v.events == t.events + (u.events + v.events);
    assert t.sent + u.sent + v.sent == t.sent + (u.sent + v.sent);
    assert t.lines + u.lines + v.lines == t.lines + (u.lines + v.lines);
  }

  lemma ThenNothing(t: Trace)
    ensures Then(t, Silently(t.program)) == t
  {
    assert t.events + [] == t.events;
    assert t.sent + [] == t.sent;
    assert t.lines + [] == t.lines;
  }

  lemma NothingThen(p: Program, t: Trace)
    ensures Then(Silently(p), t) == t
  {
    assert [] + t.events == t.events;
    assert [] + t.sent == t.sent;
    assert [] + t.lines == t.lines;
  }

  lemma Regroup(steps: seq<Step>, more: seq<Step>)
    ensures steps + [] == steps
    ensures more != [] ==> var n := |more| - 1;
              more == more[..n] + [more[n]] && steps + more == (steps + more[..n]) + [more[n]]
  {
  }

  lemma {:induction false} ExecAppend(p: Program, steps: seq<Step>, more: seq<Step>, c: Settings)
    ensures Exec(p, steps + more, c) == Then(Exec(p, steps, c), Exec(Exec(p, steps, c).program, more, c))
    decreases |more|
  {
    var t := Exec(p, steps, c);
    Regroup(steps, more);
    if more == [] {
      ThenNothing(t);
    } else {
      var n := |more| - 1;
      var u := Exec(t.program, more[..n], c);
      ExecAppend(p, steps, more[..n], c);
      ExecSnoc(p, steps + more[..n], more[n], c);
      ExecSnoc(t.program, more[..n], more[n], c);
      ThenAssoc(t, u, Do(u.program, more[n], c));
    }
  }

  lemma BeginsWrite(p: Program, count: nat, c: Settings)
    requires p.phase == Outside && |p.q.blocks| != c.numbufs && 1 <= count < 65536
    ensures Exec(p, [BeginWrite(count)], c) == Silently(Program(p.q, Copying, Amount(count, c.blocksize, c.linear), []))
  {
    assert [] + [BeginWrite(count)] == [BeginWrite(count)];
    ExecSnoc(p, [], BeginWrite(count), c);
  }

  lemma EndsWrite(p: Program, c: Settings)
    requires p.phase == Copying && |p.supplied| == p.amnt
    ensures var t := Exec(p, [SetLength, EndWrite], c);
            && t.events == [Write(p.supplied)] && t.program.q.blocks == p.q.blocks + [p.supplied]
            && t.program.phase == Outside
  {
    ExecSnoc(p, [], SetLength, c);
    ExecSnoc(p, [SetLength], EndWrite, c);
    assert [] + [SetLength] == [SetLength] && [SetLength] + [EndWrite] == [SetLength, EndWrite];
  }

  /** How much of `count` bytes one call takes: a block, of two bytes for each sample on a
      linear channel. */
  predicate FillsBlock(values: seq<Byte>, count: nat, c: Settings) {
    var whole := if c.linear then 2 * c.blocksize else c.blocksize;
    var bytes := if count < whole then count else whole;
    |values| == if c.linear then bytes / 2 else bytes
  }

  /** A write that finds a free buffer and copies all it takes queues exactly that block. */
  lemma CompleteWrite(p: Program, count: nat, values: seq<Byte>, c: Settings)
    requires p.phase == Outside && |p.q.blocks| != c.numbufs && 1 <= count < 65536 && FillsBlock(values, count, c)
    ensures var t := Exec(p, [BeginWrite(count)] + Copies(values) + [SetLength, EndWrite], c);
            t.events == [Write(values)] && t.program.q.blocks == p.q.blocks + [values] && t.program.phase == Outside
  {
    var begun := Program(p.q, Copying, Amount(count, c.blocksize, c.linear), []);
    var copied := begun.(supplied := values);
    BeginsWrite(p, count, c);
    CopiesFill(begun, values, |values|, c);
    assert values[..|values|] == values;
    ExecAppend(p, [BeginWrite(count)], Copies(values), c);
    NothingThen(begun, Silently(copied));
    ExecAppend(p, [BeginWrite(count)] + Copies(values), [SetLength, EndWrite], c);
    NothingThen(copied, Exec(copied, [SetLength, EndWrite], c));
    EndsWrite(copied, c);
  }

  // ---------------------------------------------------------------- the ring

  /** The unsent bytes of each slot. */
  function Unsent(bufs: seq<seq<Byte>>, idx: seq<nat>, len: seq<nat>): (r: seq<seq<Byte>>)
    requires |bufs| == |idx| == |len|
    ensures |r| == |bufs|
  {
    seq(|bufs|, i requires 0 <= i < |bufs| =>
      if idx[i] <= len[i] <= |bufs[i]| then bufs[i][idx[i]..len[i]] else [])
  }

  class Ring {
    const chunk: nat
    const numbufs: nat
    const blocksize: nat
    const linear: bool
    const policy: Policy
    const silence: Byte

    var inwritebuf: int
    var outwritebuf: int
    var txdisable: bool
    const writebuf: array<seq<Byte>>
    const writen: array<nat>
    const writeidx: array<nat>

    // Local variables of the one process inside dahdi_chan_write.
    var phase: Phase
    var res: int
    var amnt: nat
    var copied: nat

    ghost predicate Layout()
      reads this, writebuf
    {
      && chunk > 0 && Indices(inwritebuf, outwritebuf, numbufs)
      && writebuf.Length == numbufs && writen.Length == numbufs && writeidx.Length == numbufs
      && writen != writeidx
      && (forall i :: 0 <= i < numbufs ==> |writebuf[i]| == blocksize)
    }

    ghost predicate Valid()
      reads this, writebuf, writen, writeidx
    {
      && Layout()
      && (forall i :: Occupied(i, inwritebuf, outwritebuf, numbufs) ==> writeidx[i] <= writen[i] <= blocksize)
      && (txdisable ==>
            && policy != Immediate && inwritebuf >= 0
            && (policy.HalfFull? ==> Filled(inwritebuf, outwritebuf, numbufs) < numbufs / 2))
      && (phase != Outside ==> res >= 0 && res == inwritebuf && copied <= amnt <= blocksize)
      && (phase == Ready ==> writen[res] == amnt == copied && writeidx[res] == 0)
    }

    /** The ring and the process as a program. */
    ghost function State(): Program
      requires Valid()
      reads this, writebuf, writen, writeidx
    {
      if phase == Outside then Program(View(), Outside, 0, [])
      else Program(View(), phase, amnt, writebuf[res][..copied])
    }

    ghost function Config(): Settings {
      Settings(chunk, numbufs, blocksize, linear, policy, silence)
    }

    ghost function View(): Queue
      requires Layout()
      reads this, writebuf, writen, writeidx
    {
      Queue(Contents(Unsent(writebuf[..], writeidx[..], writen[..]), inwritebuf, outwritebuf), txdisable)
    }

    constructor (chunk: nat, blocksize: nat, numbufs: int, policy: Policy, linear: bool, silence: Byte)
      requires chunk > 0 && blocksize > 0
      ensures Valid() && fresh(writebuf) && fresh(writen) && fresh(writeidx)
      ensures Config() == Settings(chunk, Capped(numbufs),
                                   blocksize, linear, policy, silence)
      ensures State() == Program(Queue([], policy != Immediate), Outside, 0, [])
    {
      var n := Capped(numbufs);
      this.chunk, this.blocksize, this.numbufs := chunk, blocksize, n;
      this.policy, this.linear, this.silence := policy, linear, silence;
      inwritebuf, outwritebuf, txdisable := 0, -1, policy != Immediate;
      writebuf := new seq<Byte>[n](_ => seq(blocksize, _ => 0));
      writen := new nat[n](_ => 0);
      writeidx := new nat[n](_ => 0);
      phase, res, amnt, copied := Outside, -1, 0, 0;
    }

    method NumFilledBufs() returns (r: nat)
      requires Layout()
      ensures r == |View().blocks|
    {
      if inwritebuf < 0 { return numbufs; }
      if outwritebuf < 0 { return 0; }
      if outwritebuf <= inwritebuf { return inwritebuf - outwritebuf; }
      var range1 := numbufs - outwritebuf;
      var range2 := inwritebuf;
      return range1 + range2;
    }

    /** The locked beginning of dahdi_chan_write: pick the slot to fill. */
    method Begin(count: nat) returns (r: BeginResult)
      requires Valid() && phase == Outside
      modifies this`phase, this`res, this`amnt, this`copied
      ensures Valid() && View() == old(View())
      ensures r == Invalid <==> count % 0x1_0000 < 1
      ensures r == WouldBlock <==> count % 0x1_0000 >= 1 && |View().blocks| == numbufs
      ensures r == WouldBlock ==> !txdisable
      ensures if r == Grabbed then phase == Copying else phase == Outside
      ensures r == Grabbed ==> copied == 0 && amnt == Amount(count % 0x1_0000, blocksize, linear)
    {
      var c := count % 0x1_0000;
      if c < 1 { return Invalid; }
      if inwritebuf < 0 { return WouldBlock; }
      res := inwritebuf;
      amnt := if linear then Min(c, 2 * blocksize) / 2 else Min(c, blocksize);
      copied := 0;
      phase := Copying;
      r := Grabbed;
    }

    /** One byte of the copy from user space, made without the lock. */
    method Copy(value: Byte)
      requires Valid() && phase == Copying && copied < amnt
      modifies this`copied, writebuf
      ensures Valid() && View() == old(View()) && copied == old(copied) + 1
      ensures writebuf[res] == old(writebuf[res])[old(copied) := value]
    {
      ghost var before := Unsent(writebuf[..], writeidx[..], writen[..]);
      writebuf[res] := writebuf[res][copied := value];
      copied := copied + 1;
      ContentsKept(before, Unsent(writebuf[..], writeidx[..], writen[..]), inwritebuf, outwritebuf);
    }

    /** The copy fails: the slot is left as it is and nothing is committed. */
    method Fault()
      requires Valid() && phase == Copying
      modifies this`phase
      ensures Valid() && View() == old(View()) && phase == Outside
    {
      phase := Outside;
    }

    /** The length of the block, also set without the lock. */
    method SetBlockLength()
      requires Valid() && phase == Copying && copied == amnt
      modifies this`phase, writen, writeidx
      ensures Valid() && View() == old(View()) && phase == Ready
    {
      ghost var before := Unsent(writebuf[..], writeidx[..], writen[..]);
      writen[res] := amnt;
      writeidx[res] := 0;
      phase := Ready;
      ContentsKept(before, Unsent(writebuf[..], writeidx[..], writen[..]), inwritebuf, outwritebuf);
    }

    /** The locked end of dahdi_chan_write: hand the slot to the transmitter. */
    method End()
      requires Valid() && phase == Ready
      modifies this`phase, this`res, this`inwritebuf, this`outwritebuf, this`txdisable
      ensures Valid() && phase == Outside
      ensures View() == Commit(old(View()), old(writebuf[res][..amnt]), numbufs, policy)
    {
      ghost var unsent, fill, drain := Unsent(writebuf[..], writeidx[..], writen[..]), inwritebuf, outwritebuf;
      var oldbuf := res;
      inwritebuf := (res + 1) % numbufs;
      if inwritebuf == outwritebuf {
        inwritebuf := -1;
        txdisable := false;
      }
      if outwritebuf < 0 {
        outwritebuf := oldbuf;
      }
      res, phase := -1, Outside;
      FillFreesNothing(fill, drain, numbufs, inwritebuf, outwritebuf);
      ContentsFill(unsent, fill, drain, unsent, inwritebuf, outwritebuf);
      assert Layout() && View().blocks == Contents(unsent, fill, drain) + [unsent[oldbuf]];
      if policy.HalfFull? && txdisable {
        var filled := NumFilledBufs();
        if filled >= numbufs / 2 {
          txdisable := false;
        }
      }
    }

    /** The end of the current buffer: free it and go to the next. */
    method Advance()
      requires Valid() && outwritebuf >= 0 && !txdisable
      modifies this`inwritebuf, this`outwritebuf, this`txdisable, writen, writeidx
      ensures Valid() && old(View().blocks) != []
      ensures old(inwritebuf) >= 0 ==> inwritebuf == old(inwritebuf)
      ensures var rest := old(View().blocks)[1..]; View() == Queue(rest, rest == [] && policy != Immediate)
    {
      ghost var unsent, fill, drain := Unsent(writebuf[..], writeidx[..], writen[..]), inwritebuf, outwritebuf;
      var oldbuf := outwritebuf;
      writeidx[oldbuf] := 0;
      outwritebuf := (outwritebuf + 1) % numbufs;
      writen[oldbuf] := 0;
      if outwritebuf == inwritebuf {
        outwritebuf := -1;
        if policy.WhenFull? || policy.HalfFull? {
          txdisable := true;
        }
      }
      if inwritebuf < 0 {
        inwritebuf := oldbuf;
      }
      ReleaseFillsNothing(fill, drain, numbufs, inwritebuf, outwritebuf);
      ContentsRelease(unsent, fill, drain, Unsent(writebuf[..], writeidx[..], writen[..]), inwritebuf, outwritebuf);
    }

    /** Takes what is wanted, at most the rest of the current buffer, and counts it sent. */
    method Consume(bytes: nat) returns (taken: seq<Byte>)
      requires Valid() && bytes > 0 && outwritebuf >= 0 && !txdisable
      modifies writeidx
      ensures Valid() && old(View().blocks) != []
      ensures taken == old(View().blocks)[0][..Min(bytes, |old(View().blocks)[0]|)]
      ensures View() == Queue([old(View().blocks)[0][|taken|..]] + old(View().blocks)[1..], false)
      ensures writeidx[outwritebuf] >= writen[outwritebuf] <==> |taken| == |old(View().blocks)[0]|
    {
      ghost var slots, unsent := View().blocks, Unsent(writebuf[..], writeidx[..], writen[..]);
      CurrentIsOldest();
      var buf, idx, n := writebuf[outwritebuf], writeidx[outwritebuf], writen[outwritebuf];
      assert unsent[outwritebuf] == buf[idx..n] == slots[0];
      var left := n - idx;
      if left > bytes { left := bytes; }
      assert left == Min(bytes, |slots[0]|);
      taken := buf[idx..idx + left];
      assert buf[idx..n][..left] == taken;
      writeidx[outwritebuf] := idx + left;
      ghost var after := Unsent(writebuf[..], writeidx[..], writen[..]);
      assert after[outwritebuf] == buf[idx + left..n] == slots[0][left..];
      ContentsFront(unsent, after, inwritebuf, outwritebuf);
    }

    /** The buffer being sent is the oldest. */
    lemma CurrentIsOldest()
      requires Valid() && outwritebuf >= 0
      ensures View().blocks != [] && View().blocks[0] == Unsent(writebuf[..], writeidx[..], writen[..])[outwritebuf]
      ensures Occupied(outwritebuf, inwritebuf, outwritebuf, numbufs)
    {
      var unsent := Unsent(writebuf[..], writeidx[..], writen[..]);
      ContentsFront(unsent, unsent, inwritebuf, outwritebuf);
    }

    /** One pass of the loop body of __dahdi_getbuf_chunk over the current buffer. */
    method TakeFromCurrent(bytes: nat) returns (taken: seq<Byte>)
      requires Valid() && bytes > 0 && outwritebuf >= 0 && !txdisable
      modifies this`inwritebuf, this`outwritebuf, this`txdisable, writen, writeidx
      ensures Valid() && |taken| <= bytes
      ensures old(inwritebuf) >= 0 ==> inwritebuf == old(inwritebuf)
      ensures old(View().blocks) != [] && (taken, View()) == Take(old(View()), bytes, policy)
    {
      ghost var blocks := View().blocks;
      taken := Consume(bytes);
      if writeidx[outwritebuf] >= writen[outwritebuf] {
        assert taken == blocks[0];
        Advance();
      }
    }

    /** `txb` is `sent` followed by silence. */
    ghost predicate Padded(txb: seq<Byte>, sent: seq<Byte>) {
      |sent| <= |txb| && txb == sent + seq(|txb| - |sent|, _ => silence)
    }

    /** After `sent` out of the queue `q`, `bytes` are wanted still. */
    ghost predicate Sending(q: Queue, txb: seq<Byte>, sent: seq<Byte>, bytes: nat)
      requires Valid()
      reads this, writebuf, writen, writeidx
    {
      && |txb| + bytes == chunk && Draining(q, chunk, sent, View(), bytes, policy)
      && Padded(txb, sent) && (bytes > 0 ==> txb == sent)
    }

    /** One pass of the loop of __dahdi_getbuf_chunk. */
    method Pass(ghost q: Queue, txb: seq<Byte>, ghost sent: seq<Byte>, bytes: nat)
      returns (txb': seq<Byte>, ghost sent': seq<Byte>, bytes': nat)
      requires Valid() && bytes > 0 && Sending(q, txb, sent, bytes)
      modifies this`inwritebuf, this`outwritebuf, this`txdisable, writen, writeidx
      ensures Valid() && Sending(q, txb', sent', bytes')
      ensures bytes' + |View().blocks| < bytes + |old(View().blocks)|
      ensures old(inwritebuf) >= 0 ==> inwritebuf == old(inwritebuf)
    {
      ghost var q1 := View();
      if outwritebuf > -1 && !txdisable {
        var taken := TakeFromCurrent(bytes);
        DrainingTakes(q, chunk, sent, q1, bytes, taken, View(), policy);
        txb', sent', bytes' := txb + taken, sent + taken, bytes - |taken|;
      } else {
        DrainingEnds(q, chunk, sent, q1, bytes, policy);
        txb', sent', bytes' := txb + seq(bytes, _ => silence), sent, 0;
      }
    }

    /** One tick of __dahdi_getbuf_chunk on a plain channel with no tone playing. */
    method Tick() returns (txb: seq<Byte>, ghost sent: seq<Byte>)
      requires Valid()
      modifies this`inwritebuf, this`outwritebuf, this`txdisable, writen, writeidx
      ensures Valid() && |txb| == chunk
      ensures (sent, View()) == Drain(old(View()), chunk, policy)
      ensures |sent| <= chunk && txb == Line(sent, Config())
      ensures old(inwritebuf) >= 0 ==> inwritebuf == old(inwritebuf)
      ensures State() == old(State()).(q := View())
    {
      ghost var q := View();
      txb, sent := [], [];
      var bytes: nat := chunk;
      while bytes > 0
        invariant Valid() && Sending(q, txb, sent, bytes)
        invariant old(inwritebuf) >= 0 ==> inwritebuf == old(inwritebuf)
        decreases bytes + |View().blocks|
      {
        txb, sent, bytes := Pass(q, txb, sent, bytes);
      }
      DrainingEnds(q, chunk, sent, View(), 0, policy);
    }

    /** One step of the process or the interrupt, if the program counter allows it. */
    method Perform(step: Step) returns (lines: seq<seq<Byte>>, ghost t: Trace)
      requires Valid()
      modifies this, writebuf, writen, writeidx
      ensures Valid()
      ensures t == Do(old(State()), step, Config()) && State() == t.program && lines == t.lines
    {
      t := Do(State(), step, Config());
      lines := [];
      match step
      case BeginWrite(count) =>
        if phase == Outside {
          var _ := Begin(count);
        }
      case CopyByte(value) =>
        if phase == Copying && copied < amnt {
          Copy(value);
        }
      case CopyFault =>
        if phase == Copying && copied < amnt {
          Fault();
        }
      case SetLength =>
        if phase == Copying && copied == amnt {
          SetBlockLength();
        }
      case EndWrite =>
        if phase == Ready {
          End();
        }
      case TransmitTick =>
        var line, _ := Tick();
        lines := [line];
    }

    /** Any interleaving of the writer's steps with transmit ticks: the ring does what the
        program says, and the lines carry the stream of what was written. */
    method Interleave(steps: seq<Step>) returns (lines: seq<seq<Byte>>, ghost t: Trace)
      requires Valid()
      modifies this, writebuf, writen, writeidx
      ensures Valid()
      ensures t == Exec(old(State()), steps, Config()) && State() == t.program && lines == t.lines
      ensures |lines| == Ticks(steps) && FullChunks(t.sent, lines, Config())
      ensures Flatten(t.sent) + Flatten(View().blocks) == Flatten(old(View()).blocks) + Written(t.events)
    {
      ghost var p := State();
      lines, t := [], Silently(p);
      for i := 0 to |steps|
        invariant Valid()
        invariant t == Exec(p, steps[..i], Config()) && State() == t.program && lines == t.lines
      {
        var more, u := Perform(steps[i]);
        ExecSnoc(p, steps[..i], steps[i], Config());
        assert steps[..i] + [steps[i]] == steps[..i + 1];
        lines, t := lines + more, Then(t, u);
      }
      assert steps[..|steps|] == steps;
      OneChunkPerTick(p, steps, Config());
      ExecIsAStream(p, steps, Config());
    }
  }
}
