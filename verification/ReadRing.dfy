/** The receive block buffers of a channel: the tick handler fills blocks of a fixed
    size, a user process takes whole blocks out. */
module ReadRing {
  import opened Words
  import opened SlotRing

  /** What the ring stands for: the complete blocks not yet taken, oldest first, and
      the beginning of the block being filled. */
  datatype Inbox = Inbox(full: seq<seq<Byte>>, partial: seq<Byte>)

  /** One received byte: it is lost exactly while every block is full. */
  function ReceiveByte(q: Inbox, b: Byte, numbufs: nat, blocksize: nat): Inbox {
    if |q.full| == numbufs then q
    else
      var partial := q.partial + [b];
      if |partial| >= blocksize then Inbox(q.full + [partial], []) else q.(partial := partial)
  }

  function Receive(q: Inbox, bytes: seq<Byte>, numbufs: nat, blocksize: nat): Inbox
    decreases |bytes|
  {
    if bytes == [] then q else Receive(ReceiveByte(q, bytes[0], numbufs, blocksize), bytes[1..], numbufs, blocksize)
  }

  lemma {:induction false} ReceiveInFull(q: Inbox, bytes: seq<Byte>, numbufs: nat, blocksize: nat)
    requires |q.full| == numbufs
    ensures Receive(q, bytes, numbufs, blocksize) == q
    decreases |bytes|
  {
    if bytes != [] {
      ReceiveInFull(q, bytes[1..], numbufs, blocksize);
    }
  }

  /** The block being filled, grown by `part`. */
  function Extend(q: Inbox, part: seq<Byte>, blocksize: nat): Inbox {
    var partial := q.partial + part;
    if |partial| >= blocksize then Inbox(q.full + [partial], []) else q.(partial := partial)
  }

  /** As long as the block being filled has room, a whole run of bytes goes into it. */
  lemma {:induction false} ReceiveIntoBlock(q: Inbox, bytes: seq<Byte>, left: nat, numbufs: nat, blocksize: nat)
    requires |q.full| < numbufs && left <= |bytes| && |q.partial| + left <= blocksize
    requires |q.partial| < blocksize
    ensures Receive(q, bytes, numbufs, blocksize)
         == Receive(Extend(q, bytes[..left], blocksize), bytes[left..], numbufs, blocksize)
    decreases left
  {
    var partial := q.partial + bytes[..left];
    if left == 0 {
      assert partial == q.partial && bytes[0..] == bytes;
    } else {
      var q1 := ReceiveByte(q, bytes[0], numbufs, blocksize);
      var rest := bytes[1..];
      if left == 1 {
        assert bytes[..1] == [bytes[0]];
      } else {
        ReceiveIntoBlock(q1, rest, left - 1, numbufs, blocksize);
        assert q1.partial + rest[..left - 1] == partial;
        assert rest[left - 1..] == bytes[left..];
      }
    }
  }

  // ---------------------------------------------------------------- history

  /** An inbox with the whole history: every byte received so far, the blocks handed
      over, where each block begins in the received bytes, and which were lost. */
  datatype Log = Log(q: Inbox, received: seq<Byte>, delivered: seq<seq<Byte>>, starts: seq<int>, lost: set<nat>)

  function LogByte(log: Log, b: Byte, numbufs: nat, blocksize: nat): Log {
    var at := |log.received|;
    var q := ReceiveByte(log.q, b, numbufs, blocksize);
    log.(q := q, received := log.received + [b],
         starts := if |q.full| > |log.q.full| then log.starts + [at + 1 - blocksize] else log.starts,
         lost := if |log.q.full| == numbufs then log.lost + {at} else log.lost)
  }

  function LogBytes(log: Log, bytes: seq<Byte>, numbufs: nat, blocksize: nat): Log
    decreases |bytes|
  {
    if bytes == [] then log else LogBytes(LogByte(log, bytes[0], numbufs, blocksize), bytes[1..], numbufs, blocksize)
  }

  function LogDeliver(log: Log): Log {
    if log.q.full == [] then log
    else log.(q := log.q.(full := log.q.full[1..]), delivered := log.delivered + [log.q.full[0]])
  }

  const EMPTY := Log(Inbox([], []), [], [], [], {})

  ghost predicate Inside(starts: seq<int>, at: int, blocksize: nat) {
    exists i :: 0 <= i < |starts| && starts[i] <= at < starts[i] + blocksize
  }

  /** Each block is one uninterrupted run of received bytes; blocks are in order and
      do not overlap; every other byte before `open` was lost. */
  ghost predicate Located(blocks: seq<seq<Byte>>, starts: seq<int>, lost: set<nat>, received: seq<Byte>,
                          open: nat, blocksize: nat) {
    && |starts| == |blocks| && open <= |received|
    && (forall i :: 0 <= i < |blocks| ==>
          0 <= starts[i] <= starts[i] + blocksize <= open
          && blocks[i] == received[starts[i]..starts[i] + blocksize])
    && (forall i, j :: 0 <= i < j < |blocks| ==> starts[i] + blocksize <= starts[j])
    && (forall at: nat :: at < open ==> (at in lost <==> !Inside(starts, at, blocksize)))
    && (forall at :: at in lost ==> at < open)
  }

  /** The bytes after the located ones are the block being filled. */
  ghost predicate Contiguous(log: Log, numbufs: nat, blocksize: nat) {
    var open := |log.received| - |log.q.partial|;
    && |log.q.full| <= numbufs && |log.q.partial| < blocksize
    && (|log.q.full| == numbufs ==> log.q.partial == [])
    && open >= 0 && log.q.partial == log.received[open..]
    && Located(log.delivered + log.q.full, log.starts, log.lost, log.received, open, blocksize)
  }

  lemma LocatedGrows(blocks: seq<seq<Byte>>, starts: seq<int>, lost: set<nat>, received: seq<Byte>, b: Byte,
                     open: nat, blocksize: nat)
    requires Located(blocks, starts, lost, received, open, blocksize)
    ensures Located(blocks, starts, lost, received + [b], open, blocksize)
  {
  }

  lemma LocatedLoses(blocks: seq<seq<Byte>>, starts: seq<int>, lost: set<nat>, received: seq<Byte>,
                     open: nat, blocksize: nat)
    requires Located(blocks, starts, lost, received, open, blocksize) && open < |received|
    ensures Located(blocks, starts, lost + {open}, received, open + 1, blocksize)
  {
  }

  lemma LocatedCompletes(blocks: seq<seq<Byte>>, starts: seq<int>, lost: set<nat>, received: seq<Byte>,
                         open: nat, blocksize: nat)
    requires Located(blocks, starts, lost, received, open, blocksize) && open + blocksize <= |received|
    ensures Located(blocks + [received[open..open + blocksize]], starts + [open], lost, received, open + blocksize, blocksize)
  {
    var starts' := starts + [open];
    forall at: nat | at < open + blocksize
      ensures at in lost <==> !Inside(starts', at, blocksize)
    {
      if at < open {
        if Inside(starts, at, blocksize) {
          var i :| 0 <= i < |starts| && starts[i] <= at < starts[i] + blocksize;
          assert starts'[i] <= at < starts'[i] + blocksize;
        } else {
          assert forall i :: 0 <= i < |starts| ==> starts'[i] == starts[i];
        }
      } else {
        assert starts'[|starts|] <= at < starts'[|starts|] + blocksize;
      }
    }
  }

  lemma EmptyBlockIsContiguous(log: Log, numbufs: nat, blocksize: nat)
    requires log.q.partial == [] && |log.q.full| <= numbufs && blocksize > 0
    requires Located(log.delivered + log.q.full, log.starts, log.lost, log.received, |log.received|, blocksize)
    ensures Contiguous(log, numbufs, blocksize)
  {
    assert log.received[|log.received|..] == [];
  }

  lemma LosingKeepsContiguous(log: Log, b: Byte, numbufs: nat, blocksize: nat)
    requires Contiguous(log, numbufs, blocksize) && |log.q.full| == numbufs
    ensures Contiguous(LogByte(log, b, numbufs, blocksize), numbufs, blocksize)
  {
    var blocks, open := log.delivered + log.q.full, |log.received|;
    LocatedGrows(blocks, log.starts, log.lost, log.received, b, open, blocksize);
    LocatedLoses(blocks, log.starts, log.lost, log.received + [b], open, blocksize);
    var log' := log.(received := log.received + [b], lost := log.lost + {open});
    assert LogByte(log, b, numbufs, blocksize) == log';
    EmptyBlockIsContiguous(log', numbufs, blocksize);
  }

  lemma StoringKeepsContiguous(log: Log, b: Byte, numbufs: nat, blocksize: nat)
    requires Contiguous(log, numbufs, blocksize)
    requires |log.q.full| < numbufs && |log.q.partial| + 1 < blocksize
    ensures Contiguous(LogByte(log, b, numbufs, blocksize), numbufs, blocksize)
  {
    var open, q := |log.received| - |log.q.partial|, Inbox(log.q.full, log.q.partial + [b]);
    LocatedGrows(log.delivered + log.q.full, log.starts, log.lost, log.received, b, open, blocksize);
    assert LogByte(log, b, numbufs, blocksize) == log.(q := q, received := log.received + [b]);
    assert q.partial == (log.received + [b])[open..];
  }

  lemma LocatedGrowsAndCompletes(blocks: seq<seq<Byte>>, starts: seq<int>, lost: set<nat>, received: seq<Byte>, b: Byte,
                                 open: nat, blocksize: nat)
    requires Located(blocks, starts, lost, received, open, blocksize) && open + blocksize == |received| + 1
    ensures Located(blocks + [received[open..] + [b]], starts + [open], lost, received + [b], |received| + 1, blocksize)
  {
    LocatedGrows(blocks, starts, lost, received, b, open, blocksize);
    LocatedCompletes(blocks, starts, lost, received + [b], open, blocksize);
    assert (received + [b])[open..open + blocksize] == received[open..] + [b];
  }

  lemma CompletedIsLocated(log: Log, b: Byte, blocksize: nat)
    requires var open := |log.received| - |log.q.partial|;
      && open >= 0 && log.q.partial == log.received[open..] && |log.q.partial| + 1 == blocksize
      && Located(log.delivered + log.q.full, log.starts, log.lost, log.received, open, blocksize)
    ensures Located(log.delivered + (log.q.full + [log.q.partial + [b]]), log.starts + [|log.received| - |log.q.partial|],
                    log.lost, log.received + [b], |log.received| + 1, blocksize)
  {
    var open := |log.received| - |log.q.partial|;
    LocatedGrowsAndCompletes(log.delivered + log.q.full, log.starts, log.lost, log.received, b, open, blocksize);
    ConcatAssoc(log.delivered, log.q.full, [log.q.partial + [b]]);
  }

  lemma CompletingKeepsContiguous(log: Log, b: Byte, numbufs: nat, blocksize: nat)
    requires Contiguous(log, numbufs, blocksize)
    requires |log.q.full| < numbufs && |log.q.partial| + 1 == blocksize
    ensures Contiguous(LogByte(log, b, numbufs, blocksize), numbufs, blocksize)
  {
    CompletedIsLocated(log, b, blocksize);
    EmptyBlockIsContiguous(LogByte(log, b, numbufs, blocksize), numbufs, blocksize);
  }

  lemma ByteKeepsContiguous(log: Log, b: Byte, numbufs: nat, blocksize: nat)
    requires Contiguous(log, numbufs, blocksize)
    ensures Contiguous(LogByte(log, b, numbufs, blocksize), numbufs, blocksize)
  {
    if |log.q.full| == numbufs {
      LosingKeepsContiguous(log, b, numbufs, blocksize);
    } else if |log.q.partial| + 1 < blocksize {
      StoringKeepsContiguous(log, b, numbufs, blocksize);
    } else {
      CompletingKeepsContiguous(log, b, numbufs, blocksize);
    }
  }

  lemma {:induction false} BytesKeepContiguous(log: Log, bytes: seq<Byte>, numbufs: nat, blocksize: nat)
    requires Contiguous(log, numbufs, blocksize)
    ensures Contiguous(LogBytes(log, bytes, numbufs, blocksize), numbufs, blocksize)
    decreases |bytes|
  {
    if bytes != [] {
      ByteKeepsContiguous(log, bytes[0], numbufs, blocksize);
      BytesKeepContiguous(LogByte(log, bytes[0], numbufs, blocksize), bytes[1..], numbufs, blocksize);
    }
  }

  lemma {:induction false} BytesLogged(log: Log, bytes: seq<Byte>, numbufs: nat, blocksize: nat)
    ensures LogBytes(log, bytes, numbufs, blocksize).q == Receive(log.q, bytes, numbufs, blocksize)
    ensures LogBytes(log, bytes, numbufs, blocksize).received == log.received + bytes
    ensures LogBytes(log, bytes, numbufs, blocksize).delivered == log.delivered
    decreases |bytes|
  {
    if bytes == [] {
      assert log.received + bytes == log.received;
    } else {
      BytesLogged(LogByte(log, bytes[0], numbufs, blocksize), bytes[1..], numbufs, blocksize);
      ConcatAssoc(log.received, [bytes[0]], bytes[1..]);
      assert [bytes[0]] + bytes[1..] == bytes;
    }
  }

  lemma DeliverKeepsContiguous(log: Log, numbufs: nat, blocksize: nat)
    requires Contiguous(log, numbufs, blocksize)
    ensures Contiguous(LogDeliver(log), numbufs, blocksize)
  {
    var log' := LogDeliver(log);
    assert log'.delivered + log'.q.full == log.delivered + log.q.full;
  }

  lemma EmptyIsContiguous(numbufs: nat, blocksize: nat)
    requires blocksize > 0 && numbufs > 0
    ensures Contiguous(EMPTY, numbufs, blocksize)
  {
  }

  // ---------------------------------------------------------------- programs

  datatype Settings = Settings(numbufs: nat, blocksize: nat, linear: bool)

  datatype Phase = Outside | Copying
  datatype BeginResult = Grabbed | Invalid | WouldBlock

  /** What one process and the interrupt may do next; `CopyFault` is a copy to user space
      that fails before it is complete. */
  datatype Step = BeginRead(count: nat) | CopyByte | CopyFault | EndRead | ReceiveTick(bytes: seq<Byte>)

  /** The history of the ring and where the process is: how much it is to copy and how
      much it has copied. */
  datatype Program = Program(log: Log, phase: Phase, amnt: nat, done: nat)

  /** Where steps lead, what each completed read returned and how much it asked for. */
  datatype Trace = Trace(program: Program, data: seq<seq<Byte>>, amounts: seq<nat>)

  const START := Program(EMPTY, Outside, 0, 0)

  function Silently(p: Program): Trace {
    Trace(p, [], [])
  }

  /** One step; a step that the program counter does not allow does nothing. */
  function Do(p: Program, step: Step, c: Settings): Trace {
    match step
    case BeginRead(count) =>
      var n := count % 0x1_0000;
      Silently(if p.phase == Outside && n >= 1 && p.log.q.full != []
               then Program(p.log, Copying, Amount(n, c.blocksize, c.linear), 0) else p)
    case CopyByte =>
      Silently(if p.phase == Copying && p.done < p.amnt then p.(done := p.done + 1) else p)
    case CopyFault =>
      Silently(if p.phase == Copying && p.done < p.amnt then Program(p.log, Outside, 0, 0) else p)
    case EndRead =>
      if p.phase == Copying && p.done == p.amnt && p.log.q.full != []
      then Trace(Program(LogDeliver(p.log), Outside, 0, 0), [First(p.log.q.full[0], p.amnt)], [p.amnt])
      else Silently(p)
    case ReceiveTick(bytes) =>
      Silently(p.(log := LogBytes(p.log, bytes, c.numbufs, c.blocksize)))
  }

  function Then(t: Trace, u: Trace): Trace {
    Trace(u.program, t.data + u.data, t.amounts + u.amounts)
  }

  function Exec(p: Program, steps: seq<Step>, c: Settings): Trace
    decreases |steps|
  {
    if steps == [] then Silently(p)
    else
      var n := |steps| - 1;
      var t := Exec(p, steps[..n], c);
      Then(t, Do(t.program, steps[n], c))
  }

  lemma ExecSnoc(p: Program, steps: seq<Step>, step: Step, c: Settings)
    ensures var t := Exec(p, steps, c); Exec(p, steps + [step], c) == Then(t, Do(t.program, step, c))
  {
    assert (steps + [step])[..|steps|] == steps;
  }

  /** Over every interleaving of a reader's steps with ticks the blocks are pieces of the
      received bytes, in order, with gaps only where bytes came while all were full. */
  lemma {:induction false} ExecIsContiguous(steps: seq<Step>, c: Settings)
    requires c.blocksize > 0 && c.numbufs > 0
    ensures Contiguous(Exec(START, steps, c).program.log, c.numbufs, c.blocksize)
    decreases |steps|
  {
    if steps == [] {
      EmptyIsContiguous(c.numbufs, c.blocksize);
    } else {
      var n := |steps| - 1;
      ExecIsContiguous(steps[..n], c);
      var log := Exec(START, steps[..n], c).program.log;
      match steps[n]
      case ReceiveTick(bytes) => BytesKeepContiguous(log, bytes, c.numbufs, c.blocksize);
      case EndRead => DeliverKeepsContiguous(log, c.numbufs, c.blocksize);
      case _ =>
    }
  }

  /** The bytes of all receive ticks. */
  function Received(steps: seq<Step>): seq<Byte>
    decreases |steps|
  {
    if steps == [] then []
    else
      var n := |steps| - 1;
      Received(steps[..n]) + if steps[n].ReceiveTick? then steps[n].bytes else []
  }

  /** Those pieces are of the bytes that the ticks received, all of them. */
  lemma {:induction false} EveryByteIsLogged(steps: seq<Step>, c: Settings)
    ensures Exec(START, steps, c).program.log.received == Received(steps)
    decreases |steps|
  {
    if steps != [] {
      var n := |steps| - 1;
      EveryByteIsLogged(steps[..n], c);
      if steps[n].ReceiveTick? {
        BytesLogged(Exec(START, steps[..n], c).program.log, steps[n].bytes, c.numbufs, c.blocksize);
      } else {
        assert Received(steps[..n]) + [] == Received(steps[..n]);
      }
    }
  }

  /** Each completed read returned the beginning of one delivered block. */
  ghost predicate Returned(t: Trace) {
    && |t.data| == |t.amounts| == |t.program.log.delivered|
    && forall k :: 0 <= k < |t.data| ==> t.data[k] == First(t.program.log.delivered[k], t.amounts[k])
  }

  lemma DoReturns(t: Trace, step: Step, c: Settings)
    requires Returned(t)
    ensures Returned(Then(t, Do(t.program, step, c)))
  {
    if step.ReceiveTick? {
      BytesLogged(t.program.log, step.bytes, c.numbufs, c.blocksize);
    }
  }

  /** Reads return one block each, in order. */
  lemma {:induction false} ReadsReturnBlocks(steps: seq<Step>, c: Settings)
    ensures Returned(Exec(START, steps, c))
    decreases |steps|
  {
    if steps != [] {
      var n := |steps| - 1;
      ReadsReturnBlocks(steps[..n], c);
      DoReturns(Exec(START, steps[..n], c), steps[n], c);
    }
  }

  /** Every request covers a block. */
  ghost predicate AskForBlocks(steps: seq<Step>, c: Settings) {
    forall k :: 0 <= k < |steps| && steps[k].BeginRead? ==>
      steps[k].count % 0x1_0000 >= if c.linear then 2 * c.blocksize else c.blocksize
  }

  lemma {:induction false} AmountsAreBlocks(steps: seq<Step>, c: Settings)
    requires AskForBlocks(steps, c)
    ensures var t := Exec(START, steps, c);
            && (t.program.phase == Copying ==> t.program.amnt == c.blocksize)
            && forall k :: 0 <= k < |t.amounts| ==> t.amounts[k] == c.blocksize
    decreases |steps|
  {
    if steps != [] {
      AmountsAreBlocks(steps[..|steps| - 1], c);
    }
  }

  /** A reader that asks for whole blocks gets exactly the delivered blocks. */
  lemma WholeBlocksAreReturned(steps: seq<Step>, c: Settings)
    requires c.blocksize > 0 && c.numbufs > 0 && AskForBlocks(steps, c)
    ensures var t := Exec(START, steps, c); t.data == t.program.log.delivered
  {
    var t := Exec(START, steps, c);
    ReadsReturnBlocks(steps, c);
    AmountsAreBlocks(steps, c);
    ExecIsContiguous(steps, c);
    var blocks := t.program.log.delivered + t.program.log.q.full;
    forall k | 0 <= k < |t.data| ensures t.data[k] == t.program.log.delivered[k] {
      assert blocks[k] == t.program.log.delivered[k];
    }
  }

  lemma {:induction false} CopiesOut(p: Program, n: nat, c: Settings)
    requires p.phase == Copying && p.done == 0 && n <= p.amnt
    ensures Exec(p, seq(n, _ => CopyByte), c) == Silently(p.(done := n))
  {
    if n > 0 {
      CopiesOut(p, n - 1, c);
      ExecSnoc(p, seq(n - 1, _ => CopyByte), CopyByte, c);
      assert seq(n, _ => CopyByte) == seq(n - 1, _ => CopyByte) + [CopyByte];
    }
  }

  lemma ThenAssoc(t: Trace, u: Trace, v: Trace)
    ensures Then(Then(t, u), v) == Then(t, Then(u, v))
  {
    assert t.data + u.data + v.data == t.data + (u.data + v.data);
    assert t.amounts + u.amounts + v.amounts == t.amounts + (u.amounts + v.amounts);
  }

  lemma ThenNothing(t: Trace)
    ensures Then(t, Silently(t.program)) == t
  {
    assert t.data + [] == t.data;
    assert t.amounts + [] == t.amounts;
  }

  lemma NothingThen(p: Program, t: Trace)
    ensures Then(Silently(p), t) == t
  {
    assert [] + t.data == t.data;
    assert [] + t.amounts == t.amounts;
  }

  lemma Regroup(steps: seq<Step>, more: seq<Step>)
    ensures steps + [] == steps
    ensures more != [] ==> var n := |more| - 1;
              more == more[..n] + [more[n]] && steps + more == (steps + more[..n]) + [more[n]]
  {
  }

  lemma {:induction false} ExecAppend(p: Program, steps: seq<Step>, more: seq<Step>, c: Settings)
    ensures Exec(p, steps + more, c) == Then(Exec(p, steps, c), Exec(Exec(p, steps, c).program, more, c))
    decreases |more|
  {
    var t := Exec(p, steps, c);
    Regroup(steps, more);
    if more == [] {
      ThenNothing(t);
    } else {
      var n := |more| - 1;
      var u := Exec(t.program, more[..n], c);
      ExecAppend(p, steps, more[..n], c);
      ExecSnoc(p, steps + more[..n], more[n], c);
      ExecSnoc(t.program, more[..n], more[n], c);
      ThenAssoc(t, u, Do(u.program, more[n], c));
    }
  }

  lemma BeginsRead(p: Program, count: nat, c: Settings)
    requires p.phase == Outside && p.log.q.full != [] && 1 <= count < 65536
    ensures Exec(p, [BeginRead(count)], c) == Silently(Program(p.log, Copying, Amount(count, c.blocksize, c.linear), 0))
  {
    assert [] + [BeginRead(count)] == [BeginRead(count)];
    ExecSnoc(p, [], BeginRead(count), c);
  }

  lemma EndsRead(p: Program, c: Settings)
    requires p.phase == Copying && p.done == p.amnt && p.log.q.full != []
    ensures var t := Exec(p, [EndRead], c);
            && t.data == [First(p.log.q.full[0], p.amnt)] && t.program.log.q.full == p.log.q.full[1..]
            && t.program.phase == Outside
  {
    assert [] + [EndRead] == [EndRead];
    ExecSnoc(p, [], EndRead, c);
  }

  /** What one call takes of `count` bytes: a block, of two bytes for each sample on a
      linear channel. */
  predicate ReadsBlock(n: nat, count: nat, c: Settings) {
    var whole := if c.linear then 2 * c.blocksize else c.blocksize;
    var bytes := if count < whole then count else whole;
    n == if c.linear then bytes / 2 else bytes
  }

  /** A read that finds a block and copies all it takes returns the first `n` bytes of the
      oldest block and frees it. */
  lemma CompleteRead(p: Program, count: nat, n: nat, c: Settings)
    requires p.phase == Outside && p.log.q.full != [] && 1 <= count < 65536 && ReadsBlock(n, count, c)
    ensures var t := Exec(p, [BeginRead(count)] + seq(n, _ => CopyByte) + [EndRead], c);
            && t.data == [First(p.log.q.full[0], n)] && t.program.log.q.full == p.log.q.full[1..]
            && t.program.phase == Outside
  {
    var begun := Program(p.log, Copying, Amount(count, c.blocksize, c.linear), 0);
    var copies := seq(n, _ => CopyByte);
    BeginsRead(p, count, c);
    CopiesOut(begun, n, c);
    ExecAppend(p, [BeginRead(count)], copies, c);
    NothingThen(begun, Silently(begun.(done := n)));
    ExecAppend(p, [BeginRead(count)] + copies, [EndRead], c);
    NothingThen(begun.(done := n), Exec(begun.(done := n), [EndRead], c));
    EndsRead(begun.(done := n), c);
  }

  // ---------------------------------------------------------------- the ring

  /** What each slot holds as a complete block. */
  function Blocks(bufs: seq<seq<Byte>>, len: seq<nat>): (r: seq<seq<Byte>>)
    requires |bufs| == |len|
    ensures |r| == |bufs|
  {
    seq(|bufs|, i requires 0 <= i < |bufs| => if len[i] <= |bufs[i]| then bufs[i][..len[i]] else [])
  }

  class Ring {
    const numbufs: nat
    const blocksize: nat
    const linear: bool

    var inreadbuf: int
    var outreadbuf: int
    const readbuf: array<seq<Byte>>
    const readn: array<nat>
    const readidx: array<nat>

    // Local variables of the one process inside dahdi_chan_read.
    var phase: Phase
    var res: int
    var amnt: nat
    var copied: seq<Byte>

    ghost predicate Layout()
      reads this, readbuf
    {
      && blocksize > 0 && Indices(inreadbuf, outreadbuf, numbufs)
      && readbuf.Length == numbufs && readn.Length == numbufs && readidx.Length == numbufs
      && readn != readidx
      && (forall i :: 0 <= i < numbufs ==> |readbuf[i]| == blocksize)
    }

    ghost predicate Valid()
      reads this, readbuf, readn, readidx
    {
      && Layout()
      && (forall i :: 0 <= i < numbufs ==>
            if Occupied(i, inreadbuf, outreadbuf, numbufs) then readn[i] == blocksize
            else if i == inreadbuf then readidx[i] < blocksize else readidx[i] == 0)
      && (phase == Copying ==>
            && outreadbuf >= 0 && res == outreadbuf && |copied| <= amnt <= blocksize
            && copied == readbuf[res][..|copied|])
    }

    ghost function View(): Inbox
      requires Layout()
      reads this, readbuf, readn, readidx
    {
      Inbox(Contents(Blocks(readbuf[..], readn[..]), inreadbuf, outreadbuf),
            if inreadbuf >= 0 && readidx[inreadbuf] <= blocksize then readbuf[inreadbuf][..readidx[inreadbuf]] else [])
    }

    ghost function Config(): Settings {
      Settings(numbufs, blocksize, linear)
    }

    /** The ring and the process are where the program says. */
    ghost predicate At(p: Program)
      requires Layout()
      reads this, readbuf, readn, readidx
    {
      && p.log.q == View() && p.phase == phase
      && (if phase == Copying then p.amnt == amnt && p.done == |copied| else p.amnt == p.done == 0)
    }

    constructor (blocksize: nat, numbufs: int, linear: bool)
      requires blocksize > 0
      ensures Valid() && fresh(readbuf) && fresh(readn) && fresh(readidx)
      ensures Config() == Settings(Capped(numbufs),
                                   blocksize, linear)
      ensures At(START)
    {
      var n := Capped(numbufs);
      this.blocksize, this.numbufs, this.linear := blocksize, n, linear;
      inreadbuf, outreadbuf := 0, -1;
      readbuf := new seq<Byte>[n](_ => seq(blocksize, _ => 0));
      readn := new nat[n](_ => 0);
      readidx := new nat[n](_ => 0);
      phase, res, amnt, copied := Outside, -1, 0, [];
    }

    /** The locked beginning of dahdi_chan_read: pick the oldest block. */
    method Begin(count: nat) returns (r: BeginResult)
      requires Valid() && phase == Outside
      modifies this`phase, this`res, this`amnt, this`copied
      ensures Valid() && View() == old(View())
      ensures r == Invalid <==> count % 0x1_0000 < 1
      ensures r == WouldBlock <==> count % 0x1_0000 >= 1 && View().full == []
      ensures if r == Grabbed then phase == Copying else phase == Outside
      ensures r == Grabbed ==> copied == [] && amnt == Amount(count % 0x1_0000, blocksize, linear)
    {
      var c := count % 0x1_0000;
      if c < 1 { return Invalid; }
      if outreadbuf < 0 { return WouldBlock; }
      res := outreadbuf;
      ReleaseFillsNothing(inreadbuf, outreadbuf, numbufs,
        if inreadbuf < 0 then outreadbuf else inreadbuf,
        if (outreadbuf + 1) % numbufs == inreadbuf then -1 else (outreadbuf + 1) % numbufs);
      amnt := if linear then Min(c, 2 * readn[res]) / 2 else Min(c, readn[res]);
      copied := [];
      phase := Copying;
      r := Grabbed;
    }

    /** One byte of the copy to user space, made without the lock. */
    method Copy()
      requires Valid() && phase == Copying && |copied| < amnt
      modifies this`copied
      ensures Valid() && View() == old(View()) && |copied| == |old(copied)| + 1
    {
      copied := copied + [readbuf[res][|copied|]];
    }

    /** The copy fails: the block stays where it is. */
    method Fault()
      requires Valid() && phase == Copying
      modifies this`phase
      ensures Valid() && View() == old(View()) && phase == Outside
    {
      phase := Outside;
    }

    /** The locked end of dahdi_chan_read: the slot may be filled again. */
    method End() returns (data: seq<Byte>)
      requires Valid() && phase == Copying && |copied| == amnt
      modifies this`phase, this`res, this`inreadbuf, this`outreadbuf, readn, readidx
      ensures Valid() && phase == Outside && old(View().full) != []
      ensures View() == old(View()).(full := old(View()).full[1..])
      ensures data == old(View()).full[0][..amnt]
    {
      ghost var blocks, fill, drain := Blocks(readbuf[..], readn[..]), inreadbuf, outreadbuf;
      data := copied;
      ContentsFront(blocks, blocks, fill, drain);
      assert Occupied(drain, fill, drain, numbufs);
      readidx[res] := 0;
      readn[res] := 0;
      var oldbuf := res;
      outreadbuf := (res + 1) % numbufs;
      if outreadbuf == inreadbuf {
        outreadbuf := -1;
      }
      if inreadbuf < 0 {
        inreadbuf := oldbuf;
      }
      phase, res := Outside, -1;
      ReleaseFillsNothing(fill, drain, numbufs, inreadbuf, outreadbuf);
      ContentsRelease(blocks, fill, drain, Blocks(readbuf[..], readn[..]), inreadbuf, outreadbuf);
    }

    /** The block being filled is complete: go to the next free slot, if any. */
    method Advance()
      requires Layout() && inreadbuf >= 0 && readidx[inreadbuf] == blocksize
      requires forall i :: 0 <= i < numbufs ==>
        if Occupied(i, inreadbuf, outreadbuf, numbufs) then readn[i] == blocksize
        else if i == inreadbuf then readidx[i] == blocksize else readidx[i] == 0
      requires phase == Copying ==>
        outreadbuf >= 0 && res == outreadbuf && |copied| <= amnt <= blocksize && copied == readbuf[res][..|copied|]
      modifies this`inreadbuf, this`outreadbuf, readn
      ensures Valid() && (phase == Copying ==> outreadbuf == old(outreadbuf))
      ensures View() == Inbox(old(View().full) + [old(readbuf[inreadbuf])], [])
    {
      ghost var blocks, fill, drain := Blocks(readbuf[..], readn[..]), inreadbuf, outreadbuf;
      var oldbuf := inreadbuf;
      readn[inreadbuf] := readidx[inreadbuf];
      inreadbuf := (inreadbuf + 1) % numbufs;
      if inreadbuf == outreadbuf {
        inreadbuf := -1;
      }
      if outreadbuf < 0 {
        outreadbuf := oldbuf;
      }
      FillFreesNothing(fill, drain, numbufs, inreadbuf, outreadbuf);
      assert readbuf[fill][..blocksize] == readbuf[fill];
      ghost var blocks' := Blocks(readbuf[..], readn[..]);
      assert blocks'[fill] == readbuf[fill];
      ContentsFill(blocks, fill, drain, blocks', inreadbuf, outreadbuf);
      assert View().full == Contents(blocks, fill, drain) + [readbuf[fill]] && View().partial == [];
    }

    /** Part of a chunk goes into the block being filled. */
    method Store(part: seq<Byte>)
      requires Valid() && inreadbuf >= 0 && |part| <= blocksize - readidx[inreadbuf]
      modifies this`inreadbuf, this`outreadbuf, readbuf, readn, readidx
      ensures Valid() && |old(View()).full| < numbufs && |old(View()).partial| == old(readidx[inreadbuf])
      ensures View() == Extend(old(View()), part, blocksize)
      ensures phase == Copying ==> readbuf[res] == old(readbuf[res]) && outreadbuf == old(outreadbuf)
    {
      ghost var q, blocks := View(), Blocks(readbuf[..], readn[..]);
      var at, idx := inreadbuf, readidx[inreadbuf];
      readbuf[at] := readbuf[at][..idx] + part + readbuf[at][idx + |part|..];
      readidx[at] := idx + |part|;
      ContentsKept(blocks, Blocks(readbuf[..], readn[..]), inreadbuf, outreadbuf);
      assert readbuf[at][..idx + |part|] == q.partial + part;
      if readidx[at] >= blocksize {
        assert readbuf[at] == readbuf[at][..blocksize];
        Advance();
      }
    }

    /** As much of the rest of a chunk as the block being filled has room for. */
    method StoreSome(rest: seq<Byte>) returns (left: nat)
      requires Valid() && inreadbuf >= 0 && rest != []
      modifies this`inreadbuf, this`outreadbuf, readbuf, readn, readidx
      ensures Valid() && 0 < left <= |rest|
      ensures Receive(old(View()), rest, numbufs, blocksize) == Receive(View(), rest[left..], numbufs, blocksize)
      ensures phase == Copying ==> readbuf[res] == old(readbuf[res]) && outreadbuf == old(outreadbuf)
    {
      ghost var q := View();
      left := blocksize - readidx[inreadbuf];
      if left > |rest| { left := |rest|; }
      Store(rest[..left]);
      ReceiveIntoBlock(q, rest, left, numbufs, blocksize);
    }

    /** One tick of __putbuf_chunk on a plain channel. */
    method Tick(rxb: seq<Byte>)
      requires Valid()
      modifies this`inreadbuf, this`outreadbuf, readbuf, readn, readidx
      ensures Valid() && View() == Receive(old(View()), rxb, numbufs, blocksize)
      ensures phase == Copying ==> readbuf[res] == old(readbuf[res]) && outreadbuf == old(outreadbuf)
    {
      ghost var q0 := View();
      var rest := rxb;
      while rest != []
        invariant Valid() && Receive(q0, rxb, numbufs, blocksize) == Receive(View(), rest, numbufs, blocksize)
        invariant phase == Copying ==> readbuf[res] == old(readbuf[res]) && outreadbuf == old(outreadbuf)
        decreases |rest|
      {
        if inreadbuf > -1 {
          var left := StoreSome(rest);
          rest := rest[left..];
        } else {
          ReceiveInFull(View(), rest, numbufs, blocksize);
          return;
        }
      }
    }

    /** One step of the process or the interrupt, if the program counter allows it. */
    method Perform(step: Step, ghost p: Program) returns (data: seq<seq<Byte>>, ghost t: Trace)
      requires Valid() && At(p)
      modifies this, readbuf, readn, readidx
      ensures Valid()
      ensures t == Do(p, step, Config()) && At(t.program) && data == t.data
    {
      t := Do(p, step, Config());
      data := [];
      match step
      case BeginRead(count) =>
        if phase == Outside {
          var _ := Begin(count);
        }
      case CopyByte =>
        if phase == Copying && |copied| < amnt {
          Copy();
        }
      case CopyFault =>
        if phase == Copying && |copied| < amnt {
          Fault();
        }
      case EndRead =>
        if phase == Copying && |copied| == amnt {
          var block := End();
          data := [block];
        }
      case ReceiveTick(bytes) =>
        Tick(bytes);
        BytesLogged(p.log, bytes, numbufs, blocksize);
    }

    /** Any interleaving of the reader's steps with receive ticks: the ring does what the
        program says, so what reads return are pieces of the bytes received. */
    method Interleave(steps: seq<Step>) returns (data: seq<seq<Byte>>, ghost t: Trace)
      requires Valid() && At(START)
      modifies this, readbuf, readn, readidx
      ensures Valid()
      ensures t == Exec(START, steps, Config()) && At(t.program) && data == t.data
      ensures Returned(t) && t.program.log.received == Received(steps)
      ensures Contiguous(t.program.log, numbufs, blocksize)
    {
      data, t := [], Silently(START);
      for i := 0 to |steps|
        invariant Valid()
        invariant t == Exec(START, steps[..i], Config()) && At(t.program) && data == t.data
      {
        var more, u := Perform(steps[i], t.program);
        ExecSnoc(START, steps[..i], steps[i], Config());
        assert steps[..i] + [steps[i]] == steps[..i + 1];
        data, t := data + more, Then(t, u);
      }
      assert steps[..|steps|] == steps;
      ReadsReturnBlocks(steps, Config());
      EveryByteIsLogged(steps, Config());
      ExecIsContiguous(steps, Config());
    }
  }
}
