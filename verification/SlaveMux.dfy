/** Channels that carry one data stream together: the chain of slaves of a master and
    the byte interleaving over it. */
module SlaveMux {
  import opened Arithmetic
  import opened Words

  class Chan {
    /** Position on the span, counted from 1. */
    const chanpos: nat
    var master: Chan?
    var nextslave: Chan?
    const readchunk: array<Byte>
    const writechunk: array<Byte>

    constructor (chanpos: nat, chunk: nat)
      ensures this.chanpos == chanpos && master == this && nextslave == null
      ensures readchunk.Length == chunk && writechunk.Length == chunk && fresh(readchunk) && fresh(writechunk)
    {
      this.chanpos := chanpos;
      readchunk := new Byte[chunk](_ => 0);
      writechunk := new Byte[chunk](_ => 0);
      nextslave := null;
      new;
      master := this;
    }
  }

  /** The channels of a span by position; `AllApart` says that no two are the same. */
  ghost predicate Numbered(chans: seq<Chan>) {
    forall i {:trigger chans[i].chanpos} :: 0 <= i < |chans| ==> chans[i].chanpos == i + 1
  }

  lemma AllApart(chans: seq<Chan>)
    requires Numbered(chans)
    ensures forall i, j :: 0 <= i < j < |chans| ==> chans[i] != chans[j]
  {
    forall i, j | 0 <= i < j < |chans| ensures chans[i] != chans[j] {
      assert chans[i].chanpos == i + 1 && chans[j].chanpos == j + 1;
    }
  }

  /** Each channel is linked to the next one. */
  ghost predicate InLine(chain: seq<Chan>)
    reads chain
  {
    forall k :: 0 <= k < |chain| - 1 ==> chain[k].nextslave == chain[k + 1]
  }

  /** The channels are linked one to the next and the last to nothing. */
  ghost predicate Linked(chain: seq<Chan>)
    reads chain
  {
    InLine(chain) && (|chain| > 0 ==> chain[|chain| - 1].nextslave == null)
  }

  method Append(last: Chan, c: Chan, ghost chain: seq<Chan>)
    requires InLine(chain) && |chain| > 0 && last == chain[|chain| - 1]
    requires forall k :: 0 <= k < |chain| - 1 ==> chain[k] != last
    modifies last`nextslave
    ensures InLine(chain + [c]) && last.nextslave == c
  {
    last.nextslave := c;
    assert (chain + [c])[|chain| - 1] == last;
  }

  /** Which channels name `m` as their master. */
  ghost function Named(m: Chan, chans: seq<Chan>): (r: seq<bool>)
    reads chans`master
    ensures |r| == |chans| && forall i :: 0 <= i < |chans| ==> r[i] == (chans[i].master == m)
    decreases |chans|
  {
    if chans == [] then [] else [chans[0].master == m] + Named(m, chans[1..])
  }

  /** The chosen channels at positions `from` up to `end`, in position order. */
  ghost function Chosen(chans: seq<Chan>, named: seq<bool>, from: nat, end: nat): (r: seq<Chan>)
    requires |named| == |chans| && from <= end <= |chans|
    ensures forall k :: 0 <= k < |r| ==> r[k] in chans[from..end]
    decreases end
  {
    if from == end then []
    else Chosen(chans, named, from, end - 1) + (if named[end - 1] then [chans[end - 1]] else [])
  }

  lemma {:induction false} ChosenAreThoseNamed(chans: seq<Chan>, named: seq<bool>, from: nat, end: nat, x: nat)
    requires |named| == |chans| && from <= end <= |chans| && x < |chans|
    requires forall i, j :: 0 <= i < j < |chans| ==> chans[i] != chans[j]
    ensures chans[x] in Chosen(chans, named, from, end) <==> from <= x < end && named[x]
    decreases end
  {
    if from < end {
      ChosenAreThoseNamed(chans, named, from, end - 1, x);
    }
  }

  /** A channel not seen before joins the chain: still no repetition. */
  lemma ChainGrows(chans: seq<Chan>, chain: seq<Chan>, x: nat)
    requires x < |chans| && (forall i, j :: 0 <= i < j < |chans| ==> chans[i] != chans[j])
    requires forall k :: 0 <= k < |chain| ==> chain[k] in chans[..x]
    ensures forall k :: 0 <= k < |chain| ==> (chain + [chans[x]])[k] != chans[x]
    ensures forall k :: 0 <= k < |chain| + 1 ==> (chain + [chans[x]])[k] in chans[..x + 1]
  {
  }

  lemma ChosenStep(head: seq<Chan>, chans: seq<Chan>, named: seq<bool>, start: nat, x: nat)
    requires |named| == |chans| && start <= x < |chans|
    ensures head + Chosen(chans, named, start, x + 1)
         == (head + Chosen(chans, named, start, x)) + (if named[x] then [chans[x]] else [])
  {
    if !named[x] {
      assert Chosen(chans, named, start, x) + [] == Chosen(chans, named, start, x);
    }
  }

  /** The chain so far: `chan` and its slaves before position `x`, `last` at the end. */
  ghost predicate LinkedUpTo(chan: Chan, chans: seq<Chan>, named: seq<bool>, x: nat, last: Chan, chain: seq<Chan>)
    requires |named| == |chans| && chan.chanpos <= x <= |chans|
    reads chain
  {
    && chain == [chan] + Chosen(chans, named, chan.chanpos, x)
    && last == chain[|chain| - 1] && InLine(chain)
    && (forall k :: 0 <= k < |chain| ==> chain[k] in chans[..x])
    && (forall k :: 0 <= k < |chain| - 1 ==> chain[k] != last)
  }

  /** One pass of the linking loop. */
  method LinkNext(chan: Chan, chans: seq<Chan>, ghost named: seq<bool>, x: nat, last: Chan, ghost chain: seq<Chan>)
    returns (next: Chan, ghost more: seq<Chan>)
    requires |named| == |chans| && 1 <= chan.chanpos <= x < |chans|
    requires Numbered(chans)
    requires named[x] == (chans[x].master == chan)
    requires LinkedUpTo(chan, chans, named, x, last, chain)
    modifies last`nextslave
    ensures LinkedUpTo(chan, chans, named, x + 1, next, more) && (next == last || next == chans[x])
    ensures next in more && forall c :: c in chain ==> c in more
  {
    AllApart(chans);
    ChainGrows(chans, chain, x);
    ChosenStep([chan], chans, named, chan.chanpos, x);
    if chans[x].master == chan {
      Append(last, chans[x], chain);
      next, more := chans[x], chain + [chans[x]];
    } else {
      assert chain + [] == chain;
      next, more := last, chain;
    }
  }

  /** The linking loop. */
  method LinkAll(chan: Chan, chans: seq<Chan>, ghost named: seq<bool>) returns (last: Chan, ghost chain: seq<Chan>)
    requires Numbered(chans)
    requires 1 <= chan.chanpos <= |chans| && chans[chan.chanpos - 1] == chan
    requires |named| == |chans| && forall i :: 0 <= i < |chans| ==> named[i] == (chans[i].master == chan)
    modifies chans`nextslave
    ensures LinkedUpTo(chan, chans, named, |chans|, last, chain) && last in chans
    ensures forall c :: c in chans && c !in chain ==> c.nextslave == old(c.nextslave)
  {
    last, chain := chan, [chan];
    var x := chan.chanpos;
    assert chans[..x][x - 1] == chan;
    assert LinkedUpTo(chan, chans, named, x, last, chain);
    while x < |chans|
      invariant chan.chanpos <= x <= |chans|
      invariant last in chans && last in chain && LinkedUpTo(chan, chans, named, x, last, chain)
      invariant forall c :: c in chans && c !in chain ==> c.nextslave == old(c.nextslave)
    {
      ghost var before := chain;
      last, chain := LinkNext(chan, chans, named, x, last, chain);
      assert forall c :: c in chans && c !in chain ==> c !in before;
      x := x + 1;
    }
  }

  /** Links the slaves of `chan`: afterwards following nextslave from `chan` visits
      exactly the later channels that name it as master, in order, and stops. The links
      of all other channels stay as they are. */
  method RecalcSlaves(chan: Chan, chans: seq<Chan>) returns (ghost chain: seq<Chan>)
    requires Numbered(chans)
    requires 1 <= chan.chanpos <= |chans| && chans[chan.chanpos - 1] == chan
    modifies chans`nextslave
    ensures chain == [chan] + Chosen(chans, old(Named(chan, chans)), chan.chanpos, |chans|) && Linked(chain)
    ensures forall c :: c in chans && c !in chain ==> c.nextslave == old(c.nextslave)
  {
    ghost var named := Named(chan, chans);
    var last;
    last, chain := LinkAll(chan, chans, named);
    Terminate(last, chain);
  }

  method Terminate(last: Chan, ghost chain: seq<Chan>)
    requires InLine(chain) && |chain| > 0 && last == chain[|chain| - 1]
    requires forall k :: 0 <= k < |chain| - 1 ==> chain[k] != last
    modifies last`nextslave
    ensures Linked(chain)
  {
    last.nextslave := null;
  }

  // ---------------------------------------------------------------- the stream

  /** Byte `t` of a stream of chunks of the master's own data. */
  function StreamByte(chunks: nat -> seq<Byte>, chunk: nat, t: nat): Byte
    requires chunk > 0
  {
    var data := chunks(t / chunk);
    if t % chunk < |data| then data[t % chunk] else 0
  }

  /** Slots filled from a stream of chunks carry exactly that stream, one byte each in turn. */
  ghost predicate Carries(slots: seq<seq<Byte>>, chunks: nat -> seq<Byte>, chunk: nat)
    requires chunk > 0
  {
    && |slots| > 0
    && (forall j :: 0 <= j < |slots| ==> |slots[j]| == chunk)
    && (forall i, j :: 0 <= j < |slots| && 0 <= i < chunk ==>
          slots[j][i] == StreamByte(chunks, chunk, At(i, j, |slots|)))
  }

  /** The chunks collected from the slots, one byte each in turn. */
  ghost predicate Collected(slots: seq<seq<Byte>>, out: seq<seq<Byte>>, chunk: nat)
    requires chunk > 0 && forall j :: 0 <= j < |slots| ==> |slots[j]| == chunk
  {
    && |out| == |slots| && (forall q :: 0 <= q < |out| ==> |out[q]| == chunk)
    && (forall i, j :: 0 <= j < |slots| && 0 <= i < chunk ==>
          && At(i, j, |slots|) / chunk < |out|
          && out[At(i, j, |slots|) / chunk][At(i, j, |slots|) % chunk] == slots[j][i])
  }

  lemma CollectedAt(slots: seq<seq<Byte>>, chunks: nat -> seq<Byte>, chunk: nat, out: seq<seq<Byte>>, q: nat, r: nat)
    requires chunk > 0 && (forall k: nat :: |chunks(k)| == chunk) && q < |slots| && r < chunk
    requires Carries(slots, chunks, chunk) && Collected(slots, out, chunk)
    ensures out[q][r] == chunks(q)[r]
  {
    var n, t := |slots|, At(q, r, chunk);
    AtBound(q, r, chunk, n);
    TimesCommutes(n, chunk);
    RowBound(t, n, chunk);
    RowAndPosition(t, n);
    DivMod(q, r, chunk);
    var i, j := t / n, t % n;
    assert slots[j][i] == StreamByte(chunks, chunk, At(i, j, n));
    assert out[At(i, j, n) / chunk][At(i, j, n) % chunk] == slots[j][i];
  }

  /** Collecting from slots that carry a stream gives back its chunks. */
  lemma ReceiveUndoesTransmit(slots: seq<seq<Byte>>, chunks: nat -> seq<Byte>, chunk: nat, out: seq<seq<Byte>>)
    requires chunk > 0 && forall q: nat :: |chunks(q)| == chunk
    requires Carries(slots, chunks, chunk) && Collected(slots, out, chunk)
    ensures forall q :: 0 <= q < |slots| ==> out[q] == chunks(q)
  {
    forall q, r | 0 <= q < |slots| && 0 <= r < chunk
      ensures out[q][r] == chunks(q)[r]
    {
      CollectedAt(slots, chunks, chunk, out, q, r);
    }
  }

  ghost predicate Chain(chain: seq<Chan>, chunk: nat)
    reads chain
  {
    && chunk > 0 && |chain| > 0 && Linked(chain)
    && (forall k :: 0 <= k < |chain| ==> chain[k].readchunk.Length == chain[k].writechunk.Length == chunk)
    && (forall j, k :: 0 <= j < k < |chain| ==> chain[j] != chain[k] && chain[j].writechunk != chain[k].writechunk)
    && (forall j, k :: 0 <= j < k < |chain| ==> chain[j].readchunk != chain[k].readchunk)
    && (forall j, k :: 0 <= j < |chain| && 0 <= k < |chain| ==> chain[j].writechunk != chain[k].readchunk)
  }

  /** The state inside the transmit loops: position `pos` of the newest of `used` chunks. */
  ghost predicate Sending(chunks: nat -> seq<Byte>, chunk: nat, used: nat, data: seq<Byte>, pos: nat, t: nat) {
    && pos <= chunk && Times(used, chunk) + pos == chunk + t
    && (t > 0 ==> pos > 0) && (used > 0 ==> data == chunks(used - 1))
  }

  /** The next byte of the master's data, from a new chunk if the last one is used up. */
  method NextByte(chunk: nat, chunks: nat -> seq<Byte>, used0: nat, data0: seq<Byte>, pos0: nat, ghost t: nat)
    returns (used: nat, data: seq<Byte>, pos: nat, byte: Byte)
    requires chunk > 0 && (forall q: nat :: |chunks(q)| == chunk) && Sending(chunks, chunk, used0, data0, pos0, t)
    ensures Sending(chunks, chunk, used, data, pos, t + 1) && byte == StreamByte(chunks, chunk, t)
  {
    used, data, pos := used0, data0, pos0;
    if pos == chunk {
      data := chunks(used);
      used := used + 1;
      pos := 0;
    }
    DivMod(used - 1, pos, chunk);
    byte := data[pos];
    pos := pos + 1;
  }

  /** The bytes of sample `i` for all channels of the chain. */
  method TransmitSample(chan: Chan, ghost chain: seq<Chan>, chunk: nat, chunks: nat -> seq<Byte>, i: nat,
                        used0: nat, data0: seq<Byte>, pos0: nat)
    returns (used: nat, data: seq<Byte>, pos: nat)
    requires Chain(chain, chunk) && chain[0] == chan && i < chunk && forall q: nat :: |chunks(q)| == chunk
    requires Sending(chunks, chunk, used0, data0, pos0, At(i, 0, |chain|))
    modifies set c | c in chain :: c.writechunk
    ensures Sending(chunks, chunk, used, data, pos, At(i, |chain|, |chain|))
    ensures forall b :: 0 <= b < |chain| ==> chain[b].writechunk[i] == StreamByte(chunks, chunk, At(i, b, |chain|))
    ensures forall a, b :: 0 <= a < chunk && 0 <= b < |chain| && a != i ==>
      chain[b].writechunk[a] == old(chain[b].writechunk[a])
  {
    used, data, pos := used0, data0, pos0;
    var slave: Chan? := chan;
    ghost var j := 0;
    while slave != null
      invariant 0 <= j <= |chain| && slave == if j < |chain| then chain[j] else null
      invariant Sending(chunks, chunk, used, data, pos, At(i, j, |chain|))
      invariant forall b :: 0 <= b < j ==> chain[b].writechunk[i] == StreamByte(chunks, chunk, At(i, b, |chain|))
      invariant forall a, b :: 0 <= a < chunk && 0 <= b < |chain| && a != i ==>
        chain[b].writechunk[a] == old(chain[b].writechunk[a])
      decreases |chain| - j
    {
      var byte;
      used, data, pos, byte := NextByte(chunk, chunks, used, data, pos, At(i, j, |chain|));
      assert forall b :: 0 <= b < j ==> chain[b].writechunk != slave.writechunk;
      slave.writechunk[i] := byte;
      slave := slave.nextslave;
      j := j + 1;
    }
  }

  /** One transmit tick of a chain: `chunks(q)` is what the master transmits on its
      `q`-th request. The chain uses up exactly as many chunks as it has channels. */
  method TransmitToSlaves(chan: Chan, ghost chain: seq<Chan>, chunk: nat, chunks: nat -> seq<Byte>) returns (used: nat)
    requires Chain(chain, chunk) && chain[0] == chan && forall q: nat :: |chunks(q)| == chunk
    modifies set c | c in chain :: c.writechunk
    ensures Chain(chain, chunk) && used == |chain|
    ensures forall i, j :: 0 <= j < |chain| && 0 <= i < chunk ==>
      chain[j].writechunk[i] == StreamByte(chunks, chunk, At(i, j, |chain|))
  {
    used := 0;
    var data: seq<Byte> := [];
    var pos := chunk;
    for i := 0 to chunk
      invariant Sending(chunks, chunk, used, data, pos, At(i, 0, |chain|))
      invariant forall a, b :: 0 <= a < i && 0 <= b < |chain| ==>
        chain[b].writechunk[a] == StreamByte(chunks, chunk, At(a, b, |chain|))
    {
      used, data, pos := TransmitSample(chan, chain, chunk, chunks, i, used, data, pos);
    }
    TimesCommutes(|chain|, chunk);
    AtBound(chunk - 1, |chain| - 1, |chain|, chunk);
    AtIsUnique(used - 1, pos - 1, |chain| - 1, chunk - 1, chunk);
  }

  /** One receive tick of a chain: the chunks handed to the master, in order, with
      nothing carried over. */
  method ReceiveFromSlaves(chan: Chan, ghost chain: seq<Chan>, chunk: nat) returns (out: seq<seq<Byte>>)
    requires Chain(chain, chunk) && chain[0] == chan
    ensures |out| == |chain|
    ensures forall q :: 0 <= q < |out| ==> |out[q]| == chunk
    ensures forall i, j :: 0 <= j < |chain| && 0 <= i < chunk ==>
      && At(i, j, |chain|) / chunk < |out|
      && out[At(i, j, |chain|) / chunk][At(i, j, |chain|) % chunk] == chain[j].readchunk[i]
  {
    ghost var n := |chain|;
    out := [];
    var data: seq<Byte> := [];
    for i := 0 to chunk
      invariant |data| < chunk && Times(|out|, chunk) + |data| == At(i, 0, n)
      invariant forall q :: 0 <= q < |out| ==> |out[q]| == chunk
      invariant forall a, b :: 0 <= a < i && 0 <= b < n ==> ByteIs(out, data, chunk, At(a, b, n), chain[b].readchunk[a])
    {
      var slave: Chan? := chan;
      ghost var j := 0;
      while slave != null
        invariant 0 <= j <= n && slave == if j < n then chain[j] else null
        invariant |data| < chunk && Times(|out|, chunk) + |data| == At(i, j, n)
        invariant forall q :: 0 <= q < |out| ==> |out[q]| == chunk
        invariant forall a, b :: 0 <= a < i && 0 <= b < n ==> ByteIs(out, data, chunk, At(a, b, n), chain[b].readchunk[a])
        invariant forall b :: 0 <= b < j ==> ByteIs(out, data, chunk, At(i, b, n), chain[b].readchunk[i])
        decreases n - j
      {
        DivMod(|out|, |data|, chunk);
        data := data + [slave.readchunk[i]];
        if |data| == chunk {
          out := out + [data];
          data := [];
        }
        slave := slave.nextslave;
        j := j + 1;
      }
    }
    TimesCommutes(n, chunk);
    AtIsUnique(|out|, |data|, n, 0, chunk);
    forall i, j | 0 <= j < n && 0 <= i < chunk
      ensures At(i, j, n) / chunk < |out|
    {
      AtBound(i, j, n, chunk);
      RowBound(At(i, j, n), chunk, n);
      assert ByteIs(out, data, chunk, At(i, j, n), chain[j].readchunk[i]);
    }
  }

  /** Byte `t` of the data collected so far. */
  ghost predicate ByteIs(out: seq<seq<Byte>>, data: seq<Byte>, chunk: nat, t: nat, b: Byte)
    requires chunk > 0 && forall q :: 0 <= q < |out| ==> |out[q]| == chunk
  {
    var q, r := t / chunk, t % chunk;
    if q < |out| then out[q][r] == b else q == |out| && r < |data| && data[r] == b
  }

  /** What the channels of a chain have received. */
  ghost function Slots(chain: seq<Chan>): (r: seq<seq<Byte>>)
    reads set c | c in chain :: c.readchunk
    ensures |r| == |chain| && forall j :: 0 <= j < |r| ==> r[j] == chain[j].readchunk[..]
    decreases |chain|
  {
    if chain == [] then [] else [chain[0].readchunk[..]] + Slots(chain[1..])
  }

  /** The far end loops the line back: the master receives exactly what it sent. */
  method Loopback(chan: Chan, ghost chain: seq<Chan>, chunk: nat, chunks: nat -> seq<Byte>) returns (out: seq<seq<Byte>>)
    requires Chain(chain, chunk) && chain[0] == chan && forall q: nat :: |chunks(q)| == chunk
    modifies (set c | c in chain :: c.writechunk) + (set c | c in chain :: c.readchunk)
    ensures |out| == |chain| && forall q :: 0 <= q < |chain| ==> out[q] == chunks(q)
  {
    var used := TransmitToSlaves(chan, chain, chunk, chunks);
    LoopLine(chan, chain, chunk);
    ghost var slots := Slots(chain);
    assert Carries(slots, chunks, chunk);
    out := ReceiveFromSlaves(chan, chain, chunk);
    assert Collected(slots, out, chunk);
    ReceiveUndoesTransmit(slots, chunks, chunk, out);
  }

  method LoopSlot(slave: Chan)
    requires slave.readchunk.Length == slave.writechunk.Length && slave.readchunk != slave.writechunk
    modifies slave.readchunk
    ensures slave.readchunk[..] == slave.writechunk[..]
  {
    for i := 0 to slave.readchunk.Length
      invariant slave.readchunk[..i] == slave.writechunk[..i]
    {
      slave.readchunk[i] := slave.writechunk[i];
    }
  }

  /** What was written to each time slot is read from it. */
  method LoopLine(chan: Chan, ghost chain: seq<Chan>, chunk: nat)
    requires Chain(chain, chunk) && chain[0] == chan
    modifies set c | c in chain :: c.readchunk
    ensures Chain(chain, chunk)
    ensures forall j :: 0 <= j < |chain| ==> chain[j].readchunk[..] == chain[j].writechunk[..]
  {
    var slave: Chan? := chan;
    ghost var j := 0;
    while slave != null
      invariant 0 <= j <= |chain| && slave == if j < |chain| then chain[j] else null
      invariant forall b :: 0 <= b < j ==> chain[b].readchunk[..] == chain[b].writechunk[..]
      decreases |chain| - j
    {
      LoopSlot(slave);
      assert forall b :: 0 <= b < j ==> chain[b].readchunk != slave.readchunk;
      slave := slave.nextslave;
      j := j + 1;
    }
  }
}
