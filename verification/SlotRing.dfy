/** The index discipline shared by the write and the read buffers of a channel:
    a fill index that is -1 while the ring is full and a drain index that is -1
    while it is empty. */
module SlotRing {
  import opened Words

  const MAX_NUM_BUFS: nat := 32

  /** How many buffers a channel gets that is to have `numbufs`. */
  function Capped(numbufs: int): (n: nat)
    ensures 2 <= n <= MAX_NUM_BUFS && (2 <= numbufs <= MAX_NUM_BUFS ==> n == numbufs)
  {
    if numbufs < 2 then 2 else if numbufs > MAX_NUM_BUFS then MAX_NUM_BUFS else numbufs
  }

  /** How much of a block a request of `count` bytes moves: linear samples take two bytes
      each. */
  function Amount(count: nat, blocksize: nat, linear: bool): nat {
    if linear then Min(count, 2 * blocksize) / 2 else Min(count, blocksize)
  }

  ghost predicate Indices(fill: int, drain: int, n: nat) {
    n >= 2 && -1 <= fill < n && -1 <= drain < n && fill != drain
  }

  function Filled(fill: int, drain: int, n: nat): (r: nat)
    requires Indices(fill, drain, n)
    ensures r <= n
    ensures r == n <==> fill < 0
    ensures r == 0 <==> drain < 0
  {
    if fill < 0 then n
    else if drain < 0 then 0
    else if drain < fill then fill - drain
    else n - drain + fill
  }

  ghost predicate Occupied(i: int, fill: int, drain: int, n: nat)
    requires Indices(fill, drain, n)
  {
    && 0 <= i < n && drain >= 0
    && (if drain <= i then i - drain else n - drain + i) < Filled(fill, drain, n)
  }

  /** The entries of the occupied slots, oldest first. */
  ghost function Contents<T>(slots: seq<T>, fill: int, drain: int): (r: seq<T>)
    requires Indices(fill, drain, |slots|)
    ensures |r| == Filled(fill, drain, |slots|)
  {
    if drain < 0 then [] else RingSlice(slots, drain, Filled(fill, drain, |slots|))
  }

  lemma FillFreesNothing(fill: int, drain: int, n: nat, fill': int, drain': int)
    requires Indices(fill, drain, n) && fill >= 0
    requires fill' == if (fill + 1) % n == drain then -1 else (fill + 1) % n
    requires drain' == if drain < 0 then fill else drain
    ensures Indices(fill', drain', n)
    ensures Filled(fill', drain', n) == Filled(fill, drain, n) + 1
    ensures RingAt(drain', Filled(fill, drain, n), n) == fill
    ensures !Occupied(fill, fill, drain, n)
    ensures forall i :: Occupied(i, fill', drain', n) <==> Occupied(i, fill, drain, n) || i == fill
  {
    RingNext(fill, n);
  }

  lemma ContentsFill<T>(slots: seq<T>, fill: int, drain: int, slots': seq<T>, fill': int, drain': int)
    requires |slots| == |slots'| && Indices(fill, drain, |slots|) && fill >= 0
    requires fill' == if (fill + 1) % |slots| == drain then -1 else (fill + 1) % |slots|
    requires drain' == if drain < 0 then fill else drain
    requires forall i :: Occupied(i, fill, drain, |slots|) ==> slots'[i] == slots[i]
    ensures Indices(fill', drain', |slots|)
    ensures Contents(slots', fill', drain') == Contents(slots, fill, drain) + [slots'[fill]]
  {
    var n := |slots|;
    FillFreesNothing(fill, drain, n, fill', drain');
    if drain >= 0 {
      forall i | 0 <= i < Filled(fill, drain, n)
        ensures Contents(slots', fill', drain')[i] == Contents(slots, fill, drain)[i]
      {
        assert Occupied(RingAt(drain, i, n), fill, drain, n);
      }
    }
  }

  lemma ReleaseFillsNothing(fill: int, drain: int, n: nat, fill': int, drain': int)
    requires Indices(fill, drain, n) && drain >= 0
    requires drain' == if (drain + 1) % n == fill then -1 else (drain + 1) % n
    requires fill' == if fill < 0 then drain else fill
    ensures Indices(fill', drain', n)
    ensures Filled(fill', drain', n) == Filled(fill, drain, n) - 1
    ensures Occupied(drain, fill, drain, n)
    ensures forall i :: Occupied(i, fill', drain', n) <==> Occupied(i, fill, drain, n) && i != drain
    ensures drain' >= 0 ==> forall i: nat :: i + 1 < n ==> RingAt(drain', i, n) == RingAt(drain, i + 1, n)
  {
    RingNext(drain, n);
  }

  /** The slots after the oldest are occupied and other slots. */
  lemma LaterSlot(fill: int, drain: int, n: nat, i: nat)
    requires Indices(fill, drain, n) && drain >= 0 && 1 <= i < Filled(fill, drain, n)
    ensures Occupied(RingAt(drain, i, n), fill, drain, n) && RingAt(drain, i, n) != drain
  {
  }

  lemma ReleasedAt<T>(slots: seq<T>, fill: int, drain: int, slots': seq<T>, fill': int, drain': int, i: nat)
    requires |slots| == |slots'| && Indices(fill, drain, |slots|) && drain >= 0
    requires Indices(fill', drain', |slots|) && drain' >= 0
    requires 1 <= i < Filled(fill, drain, |slots|) == Filled(fill', drain', |slots|) + 1
    requires RingAt(drain', i - 1, |slots|) == RingAt(drain, i, |slots|)
    requires slots'[RingAt(drain, i, |slots|)] == slots[RingAt(drain, i, |slots|)]
    ensures Contents(slots, fill, drain)[i] == Contents(slots', fill', drain')[i - 1]
  {
  }

  lemma ContentsRelease<T>(slots: seq<T>, fill: int, drain: int, slots': seq<T>, fill': int, drain': int)
    requires |slots| == |slots'| && Indices(fill, drain, |slots|) && drain >= 0
    requires drain' == if (drain + 1) % |slots| == fill then -1 else (drain + 1) % |slots|
    requires fill' == if fill < 0 then drain else fill
    requires forall i :: Occupied(i, fill, drain, |slots|) && i != drain ==> slots'[i] == slots[i]
    ensures Indices(fill', drain', |slots|)
    ensures Contents(slots, fill, drain) == [slots[drain]] + Contents(slots', fill', drain')
  {
    var n := |slots|;
    ReleaseFillsNothing(fill, drain, n, fill', drain');
    var before, after := Contents(slots, fill, drain), Contents(slots', fill', drain');
    forall i | 1 <= i < Filled(fill, drain, n)
      ensures before[i] == after[i - 1]
    {
      LaterSlot(fill, drain, n, i);
      assert RingAt(drain', i - 1, n) == RingAt(drain, i, n);
      ReleasedAt(slots, fill, drain, slots', fill', drain', i);
    }
    assert before == [slots[drain]] + after;
  }

  /** Changing a slot that is not occupied changes nothing. */
  lemma ContentsKept<T>(slots: seq<T>, slots': seq<T>, fill: int, drain: int)
    requires |slots| == |slots'| && Indices(fill, drain, |slots|)
    requires forall i :: Occupied(i, fill, drain, |slots|) ==> slots'[i] == slots[i]
    ensures Contents(slots', fill, drain) == Contents(slots, fill, drain)
  {
    var n := |slots|;
    if drain >= 0 {
      forall i | 0 <= i < Filled(fill, drain, n)
        ensures Contents(slots', fill, drain)[i] == Contents(slots, fill, drain)[i]
      {
        assert Occupied(RingAt(drain, i, n), fill, drain, n);
      }
    }
  }

  /** Replacing the oldest entry in place. */
  lemma ContentsFront<T>(slots: seq<T>, slots': seq<T>, fill: int, drain: int)
    requires |slots| == |slots'| && Indices(fill, drain, |slots|) && drain >= 0
    requires forall i :: Occupied(i, fill, drain, |slots|) && i != drain ==> slots'[i] == slots[i]
    ensures Contents(slots, fill, drain)[0] == slots[drain]
    ensures Contents(slots', fill, drain) == [slots'[drain]] + Contents(slots, fill, drain)[1..]
  {
    var n := |slots|;
    forall i | 1 <= i < Filled(fill, drain, n)
      ensures Contents(slots', fill, drain)[i] == Contents(slots, fill, drain)[i]
    {
      LaterSlot(fill, drain, n, i);
    }
  }
}
