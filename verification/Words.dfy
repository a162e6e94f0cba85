/** Machine words and small helpers shared by the other modules. */
module Words {

  type Byte = x: int | 0 <= x < 256

  ghost predicate Short(x: int) {
    -32768 <= x <= 32767
  }

  /** All values fit in 16 bits. */
  ghost predicate Shorts(s: seq<int>) {
    forall i :: 0 <= i < |s| ==> Short(s[i])
  }

  function Min(a: int, b: int): int {
    if a <= b then a else b
  }

  function Abs(a: int): nat {
    if a < 0 then -a else a
  }

  /** All blocks of a list, one after the other. */
  function Flatten<T>(blocks: seq<seq<T>>): seq<T> {
    if blocks == [] then [] else blocks[0] + Flatten(blocks[1..])
  }

  lemma {:induction false} FlattenConcat<T>(a: seq<seq<T>>, b: seq<seq<T>>)
    ensures Flatten(a + b) == Flatten(a) + Flatten(b)
  {
    if a == [] {
      assert a + b == b;
    } else {
      assert (a + b)[1..] == a[1..] + b;
      FlattenConcat(a[1..], b);
    }
  }

  lemma ConcatAssoc<T>(a: seq<T>, b: seq<T>, c: seq<T>)
    ensures (a + b) + c == a + (b + c)
  {
  }

  lemma FlattenCons<T>(a: seq<T>, rest: seq<seq<T>>)
    ensures Flatten([a] + rest) == a + Flatten(rest)
  {
    assert ([a] + rest)[1..] == rest;
  }

  lemma FlattenOne<T>(a: seq<T>)
    ensures Flatten([a]) == a
  {
    assert Flatten([a]) == a + Flatten<T>([]);
  }

  /** Slot `i` places after `start` in a ring of `n` slots. */
  function RingAt(start: nat, i: nat, n: nat): nat {
    if start + i < n then start + i else start + i - n
  }

  /** The ring increment `(i + 1) % n` without the division. */
  lemma RingNext(i: nat, n: nat)
    requires i < n
    ensures (i + 1) % n == if i + 1 == n then 0 else i + 1
  {
    if i + 1 < n {
      assert (i + 1) % n == i + 1;
    }
  }

  /** The `k` consecutive ring entries from `start` on. */
  function RingSlice<T>(ring: seq<T>, start: nat, k: nat): (r: seq<T>)
    requires start < |ring| && k <= |ring|
    ensures |r| == k
  {
    seq(k, i requires 0 <= i < k => ring[RingAt(start, i, |ring|)])
  }

  lemma InsertedAt<T>(s: seq<T>, k: nat, x: T)
    requires k <= |s|
    ensures var r := s[..k] + [x] + s[k..];
            |r| == |s| + 1 && forall i :: 0 <= i < |r| ==> r[i] == if i < k then s[i] else if i == k then x else s[i - 1]
  {
  }

  lemma RemovedAt<T>(s: seq<T>, k: nat)
    requires k < |s|
    ensures var r := s[..k] + s[k + 1..];
            |r| == |s| - 1 && forall i :: 0 <= i < |r| ==> r[i] == if i < k then s[i] else s[i + 1]
  {
  }

  function First<T>(s: seq<T>, n: nat): seq<T> {
    s[..Min(n, |s|)]
  }

  lemma PrefixGrows<T>(s: seq<T>, k: nat)
    requires k < |s|
    ensures s[..k] + [s[k]] == s[..k + 1]
  {
  }
}
