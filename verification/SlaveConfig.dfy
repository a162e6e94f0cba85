/** The run of channel configuration requests that make channels of one span slaves of
    others and their own masters again. */
module SlaveConfig {
  import opened SlaveMux

  /** The master of each channel and the channel its chain goes on with, -1 for none. */
  datatype Links = Links(master: seq<nat>, next: seq<int>)

  ghost predicate Shaped(l: Links) {
    && |l.master| == |l.next|
    && (forall x :: 0 <= x < |l.master| ==> l.master[x] < |l.master| && -1 <= l.next[x] < |l.next|)
  }

  /** The channels from `from` up to `end` that name `m`. */
  function Slaves(master: seq<nat>, m: nat, from: nat, end: nat): (r: seq<nat>)
    requires from <= end <= |master|
    ensures forall x {:trigger x in r} :: x in r <==> from <= x < end && master[x] == m
    decreases end
  {
    if from == end then []
    else Slaves(master, m, from, end - 1) + (if master[end - 1] == m then [end - 1] else [])
  }

  ghost predicate Ascends(s: seq<nat>) {
    forall j, k :: 0 <= j < k < |s| ==> s[j] < s[k]
  }

  lemma {:induction false} SlavesAscend(master: seq<nat>, m: nat, from: nat, end: nat)
    requires from <= end <= |master|
    ensures Ascends(Slaves(master, m, from, end))
    decreases end
  {
    if from < end {
      SlavesAscend(master, m, from, end - 1);
      var before := Slaves(master, m, from, end - 1);
      assert forall k :: 0 <= k < |before| ==> before[k] in before;
    }
  }

  /** A master and the later channels that name it. */
  function ChainOf(master: seq<nat>, m: nat): (r: seq<nat>)
    requires m < |master|
    ensures |r| >= 1 && r[0] == m
    ensures forall x {:trigger x in r} :: x in r <==> x == m || (m < x < |master| && master[x] == m)
  {
    [m] + Slaves(master, m, m + 1, |master|)
  }

  lemma ChainAscends(master: seq<nat>, m: nat)
    requires m < |master|
    ensures Ascends(ChainOf(master, m)) && forall k :: 0 <= k < |ChainOf(master, m)| ==> ChainOf(master, m)[k] < |master|
  {
    SlavesAscend(master, m, m + 1, |master|);
    var slaves, chain := Slaves(master, m, m + 1, |master|), ChainOf(master, m);
    assert forall k :: 0 <= k < |slaves| ==> slaves[k] in slaves;
    assert forall k :: 0 <= k < |chain| ==> chain[k] in chain;
  }

  /** The channels are linked one to the next and the last to nothing. */
  ghost predicate InChain(next: seq<int>, chain: seq<nat>) {
    && (forall k :: 0 <= k < |chain| ==> chain[k] < |next|)
    && (forall k {:trigger next[chain[k]]} :: 0 <= k < |chain| - 1 ==> next[chain[k]] == chain[k + 1])
    && (|chain| > 0 ==> next[chain[|chain| - 1]] == -1)
  }

  /** The links with those of a chain set. */
  ghost function Chained(next: seq<int>, chain: seq<nat>): (r: seq<int>)
    requires forall k :: 0 <= k < |chain| ==> chain[k] < |next|
    requires Ascends(chain)
    ensures |r| == |next| && InChain(r, chain)
    ensures forall x :: 0 <= x < |r| && x !in chain ==> r[x] == next[x]
    decreases |chain|
  {
    if chain == [] then next
    else if |chain| == 1 then next[chain[0] := -1]
    else
      var r := Chained(next, chain[1..]);
      assert chain[0] !in chain[1..];
      r[chain[0] := chain[1]]
  }

  /** recalc_slaves. */
  ghost function Recalc(l: Links, m: nat): (r: Links)
    requires Shaped(l) && m < |l.master|
    ensures r.master == l.master && |r.next| == |l.next| && InChain(r.next, ChainOf(l.master, m))
    ensures forall x :: 0 <= x < |r.next| && x !in ChainOf(l.master, m) ==> r.next[x] == l.next[x]
    ensures Shaped(r)
  {
    ChainAscends(l.master, m);
    var next := Chained(l.next, ChainOf(l.master, m));
    ChainShape(l.next, next, ChainOf(l.master, m));
    l.(next := next)
  }

  lemma ChainShape(next: seq<int>, next': seq<int>, chain: seq<nat>)
    requires |next| == |next'| && InChain(next', chain)
    requires forall x :: 0 <= x < |next| ==> -1 <= next[x] < |next|
    requires forall x :: 0 <= x < |next'| && x !in chain ==> next'[x] == next[x]
    ensures forall x :: 0 <= x < |next'| ==> -1 <= next'[x] < |next'|
  {
    forall x | 0 <= x < |next'| ensures -1 <= next'[x] < |next'| {
      if x in chain {
        var k :| 0 <= k < |chain| && chain[k] == x;
        assert k < |chain| - 1 ==> next'[x] == chain[k + 1] < |next|;
      }
    }
  }

  /** Channel `i` leaves its master, if it has another than itself. */
  ghost function Freed(l: Links, i: nat): (r: Links)
    requires Shaped(l) && i < |l.master|
    ensures Shaped(r) && r.master == l.master[i := i]
  {
    if l.master[i] == i then l else Recalc(Links(l.master[i := i], l.next[i := -1]), l.master[i])
  }

  /** DAHDI_CHANCONFIG for channel `i` and a new master; `ok` says that the channel can do
      what is asked of it. */
  ghost function Config(l: Links, i: nat, m: nat, ok: bool): (r: Links)
    requires Shaped(l) && i < |l.master| && m < |l.master|
    ensures Shaped(r) && r.master == l.master[i := if ok then m else i]
  {
    var f := Freed(l, i);
    if !ok then f
    else
      var g := f.(master := f.master[i := m]);
      if m == i then g else Recalc(g, m)
  }

  // ---------------------------------------------------------- chains that are right

  ghost predicate Right(l: Links, m: nat)
    requires Shaped(l) && m < |l.master|
  {
    InChain(l.next, ChainOf(l.master, m))
  }

  /** Following the links from a master visits exactly the later channels that name it. */
  ghost predicate AllRight(l: Links)
    requires Shaped(l)
  {
    forall m: nat :: m < |l.master| && l.master[m] == m ==> Right(l, m)
  }

  /** Every master is its own. */
  ghost predicate Flat(l: Links)
    requires Shaped(l)
  {
    forall x :: 0 <= x < |l.master| ==> l.master[l.master[x]] == l.master[x]
  }

  /** A later channel names `i`. */
  ghost predicate HasSlaves(master: seq<nat>, i: nat) {
    exists x :: i < x < |master| && master[x] == i
  }

  lemma {:induction false} SameSlaves(a: seq<nat>, b: seq<nat>, m: nat, from: nat, end: nat)
    requires |a| == |b| && from <= end <= |a| && forall x :: from <= x < end ==> (a[x] == m <==> b[x] == m)
    ensures Slaves(a, m, from, end) == Slaves(b, m, from, end)
    decreases end
  {
    if from < end {
      SameSlaves(a, b, m, from, end - 1);
    }
  }

  /** A chain with the same channels and links is right as it was. */
  lemma ChainStays(l: Links, r: Links, m: nat)
    requires Shaped(l) && Shaped(r) && |l.master| == |r.master| && m < |l.master|
    requires forall x :: m < x < |l.master| ==> (l.master[x] == m <==> r.master[x] == m)
    requires forall x :: x in ChainOf(l.master, m) ==> l.next[x] == r.next[x]
    ensures Right(l, m) <==> Right(r, m)
  {
    SameSlaves(l.master, r.master, m, m + 1, |l.master|);
    assert ChainOf(l.master, m) == ChainOf(r.master, m);
  }

  lemma NoSlaves(master: seq<nat>, i: nat)
    requires i < |master|
    ensures |ChainOf(master, i)| == 1 <==> !HasSlaves(master, i)
  {
    var r := ChainOf(master, i);
    if HasSlaves(master, i) {
      var x :| i < x < |master| && master[x] == i;
      assert x in r;
    } else if |r| > 1 {
      ChainAscends(master, i);
      assert r[1] in r && r[0] < r[1];
      assert HasSlaves(master, i);
    }
  }

  lemma EndsAtOnce(l: Links, i: nat)
    requires Shaped(l) && i < |l.master| && l.next[i] == -1
    ensures Right(l, i) <==> !HasSlaves(l.master, i)
  {
    var chain := ChainOf(l.master, i);
    NoSlaves(l.master, i);
    if |chain| > 1 {
      assert l.next[chain[0]] != chain[1];
    }
  }

  /** The chain of a master that `i` leaves alone. */
  lemma OtherOfFreed(l: Links, i: nat, m: nat)
    requires Shaped(l) && i < |l.master| && m < |l.master| && l.master[m] == m && m != i
    requires l.master[i] != i && l.master[i] != m && l.master[l.master[i]] == l.master[i]
    ensures Right(Freed(l, i), m) <==> Right(l, m)
  {
    var f, g := Freed(l, i), Links(l.master[i := i], l.next[i := -1]);
    forall x | x in ChainOf(l.master, m) ensures f.next[x] == l.next[x] {
      assert x !in ChainOf(g.master, l.master[i]);
    }
    ChainStays(l, f, m);
  }

  /** A channel that becomes its own master leaves all chains right exactly if no later
      channel names it. */
  lemma FreedIsExact(l: Links, i: nat)
    requires Shaped(l) && i < |l.master| && AllRight(l)
    requires l.master[i] != i && l.master[l.master[i]] == l.master[i]
    ensures AllRight(Freed(l, i)) <==> !HasSlaves(l.master, i)
  {
    var o, f := l.master[i], Freed(l, i);
    assert Right(f, o);
    forall m: nat | m < |l.master| && f.master[m] == m && m != i && m != o ensures Right(f, m) {
      assert l.master[m] == m;
      OtherOfFreed(l, i, m);
    }
    assert i !in ChainOf(f.master, o) && f.next[i] == -1;
    EndsAtOnce(f, i);
    assert HasSlaves(f.master, i) <==> HasSlaves(l.master, i) by {
      assert forall x :: i < x < |l.master| ==> f.master[x] == l.master[x];
    }
    assert AllRight(f) <==> Right(f, i);
  }

  /** The chain of a master that `i` does not join. */
  lemma OtherOfAdded(f: Links, i: nat, m: nat, o: nat)
    requires Shaped(f) && i < |f.master| && m < |f.master| && o < |f.master| && m != i && o != m && o != i
    requires f.master[i] == i && f.master[m] == m && f.master[o] == o
    ensures Right(Recalc(f.(master := f.master[i := m]), m), o) <==> Right(f, o)
  {
    var g := f.(master := f.master[i := m]);
    var r := Recalc(g, m);
    forall x | x in ChainOf(f.master, o) ensures r.next[x] == f.next[x] {
      assert x !in ChainOf(g.master, m);
    }
    ChainStays(f, r, o);
  }

  /** A slave is added to a master that is its own. */
  lemma AddedIsRight(f: Links, i: nat, m: nat)
    requires Shaped(f) && AllRight(f) && i < |f.master| && m < |f.master| && m != i
    requires f.master[i] == i && f.master[m] == m
    ensures AllRight(Recalc(f.(master := f.master[i := m]), m))
  {
    var r := Recalc(f.(master := f.master[i := m]), m);
    forall o: nat | o < |f.master| && r.master[o] == o && o != m ensures Right(r, o) {
      assert f.master[o] == o && o != i;
      OtherOfAdded(f, i, m, o);
    }
  }

  // ---------------------------------------------------------- requests

  datatype Request = Request(i: nat, m: nat, ok: bool)

  ghost predicate OfSpan(q: Request, n: nat) {
    q.i < n && q.m < n
  }

  ghost function Do(l: Links, q: Request): (r: Links)
    requires Shaped(l) && OfSpan(q, |l.master|)
    ensures Shaped(r) && |r.master| == |l.master|
  {
    Config(l, q.i, q.m, q.ok)
  }

  /** A channel becomes a slave only of one that is its own master and only if no other
      channel is its slave. */
  ghost predicate Proper(l: Links, q: Request)
    requires Shaped(l) && OfSpan(q, |l.master|)
  {
    q.ok && q.m != q.i ==>
      l.master[q.m] == q.m && forall x :: 0 <= x < |l.master| && x != q.i ==> l.master[x] != q.i
  }

  lemma FlatStep(l: Links, q: Request)
    requires Shaped(l) && Flat(l) && OfSpan(q, |l.master|)
    ensures Flat(Do(l, q)) <==> Proper(l, q)
  {
    var r := Do(l, q).master;
    if q.ok && q.m != q.i {
      if Flat(Do(l, q)) {
        assert r[r[q.i]] == r[q.i];
        forall x | 0 <= x < |r| && x != q.i ensures l.master[x] != q.i {
          assert r[r[x]] == r[x];
        }
      }
      if Proper(l, q) {
        forall x | 0 <= x < |r| ensures r[r[x]] == r[x] {
          assert l.master[l.master[x]] == l.master[x];
        }
      }
    } else {
      forall x | 0 <= x < |r| ensures r[r[x]] == r[x] {
        assert l.master[l.master[x]] == l.master[x];
      }
    }
  }

  /** A proper request leaves every chain right. */
  lemma ProperIsRight(l: Links, q: Request)
    requires Shaped(l) && Flat(l) && AllRight(l) && OfSpan(q, |l.master|) && Proper(l, q)
    ensures AllRight(Do(l, q))
  {
    var f := Freed(l, q.i);
    if l.master[q.i] != q.i {
      FreedIsExact(l, q.i);
      forall x | q.i < x < |l.master| ensures l.master[x] != q.i {
        assert l.master[l.master[x]] == l.master[x];
      }
    }
    assert AllRight(f);
    if q.ok {
      if q.m == q.i {
        assert f.master[q.i := q.i] == f.master;
      } else {
        AddedIsRight(f, q.i, q.m);
      }
    }
  }

  ghost function After(l: Links, requests: seq<Request>): (r: Links)
    requires Shaped(l) && forall k :: 0 <= k < |requests| ==> OfSpan(requests[k], |l.master|)
    ensures Shaped(r) && |r.master| == |l.master|
    decreases |requests|
  {
    if requests == [] then l
    else Do(After(l, requests[..|requests| - 1]), requests[|requests| - 1])
  }

  ghost predicate AllProper(l: Links, requests: seq<Request>)
    requires Shaped(l) && forall k :: 0 <= k < |requests| ==> OfSpan(requests[k], |l.master|)
    decreases |requests|
  {
    var n := |requests|;
    n == 0 || (AllProper(l, requests[..n - 1]) && Proper(After(l, requests[..n - 1]), requests[n - 1]))
  }

  ghost predicate AlwaysFlat(l: Links, requests: seq<Request>)
    requires Shaped(l) && forall k :: 0 <= k < |requests| ==> OfSpan(requests[k], |l.master|)
    decreases |requests|
  {
    Flat(After(l, requests)) && (requests == [] || AlwaysFlat(l, requests[..|requests| - 1]))
  }

  /** Over every run, every master is its own throughout if and only if every request is
      proper, and then the chains of all masters are right. */
  lemma {:induction false} RunIsRight(l: Links, requests: seq<Request>)
    requires Shaped(l) && Flat(l) && AllRight(l)
    requires forall k :: 0 <= k < |requests| ==> OfSpan(requests[k], |l.master|)
    ensures AlwaysFlat(l, requests) <==> AllProper(l, requests)
    ensures AllProper(l, requests) ==> AllRight(After(l, requests)) && Flat(After(l, requests))
    decreases |requests|
  {
    var n := |requests|;
    if n > 0 {
      RunIsRight(l, requests[..n - 1]);
      var t := After(l, requests[..n - 1]);
      if AllProper(l, requests[..n - 1]) {
        FlatStep(t, requests[n - 1]);
        if Proper(t, requests[n - 1]) {
          ProperIsRight(t, requests[n - 1]);
        }
      }
    }
  }

  lemma FreedEnds(l: Links, i: nat)
    requires Shaped(l) && i < |l.master| && l.master[i] != i
    ensures Freed(l, i).next[i] == -1
  {
    assert i !in ChainOf(l.master[i := i], l.master[i]);
  }

  lemma MadeSlave(l: Links, i: nat, m: nat)
    requires Shaped(l) && AllRight(l) && i < |l.master| && m < |l.master| && m != i
    requires l.master[i] == i && l.master[m] == m && HasSlaves(l.master, i)
    ensures var r := Do(l, Request(i, m, true));
            AllRight(r) && HasSlaves(r.master, i) && r.master == l.master[i := m]
  {
    var r := Do(l, Request(i, m, true));
    AddedIsRight(l, i, m);
    var x :| i < x < |l.master| && l.master[x] == i;
    assert r.master[x] == i;
  }

  /** A master with slaves that becomes a slave and then its own master again leaves its
      slaves out of every chain: nothing links them again. */
  lemma SlavesAreOrphaned(l: Links, i: nat, m: nat)
    requires Shaped(l) && AllRight(l) && i < |l.master| && m < |l.master| && m != i
    requires l.master[i] == i && l.master[m] == m && HasSlaves(l.master, i)
    ensures var t := Do(Do(l, Request(i, m, true)), Request(i, i, true));
            t.master == l.master && t.next[i] == -1 && !AllRight(t)
  {
    var r := Do(l, Request(i, m, true));
    MadeSlave(l, i, m);
    FreedIsExact(r, i);
    FreedEnds(r, i);
    assert Freed(r, i).master[i := i] == Freed(r, i).master == l.master;
  }

  // ---------------------------------------------------------- the channels

  /** The channels of one span, by position, are linked as `l` says. */
  ghost predicate Shows(chans: seq<Chan>, l: Links)
    reads chans
  {
    && |l.master| == |chans| && Shaped(l)
    && (forall i {:trigger chans[i].chanpos} :: 0 <= i < |chans| ==> chans[i].chanpos == i + 1)
    && (forall i {:trigger chans[i].master} :: 0 <= i < |chans| ==> chans[i].master == chans[l.master[i]])
    && forall i {:trigger chans[i].nextslave} :: 0 <= i < |chans| ==>
      chans[i].nextslave == if l.next[i] == -1 then null else chans[l.next[i]]
  }

  /** The channels of a chain. */
  ghost predicate ChainShown(chans: seq<Chan>, shown: seq<Chan>, chain: seq<nat>) {
    && |shown| == |chain|
    && forall k {:trigger shown[k]} :: 0 <= k < |chain| ==> chain[k] < |chans| && shown[k] == chans[chain[k]]
  }

  lemma {:induction false} ChosenAreSlaves(chans: seq<Chan>, named: seq<bool>, master: seq<nat>, m: nat, from: nat, end: nat)
    requires |chans| == |named| == |master| && from <= end <= |chans|
    requires forall i :: 0 <= i < |chans| ==> named[i] == (master[i] == m)
    ensures ChainShown(chans, Chosen(chans, named, from, end), Slaves(master, m, from, end))
    decreases end
  {
    if from < end {
      ChosenAreSlaves(chans, named, master, m, from, end - 1);
      OneMoreShown(chans, Chosen(chans, named, from, end - 1), Slaves(master, m, from, end - 1), end - 1);
    }
  }

  lemma OneMoreShown(chans: seq<Chan>, shown: seq<Chan>, chain: seq<nat>, x: nat)
    requires ChainShown(chans, shown, chain) && x < |chans|
    ensures ChainShown(chans, shown + [chans[x]], chain + [x]) && ChainShown(chans, shown + [], chain + [])
  {
    assert shown + [] == shown && chain + [] == chain;
    var shown', chain' := shown + [chans[x]], chain + [x];
    forall k | 0 <= k < |chain'| ensures chain'[k] < |chans| && shown'[k] == chans[chain'[k]] {
      if k < |chain| {
        assert shown'[k] == shown[k] && chain'[k] == chain[k];
      }
    }
  }

  lemma FirstShown(chans: seq<Chan>, shown: seq<Chan>, chain: seq<nat>, x: nat)
    requires ChainShown(chans, shown, chain) && x < |chans|
    ensures ChainShown(chans, [chans[x]] + shown, [x] + chain)
  {
    var shown', chain' := [chans[x]] + shown, [x] + chain;
    forall k | 0 <= k < |chain'| ensures chain'[k] < |chans| && shown'[k] == chans[chain'[k]] {
      if k > 0 {
        assert shown'[k] == shown[k - 1] && chain'[k] == chain[k - 1];
      }
    }
  }

  lemma ShownChain(chans: seq<Chan>, named: seq<bool>, l: Links, m: nat)
    requires |chans| == |named| == |l.master| && m < |chans|
    requires forall i :: 0 <= i < |chans| ==> named[i] == (l.master[i] == m)
    ensures ChainShown(chans, [chans[m]] + Chosen(chans, named, m + 1, |chans|), ChainOf(l.master, m))
  {
    ChosenAreSlaves(chans, named, l.master, m, m + 1, |chans|);
    FirstShown(chans, Chosen(chans, named, m + 1, |chans|), Slaves(l.master, m, m + 1, |chans|), m);
  }

  /** The channels that name the one at place `m`. */
  lemma NamedByPlace(m: nat, chans: seq<Chan>, l: Links)
    requires Shows(chans, l) && m < |chans|
    ensures forall i :: 0 <= i < |chans| ==> Named(chans[m], chans)[i] == (l.master[i] == m)
  {
    forall i | 0 <= i < |chans| ensures Named(chans[m], chans)[i] == (l.master[i] == m) {
      assert chans[i].master == chans[l.master[i]];
      assert chans[l.master[i]].chanpos == l.master[i] + 1 && chans[m].chanpos == m + 1;
    }
  }

  /** The chain of the channel at place `m`, as the linking loop chooses it. */
  ghost function ShownOf(m: nat, chans: seq<Chan>): seq<Chan>
    requires m < |chans|
    reads chans
  {
    [chans[m]] + Chosen(chans, Named(chans[m], chans), m + 1, |chans|)
  }

  lemma ShownIffInChain(chans: seq<Chan>, shown: seq<Chan>, chain: seq<nat>, i: nat)
    requires i < |chans| && ChainShown(chans, shown, chain)
    requires forall j {:trigger chans[j].chanpos} :: 0 <= j < |chans| ==> chans[j].chanpos == j + 1
    ensures i in chain <==> chans[i] in shown
  {
    if i in chain {
      var k :| 0 <= k < |chain| && chain[k] == i;
      assert shown[k] == chans[i];
    }
    if chans[i] in shown {
      var k :| 0 <= k < |shown| && shown[k] == chans[i];
      assert chans[chain[k]].chanpos == chain[k] + 1 && chans[i].chanpos == i + 1;
    }
  }

  /** What the linked channels show. */
  lemma LinksShown(chans: seq<Chan>, shown: seq<Chan>, next: seq<int>, chain: seq<nat>, i: nat)
    requires ChainShown(chans, shown, chain) && InChain(next, chain) && Linked(shown) && |next| == |chans|
    requires i in chain
    ensures i < |chans| && -1 <= next[i] < |chans|
    ensures chans[i].nextslave == if next[i] == -1 then null else chans[next[i]]
  {
    var k :| 0 <= k < |chain| && chain[k] == i;
    assert shown[k] == chans[i];
    if k < |chain| - 1 {
      assert next[chain[k]] == chain[k + 1] && shown[k + 1] == chans[chain[k + 1]];
    }
  }

  lemma ShownOfIsChain(m: nat, chans: seq<Chan>, l: Links)
    requires Shows(chans, l) && m < |chans|
    ensures ChainShown(chans, ShownOf(m, chans), ChainOf(l.master, m))
  {
    NamedByPlace(m, chans, l);
    ShownChain(chans, Named(chans[m], chans), l, m);
  }

  method LinkAt(m: nat, chans: seq<Chan>) returns (ghost shown: seq<Chan>)
    requires Numbered(chans) && m < |chans|
    modifies chans`nextslave
    ensures shown == old(ShownOf(m, chans)) && Linked(shown)
    ensures forall c :: c in chans && c !in shown ==> c.nextslave == old(c.nextslave)
  {
    assert chans[m].chanpos == m + 1;
    shown := RecalcSlaves(chans[m], chans);
  }

  method LinkSlaves(m: nat, chans: seq<Chan>, ghost l: Links) returns (ghost shown: seq<Chan>)
    requires Shows(chans, l) && m < |chans|
    modifies chans`nextslave
    ensures Linked(shown) && ChainShown(chans, shown, ChainOf(l.master, m))
    ensures forall c :: c in chans && c !in shown ==> c.nextslave == old(c.nextslave)
  {
    ShownOfIsChain(m, chans, l);
    shown := LinkAt(m, chans);
  }

  /** recalc_slaves on the channels is Recalc on their links. */
  method Relink(m: nat, chans: seq<Chan>, ghost l: Links)
    requires Shows(chans, l) && m < |chans|
    modifies chans`nextslave
    ensures Shows(chans, Recalc(l, m))
  {
    ghost var r, chain := Recalc(l, m), ChainOf(l.master, m);
    ghost var shown := LinkSlaves(m, chans, l);
    forall i | 0 <= i < |chans|
      ensures chans[i].nextslave == if r.next[i] == -1 then null else chans[r.next[i]]
    {
      ShownIffInChain(chans, shown, chain, i);
      if i in chain {
        LinksShown(chans, shown, r.next, chain, i);
      } else {
        assert chans[i].nextslave == old(chans[i].nextslave);
      }
    }
  }

  lemma Apart(chans: seq<Chan>, l: Links, i: nat, j: nat)
    requires Shows(chans, l) && i < |chans| && j < |chans| && i != j
    ensures chans[i] != chans[j]
  {
    assert chans[i].chanpos == i + 1 && chans[j].chanpos == j + 1;
  }

  method SetMaster(i: nat, m: nat, chans: seq<Chan>, ghost l: Links)
    requires Shows(chans, l) && i < |chans| && m < |chans|
    modifies chans`master
    ensures Shows(chans, l.(master := l.master[i := m]))
  {
    forall j | 0 <= j < |chans| && j != i ensures chans[j] != chans[i] {
      Apart(chans, l, j, i);
    }
    chans[i].master := chans[m];
  }

  method SetNext(i: nat, chans: seq<Chan>, ghost l: Links)
    requires Shows(chans, l) && i < |chans|
    modifies chans`nextslave
    ensures Shows(chans, l.(next := l.next[i := -1]))
  {
    forall j | 0 <= j < |chans| && j != i ensures chans[j] != chans[i] {
      Apart(chans, l, j, i);
    }
    chans[i].nextslave := null;
  }

  lemma MasterIsOwn(i: nat, m: nat, chans: seq<Chan>, l: Links)
    requires Shows(chans, l) && i < |chans| && m < |chans|
    ensures chans[i].master == chans[m] <==> l.master[i] == m
    ensures chans[i].master != null && (chans[i].master as Chan).chanpos == l.master[i] + 1
  {
    assert chans[l.master[i]].chanpos == l.master[i] + 1 && chans[m].chanpos == m + 1;
  }

  method Detach(i: nat, chans: seq<Chan>, ghost l: Links)
    requires Shows(chans, l) && i < |chans|
    modifies chans`nextslave, chans`master
    ensures Shows(chans, Links(l.master[i := i], l.next[i := -1]))
  {
    SetMaster(i, i, chans, l);
    SetNext(i, chans, l.(master := l.master[i := i]));
  }

  method OldMaster(i: nat, chans: seq<Chan>, ghost l: Links) returns (m: nat)
    requires Shows(chans, l) && i < |chans|
    ensures m == l.master[i]
  {
    MasterIsOwn(i, i, chans, l);
    m := chans[i].master.chanpos - 1;
  }

  /** The part that takes a channel from its master. */
  method Leave(i: nat, chans: seq<Chan>, ghost l: Links)
    requires Shows(chans, l) && i < |chans|
    modifies chans`nextslave, chans`master
    ensures Shows(chans, Freed(l, i))
  {
    var oldmaster := OldMaster(i, chans, l);
    if oldmaster != i {
      Detach(i, chans, l);
      Relink(oldmaster, chans, Links(l.master[i := i], l.next[i := -1]));
    }
  }

  /** DAHDI_CHANCONFIG for the channel at place `i`. */
  method ChanConfig(i: nat, m: nat, ok: bool, chans: seq<Chan>, ghost l: Links)
    requires Shows(chans, l) && i < |chans| && m < |chans|
    modifies chans`nextslave, chans`master
    ensures Shows(chans, Config(l, i, m, ok))
  {
    Leave(i, chans, l);
    if ok {
      ghost var f := Freed(l, i);
      SetMaster(i, m, chans, f);
      if m != i {
        Relink(m, chans, f.(master := f.master[i := m]));
      }
    }
  }

  lemma AfterOne(l: Links, requests: seq<Request>, k: nat)
    requires Shaped(l) && k < |requests| && forall j :: 0 <= j < |requests| ==> OfSpan(requests[j], |l.master|)
    ensures After(l, requests[..k + 1]) == Do(After(l, requests[..k]), requests[k])
  {
    assert requests[..k + 1][..k] == requests[..k];
  }

  /** Any run of requests. */
  method Configure(requests: seq<Request>, chans: seq<Chan>, ghost l: Links)
    requires Shows(chans, l) && forall k :: 0 <= k < |requests| ==> OfSpan(requests[k], |chans|)
    modifies chans`nextslave, chans`master
    ensures Shows(chans, After(l, requests))
  {
    for k := 0 to |requests|
      invariant Shows(chans, After(l, requests[..k]))
    {
      ghost var t := After(l, requests[..k]);
      ChanConfig(requests[k].i, requests[k].m, requests[k].ok, chans, t);
      AfterOne(l, requests, k);
    }
    assert requests[..|requests|] == requests;
  }
}
