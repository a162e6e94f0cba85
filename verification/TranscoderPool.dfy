/** Transcoder channels: the first free channel of the first transcoder that fits, which
    then goes to the end of the list. */
module TranscoderPool {
  datatype Formats = Formats(src: bv32, dst: bv32)

  datatype Chan = Chan(busy: bool, built: bool, builtFmts: bv32)

  /** A registered transcoder; `id` stands for its address. */
  datatype Unit = Unit(id: nat, srcfmts: bv32, dstfmts: bv32, channels: seq<Chan>)

  datatype Reply = Granted(id: nat, channel: nat) | Busy | NoDevice

  predicate Matches(u: Unit, f: Formats) {
    u.dstfmts & f.dst != 0 && u.srcfmts & f.src != 0
  }

  predicate Usable(c: Chan, f: Formats) {
    !c.busy && (!c.built || f.src | f.dst == c.builtFmts)
  }

  ghost predicate HasFree(channels: seq<Chan>, f: Formats) {
    exists i :: 0 <= i < |channels| && Usable(channels[i], f)
  }

  /** A transcoder that can serve a request now. */
  ghost predicate Offers(u: Unit, f: Formats) {
    Matches(u, f) && HasFree(u.channels, f)
  }

  /** Channel `c` is the first usable one. */
  ghost predicate FirstFree(channels: seq<Chan>, f: Formats, c: nat) {
    && c < |channels| && Usable(channels[c], f)
    && forall i :: 0 <= i < c ==> !Usable(channels[i], f)
  }

  ghost predicate FirstOffer(list: seq<Unit>, f: Formats, p: nat) {
    && p < |list| && Offers(list[p], f)
    && forall i :: 0 <= i < p ==> !Offers(list[i], f)
  }

  ghost function Take(channels: seq<Chan>, c: nat): seq<Chan>
    requires c < |channels|
  {
    channels[c := channels[c].(busy := true)]
  }

  ghost function WithTaken(list: seq<Unit>, p: nat, c: nat): seq<Unit>
    requires p < |list| && c < |list[p].channels|
  {
    list[p := list[p].(channels := Take(list[p].channels, c))]
  }

  /** Transcoder `p` is served from channel `c` and moves to the end of the list. */
  ghost function Served(list: seq<Unit>, p: nat, c: nat): seq<Unit>
    requires p < |list| && c < |list[p].channels|
  {
    list[..p] + list[p + 1..] + [list[p].(channels := Take(list[p].channels, c))]
  }

  ghost predicate GrantedAt(list: seq<Unit>, f: Formats, p: nat, id: nat, c: nat, after: seq<Unit>) {
    && FirstOffer(list, f, p) && FirstFree(list[p].channels, f, c)
    && id == list[p].id && after == Served(list, p, c)
  }

  /** What a request must do: grant the first usable channel of the first transcoder that
      offers one; else be refused, as busy exactly when some transcoder matches. */
  ghost predicate Request(list: seq<Unit>, f: Formats, reply: Reply, after: seq<Unit>) {
    match reply
    case Granted(id, c) =>
      exists p: nat :: GrantedAt(list, f, p, id, c, after)
    case Busy =>
      after == list && NoneOffers(list, f) && SomeMatches(list, f)
    case NoDevice =>
      after == list && !SomeMatches(list, f)
  }

  ghost predicate NoneOffers(list: seq<Unit>, f: Formats) {
    forall i :: 0 <= i < |list| ==> !Offers(list[i], f)
  }

  // ---------------------------------------------------------------- the list

  class Transcoder {
    const id: nat
    const srcfmts: bv32
    const dstfmts: bv32
    const channels: array<Chan>

    ghost function View(): Unit
      reads channels
    {
      Unit(id, srcfmts, dstfmts, channels[..])
    }

    method Fits(f: Formats) returns (fits: bool)
      ensures fits == Matches(View(), f)
    {
      fits := dstfmts & f.dst != 0 && srcfmts & f.src != 0;
    }

    /** get_free_channel: the first usable channel, marked busy. */
    method GetFreeChannel(f: Formats) returns (found: bool, chan: nat)
      modifies channels
      ensures found == HasFree(old(channels[..]), f)
      ensures found ==> FirstFree(old(channels[..]), f, chan) && channels[..] == Take(old(channels[..]), chan)
      ensures !found ==> channels[..] == old(channels[..])
    {
      for i := 0 to channels.Length
        invariant channels[..] == old(channels[..])
        invariant forall j :: 0 <= j < i ==> !Usable(channels[j], f)
      {
        var c := channels[i];
        if !c.busy {
          if !c.built || f.src | f.dst == c.builtFmts {
            assert Usable(old(channels[..])[i], f);
            channels[i] := c.(busy := true);
            return true, i;
          }
        }
      }
      found, chan := false, 0;
    }
  }

  ghost predicate Distinct(list: seq<Transcoder>) {
    forall i, j :: 0 <= i < j < |list| ==> list[i].id != list[j].id && list[i].channels != list[j].channels
  }

  ghost function Views(list: seq<Transcoder>): seq<Unit>
    reads set i | 0 <= i < |list| :: list[i].channels
  {
    seq(|list|, i requires 0 <= i < |list| reads if 0 <= i < |list| then {list[i].channels} else {} => list[i].View())
  }

  function Moved<T>(list: seq<T>, p: nat): seq<T>
    requires p < |list|
  {
    list[..p] + list[p + 1..] + [list[p]]
  }

  lemma ViewsMoved(list: seq<Transcoder>, p: nat)
    requires p < |list|
    ensures Views(Moved(list, p)) == Moved(Views(list), p)
  {
    var views, after := Views(list), Views(Moved(list, p));
    var wanted := Moved(views, p);
    forall i | 0 <= i < |list| ensures after[i] == wanted[i] {
      assert after[i] == Moved(list, p)[i].View();
    }
  }

  /** Serves a request from transcoder `p` of the list if it has a usable channel. */
  method TakeFrom(list: seq<Transcoder>, p: nat, f: Formats) returns (found: bool, chan: nat)
    requires p < |list| && Distinct(list)
    modifies list[p].channels
    ensures found == HasFree(old(Views(list))[p].channels, f)
    ensures found ==> FirstFree(old(Views(list))[p].channels, f, chan)
    ensures found ==> Views(list) == WithTaken(old(Views(list)), p, chan)
    ensures !found ==> Views(list) == old(Views(list))
  {
    ghost var before := Views(list);
    found, chan := list[p].GetFreeChannel(f);
    assert forall i :: 0 <= i < |list| && i != p ==> list[i].View() == before[i];
  }

  lemma SameMemory(list: seq<Transcoder>, start: seq<Transcoder>)
    requires multiset(list) == multiset(start)
    ensures forall i :: 0 <= i < |list| ==> exists j :: 0 <= j < |start| && start[j] == list[i]
  {
    forall i | 0 <= i < |list| ensures exists j :: 0 <= j < |start| && start[j] == list[i] {
      assert list[i] in multiset(start) by {
        assert list[i] in multiset(list);
      }
      var j :| 0 <= j < |start| && start[j] == list[i];
    }
  }

  ghost predicate SomeMatches(list: seq<Unit>, f: Formats) {
    exists i :: 0 <= i < |list| && Matches(list[i], f)
  }

  /** The search up to `p`: no channel to be had, and whether a transcoder matched. */
  ghost predicate Searched(list: seq<Unit>, p: nat, f: Formats, matched: bool)
    requires p <= |list|
  {
    NoneOffers(list[..p], f) && (matched <==> SomeMatches(list[..p], f))
  }

  lemma SearchPastOther(list: seq<Unit>, p: nat, f: Formats, matched: bool)
    requires p < |list| && Searched(list, p, f, matched) && !Matches(list[p], f)
    ensures Searched(list, p + 1, f, matched)
  {
    var front := list[..p + 1];
    assert front == list[..p] + [list[p]] && front[p] == list[p];
    if matched {
      var i :| 0 <= i < p && Matches(list[..p][i], f);
      assert Matches(front[i], f);
    }
  }

  lemma SearchPastBusy(list: seq<Unit>, p: nat, f: Formats, matched: bool)
    requires p < |list| && Searched(list, p, f, matched) && Matches(list[p], f) && !HasFree(list[p].channels, f)
    ensures Searched(list, p + 1, f, true)
  {
    var front := list[..p + 1];
    assert front == list[..p] + [list[p]] && front[p] == list[p];
    assert Matches(front[p], f);
  }

  lemma SearchOver(list: seq<Unit>, f: Formats, matched: bool)
    requires Searched(list, |list|, f, matched)
    ensures Request(list, f, if matched then Busy else NoDevice, list)
  {
    assert list[..|list|] == list;
  }

  lemma GrantHere(list: seq<Unit>, taken: seq<Unit>, p: nat, f: Formats, c: nat, was: bool)
    requires p < |list| && Searched(list, p, f, was) && Matches(list[p], f) && FirstFree(list[p].channels, f, c)
    requires taken == WithTaken(list, p, c)
    ensures Request(list, f, Granted(list[p].id, c), Moved(taken, p))
  {
    assert Moved(taken, p) == Served(list, p, c);
    assert forall i :: 0 <= i < p ==> list[..p][i] == list[i];
    assert GrantedAt(list, f, p, list[p].id, c, Served(list, p, c));
  }

  lemma MovedStaysDistinct(list: seq<Transcoder>, p: nat)
    requires p < |list| && Distinct(list)
    ensures Distinct(Moved(list, p))
  {
  }

  lemma MovedToTail<T>(list: seq<T>, p: nat)
    requires p < |list|
    ensures multiset(Moved(list, p)) == multiset(list)
  {
    assert list == list[..p] + [list[p]] + list[p + 1..];
  }

  // ---------------------------------------------------------------- properties

  /** The outcome is the only one allowed. */
  lemma RequestIsExact(list: seq<Unit>, f: Formats, r1: Reply, a1: seq<Unit>, r2: Reply, a2: seq<Unit>)
    requires Request(list, f, r1, a1) && Request(list, f, r2, a2)
    ensures r1 == r2 && a1 == a2
  {
    if r1.Granted? {
      var p1: nat :| GrantedAt(list, f, p1, r1.id, r1.channel, a1);
      assert Offers(list[p1], f) && Matches(list[p1], f);
      if r2.Granted? {
        var p2: nat :| GrantedAt(list, f, p2, r2.id, r2.channel, a2);
        assert p1 == p2;
      }
    }
  }

  /** The transcoders that could serve a request, in list order. */
  ghost function Offering(list: seq<Unit>, f: Formats): seq<nat>
    decreases |list|
  {
    if list == [] then [] else (if Offers(list[0], f) then [list[0].id] else []) + Offering(list[1..], f)
  }

  lemma {:induction false} OfferingConcat(a: seq<Unit>, b: seq<Unit>, f: Formats)
    ensures Offering(a + b, f) == Offering(a, f) + Offering(b, f)
    decreases |a|
  {
    if a == [] {
      assert a + b == b;
    } else {
      assert (a + b)[1..] == a[1..] + b;
      OfferingConcat(a[1..], b, f);
    }
  }

  lemma {:induction false} NoOffering(list: seq<Unit>, f: Formats)
    ensures NoneOffers(list, f) <==> Offering(list, f) == []
    decreases |list|
  {
    if list != [] {
      NoOffering(list[1..], f);
      if Offering(list, f) == [] {
        forall i | 0 <= i < |list| ensures !Offers(list[i], f) {
          if i > 0 {
            assert list[i] == list[1..][i - 1];
          }
        }
      }
    }
  }

  /** The first transcoder that offers, and what is offered without it. */
  lemma FirstOfOffering(list: seq<Unit>, f: Formats, p: nat)
    requires FirstOffer(list, f, p)
    ensures Offering(list, f) == [list[p].id] + Offering(list[..p] + list[p + 1..], f)
  {
    var front, rest := list[..p], list[p + 1..];
    NoOffering(front, f);
    assert list == front + ([list[p]] + rest);
    OfferingConcat(front, [list[p]] + rest, f);
    OfferingConcat([list[p]], rest, f);
    OfferingConcat(front, rest, f);
    assert Offering([list[p]], f) == [list[p].id] by {
      assert [list[p]][1..] == [];
    }
  }

  /** A run of requests for one format. */
  ghost predicate Requests(lists: seq<seq<Unit>>, f: Formats, replies: seq<Reply>) {
    && |lists| == |replies| + 1
    && forall k :: 0 <= k < |replies| ==> Request(lists[k], f, replies[k], lists[k + 1])
  }

  /** Those already served are at the end; the others still come first. */
  lemma {:induction false} InListOrder(rest: seq<Unit>, served: seq<Unit>, lists: seq<seq<Unit>>, f: Formats,
                                       replies: seq<Reply>)
    requires Requests(lists, f, replies) && lists[0] == rest + served
    requires |replies| <= |Offering(rest, f)|
    ensures forall k :: 0 <= k < |replies| ==> replies[k].Granted? && replies[k].id == Offering(rest, f)[k]
    decreases |replies|
  {
    if replies != [] {
      var p, c := OfferTaken(rest, served, f, replies[0], lists[1]);
      var left := rest[..p] + rest[p + 1..];
      FirstOfOffering(rest, f, p);
      InListOrder(left, served + [(rest[p]).(channels := Take(rest[p].channels, c))], lists[1..], f, replies[1..]);
      forall k | 0 <= k < |replies|
        ensures replies[k].Granted? && replies[k].id == Offering(rest, f)[k]
      {
        if k > 0 {
          assert replies[k] == replies[1..][k - 1];
        }
      }
    }
  }

  lemma OfferTaken(rest: seq<Unit>, served: seq<Unit>, f: Formats, reply: Reply, after: seq<Unit>)
    returns (p: nat, c: nat)
    requires Request(rest + served, f, reply, after) && Offering(rest, f) != []
    ensures FirstOffer(rest, f, p) && reply == Granted(rest[p].id, c) && c < |rest[p].channels|
    ensures after == (rest[..p] + rest[p + 1..]) + (served + [rest[p].(channels := Take(rest[p].channels, c))])
  {
    var list := rest + served;
    NoOffering(rest, f);
    var i: nat :| i < |rest| && Offers(rest[i], f);
    assert list[i] == rest[i] && Matches(list[i], f);
    assert reply.Granted?;
    c := reply.channel;
    p :| GrantedAt(list, f, p, reply.id, c, after);
    assert p <= i;
    assert forall j :: 0 <= j <= p ==> list[j] == rest[j];
    ServedInFront(rest, served, p, c);
  }

  lemma ServedInFront(rest: seq<Unit>, served: seq<Unit>, p: nat, c: nat)
    requires p < |rest| && c < |rest[p].channels|
    ensures Served(rest + served, p, c)
         == (rest[..p] + rest[p + 1..]) + (served + [rest[p].(channels := Take(rest[p].channels, c))])
  {
    var list := rest + served;
    assert list[..p] == rest[..p] && list[p + 1..] == rest[p + 1..] + served && list[p] == rest[p];
  }

  lemma RequestsGrow(lists: seq<seq<Unit>>, f: Formats, replies: seq<Reply>, reply: Reply, after: seq<Unit>)
    requires Requests(lists, f, replies) && Request(lists[|replies|], f, reply, after)
    ensures Requests(lists + [after], f, replies + [reply])
  {
    var all, answers := lists + [after], replies + [reply];
    forall k | 0 <= k < |answers| ensures Request(all[k], f, answers[k], all[k + 1]) {
      if k < |replies| {
        assert Request(lists[k], f, replies[k], lists[k + 1]);
      }
    }
  }

  ghost predicate DistinctIds(list: seq<Unit>) {
    forall i, j :: 0 <= i < j < |list| ==> list[i].id != list[j].id
  }

  lemma {:induction false} OfferingDistinct(list: seq<Unit>, f: Formats)
    requires DistinctIds(list)
    ensures forall i, j :: 0 <= i < j < |Offering(list, f)| ==> Offering(list, f)[i] != Offering(list, f)[j]
    ensures forall id :: id in Offering(list, f) ==> exists k :: 0 <= k < |list| && list[k].id == id
    decreases |list|
  {
    if list != [] {
      var tail := list[1..];
      OfferingDistinct(tail, f);
      forall id | id in Offering(list, f)
        ensures exists k :: 0 <= k < |list| && list[k].id == id
      {
        if id in Offering(tail, f) {
          var k :| 0 <= k < |tail| && tail[k].id == id;
          assert list[k + 1].id == id;
        } else {
          assert list[0].id == id;
        }
      }
      if Offers(list[0], f) {
        assert forall k :: 0 <= k < |tail| ==> tail[k] == list[k + 1];
        assert list[0].id !in Offering(tail, f);
      }
    }
  }

  /** As many requests in a row as transcoders can serve the format all succeed, each on
      another transcoder, in list order. */
  lemma RequestsAreSpread(lists: seq<seq<Unit>>, f: Formats, replies: seq<Reply>)
    requires Requests(lists, f, replies) && DistinctIds(lists[0])
    requires |replies| <= |Offering(lists[0], f)|
    ensures forall k :: 0 <= k < |replies| ==> replies[k].Granted? && replies[k].id == Offering(lists[0], f)[k]
    ensures forall j, k :: 0 <= j < k < |replies| ==> replies[j].id != replies[k].id
  {
    assert lists[0] + [] == lists[0];
    InListOrder(lists[0], [], lists, f, replies);
    OfferingDistinct(lists[0], f);
  }

  // ---------------------------------------------------------------- exclusive use

  /** Whether channel `c` of transcoder `id`, at `p` in the list, is busy. */
  ghost predicate BusyAt(list: seq<Unit>, p: nat, id: nat, c: nat) {
    p < |list| && list[p].id == id && c < |list[p].channels| && list[p].channels[c].busy
  }

  ghost predicate InUse(list: seq<Unit>, id: nat, c: nat) {
    exists p: nat :: BusyAt(list, p, id, c)
  }

  /** Where in the list the transcoder at `i` was before `p` moved to the end `n`. */
  function Origin(p: nat, n: nat, i: nat): (r: nat)
    requires p <= n
  {
    if i == n then p else if i < p then i else i + 1
  }

  /** Where it is afterwards. */
  function Target(p: nat, n: nat, q: nat): (r: nat)
    requires p <= n
    ensures q <= n ==> r <= n && Origin(p, n, r) == q
  {
    if q < p then q else if q > p then q - 1 else n
  }

  lemma ServedAt(list: seq<Unit>, p: nat, c: nat, i: nat)
    requires p < |list| && c < |list[p].channels| && i < |list|
    ensures var n, after := |list| - 1, Served(list, p, c);
            && |after| == |list| && Origin(p, n, i) < |list| && after[i].id == list[Origin(p, n, i)].id
            && (i < n ==> after[i] == list[Origin(p, n, i)])
            && (i == n ==> after[i].channels == Take(list[p].channels, c))
  {
  }

  lemma ServedUse(list: seq<Unit>, p: nat, c: nat, i: nat, id: nat, d: nat)
    requires p < |list| && c < |list[p].channels| && i < |list|
    ensures Origin(p, |list| - 1, i) < |list|
    ensures BusyAt(Served(list, p, c), i, id, d) <==>
            || BusyAt(list, Origin(p, |list| - 1, i), id, d)
            || (i == |list| - 1 && id == list[p].id && d == c)
  {
    ServedAt(list, p, c, i);
  }

  lemma ServedInUse(list: seq<Unit>, p: nat, c: nat, id: nat, d: nat)
    requires p < |list| && c < |list[p].channels|
    ensures InUse(Served(list, p, c), id, d) <==> InUse(list, id, d) || (id == list[p].id && d == c)
  {
    var after, n := Served(list, p, c), |list| - 1;
    if InUse(after, id, d) {
      var i: nat :| BusyAt(after, i, id, d);
      ServedUse(list, p, c, i, id, d);
    }
    if InUse(list, id, d) {
      var q: nat :| BusyAt(list, q, id, d);
      ServedUse(list, p, c, Target(p, n, q), id, d);
    }
    if id == list[p].id && d == c {
      ServedUse(list, p, c, n, id, d);
    }
  }

  /** The unit transcodes one of the formats asked for into one of those wanted. */
  ghost predicate Suits(u: Unit, f: Formats) {
    u.srcfmts & f.src != 0 && u.dstfmts & f.dst != 0
  }

  /** Nobody uses the channel, and if it was built it was for just these formats. */
  ghost predicate Open(c: Chan, f: Formats) {
    !c.busy && (c.built ==> c.builtFmts == f.src | f.dst)
  }

  /** A channel that is granted suits the request and is open for it; a request is refused
      for want of a device exactly when no unit suits it, and for busy channels exactly
      when one does but none that does has an open channel. */
  lemma GrantSuits(list: seq<Unit>, f: Formats, reply: Reply, after: seq<Unit>)
    requires Request(list, f, reply, after)
    ensures reply.Granted? ==>
              exists p :: 0 <= p < |list| && list[p].id == reply.id && Suits(list[p], f)
                && reply.channel < |list[p].channels| && Open(list[p].channels[reply.channel], f)
    ensures reply == NoDevice <==> forall p :: 0 <= p < |list| ==> !Suits(list[p], f)
    ensures reply == Busy <==>
              && (exists p :: 0 <= p < |list| && Suits(list[p], f))
              && forall p, c :: 0 <= p < |list| && Suits(list[p], f) && 0 <= c < |list[p].channels| ==>
                !Open(list[p].channels[c], f)
  {
    forall p | 0 <= p < |list| ensures Suits(list[p], f) <==> Matches(list[p], f) {
    }
    forall p, c | 0 <= p < |list| && 0 <= c < |list[p].channels|
      ensures Open(list[p].channels[c], f) <==> Usable(list[p].channels[c], f)
    {
    }
    match reply
    case Granted(id, channel) =>
      var p: nat :| GrantedAt(list, f, p, id, channel, after);
      assert Offers(list[p], f) && Suits(list[p], f) && Open(list[p].channels[channel], f);
    case Busy =>
      forall p, c | 0 <= p < |list| && Suits(list[p], f) && 0 <= c < |list[p].channels|
        ensures !Open(list[p].channels[c], f)
      {
        assert !Offers(list[p], f);
      }
    case NoDevice =>
  }

  /** A grant takes a channel that was not in use, and no other channel changes. */
  lemma GrantIsExclusive(list: seq<Unit>, f: Formats, reply: Reply, after: seq<Unit>)
    requires DistinctIds(list) && Request(list, f, reply, after)
    ensures DistinctIds(after)
    ensures reply.Granted? ==> !InUse(list, reply.id, reply.channel)
    ensures forall id: nat, c: nat :: InUse(after, id, c) <==> InUse(list, id, c) || reply == Granted(id, c)
  {
    if reply.Granted? {
      var p: nat :| GrantedAt(list, f, p, reply.id, reply.channel, after);
      assert forall q: nat :: q < |list| && list[q].id == list[p].id ==> q == p;
      forall i, j | 0 <= i < j < |after| ensures after[i].id != after[j].id {
        ServedAt(list, p, reply.channel, i);
        ServedAt(list, p, reply.channel, j);
      }
      forall id: nat, c: nat
        ensures InUse(after, id, c) <==> InUse(list, id, c) || reply == Granted(id, c)
      {
        ServedInUse(list, p, reply.channel, id, c);
      }
    }
  }

  // ---------------------------------------------------------------- the pool

  class Pool {
    var activeList: seq<Transcoder>

    ghost predicate Valid()
      reads this
    {
      Distinct(activeList)
    }

    ghost function View(): seq<Unit>
      reads this, set i | 0 <= i < |activeList| :: activeList[i].channels
    {
      Views(activeList)
    }

    /** list_move_tail. */
    method MoveToTail(p: nat)
      requires Valid() && p < |activeList|
      modifies this
      ensures Valid() && multiset(activeList) == multiset(old(activeList))
      ensures View() == Moved(old(View()), p)
    {
      var list := activeList;
      activeList := Moved(list, p);
      ViewsMoved(list, p);
      MovedToTail(list, p);
      MovedStaysDistinct(list, p);
    }

    /** A transcoder that matches is moved to the end of the list if it has a usable
        channel. */
    method Serve(p: nat, f: Formats, ghost was: bool) returns (found: bool, chan: nat)
      requires Valid() && p < |activeList| && Searched(View(), p, f, was) && Matches(activeList[p].View(), f)
      modifies this, activeList[p].channels
      ensures Valid() && multiset(activeList) == multiset(old(activeList))
      ensures found ==> Request(old(View()), f, Granted(old(activeList[p].id), chan), View())
      ensures !found ==> activeList == old(activeList) && View() == old(View()) && Searched(View(), p + 1, f, true)
    {
      ghost var before := View();
      found, chan := TakeFrom(activeList, p, f);
      if found {
        GrantHere(before, View(), p, f, chan, was);
        MoveToTail(p);
      } else {
        SearchPastBusy(before, p, f, was);
      }
    }

    /** One step of the search: transcoder `p` is looked at if its formats match. */
    method Consider(p: nat, f: Formats, was: bool) returns (matched: bool, found: bool, chan: nat)
      requires Valid() && p < |activeList| && Searched(View(), p, f, was)
      modifies this, activeList[p].channels
      ensures Valid() && multiset(activeList) == multiset(old(activeList))
      ensures found ==> Request(old(View()), f, Granted(old(activeList[p].id), chan), View())
      ensures !found ==> activeList == old(activeList) && View() == old(View()) && Searched(View(), p + 1, f, matched)
    {
      var fits := activeList[p].Fits(f);
      if fits {
        matched := true;
        found, chan := Serve(p, f, was);
      } else {
        SearchPastOther(View(), p, f, was);
        matched, found, chan := was, false, 0;
      }
    }

    /** __find_free_channel over the active list. */
    method FindFreeChannel(f: Formats) returns (reply: Reply)
      requires Valid()
      modifies this, set i | 0 <= i < |activeList| :: activeList[i].channels
      ensures Valid() && Request(old(View()), f, reply, View())
      ensures multiset(activeList) == multiset(old(activeList))
    {
      ghost var before := View();
      var list, matched := activeList, false;
      for p := 0 to |list|
        invariant activeList == list && View() == before
        invariant Searched(before, p, f, matched)
      {
        var found, chan;
        matched, found, chan := Consider(p, f, matched);
        if found {
          return Granted(list[p].id, chan);
        }
      }
      SearchOver(before, f, matched);
      reply := if matched then Busy else NoDevice;
    }

    /** `n` requests in a row for one format. */
    method FindMany(f: Formats, n: nat) returns (replies: seq<Reply>, ghost lists: seq<seq<Unit>>)
      requires Valid()
      modifies this, set i | 0 <= i < |activeList| :: activeList[i].channels
      ensures Valid() && |replies| == n
      ensures Requests(lists, f, replies) && lists[0] == old(View()) && lists[n] == View()
      ensures multiset(activeList) == multiset(old(activeList))
      ensures n <= |Offering(old(View()), f)| ==>
        (forall k :: 0 <= k < n ==> replies[k].Granted? && replies[k].id == Offering(old(View()), f)[k])
        && (forall j, k :: 0 <= j < k < n ==> replies[j].id != replies[k].id)
    {
      ghost var start := activeList;
      replies, lists := [], [View()];
      while |replies| < n
        invariant Valid() && multiset(activeList) == multiset(start) && |replies| <= n
        invariant Requests(lists, f, replies) && lists[0] == old(View()) && lists[|replies|] == View()
      {
        SameMemory(activeList, start);
        var reply := FindFreeChannel(f);
        RequestsGrow(lists, f, replies, reply, View());
        lists, replies := lists + [View()], replies + [reply];
      }
      if n <= |Offering(lists[0], f)| {
        RequestsAreSpread(lists, f, replies);
      }
    }
  }
}
