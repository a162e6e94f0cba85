/** The list of assigned spans: span numbers, channel numbers and their lookup. */
module SpanRegistry {
  import opened Words

  const FIRST_PSEUDO_CHANNEL: nat := 0x8000
  const U32: nat := 0x1_0000_0000
  const S31: nat := 0x8000_0000

  /** An assigned span as seen from outside: its number, its first channel number and
      how many channels it has. */
  datatype Entry = Entry(spanno: nat, base: nat, channels: nat)

  function End(e: Entry): nat {
    e.base + e.channels
  }

  /** The span number is positive as a signed one, and the channel numbers do not wrap. */
  ghost predicate Sane(e: Entry) {
    1 <= e.spanno < S31 && e.channels >= 1 && End(e) < U32
  }

  /** Strictly ordered by span number, with ascending channel ranges that do not overlap. */
  ghost predicate Sorted(list: seq<Entry>) {
    && (forall i :: 0 <= i < |list| ==> Sane(list[i]))
    && (forall i, j :: 0 <= i < j < |list| ==> list[i].spanno < list[j].spanno && End(list[i]) <= list[j].base)
  }

  ghost predicate Free(list: seq<Entry>, spanno: nat) {
    forall i :: 0 <= i < |list| ==> list[i].spanno != spanno
  }

  /** A span of `channels` channels at `base` fits between its neighbours. */
  ghost predicate Fits(list: seq<Entry>, spanno: nat, base: nat, channels: nat) {
    forall i :: 0 <= i < |list| ==>
      if list[i].spanno <= spanno then End(list[i]) <= base else base + channels <= list[i].base
  }

  /** The least free span number at which a span fits anywhere, and there the least
      channel number. */
  ghost predicate FirstFit(list: seq<Entry>, spanno: nat, base: nat, channels: nat) {
    && spanno >= 1 && base >= 1 && Free(list, spanno) && Fits(list, spanno, base, channels)
    && (forall s, b :: 1 <= s < spanno && 1 <= b && Free(list, s) ==> !Fits(list, s, b, channels))
    && (forall b :: 1 <= b < base ==> !Fits(list, spanno, b, channels))
  }

  /** There is only one first fit. */
  lemma FirstFitIsUnique(list: seq<Entry>, channels: nat, spanno: nat, base: nat, spanno': nat, base': nat)
    requires FirstFit(list, spanno, base, channels) && FirstFit(list, spanno', base', channels)
    ensures spanno == spanno' && base == base'
  {
    assert !(spanno < spanno') && !(spanno' < spanno);
    assert !(base < base') && !(base' < base);
  }

  ghost predicate Holds(e: Entry, channo: nat) {
    e.base <= channo < End(e)
  }

  lemma InsertKeepsSorted(list: seq<Entry>, k: nat, e: Entry)
    requires Sorted(list) && Sane(e) && Free(list, e.spanno) && Fits(list, e.spanno, e.base, e.channels)
    requires k <= |list| && (forall i :: 0 <= i < k ==> list[i].spanno <= e.spanno)
    requires forall i :: k <= i < |list| ==> e.spanno < list[i].spanno
    ensures Sorted(list[..k] + [e] + list[k..])
  {
    var all := list[..k] + [e] + list[k..];
    forall i | 0 <= i < |list|
      ensures i < k ==> list[i].spanno < e.spanno && End(list[i]) <= e.base
      ensures i >= k ==> e.spanno < list[i].spanno && End(e) <= list[i].base
    {
    }
    forall i, j | 0 <= i < j < |all|
      ensures all[i].spanno < all[j].spanno && End(all[i]) <= all[j].base
    {
      var a, b := if i < k then i else i - 1, if j < k then j else j - 1;
      assert i != k ==> all[i] == list[a];
      assert j != k ==> all[j] == list[b];
    }
  }

  /** Any other span in that place ends the order. */
  lemma InsertBreaksSorted(list: seq<Entry>, k: nat, e: Entry)
    requires Sorted(list) && k <= |list| && !(Sane(e) && Fits(list, e.spanno, e.base, e.channels))
    requires Sane(e) ==> forall i :: 0 <= i < k ==> list[i].spanno <= e.spanno
    requires Sane(e) ==> forall i :: k <= i < |list| ==> e.spanno < list[i].spanno
    ensures !Sorted(list[..k] + [e] + list[k..])
  {
    var all := list[..k] + [e] + list[k..];
    assert all[k] == e;
    if Sorted(all) {
      forall i | 0 <= i < |list|
        ensures if list[i].spanno <= e.spanno then End(list[i]) <= e.base else End(e) <= list[i].base
      {
        assert all[if i < k then i else i + 1] == list[i];
      }
      assert false;
    }
  }

  lemma RemoveKeepsSorted(list: seq<Entry>, k: nat)
    requires Sorted(list) && k < |list|
    ensures Sorted(list[..k] + list[k + 1..])
  {
    var all := list[..k] + list[k + 1..];
    assert forall i :: 0 <= i < |all| ==> all[i] == list[if i < k then i else i + 1];
  }

  /** List entry `i` is the first with a higher span number. */
  ghost predicate NextAbove(list: seq<Entry>, spanno: nat, i: int) {
    0 <= i < |list| && list[i].spanno > spanno && forall j :: 0 <= j < i ==> list[j].spanno <= spanno
  }

  ghost predicate EndsBelow(list: seq<Entry>, spanno: nat, base: nat) {
    forall i :: 0 <= i < |list| && list[i].spanno <= spanno ==> End(list[i]) <= base
  }

  /** The first entry with a higher span number, if there is one, begins at `end` or later. */
  ghost predicate StartsAbove(list: seq<Entry>, spanno: nat, end: nat) {
    forall i :: NextAbove(list, spanno, i) ==> end <= list[i].base
  }

  /** The test of _check_spanno_and_basechan with its 32-bit sum. */
  ghost predicate CheckAccepts(list: seq<Entry>, spanno: nat, base: nat, channels: nat) {
    EndsBelow(list, spanno, base) && StartsAbove(list, spanno, (base + channels) % U32)
  }

  /** Looking at the first neighbour above is enough. */
  lemma NeighboursAreEnough(list: seq<Entry>, spanno: nat, base: nat, channels: nat)
    requires Sorted(list)
    ensures Fits(list, spanno, base, channels) <==>
      EndsBelow(list, spanno, base) && StartsAbove(list, spanno, base + channels)
  {
    if StartsAbove(list, spanno, base + channels) {
      forall i | 0 <= i < |list| && list[i].spanno > spanno
        ensures base + channels <= list[i].base
      {
        var k := i;
        while k > 0 && list[k - 1].spanno > spanno
          invariant 0 <= k <= i && list[k].spanno > spanno && list[k].base <= list[i].base
        {
          k := k - 1;
          assert End(list[k]) <= list[k + 1].base;
        }
        assert forall j :: 0 <= j < k ==> list[j].spanno <= list[k - 1].spanno;
        assert NextAbove(list, spanno, k);
      }
    }
  }

  /** The test tells whether the span fits exactly when the sum does not wrap, or a
      neighbour below refuses the request anyway, or none above is fooled by the
      wrapped sum. */
  lemma CheckIsExact(list: seq<Entry>, spanno: nat, base: nat, channels: nat)
    requires Sorted(list) && base < U32 && channels < U32
    ensures (CheckAccepts(list, spanno, base, channels) <==> Fits(list, spanno, base, channels)) <==>
      || base + channels < U32
      || !EndsBelow(list, spanno, base)
      || forall i :: NextAbove(list, spanno, i) ==> (base + channels) % U32 > list[i].base
  {
    NeighboursAreEnough(list, spanno, base, channels);
    if base + channels < U32 {
      assert (base + channels) % U32 == base + channels;
    } else if i :| NextAbove(list, spanno, i) {
      assert !StartsAbove(list, spanno, base + channels) by {
        assert End(list[i]) < U32;
      }
      StartsAboveAt(list, spanno, (base + channels) % U32, i);
    } else {
      assert StartsAbove(list, spanno, base + channels) && StartsAbove(list, spanno, (base + channels) % U32);
    }
  }

  lemma StartsAboveAt(list: seq<Entry>, spanno: nat, end: nat, i: int)
    requires NextAbove(list, spanno, i)
    ensures StartsAbove(list, spanno, end) <==> end <= list[i].base
    ensures (forall j :: NextAbove(list, spanno, j) ==> end > list[j].base) <==> end > list[i].base
  {
    OneIsNext(list, spanno, i);
  }

  lemma OneIsNext(list: seq<Entry>, spanno: nat, i: int)
    requires NextAbove(list, spanno, i)
    ensures forall j :: NextAbove(list, spanno, j) ==> j == i
  {
  }

  /** What _check_spanno_and_basechan computes, from list place `k` on. */
  function CheckFrom(list: seq<Entry>, k: nat, spanno: nat, base: nat, channels: nat): bool
    requires k <= |list|
    decreases |list| - k
  {
    if k == |list| then true
    else if list[k].spanno <= spanno then
      base >= End(list[k]) % U32 && CheckFrom(list, k + 1, spanno, base, channels)
    else list[k].base == U32 - 1 || (base + channels) % U32 <= list[k].base
  }

  lemma FirstAbove(list: seq<Entry>, k: nat, spanno: nat, base: nat, channels: nat)
    requires Sorted(list) && k < |list| && list[k].spanno > spanno
    requires forall i :: 0 <= i < k ==> list[i].spanno <= spanno && End(list[i]) <= base
    ensures CheckAccepts(list, spanno, base, channels) <==> (base + channels) % U32 <= list[k].base
  {
    assert forall j :: k <= j < |list| ==> list[k].spanno <= list[j].spanno;
    assert NextAbove(list, spanno, k);
    OneIsNext(list, spanno, k);
  }

  /** On a sorted list that is the test of the neighbours. */
  lemma {:induction false} CheckTestsNeighbours(list: seq<Entry>, k: nat, spanno: nat, base: nat, channels: nat)
    requires Sorted(list) && k <= |list|
    requires forall i :: 0 <= i < k ==> list[i].spanno <= spanno && End(list[i]) <= base
    ensures CheckFrom(list, k, spanno, base, channels) <==> CheckAccepts(list, spanno, base, channels)
    decreases |list| - k
  {
    if k < |list| {
      assert Sane(list[k]);
      assert End(list[k]) % U32 == End(list[k]);
      if list[k].spanno > spanno {
        FirstAbove(list, k, spanno, base, channels);
      } else if base >= End(list[k]) {
        CheckTestsNeighbours(list, k + 1, spanno, base, channels);
      }
    }
  }

  /** With a sum that wraps, a span is accepted that does not fit. */
  lemma WrappedSumIsAccepted()
    ensures var list := [Entry(2, 1, 1)];
            Sorted(list) && CheckAccepts(list, 1, U32 - 1, 2) && !Fits(list, 1, U32 - 1, 2)
  {
    var list := [Entry(2, 1, 1)];
    assert list[0].spanno > 1;
  }

  /** The lookup of a channel number from list place `k` on, with its 32-bit sum. */
  function LookupFrom(list: seq<Entry>, k: nat, channo: nat): (r: nat)
    requires k <= |list|
    ensures k <= r <= |list|
    decreases |list| - k
  {
    if k == |list| then k
    else if channo >= End(list[k]) % U32 then LookupFrom(list, k + 1, channo)
    else if channo < list[k].base then |list|
    else k
  }

  /** On a sorted list the early exit misses nothing. */
  lemma {:induction false} LookupIsSearch(list: seq<Entry>, k: nat, channo: nat)
    requires Sorted(list) && k <= |list|
    ensures var r := LookupFrom(list, k, channo);
            if r < |list| then Holds(list[r], channo) else forall j :: k <= j < |list| ==> !Holds(list[j], channo)
    decreases |list| - k
  {
    if k < |list| {
      if channo >= End(list[k]) {
        LookupIsSearch(list, k + 1, channo);
      } else {
        assert forall j :: k < j < |list| ==> End(list[k]) <= list[j].base;
      }
    }
  }

  /** A span whose channel numbers run past 2^32 is never found, whatever number is
      looked up and whatever else is on the list. */
  lemma {:induction false} WrappedSpanIsNeverFound(list: seq<Entry>, k: nat, from: nat, channo: nat)
    requires from <= |list| && k < |list|
    requires list[k].base < U32 <= End(list[k]) && list[k].channels < U32
    ensures LookupFrom(list, from, channo) != k
    decreases |list| - from
  {
    if from < |list| {
      if from == k {
        assert End(list[k]) % U32 == End(list[k]) - U32;
      }
      if channo >= End(list[from]) % U32 {
        WrappedSpanIsNeverFound(list, k, from + 1, channo);
      }
    }
  }

  // ------------------------------------------------------------- the list

  class Span {
    var spanno: nat
    var registered: bool
    /** The channel number of each channel. */
    const chans: array<nat>

    ghost predicate Consecutive()
      reads chans
    {
      && 1 <= chans.Length < U32 && chans[0] < U32
      && forall i :: 0 <= i < chans.Length ==> chans[i] == (chans[0] + i) % U32
    }

    ghost function View(): Entry
      requires chans.Length >= 1
      reads this, chans
    {
      Entry(spanno, chans[0], chans.Length)
    }

    constructor (channels: nat)
      requires 1 <= channels < U32
      ensures fresh(chans) && chans.Length == channels && !registered && spanno == 0
    {
      chans := new nat[channels](_ => 0);
      spanno, registered := 0, false;
    }

    method SetSpannoAndBasechan(spanno: nat, basechan: nat)
      requires 1 <= chans.Length < U32 && basechan < U32
      modifies this`spanno, chans
      ensures Consecutive() && View() == Entry(spanno, basechan, chans.Length)
    {
      this.spanno := spanno;
      for i := 0 to chans.Length
        invariant forall j :: 0 <= j < i ==> chans[j] == (basechan + j) % U32
        invariant this.spanno == spanno
      {
        chans[i] := (basechan + i) % U32;
      }
    }

    /** Numbers that do not wrap follow each other. */
    lemma NumbersFollow(i: nat)
      requires Consecutive() && i < chans.Length && chans[0] + i < U32
      ensures chans[i] == chans[0] + i
    {
    }
  }

  ghost predicate Distinct(spans: seq<Span>) {
    forall i, j :: 0 <= i < j < |spans| ==> spans[i] != spans[j] && spans[i].chans != spans[j].chans
  }

  lemma DistinctInsert(spans: seq<Span>, k: nat, span: Span)
    requires Distinct(spans) && k <= |spans|
    requires forall i :: 0 <= i < |spans| ==> spans[i] != span && spans[i].chans != span.chans
    ensures Distinct(spans[..k] + [span] + spans[k..])
  {
    var all := spans[..k] + [span] + spans[k..];
    forall i, j | 0 <= i < j < |all|
      ensures all[i] != all[j] && all[i].chans != all[j].chans
    {
      assert i != k ==> all[i] == spans[if i < k then i else i - 1];
      assert j != k ==> all[j] == spans[if j < k then j else j - 1];
    }
  }

  lemma DistinctRemove(spans: seq<Span>, k: nat)
    requires Distinct(spans) && k < |spans|
    ensures Distinct(spans[..k] + spans[k + 1..])
    ensures spans[k] !in spans[..k] + spans[k + 1..]
    ensures forall s :: s in spans[..k] + spans[k + 1..] ==> s.chans != spans[k].chans
  {
  }

  /** A number below the end of a span and not below its base is inside the span. */
  lemma FoundInside(base: nat, channels: nat, channo: nat)
    requires base < U32 && channels < U32 && base <= channo < (base + channels) % U32
    ensures base + channels < U32 && channo - base < channels
  {
  }

  datatype Lookup = OnSpan(span: Span, index: nat) | OnPseudo(index: nat) | NoSuchChannel

  datatype Outcome = Assigned | Invalid | Exists

  /** The place just after list[k - 1] fits if it ends before list[k] begins. */
  lemma GapFits(list: seq<Entry>, k: nat, spanno: nat, base: nat, channels: nat)
    requires Sorted(list) && k <= |list| && 1 <= base
    requires if k == 0 then spanno == 1 && base == 1 else spanno == list[k - 1].spanno + 1 && base == End(list[k - 1])
    requires k < |list| ==> spanno < list[k].spanno && base + channels <= list[k].base
    ensures Free(list, spanno) && Fits(list, spanno, base, channels)
    ensures forall b :: 1 <= b < base ==> !Fits(list, spanno, b, channels)
  {
    forall i | 0 <= i < |list|
      ensures list[i].spanno != spanno
      ensures if list[i].spanno <= spanno then End(list[i]) <= base else base + channels <= list[i].base
    {
      if k <= i {
        assert list[k].spanno <= list[i].spanno && list[k].base <= list[i].base;
      }
    }
    forall b | 1 <= b < base
      ensures !Fits(list, spanno, b, channels)
    {
      if k > 0 {
        assert list[k - 1].spanno <= spanno && b < End(list[k - 1]);
      }
    }
  }

  /** If the place just after list[k - 1] is too small, so is every span number up to
      that of list[k]. */
  lemma GapTooSmall(list: seq<Entry>, k: nat, spanno: nat, base: nat, channels: nat)
    requires Sorted(list) && k < |list|
    requires if k == 0 then spanno == 1 && base == 1 else spanno == list[k - 1].spanno + 1 && base == End(list[k - 1])
    requires base + channels > list[k].base
    ensures forall s, b :: spanno <= s < list[k].spanno && 1 <= b ==> !Fits(list, s, b, channels)
  {
    forall s, b | spanno <= s < list[k].spanno && 1 <= b
      ensures !Fits(list, s, b, channels)
    {
      if k > 0 {
        assert list[k - 1].spanno <= s;
        if b < base {
          assert b < End(list[k - 1]);
        }
      }
      assert list[k].spanno > s;
    }
  }

  // ------------------------------------------------------------- automatic numbering

  /** What _assign_spanno_and_basechan computes, from list place `k` on. */
  function AutomaticFrom(list: seq<Entry>, k: nat, spanno: nat, base: nat, channels: nat): (r: (nat, nat))
    requires k <= |list| && spanno < U32 && base < U32
    ensures r.0 < U32 && r.1 < U32
    decreases |list| - k
  {
    if k < |list| && (list[k].spanno <= spanno || (base + channels) % U32 > list[k].base) then
      AutomaticFrom(list, k + 1, (list[k].spanno + 1) % U32, End(list[k]) % U32, channels)
    else (spanno, base)
  }

  function Automatic(list: seq<Entry>, channels: nat): (nat, nat) {
    AutomaticFrom(list, 0, 1, 1, channels)
  }

  /** The place just after list[k - 1]. */
  ghost predicate PlaceAfter(list: seq<Entry>, k: nat, spanno: nat, base: nat)
    requires k <= |list|
  {
    if k == 0 then spanno == 1 && base == 1 else spanno == list[k - 1].spanno + 1 && base == End(list[k - 1])
  }

  ghost predicate NoneBelow(list: seq<Entry>, spanno: nat, channels: nat) {
    forall s, b :: 1 <= s < spanno && 1 <= b && Free(list, s) ==> !Fits(list, s, b, channels)
  }

  /** Going past a list entry misses no place that fits. */
  lemma PlaceAdvances(list: seq<Entry>, k: nat, spanno: nat, base: nat, channels: nat)
    requires Sorted(list) && k < |list| && PlaceAfter(list, k, spanno, base) && NoneBelow(list, spanno, channels)
    requires list[k].spanno <= spanno || base + channels > list[k].base
    ensures Sane(list[k]) && PlaceAfter(list, k + 1, list[k].spanno + 1, End(list[k]))
    ensures NoneBelow(list, list[k].spanno + 1, channels)
  {
    if list[k].spanno > spanno {
      GapTooSmall(list, k, spanno, base, channels);
    }
    forall s, b | 1 <= s < list[k].spanno + 1 && 1 <= b && Free(list, s)
      ensures !Fits(list, s, b, channels)
    {
      assert s != list[k].spanno;
    }
  }

  lemma NothingBelow(list: seq<Entry>, k: nat, spanno: nat, base: nat, channels: nat)
    requires Sorted(list) && k <= |list| && PlaceAfter(list, k, spanno, base) && (k < |list| ==> spanno < list[k].spanno)
    requires NoneBelow(list, spanno, channels)
    ensures 1 <= spanno <= S31 && Free(list, spanno)
    ensures forall s, b :: 1 <= s && 1 <= b && Free(list, s) && Fits(list, s, b, channels) ==> spanno <= s && base <= b
  {
    assert k > 0 ==> Sane(list[k - 1]);
    forall s, b | 1 <= s && 1 <= b && Free(list, s) && Fits(list, s, b, channels)
      ensures spanno <= s && base <= b
    {
      assert !(s < spanno);
      if k > 0 {
        assert list[k - 1].spanno <= s;
      }
    }
    forall i | 0 <= i < |list| ensures list[i].spanno != spanno {
      if i < k {
        assert list[i].spanno <= list[k - 1].spanno;
      } else {
        assert list[k].spanno <= list[i].spanno;
      }
    }
  }

  /** No span fits at a lower number, and the place is the first fit unless its numbers
      wrap. */
  ghost predicate Found(list: seq<Entry>, spanno: nat, base: nat, channels: nat) {
    && 1 <= spanno <= S31 && Free(list, spanno)
    && (base + channels < U32 ==> FirstFit(list, spanno, base, channels))
    && forall s, b :: 1 <= s && 1 <= b && Free(list, s) && Fits(list, s, b, channels) ==> spanno <= s && base <= b
  }

  lemma PlaceIsFound(list: seq<Entry>, k: nat, spanno: nat, base: nat, channels: nat)
    requires Sorted(list) && k <= |list| && channels >= 1 && PlaceAfter(list, k, spanno, base)
    requires NoneBelow(list, spanno, channels)
    requires k < |list| ==> spanno < list[k].spanno && (base + channels) % U32 <= list[k].base
    ensures Found(list, spanno, base, channels)
  {
    NothingBelow(list, k, spanno, base, channels);
    if base + channels < U32 {
      assert (base + channels) % U32 == base + channels;
      assert base >= 1 by {
        if k > 0 {
          assert Sane(list[k - 1]);
        }
      }
      GapFits(list, k, spanno, base, channels);
    }
  }

  lemma AutomaticStep(list: seq<Entry>, k: nat, spanno: nat, base: nat, channels: nat)
    requires k < |list| && spanno < U32 && base < U32 && list[k].spanno + 1 < U32 && End(list[k]) < U32
    requires list[k].spanno <= spanno || (base + channels) % U32 > list[k].base
    ensures AutomaticFrom(list, k, spanno, base, channels)
         == AutomaticFrom(list, k + 1, list[k].spanno + 1, End(list[k]), channels)
    ensures list[k].spanno <= spanno || base + channels > list[k].base
  {
    assert (list[k].spanno + 1) % U32 == list[k].spanno + 1 && End(list[k]) % U32 == End(list[k]);
    assert (base + channels) % U32 <= base + channels;
  }

  lemma {:induction false} AutomaticSearches(list: seq<Entry>, k: nat, spanno: nat, base: nat, channels: nat)
    requires Sorted(list) && k <= |list| && channels >= 1 && PlaceAfter(list, k, spanno, base) && spanno < U32 && base < U32
    requires NoneBelow(list, spanno, channels)
    ensures var r := AutomaticFrom(list, k, spanno, base, channels); Found(list, r.0, r.1, channels)
    decreases |list| - k
  {
    if k < |list| && (list[k].spanno <= spanno || (base + channels) % U32 > list[k].base) {
      assert Sane(list[k]);
      AutomaticStep(list, k, spanno, base, channels);
      PlaceAdvances(list, k, spanno, base, channels);
      AutomaticSearches(list, k + 1, list[k].spanno + 1, End(list[k]), channels);
    } else {
      PlaceIsFound(list, k, spanno, base, channels);
    }
  }

  /** Automatic numbering finds the first fit if that does not wrap; if it does, so does what
      is found. */
  lemma AutomaticIsExact(list: seq<Entry>, channels: nat, spanno: nat, base: nat)
    requires Sorted(list) && channels >= 1 && FirstFit(list, spanno, base, channels)
    ensures var (s, b) := Automatic(list, channels);
            && 1 <= s && Free(list, s) && (b + channels < U32 <==> base + channels < U32)
            && (base + channels < U32 ==> (s, b) == (spanno, base))
            && (Sane(Entry(s, b, channels)) <==> Sane(Entry(spanno, base, channels)))
  {
    AutomaticSearches(list, 0, 1, 1, channels);
    var (s, b) := Automatic(list, channels);
    if b + channels < U32 {
      FirstFitIsUnique(list, channels, s, b, spanno, base);
    }
  }

  /** The same for whatever the first fit is. */
  ghost predicate IsFirstFit(list: seq<Entry>, spanno: nat, base: nat, channels: nat) {
    forall s: nat, b: nat :: FirstFit(list, s, b, channels) ==>
      (base + channels < U32 <==> b + channels < U32) && (b + channels < U32 ==> (spanno, base) == (s, b))
  }

  lemma AutomaticIsFirstFit(list: seq<Entry>, channels: nat)
    requires Sorted(list) && channels >= 1
    ensures IsFirstFit(list, Automatic(list, channels).0, Automatic(list, channels).1, channels)
  {
    forall s: nat, b: nat | FirstFit(list, s, b, channels)
      ensures Automatic(list, channels).1 + channels < U32 <==> b + channels < U32
      ensures b + channels < U32 ==> Automatic(list, channels) == (s, b)
    {
      AutomaticIsExact(list, channels, s, b);
    }
  }

  /** There always is a first fit, at the end of the list at the latest. */
  lemma {:induction false} FirstFitExists(list: seq<Entry>, k: nat, spanno: nat, base: nat, channels: nat)
    returns (s: nat, b: nat)
    requires Sorted(list) && k <= |list| && channels >= 1 && PlaceAfter(list, k, spanno, base)
    requires NoneBelow(list, spanno, channels)
    ensures FirstFit(list, s, b, channels)
    decreases |list| - k
  {
    if k < |list| && (list[k].spanno <= spanno || base + channels > list[k].base) {
      PlaceAdvances(list, k, spanno, base, channels);
      s, b := FirstFitExists(list, k + 1, list[k].spanno + 1, End(list[k]), channels);
    } else {
      GapFits(list, k, spanno, base, channels);
      s, b := spanno, base;
    }
  }

  /** A first fit that wraps, although the list is in order. */
  lemma FirstFitMayWrap()
    ensures var list := [Entry(1, U32 - 2, 1)];
            Sorted(list) && FirstFit(list, 2, U32 - 1, 2) && Automatic(list, 2) == (2, U32 - 1)
  {
    var list := [Entry(1, U32 - 2, 1)];
    GapFits(list, 1, 2, U32 - 1, 2);
    assert !Free(list, 1) by {
      assert list[0].spanno == 1;
    }
    assert AutomaticFrom(list, 1, 2, U32 - 1, 2) == (2, U32 - 1);
  }

  /** Then even a place that is too small may be given out: the second channel here gets
      the number that the next span has. */
  lemma WrappedGapIsGivenOut()
    ensures var list := [Entry(1, U32 - 10, 5), Entry(3, U32 - 4, 1)];
            && Sorted(list) && Automatic(list, 6) == (2, U32 - 5)
            && !Fits(list, 2, U32 - 5, 6) && FirstFit(list, 4, U32 - 3, 6)
  {
    var list := [Entry(1, U32 - 10, 5), Entry(3, U32 - 4, 1)];
    assert AutomaticFrom(list, 1, 2, U32 - 5, 6) == (2, U32 - 5);
    assert list[1].spanno > 2;
    GapFits(list, 2, 4, U32 - 3, 6);
    forall s, b | 1 <= s < 4 && 1 <= b && Free(list, s) ensures !Fits(list, s, b, 6) {
      assert list[0].spanno != s && list[1].spanno != s;
    }
  }

  // ------------------------------------------------------------- places on the list

  /** The span number is stored as a signed number. */
  function Signed(n: nat): int {
    if n < S31 then n else n - U32
  }

  /** The first list place from `k` on that has a higher number, as signed ones. */
  function PlaceFrom(list: seq<Entry>, k: nat, spanno: nat): (r: nat)
    requires k <= |list|
    ensures k <= r <= |list| && (r < |list| ==> Signed(list[r].spanno) > Signed(spanno))
    ensures forall i :: k <= i < r ==> Signed(list[i].spanno) <= Signed(spanno)
    decreases |list| - k
  {
    if k < |list| && Signed(list[k].spanno) <= Signed(spanno) then PlaceFrom(list, k + 1, spanno) else k
  }

  function Inserted(list: seq<Entry>, e: Entry): seq<Entry> {
    var k := PlaceFrom(list, 0, e.spanno);
    list[..k] + [e] + list[k..]
  }

  /** So a number that the test takes for a high one goes to the front. */
  lemma NegativeNumberGoesFirst()
    ensures var list := [Entry(1, 1, 1)];
            && Sorted(list) && CheckFrom(list, 0, S31, 5, 1)
            && Inserted(list, Entry(S31, 5, 1)) == [Entry(S31, 5, 1), Entry(1, 1, 1)]
  {
    assert CheckFrom([Entry(1, 1, 1)], 1, S31, 5, 1);
  }

  /** A new number leaves the list in order exactly when the span is sane and fits. */
  lemma InsertedIsSorted(list: seq<Entry>, e: Entry)
    requires Sorted(list) && Free(list, e.spanno)
    ensures Sorted(Inserted(list, e)) <==> Sane(e) && Fits(list, e.spanno, e.base, e.channels)
  {
    var k := PlaceFrom(list, 0, e.spanno);
    if Sane(e) {
      forall i | 0 <= i < |list|
        ensures if i < k then list[i].spanno <= e.spanno else e.spanno < list[i].spanno
      {
        if i >= k {
          assert Sane(list[k]) && list[k].spanno <= list[i].spanno;
        }
      }
    }
    if Sane(e) && Fits(list, e.spanno, e.base, e.channels) {
      InsertKeepsSorted(list, k, e);
    } else {
      InsertBreaksSorted(list, k, e);
    }
  }

  /** A span that is taken off the list again leaves it as it was. */
  lemma RemovingUndoesInserting<T>(s: seq<T>, k: nat, x: T)
    requires k <= |s|
    ensures var t := s[..k] + [x] + s[k..]; t[..k] + t[k + 1..] == s
  {
  }

  /** The numbers that a request gets. */
  function Wanted(list: seq<Entry>, spanno: nat, basechan: nat, channels: nat): Entry {
    if spanno > 0 then Entry(spanno, basechan, channels)
    else Entry(Automatic(list, channels).0, Automatic(list, channels).1, channels)
  }

  /** On a list in order, an assignment leaves it in order exactly when the numbers asked
      for, or the first fit, are a positive span number and channel numbers that do not
      wrap. */
  lemma AssignedIsSorted(list: seq<Entry>, spanno: nat, basechan: nat, channels: nat)
    requires Sorted(list) && 1 <= channels < U32 && basechan < U32
    requires spanno > 0 ==> CheckFrom(list, 0, spanno, basechan, channels)
    requires Free(list, Wanted(list, spanno, basechan, channels).spanno)
    ensures var e := Wanted(list, spanno, basechan, channels); Sorted(Inserted(list, e)) <==> Sane(e)
  {
    var e := Wanted(list, spanno, basechan, channels);
    InsertedIsSorted(list, e);
    if Sane(e) {
      if spanno > 0 {
        CheckTestsNeighbours(list, 0, spanno, basechan, channels);
        CheckIsExact(list, spanno, basechan, channels);
      } else {
        AutomaticSearches(list, 0, 1, 1, channels);
      }
    }
  }

  /** Automatic numbering leaves a list in order exactly when the first fit does. */
  lemma AutomaticIsSorted(list: seq<Entry>, channels: nat, spanno: nat, base: nat)
    requires Sorted(list) && 1 <= channels < U32 && FirstFit(list, spanno, base, channels)
    ensures Sorted(Inserted(list, Wanted(list, 0, 0, channels))) <==> spanno < S31 && base + channels < U32
  {
    AutomaticIsExact(list, channels, spanno, base);
    AssignedIsSorted(list, 0, 0, channels);
  }

  class Registry {
    var spans: seq<Span>
    /** The channel numbers of the pseudo channels. */
    var pseudos: seq<nat>
    /** What the spans on the list say, in list order. */
    ghost var list: seq<Entry>

    /** The list says what the spans say. */
    ghost predicate Shape()
      reads this, spans, set s | s in spans :: s.chans
    {
      && |spans| == |list| && Distinct(spans)
      && (forall i :: 0 <= i < |spans| ==> spans[i].registered && spans[i].Consecutive() && spans[i].View() == list[i])
      && (forall i :: 0 <= i < |list| ==> list[i].spanno < U32)
    }

    ghost predicate Valid()
      reads this, spans, set s | s in spans :: s.chans
    {
      Shape() && Sorted(list)
    }

    ghost predicate Knows(span: Span)
      reads this, span
    {
      && 1 <= span.chans.Length < U32 && (span.registered <==> span in spans)
      && (span !in spans ==> forall i :: 0 <= i < |spans| ==> spans[i].chans != span.chans)
    }

    constructor ()
      ensures Valid() && list == [] && pseudos == []
    {
      spans, pseudos, list := [], [], [];
    }

    /** Lookup with the early exit that sorting allows; on a sorted list it equals
        searching every span. */
    method ChanFromNum(channo: nat) returns (r: Lookup)
      requires Shape()
      ensures channo >= 0x8000 ==>
        match r
        case OnSpan(_, _) => false
        case OnPseudo(k) => k < |pseudos| && pseudos[k] == channo
        case NoSuchChannel => channo !in pseudos
      ensures channo < 0x8000 ==>
        match r
        case OnSpan(s, i) =>
          && LookupFrom(list, 0, channo) < |list| && s == spans[LookupFrom(list, 0, channo)]
          && i < s.chans.Length && s.chans[i] == channo
        case OnPseudo(_) => false
        case NoSuchChannel => LookupFrom(list, 0, channo) == |list|
      ensures channo < 0x8000 && Sorted(list) && r == NoSuchChannel ==>
        forall s, i :: s in spans && 0 <= i < s.chans.Length ==> s.chans[i] != channo
    {
      if channo >= FIRST_PSEUDO_CHANNEL {
        for k := 0 to |pseudos|
          invariant channo !in pseudos[..k]
        {
          if pseudos[k] == channo {
            return OnPseudo(k);
          }
        }
        return NoSuchChannel;
      }
      for k := 0 to |spans|
        invariant LookupFrom(list, 0, channo) == LookupFrom(list, k, channo)
      {
        var s := spans[k];
        assert list[k] == s.View() && s.Consecutive();
        var basechan := s.chans[0];
        if channo >= (basechan + s.chans.Length) % U32 {
          continue;
        }
        if channo < basechan {
          NotHeld(channo);
          return NoSuchChannel;
        }
        FoundInside(basechan, s.chans.Length, channo);
        s.NumbersFollow(channo - basechan);
        return OnSpan(s, channo - basechan);
      }
      NotHeld(channo);
      return NoSuchChannel;
    }

    lemma NotHeld(channo: nat)
      requires Shape() && LookupFrom(list, 0, channo) == |list|
      ensures Sorted(list) ==> forall s, i :: s in spans && 0 <= i < s.chans.Length ==> s.chans[i] != channo
    {
      if Sorted(list) {
        LookupIsSearch(list, 0, channo);
        forall s, i | s in spans && 0 <= i < s.chans.Length
          ensures s.chans[i] != channo
        {
          var j :| 0 <= j < |spans| && spans[j] == s;
          assert list[j] == s.View() && Sane(list[j]);
          s.NumbersFollow(i);
        }
      }
    }

    /** The loop over the list. */
    method FindPlace(channels: nat) returns (spanno: nat, basechan: nat)
      requires Shape() && 1 <= channels < U32
      ensures spanno < U32 && basechan < U32 && (spanno, basechan) == Automatic(list, channels)
    {
      spanno, basechan := 1, 1;
      for k := 0 to |spans|
        invariant spanno < U32 && basechan < U32
        invariant Automatic(list, channels) == AutomaticFrom(list, k, spanno, basechan, channels)
      {
        var pos := spans[k];
        assert list[k] == pos.View() && pos.Consecutive();
        if pos.spanno <= spanno {
          spanno := (pos.spanno + 1) % U32;
          basechan := (pos.chans[0] + pos.chans.Length) % U32;
          continue;
        }
        var nextChanno := pos.chans[0];
        if (basechan + channels) % U32 <= nextChanno { return; }
        spanno := (pos.spanno + 1) % U32;
        basechan := (pos.chans[0] + pos.chans.Length) % U32;
      }
    }

    /** Automatic numbering, which finds the first fit as far as there are numbers. */
    method AssignSpannoAndBasechan(channels: nat) returns (spanno: nat, basechan: nat)
      requires Shape() && 1 <= channels < U32
      ensures spanno < U32 && basechan < U32 && (spanno, basechan) == Automatic(list, channels)
      ensures Sorted(list) ==> IsFirstFit(list, spanno, basechan, channels)
    {
      spanno, basechan := FindPlace(channels);
      if Sorted(list) {
        AutomaticIsFirstFit(list, channels);
      }
    }

    /** The requested place is accepted exactly when the test says so. */
    method CheckSpannoAndBasechan(spanno: nat, basechan: nat, channels: nat) returns (ok: bool)
      requires Shape() && basechan < U32 && channels < U32
      ensures ok <==> CheckFrom(list, 0, spanno, basechan, channels)
      ensures Sorted(list) ==> (ok <==> CheckAccepts(list, spanno, basechan, channels))
    {
      if Sorted(list) {
        CheckTestsNeighbours(list, 0, spanno, basechan, channels);
      }
      for k := 0 to |spans|
        invariant CheckFrom(list, 0, spanno, basechan, channels) == CheckFrom(list, k, spanno, basechan, channels)
      {
        var pos := spans[k];
        assert list[k] == pos.View() && pos.Consecutive();
        var nextChanno := pos.chans[0];
        if pos.spanno <= spanno {
          if basechan < (nextChanno + pos.chans.Length) % U32 {
            return false;
          }
          continue;
        }
        if nextChanno == U32 - 1 { return true; }
        return (basechan + channels) % U32 <= nextChanno;
      }
      return true;
    }

    /** Gives a span its span and channel numbers, without listing it. */
    method Number(span: Span, spanno: nat, basechan: nat) returns (ok: bool)
      requires Shape() && Knows(span) && span !in spans && basechan < U32 && spanno < U32
      modifies span`spanno, span.chans
      ensures Shape()
      ensures ok <==> spanno == 0 || CheckFrom(list, 0, spanno, basechan, span.chans.Length)
      ensures ok ==> span.Consecutive() && span.spanno < U32 && span.View() == Wanted(list, spanno, basechan, span.chans.Length)
      ensures ok && spanno > 0 ==> span.spanno == spanno && span.chans[0] == basechan
    {
      var channels := span.chans.Length;
      var number, base := spanno, basechan;
      if spanno == 0 {
        number, base := AssignSpannoAndBasechan(channels);
      } else {
        ok := CheckSpannoAndBasechan(spanno, basechan, channels);
        if !ok { return false; }
      }
      span.SetSpannoAndBasechan(number, base);
      ok := true;
    }

    /** Puts a numbered span at its place in the list, which stays sorted exactly when
        the span fits there and its numbers are sane. */
    method AddSpanToSpanList(span: Span) returns (ghost k: nat)
      requires Shape() && Knows(span) && span !in spans && span.Consecutive() && span.spanno < U32
      modifies this`spans, this`list, span`registered
      ensures Shape() && Knows(span) && span.registered
      ensures k <= |old(list)| && spans == old(spans)[..k] + [span] + old(spans)[k..]
      ensures k == PlaceFrom(old(list), 0, span.spanno) && list == Inserted(old(list), span.View())
      ensures Sorted(old(list)) && Free(old(list), span.spanno) ==>
        (Sorted(list) <==> Sane(span.View()) && Fits(old(list), span.spanno, span.View().base, span.chans.Length))
    {
      if Sorted(list) && Free(list, span.spanno) {
        InsertedIsSorted(list, span.View());
      }
      var pos := 0;
      while pos < |spans| && Signed(spans[pos].spanno) <= Signed(span.spanno)
        invariant 0 <= pos <= |spans| && PlaceFrom(list, 0, span.spanno) == PlaceFrom(list, pos, span.spanno)
      {
        assert spans[pos].View() == list[pos];
        pos := pos + 1;
      }
      assert pos < |spans| ==> spans[pos].View() == list[pos];
      k := pos;
      Insert(span, pos);
    }

    method Insert(span: Span, pos: nat)
      requires Shape() && Knows(span) && span !in spans && pos <= |spans| && span.Consecutive() && span.spanno < U32
      modifies this`spans, this`list, span`registered
      ensures Shape() && Knows(span) && span.registered
      ensures spans == old(spans)[..pos] + [span] + old(spans)[pos..]
      ensures list == old(list)[..pos] + [span.View()] + old(list)[pos..]
    {
      ghost var before := spans;
      DistinctInsert(spans, pos, span);
      span.registered := true;
      spans := spans[..pos] + [span] + spans[pos..];
      list := list[..pos] + [span.View()] + list[pos..];
      InsertedAt(before, pos, span);
      InsertedAt(old(list), pos, span.View());
    }

    method Remove(span: Span, pos: nat)
      requires Shape() && pos < |spans| && spans[pos] == span
      modifies this`spans, this`list, span
      ensures Shape() && Knows(span) && !span.registered
      ensures list == old(list)[..pos] + old(list)[pos + 1..] && spans == old(spans)[..pos] + old(spans)[pos + 1..]
    {
      ghost var before := spans;
      DistinctRemove(spans, pos);
      spans := spans[..pos] + spans[pos + 1..];
      list := list[..pos] + list[pos + 1..];
      span.spanno := 0;
      span.registered := false;
      RemovedAt(before, pos);
      RemovedAt(old(list), pos);
    }

    /** Is there a span with this number? */
    method NameTaken(spanno: nat) returns (taken: bool)
      requires Shape()
      ensures taken <==> !Free(list, spanno)
    {
      for i := 0 to |spans|
        invariant forall j :: 0 <= j < i ==> list[j].spanno != spanno
      {
        assert spans[i].View() == list[i];
        if spans[i].spanno == spanno {
          return true;
        }
      }
      return false;
    }

    /** dahdi_assign_span: `spanno` 0 asks for automatic numbering. A span number in
        use is refused when the span's device is created. */
    method Assign(span: Span, spanno: nat, basechan: nat) returns (r: Outcome, ghost k: nat)
      requires Shape() && Knows(span) && basechan < U32 && spanno < U32
      modifies this`spans, this`list, span, span.chans
      ensures Shape() && Knows(span)
      ensures r == Invalid <==>
        old(span.registered) || (spanno > 0 && !CheckFrom(old(list), 0, spanno, basechan, span.chans.Length))
      ensures r == Exists <==>
        r != Invalid && !Free(old(list), Wanted(old(list), spanno, basechan, span.chans.Length).spanno)
      ensures r != Assigned ==> list == old(list) && spans == old(spans)
      ensures r == Assigned ==>
        && span.View() == Wanted(old(list), spanno, basechan, span.chans.Length) && list == Inserted(old(list), span.View())
        && k <= |old(spans)| && spans == old(spans)[..k] + [span] + old(spans)[k..]
        && k == PlaceFrom(old(list), 0, span.spanno)
      ensures r == Assigned && spanno > 0 ==> span.spanno == spanno && span.chans[0] == basechan
      ensures old(Valid()) ==> (Valid() <==> !(r == Assigned && !Sane(span.View())))
      ensures old(Valid()) && spanno == 0 ==> r != Exists
    {
      k := 0;
      if span.registered { return Invalid, 0; }
      if Sorted(list) && spanno == 0 {
        AutomaticSearches(list, 0, 1, 1, span.chans.Length);
      }
      var ok := Number(span, spanno, basechan);
      if !ok { return Invalid, 0; }
      var taken := NameTaken(span.spanno);
      if taken { return Exists, 0; }
      if Sorted(list) {
        AssignedIsSorted(list, spanno, basechan, span.chans.Length);
      }
      k := AddSpanToSpanList(span);
      r := Assigned;
    }

    /** A span leaves the list; its numbers become free again. */
    method Unassign(span: Span) returns (ok: bool, ghost k: nat)
      requires Shape() && Knows(span)
      modifies this`spans, this`list, span
      ensures Shape() && Knows(span) && !span.registered
      ensures old(Valid()) ==> Valid()
      ensures ok == old(span.registered)
      ensures ok ==> k < |old(spans)| && old(spans)[k] == span
      ensures ok ==> list == old(list)[..k] + old(list)[k + 1..] && spans == old(spans)[..k] + old(spans)[k + 1..]
      ensures !ok ==> list == old(list) && spans == old(spans)
    {
      if !span.registered { return false, 0; }
      var pos := 0;
      while spans[pos] != span
        invariant 0 <= pos < |spans| && span in spans[pos..]
        decreases |spans| - pos
      {
        pos := pos + 1;
      }
      k := pos;
      if Sorted(list) {
        RemoveKeepsSorted(list, pos);
      }
      Remove(span, pos);
      ok := true;
    }

    /** A span that is assigned and unassigned leaves the registry as it was, in order again
        even if its numbers were not. */
    method AssignAndUnassign(span: Span, spanno: nat, basechan: nat)
      requires Shape() && Knows(span) && !span.registered && basechan < U32 && spanno < U32
      modifies this`spans, this`list, span, span.chans
      ensures Shape() && Knows(span) && !span.registered && list == old(list) && spans == old(spans)
      ensures old(Valid()) ==> Valid()
    {
      var r, k := Assign(span, spanno, basechan);
      assert r == Assigned ==> span.registered;
      ghost var during := list;
      var ok, j := Unassign(span);
      if ok {
        assert j == k;
        RemovingUndoesInserting(old(list), k, during[k]);
        RemovingUndoesInserting(old(spans), k, span);
      }
    }
  }
}
