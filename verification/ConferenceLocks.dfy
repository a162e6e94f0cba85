/** Conference requests of several processes at once, split where the channel lock is
    taken and given back: the check of a conference looks for members under the lock and
    clears the alias without it. */
module ConferenceLocks {
  import opened Words
  import opened ConferenceAliases

  /** `pending` are the conferences that a check found empty and has not cleared yet. */
  datatype State = State(alias: seq<int>, rev: seq<int>, members: seq<Member>, pending: multiset<int>)

  /** The two parts of a check, the locked part of DAHDI_SETCONF and that of a close. */
  datatype Step =
    | Scan(x: int)
    | Clear(x: int)
    | Enter(i: nat, confno: int, confmode: nat)
    | Exit(i: nat)

  ghost predicate Shaped(s: State) {
    && Inverse(s.alias, s.rev) && (forall i :: 0 <= i < |s.members| ==> s.members[i].confna < |s.alias|)
    && forall x :: x in s.pending ==> 1 <= x < |s.alias|
  }

  /** Every member of a conference holds its live alias. */
  ghost predicate Good(s: State) {
    Shaped(s) && Served(s.alias, s.members)
  }

  /** The first alias from `a` on that is not used, or the end of the table. */
  ghost function Next(alias: seq<int>, a: nat): (r: nat)
    requires 1 <= a < |alias|
    ensures a <= r < |alias| && (r < |alias| - 1 ==> Unused(alias, r))
    ensures forall b :: a <= b < r ==> !Unused(alias, b)
    decreases |alias| - a
  {
    if a == |alias| - 1 || Unused(alias, a) then a else Next(alias, a + 1)
  }

  /** The alias that a channel gets in conference `x`; the end of the table if none is free. */
  ghost function AliasFor(alias: seq<int>, x: int): (a: int)
    requires 0 <= x < |alias| && |alias| >= 2
    ensures alias[x] != 0 || a < |alias| - 1 ==> Aliased(alias, x, a)
  {
    if alias[x] != 0 then alias[x] else Next(alias, 1)
  }

  /** A step that joins a conference, unless no alias is left for it. */
  ghost predicate Joins(s: State, i: nat, confno: int, confmode: nat)
    requires Shaped(s)
  {
    && i < |s.members| && confno < |s.alias|
    && (Summing(confmode) ==> confno >= 1 && (s.alias[confno] != 0 || AliasFor(s.alias, confno) < |s.alias| - 1))
  }

  /** One step; one that its process cannot make does nothing. */
  ghost function Do(s: State, step: Step): State
    requires Shaped(s)
  {
    match step
    case Scan(x) =>
      if 1 <= x < |s.alias| && s.alias[x] != 0 && !Populated(s.members, x) then s.(pending := s.pending + multiset{x}) else s
    case Clear(x) =>
      if x in s.pending
      then State(s.alias[x := 0], s.rev[s.alias[x] := 0], s.members, s.pending - multiset{x}) else s
    case Enter(i, confno, confmode) =>
      if !Joins(s, i, confno, confmode) then s
      else if !Summing(confmode) then s.(members := s.members[i := Member(confno, confmode, 0)])
      else
        var a := AliasFor(s.alias, confno);
        State(s.alias[confno := a], s.rev[a := confno], s.members[i := Member(confno, confmode, a)], s.pending)
    case Exit(i) =>
      if i < |s.members| then s.(members := s.members[i := Member(0, 0, 0)]) else s
  }

  lemma EnterKeepsInverse(alias: seq<int>, rev: seq<int>, x: int, a: int)
    requires Inverse(alias, rev) && 1 <= x < |alias| && Aliased(alias, x, a)
    ensures Inverse(alias[x := a], rev[a := x])
  {
    if alias[x] == 0 {
      UnusedIsFree(alias, rev, a);
      InverseAfterAllocation(alias, rev, x, a);
    } else {
      assert rev[a] == x;
      assert alias[x := a] == alias && rev[a := x] == rev;
    }
  }

  lemma StepKeepsShape(s: State, step: Step)
    requires Shaped(s)
    ensures Shaped(Do(s, step)) && |Do(s, step).members| == |s.members| && |Do(s, step).alias| == |s.alias|
  {
    match step
    case Clear(x) =>
      if x in s.pending {
        ReleaseKeepsInverse(s.alias, s.rev, x);
      }
    case Enter(i, confno, confmode) =>
      if Joins(s, i, confno, confmode) && Summing(confmode) {
        EnterKeepsInverse(s.alias, s.rev, confno, AliasFor(s.alias, confno));
      }
    case _ =>
  }

  /** A clear finds the conference still empty, or its alias gone already. */
  ghost predicate Safe(s: State, step: Step)
    requires Shaped(s)
  {
    step.Clear? && step.x in s.pending && s.alias[step.x] != 0 ==> !Populated(s.members, step.x)
  }

  /** Only a clear that comes too late takes an alias from a member, and every such does. */
  lemma StepIsExact(s: State, step: Step)
    requires Good(s)
    ensures Good(Do(s, step)) <==> Safe(s, step)
  {
    StepKeepsShape(s, step);
    match step
    case Clear(x) =>
      if Populated(s.members, x) {
        var i :| 0 <= i < |s.members| && In(s.members[i], x);
        assert x in s.pending ==> Do(s, step).alias[s.members[i].confna] == 0;
      } else {
        assert forall i :: 0 <= i < |s.members| && Summing(s.members[i].confmode) ==> !In(s.members[i], x);
      }
    case _ =>
  }

  // ---------------------------------------------------------- runs

  ghost function After(s: State, steps: seq<Step>): (t: State)
    requires Shaped(s)
    ensures Shaped(t) && |t.members| == |s.members| && |t.alias| == |s.alias|
    decreases |steps|
  {
    if steps == [] then s
    else
      var t := After(s, steps[..|steps| - 1]);
      StepKeepsShape(t, steps[|steps| - 1]);
      Do(t, steps[|steps| - 1])
  }

  /** No clear of the run comes too late. */
  ghost predicate AllSafe(s: State, steps: seq<Step>)
    requires Shaped(s)
    decreases |steps|
  {
    steps == []
    || (AllSafe(s, steps[..|steps| - 1]) && Safe(After(s, steps[..|steps| - 1]), steps[|steps| - 1]))
  }

  ghost predicate AlwaysGood(s: State, steps: seq<Step>)
    requires Shaped(s)
    decreases |steps|
  {
    Good(After(s, steps)) && (steps == [] || AlwaysGood(s, steps[..|steps| - 1]))
  }

  /** Over every interleaving the members of all conferences hold their live aliases
      throughout if and only if no clear comes too late. */
  lemma {:induction false} RunIsExact(s: State, steps: seq<Step>)
    requires Good(s)
    ensures AlwaysGood(s, steps) <==> AllSafe(s, steps)
    decreases |steps|
  {
    if steps != [] {
      var before := steps[..|steps| - 1];
      RunIsExact(s, before);
      if AlwaysGood(s, before) {
        assert Good(After(s, before)) by {
          assert AlwaysGood(s, before);
        }
        StepIsExact(After(s, before), steps[|steps| - 1]);
      }
    }
  }

  ghost predicate NobodyEnters(steps: seq<Step>, x: int) {
    forall k :: 0 <= k < |steps| && steps[k].Enter? && Summing(steps[k].confmode) ==> steps[k].confno != x
  }

  lemma StepStaysEmpty(s: State, step: Step, x: int)
    requires Shaped(s) && !Populated(s.members, x)
    requires step.Enter? && Summing(step.confmode) ==> step.confno != x
    ensures !Populated(Do(s, step).members, x)
  {
    var t := Do(s, step);
    forall i | 0 <= i < |t.members| ensures !In(t.members[i], x) {
      assert i < |s.members| && !In(s.members[i], x);
    }
  }

  /** A conference found empty stays so while nobody enters it; so a clear is safe if
      nobody entered the conference since it was looked at. */
  lemma {:induction false} EmptyStays(s: State, steps: seq<Step>, x: int)
    requires Shaped(s) && !Populated(s.members, x) && NobodyEnters(steps, x)
    ensures !Populated(After(s, steps).members, x) && Safe(After(s, steps), Clear(x))
    decreases |steps|
  {
    if steps != [] {
      var n := |steps| - 1;
      EmptyStays(s, steps[..n], x);
      StepStaysEmpty(After(s, steps[..n]), steps[n], x);
    }
  }

  /** With nothing in between, the two parts are the check as one step. */
  lemma CheckAtOnce(s: State, x: int)
    requires Shaped(s) && x < |s.alias| && x !in s.pending
    ensures Shaped(Do(s, Scan(x)))
    ensures var t := Do(Do(s, Scan(x)), Clear(x));
            t.alias == Checked(s.alias, s.members, x) && t.members == s.members && t.pending == s.pending
  {
    StepKeepsShape(s, Scan(x));
    if 1 <= x && s.alias[x] == 0 {
      assert s.alias[x := 0] == s.alias;
    }
  }

  // ---------------------------------------------------------- a clear that comes too late

  lemma LastMemberLeaves(s: State, i: nat, x: int)
    requires Good(s) && i < |s.members| && In(s.members[i], x) && Alone(s.members, i, x)
    ensures var t := Do(s, Exit(i)); Good(t) && Do(t, Scan(x)) == t.(pending := t.pending + multiset{x})
  {
    StepIsExact(s, Exit(i));
    var t := Do(s, Exit(i));
    forall j | 0 <= j < |t.members| ensures !In(t.members[j], x) {
      assert j != i ==> !In(s.members[j], x);
    }
  }

  lemma EnteredTooEarly(s: State, j: nat, x: int, confmode: nat)
    requires Good(s) && x in s.pending && s.alias[x] != 0 && j < |s.members| && Summing(confmode)
    ensures var t := Do(s, Enter(j, x, confmode));
            Good(t) && !Good(Do(t, Clear(x))) && In(Do(t, Clear(x)).members[j], x) && Do(t, Clear(x)).alias[x] == 0
  {
    var t := Do(s, Enter(j, x, confmode));
    StepIsExact(s, Enter(j, x, confmode));
    assert In(t.members[j], x);
    StepIsExact(t, Clear(x));
  }

  lemma AfterOne(s: State, steps: seq<Step>, step: Step)
    requires Shaped(s)
    ensures After(s, steps + [step]) == Do(After(s, steps), step)
  {
    assert (steps + [step])[..|steps|] == steps;
  }

  lemma AfterTwo(s: State, steps: seq<Step>, a: Step, b: Step)
    requires Shaped(s)
    ensures Shaped(Do(After(s, steps), a)) && After(s, steps + [a, b]) == Do(Do(After(s, steps), a), b)
  {
    AfterOne(s, steps, a);
    AfterOne(s, steps + [a], b);
    assert steps + [a] + [b] == steps + [a, b];
  }

  /** The last member leaves a conference, its check finds it empty, another channel enters
      it before the alias is cleared: that one is left with an alias that the table does
      not know. */
  lemma LateClearTakesAlias(s: State, i: nat, j: nat, x: int, confmode: nat)
    requires Good(s) && i < |s.members| && In(s.members[i], x) && Alone(s.members, i, x)
    requires j < |s.members| && Summing(confmode)
    ensures var t := After(s, [Exit(i), Scan(x)] + [Enter(j, x, confmode), Clear(x)]);
            !Good(t) && In(t.members[j], x) && t.alias[x] == 0
  {
    LastMemberLeaves(s, i, x);
    AfterTwo(s, [], Exit(i), Scan(x));
    assert [] + [Exit(i), Scan(x)] == [Exit(i), Scan(x)] && After(s, []) == s;
    EnteredTooEarly(After(s, [Exit(i), Scan(x)]), j, x, confmode);
    AfterTwo(s, [Exit(i), Scan(x)], Enter(j, x, confmode), Clear(x));
  }

  // ---------------------------------------------------------- the tables

  lemma AliasIsUnique(alias: seq<int>, x: int, a: int, b: int)
    requires 0 <= x < |alias| && Aliased(alias, x, a) && Aliased(alias, x, b)
    ensures a == b
  {
  }

  /** The end of the table is reached exactly if no alias is free. */
  lemma NextIsFree(alias: seq<int>, rev: seq<int>)
    requires Inverse(alias, rev)
    ensures Next(alias, 1) < |alias| - 1 <==> exists a :: 1 <= a < |rev| - 1 && rev[a] == 0
  {
    var r := Next(alias, 1);
    if r < |alias| - 1 {
      UnusedIsFree(alias, rev, r);
    }
    if a :| 1 <= a < |rev| - 1 && rev[a] == 0 {
      UnusedIsFree(alias, rev, a);
      assert !(a < r);
    }
  }

  lemma JoinIsEnter(s: State, i: nat, confno: int, confmode: nat, alias: seq<int>, rev: seq<int>, members: seq<Member>)
    requires Shaped(s) && Joins(s, i, confno, confmode) && |alias| == |s.alias|
    requires members == Joined(alias, s.members, i, confno, confmode) && alias == WithMember(s.alias, members[i])
    requires Summing(confmode) ==> Aliased(s.alias, confno, alias[confno])
    requires rev == if Summing(confmode) then s.rev[alias[confno] := confno] else s.rev
    ensures State(alias, rev, members, s.pending) == Do(s, Enter(i, confno, confmode))
  {
    if Summing(confmode) {
      AliasIsUnique(s.alias, confno, alias[confno], AliasFor(s.alias, confno));
    }
  }

  class Tables {
    const table: Table
    var pending: multiset<int>

    ghost function Now(): State
      reads this, table, table.confalias, table.confrev, table.chans
    {
      State(table.confalias[..], table.confrev[..], table.chans[..], pending)
    }

    ghost predicate Valid()
      reads this, table, table.confalias, table.confrev, table.chans
    {
      table.TablesValid() && Shaped(Now())
    }

    constructor (maxConf: nat, channels: nat)
      requires maxConf >= 1
      ensures Valid() && Good(Now()) && pending == multiset{}
      ensures fresh(table) && fresh(table.confalias) && fresh(table.confrev) && fresh(table.chans)
    {
      table := new Table(maxConf, channels);
      pending := multiset{};
    }

    /** The first part of dahdi_check_conf. */
    method LookAt(x: int)
      requires Valid()
      modifies this`pending
      ensures Valid() && Now() == Do(old(Now()), Scan(x))
    {
      if x <= 0 || x > table.maxConf || table.confalias[x] == 0 { return; }
      var found := table.AnyoneIn(x);
      if !found {
        pending := pending + multiset{x};
      }
    }

    /** The second part, made without a lock. */
    method ClearOut(x: int)
      requires Valid()
      modifies this`pending, table`maxconfs, table.confalias, table.confrev
      ensures Valid() && Now() == Do(old(Now()), Clear(x))
    {
      if x !in pending { return; }
      StepKeepsShape(Now(), Clear(x));
      table.Release(x);
      pending := pending - multiset{x};
    }

    method MayJoin(i: nat, confno: int, confmode: nat) returns (ok: bool)
      requires Valid()
      ensures ok <==> Joins(Now(), i, confno, confmode)
      ensures ok && Summing(confmode) && table.confalias[confno] == 0 ==> table.SomeFree()
    {
      if i >= table.chans.Length || confno > table.maxConf { return false; }
      if !Summing(confmode) { return true; }
      if confno < 1 { return false; }
      if table.confalias[confno] != 0 { return true; }
      NextIsFree(table.confalias[..], table.confrev[..]);
      var a := table.FirstEmptyAlias();
      assert a != -1 ==> table.confrev[..][a] == 0;
      ok := a != -1;
    }

    /** The locked part of DAHDI_SETCONF; nothing happens if no alias is left. */
    method EnterConf(i: nat, confno: int, confmode: nat)
      requires Valid()
      modifies table`maxconfs, table.confalias, table.confrev, table.chans
      ensures Valid() && Now() == Do(old(Now()), Enter(i, confno, confmode))
    {
      var ok := MayJoin(i, confno, confmode);
      if ok {
        ghost var s := Now();
        StepKeepsShape(s, Enter(i, confno, confmode));
        table.Join(i, confno, confmode);
        JoinIsEnter(s, i, confno, confmode, table.confalias[..], table.confrev[..], table.chans[..]);
      }
    }

    method ExitConf(i: nat)
      requires Valid()
      modifies table.chans
      ensures Valid() && Now() == Do(old(Now()), Exit(i))
    {
      if i < table.chans.Length {
        table.chans[i] := Member(0, 0, 0);
      }
    }

    method Perform(step: Step)
      requires Valid()
      modifies this`pending, table`maxconfs, table.confalias, table.confrev, table.chans
      ensures Valid() && Now() == Do(old(Now()), step)
    {
      match step
      case Scan(x) => LookAt(x);
      case Clear(x) => ClearOut(x);
      case Enter(i, confno, confmode) => EnterConf(i, confno, confmode);
      case Exit(i) => ExitConf(i);
    }

    /** Any interleaving of such steps on the tables. */
    method Interleave(steps: seq<Step>)
      requires Valid()
      modifies this`pending, table`maxconfs, table.confalias, table.confrev, table.chans
      ensures Valid() && Now() == After(old(Now()), steps)
    {
      ghost var s := Now();
      for k := 0 to |steps|
        invariant Valid() && Now() == After(s, steps[..k])
      {
        AfterOne(s, steps[..k], steps[k]);
        PrefixGrows(steps, k);
        Perform(steps[k]);
      }
      assert steps[..|steps|] == steps;
    }
  }
}
