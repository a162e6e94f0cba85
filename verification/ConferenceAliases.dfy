/** The table that gives each conference in use a small alias, and the channels'
    conference membership. */
module ConferenceAliases {

  /** One channel's conference fields. */
  datatype Member = Member(confna: int, confmode: nat, confn: int)

  datatype Outcome = Done | Invalid | Busy | PreEchoReturn

  /** Conference, announce, monitor, announce-monitor and real-and-pseudo modes. */
  predicate Summing(confmode: nat) {
    4 <= confmode % 256 <= 8
  }

  /** Modes in which the conference number is a channel number. */
  predicate Monitoring(confmode: nat) {
    var mode := confmode % 256;
    1 <= mode <= 3 || 9 <= mode <= 12
  }

  const DAHDI_MAX_CONF: nat := 1024

  /** The requests that DAHDI_SETCONF does not refuse as invalid. */
  predicate Passes(number: int, confmode: nat, maxConf: nat) {
    && (Monitoring(confmode) || -1 <= number <= maxConf)
    && (number == 0 <==> confmode == 0)
  }

  /** What it then looks up in the alias table is outside the table exactly when a
      channel above the last conference is monitored, as every pseudo channel is. */
  lemma MonitoredChannelIsOutOfRange(number: nat, confmode: nat)
    requires Passes(number, confmode, DAHDI_MAX_CONF)
    ensures number >= DAHDI_MAX_CONF + 1 <==> Monitoring(confmode) && number > DAHDI_MAX_CONF
    ensures Passes(0x8000, 1, DAHDI_MAX_CONF) && 0x8000 >= DAHDI_MAX_CONF + 1
  {
  }

  predicate In(m: Member, x: int) {
    m.confna == x && Summing(m.confmode)
  }

  /** `alias` and `rev` are inverse to each other, 0 meaning none. */
  ghost predicate Inverse(alias: seq<int>, rev: seq<int>) {
    && |alias| == |rev| >= 2
    && alias[0] == 0 && rev[0] == 0 && rev[|rev| - 1] == 0
    && (forall x :: 0 <= x < |alias| ==> 0 <= alias[x] < |rev|)
    && (forall a :: 0 <= a < |rev| ==> 0 <= rev[a] < |alias|)
    && (forall x, a :: 1 <= x < |alias| && 1 <= a < |rev| ==> (alias[x] == a <==> rev[a] == x))
  }

  lemma InverseAfterAllocation(alias: seq<int>, rev: seq<int>, x: int, a: int)
    requires Inverse(alias, rev) && 1 <= x < |alias| && 1 <= a < |rev| - 1
    requires alias[x] == 0 && rev[a] == 0
    ensures Inverse(alias[x := a], rev[a := x])
  {
    var alias', rev' := alias[x := a], rev[a := x];
    forall y, b | 1 <= y < |alias'| && 1 <= b < |rev'| ensures alias'[y] == b <==> rev'[b] == y {
      assert alias[y] == b <==> rev[b] == y;
      assert alias[y] == a <==> rev[a] == y;
      assert alias[x] == b <==> rev[b] == x;
    }
  }

  lemma InverseAfterRelease(alias: seq<int>, rev: seq<int>, x: int)
    requires Inverse(alias, rev) && 1 <= x < |alias| && alias[x] != 0
    ensures Inverse(alias[x := 0], rev[alias[x] := 0])
  {
    var a := alias[x];
    var alias', rev' := alias[x := 0], rev[a := 0];
    assert rev[a] == x;
    forall y, b | 1 <= y < |alias'| && 1 <= b < |rev'| ensures alias'[y] == b <==> rev'[b] == y {
      assert alias[y] == b <==> rev[b] == y;
      assert alias[y] == a <==> rev[a] == y;
      assert alias[x] == b <==> rev[b] == x;
    }
  }

  lemma ReleaseKeepsInverse(alias: seq<int>, rev: seq<int>, x: int)
    requires Inverse(alias, rev) && 1 <= x < |alias|
    ensures Inverse(alias[x := 0], rev[alias[x] := 0])
    ensures alias[x] != 0 ==> 1 <= alias[x] < |rev| - 1
  {
    if alias[x] != 0 {
      InverseAfterRelease(alias, rev, x);
      assert rev[alias[x]] == x;
    } else {
      assert alias[x := 0] == alias && rev[0 := 0] == rev;
    }
  }

  /** Distinct conferences have distinct aliases. */
  lemma AliasesAreDistinct(alias: seq<int>, rev: seq<int>, x: int, y: int)
    requires Inverse(alias, rev) && 0 <= x < |alias| && 0 <= y < |alias|
    requires alias[x] == alias[y] != 0
    ensures x == y
  {
    assert rev[alias[x]] == x;
  }

  ghost predicate Populated(chans: seq<Member>, x: int) {
    exists i :: 0 <= i < |chans| && In(chans[i], x)
  }

  /** Every channel in a summing mode holds the live alias of its conference. */
  ghost predicate Served(alias: seq<int>, chans: seq<Member>) {
    && (forall i :: 0 <= i < |chans| ==> chans[i].confna < |alias|)
    && (forall i :: 0 <= i < |chans| && Summing(chans[i].confmode) ==>
          chans[i].confna >= 1 && chans[i].confn == alias[chans[i].confna] != 0)
  }

  /** No alias but that of `except` outlives its last member. */
  ghost predicate NoneLeft(alias: seq<int>, chans: seq<Member>, except: int) {
    forall x :: 1 <= x < |alias| && alias[x] != 0 && x != except ==> Populated(chans, x)
  }

  /** The table after looking whether conference `x` is still needed. */
  ghost function Checked(alias: seq<int>, chans: seq<Member>, x: int): seq<int>
    requires x < |alias|
  {
    if x > 0 && !Populated(chans, x) then alias[x := 0] else alias
  }

  /** The channel list after channel `i` changed conference. */
  function Joined(alias: seq<int>, chans: seq<Member>, i: nat, confno: int, confmode: nat): seq<Member>
    requires i < |chans| && (Summing(confmode) ==> 0 <= confno < |alias|)
  {
    chans[i := Member(confno, confmode, if Summing(confmode) then alias[confno] else 0)]
  }

  /** Releasing an unused alias takes it from nobody. */
  lemma CheckKeepsServed(alias: seq<int>, chans: seq<Member>, x: int)
    requires x < |alias| && Served(alias, chans)
    ensures Served(Checked(alias, chans, x), chans)
    ensures NoneLeft(alias, chans, 0) ==> NoneLeft(alias, chans, if x > 0 then x else 0)
    ensures NoneLeft(alias, chans, if x > 0 then x else 0) ==> NoneLeft(Checked(alias, chans, x), chans, 0)
  {
    forall i | 0 <= i < |chans| && Summing(chans[i].confmode)
      ensures chans[i].confn == Checked(alias, chans, x)[chans[i].confna] != 0
    {
      assert In(chans[i], chans[i].confna);
    }
  }

  lemma JoinKeepsServed(alias: seq<int>, alias': seq<int>, chans: seq<Member>, i: nat, confno: int, confmode: nat)
    requires Served(alias, chans) && i < |chans| && confno < |alias| == |alias'|
    requires if Summing(confmode) then confno >= 1 && alias' == alias[confno := alias'[confno]] && alias'[confno] != 0
             else alias' == alias
    requires Summing(confmode) && alias[confno] != 0 ==> alias'[confno] == alias[confno]
    ensures Served(alias', Joined(alias', chans, i, confno, confmode))
    ensures NoneLeft(alias, chans, 0) ==>
      NoneLeft(alias', Joined(alias', chans, i, confno, confmode), if chans[i].confna > 0 then chans[i].confna else 0)
  {
    var chans' := Joined(alias', chans, i, confno, confmode);
    var gone := if chans[i].confna > 0 then chans[i].confna else 0;
    if NoneLeft(alias, chans, 0) {
      forall x | 1 <= x < |alias'| && alias'[x] != 0 && x != gone
        ensures Populated(chans', x)
      {
        if Summing(confmode) && x == confno {
          assert In(chans'[i], x);
        } else {
          assert Populated(chans, x);
          var j :| 0 <= j < |chans| && In(chans[j], x);
          assert j != i && In(chans'[j], x);
        }
      }
    }
  }

  /** Nobody but channel `i` is in conference `x`. */
  ghost predicate Alone(chans: seq<Member>, i: nat, x: int) {
    forall j :: 0 <= j < |chans| && j != i ==> !In(chans[j], x)
  }

  /** Leaving a mode that is not summing takes no member from any conference. */
  lemma OthersStay(alias: seq<int>, alias': seq<int>, chans: seq<Member>, i: nat, confno: int, confmode: nat, x: int)
    requires NoneLeft(alias, chans, 0) && i < |chans| && 1 <= x < |alias| == |alias'| && !Summing(chans[i].confmode)
    requires if Summing(confmode) then 1 <= confno < |alias| && alias' == alias[confno := alias'[confno]] else alias' == alias
    requires alias'[x] != 0
    ensures Populated(Joined(alias', chans, i, confno, confmode), x)
  {
    var chans' := Joined(alias', chans, i, confno, confmode);
    if Summing(confmode) && x == confno {
      assert In(chans'[i], x);
    } else {
      assert Populated(chans, x);
      var j :| 0 <= j < |chans| && In(chans[j], x);
      assert In(chans'[j], x);
    }
  }

  /** A channel that changes conference without the check of the old one leaves an alias
      without members exactly when it was the last member there and does not stay. */
  lemma UncheckedMoveLeavesAlias(alias: seq<int>, alias': seq<int>, chans: seq<Member>, i: nat, confno: int, confmode: nat)
    requires Served(alias, chans) && NoneLeft(alias, chans, 0) && i < |chans| && confno < |alias| == |alias'|
    requires if Summing(confmode) then confno >= 1 && alias' == alias[confno := alias'[confno]] && alias'[confno] != 0
             else alias' == alias
    requires Summing(confmode) && alias[confno] != 0 ==> alias'[confno] == alias[confno]
    ensures NoneLeft(alias', Joined(alias', chans, i, confno, confmode), 0) <==>
      !(Summing(chans[i].confmode) && Alone(chans, i, chans[i].confna) && !(Summing(confmode) && confno == chans[i].confna))
  {
    var chans', x := Joined(alias', chans, i, confno, confmode), chans[i].confna;
    JoinKeepsServed(alias, alias', chans, i, confno, confmode);
    if Summing(chans[i].confmode) {
      assert alias'[x] != 0;
      if Alone(chans, i, x) {
        assert Populated(chans', x) <==> In(chans'[i], x);
      } else {
        var j :| 0 <= j < |chans| && j != i && In(chans[j], x);
        assert In(chans'[j], x);
      }
    } else if x > 0 && alias'[x] != 0 {
      OthersStay(alias, alias', chans, i, confno, confmode, x);
    }
  }

  // ---------------------------------------------------------- the answer to a request

  ghost predicate Unused(alias: seq<int>, a: int) {
    forall x :: 0 <= x < |alias| ==> alias[x] != a
  }

  lemma UnusedIsFree(alias: seq<int>, rev: seq<int>, a: int)
    requires Inverse(alias, rev) && 1 <= a < |rev|
    ensures rev[a] == 0 <==> Unused(alias, a)
  {
    if rev[a] != 0 {
      assert alias[rev[a]] == a;
    }
  }

  lemma IsFirstUnused(alias: seq<int>, rev: seq<int>, a: int)
    requires Inverse(alias, rev) && 1 <= a < |rev| && rev[a] == 0 && forall b :: 1 <= b < a ==> rev[b] != 0
    ensures Unused(alias, a) && forall b :: 1 <= b < a ==> !Unused(alias, b)
  {
    UnusedIsFree(alias, rev, a);
    forall b | 1 <= b < a ensures !Unused(alias, b) {
      UnusedIsFree(alias, rev, b);
    }
  }

  /** The alias for conference `x`: the one it has, or else the first that is not used. */
  ghost predicate Aliased(alias: seq<int>, x: int, a: int)
    requires 0 <= x < |alias|
  {
    if alias[x] != 0 then a == alias[x]
    else 1 <= a < |alias| - 1 && Unused(alias, a) && forall b :: 1 <= b < a ==> !Unused(alias, b)
  }

  /** The alias table once a channel has the membership `m`. */
  ghost function WithMember(alias: seq<int>, m: Member): seq<int>
    requires Summing(m.confmode) ==> 0 <= m.confna < |alias|
  {
    if Summing(m.confmode) then alias[m.confna := m.confn] else alias
  }

  /** Channel `i` has the membership `m` now, and the old conference was checked unless the
      request ended early. */
  ghost predicate Moved(alias: seq<int>, chans: seq<Member>, i: nat, m: Member, preEcho: bool, alias': seq<int>,
                        chans': seq<Member>)
    requires i < |chans| && chans[i].confna < |alias| && (Summing(m.confmode) ==> 0 <= m.confna < |alias|)
  {
    && chans' == chans[i := m]
    && (if Summing(m.confmode) then Aliased(alias, m.confna, m.confn) else m.confn == 0)
    && alias' == if preEcho then WithMember(alias, m) else Checked(WithMember(alias, m), chans', chans[i].confna)
  }

  /** No conference is free for one who asks for any. */
  predicate AllTaken(alias: seq<int>) {
    forall x :: 1 <= x < |alias| - 1 ==> alias[x] != 0
  }

  /** The last conference without an alias. */
  ghost predicate LastEmpty(alias: seq<int>, x: int) {
    1 <= x < |alias| - 1 && alias[x] == 0 && forall y :: x < y < |alias| - 1 ==> alias[y] != 0
  }

  /** The request comes to take a new alias: it is neither invalid nor refused as busy, and
      the conference asked for, if any, has none. */
  predicate TakesAlias(alias: seq<int>, number: int, confmode: nat)
    requires |alias| >= 1
  {
    && Summing(confmode) && Passes(number, confmode, |alias| - 1) && !(number == -1 && AllTaken(alias))
    && (number >= 1 ==> alias[number] == 0)
  }

  /** What DAHDI_SETCONF answers to a request for channel `i`, which conference it chose and
      what becomes of the table and the memberships. */
  ghost predicate Answered(alias: seq<int>, chans: seq<Member>, i: nat, number: int, confmode: nat, preEcho: bool,
                           r: Outcome, confno: int, alias': seq<int>, chans': seq<Member>)
    requires |alias| >= 1 && i < |chans| && chans[i].confna < |alias| && (Monitoring(confmode) ==> 0 <= number < |alias|)
  {
    if !Passes(number, confmode, |alias| - 1) then
      r == Invalid && alias' == alias && chans' == chans
    else if number == -1 && AllTaken(alias) then
      r == Busy && alias' == alias && chans' == chans
    else
      && r == (if preEcho then PreEchoReturn else Done)
      && (if number == -1 then LastEmpty(alias, confno) else confno == number)
      && (Summing(confmode) ==> confno >= 1)
      && |chans'| == |chans| && chans'[i].confna == confno && chans'[i].confmode == confmode
      && Moved(Checked(alias, chans, number), chans, i, chans'[i], preEcho, alias', chans')
  }

  /** A request is invalid exactly when only one of conference number and mode is zero, or
      the number is out of range and the mode, neither 1 to 3 nor 9 to 12, names a conference
      and not a channel; it finds all busy exactly when it asks for any conference and all
      have aliases. */
  lemma RefusedExactly(alias: seq<int>, chans: seq<Member>, i: nat, number: int, confmode: nat, preEcho: bool,
                       r: Outcome, confno: int, alias': seq<int>, chans': seq<Member>)
    requires |alias| >= 1 && i < |chans| && chans[i].confna < |alias|
    requires 1 <= confmode % 256 <= 3 || 9 <= confmode % 256 <= 12 ==> 0 <= number < |alias|
    requires Answered(alias, chans, i, number, confmode, preEcho, r, confno, alias', chans')
    ensures r == Invalid <==>
              || (number == 0 && confmode != 0) || (number != 0 && confmode == 0)
              || (!(1 <= confmode % 256 <= 3 || 9 <= confmode % 256 <= 12) && (number < -1 || number >= |alias|))
    ensures r == Busy <==> r != Invalid && number == -1 && forall x :: 1 <= x < |alias| - 1 ==> alias[x] != 0
    ensures r in {Invalid, Busy} ==> alias' == alias && chans' == chans
  {
  }

  /** A channel that was let in holds an alias exactly in the modes 4 to 8, which add up. */
  lemma WhoHoldsAnAlias(alias: seq<int>, chans: seq<Member>, i: nat, number: int, confmode: nat, preEcho: bool,
                        r: Outcome, confno: int, alias': seq<int>, chans': seq<Member>)
    requires |alias| >= 1 && i < |chans| && chans[i].confna < |alias| && (Monitoring(confmode) ==> 0 <= number < |alias|)
    requires Answered(alias, chans, i, number, confmode, preEcho, r, confno, alias', chans') && r !in {Invalid, Busy}
    ensures |chans'| == |chans| && chans'[i].confmode == confmode && (chans'[i].confn != 0 <==> 4 <= confmode % 256 <= 8)
    ensures forall j :: 0 <= j < |chans| && j != i ==> chans'[j] == chans[j]
  {
    var free := Checked(alias, chans, number);
    assert Moved(free, chans, i, chans'[i], preEcho, alias', chans');
    assert chans' == chans[i := chans'[i]];
  }

  lemma MoveAnswers(alias: seq<int>, chans: seq<Member>, i: nat, number: int, confmode: nat, preEcho: bool,
                    r: Outcome, confno: int, alias': seq<int>, chans': seq<Member>)
    requires |alias| >= 2 && i < |chans| && chans[i].confna < |alias| && number < |alias|
    requires (Monitoring(confmode) ==> 0 <= number) && Passes(number, confmode, |alias| - 1)
    requires if number == -1 then LastEmpty(alias, confno) else confno == number
    requires (Summing(confmode) ==> confno >= 1) && r == if preEcho then PreEchoReturn else Done
    requires |chans'| == |chans| && chans'[i].confna == confno && chans'[i].confmode == confmode
    requires Moved(Checked(alias, chans, number), chans, i, chans'[i], preEcho, alias', chans')
    ensures Answered(alias, chans, i, number, confmode, preEcho, r, confno, alias', chans')
  {
  }

  class Table {
    const maxConf: nat
    const confalias: array<int>
    const confrev: array<int>
    var maxconfs: nat
    const chans: array<Member>

    ghost predicate TablesValid()
      reads this, confalias, confrev
    {
      && maxConf >= 1 && confalias.Length == confrev.Length == maxConf + 1 && confalias != confrev
      && Inverse(confalias[..], confrev[..])
      && maxconfs <= maxConf
      && (forall a :: 0 <= a <= maxConf && confrev[a] != 0 ==> a < maxconfs)
      && (maxconfs > 0 ==> confrev[maxconfs - 1] != 0)
    }

    ghost predicate Valid()
      reads this, confalias, confrev, chans
    {
      TablesValid() && Served(confalias[..], chans[..])
    }

    /** Some alias is not in use. */
    ghost predicate SomeFree()
      requires confrev.Length == maxConf + 1
      reads this, confrev
    {
      exists a :: 1 <= a < maxConf && confrev[a] == 0
    }

    constructor (maxConf: nat, channels: nat)
      requires maxConf >= 1
      ensures Valid() && NoneLeft(confalias[..], chans[..], 0) && this.maxConf == maxConf && chans.Length == channels
      ensures fresh(confalias) && fresh(confrev) && fresh(chans)
      ensures forall i :: 0 <= i < channels ==> chans[i] == Member(0, 0, 0)
      ensures maxconfs == 0 && forall a :: 0 <= a <= maxConf ==> confrev[a] == 0 && confalias[a] == 0
    {
      this.maxConf := maxConf;
      confalias := new int[maxConf + 1](_ => 0);
      confrev := new int[maxConf + 1](_ => 0);
      maxconfs := 0;
      chans := new Member[channels](_ => Member(0, 0, 0));
    }

    /** Every channel in a summing mode adds into an accumulator that each rotation
        clears, and two channels share one exactly when they share a conference. */
    lemma MembersAreCleared(i: nat, j: nat)
      requires Valid() && i < chans.Length && j < chans.Length
      requires Summing(chans[i].confmode) && Summing(chans[j].confmode)
      ensures 1 <= chans[i].confn < maxconfs
      ensures chans[i].confn == chans[j].confn <==> chans[i].confna == chans[j].confna
    {
      var x := chans[..][i].confna;
      assert confrev[..][confalias[..][x]] == x;
      assert chans[..][j].confna >= 1;
      if chans[i].confn == chans[j].confn {
        AliasesAreDistinct(confalias[..], confrev[..], x, chans[..][j].confna);
      }
    }

    /** The first conference alias that is not in use. */
    method FirstEmptyAlias() returns (r: int)
      requires TablesValid()
      ensures r == -1 || (1 <= r < maxConf && confrev[r] == 0)
      ensures forall a :: 1 <= a < (if r == -1 then maxConf else r) ==> confrev[a] != 0
    {
      for x := 1 to maxConf
        invariant forall a :: 1 <= a < x ==> confrev[a] != 0
      {
        if confrev[x] == 0 {
          return x;
        }
      }
      return -1;
    }

    /** The last conference that has no alias. */
    method FirstEmptyConference() returns (r: int)
      requires TablesValid()
      ensures r == -1 || (1 <= r < maxConf && confalias[r] == 0)
      ensures forall x :: 1 <= x < maxConf && r < x ==> confalias[x] != 0
    {
      var x := maxConf - 1;
      while x > 0
        invariant x < maxConf && forall y :: x < y < maxConf && 1 <= y ==> confalias[y] != 0
      {
        if confalias[x] == 0 {
          return x;
        }
        x := x - 1;
      }
      return -1;
    }

    /** Restores "maxconfs is one more than the highest live alias". */
    method RecalcMaxconfs()
      requires confrev.Length == maxConf + 1 && confrev[0] == 0 && confrev[maxConf] == 0
      modifies this`maxconfs
      ensures maxconfs <= maxConf
      ensures forall a :: 0 <= a <= maxConf && confrev[a] != 0 ==> a < maxconfs
      ensures maxconfs > 0 ==> confrev[maxconfs - 1] != 0
    {
      var x := maxConf - 1;
      while x > 0
        invariant x < maxConf && forall a :: x < a <= maxConf && 0 <= a ==> confrev[a] == 0
      {
        if confrev[x] != 0 {
          maxconfs := x + 1;
          return;
        }
        x := x - 1;
      }
      maxconfs := 0;
    }

    method GetConfAlias(x: int) returns (a: int)
      requires TablesValid() && 1 <= x <= maxConf
      requires confalias[x] == 0 ==> SomeFree()
      modifies this`maxconfs, confalias, confrev
      ensures TablesValid() && a == confalias[x] != 0
      ensures confalias[..] == old(confalias[..])[x := a]
      ensures old(confalias[x]) != 0 ==>
        a == old(confalias[x]) && confrev[..] == old(confrev[..]) && maxconfs == old(maxconfs)
      ensures confrev[..] == old(confrev[..])[a := x]
      ensures old(confalias[x]) == 0 ==>
        1 <= a < maxConf && old(confrev[a]) == 0 && forall b :: 1 <= b < a ==> old(confrev[b]) != 0
    {
      if confalias[x] != 0 {
        assert confrev[..][confalias[..][x]] == x;
        return confalias[x];
      }
      a := FirstEmptyAlias();
      ghost var alias, rev := confalias[..], confrev[..];
      confalias[x] := a;
      confrev[a] := x;
      InverseAfterAllocation(alias, rev, x, a);
      assert confalias[..] == alias[x := a] && confrev[..] == rev[a := x];
      assert confrev[0] == confrev[..][0] && confrev[maxConf] == confrev[..][maxConf];
      RecalcMaxconfs();
    }

    /** Is some channel in conference `x`? */
    method AnyoneIn(x: int) returns (found: bool)
      ensures found <==> Populated(chans[..], x)
    {
      for i := 0 to chans.Length
        invariant forall j :: 0 <= j < i ==> !In(chans[j], x)
      {
        if In(chans[i], x) {
          assert In(chans[..][i], x);
          return true;
        }
      }
      return false;
    }

    /** Frees the alias of a conference exactly when nobody is in it any more. */
    method CheckConf(x: int)
      requires TablesValid() && x <= maxConf
      modifies this`maxconfs, confalias, confrev
      ensures TablesValid()
      ensures confalias[..] == Checked(old(confalias[..]), chans[..], x)
      ensures old(SomeFree()) || (x > 0 && old(confalias[x]) != 0 && confalias[x] == 0) ==> SomeFree()
    {
      if x <= 0 { return; }
      if confalias[x] == 0 {
        assert confalias[..][x := 0] == confalias[..];
        return;
      }
      var found := AnyoneIn(x);
      if !found {
        Release(x);
      }
    }

    /** Clears an alias both forward and reverse, if there still is one. */
    method Release(x: int)
      requires TablesValid() && 1 <= x <= maxConf
      modifies this`maxconfs, confalias, confrev
      ensures TablesValid()
      ensures confalias[..] == old(confalias[..])[x := 0]
      ensures confrev[..] == old(confrev[..])[old(confalias[x]) := 0]
      ensures old(confalias[x]) != 0 ==> SomeFree()
    {
      ghost var alias, rev := confalias[..], confrev[..];
      confrev[confalias[x]] := 0;
      confalias[x] := 0;
      ReleaseKeepsInverse(alias, rev, x);
      assert confalias[..] == alias[x := 0] && confrev[..] == rev[alias[x] := 0];
      assert confrev[0] == confrev[..][0] && confrev[maxConf] == confrev[..][maxConf];
      RecalcMaxconfs();
      assert alias[x] != 0 ==> confrev[alias[x]] == 0;
    }

    /** The part of DAHDI_SETCONF made under the channel lock. */
    method Join(i: nat, confno: int, confmode: nat)
      requires TablesValid() && i < chans.Length && confno <= maxConf
      requires Summing(confmode) ==> confno >= 1 && (confalias[confno] == 0 ==> SomeFree())
      modifies this`maxconfs, confalias, confrev, chans
      ensures TablesValid()
      ensures chans[..] == Joined(confalias[..], old(chans[..]), i, confno, confmode)
      ensures confalias[..] == WithMember(old(confalias[..]), chans[..][i])
      ensures Summing(confmode) ==>
        confalias[confno] != 0 && Aliased(old(confalias[..]), confno, confalias[confno])
      ensures confrev[..] == if Summing(confmode) then old(confrev[..])[confalias[confno] := confno] else old(confrev[..])
    {
      ghost var members, alias, rev := chans[..], confalias[..], confrev[..];
      var confn := 0;
      chans[i] := Member(confno, confmode, 0);
      if confno != 0 && Summing(confmode) {
        confn := GetConfAlias(confno);
        chans[i] := Member(confno, confmode, confn);
        if alias[confno] == 0 {
          IsFirstUnused(alias, rev, confn);
        }
      }
      assert chans[..] == members[i := Member(confno, confmode, confn)];
    }

    /** CheckConf seen from the members: none of them loses its alias. */
    method Check(x: int)
      requires Valid() && x <= maxConf
      modifies this`maxconfs, confalias, confrev
      ensures Valid()
      ensures confalias[..] == Checked(old(confalias[..]), chans[..], x)
      ensures old(SomeFree()) || (x > 0 && old(confalias[x]) != 0 && confalias[x] == 0) ==> SomeFree()
      ensures NoneLeft(old(confalias[..]), chans[..], if x > 0 then x else 0) ==> NoneLeft(confalias[..], chans[..], 0)
      ensures NoneLeft(old(confalias[..]), chans[..], 0) ==> NoneLeft(confalias[..], chans[..], 0)
    {
      CheckKeepsServed(confalias[..], chans[..], x);
      CheckConf(x);
    }

    /** The DAHDI_SETCONF request for channel `i`. `preEcho` says that the request ends
        early after switching on a hardware pre-echo tap. */
    method SetConf(i: nat, number: int, confmode: nat, preEcho: bool) returns (r: Outcome, confno: int)
      requires Valid() && i < chans.Length
      requires Monitoring(confmode) ==> 0 <= number <= maxConf
      requires preEcho ==> 10 <= confmode % 256 <= 12
      requires TakesAlias(confalias[..], number, confmode) ==> SomeFree()
      modifies this`maxconfs, confalias, confrev, chans
      ensures Valid()
      ensures Answered(old(confalias[..]), old(chans[..]), i, number, confmode, preEcho, r, confno, confalias[..], chans[..])
      ensures r != PreEchoReturn && old(NoneLeft(confalias[..], chans[..], 0)) ==> NoneLeft(confalias[..], chans[..], 0)
      ensures r == PreEchoReturn && old(NoneLeft(confalias[..], chans[..], 0)) ==>
        (NoneLeft(confalias[..], chans[..], 0) <==>
         !(Summing(old(chans[i].confmode)) && Alone(old(chans[..]), i, old(chans[i].confna))))
    {
      confno := number;
      if !Monitoring(confmode) && (number < -1 || number > maxConf) { return Invalid, number; }
      if number == 0 && confmode != 0 { return Invalid, number; }
      if confmode == 0 && number != 0 { return Invalid, number; }
      r, confno := Enter(i, number, confmode, preEcho);
    }

    /** A request that is not refused as invalid. */
    method Enter(i: nat, number: int, confmode: nat, preEcho: bool) returns (r: Outcome, confno: int)
      requires Valid() && i < chans.Length && Passes(number, confmode, maxConf)
      requires Monitoring(confmode) ==> 0 <= number <= maxConf
      requires TakesAlias(confalias[..], number, confmode) ==> SomeFree()
      modifies this`maxconfs, confalias, confrev, chans
      ensures Valid()
      ensures Answered(old(confalias[..]), old(chans[..]), i, number, confmode, preEcho, r, confno, confalias[..], chans[..])
      ensures r != PreEchoReturn && old(NoneLeft(confalias[..], chans[..], 0)) ==> NoneLeft(confalias[..], chans[..], 0)
      ensures r == PreEchoReturn && old(NoneLeft(confalias[..], chans[..], 0)) ==>
        (NoneLeft(confalias[..], chans[..], 0) <==>
         !(Summing(old(chans[i].confmode)) && Alone(old(chans[..]), i, old(chans[i].confna))
           && !(Summing(confmode) && confno == old(chans[i].confna))))
    {
      ghost var alias, members := confalias[..], chans[..];
      confno := Choose(number);
      if confno < 1 && confmode != 0 { return Busy, confno; }
      r := Move(i, confno, confmode, preEcho);
      MoveAnswers(alias, members, i, number, confmode, preEcho, r, confno, confalias[..], chans[..]);
    }

    /** Checks the conference asked for and finds one for a request for any. */
    method Choose(number: int) returns (confno: int)
      requires Valid() && number <= maxConf
      modifies this`maxconfs, confalias, confrev
      ensures Valid() && confalias[..] == Checked(old(confalias[..]), chans[..], number)
      ensures if number != -1 then confno == number
              else if confno == -1 then AllTaken(confalias[..]) else LastEmpty(confalias[..], confno)
      ensures old(SomeFree()) || (number > 0 && old(confalias[number]) != 0 && confalias[number] == 0) ==> SomeFree()
      ensures old(NoneLeft(confalias[..], chans[..], 0)) ==> NoneLeft(confalias[..], chans[..], 0)
    {
      Check(number);
      confno := number;
      if confno == -1 {
        confno := FirstEmptyConference();
      }
    }

    /** Into the new conference, then out of the old one. */
    method Move(i: nat, confno: int, confmode: nat, preEcho: bool) returns (r: Outcome)
      requires Valid() && i < chans.Length && confno <= maxConf
      requires Summing(confmode) ==> confno >= 1 && (confalias[confno] == 0 ==> SomeFree())
      modifies this`maxconfs, confalias, confrev, chans
      ensures Valid() && r == if preEcho then PreEchoReturn else Done
      ensures chans[..][i].confna == confno && chans[..][i].confmode == confmode
      ensures Moved(old(confalias[..]), old(chans[..]), i, chans[..][i], preEcho, confalias[..], chans[..])
      ensures !preEcho && old(NoneLeft(confalias[..], chans[..], 0)) ==> NoneLeft(confalias[..], chans[..], 0)
      ensures preEcho && old(NoneLeft(confalias[..], chans[..], 0)) ==>
        (NoneLeft(confalias[..], chans[..], 0) <==>
         !(Summing(old(chans[i].confmode)) && Alone(old(chans[..]), i, old(chans[i].confna))
           && !(Summing(confmode) && confno == old(chans[i].confna))))
    {
      ghost var alias, members := confalias[..], chans[..];
      var oldconf := chans[i].confna;
      Join(i, confno, confmode);
      ghost var alias', members' := confalias[..], chans[..];
      JoinKeepsServed(alias, alias', members, i, confno, confmode);
      if NoneLeft(alias, members, 0) {
        UncheckedMoveLeavesAlias(alias, alias', members, i, confno, confmode);
      }
      if preEcho { return PreEchoReturn; }
      CheckKeepsServed(alias', members', oldconf);
      CheckConf(oldconf);
      r := Done;
    }

    /** Closing a channel takes it out of its conference. */
    method Close(i: nat)
      requires Valid() && i < chans.Length
      modifies this`maxconfs, confalias, confrev, chans
      ensures Valid() && chans[..] == old(chans[..])[i := Member(0, 0, 0)]
      ensures confalias[..] == Checked(old(confalias[..]), chans[..], old(chans[i].confna))
      ensures old(NoneLeft(confalias[..], chans[..], 0)) ==> NoneLeft(confalias[..], chans[..], 0)
    {
      ghost var alias, members := confalias[..], chans[..];
      var oldconf := chans[i].confna;
      chans[i] := Member(0, 0, 0);
      assert chans[..] == Joined(alias, members, i, 0, 0);
      JoinKeepsServed(alias, alias, members, i, 0, 0);
      if oldconf != 0 {
        Check(oldconf);
      }
    }
  }

  lemma JoinGivesAlias(alias: seq<int>, chans: seq<Member>, r: Outcome, confno: int, alias': seq<int>, chans': seq<Member>)
    requires |alias| == |alias'| == 11 && chans == [Member(0, 0, 0)]
    requires Answered(alias, chans, 0, 5, 4, false, r, confno, alias', chans') && Served(alias', chans')
    ensures |chans'| == 1 && chans'[0].confna == 5 && alias'[5] != 0
  {
  }

  lemma MonitorLeavesAlias(alias: seq<int>, chans: seq<Member>, r: Outcome, confno: int, alias': seq<int>, chans': seq<Member>)
    requires |alias| == 11 && |chans| == 1 && chans[0].confna == 5 && alias[5] != 0
    requires Answered(alias, chans, 0, 1, 10, true, r, confno, alias', chans')
    ensures |alias'| == 11 && alias'[5] != 0 && !Populated(chans', 5)
  {
    assert alias' == Checked(alias, chans, 1);
  }

  /** A run of two requests after which an alias has no member: a channel joins
      conference 5 and then monitors channel 1 before its echo canceller. */
  method OutlivedAlias() returns (t: Table)
    ensures t.Valid() && t.maxConf == 10 && t.confalias[5] != 0 && !Populated(t.chans[..], 5)
  {
    t := new Table(10, 1);
    assert t.SomeFree() by {
      assert t.confrev[1] == 0;
    }
    ghost var alias, chans := t.confalias[..], t.chans[..];
    var r, c := t.SetConf(0, 5, 4, false);
    ghost var alias', chans' := t.confalias[..], t.chans[..];
    JoinGivesAlias(alias, chans, r, c, alias', chans');
    r, c := t.SetConf(0, 1, 10, true);
    MonitorLeavesAlias(alias', chans', r, c, t.confalias[..], t.chans[..]);
  }
}
