/** The 16-bit frame check sequence of RFC 1662 as the driver appends and checks it. */
module Fcs {

  const INIT: bv16 := 0xffff
  const GOOD: bv16 := 0xf0b8

  /** One bit of the generator of section C.2 of RFC 1662: the bit that leaves enters
      again at the generator's three places. */
  function Shift(v: bv16): bv16 {
    (v >> 1) ^ (v << 15) ^ ((v << 15) >> 5) ^ ((v << 15) >> 12)
  }

  lemma LowBitOut(v: bv16)
    ensures v << 15 == if v & 1 == 1 then 0x8000 else 0
  {
  }

  lemma ThreePlaces(rest: bv16)
    ensures rest ^ 0x8000 ^ 0x0400 ^ 0x0008 == rest ^ 0x8408 && rest ^ 0 ^ 0 ^ 0 == rest
  {
  }

  lemma OutAgain()
    ensures (0x8000 as bv16) >> 5 == 0x0400 && (0x8000 as bv16) >> 12 == 0x0008
    ensures (0 as bv16) >> 5 == 0 && (0 as bv16) >> 12 == 0
  {
  }

  /** Those are the bits of the generator's constant. */
  lemma ShiftIsTheGenerator(v: bv16)
    ensures Shift(v) == if v & 1 == 1 then (v >> 1) ^ 0x8408 else v >> 1
  {
    LowBitOut(v);
    OutAgain();
    ThreePlaces(v >> 1);
  }

  function Iterate<T>(step: T -> T, v: T, k: nat): T
    decreases k
  {
    if k == 0 then v else Iterate(step, step(v), k - 1)
  }

  /** The table entry for one byte. */
  function Table(b: bv16): bv16 {
    Iterate(Shift, b, 8)
  }

  function Absorb(fcs: bv16, w: bv16): bv16 {
    (fcs >> 8) ^ Table((fcs ^ w) & 0xff)
  }

  /** PPP_FCS: one more byte. */
  function Update(fcs: bv16, c: bv8): bv16 {
    Absorb(fcs, c as bv16)
  }

  /** The running check value after a whole frame. */
  function Run(fcs: bv16, data: seq<bv8>): bv16
    decreases |data|
  {
    if data == [] then fcs else Run(Update(fcs, data[0]), data[1..])
  }

  lemma {:induction false} RunConcat(fcs: bv16, a: seq<bv8>, b: seq<bv8>)
    ensures Run(fcs, a + b) == Run(Run(fcs, a), b)
    decreases |a|
  {
    if a == [] {
      assert a + b == b;
    } else {
      assert (a + b)[1..] == a[1..] + b;
      RunConcat(Update(fcs, a[0]), a[1..], b);
    }
  }

  lemma RunOne(fcs: bv16, c: bv8)
    ensures Run(fcs, [c]) == Update(fcs, c)
  {
    assert Run(Update(fcs, c), [c][1..]) == Update(fcs, c);
  }

  /** The two bytes sent after data that left the check value at `fcs`. */
  function Low(fcs: bv16): bv8 {
    ((fcs ^ 0xffff) & 0xff) as bv8
  }

  function High(fcs: bv16): bv8 {
    (((fcs ^ 0xffff) >> 8) & 0xff) as bv8
  }

  function EightShifts(b: bv16): bv16 {
    Shift(Shift(Shift(Shift(Shift(Shift(Shift(Shift(b))))))))
  }

  lemma TableIsEightShifts(v: bv16)
    ensures Table(v) == EightShifts(v)
  {
    var v4 := Shift(Shift(Shift(Shift(v))));
    assert Iterate(Shift, v, 8) == Iterate(Shift, v4, 4);
  }

  /** The two entries that the trailer leads to. */
  lemma TrailerEntries()
    ensures Table(0xff) == 0x0f78 && Table(0x87) == 0xf0b7
  {
    TableIsEightShifts(0xff);
    TableIsEightShifts(0x87);
  }

  lemma LowMeets(fcs: bv16)
    ensures (fcs ^ (Low(fcs) as bv16)) & 0xff == 0xff
  {
  }

  lemma HighMeets(fcs: bv16, next: bv16)
    requires next == (fcs >> 8) ^ 0x0f78
    ensures (next ^ (High(fcs) as bv16)) & 0xff == 0x87 && next >> 8 == 0x0f
  {
  }

  lemma TrailerDrivesToGood(fcs: bv16)
    ensures Update(Update(fcs, Low(fcs)), High(fcs)) == GOOD
  {
    TrailerEntries();
    LowMeets(fcs);
    HighMeets(fcs, Update(fcs, Low(fcs)));
    assert 0x0f ^ 0xf0b7 == GOOD;
  }

  lemma ShiftIsLinear(a: bv16, b: bv16)
    ensures Shift(a ^ b) == Shift(a) ^ Shift(b)
  {
  }

  lemma {:induction false} IterateIsLinear<T(!new)>(step: T -> T, add: (T, T) -> T, a: T, b: T, k: nat)
    requires forall x, y :: step(add(x, y)) == add(step(x), step(y))
    ensures Iterate(step, add(a, b), k) == add(Iterate(step, a, k), Iterate(step, b, k))
    decreases k
  {
    if k > 0 {
      IterateIsLinear(step, add, step(a), step(b), k - 1);
    }
  }

  function Xor(a: bv16, b: bv16): bv16 {
    a ^ b
  }

  lemma TableIsLinear(a: bv16, b: bv16)
    ensures Table(Xor(a, b)) == Xor(Table(a), Table(b))
  {
    forall x, y
      ensures Shift(Xor(x, y)) == Xor(Shift(x), Shift(y))
    {
      ShiftIsLinear(x, y);
    }
    IterateIsLinear(Shift, Xor, a, b, 8);
  }

  /** The step back: the generator has its top bit set. */
  function Unshift(w: bv16): bv16 {
    if w & 0x8000 != 0 then ((w ^ 0x8408) << 1) | 1 else w << 1
  }

  lemma UnshiftUndoesShift(v: bv16)
    ensures Unshift(Shift(v)) == v
  {
  }

  lemma {:induction false} IterateIsInjective<T(!new)>(step: T -> T, back: T -> T, a: T, b: T, k: nat)
    requires forall x :: back(step(x)) == x
    requires Iterate(step, a, k) == Iterate(step, b, k)
    ensures a == b
    decreases k
  {
    if k > 0 {
      IterateIsInjective(step, back, step(a), step(b), k - 1);
      assert back(step(a)) == a && back(step(b)) == b;
    }
  }

  lemma TableIsInjective(a: bv16, b: bv16)
    requires Table(a) == Table(b)
    ensures a == b
  {
    forall x
      ensures Unshift(Shift(x)) == x
    {
      UnshiftUndoesShift(x);
    }
    IterateIsInjective(Shift, Unshift, a, b, 8);
  }

  lemma TableOfHighByte(v: bv16)
    requires v & 0xff == 0
    ensures Table(v) == v >> 8
  {
    TableIsEightShifts(v);
  }

  lemma TwoBytes(v: bv16)
    ensures (v & 0xff00) ^ (v & 0xff) == v && v & 0xff00 & 0xff == 0 && (v & 0xff00) >> 8 == v >> 8
  {
  }

  lemma JoinedTable(v: bv16, high: bv16, low: bv16)
    requires Xor(high, low) == v
    ensures Table(v) == Xor(Table(high), Table(low))
  {
    TableIsLinear(high, low);
  }

  lemma SplitTable(v: bv16)
    ensures Table(v) == (v >> 8) ^ Table(v & 0xff)
  {
    var high, low := v & 0xff00, v & 0xff;
    TwoBytes(v);
    JoinedTable(v, high, low);
    TableOfHighByte(high);
  }

  lemma SameHighByte(fcs: bv16, w: bv16)
    requires w & 0xff00 == 0
    ensures (fcs ^ w) >> 8 == fcs >> 8
  {
  }

  lemma AbsorbForm(fcs: bv16, v: bv16, low: bv16)
    requires low == v & 0xff && v >> 8 == fcs >> 8
    ensures (fcs >> 8) ^ Table(low) == Table(v)
  {
    SplitTable(v);
  }

  /** One table step is eight generator steps on the whole value. */
  lemma AbsorbIsTable(fcs: bv16, w: bv16, v: bv16)
    requires w & 0xff00 == 0 && v == fcs ^ w
    ensures Absorb(fcs, w) == Table(v)
  {
    SameHighByte(fcs, w);
    AbsorbForm(fcs, v, (fcs ^ w) & 0xff);
  }

  lemma XorCancels(f: bv16, g: bv16, w: bv16)
    requires f ^ w == g ^ w
    ensures f == g
  {
  }

  /** Different check values stay different under the same byte. */
  lemma AbsorbKeepsStatesApart(f: bv16, g: bv16, w: bv16)
    requires w & 0xff00 == 0 && Absorb(f, w) == Absorb(g, w)
    ensures f == g
  {
    AbsorbIsTable(f, w, f ^ w);
    AbsorbIsTable(g, w, g ^ w);
    TableIsInjective(f ^ w, g ^ w);
    XorCancels(f, g, w);
  }

  lemma ByteIsLow(c: bv8, d: bv8)
    ensures (c as bv16) & 0xff00 == 0
    ensures c as bv16 == d as bv16 ==> c == d
  {
  }

  /** The same bytes keep different check values different. */
  lemma {:induction false} RunKeepsStatesApart(f: bv16, g: bv16, data: seq<bv8>)
    requires Run(f, data) == Run(g, data)
    ensures f == g
    decreases |data|
  {
    if data != [] {
      RunKeepsStatesApart(Update(f, data[0]), Update(g, data[0]), data[1..]);
      ByteIsLow(data[0], data[0]);
      AbsorbKeepsStatesApart(f, g, data[0] as bv16);
    }
  }

  // ---------------------------------------------------------------- bit by bit

  // First for any register with a step, a way to add, and bits to put in front; then for
  // the 16-bit one.

  /** Bits fed one by one: each is added before a step. */
  function Feed<T>(step: T -> T, add: (T, T) -> T, bit: bool -> T, v: T, bits: seq<bool>): T
    decreases |bits|
  {
    if bits == [] then v else Feed(step, add, bit, step(add(v, bit(bits[0]))), bits[1..])
  }

  /** The low `k` bits, lowest first. */
  function LowBits<T>(low: T -> bool, half: T -> T, c: T, k: nat): (r: seq<bool>)
    ensures |r| == k
  {
    if k == 0 then [] else [low(c)] + LowBits(low, half, half(c), k - 1)
  }

  /** The value whose low bits are `bits`. */
  function Packed<T>(cons: (bool, T) -> T, zero: T, bits: seq<bool>): T
    decreases |bits|
  {
    if bits == [] then zero else cons(bits[0], Packed(cons, zero, bits[1..]))
  }

  lemma {:induction false} FeedConcat<T>(step: T -> T, add: (T, T) -> T, bit: bool -> T, v: T, a: seq<bool>, b: seq<bool>)
    ensures Feed(step, add, bit, v, a + b) == Feed(step, add, bit, Feed(step, add, bit, v, a), b)
    decreases |a|
  {
    if a == [] {
      assert a + b == b;
    } else {
      assert (a + b)[1..] == a[1..] + b;
      FeedConcat(step, add, bit, step(add(v, bit(a[0]))), a[1..], b);
    }
  }

  /** A step works on the lowest bit and moves the others down. */
  ghost predicate StepsBitwise<T(!new)>(step: T -> T, add: (T, T) -> T, bit: bool -> T, low: T -> bool, half: T -> T) {
    forall x, y, b :: low(y) == b ==> step(add(x, y)) == add(step(add(x, bit(b))), half(y))
  }

  /** Feeding bits one by one is stepping with all of them added. */
  lemma {:induction false} StepsFeedBits<T(!new)>(step: T -> T, add: (T, T) -> T, bit: bool -> T, low: T -> bool, half: T -> T,
                                                 v: T, c: T, k: nat)
    requires StepsBitwise(step, add, bit, low, half)
    ensures Iterate(step, add(v, c), k) == add(Feed(step, add, bit, v, LowBits(low, half, c, k)), Iterate(half, c, k))
    decreases k
  {
    if k > 0 {
      var bits := LowBits(low, half, c, k);
      StepsFeedBits(step, add, bit, low, half, step(add(v, bit(low(c)))), half(c), k - 1);
      assert bits[0] == low(c) && bits[1..] == LowBits(low, half, half(c), k - 1);
    }
  }

  /** The same bits keep different values different. */
  lemma {:induction false} FeedKeepsApart<T(!new)>(step: T -> T, back: T -> T, add: (T, T) -> T, bit: bool -> T,
                                                  v: T, w: T, bits: seq<bool>)
    requires forall x :: back(step(x)) == x
    requires forall x, y, b :: add(x, bit(b)) == add(y, bit(b)) ==> x == y
    requires Feed(step, add, bit, v, bits) == Feed(step, add, bit, w, bits)
    ensures v == w
    decreases |bits|
  {
    if bits != [] {
      var x, y := add(v, bit(bits[0])), add(w, bit(bits[0]));
      FeedKeepsApart(step, back, add, bit, step(x), step(y), bits[1..]);
      assert back(step(x)) == x && back(step(y)) == y;
    }
  }

  lemma {:induction false} IterateAdds<T>(step: T -> T, v: T, j: nat, k: nat)
    ensures Iterate(step, v, j + k) == Iterate(step, Iterate(step, v, j), k)
    decreases j
  {
    if j > 0 {
      IterateAdds(step, step(v), j - 1, k);
    }
  }

  lemma {:induction false} IterateStays<T>(step: T -> T, zero: T, k: nat)
    requires step(zero) == zero
    ensures Iterate(step, zero, k) == zero
    decreases k
  {
    if k > 0 {
      IterateStays(step, zero, k - 1);
    }
  }

  /** Up to `room` + 1 bits can be packed and taken out again. */
  lemma {:induction false} PackedBits<T(!new)>(cons: (bool, T) -> T, zero: T, low: T -> bool, half: T -> T, room: nat,
                                               bits: seq<bool>)
    requires half(zero) == zero && |bits| <= room + 1
    requires forall b, x :: Iterate(half, x, room) == zero ==> half(cons(b, x)) == x && low(cons(b, x)) == b
    ensures var v := Packed(cons, zero, bits);
            LowBits(low, half, v, |bits|) == bits && Iterate(half, v, |bits|) == zero
    decreases |bits|
  {
    if bits != [] {
      var rest := bits[1..];
      var v := Packed(cons, zero, rest);
      PackedBits(cons, zero, low, half, room, rest);
      IterateAdds(half, v, |rest|, room - |rest|);
      IterateStays(half, zero, room - |rest|);
      assert half(cons(bits[0], v)) == v && low(cons(bits[0], v)) == bits[0];
    }
  }

  lemma {:induction false} LowBitsAreInjective<T(!new)>(low: T -> bool, half: T -> T, c: T, d: T, k: nat)
    requires forall x, y :: half(x) == half(y) && low(x) == low(y) ==> x == y
    requires LowBits(low, half, c, k) == LowBits(low, half, d, k) && Iterate(half, c, k) == Iterate(half, d, k)
    ensures c == d
    decreases k
  {
    if k > 0 {
      var x, y := LowBits(low, half, c, k), LowBits(low, half, d, k);
      assert x[0] == low(c) && y[0] == low(d);
      assert x[1..] == LowBits(low, half, half(c), k - 1) && y[1..] == LowBits(low, half, half(d), k - 1);
      LowBitsAreInjective(low, half, half(c), half(d), k - 1);
    }
  }

  /** The bits of all items. */
  function Spread<T>(f: T -> seq<bool>, data: seq<T>): seq<bool>
    decreases |data|
  {
    if data == [] then [] else f(data[0]) + Spread(f, data[1..])
  }

  lemma {:induction false} SpreadConcat<T>(f: T -> seq<bool>, a: seq<T>, b: seq<T>)
    ensures Spread(f, a + b) == Spread(f, a) + Spread(f, b)
    decreases |a|
  {
    if a == [] {
      assert a + b == b;
    } else {
      assert (a + b)[1..] == a[1..] + b;
      SpreadConcat(f, a[1..], b);
      assert f(a[0]) + (Spread(f, a[1..]) + Spread(f, b)) == (f(a[0]) + Spread(f, a[1..])) + Spread(f, b);
    }
  }

  lemma {:induction false} SpreadLength<T(!new)>(f: T -> seq<bool>, n: nat, data: seq<T>)
    requires forall x :: |f(x)| == n
    ensures |Spread(f, data)| == n * |data|
    decreases |data|
  {
    if data != [] {
      SpreadLength(f, n, data[1..]);
      assert n * |data| == n + n * (|data| - 1);
    }
  }

  lemma {:induction false} SpreadIsInjective<T(!new)>(f: T -> seq<bool>, n: nat, a: seq<T>, b: seq<T>)
    requires forall x :: |f(x)| == n
    requires forall x, y :: f(x) == f(y) ==> x == y
    requires |a| == |b| && Spread(f, a) == Spread(f, b)
    ensures a == b
    decreases |a|
  {
    if a != [] {
      assert Spread(f, a)[..n] == f(a[0]) && Spread(f, b)[..n] == f(b[0]);
      assert Spread(f, a)[n..] == Spread(f, a[1..]) && Spread(f, b)[n..] == Spread(f, b[1..]);
      SpreadIsInjective(f, n, a[1..], b[1..]);
    }
  }

  lemma OtherMiddle<T>(before: seq<T>, c: seq<T>, after: seq<T>, d: seq<T>)
    requires |c| == |d| && before + c + after == before + d + after
    ensures c == d
  {
    assert c == (before + c + after)[|before|..|before| + |c|];
    assert d == (before + d + after)[|before|..|before| + |d|];
  }

  function Half(v: bv16): bv16 {
    v >> 1
  }

  predicate Odd(v: bv16) {
    v & 1 == 1
  }

  function Bit(b: bool): bv16 {
    if b then 1 else 0
  }

  function Cons(b: bool, v: bv16): bv16 {
    (v << 1) | Bit(b)
  }

  /** The bits of a byte in the order in which they go out. */
  function ByteBits(c: bv8): (r: seq<bool>)
    ensures |r| == 8
  {
    LowBits(Odd, Half, c as bv16, 8)
  }

  function Bits(data: seq<bv8>): seq<bool> {
    Spread(ByteBits, data)
  }

  /** The running check value of single bits. */
  function RunBits(fcs: bv16, bits: seq<bool>): bv16 {
    Feed(Shift, Xor, Bit, fcs, bits)
  }

  lemma XorZero(x: bv16)
    ensures Xor(x, 0) == x
  {
  }

  lemma StepBit(x: bv16, y: bv16, bit: bv16)
    requires bit == y & 1
    ensures Shift(x ^ y) == Shift(x ^ bit) ^ (y >> 1)
  {
  }

  lemma LowestBit(y: bv16, b: bool)
    requires Odd(y) == b
    ensures Bit(b) == y & 1
  {
  }

  lemma EveryBit()
    ensures StepsBitwise(Shift, Xor, Bit, Odd, Half)
  {
    forall x, y, b | Odd(y) == b ensures Shift(Xor(x, y)) == Xor(Shift(Xor(x, Bit(b))), Half(y)) {
      LowestBit(y, b);
      StepBit(x, y, Bit(b));
    }
  }

  lemma AddedBitCancels(x: bv16, y: bv16, b: bool)
    requires Xor(x, Bit(b)) == Xor(y, Bit(b))
    ensures x == y
  {
  }

  lemma PackOne(v: bv16, bit: bv16)
    requires v & 0x8000 == 0 && bit <= 1
    ensures ((v << 1) | bit) >> 1 == v && ((v << 1) | bit) & 1 == bit
  {
  }

  lemma ConsAndBack(b: bool, v: bv16)
    requires v & 0x8000 == 0
    ensures Half(Cons(b, v)) == v && Odd(Cons(b, v)) == b
  {
    PackOne(v, Bit(b));
  }

  lemma {:induction false} TopBitIsLast(v: bv16)
    requires Iterate(Half, v, 15) == 0
    ensures v & 0x8000 == 0
  {
    var a := Half(Half(Half(v)));
    var b := Half(Half(Half(a)));
    var c := Half(Half(Half(b)));
    var d := Half(Half(Half(c)));
    var e := Half(Half(Half(d)));
    ThreeHalves(v, 12);
    ThreeHalves(a, 9);
    ThreeHalves(b, 6);
    ThreeHalves(c, 3);
    ThreeHalves(d, 0);
    assert e == 0;
  }

  lemma {:induction false} ThreeHalves(v: bv16, k: nat)
    ensures Iterate(Half, v, k + 3) == Iterate(Half, Half(Half(Half(v))), k)
  {
    assert Iterate(Half, v, k + 3) == Iterate(Half, Half(v), k + 2);
    assert Iterate(Half, Half(v), k + 2) == Iterate(Half, Half(Half(v)), k + 1);
  }

  lemma SameHalves(x: bv16, y: bv16)
    requires Half(x) == Half(y) && Odd(x) == Odd(y)
    ensures x == y
  {
  }

  lemma ByteIsUsedUp(c: bv8)
    ensures Iterate(Half, c as bv16, 8) == 0
  {
    var v := c as bv16;
    ThreeHalves(v, 5);
    ThreeHalves(Half(Half(Half(v))), 2);
  }

  lemma ShiftsFeedBits(fcs: bv16, c: bv16, k: nat)
    ensures Iterate(Shift, Xor(fcs, c), k) == Xor(RunBits(fcs, LowBits(Odd, Half, c, k)), Iterate(Half, c, k))
  {
    EveryBit();
    StepsFeedBits(Shift, Xor, Bit, Odd, Half, fcs, c, k);
  }

  lemma ByteFeedsBits(fcs: bv16, c: bv8)
    ensures Update(fcs, c) == RunBits(fcs, ByteBits(c))
  {
    var w := c as bv16;
    ByteIsLow(c, c);
    AbsorbIsTable(fcs, w, Xor(fcs, w));
    ShiftsFeedBits(fcs, w, 8);
    ByteIsUsedUp(c);
    XorZero(RunBits(fcs, LowBits(Odd, Half, w, 8)));
  }

  /** The table works on bytes as the generator does on bits. */
  lemma {:induction false} RunIsBitwise(fcs: bv16, data: seq<bv8>)
    ensures Run(fcs, data) == RunBits(fcs, Bits(data))
    decreases |data|
  {
    if data != [] {
      ByteFeedsBits(fcs, data[0]);
      FeedConcat(Shift, Xor, Bit, fcs, ByteBits(data[0]), Bits(data[1..]));
      RunIsBitwise(Update(fcs, data[0]), data[1..]);
    }
  }

  lemma BitsKeepStatesApart(f: bv16, g: bv16, bits: seq<bool>)
    requires RunBits(f, bits) == RunBits(g, bits)
    ensures f == g
  {
    forall x ensures Unshift(Shift(x)) == x {
      UnshiftUndoesShift(x);
    }
    forall x, y, b | Xor(x, Bit(b)) == Xor(y, Bit(b)) ensures x == y {
      AddedBitCancels(x, y, b);
    }
    FeedKeepsApart(Shift, Unshift, Xor, Bit, f, g, bits);
  }

  lemma SixteenBitsFit(bits: seq<bool>) returns (v: bv16)
    requires |bits| <= 16
    ensures LowBits(Odd, Half, v, |bits|) == bits && Iterate(Half, v, |bits|) == 0
  {
    forall b, x | Iterate(Half, x, 15) == 0 ensures Half(Cons(b, x)) == x && Odd(Cons(b, x)) == b {
      TopBitIsLast(x);
      ConsAndBack(b, x);
    }
    PackedBits(Cons, 0, Odd, Half, 15, bits);
    v := Packed(Cons, 0, bits);
  }

  lemma ShiftsKeepApart(a: bv16, b: bv16, k: nat)
    requires Iterate(Shift, a, k) == Iterate(Shift, b, k)
    ensures a == b
  {
    forall x ensures Unshift(Shift(x)) == x {
      UnshiftUndoesShift(x);
    }
    IterateIsInjective(Shift, Unshift, a, b, k);
  }

  /** Sixteen bits or fewer leave a check value that depends on all of them. */
  lemma ShortBurstsAreKeptApart(fcs: bv16, a: seq<bool>, b: seq<bool>)
    requires |a| == |b| <= 16 && RunBits(fcs, a) == RunBits(fcs, b)
    ensures a == b
  {
    var x := SixteenBitsFit(a);
    var y := SixteenBitsFit(b);
    ShiftsFeedBits(fcs, x, |a|);
    ShiftsFeedBits(fcs, y, |b|);
    ShiftsKeepApart(Xor(fcs, x), Xor(fcs, y), |a|);
    XorCancelsLeft(fcs, x, y);
  }

  lemma XorCancelsLeft(f: bv16, x: bv16, y: bv16)
    requires Xor(f, x) == Xor(f, y)
    ensures x == y
  {
  }

  lemma BitsAreInjective(a: seq<bv8>, b: seq<bv8>)
    requires |a| == |b| && Bits(a) == Bits(b)
    ensures a == b
  {
    forall x, y | ByteBits(x) == ByteBits(y) ensures x == y {
      BytesDiffer(x, y);
    }
    SpreadIsInjective(ByteBits, 8, a, b);
  }

  lemma BytesDiffer(c: bv8, d: bv8)
    requires ByteBits(c) == ByteBits(d)
    ensures c == d
  {
    forall x, y | Half(x) == Half(y) && Odd(x) == Odd(y) ensures x == y {
      SameHalves(x, y);
    }
    ByteIsUsedUp(c);
    ByteIsUsedUp(d);
    LowBitsAreInjective(Odd, Half, c as bv16, d as bv16, 8);
    ByteIsLow(c, d);
  }

  /** A frame as sent: the receiver's running value over it ends at GOOD. */
  lemma SentFrameIsGood(data: seq<bv8>)
    ensures var fcs := Run(INIT, data); Run(INIT, data + [Low(fcs), High(fcs)]) == GOOD
  {
    var fcs := Run(INIT, data);
    RunConcat(INIT, data, [Low(fcs), High(fcs)]);
    RunConcat(fcs, [Low(fcs)], [High(fcs)]);
    assert [Low(fcs)] + [High(fcs)] == [Low(fcs), High(fcs)];
    RunOne(fcs, Low(fcs));
    RunOne(Update(fcs, Low(fcs)), High(fcs));
    TrailerDrivesToGood(fcs);
  }

  lemma RunThree(fcs: bv16, a: bv8, b: bv8, c: bv8)
    ensures Run(fcs, [a, b, c]) == Update(Update(Update(fcs, a), b), c)
  {
    assert [a, b, c] == [a] + [b] + [c];
    RunConcat(fcs, [a] + [b], [c]);
    RunConcat(fcs, [a], [b]);
    RunOne(fcs, a);
    RunOne(Update(fcs, a), b);
    RunOne(Update(Update(fcs, a), b), c);
  }

  lemma OneTwoThree()
    ensures Run(0xffff, [0x31, 0x32, 0x33]) == 0x634b
  {
    TableIsEightShifts(0xce);
    TableIsEightShifts(0xbf);
    TableIsEightShifts(0x60);
    assert Update(0xffff, 0x31) == 0x2f8d;
    assert Update(0x2f8d, 0x32) == 0x4d53;
    assert Update(0x4d53, 0x33) == 0x634b;
    RunThree(0xffff, 0x31, 0x32, 0x33);
  }

  lemma FourFiveSix()
    ensures Run(0x634b, [0x34, 0x35, 0x36]) == 0x198d
  {
    TableIsEightShifts(0x7f);
    TableIsEightShifts(0x26);
    TableIsEightShifts(0x89);
    assert Update(0x634b, 0x34) == 0x8b13;
    assert Update(0x8b13, 0x35) == 0x44bf;
    assert Update(0x44bf, 0x36) == 0x198d;
    RunThree(0x634b, 0x34, 0x35, 0x36);
  }

  lemma SevenEightNine()
    ensures Run(0x198d, [0x37, 0x38, 0x39]) == 0x6f91
  {
    TableIsEightShifts(0xba);
    TableIsEightShifts(0xf0);
    TableIsEightShifts(0xac);
    assert Update(0x198d, 0x37) == 0x1ac8;
    assert Update(0x1ac8, 0x38) == 0xf795;
    assert Update(0xf795, 0x39) == 0x6f91;
    RunThree(0x198d, 0x37, 0x38, 0x39);
  }

  /** The digits 1 to 9 in ASCII are followed by 0x6e and 0x90. */
  lemma KnownAnswer(digits: seq<bv8>)
    requires digits == [0x31, 0x32, 0x33, 0x34, 0x35, 0x36, 0x37, 0x38, 0x39]
    ensures var fcs := Run(INIT, digits); Low(fcs) == 0x6e && High(fcs) == 0x90
  {
    var first, second, third: seq<bv8> := [0x31, 0x32, 0x33], [0x34, 0x35, 0x36], [0x37, 0x38, 0x39];
    assert digits == (first + second) + third;
    RunConcat(INIT, first + second, third);
    RunConcat(INIT, first, second);
    OneTwoThree();
    FourFiveSix();
    SevenEightNine();
  }

  /** The frames differ at most in `n` bits from bit `at` on. */
  ghost predicate DifferWithin(a: seq<bv8>, b: seq<bv8>, at: nat, n: nat) {
    && |a| == |b| && at + n <= |Bits(a)| == |Bits(b)|
    && Bits(a)[..at] == Bits(b)[..at] && Bits(a)[at + n..] == Bits(b)[at + n..]
  }

  lemma RunInThree(before: seq<bool>, x: seq<bool>, after: seq<bool>)
    ensures RunBits(INIT, before + (x + after)) == RunBits(RunBits(RunBits(INIT, before), x), after)
  {
    FeedConcat(Shift, Xor, Bit, INIT, before, x + after);
    FeedConcat(Shift, Xor, Bit, RunBits(INIT, before), x, after);
  }

  /** A good frame altered in a burst of up to sixteen bits, wherever it begins, is never
      good. */
  lemma BurstIsDetected(a: seq<bv8>, b: seq<bv8>, at: nat, n: nat)
    requires DifferWithin(a, b, at, n) && n <= 16 && a != b && Run(INIT, a) == GOOD
    ensures Run(INIT, b) != GOOD
  {
    if Run(INIT, b) == GOOD {
      var before, after := Bits(a)[..at], Bits(a)[at + n..];
      var x, y := Bits(a)[at..at + n], Bits(b)[at..at + n];
      assert Bits(a) == before + (x + after) && Bits(b) == before + (y + after);
      RunIsBitwise(INIT, a);
      RunIsBitwise(INIT, b);
      RunInThree(before, x, after);
      RunInThree(before, y, after);
      var f := RunBits(INIT, before);
      BitsKeepStatesApart(RunBits(f, x), RunBits(f, y), after);
      ShortBurstsAreKeptApart(f, x, y);
      BitsAreInjective(a, b);
    }
  }

  lemma BitsOfThree(before: seq<bv8>, c: seq<bv8>, after: seq<bv8>)
    ensures var bits := Bits(before + c + after);
            && |Bits(before)| == 8 * |before| && |bits| == 8 * (|before| + |c| + |after|)
            && bits[..8 * |before|] == Bits(before) && bits[8 * |before| + 8 * |c|..] == Bits(after)
  {
    SpreadConcat(ByteBits, before + c, after);
    SpreadConcat(ByteBits, before, c);
    SpreadLength(ByteBits, 8, before);
    SpreadLength(ByteBits, 8, c);
    SpreadLength(ByteBits, 8, after);
  }

  lemma AlteredWithin(before: seq<bv8>, c: seq<bv8>, after: seq<bv8>, d: seq<bv8>)
    requires |c| == |d|
    ensures DifferWithin(before + c + after, before + d + after, 8 * |before|, 8 * |c|)
  {
    BitsOfThree(before, c, after);
    BitsOfThree(before, d, after);
  }

  lemma AlteredIsOther(before: seq<bv8>, c: seq<bv8>, after: seq<bv8>, d: seq<bv8>)
    requires |c| == |d| && c != d
    ensures before + c + after != before + d + after
  {
    if before + c + after == before + d + after {
      OtherMiddle(before, c, after, d);
    }
  }

  /** In particular, neither is one altered within one byte, or within two adjacent bytes. */
  lemma AlteredBytesAreDetected(before: seq<bv8>, c: seq<bv8>, after: seq<bv8>, d: seq<bv8>)
    requires |c| == |d| <= 2 && c != d && Run(INIT, before + c + after) == GOOD
    ensures Run(INIT, before + d + after) != GOOD
  {
    AlteredWithin(before, c, after, d);
    AlteredIsOther(before, c, after, d);
    BurstIsDetected(before + c + after, before + d + after, 8 * |before|, 8 * |c|);
  }

  // ---------------------------------------------------------------- the driver

  method RunningFcs(data: array<bv8>, len: nat) returns (fcs: bv16)
    requires len <= data.Length
    ensures fcs == Run(INIT, data[..len])
  {
    fcs := INIT;
    for x := 0 to len
      invariant fcs == Run(INIT, data[..x])
    {
      RunConcat(INIT, data[..x], [data[x]]);
      RunOne(fcs, data[x]);
      assert data[..x + 1] == data[..x] + [data[x]];
      fcs := Update(fcs, data[x]);
    }
  }

  /** Overwrites the last two bytes of a block with its check sequence; a block of
      fewer than two bytes is left alone. */
  method CalcFcs(data: array<bv8>, len: nat)
    requires len <= data.Length
    modifies data
    ensures len < 2 ==> data[..] == old(data[..])
    ensures len >= 2 ==> Run(INIT, data[..len]) == GOOD
    ensures len >= 2 ==> data[..len - 2] == old(data[..len - 2]) && data[len..] == old(data[len..])
  {
    if len < 2 { return; }
    var fcs := RunningFcs(data, len - 2);
    ghost var head, tail := data[..len - 2], data[len..];
    SentFrameIsGood(head);
    Append(data, len, Low(fcs), High(fcs));
  }

  /** The check sequence goes out with its low byte first. */
  method Append(data: array<bv8>, len: nat, low: bv8, high: bv8)
    requires 2 <= len <= data.Length
    modifies data
    ensures data[..len] == old(data[..len - 2]) + [low, high]
    ensures data[len..] == old(data[len..]) && data[..len - 2] == old(data[..len - 2])
  {
    data[len - 2] := low;
    data[len - 1] := high;
  }

  datatype Verdict = Ignored | Accepted | BadFcs

  /** What becomes of a frame by itself. */
  function Judged(frame: seq<bv8>): Verdict {
    if frame == [] then Ignored else if Run(INIT, frame) == GOOD then Accepted else BadFcs
  }

  /** The receiver's running value, and how much of a frame it has. */
  class Receiver {
    var infcs: bv16
    var readidx: nat

    constructor ()
      ensures infcs == INIT && readidx == 0
    {
      infcs, readidx := INIT, 0;
    }

    /** The bytes of a frame, or more of them. */
    method Take(bytes: seq<bv8>)
      modifies this
      ensures infcs == Run(old(infcs), bytes) && readidx == old(readidx) + |bytes|
    {
      for x := 0 to |bytes|
        invariant infcs == Run(old(infcs), bytes[..x]) && readidx == old(readidx) + x
      {
        RunConcat(old(infcs), bytes[..x], [bytes[x]]);
        RunOne(infcs, bytes[x]);
        assert bytes[..x + 1] == bytes[..x] + [bytes[x]];
        infcs := Update(infcs, bytes[x]);
        readidx := readidx + 1;
      }
      assert bytes[..|bytes|] == bytes;
    }

    /** The end of a frame: an empty one does not count, any other is judged by the
        running value, which then starts afresh. */
    method Complete() returns (v: Verdict)
      modifies this
      ensures v == if old(readidx) == 0 then Ignored else if old(infcs) == GOOD then Accepted else BadFcs
      ensures readidx == 0 && infcs == if old(readidx) == 0 then old(infcs) else INIT
    {
      if readidx == 0 {
        return Ignored;
      }
      v := if infcs != GOOD then BadFcs else Accepted;
      infcs, readidx := INIT, 0;
    }

    /** Frame after frame is judged by its own bytes only. */
    method Receive(frames: seq<seq<bv8>>) returns (verdicts: seq<Verdict>)
      requires infcs == INIT && readidx == 0
      modifies this
      ensures |verdicts| == |frames| && forall k :: 0 <= k < |frames| ==> verdicts[k] == Judged(frames[k])
      ensures infcs == INIT && readidx == 0
    {
      verdicts := [];
      for k := 0 to |frames|
        invariant infcs == INIT && readidx == 0
        invariant |verdicts| == k && forall j :: 0 <= j < k ==> verdicts[j] == Judged(frames[j])
      {
        Take(frames[k]);
        var v := Complete();
        verdicts := verdicts + [v];
      }
    }
  }
}
