/** The TDM-over-X message of a dynamic span: encoder, decoder, sequence counter. */
module Tdmox {
  import opened Arithmetic
  import opened Words

  const U16: nat := 0x1_0000

  /** A 16-bit word read in network order. */
  function Value(high: Byte, low: Byte): (r: nat)
    ensures r < U16
  {
    (high as int) * 256 + low as int
  }

  /** The two bytes of a 16-bit word in network order. */
  function Word(v: nat): (r: seq<Byte>)
    requires v < U16
    ensures |r| == 2 && Value(r[0], r[1]) == v
  {
    [v / 256, v % 256]
  }

  /** The low four signalling bits of up to four channels, the first one lowest. */
  function Nibbles(sigs: seq<nat>): (r: nat)
    requires |sigs| <= 4
    ensures |sigs| == 4 ==> r < U16
    ensures |sigs| == 3 ==> r < 4096
    ensures |sigs| == 2 ==> r < 256
    ensures |sigs| == 1 ==> r < 16
    ensures |sigs| == 0 ==> r == 0
  {
    if sigs == [] then 0 else sigs[0] % 16 + 16 * Nibbles(sigs[1..])
  }

  function Radix(k: nat): (r: nat)
    requires k < 4
    ensures r > 0
  {
    if k == 0 then 1 else if k == 1 then 16 else if k == 2 then 256 else 4096
  }

  lemma RadixStep(n: nat, k: nat)
    requires 1 <= k < 4
    ensures n * Radix(k) == 16 * (n * Radix(k - 1))
  {
  }

  /** One more channel's bits go above those already there. */
  lemma NibblesGrow(sigs: seq<nat>, s: nat)
    requires |sigs| < 4
    ensures Nibbles(sigs + [s]) == Nibbles(sigs) + s % 16 * Radix(|sigs|)
    decreases |sigs|
  {
    var all, n := sigs + [s], s % 16;
    if sigs == [] {
      assert all[1..] == [] && Nibbles([]) == 0;
    } else {
      assert all[1..] == sigs[1..] + [s];
      NibblesGrow(sigs[1..], s);
      RadixStep(n, |sigs|);
    }
  }

  /** What eight bits from the place of channel `x` on hold: the channel's four bits and,
      above them, those of the next channel in the group. */
  function Seen(sigs: seq<nat>, x: nat): (r: nat)
    requires x < |sigs|
    ensures r % 16 == sigs[x] % 16
    ensures r == sigs[x] % 16 <==> x % 4 == 3 || x + 1 == |sigs| || sigs[x + 1] % 16 == 0
  {
    sigs[x] % 16 + 16 * if x % 4 != 3 && x + 1 < |sigs| then sigs[x + 1] % 16 else 0
  }

  lemma LowByte(low: nat, rest: nat)
    requires low < 16
    ensures (low + 16 * rest) / 1 % 256 == low + 16 * (rest % 16)
  {
    assert rest == rest / 16 * 16 + rest % 16;
    assert low + 16 * rest == low + 16 * (rest % 16) + 256 * (rest / 16);
  }

  lemma DropNibble(low: nat, rest: nat, k: nat)
    requires low < 16 && 1 <= k < 4
    ensures (low + 16 * rest) / Radix(k) == rest / Radix(k - 1)
  {
    if k == 1 {
      assert (low + 16 * rest) / 16 == rest;
    } else if k == 2 {
      assert (low + 16 * rest) / 256 == rest / 16;
    } else {
      assert (low + 16 * rest) / 4096 == rest / 256;
    }
  }

  /** Shifting and masking with eight bits. */
  lemma NibbleBack(sigs: seq<nat>, k: nat)
    requires k < |sigs| <= 4
    ensures Nibbles(sigs) / Radix(k) % 256 == Seen(sigs, k)
    decreases k
  {
    var rest := sigs[1..];
    if k == 0 {
      LowByte(sigs[0] % 16, Nibbles(rest));
      if rest != [] {
        LowNibble(rest[0] % 16, Nibbles(rest[1..]));
      }
    } else {
      NibbleBack(rest, k - 1);
      DropNibble(sigs[0] % 16, Nibbles(rest), k);
    }
  }

  lemma LowNibble(low: nat, rest: nat)
    requires low < 16
    ensures (low + 16 * rest) % 16 == low
  {
  }

  /** The signalling words: one for each four channels, the last one possibly short. */
  function SigWords(sigs: seq<nat>): seq<Byte>
    decreases |sigs|
  {
    if sigs == [] then []
    else
      var k := Min(4, |sigs|);
      Word(Nibbles(sigs[..k])) + SigWords(sigs[k..])
  }

  function WordsFor(n: nat): nat {
    (n + 3) / 4
  }

  lemma WordsStep(n: nat)
    ensures WordsFor(n + 4) == WordsFor(n) + 1
    ensures n <= 4 ==> WordsFor(n) == if n == 0 then 0 else 1
  {
  }

  lemma {:induction false} SigWordsLength(sigs: seq<nat>)
    ensures |SigWords(sigs)| == 2 * WordsFor(|sigs|)
    decreases |sigs|
  {
    if |sigs| > 4 {
      SigWordsLength(sigs[4..]);
      WordsStep(|sigs| - 4);
    } else {
      WordsStep(|sigs|);
      if sigs != [] {
        assert sigs[|sigs|..] == [] && SigWords([]) == [];
      }
    }
  }

  /** The word of channel `x` holds the bits of its group of four. */
  lemma {:induction false} SigWordAt(sigs: seq<nat>, x: nat)
    requires x < |sigs|
    ensures 2 * (x / 4) + 2 <= |SigWords(sigs)|
    ensures var w := SigWords(sigs);
            Value(w[2 * (x / 4)], w[2 * (x / 4) + 1]) / Radix(x % 4) % 256 == Seen(sigs, x)
    decreases |sigs|
  {
    var k := Min(4, |sigs|);
    var w, rest := SigWords(sigs), SigWords(sigs[k..]);
    if x < 4 {
      NibbleBack(sigs[..k], x);
      assert Seen(sigs[..k], x) == Seen(sigs, x);
    } else {
      SigWordAt(sigs[4..], x - 4);
      assert Seen(sigs[4..], x - 4) == Seen(sigs, x);
      assert w == Word(Nibbles(sigs[..4])) + rest;
      assert (x - 4) / 4 == x / 4 - 1 && (x - 4) % 4 == x % 4;
      assert w[2 * (x / 4)] == rest[2 * ((x - 4) / 4)];
      assert w[2 * (x / 4) + 1] == rest[2 * ((x - 4) / 4) + 1];
    }
  }

  // ---------------------------------------------------------------- messages

  function Header(chunk: Byte, red: bool, txcnt: nat, channels: nat): (r: seq<Byte>)
    requires txcnt < U16 && channels < U16
    ensures |r| == 6
  {
    [chunk, if red then 3 else 2] + Word(txcnt) + Word(channels)
  }

  function Encode(chunk: Byte, red: bool, txcnt: nat, sigs: seq<nat>, audio: seq<seq<Byte>>): seq<Byte>
    requires txcnt < U16 && |sigs| == |audio| < U16
  {
    Header(chunk, red, txcnt, |sigs|) + SigWords(sigs) + Flatten(audio)
  }

  datatype Error = TooShort | WrongSamples(got: nat) | WrongChannels(got: nat) | WrongLength(wanted: nat)

  datatype Decoded = Rejected(error: Error)
    | Accepted(yellow: bool, rxpos: nat, sigs: seq<nat>, audio: seq<seq<Byte>>)

  /** The signalling value the receiver takes for channel `x` from the words at 6. */
  function SigAt(msg: seq<Byte>, x: nat): nat
    requires 6 + 2 * (x / 4) + 2 <= |msg|
  {
    var at := 6 + 2 * (x / 4);
    Value(msg[at], msg[at + 1]) / Radix(x % 4) % 256
  }

  function MessageLength(channels: nat, chunk: nat, sigbits: bool): nat {
    AudioStart(channels, sigbits) + Times(channels, chunk)
  }

  lemma ChunkInside(channels: nat, chunk: nat, x: nat)
    requires x < channels
    ensures Times(x, chunk) + chunk <= Times(channels, chunk)
  {
    TimesMonotone(x + 1, channels, chunk);
  }

  /** The audio of channel `x` of `channels`, laid out from `start`. */
  function Inside(msg: seq<Byte>, start: nat, channels: nat, chunk: nat, x: nat): seq<Byte>
    requires |msg| == start + Times(channels, chunk) && x < channels
  {
    ChunkInside(channels, chunk, x);
    msg[start + Times(x, chunk)..start + Times(x, chunk) + chunk]
  }

  /** The signalling values of `n` channels. */
  function AllSigs(msg: seq<Byte>, n: nat): (r: seq<nat>)
    requires 6 + 2 * WordsFor(n) <= |msg|
    ensures |r| == n
    ensures forall x :: 0 <= x < n ==> 6 + 2 * (x / 4) + 2 <= |msg| && r[x] == SigAt(msg, x)
  {
    seq(n, x requires 0 <= x < n && 6 + 2 * WordsFor(n) <= |msg| => SigAt(msg, x))
  }

  /** The audio of `n` channels, laid out from `start`. */
  function AllAudio(msg: seq<Byte>, start: nat, n: nat, chunk: nat): (r: seq<seq<Byte>>)
    requires |msg| == start + Times(n, chunk)
    ensures |r| == n && forall x :: 0 <= x < n ==> r[x] == Inside(msg, start, n, chunk, x)
  {
    seq(n, x requires 0 <= x < n && |msg| == start + Times(n, chunk) => Inside(msg, start, n, chunk, x))
  }

  /** The flags of byte 1. */
  predicate IsYellow(flags: Byte) {
    flags % 2 == 1
  }

  predicate HasSigs(flags: Byte) {
    flags / 2 % 2 == 1
  }

  /** Where the audio starts. */
  function AudioStart(channels: nat, sigbits: bool): nat {
    6 + if sigbits then 2 * WordsFor(channels) else 0
  }

  function Decode(msg: seq<Byte>, chunk: nat, channels: nat): Decoded {
    if |msg| < 6 then Rejected(TooShort)
    else if msg[0] != chunk then Rejected(WrongSamples(msg[0]))
    else
      var nchans := Value(msg[4], msg[5]);
      if nchans != channels then Rejected(WrongChannels(nchans))
      else
        var sigbits := HasSigs(msg[1]);
        var xlen := MessageLength(channels, chunk, sigbits);
        if xlen != |msg| then Rejected(WrongLength(xlen))
        else
          Accepted(IsYellow(msg[1]), Value(msg[2], msg[3]),
                   if sigbits then AllSigs(msg, channels) else [],
                   AllAudio(msg, AudioStart(channels, sigbits), channels, chunk))
  }

  lemma {:induction false} FlattenChunks(audio: seq<seq<Byte>>, chunk: nat)
    requires forall x :: 0 <= x < |audio| ==> |audio[x]| == chunk
    ensures |Flatten(audio)| == Times(|audio|, chunk)
    decreases |audio|
  {
    if audio != [] {
      FlattenChunks(audio[1..], chunk);
    }
  }

  lemma {:induction false} FlattenAt(audio: seq<seq<Byte>>, chunk: nat, x: nat)
    requires (forall x :: 0 <= x < |audio| ==> |audio[x]| == chunk) && x < |audio|
    ensures Times(x, chunk) + chunk <= |Flatten(audio)|
    ensures Flatten(audio)[Times(x, chunk)..Times(x, chunk) + chunk] == audio[x]
    decreases x
  {
    FlattenChunks(audio, chunk);
    ChunkInside(|audio|, chunk, x);
    if x == 0 {
      assert Flatten(audio)[..chunk] == audio[0];
    } else {
      FlattenAt(audio[1..], chunk, x - 1);
      var rest := Flatten(audio[1..]);
      assert Flatten(audio) == audio[0] + rest;
      var at := Times(x - 1, chunk);
      assert (audio[0] + rest)[chunk + at..chunk + at + chunk] == rest[at..at + chunk];
    }
  }

  /** Every channel gets its four bits with those of the next channel of its group above. */
  ghost predicate SignallingSeen(sent: seq<nat>, got: seq<nat>) {
    |got| == |sent| && forall x :: 0 <= x < |sent| ==> got[x] == Seen(sent, x)
  }

  /** So the four bits sent always come back, and alone exactly when the channel is the
      last of its group or of the span, or the next channel sends zeros. */
  lemma WhatIsSeen(sent: seq<nat>, got: seq<nat>, x: nat)
    requires SignallingSeen(sent, got) && x < |sent|
    ensures got[x] % 16 == sent[x] % 16
    ensures got[x] == sent[x] % 16 <==> x % 4 == 3 || x + 1 == |sent| || sent[x + 1] % 16 == 0
  {
  }

  /** Messages laid out as the encoder does. */
  ghost predicate LaidOut(msg: seq<Byte>, head: seq<Byte>, sigs: seq<nat>, audio: seq<seq<Byte>>, chunk: nat) {
    && |head| == 6 && |sigs| == |audio| && msg == head + SigWords(sigs) + Flatten(audio)
    && (forall x :: 0 <= x < |audio| ==> |audio[x]| == chunk)
  }

  lemma LayoutLength(msg: seq<Byte>, head: seq<Byte>, sigs: seq<nat>, audio: seq<seq<Byte>>, chunk: nat)
    requires LaidOut(msg, head, sigs, audio, chunk)
    ensures |msg| == MessageLength(|sigs|, chunk, true) && msg[..6] == head
  {
    SigWordsLength(sigs);
    FlattenChunks(audio, chunk);
  }

  lemma SignallingBack(msg: seq<Byte>, head: seq<Byte>, sigs: seq<nat>, audio: seq<seq<Byte>>, chunk: nat, x: nat)
    requires LaidOut(msg, head, sigs, audio, chunk) && x < |sigs|
    ensures 6 + 2 * (x / 4) + 2 <= |msg| && SigAt(msg, x) == Seen(sigs, x)
  {
    var words := SigWords(sigs);
    SigWordAt(sigs, x);
    assert msg[6 + 2 * (x / 4)] == words[2 * (x / 4)];
    assert msg[6 + 2 * (x / 4) + 1] == words[2 * (x / 4) + 1];
  }

  lemma AudioBack(msg: seq<Byte>, head: seq<Byte>, sigs: seq<nat>, audio: seq<seq<Byte>>, chunk: nat, x: nat)
    requires LaidOut(msg, head, sigs, audio, chunk) && x < |sigs|
    requires |msg| == MessageLength(|sigs|, chunk, true)
    ensures Inside(msg, AudioStart(|sigs|, true), |sigs|, chunk, x) == audio[x]
  {
    var data := Flatten(audio);
    SigWordsLength(sigs);
    FlattenAt(audio, chunk, x);
    var at, start := Times(x, chunk), 6 + 2 * WordsFor(|sigs|);
    ChunkInside(|sigs|, chunk, x);
    assert msg[start..] == data;
    assert msg[start + at..start + at + chunk] == data[at..at + chunk];
  }

  lemma HeaderRead(msg: seq<Byte>, chunk: Byte, red: bool, txcnt: nat, n: nat)
    requires txcnt < U16 && n < U16 && 6 <= |msg| && msg[..6] == Header(chunk, red, txcnt, n)
    ensures msg[0] == chunk && msg[1] == (if red then 3 else 2)
    ensures Value(msg[2], msg[3]) == txcnt && Value(msg[4], msg[5]) == n
  {
    var head := msg[..6];
    assert msg[0] == head[0] && msg[1] == head[1] && msg[2] == head[2];
    assert msg[3] == head[3] && msg[4] == head[4] && msg[5] == head[5];
    assert Word(txcnt) == head[2..4] && Word(n) == head[4..6];
  }

  /** A message of the right chunk size, channel count and length is accepted. */
  lemma WellFormed(msg: seq<Byte>, chunk: nat, n: nat)
    requires 6 <= |msg| && msg[0] == chunk && (msg[1] == 2 || msg[1] == 3) && Value(msg[4], msg[5]) == n
    requires |msg| == MessageLength(n, chunk, true)
    ensures Decode(msg, chunk, n) == Accepted(msg[1] == 3, Value(msg[2], msg[3]), AllSigs(msg, n),
                                              AllAudio(msg, AudioStart(n, true), n, chunk))
  {
    assert HasSigs(msg[1]) && IsYellow(msg[1]) == (msg[1] == 3);
  }

  /** Every encoded message is accepted and gives back what was sent. */
  lemma DecodeUndoesEncode(chunk: Byte, red: bool, txcnt: nat, sigs: seq<nat>, audio: seq<seq<Byte>>)
    requires txcnt < U16 && |sigs| == |audio| < U16
    requires forall x :: 0 <= x < |audio| ==> |audio[x]| == chunk
    ensures var d := Decode(Encode(chunk, red, txcnt, sigs, audio), chunk, |sigs|);
            && d.Accepted? && d.yellow == red && d.rxpos == txcnt
            && SignallingSeen(sigs, d.sigs) && d.audio == audio
  {
    var n := |sigs|;
    var head := Header(chunk, red, txcnt, n);
    var msg := Encode(chunk, red, txcnt, sigs, audio);
    LayoutLength(msg, head, sigs, audio, chunk);
    HeaderRead(msg, chunk, red, txcnt, n);
    WellFormed(msg, chunk, n);
    var d := Decode(msg, chunk, n);
    forall x | 0 <= x < n
      ensures d.sigs[x] == Seen(sigs, x) && d.audio[x] == audio[x]
    {
      SignallingBack(msg, head, sigs, audio, chunk, x);
      AudioBack(msg, head, sigs, audio, chunk, x);
    }
  }

  // ---------------------------------------------------------------- the wire

  /** The four bits at place `k` of a word in network order. */
  function WireNibble(high: Byte, low: Byte, k: nat): nat
    requires k < 4
  {
    if k == 0 then low % 16 else if k == 1 then low / 16 else if k == 2 then high % 16 else high / 16
  }

  lemma LowPlaces(h: int, l: int)
    requires 0 <= h < 256 && 0 <= l < 256
    ensures (h * 256 + l) % 256 % 16 == l % 16 && (h * 256 + l) / 16 % 256 % 16 == l / 16
  {
    assert (h * 256 + l) % 256 == l && (h * 256 + l) / 16 == h * 16 + l / 16;
  }

  lemma HighPlaces(h: int, l: int)
    requires 0 <= h < 256 && 0 <= l < 256
    ensures (h * 256 + l) / 256 % 256 % 16 == h % 16 && (h * 256 + l) / 4096 % 256 % 16 == h / 16
  {
    assert (h * 256 + l) / 256 == h && (h * 256 + l) / 4096 == h / 16;
  }

  lemma NibbleOnTheWire(high: Byte, low: Byte, k: nat)
    requires k < 4
    ensures Value(high, low) / Radix(k) % 256 % 16 == WireNibble(high, low, k)
  {
    if k < 2 {
      LowPlaces(high as int, low as int);
    } else {
      HighPlaces(high as int, low as int);
    }
  }

  /** The header byte by byte: samples for each channel, flags, counter, channels. */
  lemma HeaderOnTheWire(chunk: Byte, red: bool, txcnt: nat, sigs: seq<nat>, audio: seq<seq<Byte>>)
    requires txcnt < 65536 && |sigs| == |audio| < 65536
    ensures var msg := Encode(chunk, red, txcnt, sigs, audio);
            && |msg| >= 6 && msg[0] == chunk && msg[1] == (if red then 3 else 2)
            && msg[2] == txcnt / 256 && msg[3] == txcnt % 256 && msg[4] == |sigs| / 256 && msg[5] == |sigs| % 256
  {
    var head, rest := Header(chunk, red, txcnt, |sigs|), SigWords(sigs) + Flatten(audio);
    assert Encode(chunk, red, txcnt, sigs, audio) == head + rest;
    assert head == [chunk, if red then 3 else 2] + [txcnt / 256, txcnt % 256] + [|sigs| / 256, |sigs| % 256];
  }

  /** The message has `data` from byte `at` on. */
  predicate Has(msg: seq<Byte>, at: int, data: seq<Byte>) {
    0 <= at && at + |data| <= |msg| && msg[at..at + |data|] == data
  }

  /** Then two bytes for each four channels, the first channel's four bits lowest in the
      second byte. */
  lemma SignallingOnTheWire(chunk: Byte, red: bool, txcnt: nat, sigs: seq<nat>, audio: seq<seq<Byte>>, msg: seq<Byte>, x: nat)
    requires txcnt < 65536 && x < |sigs| == |audio| < 65536 && msg == Encode(chunk, red, txcnt, sigs, audio)
    requires forall x :: 0 <= x < |audio| ==> |audio[x]| == chunk
    ensures var at := 6 + 2 * (x / 4);
            at + 2 <= |msg| && WireNibble(msg[at], msg[at + 1], x % 4) == sigs[x] % 16
  {
    SignallingBack(msg, Header(chunk, red, txcnt, |sigs|), sigs, audio, chunk, x);
    NibbleOnTheWire(msg[6 + 2 * (x / 4)], msg[6 + 2 * (x / 4) + 1], x % 4);
  }

  lemma AudioLaidOut(msg: seq<Byte>, head: seq<Byte>, sigs: seq<nat>, audio: seq<seq<Byte>>, chunk: nat, x: nat)
    requires LaidOut(msg, head, sigs, audio, chunk) && x < |sigs|
    ensures |msg| == 6 + 2 * ((|sigs| + 3) / 4) + Times(|sigs|, chunk)
    ensures Has(msg, 6 + 2 * ((|sigs| + 3) / 4) + Times(x, chunk), audio[x])
  {
    LayoutLength(msg, head, sigs, audio, chunk);
    AudioBack(msg, head, sigs, audio, chunk, x);
    ChunkInside(|sigs|, chunk, x);
  }

  /** Then the samples channel by channel. */
  lemma AudioOnTheWire(chunk: Byte, red: bool, txcnt: nat, sigs: seq<nat>, audio: seq<seq<Byte>>, msg: seq<Byte>, x: nat)
    requires txcnt < 65536 && x < |sigs| == |audio| < 65536 && msg == Encode(chunk, red, txcnt, sigs, audio)
    requires forall x :: 0 <= x < |audio| ==> |audio[x]| == chunk
    ensures |msg| == 6 + 2 * ((|sigs| + 3) / 4) + |sigs| * chunk
    ensures Has(msg, 6 + 2 * ((|sigs| + 3) / 4) + x * chunk, audio[x])
  {
    var whole, before := Times(|sigs|, chunk), Times(x, chunk);
    AudioLaidOut(msg, Header(chunk, red, txcnt, |sigs|), sigs, audio, chunk, x);
    assert whole == |sigs| * chunk by {
      TimesIsProduct(|sigs|, chunk);
    }
    assert before == x * chunk by {
      TimesIsProduct(x, chunk);
    }
  }

  /** Which messages a span accepts. */
  lemma AcceptedExactly(msg: seq<Byte>, chunk: nat, channels: nat)
    ensures Decode(msg, chunk, channels).Accepted? <==>
              && |msg| >= 6 && msg[0] == chunk && msg[4] == channels / 256 && msg[5] == channels % 256
              && |msg| == 6 + channels * chunk + if msg[1] / 2 % 2 == 1 then 2 * ((channels + 3) / 4) else 0
  {
    TimesIsProduct(channels, chunk);
  }

  /** What it reads from flags and counter. */
  lemma FlagsAndCounter(msg: seq<Byte>, chunk: nat, channels: nat)
    requires Decode(msg, chunk, channels).Accepted?
    ensures var d := Decode(msg, chunk, channels);
            && (d.yellow <==> msg[1] % 2 == 1) && d.rxpos / 256 == msg[2] as int && d.rxpos % 256 == msg[3] as int
            && (msg[1] / 2 % 2 == 0 ==> d.sigs == [])
  {
  }

  // ---------------------------------------------------------------- message buffer

  /** What _create_dynamic allocates for the message buffer. */
  function BufferSize(channels: nat, chunk: nat): nat {
    channels * chunk + channels / 4 + 48
  }

  /** The message of a span fits its buffer exactly up to 164 channels and for 168. */
  lemma MessageFits(channels: nat, chunk: nat)
    ensures MessageLength(channels, chunk, true) <= BufferSize(channels, chunk) <==> channels <= 164 || channels == 168
  {
    TimesIsProduct(channels, chunk);
    assert 6 + 2 * WordsFor(channels) <= channels / 4 + 48 <==> channels <= 164 || channels == 168;
  }

  // ---------------------------------------------------------------- sequence numbers

  /** The number of the message after `txcnt`. */
  function NextCount(txcnt: nat): nat {
    (txcnt + 1) % U16
  }

  function CountAfter(txcnt: nat, messages: nat): nat {
    (txcnt + messages) % U16
  }

  /** The counter counts up and starts again after 65535. */
  lemma CountsUp(txcnt: nat)
    requires txcnt < 65536
    ensures NextCount(txcnt) == if txcnt == 65535 then 0 else txcnt + 1
  {
  }

  lemma OneMore(txcnt: nat, messages: nat)
    requires txcnt < U16
    ensures CountAfter(txcnt, messages + 1) == NextCount(CountAfter(txcnt, messages))
    ensures CountAfter(txcnt, 0) == txcnt
  {
  }

  /** After `lost` messages in a row the receiver sees another number than the one it
      expects exactly when `lost` is not a multiple of 65536. */
  lemma LossIsNoticed(expected: nat, lost: nat)
    requires expected < U16
    ensures CountAfter(expected, lost) != expected <==> lost % U16 != 0
  {
    assert expected + lost == expected + lost % U16 + U16 * (lost / U16);
    assert (expected + lost) % U16 == (expected + lost % U16) % U16;
  }

  // ---------------------------------------------------------------- writing a message

  /** One word through the advancing position. */
  method PutWord(msgbuf: array<Byte>, at: nat, v: nat)
    requires at + 2 <= msgbuf.Length && v < U16
    modifies msgbuf
    ensures msgbuf[..at + 2] == old(msgbuf[..at]) + Word(v)
  {
    msgbuf[at] := v / 256;
    msgbuf[at + 1] := v % 256;
  }

  method PutBytes(msgbuf: array<Byte>, at: nat, data: seq<Byte>)
    requires at + |data| <= msgbuf.Length
    modifies msgbuf
    ensures msgbuf[..at + |data|] == old(msgbuf[..at]) + data
  {
    for k := 0 to |data|
      invariant msgbuf[..at + k] == old(msgbuf[..at]) + data[..k]
    {
      msgbuf[at + k] := data[k];
    }
  }

  /** The header of six bytes. */
  method PutHeader(msgbuf: array<Byte>, chunk: Byte, red: bool, txcnt: nat, channels: nat)
    requires 6 <= msgbuf.Length && txcnt < U16 && channels < U16
    modifies msgbuf
    ensures msgbuf[..6] == Header(chunk, red, txcnt, channels)
  {
    msgbuf[0] := chunk;
    msgbuf[1] := 0;
    if red {
      msgbuf[1] := msgbuf[1] + 1;
    }
    msgbuf[1] := msgbuf[1] + 2;
    assert msgbuf[..2] == [chunk, if red then 3 else 2];
    PutWord(msgbuf, 2, txcnt);
    PutWord(msgbuf, 4, channels);
  }

  /** The loop over the channels: `groups` words are out, the bits of the channels
      after those up to `x` are in `bits`. */
  ghost predicate Collecting(sigs: seq<nat>, groups: nat, x: nat, bits: nat, offset: nat) {
    && bits < U16 && 4 * groups <= x <= |sigs| && x <= 4 * groups + 3
    && bits == Nibbles(sigs[4 * groups..x])
    && (x == 4 * groups ==> offset == if x == 0 then 0 else 3)
    && (x > 4 * groups ==> offset == x - 4 * groups - 1)
  }

  lemma CollectNext(sigs: seq<nat>, groups: nat, x: nat, bits: nat, offset: nat)
    requires Collecting(sigs, groups, x, bits, offset) && x < |sigs|
    ensures x % 4 == x - 4 * groups
    ensures 2 * groups + 2 <= 2 * WordsFor(|sigs|)
    ensures bits + sigs[x] % 16 * Radix(x % 4) == Nibbles(sigs[4 * groups..x + 1])
    ensures Nibbles(sigs[x + 1..x + 1]) == 0
    ensures bits + sigs[x] % 16 * Radix(x % 4) < U16
  {
    assert sigs[4 * groups..x + 1] == sigs[4 * groups..x] + [sigs[x]];
    NibblesGrow(sigs[4 * groups..x], sigs[x]);
  }

  lemma LastGroup(sigs: seq<nat>, before: seq<Byte>, groups: nat, bits: nat, offset: nat)
    requires sigs != [] && Collecting(sigs, groups, |sigs|, bits, offset)
    ensures WordsFor(|sigs|) == groups + (if offset == 3 then 0 else 1)
    ensures before + SigWords(sigs)
         == (before + SigWords(sigs[..4 * groups])) + (if offset == 3 then [] else Word(bits))
  {
    assert sigs[..|sigs|] == sigs;
    if offset != 3 {
      GroupDone(sigs, before, groups, |sigs|);
    }
  }

  lemma GroupDone(sigs: seq<nat>, before: seq<Byte>, groups: nat, x: nat)
    requires 4 * groups < x <= |sigs| && x <= 4 * groups + 4
    ensures (before + SigWords(sigs[..4 * groups])) + Word(Nibbles(sigs[4 * groups..x])) == before + SigWords(sigs[..x])
  {
    var done := 4 * groups;
    SigWordsSnoc(sigs[..done], sigs[done..x]);
    assert sigs[..done] + sigs[done..x] == sigs[..x];
  }

  /** Whole groups of four in front of a last group. */
  lemma {:induction false} SigWordsSnoc(sigs: seq<nat>, last: seq<nat>)
    requires |sigs| % 4 == 0 && 1 <= |last| <= 4
    ensures SigWords(sigs + last) == SigWords(sigs) + Word(Nibbles(last))
    decreases |sigs|
  {
    var all := sigs + last;
    if sigs == [] {
      assert all == last && last[..|last|] == last && last[|last|..] == [];
    } else {
      assert all[..4] == sigs[..4] && all[4..] == sigs[4..] + last;
      SigWordsSnoc(sigs[4..], last);
    }
  }

  /** One pass of the signalling loop: a word goes out with every fourth channel. */
  method PutNibble(msgbuf: array<Byte>, at: nat, txsig: seq<nat>, x: nat, was: nat, last: nat,
                   ghost before: seq<Byte>, ghost groups: nat)
    returns (buf: nat, bits: nat, offset: nat, ghost done: nat)
    requires x < |txsig| && Collecting(txsig, groups, x, was, last)
    requires at == |before| + 2 * groups && |before| + 2 * WordsFor(|txsig|) <= msgbuf.Length
    requires msgbuf[..at] == before + SigWords(txsig[..4 * groups])
    modifies msgbuf
    ensures Collecting(txsig, done, x + 1, bits, offset)
    ensures buf == |before| + 2 * done <= msgbuf.Length
    ensures msgbuf[..buf] == before + SigWords(txsig[..4 * done])
  {
    CollectNext(txsig, groups, x, was, last);
    buf, done, offset := at, groups, x % 4;
    bits := was + txsig[x] % 16 * Radix(offset);
    if offset == 3 {
      GroupDone(txsig, before, groups, x + 1);
      PutWord(msgbuf, buf, bits);
      buf, bits, done := buf + 2, 0, groups + 1;
    }
  }

  /** The signalling words, written through the advancing position `buf`. */
  method PutSignalling(msgbuf: array<Byte>, start: nat, txsig: seq<nat>) returns (buf: nat)
    requires txsig != [] && start + 2 * WordsFor(|txsig|) <= msgbuf.Length
    modifies msgbuf
    ensures buf == start + 2 * WordsFor(|txsig|)
    ensures msgbuf[..buf] == old(msgbuf[..start]) + SigWords(txsig)
  {
    ghost var before, groups := msgbuf[..start], 0;
    buf := start;
    var bits: nat, offset: nat := 0, 0;
    assert before + SigWords(txsig[..0]) == before;
    for x := 0 to |txsig|
      invariant Collecting(txsig, groups, x, bits, offset) && buf == start + 2 * groups <= msgbuf.Length
      invariant msgbuf[..buf] == before + SigWords(txsig[..4 * groups])
    {
      buf, bits, offset, groups := PutNibble(msgbuf, buf, txsig, x, bits, offset, before, groups);
    }
    LastGroup(txsig, before, groups, bits, offset);
    if offset != 3 {
      PutWord(msgbuf, buf, bits);
      buf := buf + 2;
    }
  }

  /** The audio of all channels, one after the other. */
  method PutAudio(msgbuf: array<Byte>, start: nat, writechunks: seq<seq<Byte>>, chunk: nat) returns (buf: nat)
    requires start + Times(|writechunks|, chunk) <= msgbuf.Length
    requires forall x :: 0 <= x < |writechunks| ==> |writechunks[x]| == chunk
    modifies msgbuf
    ensures buf == start + Times(|writechunks|, chunk)
    ensures msgbuf[..buf] == old(msgbuf[..start]) + Flatten(writechunks)
  {
    ghost var before := msgbuf[..start];
    buf := start;
    for x := 0 to |writechunks|
      invariant buf == start + Times(x, chunk) <= msgbuf.Length
      invariant msgbuf[..buf] == before + Flatten(writechunks[..x])
    {
      ChunkInside(|writechunks|, chunk, x);
      AudioGrows(before, writechunks, x);
      PutBytes(msgbuf, buf, writechunks[x]);
      buf := buf + chunk;
    }
    assert writechunks[..|writechunks|] == writechunks;
  }

  lemma AudioGrows(before: seq<Byte>, audio: seq<seq<Byte>>, x: nat)
    requires x < |audio|
    ensures (before + Flatten(audio[..x])) + audio[x] == before + Flatten(audio[..x + 1])
  {
    FlattenConcat(audio[..x], [audio[x]]);
    FlattenOne(audio[x]);
    assert audio[..x + 1] == audio[..x] + [audio[x]];
    ConcatAssoc(before, Flatten(audio[..x]), audio[x]);
  }

  // ---------------------------------------------------------------- reading a message

  /** The first part of dahdi_dynamic_receive: header and length. */
  method CheckMessage(msg: seq<Byte>, chunk: nat, channels: nat) returns (ok: bool, err: Error)
    ensures ok == Decode(msg, chunk, channels).Accepted?
    ensures !ok ==> Decode(msg, chunk, channels) == Rejected(err)
  {
    if |msg| < 6 {
      return false, TooShort;
    }
    if msg[0] != chunk {
      return false, WrongSamples(msg[0]);
    }
    var nchans := Value(msg[4], msg[5]);
    if nchans != channels {
      return false, WrongChannels(nchans);
    }
    var xlen := 6;
    xlen := xlen + Times(nchans, chunk);
    if HasSigs(msg[1]) {
      xlen := xlen + 2 * WordsFor(nchans);
    }
    ok, err := xlen == |msg|, WrongLength(xlen);
  }

  /** Updates the signalling that differs from what was received. */
  method TakeSignalling(msg: seq<Byte>, rxsig: array<nat>)
    requires 6 + 2 * WordsFor(rxsig.Length) <= |msg|
    modifies rxsig
    ensures rxsig[..] == AllSigs(msg, rxsig.Length)
  {
    var at: nat := 6;
    var bits: nat := 0;
    ghost var sigs := AllSigs(msg, rxsig.Length);
    for x := 0 to rxsig.Length
      invariant Reading(msg, x, at, bits) && rxsig[..x] == sigs[..x]
    {
      NextSignalling(msg, rxsig.Length, x, at, bits);
      if x % 4 == 0 {
        bits := Value(msg[at], msg[at + 1]);
        at := at + 2;
      }
      var sig: nat := bits / Radix(x % 4) % 256;
      if sig != rxsig[x] {
        rxsig[x] := sig;
      }
    }
  }

  /** The loop over the channels: `bits` is the word of channel `x` unless it starts a
      new one at `at`. */
  ghost predicate Reading(msg: seq<Byte>, x: nat, at: nat, bits: nat) {
    && at == 6 + 2 * WordsFor(x)
    && (x % 4 != 0 ==> at <= |msg| && bits == Value(msg[at - 2], msg[at - 1]))
  }

  lemma NextSignalling(msg: seq<Byte>, n: nat, x: nat, at: nat, bits: nat)
    requires x < n && 6 + 2 * WordsFor(n) <= |msg| && Reading(msg, x, at, bits)
    ensures x % 4 == 0 ==> at + 2 <= |msg|
    ensures var word := if x % 4 == 0 then Value(msg[at], msg[at + 1]) else bits;
            var next := if x % 4 == 0 then at + 2 else at;
            && word / Radix(x % 4) % 256 == AllSigs(msg, n)[x]
            && Reading(msg, x + 1, next, word)
  {
    assert WordsFor(x + 1) == x / 4 + 1 <= WordsFor(n);
    assert at == 6 + 2 * (x / 4) + if x % 4 == 0 then 0 else 2;
  }

  method TakeAudio(msg: seq<Byte>, start: nat, chunk: nat, readchunk: array<seq<Byte>>)
    requires |msg| == start + Times(readchunk.Length, chunk)
    modifies readchunk
    ensures readchunk[..] == AllAudio(msg, start, readchunk.Length, chunk)
  {
    var at := start;
    for x := 0 to readchunk.Length
      invariant at == start + Times(x, chunk)
      invariant forall j :: 0 <= j < x ==> Inside(msg, start, readchunk.Length, chunk, j) == readchunk[j]
    {
      ChunkInside(readchunk.Length, chunk, x);
      readchunk[x] := msg[at..at + chunk];
      at := at + chunk;
    }
  }

  datatype Receiver = Receiver(rxcnt: nat, red: bool, yellow: bool, err: Error, notices: nat,
                               rxsig: seq<nat>, readchunk: seq<seq<Byte>>)

  /** What a decoded message does to a receiver. */
  ghost predicate Taken(d: Decoded, before: Receiver, after: Receiver) {
    match d
    case Rejected(error) => after == before.(err := error)
    case Accepted(yellow, rxpos, sigs, audio) =>
      && after.readchunk == audio && after.rxsig == (if sigs == [] then before.rxsig else sigs)
      && after.yellow == yellow && !after.red && after.rxcnt == NextCount(rxpos) && after.err == before.err
      && after.notices == before.notices + if rxpos != before.rxcnt then 1 else 0
  }

  // ---------------------------------------------------------------- the span

  class DynamicSpan {
    const channels: nat
    const chunk: nat
    const txsig: array<nat>
    const rxsig: array<nat>
    const writechunk: array<seq<Byte>>
    const readchunk: array<seq<Byte>>
    const msgbuf: array<Byte>
    var txcnt: nat
    var rxcnt: nat
    var red: bool
    var yellow: bool
    var err: Error
    var notices: nat

    ghost predicate Valid()
      reads this, writechunk
    {
      && 1 <= channels && channels < U16 && chunk < 256
      && txsig.Length == channels && rxsig.Length == channels
      && writechunk.Length == channels && readchunk.Length == channels
      && txsig != rxsig && writechunk != readchunk
      && (forall x :: 0 <= x < channels ==> |writechunk[x]| == chunk)
      && msgbuf.Length == BufferSize(channels, chunk)
      && txcnt < U16 && rxcnt < U16
    }

    /** What receiving a message may change. */
    ghost function View(): Receiver
      reads this, rxsig, readchunk
    {
      Receiver(rxcnt, red, yellow, err, notices, rxsig[..], readchunk[..])
    }

    /** dahdi_dynamic_sendmessage: builds the message and steps the counter. */
    method SendMessage() returns (msg: seq<Byte>)
      requires Valid() && (channels <= 164 || channels == 168)
      modifies this`txcnt, msgbuf
      ensures Valid() && txcnt == NextCount(old(txcnt))
      ensures msg == Encode(chunk, red, old(txcnt), txsig[..], writechunk[..]) && |msg| <= msgbuf.Length
    {
      MessageFits(channels, chunk);
      var sigs, audio := txsig[..], writechunk[..];
      PutHeader(msgbuf, chunk, red, txcnt, channels);
      txcnt := NextCount(txcnt);
      var buf := PutSignalling(msgbuf, 6, sigs);
      buf := PutAudio(msgbuf, buf, audio, chunk);
      msg := msgbuf[..buf];
    }

    /** dahdi_dynamic_receive: an accepted message gives signalling, audio, alarm and
        sequence number; any other changes nothing but the error. */
    method Receive(msg: seq<Byte>)
      requires Valid()
      modifies this`rxcnt, this`red, this`yellow, this`err, this`notices, rxsig, readchunk
      ensures Valid()
      ensures Taken(Decode(msg, chunk, channels), old(View()), View())
    {
      var ok, e := CheckMessage(msg, chunk, channels);
      if ok {
        Accept(msg);
      } else {
        err := e;
      }
    }

    /** Takes what an accepted message says. */
    method Accept(msg: seq<Byte>)
      requires Valid() && Decode(msg, chunk, channels).Accepted?
      modifies this`rxcnt, this`red, this`yellow, this`notices, rxsig, readchunk
      ensures Valid()
      ensures Taken(Decode(msg, chunk, channels), old(View()), View())
    {
      var sigbits := HasSigs(msg[1]);
      if sigbits {
        TakeSignalling(msg, rxsig);
      }
      TakeAudio(msg, AudioStart(channels, sigbits), chunk, readchunk);
      var rxpos, expected := Value(msg[2], msg[3]), rxcnt;
      rxcnt := NextCount(rxpos);
      yellow, red := IsYellow(msg[1]), false;
      if rxpos != expected {
        notices := notices + 1;
      }
    }
  }

  /** A message from one span to another of the same size: all audio and the low four
      signalling bits arrive, and yellow is signalled exactly when the sender is red. */
  method Exchange(from: DynamicSpan, into: DynamicSpan)
    requires from.Valid() && into.Valid() && from != into
    requires from.channels == into.channels && from.chunk == into.chunk
    requires from.channels <= 164 || from.channels == 168
    requires from.msgbuf != into.msgbuf && from.txsig != into.rxsig && from.writechunk != into.readchunk
    requires into.writechunk != from.readchunk
    modifies from`txcnt, from.msgbuf
    modifies into`rxcnt, into`red, into`yellow, into`err, into`notices, into.rxsig, into.readchunk
    ensures into.readchunk[..] == from.writechunk[..] && SignallingSeen(from.txsig[..], into.rxsig[..])
    ensures into.yellow == from.red && from.txcnt == NextCount(old(from.txcnt)) == into.rxcnt
    ensures into.notices == old(into.notices) <==> old(into.rxcnt) == old(from.txcnt)
  {
    DecodeUndoesEncode(from.chunk, from.red, from.txcnt, from.txsig[..], from.writechunk[..]);
    var msg := from.SendMessage();
    into.Receive(msg);
  }

  /** Messages that never arrive, then one that does, from a pair in step: the receiver
      notes a gap exactly when the number lost is not a multiple of 65536. */
  method ExchangeAfterLoss(from: DynamicSpan, into: DynamicSpan, lost: nat)
    requires from.Valid() && into.Valid() && from != into
    requires from.channels == into.channels && from.chunk == into.chunk
    requires from.channels <= 164 || from.channels == 168
    requires from.msgbuf != into.msgbuf && from.txsig != into.rxsig && from.writechunk != into.readchunk
    requires into.writechunk != from.readchunk && into.rxcnt == from.txcnt
    modifies from`txcnt, from.msgbuf
    modifies into`rxcnt, into`red, into`yellow, into`err, into`notices, into.rxsig, into.readchunk
    ensures into.readchunk[..] == from.writechunk[..] && SignallingSeen(from.txsig[..], into.rxsig[..])
    ensures into.rxcnt == from.txcnt
    ensures into.notices == old(into.notices) <==> lost % U16 == 0
  {
    ghost var start := from.txcnt;
    for k := 0 to lost
      invariant from.Valid() && from.txcnt == CountAfter(start, k)
      modifies from`txcnt, from.msgbuf
    {
      OneMore(start, k);
      var msg := from.SendMessage();
    }
    LossIsNoticed(start, lost);
    Exchange(from, into);
  }
}
