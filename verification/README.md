# DAHDI core: a verified model

This project models the per-tick core of the DAHDI telephony drivers and proves what
its small stateful machines keep: the block buffers between user processes and the
tick handler, the conference bridge, the registry of spans, pulse dialing, channels
that share one stream, frame check sequences, the TDMoX message, three echo cancellers,
the battery debouncer of an FXO port and the transcoder pool. Chunk sizes, buffer
counts, tap counts, list lengths and numbers of channels are parameters everywhere.

State that the source updates in place is a class here, with the source's fields, and
each method is proved against a function or predicate on plain values. The theorems
about whole runs are lemmas on those values. `dafny verify dfyconfig.toml` checks all of it.

| file | what it models |
|---|---|
| SlotRing, WriteRing, ReadRing | block buffers with -1 sentinels; begin, unlocked copy, commit and tick are separate steps |
| Saturation, ConferenceMixer, ConferenceAliases, ConferenceBridge, ConferenceLocks | saturating sums, three accumulator banks, alias table, all of them over runs of requests and ticks, and the alias table under requests that overlap |
| SpanRegistry | sorted span list, its two allocators, lookup |
| PulseDialer | dial buffer, pulse states, signalling timer, the tone that plays |
| Arithmetic, SlaveMux, SlaveConfig | chain of slaves, byte interleaving, configuration of masters |
| Fcs | check sequence of section C.2 of RFC 1662 |
| Tdmox | message of a dynamic span, sequence counter |
| FixedPoint, HistoryRing, EchoPower, CoefficientPruning, Sec2Canceller | echo cancellers KB1, MG2 and SEC2, rotating FIR filter |
| BatteryDebounce | lost and present battery, hook reports, alarms |
| TranscoderPool | free channel search and load spreading |
| Words | shared sequence helpers |

## What the proofs show beyond the happy path

- A TDMoX message fits its buffer exactly for at most 164 channels and for 168, although
  up to 255 can be created (`Tdmox.MessageFits`).
- The receiver of TDMoX masks signalling with eight bits, not four. The four bits sent come
  back alone exactly for the last channel of a group or of the span, or before a channel
  that sends zeros (`Tdmox.WhatIsSeen`).
- A conference whose alias was used, given up and taken again may begin with the sum of
  three ticks ago: only accumulators below maxconfs are cleared. It is exact if and only if
  the rotation before cleared its alias or nothing was there three ticks ago
  (`ConferenceBridge.ExactUnlessReused`, `ConferenceBridge.ReusedAliasIsStale`); from the
  second tick of a conference on it always is (`ConferenceBridge.UsedConferenceIsExact`).
- A silent conference listener hears exactly the others, unless its own share is -32768
  and the conference is negative (`ConferenceMixer.ListenerHearsOthers`).
- `DAHDI_SETCONF` that ends early after switching on a pre-echo tap skips the check of the
  old conference. Then an alias outlives its last member exactly when the channel was that
  member (`ConferenceAliases.UncheckedMoveLeavesAlias`, `ConferenceAliases.OutlivedAlias`).
- It looks up the alias of a monitored channel, and so reads beyond the table exactly for
  channels numbered above DAHDI_MAX_CONF (`ConferenceAliases.MonitoredChannelIsOutOfRange`).
- The check of a conference looks for members under the channel lock and clears the alias
  without it. A channel that enters in between is left with a dead alias, and nothing else
  does that (`ConferenceLocks.RunIsExact`, `ConferenceLocks.LateClearTakesAlias`).
- The range check of an explicit span assignment adds in 32 bits. It is right if and only if
  the sum does not wrap, or a span below refuses the request anyway, or no span above is
  overlooked by the wrapped sum (`SpanRegistry.CheckIsExact`). Automatic numbering adds so,
  too: it finds the first fit exactly if that does not wrap (`SpanRegistry.AutomaticIsExact`,
  `SpanRegistry.FirstFitMayWrap`, `SpanRegistry.WrappedGapIsGivenOut`). Span numbers are
  compared as unsigned ones there but as signed ones in the list
  (`SpanRegistry.NegativeNumberGoesFirst`). Either kind of assignment ends the order of the
  list exactly when the span number given out is not positive or the channel numbers wrap
  (`SpanRegistry.AssignedIsSorted`),
  unassigning that span restores it (`SpanRegistry.Registry.AssignAndUnassign`), and no
  channel number finds a span that wraps (`SpanRegistry.WrappedSpanIsNeverFound`). The check
  does not reject a span number in use; that is left to the device name check, which is
  modelled.
- Dialing does not stop a tone that plays. When that ends while pulses are under way, the
  next characters are dialed at once; so pulse dialing over a tone is undisturbed if and only
  if the tone outlasts it (`PulseDialer.DialOverTone`, `PulseDialer.EndInBreakSwallows`).
- A channel that others name as master may be made a slave itself. When it is its own master
  again, nothing links its slaves (`SlaveConfig.SlavesAreOrphaned`); without such requests
  all chains are right (`SlaveConfig.RunIsRight`).
- The short-time average of MG2 and KB1 loses its value in 16 bits exactly after 32 samples
  of -32768 (`EchoPower.AverageFits`), and exactly then the cached peak goes wrong
  (`EchoPower.Tracker.SampleUpdate`).
- Comments at the battery alarm timer say that part of its period has passed already. It has
  not after one contrary poll that interrupts an interruption of a pending alarm, and only
  then (`BatteryDebounce.AlarmTimeIsExact`, `BatteryDebounce.ShortAlarmsAreInterruptions`).
- From the unknown state the battery debouncer makes its first hook report twice
  (`BatteryDebounce.UnknownRepeatsOnce`); the channel core ignores the repeat
  (`BatteryDebounce.CoreIgnoresTheRepeat`).

## Preconditions taken from the code

A span has at least one channel. An alias is free when a request comes to take one, since
the allocator's -1 is used unchecked; runs of the bridge pass over a request for which it
is not. Requests that are refused need none (`ConferenceAliases.TakesAlias`). A monitoring
mode names a channel no larger than DAHDI_MAX_CONF, because the check of the old conference
indexes the alias table with it. Pulse times are positive. The debounce time does not exceed
the alarm time. More taps than kept coefficients, when coefficients are pruned.

## Model

| member | source | states |
|---|---|---|
| WriteRing.RunIsAStream | drivers/dahdi/dahdi-base.c:8040-8099 | for every run of writes and transmit ticks: bytes sent, then bytes still buffered, are exactly the bytes buffered before and written, in order; nothing lost, repeated or invented |
| WriteRing.DrainTakesAll | drivers/dahdi/dahdi-base.c:8040-8052 | an enabled transmitter takes as many bytes as are buffered, up to what is asked |
| WriteRing.DrainConserves | drivers/dahdi/dahdi-base.c:8040-8099 | bytes taken in one tick followed by bytes left are the bytes there were |
| WriteRing.RunAppend | drivers/dahdi/dahdi-base.c:8040-8099 | a run extended by one event continues from the state reached; ties single steps of the code to runs |
| WriteRing.Ring.NumFilledBufs | drivers/dahdi/dahdi-base.c:2460-2481 | the index arithmetic with its two sentinels counts exactly the queued blocks |
| WriteRing.Ring.Begin | drivers/dahdi/dahdi-base.c:2483-2545 | nothing is grabbed for a zero count or a full ring; a writer is told to wait only while the transmitter runs (else it would wait for ever) |
| WriteRing.Ring.Copy | drivers/dahdi/dahdi-base.c:2552-2583 | filling the grabbed slot without the lock changes nothing the transmitter can see, and exactly one byte of the slot |
| WriteRing.Ring.Fault | drivers/dahdi/dahdi-base.c:2552-2583 | a copy that fails midway commits nothing and leaves the queue as it is |
| WriteRing.Ring.SetBlockLength | drivers/dahdi/dahdi-base.c:2552-2594 | setting its length leaves the queue as it is, too |
| WriteRing.Ring.End | drivers/dahdi/dahdi-base.c:2597-2623 | the commit appends exactly the block written and enables the transmitter when the ring is full or, under the half-full policy, half full |
| WriteRing.Ring.Advance | drivers/dahdi/dahdi-base.c:8067-8106 | an exhausted buffer leaves the queue; the grabbed slot of a writer is never taken over |
| WriteRing.Ring.Consume | drivers/dahdi/dahdi-base.c:8041-8063 | what goes out is the front of the oldest block and only that block shrinks |
| WriteRing.Ring.TakeFromCurrent | drivers/dahdi/dahdi-base.c:8041-8106 | one pass of the loop does one step of the queue |
| WriteRing.Ring.Tick | drivers/dahdi/dahdi-base.c:8015-8184 | each tick terminates with exactly one full chunk: the drained bytes, then silence |
| WriteRing.ExecIsARun | drivers/dahdi/dahdi-base.c:2483-2638 | whatever the interleaving of a writer's steps, failed copies and ticks: the writes and ticks it amounts to are a run of the queue |
| WriteRing.ExecIsAStream | drivers/dahdi/dahdi-base.c:8040-8099 | so for every interleaving the bytes sent and those still buffered are those buffered before and those written, in order |
| WriteRing.OneChunkPerTick | drivers/dahdi/dahdi-base.c:8015-8184 | for every interleaving there is one line chunk for each tick, the bytes that tick took followed by silence |
| WriteRing.BlockIsWhatWasCopied | drivers/dahdi/dahdi-base.c:2537-2594 | every block handed over holds exactly the first bytes copied since its write began, as many as the request asked for, at most a block |
| WriteRing.CompleteWrite | drivers/dahdi/dahdi-base.c:2483-2622 | a write of 1 to 65535 bytes that finds a free buffer and copies all it takes, at most a block and two bytes for each sample of a linear channel, queues exactly the values copied and ends |
| WriteRing.SilentBelowMark | drivers/dahdi/dahdi-base.c:2600-2622 | over every run: a transmitter that waits sends nothing and goes on waiting while the blocks queued and those written are fewer than all buffers, or half of them under the half-full policy |
| WriteRing.WriteStartsAtMark | drivers/dahdi/dahdi-base.c:2600-2622 | a write starts a waiting transmitter if and only if it fills the ring or, under the half-full policy, reaches half of it |
| WriteRing.EmptyStops | drivers/dahdi/dahdi-base.c:8070-8084 | a tick stops a running transmitter if and only if it empties the queue and the policy is not immediate |
| WriteRing.SilenceBelowMark | drivers/dahdi/dahdi-base.c:2600-2622 | over every interleaving of steps: below that mark every chunk on the line is silence |
| WriteRing.Ring.Perform | drivers/dahdi/dahdi-base.c:2483-2638 | each step of the ring does what the step of the program says, and nothing when the writer is not at that point |
| WriteRing.Ring.Interleave | drivers/dahdi/dahdi-base.c:2483-2638 | the ring run over any list of steps ends in exactly the state, and puts exactly the chunks on the line, that the program gives for those steps; so they carry the stream |
| WriteRing.Ring.constructor | drivers/dahdi/dahdi-base.c:1200-1280 | at least two and at most 32 buffers, an empty queue, transmitter disabled unless the policy is immediate |
| SlotRing.Filled | drivers/dahdi/dahdi-base.c:2460-2481 | as many occupied slots as the sentinels say: n exactly when the fill index is -1, none exactly when the drain index is |
| SlotRing.ContentsFill | drivers/dahdi/dahdi-base.c:2600-2612 | taking the next slot appends its entry, whatever wrapped |
| SlotRing.ContentsRelease | drivers/dahdi/dahdi-base.c:2444-2454 | freeing a slot removes the oldest entry, whatever wrapped |
| SlotRing.ContentsKept | drivers/dahdi/dahdi-base.c:2537-2594 | writes outside the occupied slots are invisible |
| ReadRing.ExecIsContiguous | drivers/dahdi/dahdi-base.c:9104-9176 | for every interleaving of a reader's steps, failed copies and receive ticks: each block is one uninterrupted piece of the received bytes, blocks are in order and disjoint, and every other byte is one that came while all blocks were full |
| ReadRing.EveryByteIsLogged | drivers/dahdi/dahdi-base.c:9087-9176 | the received bytes of that theorem are the bytes of all the ticks, in order |
| ReadRing.ReadsReturnBlocks | drivers/dahdi/dahdi-base.c:2434-2458 | the k-th completed read returns the beginning of the k-th delivered block, of the length it asked for |
| ReadRing.WholeBlocksAreReturned | drivers/dahdi/dahdi-base.c:2373-2458 | a reader that always asks for at least a block gets exactly the delivered blocks |
| ReadRing.CompleteRead | drivers/dahdi/dahdi-base.c:2373-2458 | a read of 1 to 65535 bytes that finds a block and copies all it takes returns that much of the oldest block and frees it |
| ReadRing.ByteKeepsContiguous | drivers/dahdi/dahdi-base.c:9156-9165 | the invariant of that theorem holds after each byte |
| ReadRing.BytesLogged | drivers/dahdi/dahdi-base.c:9104-9176 | the history added for the theorem does not change what the ring does |
| ReadRing.ReceiveInFull | drivers/dahdi/dahdi-base.c:9104-9108 | a full ring takes nothing |
| ReadRing.ReceiveIntoBlock | drivers/dahdi/dahdi-base.c:9156-9162 | a memcpy of the room left in a block equals storing byte by byte |
| ReadRing.Ring.Begin | drivers/dahdi/dahdi-base.c:2373-2433 | picks the oldest block; nothing is grabbed when there is none |
| ReadRing.Ring.Copy | drivers/dahdi/dahdi-base.c:2404-2433 | copying out without the lock changes nothing |
| ReadRing.Ring.End | drivers/dahdi/dahdi-base.c:2434-2458 | delivers a prefix of the oldest block, of the length asked, and removes the block; all of it when the count is large enough |
| ReadRing.Ring.Advance | drivers/dahdi/dahdi-base.c:9177-9285 | a complete block joins the queue; a reader's slot is not disturbed |
| ReadRing.Ring.Store | drivers/dahdi/dahdi-base.c:9154-9166 | storing part of a chunk extends the block being filled |
| ReadRing.Ring.StoreSome | drivers/dahdi/dahdi-base.c:9110-9166 | one pass of the loop equals receiving those bytes one by one |
| ReadRing.Ring.Tick | drivers/dahdi/dahdi-base.c:9087-9176 | one tick receives exactly its bytes and never writes the block being copied out |
| ReadRing.Ring.Fault | drivers/dahdi/dahdi-base.c:2404-2433 | a copy that fails midway leaves the block in the queue |
| ReadRing.Ring.Perform | drivers/dahdi/dahdi-base.c:2364-2458 | each step of the ring does what the step of the program says |
| ReadRing.Ring.Interleave | drivers/dahdi/dahdi-base.c:2364-2458 | the ring run over any list of steps ends in exactly the state and returns exactly the data that the program gives for those steps; so what it returns are pieces of the received stream, in order |
| Saturation.Acss | drivers/dahdi/arith.h:274-296 | every lane becomes the clamp of the exact sum |
| Saturation.Scss | drivers/dahdi/arith.h:298-319 | every lane becomes the clamp of the exact difference |
| Saturation.AmountReallyAdded | drivers/dahdi/dahdi-base.c:9037-9048 | the amount actually added lies between 0 and the sample, is computed without clipping, and adding it again clips nowhere |
| Saturation.SilentListener | drivers/dahdi/dahdi-base.c:7935-7940 | subtract-then-add of a silent listener is the clamp of the others if and only if the own share exceeds -32768 or the sum is not negative |
| Saturation.ListenerKeepsOwn | drivers/dahdi/dahdi-base.c:7935-7940 | what a listener is given is its own sample and the others' sum, exactly, where neither step clips |
| ConferenceMixer.SumIsConserved | drivers/dahdi/dahdi-base.c:9037-9048 | conservation: a conference sum is what it began with and the exact sum of the conflast entries of its channels, for any number of channels |
| ConferenceMixer.TickConserves | drivers/dahdi/dahdi-base.c:9905-9973 | after the receive half of a tick this holds of every accumulator and the real conflast of all channels |
| ConferenceMixer.TickStaysWithin | drivers/dahdi/dahdi-base.c:9037-9050 | and every conflast is part of the own sample, 0 for one who does not talk |
| ConferenceMixer.AdditionWithinSample | drivers/dahdi/dahdi-base.c:9037-9050 | each conflast lies between 0 and the own sample; a channel that is no talker adds 0 |
| ConferenceMixer.ListenerHearsOthers | drivers/dahdi/dahdi-base.c:7935-7940 | exactly when a silent listener gets the clamp of what the conference began with and the others added, for any number of channels |
| ConferenceMixer.DecodedListenerHearsOthers | drivers/dahdi/dahdi-base.c:7935-7940 | always, for samples above -32768, which decoded G.711 gives |
| ConferenceMixer.AllListen | drivers/dahdi/dahdi-base.c:7934-7943 | so do all listeners of a tick, in the chunks they are given |
| ConferenceMixer.WholeSampleIsAdded | drivers/dahdi/dahdi-base.c:9039-9048 | while the magnitudes of what is there and of what the talkers say add up to no more than 32767, a talker's share is its whole sample and any other's is 0 |
| ConferenceMixer.SharesAreTalk | drivers/dahdi/dahdi-base.c:9039-9048 | so the sum of the shares of a conference is the sum of what its talkers say |
| ConferenceMixer.LoudestTalkerHearsItself | drivers/dahdi/dahdi-base.c:7935-7940 | a concrete tick in which a lone talker at -32768 hears -1 of itself |
| ConferenceMixer.Talk | drivers/dahdi/dahdi-base.c:9037-9048 | the two additions and the subtraction in place: the sum becomes the clamped one, conflast the exact difference |
| ConferenceMixer.Mixer.RotateSums | drivers/dahdi/dahdi-base.c:617-626 | the three banks take turns and exactly the accumulators below maxconfs of the next one are cleared |
| ConferenceMixer.Mixer.TalkOne | drivers/dahdi/dahdi-base.c:9022-9050 | one channel's addition reaches its own conference and nobody else's, and its conflast records it |
| ConferenceMixer.Mixer.TalkAll | drivers/dahdi/dahdi-base.c:9910-9921 | one pass over the channels of one kind |
| ConferenceMixer.Mixer.ReceiveTick | drivers/dahdi/dahdi-base.c:9910-9931 | real channels into the next bank, rotation, pseudo channels into the bank now current; what the other two banks hold then |
| ConferenceMixer.Mixer.ListenAll | drivers/dahdi/dahdi-base.c:7934-7943 | every listener gets the current bank less the own conflast, everyone else the own audio |
| ConferenceMixer.Mixer.Tick | drivers/dahdi/dahdi-base.c:9905-9973 | a whole tick: every sum is what its bank held before and the exact sum of its channels' conflast, silent listeners get the clamp of that without their own, everyone else the own audio, and exactly the accumulators below maxconfs of the next bank are silent |
| ConferenceBridge.SumIsTotalAndStale | drivers/dahdi/dahdi-base.c:617-626 | one accumulator over any number of ticks: a sum is the tick's own total and, if the rotation before did not clear the alias, the sum of three ticks ago |
| ConferenceBridge.SumOfRun | drivers/dahdi/dahdi-base.c:9905-9973 | over every run of requests, departures and ticks this holds of each conference alias at each instant, the total being the exact sum of its members' conflast |
| ConferenceBridge.ExactUnlessReused | drivers/dahdi/dahdi-base.c:617-626 | so, from silence, a sum is exactly its members' total if and only if the tick before cleared the alias or nothing was there three ticks ago |
| ConferenceBridge.UsedConferenceIsExact | drivers/dahdi/dahdi-base.c:9905-9973 | over every run, a conference that had a member at the tick before has exactly its members' total |
| ConferenceBridge.UsedConferenceIsHeard | drivers/dahdi/dahdi-base.c:7934-7943 | and its silent listeners, those with flag 0x100 of the mode, are given the clamp of the exact sum of what the others added |
| ConferenceBridge.FlagsSayWho | drivers/dahdi/dahdi-base.c:7909-7940 | in every sound state a member of a plain conference talks exactly when its mode has flag 0x200 and listens exactly when it has flag 0x100 |
| ConferenceBridge.OthersKeepTheirOwn | drivers/dahdi/dahdi-base.c:7934-7942 | a channel without flag 0x100, or in no plain conference, is given its own audio unchanged |
| ConferenceBridge.TalkersAreHeard | drivers/dahdi/dahdi-base.c:7934-7943 | over every run: where the members with flag 0x200 cannot clip, a silent member with flag 0x100 is given exactly the sum of the samples of the others among them |
| ConferenceBridge.ListenerHearsTalker | drivers/dahdi/dahdi-base.c:7909-7943 | of two channels that join in modes 0x204 and 0x104, the second is given the samples of the first and the first its own audio |
| ConferenceBridge.TwoParties | drivers/dahdi/dahdi-base.c:7909-7943 | that run, made by a new bridge |
| ConferenceBridge.ConferencesAreKeptApart | drivers/dahdi/dahdi-base.c:1055-1071 | two members add into one accumulator exactly when they are in one conference, and every rotation clears it |
| ConferenceBridge.ReusedAliasIsStale | drivers/dahdi/dahdi-base.c:617-626 | the exception is real: after a run of seven steps a lone talker at 50 is in a conference that holds 150 |
| ConferenceBridge.Bridge.constructor | drivers/dahdi/dahdi-base.c:10444-10466 | an empty table and three silent banks |
| ConferenceBridge.Bridge.MakeRequest | drivers/dahdi/dahdi-base.c:5622-5750 | a request changes the tables and memberships and is answered as by DAHDI_SETCONF, and changes no accumulator; only one that comes to take an alias when none is left is not made |
| ConferenceBridge.Bridge.CloseChannel | drivers/dahdi/dahdi-base.c:1595-1634 | neither does a departure |
| ConferenceBridge.Bridge.RunTick | drivers/dahdi/dahdi-base.c:9905-9973 | a tick changes the accumulators and no membership |
| ConferenceBridge.Bridge.Perform | drivers/dahdi/dahdi-base.c:9905-9973 | one step of any of these kinds |
| ConferenceBridge.Bridge.Serve | drivers/dahdi/dahdi-base.c:9905-9973 | any list of steps, carried out by the tables and the banks, is a run in the sense of the theorems above, from the state before to the state after |
| ConferenceBridge.ReuseAlias | drivers/dahdi/dahdi-base.c:617-626 | that run, made by a new bridge |
| ConferenceBridge.StayingIsExact | drivers/dahdi/dahdi-base.c:617-626 | had it stayed, the conference would hold 50 |
| ConferenceBridge.Stay | drivers/dahdi/dahdi-base.c:617-626 | that run, made by a new bridge |
| ConferenceAliases.InverseAfterAllocation | drivers/dahdi/dahdi-base.c:1055-1071 | an allocation keeps confalias and confrev mutually inverse |
| ConferenceAliases.InverseAfterRelease | drivers/dahdi/dahdi-base.c:1122-1126 | so does a release |
| ConferenceAliases.AliasesAreDistinct | drivers/dahdi/dahdi-base.c:1018-1071 | two conferences never share an alias |
| ConferenceAliases.CheckKeepsServed | drivers/dahdi/dahdi-base.c:1101-1126 | freeing an empty conference takes no channel's alias, and none is left without members |
| ConferenceAliases.JoinKeepsServed | drivers/dahdi/dahdi-base.c:5658-5701 | after joining, every channel in a summing mode holds the live alias of its conference |
| ConferenceAliases.Table.MembersAreCleared | drivers/dahdi/dahdi-base.c:617-626 | every such alias is below maxconfs, so the rotation clears it; two channels share one exactly when they share a conference |
| ConferenceAliases.Table.FirstEmptyAlias | drivers/dahdi/dahdi-base.c:1018-1027 | the least free alias, or -1 exactly when none is free |
| ConferenceAliases.Table.FirstEmptyConference | drivers/dahdi/dahdi-base.c:1044-1053 | the highest conference without alias, or -1 exactly when there is none |
| ConferenceAliases.Table.RecalcMaxconfs | drivers/dahdi/dahdi-base.c:1029-1042 | maxconfs is one above the highest live alias, or 0 |
| ConferenceAliases.Table.GetConfAlias | drivers/dahdi/dahdi-base.c:1055-1071 | the conference's own alias if it has one, else the least that is not in use, no other entry changing |
| ConferenceAliases.Table.AnyoneIn | drivers/dahdi/dahdi-base.c:1074-1083 | found exactly when a channel in a summing mode is in the conference |
| ConferenceAliases.Table.CheckConf | drivers/dahdi/dahdi-base.c:1101-1140 | with nothing in between its look and its clear, the alias is freed exactly when nobody is in the conference |
| ConferenceAliases.Table.Release | drivers/dahdi/dahdi-base.c:1122-1129 | the clear clears the alias both ways, if there still is one |
| ConferenceAliases.Table.Join | drivers/dahdi/dahdi-base.c:5658-5701 | the channel's new membership and the alias it gets, also with a full table when the conference has one; no other channel changes |
| ConferenceAliases.Table.Move | drivers/dahdi/dahdi-base.c:5670-5747 | joining the new conference and leaving the old one keeps every member served; after the early return exactly when an alias is left without members |
| ConferenceAliases.Table.Choose | drivers/dahdi/dahdi-base.c:5658-5662 | the check of the conference asked for, and the highest conference without alias for a request for any |
| ConferenceAliases.Table.Enter | drivers/dahdi/dahdi-base.c:5658-5750 | what follows the refusals, in every mode: busy exactly when any conference is asked for and none is empty |
| ConferenceAliases.Table.SetConf | drivers/dahdi/dahdi-base.c:5622-5750 | the whole request: exactly when it is invalid, busy or ends early, the conference it chooses, the new membership with its alias, and the whole table after it; no alias is left without members, and after the early return one is exactly when the channel was the only member of its old conference |
| ConferenceAliases.UncheckedMoveLeavesAlias | drivers/dahdi/dahdi-base.c:5670-5747 | why: a move without the check of the old conference leaves an alias without members if and only if the channel was its last member and does not stay |
| ConferenceAliases.OutlivedAlias | drivers/dahdi/dahdi-base.c:5730-5744 | a run of two requests after which an alias is in use and its conference has no member |
| ConferenceAliases.MonitoredChannelIsOutOfRange | drivers/dahdi/dahdi-base.c:5638-5658 | a request passes the checks with a number beyond the alias table if and only if it monitors a channel numbered above DAHDI_MAX_CONF, as every pseudo channel is |
| ConferenceAliases.RefusedExactly | drivers/dahdi/dahdi-base.c:5640-5670 | a request is invalid if and only if just one of number and mode is zero, or the mode names a conference and the number is not -1 to DAHDI_MAX_CONF; it is busy if and only if it asks for any conference and all have aliases; then nothing changes |
| ConferenceAliases.WhoHoldsAnAlias | drivers/dahdi/dahdi-base.c:5677-5701 | a channel that was let in holds an alias if and only if its mode is one of 4 to 8, and no other channel changes |
| ConferenceAliases.Table.Close | drivers/dahdi/dahdi-base.c:1595-1634 | closing a channel frees the alias of its conference exactly with its last member |
| ConferenceLocks.RunIsExact | drivers/dahdi/dahdi-base.c:1101-1126 | over every interleaving of looks, clears, joins and departures of any number of processes, every member holds its live alias throughout if and only if no clear finds its conference entered again |
| ConferenceLocks.StepIsExact | drivers/dahdi/dahdi-base.c:1115-1126 | of all these steps only such a clear takes an alias from a member, and every such clear does |
| ConferenceLocks.EmptyStays | drivers/dahdi/dahdi-base.c:1115-1126 | a clear is safe if nobody entered the conference since it was found empty |
| ConferenceLocks.LateClearTakesAlias | drivers/dahdi/dahdi-base.c:1115-1126 | whenever the last member leaves, its check finds the conference empty and another channel enters before the clear, that channel is left with an alias the table does not know |
| ConferenceLocks.CheckAtOnce | drivers/dahdi/dahdi-base.c:1101-1126 | with nothing in between, look and clear are the check as one step |
| ConferenceLocks.Tables.LookAt | drivers/dahdi/dahdi-base.c:1109-1120 | the look, under the lock |
| ConferenceLocks.Tables.ClearOut | drivers/dahdi/dahdi-base.c:1122-1129 | the clear, without it |
| ConferenceLocks.Tables.EnterConf | drivers/dahdi/dahdi-base.c:5663-5701 | the locked region of a request |
| ConferenceLocks.Tables.Interleave | drivers/dahdi/dahdi-base.c:1101-1126 | any list of these steps, carried out by the tables, leads where the theorems say |
| SpanRegistry.Registry.ChanFromNum | drivers/dahdi/dahdi-base.c:429-468 | the lookup with its early exit, for every number and every list; on a sorted list it equals a search of every channel of every span |
| SpanRegistry.Registry.FindPlace | drivers/dahdi/dahdi-base.c:7041-7066 | on any list, the loop with its 32-bit sums finds what its specification does |
| SpanRegistry.Registry.AssignSpannoAndBasechan | drivers/dahdi/dahdi-base.c:7041-7073 | on a list in order automatic numbering finds the first fit if that does not wrap, and numbers that wrap if it does |
| SpanRegistry.AutomaticIsExact | drivers/dahdi/dahdi-base.c:7041-7073 | that, for every list in order and every number of channels |
| SpanRegistry.AutomaticIsSorted | drivers/dahdi/dahdi-base.c:7041-7106 | an automatic assignment leaves the list in order if and only if the first fit has a positive number and does not wrap |
| SpanRegistry.FirstFitExists | drivers/dahdi/dahdi-base.c:7041-7073 | there always is a first fit |
| SpanRegistry.FirstFitMayWrap | drivers/dahdi/dahdi-base.c:7041-7073 | a list in order with a first fit that wraps, and is given out |
| SpanRegistry.WrappedGapIsGivenOut | drivers/dahdi/dahdi-base.c:7059-7061 | a list in order where a place is given out that is too small and not the first fit |
| SpanRegistry.AssignedIsSorted | drivers/dahdi/dahdi-base.c:7253-7345 | an accepted request of either kind leaves a list in order so if and only if its span number is positive as a signed one and its channel numbers do not wrap |
| SpanRegistry.NegativeNumberGoesFirst | drivers/dahdi/dahdi-base.c:7094-7098 | a span number of 2^31, accepted as the highest, is put in front of the list |
| SpanRegistry.FirstFitIsUnique | drivers/dahdi/dahdi-base.c:7041-7073 | the first fit is unique: least free span number where the span fits at any base from 1, then least base |
| SpanRegistry.Registry.CheckSpannoAndBasechan | drivers/dahdi/dahdi-base.c:7112-7157 | on any list the loop with its 32-bit sums computes what its specification does, on a list in order the test of the neighbours |
| SpanRegistry.CheckIsExact | drivers/dahdi/dahdi-base.c:7112-7157 | when that test tells whether a span fits: if and only if the sum does not wrap, or a neighbour below refuses the request anyway, or the wrapped sum lies above the base of the next span if there is one |
| SpanRegistry.InsertBreaksSorted | drivers/dahdi/dahdi-base.c:7086-7106 | a span that does not fit, or whose numbers wrap, ends the order of the list |
| SpanRegistry.LookupIsSearch | drivers/dahdi/dahdi-base.c:429-448 | on a sorted list the early exit of the lookup misses no span |
| SpanRegistry.WrappedSpanIsNeverFound | drivers/dahdi/dahdi-base.c:429-448 | a span whose channel numbers run past 2^32 is found by no number, on any list |
| SpanRegistry.WrappedSumIsAccepted | drivers/dahdi/dahdi-base.c:7141-7142 | and accepts something that does not fit when it wraps |
| SpanRegistry.InsertKeepsSorted | drivers/dahdi/dahdi-base.c:7086-7106 | the list stays strictly ordered with disjoint ascending channel ranges |
| SpanRegistry.RemoveKeepsSorted | drivers/dahdi/dahdi-base.c:7489-7491 | also after a removal |
| SpanRegistry.Span.SetSpannoAndBasechan | drivers/dahdi/dahdi-base.c:7019-7029 | all channels of a span are numbered consecutively, modulo 2^32 |
| SpanRegistry.Registry.Number | drivers/dahdi/dahdi-base.c:7282-7290 | on any list a span gets the numbers asked for exactly when the test accepts them, or those that are found |
| SpanRegistry.Registry.AddSpanToSpanList | drivers/dahdi/dahdi-base.c:7086-7106 | the span is inserted before the first with a higher number, as signed ones, and nothing else moves; a list in order stays so exactly when the span fits, its number is positive as a signed one and its channel numbers do not wrap |
| SpanRegistry.Registry.NameTaken | drivers/dahdi/dahdi-sysfs.c:373-377 | the name check of device registration: taken exactly when a span has the number |
| SpanRegistry.Registry.Assign | drivers/dahdi/dahdi-base.c:7253-7345 | on any list every outcome of an assignment, exactly when it comes, with the list it leaves; a registry in order stays so if and only if the span number given out is positive as a signed one and the channel numbers do not wrap |
| SpanRegistry.Registry.Unassign | drivers/dahdi/dahdi-base.c:7479-7494 | removes exactly that span; refused exactly when it is not assigned |
| SpanRegistry.Registry.AssignAndUnassign | drivers/dahdi/dahdi-base.c:7253-7494 | undoes an assignment: the registry is as it was, in order again even if the numbers given out had ended that |
| PulseDialer.DialsTheString | drivers/dahdi/dahdi-base.c:3725-3775 | with no tone playing, dialing any string of any characters in any mode from off hook makes exactly the waveform of the string up to its first tone and ends off hook in the state the string gives |
| PulseDialer.DialOverTone | drivers/dahdi/dahdi-base.c:8128-8154 | with a tone still playing, dialing a pulse string goes at every tick as it would without if and only if the tone outlasts it |
| PulseDialer.ToneIsExact | drivers/dahdi/dahdi-base.c:8128-8154 | from any state of pulse dialing, a tone leaves the next n ticks as they would be without it exactly if it does not end within them while dialing goes on |
| PulseDialer.DialsUnderLongTone | drivers/dahdi/dahdi-base.c:8128-8154 | under a tone that outlasts it a pulse string makes exactly its waveform |
| PulseDialer.EndInBreakSwallows | drivers/dahdi/dahdi-base.c:8144-8148 | a tone that ends during a break swallows all digits still to be dialed and reports DIALCOMPLETE |
| PulseDialer.StringDials | drivers/dahdi/dahdi-base.c:3725-3775 | the channel is dialing at every tick of the waveform |
| PulseDialer.PulseStringsComplete | drivers/dahdi/dahdi-base.c:3725-3775 | a string without tones or pauses, dialed by pulses, ends with an empty buffer and one DIALCOMPLETE |
| PulseDialer.DialsDigit | drivers/dahdi/dahdi-base.c:3750-3765 | each digit makes its pulses, then the pause, and the rest of the string follows |
| PulseDialer.PulsesOfDigit | drivers/dahdi/dahdi-base.c:3756-3756 | the number of pulses is the value of the digit, ten for '0' |
| PulseDialer.StringCounts | drivers/dahdi/dahdi-base.c:3750-3765 | the waveform of every pulse string goes on hook as many times as the values of its digits add up to, '0' counting ten, is on hook for exactly that many break times, and lasts as many break and make times and a pause for each digit |
| PulseDialer.LettersSwitch | drivers/dahdi/dahdi-base.c:3730-3752 | T, M, O, R and P each switch to their own mode and dialing goes on at once with the rest |
| PulseDialer.DigitPulses | drivers/dahdi/dahdi-base.c:8342-8362 | a digit makes exactly its number of on-hook breaks, each followed by a make |
| PulseDialer.WaveformLength | drivers/dahdi/dahdi-base.c:8342-8366 | the waveform takes exactly the sum over the pulsed digits of d * (break + make) + after ticks |
| PulseDialer.Countdown | drivers/dahdi/dahdi-base.c:9800-9804 | a timer set to t ticks expires after exactly t ticks |
| PulseDialer.Channel.RbsSetHook | drivers/dahdi/dahdi-base.c:2764-2786 | the new hook state, signalling state and timer |
| PulseDialer.Channel.DoDtmfNext | drivers/dahdi/dahdi-base.c:3725-3775 | the loop over the dial buffer does what the string rewriting of the specification does |
| PulseDialer.Channel.RbsOtimerExpire | drivers/dahdi/dahdi-base.c:8342-8366 | the timer's state machine |
| PulseDialer.Channel.PlayTone | drivers/dahdi/dahdi-base.c:8128-8154 | the loop over a chunk of tone, going on with the dialing when a tone ends |
| PulseDialer.Channel.Transmit | drivers/dahdi/dahdi-base.c:9797-9804 | a tick: the tone, then the timer |
| PulseDialer.Channel.Dial | drivers/dahdi/dahdi-base.c:5594-5598 | a dial request with the replace operation |
| PulseDialer.Channel.DialAndWait | drivers/dahdi/dahdi-base.c:5594-5598 | dialing any string and waiting: the hook signal sampled at every tick is its waveform, for a pulse string with as many breaks as its digits add up to, and the line is in the computed state at the computed tick |
| SlaveMux.RecalcSlaves | drivers/dahdi/dahdi-base.c:4723-4751 | following nextslave from a master visits exactly the later channels naming it, in position order, and stops; the links of all other channels stay |
| SlaveConfig.RunIsRight | drivers/dahdi/dahdi-base.c:4838-4897 | over every run of configuration requests all masters are their own throughout if and only if every request makes a slave only of a channel without slaves and under a master that is its own; then every master's chain visits exactly its slaves |
| SlaveConfig.FreedIsExact | drivers/dahdi/dahdi-base.c:4838-4847 | a channel that becomes its own master again leaves all chains right if and only if no later channel names it |
| SlaveConfig.SlavesAreOrphaned | drivers/dahdi/dahdi-base.c:4838-4897 | whenever a master with slaves is made a slave and then its own master again, its slaves are in no chain |
| SlaveConfig.AddedIsRight | drivers/dahdi/dahdi-base.c:4893-4897 | a slave of a master that is its own leaves all chains right |
| SlaveConfig.ChanConfig | drivers/dahdi/dahdi-base.c:4838-4897 | a request on the channels changes masters and links as its specification does |
| SlaveConfig.Configure | drivers/dahdi/dahdi-base.c:4838-4897 | so does any run of requests |
| SlaveMux.ChosenAreThoseNamed | drivers/dahdi/dahdi-base.c:4737-4744 | the chain holds a channel exactly when it is later and names the master |
| SlaveMux.TransmitSample | drivers/dahdi/dahdi-base.c:9755-9763 | one sample of every slave, taken from the stream in turn |
| SlaveMux.TransmitToSlaves | drivers/dahdi/dahdi-base.c:9749-9764 | one tick over a chain of n channels uses exactly n chunks, byte t of the stream going to channel t mod n at sample t div n |
| SlaveMux.ReceiveFromSlaves | drivers/dahdi/dahdi-base.c:10122-10138 | one receive tick hands over exactly n chunks, nothing carried over, byte t coming from channel t mod n |
| SlaveMux.ReceiveUndoesTransmit | drivers/dahdi/dahdi-base.c:10122-10138 | collecting from slots that carry a stream gives back its chunks in order |
| SlaveMux.Loopback | drivers/dahdi/dahdi-base.c:9749-9764 | with the line looped back the master receives exactly what it sent |
| Arithmetic.AtIsUnique | drivers/dahdi/dahdi-base.c:9755-9763 | a position in the interleaving determines sample and channel |
| Arithmetic.RowAndPosition | drivers/dahdi/dahdi-base.c:10128-10136 | division and remainder recover them |
| Fcs.SentFrameIsGood | drivers/dahdi/dahdi-base.c:1180-1198 | section C.2 of RFC 1662: every frame with its appended FCS drives the receiver to PPP_GOODFCS |
| Fcs.BurstIsDetected | drivers/dahdi/dahdi-base.c:9129-9147 | a good frame altered in a burst of up to sixteen bits, beginning at any bit and so spanning up to three bytes, never is good |
| Fcs.AlteredBytesAreDetected | drivers/dahdi/dahdi-base.c:9129-9147 | nor is one altered within one byte or two adjacent bytes |
| Fcs.RunIsBitwise | drivers/dahdi/dahdi-base.c:1188-1189 | the table works on bytes as the generator does on their bits |
| Fcs.TableIsEightShifts | drivers/dahdi/dahdi-base.c:1188-1189 | one table step is eight shifts of the generator |
| Fcs.ShiftIsTheGenerator | drivers/dahdi/dahdi-base.c:1188-1189 | the shift is that of the polynomial 0x8408 |
| Fcs.KnownAnswer | drivers/dahdi/dahdi-base.c:1180-1198 | the nine digits 1 to 9 in ASCII are followed by 0x6e and 0x90, the well-known check value of this code, so generator, initial value, complement and byte order are the standard's |
| Fcs.TableIsInjective | drivers/dahdi/dahdi-base.c:1188-1189 | different table indexes have different entries |
| Fcs.RunKeepsStatesApart | drivers/dahdi/dahdi-base.c:1188-1189 | two different running values stay different over any data |
| Fcs.RunningFcs | drivers/dahdi/dahdi-base.c:1183-1189 | the loop computes the running value of the data |
| Fcs.CalcFcs | drivers/dahdi/dahdi-base.c:1180-1198 | the block as sent is good, its payload is untouched, blocks shorter than two bytes are left alone |
| Fcs.Receiver.Take | drivers/dahdi/dahdi-base.c:9143-9147 | the receiver's running value over any part of a frame |
| Fcs.Receiver.Complete | drivers/dahdi/dahdi-base.c:9126-9135 | a frame is accepted exactly when the running value is good, an empty one is ignored, and the value starts afresh |
| Fcs.Receiver.Receive | drivers/dahdi/dahdi-base.c:9126-9177 | of any number of frames in a row each is judged by its own bytes only |
| Tdmox.DecodeUndoesEncode | drivers/dahdi/dahdi_dynamic.c:143-199 | for every channel count and payload: the message passes all checks and gives back every audio chunk, yellow exactly when the sender is red, and of the signalling exactly what eight bits from the channel's place on hold |
| Tdmox.HeaderOnTheWire | drivers/dahdi/dahdi_dynamic.c:149-169 | byte for byte: samples for each channel, flags 3 or 2 by the red alarm, counter and number of channels with the high byte first |
| Tdmox.SignallingOnTheWire | drivers/dahdi/dahdi_dynamic.c:170-189 | then two bytes for each four channels, the first channel's four bits lowest in the second byte |
| Tdmox.AudioOnTheWire | drivers/dahdi/dahdi_dynamic.c:191-197 | then the samples channel by channel, and nothing after them |
| Tdmox.AcceptedExactly | drivers/dahdi/dahdi_dynamic.c:268-325 | a message is accepted if and only if chunk size, channel count and length agree, the length by whether flag 2 is set |
| Tdmox.FlagsAndCounter | drivers/dahdi/dahdi_dynamic.c:287-368 | yellow is read from flag 1, the counter high byte first, and no signalling without flag 2 |
| Tdmox.WhatIsSeen | drivers/dahdi/dahdi_dynamic.c:331-348 | that is always the channel's four bits in the low nibble, and those bits alone if and only if the channel is the last of its group of four or of the span, or the next channel sends zeros |
| Tdmox.MessageFits | drivers/dahdi/dahdi_dynamic.c:613-613 | the message fits msgbuf if and only if there are at most 164 channels or 168 (up to 255 can be created) |
| Tdmox.LossIsNoticed | drivers/dahdi/dahdi_dynamic.c:373-379 | after lost messages the sequence number differs exactly when their number is not a multiple of 65536 |
| Tdmox.CountsUp | drivers/dahdi/dahdi_dynamic.c:161-162 | the counter goes up by one and from 65535 to 0 |
| Tdmox.SigWordAt | drivers/dahdi/dahdi_dynamic.c:169-181 | the word of a channel's group holds the channel's four bits at its place and the next channel's above |
| Tdmox.SigWordsLength | drivers/dahdi/dahdi_dynamic.c:316-316 | as many signalling words as the receiver's length check expects |
| Tdmox.FlattenAt | drivers/dahdi/dahdi_dynamic.c:190-194 | the audio of channel x starts x chunks in |
| Tdmox.PutHeader | drivers/dahdi/dahdi_dynamic.c:151-167 | the six header bytes |
| Tdmox.PutSignalling | drivers/dahdi/dahdi_dynamic.c:168-188 | the loop with its pending bits writes exactly the signalling words |
| Tdmox.PutAudio | drivers/dahdi/dahdi_dynamic.c:190-194 | then the audio of all channels |
| Tdmox.CheckMessage | drivers/dahdi/dahdi_dynamic.c:266-326 | the receiver's four rejections, each exactly when the decoder rejects |
| Tdmox.TakeSignalling | drivers/dahdi/dahdi_dynamic.c:331-348 | the running word and position give every channel its value |
| Tdmox.TakeAudio | drivers/dahdi/dahdi_dynamic.c:351-354 | every channel gets its chunk |
| Tdmox.DynamicSpan.SendMessage | drivers/dahdi/dahdi_dynamic.c:143-199 | builds the encoded message inside the buffer and steps the counter |
| Tdmox.DynamicSpan.Receive | drivers/dahdi/dahdi_dynamic.c:255-379 | an accepted message sets signalling, audio, alarms and counter; a rejected one nothing but the error |
| Tdmox.Exchange | drivers/dahdi/dahdi_dynamic.c:143-199 | sender to receiver: all audio arrives, the signalling as seen above, yellow tells red, a notice exactly when the counters disagree |
| Tdmox.ExchangeAfterLoss | drivers/dahdi/dahdi_dynamic.c:358-379 | after any number of lost messages a notice appears exactly when that number is not a multiple of 65536 |
| HistoryRing.Ring.Add | drivers/dahdi/dahdi_echocan_kb1.c:246-257 | the window becomes the new sample followed by the old window without its oldest sample; both copies agree |
| HistoryRing.Ring.Get | drivers/dahdi/dahdi_echocan_kb1.c:259-263 | any in-range read gives the sample of that age |
| HistoryRing.Ring.Convolve | drivers/dahdi/arith.h:332-339 | the loop computes the dot product with the samples newest first, modulo 32 bits |
| HistoryRing.Ring.Max16 | drivers/dahdi/arith.h:362-375 | maximum of the window and the remaining life of its first place |
| EchoPower.SumSlides | drivers/dahdi/dahdi_echocan_kb1.c:366-370 | deleting the oldest and adding the newest magnitude keeps a running sum exact |
| EchoPower.AverageFits | drivers/dahdi/dahdi_echocan_mg2.c:508-508 | the 16-bit copy of the average is exact if and only if not all 32 samples are -32768 |
| EchoPower.OutputRemovesEcho | drivers/dahdi/dahdi_echocan_mg2.c:476-479 | the output is the near-end sample less the estimate, where neither leaves its width; a right estimate leaves 0 |
| EchoPower.PeakRises | drivers/dahdi/dahdi_echocan_mg2.c:567-570 | a new maximum starts with full life |
| EchoPower.PeakAges | drivers/dahdi/dahdi_echocan_mg2.c:571-571 | otherwise the cached maximum stays right and its life shrinks by one |
| EchoPower.Tracker.FarEnd | drivers/dahdi/dahdi_echocan_mg2.c:425-431 | the far-end average equals the sum over its last 32 samples |
| EchoPower.Tracker.NearEnd | drivers/dahdi/dahdi_echocan_mg2.c:499-504 | the near-end sum equals the sum over its last 32 samples |
| EchoPower.Tracker.Powers | drivers/dahdi/dahdi_echocan_mg2.c:545-563 | both powers equal 128 plus the sum of the newest 127 magnitudes, so the cutoff clamp never acts |
| EchoPower.Tracker.UpdatePeak | drivers/dahdi/dahdi_echocan_mg2.c:566-574 | a right cached maximum and its remaining life stay right exactly when the average fits 16 bits |
| EchoPower.Tracker.SampleUpdate | drivers/dahdi/dahdi_echocan_kb1.c:366-474 | one sample keeps every running sum equal to what it stands for, for every tap count and every stream; a right cached peak stays right if and only if not all 32 newest far-end samples are -32768 |
| CoefficientPruning.InsertKeepsTop | drivers/dahdi/dahdi_echocan_mg2.c:627-639 | putting a magnitude in its place keeps the list the largest ones seen |
| CoefficientPruning.SkipKeepsTop | drivers/dahdi/dahdi_echocan_mg2.c:627-627 | so does ignoring one not above the smallest kept |
| CoefficientPruning.SmallestKept | drivers/dahdi/dahdi_echocan_mg2.c:646-650 | the smallest one kept exceeds v exactly when enough coefficients do |
| CoefficientPruning.AboveInDescending | drivers/dahdi/dahdi_echocan_mg2.c:627-639 | in a sorted list a position exceeds v exactly when more values than its index do |
| CoefficientPruning.Insert | drivers/dahdi/dahdi_echocan_mg2.c:627-639 | the in-place insertion stays in bounds and keeps the list sorted and the top of what was seen |
| CoefficientPruning.ShiftRight | drivers/dahdi/dahdi_echocan_mg2.c:634-635 | the memmove |
| CoefficientPruning.Prune | drivers/dahdi/dahdi_echocan_mg2.c:645-651 | zeroes exactly the coefficients that as many others exceed as are kept |
| CoefficientPruning.SurvivorsAreLargest | drivers/dahdi/dahdi_echocan_mg2.c:627-651 | a coefficient survives if and only if it is not the lowest value and fewer others than are kept are larger in magnitude |
| CoefficientPruning.QuotientTruncates | drivers/dahdi/dahdi_echocan_mg2.c:625-625 | the product of quotient and divisor lies between 0 and the dividend, less than one divisor from it |
| CoefficientPruning.TapFollowsItsSample | drivers/dahdi/dahdi_echocan_mg2.c:619-625 | a single output moves tap k by its product with the far-end sample k samples older, in the direction of that product |
| CoefficientPruning.Step | drivers/dahdi/dahdi_echocan_mg2.c:619-626 | the gradient step of one coefficient: the products of the newest outputs and far-end samples, divided and added in 32 bits, and the 16-bit copy |
| CoefficientPruning.UpdateOne | drivers/dahdi/dahdi_echocan_mg2.c:619-640 | that step, and the new magnitude at its place among the largest |
| CoefficientPruning.UpdateCoefficients | drivers/dahdi/dahdi_echocan_mg2.c:613-651 | every coefficient takes its gradient step; then one survives exactly when fewer than the number kept have strictly larger magnitude |
| Sec2Canceller.PairedByAge | drivers/dahdi/fir.h:75-78 | tap i meets the sample of age (i + 1) mod taps |
| Sec2Canceller.TapSample | drivers/dahdi/fir.h:72-78 | both loops' indexes find that sample at every position |
| Sec2Canceller.EchoIsExact | drivers/dahdi/fir.h:66-83 | where the dot product fits 31 bits the estimate is its part above 15 bits, rounded down |
| Sec2Canceller.Fir16.constructor | drivers/dahdi/fir.h:46-56 | an empty history, position at the last tap |
| Sec2Canceller.Fir16.Convolve | drivers/dahdi/fir.h:72-78 | the two loops compute the dot product with the paired samples, modulo 32 bits |
| Sec2Canceller.Fir16.Filter | drivers/dahdi/fir.h:65-84 | the sample enters the history, the oldest leaves, and the result is the echo estimate for every position |
| Sec2Canceller.Canceller.Train | drivers/dahdi/dahdi_echocan_sec2.c:224-249 | every tap is corrected with exactly the sample the filter paired it with |
| Sec2Canceller.Canceller.Adapt | drivers/dahdi/dahdi_echocan_sec2.c:204-262 | trains exactly when the power and dwell conditions hold, else changes no tap |
| Sec2Canceller.Canceller.SampleUpdate | drivers/dahdi/dahdi_echocan_sec2.c:178-292 | one sample: output, powers, training and dwell, and the canceller's position still is the filter's |
| Sec2Canceller.SpeechStopsTraining | drivers/dahdi/dahdi_echocan_sec2.c:204-257 | over every run: after far-end speech the canceller trains again at the earliest 600 samples later, unless it was too quiet in between |
| Sec2Canceller.TrainingResumes | drivers/dahdi/dahdi_echocan_sec2.c:207-260 | and if it was loud and one-sided in between, exactly when 599 samples came since the speech |
| Sec2Canceller.QuietEndsTheWait | drivers/dahdi/dahdi_echocan_sec2.c:218-260 | never on a sample whose powers are at most 512 sent or 64 received, or with more than half the power received; such quiet ends the wait |
| Sec2Canceller.TapsFollowSamples | drivers/dahdi/dahdi_echocan_sec2.c:233-249 | where no 32-bit sum wraps, training leaves each tap at what remains of it when a 4096th part has leaked away, plus an eighth of the residue times the sample of age (i + 1) mod taps; the filter gets the part above 15 bits |
| Sec2Canceller.EstimateFollowsResidue | drivers/dahdi/dahdi_echocan_sec2.c:226-249 | so training moves the estimate for the samples it was made with by an eighth of the residue times their energy: up exactly for a positive eighth, down exactly for a negative one, from where the leak left it |
| Sec2Canceller.PowerApproaches | drivers/dahdi/dahdi_echocan_sec2.c:264-266 | a power level moves toward the magnitude of the sample and never past it, and rests exactly while that is 0 to 31 higher |
| FixedPoint.Int32Absorbs | drivers/dahdi/arith.h:332-339 | reducing to 32 bits at every step of a sum is the same as once at the end |
| FixedPoint.Int32Wraps | drivers/dahdi/arith.h:332-339 | a 32-bit variable holds the value of its range that differs by whole multiples of 2^32 |
| BatteryDebounce.ReportsNeedASteadyReading | drivers/dahdi/wcaxx-base.c:1424-1562 | over every run: an alarm is raised (cleared) only after every poll of more than battalarm - battdebounce frames read lost (present), a hook state reported only after more than battdebounce such frames, but for the first report of an unknown state |
| BatteryDebounce.AlarmBoundIsTight | drivers/dahdi/wcaxx-base.c:1441-1445 | that bound cannot be raised to battalarm: a concrete run for all settings |
| BatteryDebounce.AlarmTimeIsExact | drivers/dahdi/wcaxx-base.c:1441-1490 | the full battalarm period passes before every alarm of a steady reading if and only if that reading does not begin by interrupting the other reading's interruption of a pending alarm, or nothing is debounced |
| BatteryDebounce.ShortAlarmsAreInterruptions | drivers/dahdi/wcaxx-base.c:1424-1562 | so in every run an alarm comes after more than battalarm frames of its reading, unless the reading began as such an interruption |
| BatteryDebounce.SteadyReadingSettles | drivers/dahdi/wcaxx-base.c:1424-1562 | conversely battalarm + 3 polls in a row that read the same settle the line, from every state |
| BatteryDebounce.SteadyReportsWhatIsDue | drivers/dahdi/wcaxx-base.c:1424-1562 | over every steady reading, from every state: what has been reported, then what is still due, is exactly the list due at first: hook and alarm for a settled line that changes, the alarm alone for a pending one, hook, hook and alarm from the unknown state, nothing for one that reads as before |
| BatteryDebounce.SteadyReportsAll | drivers/dahdi/wcaxx-base.c:1424-1562 | and battalarm + 3 polls in a row report all of that list |
| BatteryDebounce.AlarmFollowsHook | drivers/dahdi/wcaxx-base.c:1453-1489 | every hook report from a known state is followed by its alarm at the first poll more than battalarm - battdebounce frames later, and by nothing before, if the reading is steady |
| BatteryDebounce.HookFollowsChange | drivers/dahdi/wcaxx-base.c:1441-1481 | a change of a settled line, or of one with the other alarm pending, is reported at the first poll more than battdebounce frames later, and nothing before |
| BatteryDebounce.AlarmFollowsInterruption | drivers/dahdi/wcaxx-base.c:1441-1489 | a pending alarm whose interruption is interrupted is raised at the first poll more than battalarm - battdebounce frames later |
| BatteryDebounce.ShortChangeIsIgnored | drivers/dahdi/wcaxx-base.c:1424-1562 | a reading that changes back within battdebounce frames is not reported and leaves the line settled, or with its alarm pending, as it was |
| BatteryDebounce.PollKeepsTimely | drivers/dahdi/wcaxx-base.c:1424-1562 | no timer ever runs further ahead than it may be set, which is what that needs |
| BatteryDebounce.AlternationIsExact | drivers/dahdi/wcaxx-base.c:1424-1562 | hook reports alternate in all runs if and only if the run does not start unknown |
| BatteryDebounce.UnknownRepeatsOnce | drivers/dahdi/wcaxx-base.c:1447-1452 | from unknown the first report is made at once, the second repeats it, and from there on they alternate |
| BatteryDebounce.HooksAlternate | drivers/dahdi/wcaxx-base.c:1424-1562 | the alternation with its first and last report |
| BatteryDebounce.NotedAlternate | drivers/dahdi/dahdi-base.c:8373-8383 | the core, which ignores a report of the state it has noted, notes an alternation whatever is reported |
| BatteryDebounce.CoreIgnoresTheRepeat | drivers/dahdi/dahdi-base.c:8373-8383 | from unknown it notes every report but the repeated one |
| BatteryDebounce.RunIsSound | drivers/dahdi/wcaxx-base.c:1424-1562 | what every timer says about the reading since the last change, in every run |
| BatteryDebounce.Fxo.CheckBatteryLost | drivers/dahdi/wcaxx-base.c:1424-1495 | the switch for a reading without battery |
| BatteryDebounce.Fxo.CheckBatteryPresent | drivers/dahdi/wcaxx-base.c:1497-1562 | the second switch is the exact mirror image of the first |
| BatteryDebounce.Fxo.CheckHook | drivers/dahdi/wcaxx-base.c:1733-1756 | one pass of the voltage check, with the request for a fresh report |
| BatteryDebounce.Fxo.Watch | drivers/dahdi/wcaxx-base.c:1733-1756 | a whole run of polls reports what the run-level theorems speak of |
| TranscoderPool.RequestsAreSpread | drivers/dahdi/dahdi_transcode.c:226-250 | as many requests in a row as transcoders can serve the format all succeed, each on another transcoder, in list order |
| TranscoderPool.InListOrder | drivers/dahdi/dahdi_transcode.c:226-250 | served transcoders stay behind the others, so the j-th request goes to the j-th one that offers a channel |
| TranscoderPool.GrantIsExclusive | drivers/dahdi/dahdi_transcode.c:189-217 | a granted channel was not in use and no other channel's use changes |
| TranscoderPool.GrantSuits | drivers/dahdi/dahdi_transcode.c:189-248 | a granted channel is on a transcoder that has a source and a destination format in common with the request, is unused, and was built for just these formats if at all; no device means no such transcoder, busy that none of them has such a channel, and both conversely |
| TranscoderPool.RequestIsExact | drivers/dahdi/dahdi_transcode.c:219-250 | a request has exactly one allowed outcome; refused as busy exactly when some transcoder matches but none has a channel, else for want of a device |
| TranscoderPool.Transcoder.GetFreeChannel | drivers/dahdi/dahdi_transcode.c:189-217 | the first usable channel is marked busy, or there is none and nothing changes |
| TranscoderPool.Pool.FindFreeChannel | drivers/dahdi/dahdi_transcode.c:226-250 | the search over the list has exactly that outcome, and the list stays a permutation |
| TranscoderPool.Pool.FindMany | drivers/dahdi/dahdi_transcode.c:226-250 | any number of requests on the list itself: each has its allowed outcome on the list the one before left, so they are spread |

## Left out

- Kernel plumbing: file operations, ioctl copying, sysfs and procfs, PCI, DMA and SPI access, firmware, module counts. Nothing provable without the kernel.
- Locks: in the block buffers each locked region is one step and the unlocked copies between begin and commit are separate ones. In ConferenceAliases and ConferenceBridge a whole request, a whole close and a whole tick are one step each; ConferenceLocks splits requests, but has no ticks.
- ConferenceLocks.Tables.ClearOut: takes the unlocked writes of one clear as one step.
- ConferenceAliases.Table.CheckConf: takes its locked look and its unlocked clear as one step; ConferenceLocks has them apart.
- Block buffers of several readers or writers at once, flushing, resizing, tones, loopback mode, HDLC, MTP2, PPP and network paths, mirror channels, the echo canceller's transmit hook, and the select path that clears txdisable.
- The bit stuffing of HDLC: its header, fasthdlc.h, is not part of this model; bytes pass unchanged.
- The table behind PPP_FCS lives in the kernel's headers and is not part of this model; the generator of section C.2 of RFC 1662 stands for it.
- G.711 tables and converters: assumed only to decode to samples above -32768, and silence to 0.
- Buffers of a ring, conference accumulators and conflast are arrays of whole blocks or chunks, so two of them never overlap; the copy of a block from user space is one byte at a time.
- WriteRing.Ring.constructor: leaves out block size 0, which leaves a channel without buffers.
- ReadRing.Ring.constructor: the same.
- Conference links, announce, monitor and real-and-pseudo modes, muted or dialing channels in the mixer and the bridge; the order of channels within a bank is that of one list.
- ConferenceBridge.Bridge.MakeRequest: takes only the plain conference mode and modes that add into no accumulator.
- ConferenceAliases.Table.SetConf: does not model digital cross connects and the pre-echo hardware; the argument preEcho says whether the early end was taken.
- SpanRegistry.Registry.Assign: does not model master selection, procfs entries or a device registration that fails for another reason than the name.
- SpanRegistry.Registry.ChanFromNum: spans without channels, which the source skips, are not on the list here.
- PulseDialer.DialsTheString: ends where a tone of the string begins to play; overflow of the timer in 32 bits is left out.
- PulseDialer.Channel.Transmit: nothing is in the write buffers of the channel, which come before a tone.
- SlaveConfig.ChanConfig: masters are on the same span; signalling types and flags are left out.
- Fcs.Receiver.Receive: does not model the framing that cuts the stream into frames, nor frames that are aborted or longer than a block, which are dropped.
- Tdmox.DynamicSpan.SendMessage: takes at most 164 channels or 168, the spans whose message fits the buffer (`Tdmox.MessageFits`); for others the source writes past its end.
- Tdmox.Exchange: the same, as it sends that message; `Tdmox.DecodeUndoesEncode` has no such bound.
- Tdmox.ExchangeAfterLoss: the same.
- Tdmox.PutSignalling: combines disjoint nibbles by addition where the source uses a bitwise or.
- Tdmox.DynamicSpan.Receive: does not model the choice of the master span, the time stamp, signalling freeze and what a changed signalling value triggers.
- EchoPower.Tracker.SampleUpdate: leaves out the dc removal in front, near-end speech detection, hangover, convergence factor and the suppressor; the filter coefficients are any.
- CoefficientPruning.UpdateCoefficients: leaves out the choice of 2 * beta from the powers, here a parameter, as is the number kept, 64 in the source.
- Sec2Canceller.Canceller.SampleUpdate: leaves out latest_correction, which nothing reads, and the suppressor that is compiled out.
- BatteryDebounce.Fxo.CheckHook: frames are counted without wrap-around, so time_after is a plain comparison; polarity, ringing and message waiting detection are left out.
- TranscoderPool.Pool.FindFreeChannel: registration, release and the building of a granted channel are left out; a transcoder's address is its id.
- Tone generation, ring cadences, SF tone detection, the remaining echo cancellers and the board drivers: wrappers, or claims about signal quality.
