# Verified models of the trading engine's hand-written machinery

The repository is a C++ live-trading engine. This project models the parts of it that are neither
foreign code nor plumbing: its lock-free queues, its file formats, the way it builds K-lines, the
caches and fast paths that have to agree with something simpler, and two small protocols. Each
model follows the code branch by branch; the properties are proved for every input, every run or
every interleaving, not for samples.

| file | what it models |
|---|---|
| `SpscQueue.dfy` | the single-producer queue and its shared-memory twin, as steps of two threads and as a class |
| `LogRing.dfy` | the logger's multi-producer ring: tickets by compare-exchange, slot states, a consumer that publishes its tail once a batch |
| `ShiftRegister.dfy`, `Crc32.dfy` | the CRC as a linear shift register over any word type; 32-bit vectors as the instance; the table code |
| `Wal.dfy` | the write-ahead log: records, the appender, the replaying reader |
| `BinaryIo.dfy` | varints, zig-zag, strings, fixed point, and records made of them |
| `TickFile.dfy` | recorded tick files |
| `KlineStore.dfy` | the delta-coded store of K-lines |
| `KlineBars.dfy` | K-lines built tick by tick, aggregated from finer ones, merged, imported |
| `TickCache.dfy` | the tick cache with its change cursor, and a reader that mirrors it |
| `Backtest.dfy` | the average-cost ledger and the drawdown of the backtest report |
| `CloseRouting.dfy` | splitting plain closes into close-today and close-yesterday, and what keeps them covered |
| `StrategyControl.dfy` | strategy states, the pause after repeated errors, the two shortcuts of the tick path |
| `QuerySnapshot.dfy` | position and order snapshots assembled from query responses |
| `Base64.dfy`, `IniConfig.dfy` | the two text codecs |
| `Words.dfy`, `Int64.dfy`, `Bytes.dfy`, `Texts.dfy`, `Sequences.dfy`, `OrderedMap.dfy`, `Options.dfy` | masked and wrapping arithmetic, 64-bit integers, byte strings, trimming, files made of parts, `std::map` |

Code that changes state is a class or a method with loops, proved against a specification function
(`Save`, `Load`, `Replay`, `Aggregate`, `Step`, ...); what is promised about that function is proved
as lemmas. The concurrent parts are state machines whose actions are single atomic loads, stores,
compare-exchanges or locked sections, under sequential consistency. Files are byte sequences.
Integer widths and wrap-around are written out; ring capacity and counter width are arbitrary powers
of two. Prices and turnover are reals.

`dafny verify dfyconfig.toml` checks everything.

## Where the code does not do what one would expect

Each of these is a lemma, most with the exact condition under which the expectation holds.

- An Info log message can be dropped while the ring is empty: a head loaded before another message
  went all the way through looks a whole counter range ahead of the tail
  (`LogRing.StaleHeadDropsIntoEmptyRing`; exactly when: `LogRing.TurnedAwayIff`).
- A producer stalled for a whole counter range of claims between loading the head and its
  compare-exchange can claim a slot in use (`LogRing.UntimelyCasOverruns`; exactly when:
  `LogRing.RunSafeIff`).
- An order report that arrives before the trades it tells of makes a fill count twice, or makes the order
  count as done, filled or cancelled, while the position still shows its lots; a close is then let in
  which the position does not cover (`CloseRouting.PartReportOverReserves`,
  `CloseRouting.FullReportOverReserves`, `CloseRouting.CancelReportOverReserves`). Exactly when live
  closes stay covered, in whatever order the exchange tells what its orders traded:
  `CloseRouting.CoveredIffClosesFit` with `CloseRouting.FaithfulIsGenuine`.
- A trade that is replayed counts once for its order but closes position again
  (`CloseRouting.ReplayUncovers`; for messages of any kind: `CloseRouting.CoveredThroughoutIff`).
- Two threads that update the tick cache at the same time can make a reader miss an instrument until it is
  updated again, because the sequence number is taken outside the lock (`TickCache.TwoWritersLoseATick`;
  exactly when: `TickCache.MirroredThroughoutIff`).
- A strategy without an id, or with blanks around it, is never paused for its errors
  (`StrategyControl.UnnamedNeverPaused`, `StrategyControl.PauseTakesEffectIff`); and a name that differs
  from another only by a blank lets the fast dispatch serve a strategy the check would pass over
  (`StrategyControl.PaddedNameIsServed`; exactly when: `StrategyControl.FastDispatchIff`).
- The count of strategies not running can exceed their number (`StrategyControl.CounterRunsAhead`).
- Bars of the first bucket after the epoch are labelled zero and vanish in the next aggregation
  (`KlineBars.ZeroStamp`); the two ways of building bars agree exactly where that does not matter
  (`KlineBars.BuildersAgree`).
- A log record whose size field is damaged below the minimum hides all records after it
  (`Wal.ShortSizeStopsReplay`, `Wal.ShortSizeIsolatedIff`).
- The size of the single-producer queue, asked for by a third thread, can come out as N - 1 for an empty
  queue (`SpscQueue.OvertakenSize`; exactly what it is: `SpscQueue.SizeUnderInterleaving`); asked for by its
  own threads it is exact (`SpscQueue.OwnSizeIsExact`).
- A configuration survives saving and loading exactly when every line of it reads back as written
  (`IniConfig.RoundTripIff`, line by line `IniConfig.SettingReadsBackIff`).

## Model

| member | source | states |
|---|---|---|
| SpscQueue.StepKeepsInv | src/common/spsc_queue.h:22-43 | one atomic step of either thread, stale copies of the other's index included, keeps ring and FIFO in correspondence |
| SpscQueue.RunKeepsInv | src/common/spsc_queue.h:22-55 | so does every run of interleaved steps |
| SpscQueue.Linearisable | src/common/spsc_queue.h:13-75 | every interleaving is a history of a FIFO of capacity N-1: items leave once and in order, none is overwritten before it is popped, push refuses exactly when full, pop misses exactly when empty; the drop count is exact, and so is the masked difference of the two indices as they are at any one moment |
| SpscQueue.SizeIsLength | src/common/spsc_queue.h:51-55 | the masked unsigned difference of two indices is the distance between the positions they stand for, for every power of two |
| SpscQueue.SizeIsBetween | src/common/spsc_queue.h:51-55 | the masked difference of a head and a tail read at different moments, pops having overtaken that head or not |
| SpscQueue.SizeUnderInterleaving | src/common/spsc_queue.h:51-55 | with its two loads as steps of their own among those of both threads, every size returned is the items pushed by the first load and not popped by the second, or, once pops have overtaken the head it loaded, their lead counted down from N |
| SpscQueue.OvertakenSize | src/common/spsc_queue.h:51-55 | a run in which a third thread gets N-1 as the size of an empty queue |
| SpscQueue.OwnSizeIsExact | src/common/spsc_queue.h:51-55 | called by one of the two threads themselves, size is exact: the producer gets the length at its second load, the consumer that at its first |
| SpscQueue.PushEffect | src/common/shm_queue.h:139-151 | an undisturbed push refuses exactly when N-1 items wait, and otherwise appends the item |
| SpscQueue.PopEffect | src/common/shm_queue.h:153-162 | an undisturbed pop finds nothing exactly when the queue is empty, and otherwise takes the oldest item |
| SpscQueue.SPSCQueue.constructor | src/common/spsc_queue.h:19 | a new queue is empty and valid |
| SpscQueue.SPSCQueue.Push | src/common/spsc_queue.h:22-32 | contents grow by the item or a drop is counted; the call is exactly the machine's steps of the producer |
| SpscQueue.SPSCQueue.Pop | src/common/spsc_queue.h:35-43 | the first of the contents is handed out and removed; the call is exactly the machine's steps of the consumer |
| SpscQueue.SPSCQueue.Size | src/common/spsc_queue.h:51-55 | the number of items waiting |
| SpscQueue.SPSCQueue.Empty | src/common/spsc_queue.h:46-48 | whether none is waiting |
| Words.SizeTestAccepts | src/common/spsc_queue.h:15 | the static assertion on the size accepts every power of two |
| Words.SizeTestOnly | src/common/spsc_queue.h:15 | and, of the positive numbers, nothing else |
| LogRing.AdmissionIsSound | src/common/async_logger.h:319-330 | the wrapping subtraction lets a producer with a current head pass only while a slot is free |
| LogRing.CasWinSafeIff | src/common/async_logger.h:331-335 | a won compare-exchange keeps the ring invariant if and only if a slot is free, however old the head it was won on |
| LogRing.TimelyIsRoomy | src/common/async_logger.h:319-335 | a win on a head less than a counter range old finds a free slot, although the fullness test read an older tail |
| LogRing.StepSafeIff | src/common/async_logger.h:316-347 | every atomic step of any producer or of the consumer keeps the ring invariant, except exactly a compare-exchange won on a full ring |
| LogRing.RunSafeIff | src/common/async_logger.h:316-347 | a run keeps the invariant all the way if and only if every win in it finds a free slot |
| LogRing.TimelyRunIsRoomy | src/common/async_logger.h:316-347 | runs in which no head grows a counter range old are safe |
| LogRing.RingSafety | src/common/async_logger.h:312-347 | for any number of producers and every run whose wins find a free slot: tails and head in order and within one capacity, no slot with two owners, the consumer reads only complete messages, and what it wrote is the claimed messages in ticket order, each once |
| LogRing.TimelyRingSafety | src/common/async_logger.h:312-347 | all of that, and that something pending shows exactly when something is unwritten, under a hypothesis on producers alone: no head is a whole counter range old when its compare-exchange is won |
| LogRing.StepKeepsAccounts | src/common/async_logger.h:316-347 | each step keeps the balance of calls begun, claimed, dropped and under way |
| LogRing.NothingVanishes | src/common/async_logger.h:322-335 | every message handed in has a ticket, was dropped or is still in its call, and Warn and Error are never dropped |
| LogRing.DrainedWhenNothingPending | src/common/async_logger.h:349-352 | with no producer in the ring and the consumer at rest, nothing pending means everything claimed is written |
| LogRing.BatchEndsIff | src/common/async_logger.h:462-475 | a batch goes on exactly while it has taken fewer than 256 messages and the next slot is ready |
| LogRing.TurnedAwayIff | src/common/async_logger.h:322-330 | a producer is turned away if and only if the ring is full or its head lags behind the tail by an amount that does not come out small modulo the counter range; an Info message is then dropped, any other waits |
| LogRing.StaleHeadDropsIntoEmptyRing | src/common/async_logger.h:319-326 | a run in which an Info message is dropped while every slot is empty |
| LogRing.UntimelyCasOverruns | src/common/async_logger.h:331-335 | a run from the start, with two producers, after which a head a whole counter range old wins and claims a slot in use |
| LogRing.AsyncLogger.constructor | src/common/async_logger.h:312-314 | a new ring holds nothing, with all counters at zero |
| LogRing.AsyncLogger.EnqueueFixed | src/common/async_logger.h:316-347 | undisturbed: appended to the pending messages if there is room, otherwise dropped if Info and held up if not; counters change accordingly |
| LogRing.AsyncLogger.Fill | src/common/async_logger.h:337-344 | the claimed slot ends Ready with the whole message, no other slot changes |
| LogRing.AsyncLogger.Scan | src/common/async_logger.h:462-474 | ready slots are written and emptied up to the batch size while the published tail stays behind, keeping the ring invariant |
| LogRing.AsyncLogger.DrainBatch | src/common/async_logger.h:462-475 | the first 256 pending messages, or all of them, are written in order and no longer pending |
| LogRing.AsyncLogger.WriteSlot | src/common/async_logger.h:450-453 | the message is written, the error and warning counters count their own level only |
| ShiftRegister.StepsAreInjective | src/common/crc32.h:41-43 | no number of bit steps ever merges two register states |
| ShiftRegister.AbsorbIsEightSteps | src/common/crc32.h:18-20 | a table lookup is eight bit steps of register xor byte |
| ShiftRegister.TableLoopDivides | src/common/crc32.h:18-20 | the byte loop is the bit-by-bit division of the message's bits |
| ShiftRegister.AbsorbIsInjective | src/common/crc32.h:18-20 | reading the same bytes never merges two register states |
| ShiftRegister.FourBytes | src/common/crc32.h:18-20 | four bytes act as 32 steps of register xor their word |
| ShiftRegister.WindowDecides | src/common/crc32.h:18-20 | different windows of up to four bytes leave different registers |
| ShiftRegister.BurstChangesRegister | src/common/crc32.h:18-20 | a burst of up to four adjacent bytes changes the final register whatever surrounds it |
| ShiftRegister.TrailingChecksum | src/common/crc32.h:14-22 | exactly the message's own checksum, appended, drives the register to one constant |
| Crc32.BitsLaws | src/common/crc32.h:34-49 | 32-bit vectors with the reflected polynomial obey all laws of the register |
| Crc32.ComputeIsRemainder | src/common/crc32.h:14-22 | the table-driven checksum is the bitwise remainder, for every byte string |
| Crc32.CheckValue | src/common/crc32.h:14-49 | the checksum of the nine digits is the check value of this polynomial |
| Crc32.UpdateResumes | src/common/crc32.h:24-32 | resuming a finished checksum gives the checksum of both parts together |
| Crc32.BurstDetected | src/common/crc32.h:14-22 | messages that differ only within four adjacent bytes have different checksums |
| Crc32.SealedByRegister | src/common/wal_reader.h:73-83 | a record's trailing checksum is right exactly when the register ends in the constant |
| Crc32.BurstBreaksSeal | src/common/wal_reader.h:83-86 | a burst of up to four bytes anywhere in a sealed record, its checksum included, breaks the seal |
| Crc32.ShiftOnce | src/common/crc32.h:41-43 | a turn of the inner table loop is a bit step |
| Crc32.MakeEntry | src/common/crc32.h:40-44 | a table entry is its index after eight bit steps |
| Crc32.CRC32.Table | src/common/crc32.h:35-49 | after the first use every entry of the table is right |
| Crc32.CRC32.AbsorbBytes | src/common/crc32.h:18-20 | the loop over a message, by lookups in the filled table |
| Crc32.CRC32.ComputeBytes | src/common/crc32.h:14-22 | the checksum of the data |
| Crc32.CRC32.UpdateBytes | src/common/crc32.h:24-32 | the checksum resumed over more data |
| Sequences.ReadCut | src/common/wal_reader.h:56-97 | a reader that takes whole parts and stops at a stump returns, from any cut of a file, exactly the whole parts |
| Wal.ReplayFrame | src/common/wal_reader.h:66-96 | a whole frame is taken or skipped on its own merits, and the replay goes on behind it |
| Wal.ReplayStump | src/common/wal_reader.h:57-69 | a proper prefix of a frame yields nothing, and Truncated unless it is empty |
| Wal.EarlierPiecesStand | src/common/wal_reader.h:56-97 | whole records replay the same in front of anything: nothing that follows, however broken, costs an earlier one |
| Wal.ShortSizeStopsReplay | src/common/wal_reader.h:61-64 | after any log, a size field below the minimum ends the replay with one corruption counted, whatever follows |
| Wal.ShortSizeIsolatedIff | src/common/wal_reader.h:61-64 | such damage costs its own record only if and only if no other record follows |
| Wal.LongSizeTruncates | src/common/wal_reader.h:66-69 | a size field beyond what is left hides the rest as a truncation, and nothing before it |
| Wal.RecordReads | src/common/wal_writer.h:47-70 | what was appended parses back to the same type, time and payload |
| Wal.RecordLayout | src/common/wal_writer.h:47-70 | where size, time, kind, payload and checksum stand in a record |
| Wal.RecordIsSealed | src/common/wal_writer.h:66-67 | an appended record carries its own checksum |
| Wal.SealTellsDamage | src/common/wal_reader.h:77-86 | a record overwritten in up to four adjacent bytes outside its size field is told from an intact one |
| Wal.ReplayCut | src/common/wal_reader.h:56-106 | replay of any prefix of a sequence of intact and damaged frames |
| Wal.ReplayOfDamagedFile | src/common/wal_reader.h:56-106 | append anything, damage any records, cut anywhere: exactly the undamaged whole entries come back in order, each damaged one is counted once, Truncated iff the cut is inside a record |
| Wal.CrashSafety | src/common/wal_reader.h:56-106 | any prefix of an appended file replays as exactly the records wholly inside it, without corruption, Truncated iff the cut is not on a boundary |
| Wal.AppendExtendsLog | src/common/wal_writer.h:47-70 | appending adds one record at the end and changes nothing before it |
| Wal.TwoPartSeal | src/common/wal_reader.h:77-83 | checking header and body in two goes is checking the seal of the whole |
| Wal.WalWriter.Fill | src/common/wal_writer.h:53-67 | the buffer holds header, payload and the checksum of both |
| Wal.WalWriter.Assemble | src/common/wal_writer.h:50-67 | the buffer is the entry's record |
| Wal.WalWriter.Append | src/common/wal_writer.h:47-70 | the file gains the record exactly when it is open and the write is taken |
| Wal.WalReader.Check | src/common/wal_reader.h:73-83 | whether the frame is sealed |
| Wal.WalReader.TakeFrame | src/common/wal_reader.h:71-96 | a sealed frame is delivered, another counted, as replay prescribes |
| Wal.WalReader.ReadFrame | src/common/wal_reader.h:57-96 | one turn of the loop: end, stump, bad size or frame |
| Wal.WalReader.ReplayFile | src/common/wal_reader.h:56-106 | the loop delivers, counts and reports what the replay of the file is |
| BinaryIo.JoinFits | src/common/binary_io.h:50 | the groups of a varint lie side by side, so joining them never overflows |
| BinaryIo.VarUintRoundTrip | src/common/binary_io.h:31-58 | every 64-bit value reads back exactly, whatever follows |
| BinaryIo.ReadsUpToEnd | src/common/binary_io.h:42-58 | on any input: success exactly when one of the first ten octets ends the varint, consuming exactly up to it |
| BinaryIo.ReadsWhatIsSpelled | src/common/binary_io.h:42-58 | on any input it accepts, shortest or not, the reader returns the number its seven-bit groups spell, modulo 64 bits |
| BinaryIo.VarUintExample | src/common/binary_io.h:31-39 | the layout of a varint by example |
| BinaryIo.StumpFails | src/common/binary_io.h:46-49 | no proper prefix of an encoding reads as a value |
| BinaryIo.CanonicalIsShortest | src/common/binary_io.h:31-39 | the writer's encoding is the shortest the reader accepts for the value |
| BinaryIo.ZigZagIsBijective | src/common/binary_io.h:21-28 | a bijection on 64-bit words that keeps small magnitudes small |
| BinaryIo.TextRoundTrip | src/common/binary_io.h:76-96 | strings read back exactly, whatever follows |
| BinaryIo.TextStump | src/common/binary_io.h:82-96 | a string cut short does not read |
| BinaryIo.LongTextRefused | src/common/binary_io.h:82-96 | a string length of 2^63 or more is refused, not taken for a stream that ran out |
| BinaryIo.RoundIsNearest | src/common/binary_io.h:99-101 | fixed point is off by at most half a unit |
| BinaryIo.RoundAtEdges | src/common/binary_io.h:99-101 | halves go away from zero; what 64 bits cannot hold becomes the least integer |
| BinaryIo.FixedIsClose | src/common/binary_io.h:99-116 | a price comes back to within half of its fourth decimal, a turnover to within half of its second |
| BinaryIo.FixedIsStable | src/common/binary_io.h:99-116 | what was once fixed point stays the same fixed point |
| BinaryIo.RecordRoundTrip | src/common/binary_io.h:31-96 | a record of any fields reads back exactly, whatever follows |
| BinaryIo.RecordStump | src/common/binary_io.h:42-96 | a record cut anywhere before its end does not read |
| BinaryIo.CountedRoundTrip | src/engine/kline_manager.cpp:896-903 | a counted list of parts that round-trip round-trips |
| BinaryIo.CountedStump | src/engine/kline_manager.cpp:896-942 | a counted list cut short does not read |
| BinaryIo.SectionRoundTrip | src/engine/kline_manager.cpp:904-912 | so does a named, counted section |
| BinaryIo.SectionStump | src/engine/kline_manager.cpp:913-918 | a section cut short does not read |
| BinaryIo.OutputStream.PutVarUint | src/common/binary_io.h:31-39 | the loop appends the varint of the value |
| BinaryIo.OutputStream.PutVarInt | src/common/binary_io.h:61-63 | appends the varint of the zig-zag word |
| BinaryIo.OutputStream.PutText | src/common/binary_io.h:76-79 | appends length and bytes |
| BinaryIo.OutputStream.PutFields | src/engine/tick_recorder.cpp:50-87 | appends the fields one after another |
| BinaryIo.InputStream.GetVarUint | src/common/binary_io.h:42-58 | value, position and kind of failure of the read |
| BinaryIo.InputStream.GetVarInt | src/common/binary_io.h:66-73 | the same through zig-zag |
| BinaryIo.InputStream.GetText | src/common/binary_io.h:82-96 | the same for a string |
| BinaryIo.InputStream.GetFields | src/engine/tick_reader.cpp:17-76 | fields of the expected kinds, up to the first that does not read |
| TickFile.FieldKinds | src/engine/tick_recorder.cpp:50-87 | the recorder writes fields of exactly the kinds, in the order, that the reader expects |
| TickFile.FieldsRead | src/engine/tick_reader.cpp:12-77 | reading a tick's fields gives the tick quantised and clamped, each value in its own field |
| TickFile.TickTaken | src/engine/tick_reader.cpp:88-92 | a whole tick is taken whatever follows; a tick cut short yields nothing |
| TickFile.RecordedPrefixReads | src/engine/tick_reader.cpp:79-95 | from any prefix of a recorded file past the magic exactly the ticks wholly inside it come back, field for field as stored, and the read succeeds |
| TickFile.NoMagicNoTicks | src/engine/tick_reader.cpp:83-86 | a file cut within the magic is refused |
| TickFile.OtherFilesRefused | src/engine/tick_reader.cpp:83-86 | so is every file that does not begin with the magic |
| TickFile.GarbageEndsReading | src/engine/tick_reader.cpp:79-95 | what does not read as a tick ends the reading with the ticks before it, a success if there are any or it merely broke off |
| TickFile.RecordingAgainIsIdentical | src/engine/tick_recorder.cpp:50-87 | recording what was read back writes the very same bytes |
| TickFile.Copied | src/engine/tick_reader.cpp:17-30 | what fits the buffer is copied as it is, and the result is always terminated |
| TickFile.WriteTick | src/engine/tick_recorder.cpp:50-87 | appends the tick's layout |
| TickFile.ReadOneTick | src/engine/tick_reader.cpp:12-77 | succeeds exactly when all fields read, with that tick |
| TickFile.ReadHtickFile | src/engine/tick_reader.cpp:79-95 | the loop collects what reading the file yields, behind what was there before |
| KlineStore.UndeltaDelta | src/engine/kline_manager.cpp:944-953 | differences undo exactly, even where 64-bit subtraction wraps |
| KlineStore.UndeltasDeltas | src/engine/kline_manager.cpp:1030-1058 | a whole period undoes to its bars in fixed point |
| KlineStore.StoredBarStable | src/engine/kline_manager.cpp:1031-1049 | storing quantises once: a stored bar is stored as it is |
| KlineStore.StoredBarIsNear | src/engine/kline_manager.cpp:1031-1049 | each price of a stored bar is within half of its fourth decimal, turnover within half of its second, in its own field |
| KlineStore.DeltaExample | src/engine/kline_manager.cpp:1031-1049 | which value is coded against which, and in what order, by example |
| KlineStore.LoadOfSave | src/engine/kline_manager.cpp:884-1060 | loading a saved store returns, for every instrument and period, the last 400 bars in fixed point, negative volume clamped, whatever the timestamps |
| KlineStore.NewestBarsComeBack | src/engine/kline_manager.cpp:984-1000 | after loading a save, every instrument and period that had bars has its newest, up to 400, oldest first, each as stored; a period without bars is absent, and so is an instrument without any such period |
| KlineStore.LoadGathers | src/engine/kline_manager.cpp:896-971 | from any store that reads, of whatever origin, the cache is in order and holds for each instrument and period the bars of all its sections, one after the other |
| KlineStore.OtherFilesRefused | src/engine/kline_manager.cpp:884-896 | a file that does not begin with the magic does not load |
| KlineStore.CutStoreFails | src/engine/kline_manager.cpp:884-980 | a store cut short anywhere does not load |
| KlineStore.SecondSaveIsIdentical | src/engine/kline_manager.cpp:983-1060 | saving what was loaded writes the very same file |
| KlineStore.AddInstrumentsAppends | src/engine/kline_manager.cpp:902-971 | restoring into maps keeps instruments and periods in their order, none merged |
| KlineStore.WriteBars | src/engine/kline_manager.cpp:1027-1058 | the loop with its three running values writes the deltas of the bars |
| KlineStore.WriteInstruments | src/engine/kline_manager.cpp:1015-1060 | the nested loops write every section |
| KlineStore.TakeSnapshot | src/engine/kline_manager.cpp:984-1000 | the copied part of the cache: non-empty periods, their last bars |
| KlineStore.ReadBars | src/engine/kline_manager.cpp:921-969 | bars restored one by one from their deltas, or failure |
| KlineStore.ReadPeriods | src/engine/kline_manager.cpp:912-970 | the periods of an instrument, or failure |
| KlineStore.ReadInstruments | src/engine/kline_manager.cpp:903-971 | the instruments of a store, or failure |
| KlineStore.KlineManager.SaveStore | src/engine/kline_manager.cpp:983-1074 | the store becomes the saved form of the cache |
| KlineStore.KlineManager.LoadStore | src/engine/kline_manager.cpp:884-980 | the cache is replaced exactly by a store that reads to its end, otherwise untouched |
| KlineBars.Bucket | src/engine/kline_manager.cpp:83-89 | the bucket's start is a multiple of the width, at or before the timestamp and less than a width away |
| KlineBars.SameBucket | src/engine/kline_manager.cpp:83-89 | two timestamps share a bucket exactly when they lie in the same multiple of the width |
| KlineBars.AggregateGridded | src/engine/kline_manager.cpp:398-402 | every aggregated bar starts on a multiple of the width |
| KlineBars.FullGridded | src/engine/kline_manager.cpp:698-701 | so does every bar built tick by tick, the daily ones apart |
| KlineBars.AggregateComposes | src/engine/kline_manager.cpp:387-426 | aggregating to a width and then to a multiple is aggregating straight to the multiple, unsorted input included, but for bars of the first fine bucket |
| KlineBars.AggregateKeepsTotals | src/engine/kline_manager.cpp:411-422 | total clamped volume and turnover are kept |
| KlineBars.SortedGivesRising | src/engine/kline_manager.cpp:397-423 | sorted input gives strictly rising buckets |
| KlineBars.RunBecomesBar | src/engine/kline_manager.cpp:402-422 | each maximal run in one bucket becomes one bar: first open, last close, extreme high and low, summed volume and turnover |
| KlineBars.RecentInto | src/engine/kline_manager.cpp:157-159 | keeping only the last 2000 bars never changes how the next trade is taken |
| KlineBars.RecentAreLast | src/engine/kline_manager.cpp:157-159 | the bars kept are the last 2000, or all of fewer |
| KlineBars.FinishedIsAllButLast | src/engine/kline_manager.cpp:705-713 | the completed bars handed out are all bars but the open one, once each, in order and final |
| KlineBars.CompletedIsAllButLast | src/engine/kline_manager.cpp:698-724 | whoever collects what the ticks complete gets, in every period, all bars but the open one, in order |
| KlineBars.CompletedInOrder | src/engine/kline_manager.cpp:698-724 | one tick completes at most one bar of each period, handed out from the shortest period to the longest |
| KlineBars.FullIsAggregate | src/engine/kline_manager.cpp:698-722 | building tick by tick is aggregating the trades |
| KlineBars.DailyIsAggregate | src/engine/kline_manager.cpp:698-722 | the daily bars are the trades aggregated by their trading day alone, whatever their timestamps; trades without one are left out |
| KlineBars.DayBecomesBar | src/engine/kline_manager.cpp:698-722 | the trades of one trading day, back to back, become the one daily bar that sums them up |
| KlineBars.ZeroStamp | src/engine/kline_manager.cpp:398-402 | a zero label, which the next aggregation skips, arises exactly from bars of the first bucket |
| KlineBars.BuildersAgree | src/engine/kline_manager.cpp:661-725 | the 5- and 15-minute bars kept tick by tick equal the aggregation of the 1-minute bars kept tick by tick if and only if no trade falls in the first coarse bucket but after its first minute |
| KlineBars.DayTrade | src/engine/kline_manager.cpp:679-696 | a tick adds what each counter rose by, nothing on a new day, on a falling counter or with none before, under its own price, time and day |
| KlineBars.DayAddsUp | src/engine/kline_manager.cpp:679-696 | over a day with counters that never fall, the measured trades add up to the last counter less the first, in volume and turnover |
| KlineBars.FullKeepsTotals | src/engine/kline_manager.cpp:698-722 | the bars of a period hold all that their trades add up to |
| KlineBars.DayInBars | src/engine/kline_manager.cpp:661-725 | so the bars of a day hold, in every period, what the counters rose by since its first tick |
| KlineBars.MergeIsByTimestamp | src/engine/kline_manager.cpp:428-446 | a merge holds, in time order, exactly one bar per timestamp, the imported one where both have it |
| KlineBars.ReplacingTakesOver | src/engine/kline_manager.cpp:432-452 | rising bars that replace what was there are taken over as they are, up to the last 2000 |
| KlineBars.ImportIsDirect | src/engine/kline_manager.cpp:849-858 | the base period and every longer one is rebuilt; each is the rows aggregated directly but for those of the first base bucket, rising if the rows are sorted; with no such rows going through the base period makes no difference, and with any the base period itself comes out different |
| KlineBars.EarlyMatters | src/engine/kline_manager.cpp:398-402 | leaving out the rows of the first bucket shows in bars of that width exactly when there are any |
| KlineBars.AppendOrUpdate | src/engine/kline_manager.cpp:127-160 | a trade into a list of bars |
| KlineBars.Grow | src/engine/kline_manager.cpp:698-722 | a trade into one period, with the bar it completes |
| KlineBars.Measure | src/engine/kline_manager.cpp:679-696 | what a tick adds to the tick before it, none across a new day or a falling counter; KlineBars.DayAddsUp says what these amounts come to |
| KlineBars.AggregateBars | src/engine/kline_manager.cpp:387-426 | the aggregation loop |
| KlineBars.AbsorbBar | src/engine/kline_manager.cpp:398-422 | one turn of the aggregation |
| KlineBars.MergePeriodBars | src/engine/kline_manager.cpp:428-453 | the merge by map |
| KlineBars.InstrumentState.constructor | src/engine/kline_manager.cpp:677 | no bars and no tick |
| KlineBars.InstrumentState.TakeAll | src/engine/kline_manager.cpp:698-722 | all four periods grow, completed bars collected in period order |
| KlineBars.InstrumentState.Take | src/engine/kline_manager.cpp:698-724 | every period keeps the last 2000 bars of all trades, one more included |
| KlineBars.InstrumentState.TakeTick | src/engine/kline_manager.cpp:668-724 | a usable tick becomes one trade, measured against the tick before, and the one the next is measured against |
| KlineBars.InstrumentState.Update | src/engine/kline_manager.cpp:661-725 | an unusable tick changes nothing; of the others the bars are always those of the trades they come to |
| TickCache.PollKeepsInv | src/engine/tick_data_manager.cpp:58-87 | applying a page and its cursor keeps mirror and cache in agreement up to the cursor |
| TickCache.StepKeepsInv | src/engine/tick_data_manager.cpp:12-18 | so does every store that the cursor has not overtaken |
| TickCache.RunKeepsInv | src/engine/tick_data_manager.cpp:12-87 | and every run of such steps |
| TickCache.OneWriterIsFresh | src/engine/tick_data_manager.cpp:12-18 | one update at a time is never overtaken |
| TickCache.MirrorAgrees | src/engine/tick_data_manager.cpp:12-87 | however updates and polls interleave, with any limits and any number of writers, nothing is delivered twice; everything up to the cursor is mirrored as it is all the way if and only if no store comes in behind the cursor with a tick the reader does not have; with one update at a time it is |
| TickCache.ShortPageCatchesUp | src/engine/tick_data_manager.cpp:80-84 | a page short of its limit leaves the mirror equal to the cache if and only if nothing was missed before |
| TickCache.MirroredThroughoutIff | src/engine/tick_data_manager.cpp:12-87 | with any number of writers, mirror and cache agree all the way if and only if no store comes in behind the cursor with a tick the reader does not have |
| TickCache.MissedForGood | src/engine/tick_data_manager.cpp:12-87 | what the cursor has passed without the reader having it stays missed under every further step, until that instrument is updated again |
| TickCache.TwoWritersLoseATick | src/engine/tick_data_manager.cpp:13-17 | two overlapping updates after which no poll, now or later, delivers an instrument until it is updated again |
| TickCache.CollectMore | src/engine/tick_data_manager.cpp:70-77 | collecting one more changed entry keeps the list complete and sorted |
| TickCache.PageOf | src/engine/tick_data_manager.cpp:79-84 | the first so many of the sorted entries are a page: changed entries only, rising, skipping none, full unless complete |
| TickCache.TickDataManager.Update | src/engine/tick_data_manager.cpp:12-18 | the entry is replaced under the next number |
| TickCache.TickDataManager.Collect | src/engine/tick_data_manager.cpp:68-77 | all changed entries, by number |
| TickCache.TickDataManager.Emit | src/engine/tick_data_manager.cpp:79-85 | as many as the limit allows, and the number of the last |
| TickCache.TickDataManager.ChangedSince | src/engine/tick_data_manager.cpp:58-87 | the answer is a page, with its last number as the cursor |
| Backtest.BookPut | src/engine/backtest_report.cpp:32 | storing a position changes the books by the difference it makes |
| Backtest.OpenCarries | src/engine/backtest_report.cpp:34-43 | an open the ledger takes is carried at what it cost, one it ignores changes nothing |
| Backtest.CloseEarns | src/engine/backtest_report.cpp:45-56 | a clipped close earns its cash less the cost of what it closes, long or short |
| Backtest.Clipped | src/engine/backtest_report.cpp:46 | the volume closed is the trade's or all that is held, whichever is less |
| Backtest.PositionAfter | src/engine/backtest_report.cpp:34-57 | an open taken averages the cost over the joint volume, a close lowers the volume by the lesser of the two and keeps average and side, an ignored open changes nothing |
| Backtest.RoundTripOf | src/engine/backtest_report.cpp:45-57 | exactly a close of something held is a round trip; it earns the difference to the average price on each lot closed, with the sign of the side |
| Backtest.VolumeAddsUp | src/engine/backtest_report.cpp:31-58 | the volume held of an instrument is that of its opens taken less what its closes took, and never negative |
| Backtest.ApplyConserves | src/engine/backtest_report.cpp:31-58 | one trade moves profit, books and cash together, and profit and gross amounts together |
| Backtest.LedgerConserves | src/engine/backtest_report.cpp:31-68 | total realised profit is net cash, closes clipped to what is held, plus what is still carried, over all instruments; and it is gross profit less gross loss |
| Backtest.GrossNonNegative | src/engine/backtest_report.cpp:54-55 | gross profit and loss are never negative |
| Backtest.GrossIsGains | src/engine/backtest_report.cpp:54-55 | gross profit is the sum of the gains, gross loss what the other round trips lost |
| Backtest.WinsBySign | src/engine/backtest_report.cpp:67 | the winners are the round trips with a gain |
| Backtest.LossesBySign | src/engine/backtest_report.cpp:68 | the losers are those with a loss; one that comes out even is neither |
| Backtest.TrackNext | src/engine/backtest_report.cpp:86-94 | one turn of the pass keeps peak, deepest fall, highest and lowest point right |
| Backtest.Extremes | src/engine/backtest_report.cpp:79-94 | the one-pass drawdown is the largest fall from any earlier point to any later one, starting point included |
| Backtest.Advance | src/engine/backtest_report.cpp:86-94 | one turn of the pass: right figures for the first k round trips become right figures for k + 1 |
| Backtest.Match | src/engine/backtest_report.cpp:31-58 | the matching loop builds the ledger of the trades |
| Backtest.MatchOne | src/engine/backtest_report.cpp:31-57 | one trade into the ledger |
| Backtest.Totals | src/engine/backtest_report.cpp:65-69 | total, winners and losers of the round trips |
| Backtest.Summarise | src/engine/backtest_report.cpp:65-94 | the figures of a ledger with round trips |
| Backtest.ComputeReport | src/engine/backtest_report.cpp:12-109 | the report describes the ledger of the trades; without a round trip all but the counts stay at zero |
| CloseRouting.VolumeUpdate | src/order/order_manager.cpp:327-344 | changing one order changes a volume, booked or live, by the change in that order |
| CloseRouting.SendCoveredIff | src/risk/risk_manager.cpp:276-302 | an order let through by the risk check leaves live closes covered if and only if it fits the position no live order claims |
| CloseRouting.CloseCoveredIff | src/engine/trading_engine.cpp:2131-2204 | so it is for a plain close, part by part, however it is routed |
| CloseRouting.ReportCoveredIff | src/order/order_manager.cpp:135-178 | an order report does if and only if it raises the claim of its order by no more than is free |
| CloseRouting.TradeLive | src/order/order_manager.cpp:180-224 | a trade takes from the live claims exactly what its own order had left of it |
| CloseRouting.TradeCoveredIff | src/position/position_manager.cpp:30-59 | a trade leaves live closes covered if and only if what its order does not cover is free, or nothing else is live |
| CloseRouting.StepCoveredIff | src/engine/trading_engine.cpp:2131-2204 | the same of any step: exactly the fitting ones keep live closes covered |
| CloseRouting.CoveredThroughoutIff | src/engine/trading_engine.cpp:2131-2204 | over any run, replays, late trades, revived orders and orders taken over included, live closes stay covered all the way if and only if every step fits as it comes |
| CloseRouting.CoveredIffClosesFit | src/engine/trading_engine.cpp:2131-2204 | for messages that are genuine, reports and trades in whatever order, trades after the cancellation that tells of them included: live closes stay covered all the way if and only if each close let in is within the position less what is live at that time, an order's trades still to come counted as live |
| CloseRouting.FaithfulIsGenuine | src/gateway/ctp_trade_gateway.cpp:460-531 | messages are genuine as soon as they tell, in any order, what the exchange did: each order's trades once and within what it trades in the end, no report claiming more, and one of its end claiming just that |
| CloseRouting.StepKeepsTally | src/order/order_manager.cpp:135-224 | while no report runs ahead of the trades counted, the engine's own count of every order stays right |
| CloseRouting.AvailableIsFree | src/order/order_manager.cpp:327-344 | while the engine's count is right, what it takes to be available is what no live order can claim |
| CloseRouting.NeverOverReserved | src/engine/trading_engine.cpp:2131-2204 | over every run of genuine messages in which no report runs ahead of the trades counted, the volume live close-today and close-yesterday orders can still take never exceeds the position of its kind |
| CloseRouting.PositionMoves | src/position/position_manager.cpp:18-59 | only trades move the position: an opening one raises today's, a closing one lowers its own kind, never below zero |
| CloseRouting.PositionAddsUp | src/position/position_manager.cpp:18-59 | over every run of genuine messages with live closes covered, the position ends as it began plus all opened less all closed |
| CloseRouting.EndStaysIff | src/order/order_manager.cpp:141-212 | an order that has ended stays ended, except exactly when a trade comes for one reported as all traded whose count, trade included, is short of its total |
| CloseRouting.PartReportOverReserves | src/order/order_manager.cpp:157-212 | a run in which the report of a part fill precedes its trade, and two live lots end up against a position of one |
| CloseRouting.FullReportOverReserves | src/gateway/ctp_trade_gateway.cpp:460-531 | a run in which the report of a full fill precedes its trade, and a second close is let in on the same lot |
| CloseRouting.CancelReportOverReserves | src/gateway/ctp_trade_gateway.cpp:490-505 | a run in which the cancellation of a part-filled order precedes its trade, and a close of the whole position is let in before that |
| CloseRouting.ReplayUncovers | src/order/order_manager.cpp:183-193 | a replayed trade that uncovers a live close although every close fitted when it was let in |
| CloseRouting.RouteAddsUp | src/engine/trading_engine.cpp:2141-2160 | the parts add up to the request, none is empty, each fits what is available even after the first is sent |
| CloseRouting.TodayGoesFirst | src/engine/trading_engine.cpp:2144-2160 | a close that fits today's available position is one close-today order in full; yesterday's is touched only beyond that, by one order in full if it fits, and otherwise by the rest after all of today's |
| CloseRouting.CloseReserves | src/engine/trading_engine.cpp:2139-2204 | a close within what is available raises the reserved volume by its own, over both kinds; one beyond it changes nothing |
| CloseRouting.RefusedMeansTooMuch | src/engine/trading_engine.cpp:2144-2203 | a close is refused exactly when it exceeds all that is available |
| CloseRouting.CloseRefNames | src/engine/trading_engine.cpp:2162-2195 | a close gets no reference exactly when it exceeds all that is available or none of its orders gets through; a reference names an untouched order of this very close, of a split the close-today half if that got through and the other if not |
| CloseRouting.Engine.constructor | src/engine/trading_engine.cpp:2134-2139 | a position and no orders |
| CloseRouting.Engine.PendingVolume | src/order/order_manager.cpp:327-344 | the loop adds up the unfilled volume of live orders of one kind |
| CloseRouting.Engine.Submit | src/engine/trading_engine.cpp:2206-2231 | an order exists once the risk checks pass, its reference is handed back only if the gateway takes it |
| CloseRouting.Engine.SendClose | src/engine/trading_engine.cpp:2131-2231 | the book after a close and the reference handed back; the recursion ends after one level |
| CloseRouting.Engine.RouteClose | src/engine/trading_engine.cpp:2131-2204 | the book after a plain close and the reference handed back |
| CloseRouting.Engine.OnOrderReturn | src/order/order_manager.cpp:135-178 | a report changes its order, unless it would revive an ended one; one of this session that is not on the book is taken over, one of another session ignored |
| CloseRouting.Engine.OnTradeReturn | src/order/order_manager.cpp:180-224 | a trade fills its order once and closes position |
| StrategyControl.StepKeepsInv | src/engine/strategy_controller.cpp:30-96 | every operation keeps the counter at or above the strategies not running, and the flag up exactly while there are errors |
| StrategyControl.RunKeepsInv | src/engine/strategy_controller.cpp:18-96 | so does every sequence of operations |
| StrategyControl.CountersSound | src/engine/strategy_controller.cpp:83-96 | in every run the counter never underflows, and skipping the lock never loses a reset |
| StrategyControl.CounterRunsAhead | src/engine/strategy_controller.cpp:72-74 | pausing a paused strategy again counts it twice |
| StrategyControl.CounterCounts | src/engine/strategy_controller.cpp:30-81 | over every run the counter exceeds the strategies not running by exactly the number of repeated pauses |
| StrategyControl.SetTakesEffect | src/engine/strategy_controller.cpp:30-44 | every id of the same lookup key then answers the new state, if that key is tracked; every other as before |
| StrategyControl.InitTakesEffect | src/engine/strategy_controller.cpp:46-52 | an untracked strategy begins in the state given, a tracked one keeps its own |
| StrategyControl.RemoveTakesEffect | src/engine/strategy_controller.cpp:54-63 | the removed strategy answers the global state, every other as before |
| StrategyControl.ErrorTakesEffect | src/engine/strategy_controller.cpp:66-81 | one more error for that id; from the tenth in a row on its lookup answers paused, every other as before |
| StrategyControl.ResetTakesEffect | src/engine/strategy_controller.cpp:83-96 | the errors of that id are gone, all other errors and all states stay |
| StrategyControl.UncheckedServesAll | src/engine/trading_engine.cpp:1645-1672 | without the check exactly the strategies that take the tick are served, in line order |
| StrategyControl.HaltedIsPassedOver | src/engine/trading_engine.cpp:1652-1658 | a strategy not running when the checked loop starts is passed over: the loop does just what it would do were that strategy not in the line |
| StrategyControl.CheckIdleIff | src/engine/trading_engine.cpp:1645-1672 | over running strategies the check makes no difference exactly when none is paused under a later one's key |
| StrategyControl.FastDispatchIff | src/engine/trading_engine.cpp:1627-1673 | in every run with the counter at zero, unchecked and checked dispatch serve the same and leave the same state if and only if there is no such clash |
| StrategyControl.FastDispatchIsSound | src/engine/trading_engine.cpp:1010-1026 | with the distinct names that adding enforces, and no blanks around them, the fast path is sound |
| StrategyControl.PaddedNameIsServed | src/engine/trading_engine.cpp:1631-1658 | a run and two strategies for which it is not |
| StrategyControl.PauseTakesEffectIff | src/engine/strategy_controller.cpp:66-81 | the tenth error pauses a strategy exactly when its id is its own lookup key |
| StrategyControl.UnnamedNeverPaused | src/engine/strategy_controller.cpp:22-28 | errors of a strategy without an id change nobody's state |
| StrategyControl.StrategyController.GetState | src/engine/strategy_controller.cpp:22-28 | the state under the trimmed id, or the global one |
| StrategyControl.StrategyController.SetStrategyState | src/engine/strategy_controller.cpp:30-44 | the new state and counter; true exactly for a tracked strategy |
| StrategyControl.StrategyController.InitStrategy | src/engine/strategy_controller.cpp:46-52 | a strategy is tracked once |
| StrategyControl.StrategyController.RemoveStrategy | src/engine/strategy_controller.cpp:54-63 | a strategy is no longer tracked or counted |
| StrategyControl.StrategyController.AutoPauseOnError | src/engine/strategy_controller.cpp:66-81 | one more error; paused exactly from the tenth on |
| StrategyControl.StrategyController.ResetErrorCount | src/engine/strategy_controller.cpp:83-96 | the strategy's errors are gone, by whichever path |
| StrategyControl.StrategyController.Offer | src/engine/trading_engine.cpp:1645-1672 | a strategy in line is passed over or its handler called, as the check and its state say |
| StrategyControl.StrategyController.DispatchTick | src/engine/trading_engine.cpp:1627-1673 | the loop, with the counter read once, is the dispatch the other lemmas speak about |
| Texts.TrimTrims | src/common/string_utils.h:17-24 | trimming leaves nothing to trim, and only then changes nothing |
| Texts.TrimPadded | src/common/string_utils.h:17-24 | all white space around a text goes, nothing else |
| Texts.TrimExample | src/common/string_utils.h:17-24 | which characters count as white space, by example |
| QuerySnapshot.RowKeepsInv | src/gateway/ctp_trade_gateway.cpp:561-580 | taking in a row, stale or not, keeps pending rows those of the pending request |
| QuerySnapshot.CompleteKeepsInv | src/gateway/ctp_trade_gateway.cpp:582-601 | so does completing, even when a new query came between the two locked sections |
| QuerySnapshot.StepKeepsInv | src/gateway/ctp_trade_gateway.cpp:222-254 | so does every step |
| QuerySnapshot.RunKeepsInv | src/gateway/ctp_trade_gateway.cpp:222-254 | and every run |
| QuerySnapshot.SnapshotIntegrity | src/gateway/ctp_trade_gateway.cpp:555-673 | however queries, late rows and stale rows interleave, each snapshot applied is exactly the rows of its own request, in order, and no request yields two |
| QuerySnapshot.CompletedIsApplied | src/gateway/ctp_trade_gateway.cpp:582-601 | a response answered to the end while its request is pending is applied |
| QuerySnapshot.ResponseComesThrough | src/gateway/ctp_trade_gateway.cpp:222-254 | undisturbed, a query installed and answered adds one snapshot, of just the rows answered |
| QuerySnapshot.TableAddsUp | src/gateway/ctp_trade_gateway.cpp:570-579 | the pending table holds, key by key, each field summed by itself over the rows of the key |
| QuerySnapshot.PositionsAddUp | src/gateway/ctp_trade_gateway.cpp:590-596 | a key is in the snapshot, and once only, exactly when its rows add up to a positive volume, with the sum of each field, and average price times total is their cost |
| QuerySnapshot.PositionQuery.QueryPosition | src/gateway/ctp_trade_gateway.cpp:222-229 | a fresh id is pending, with no rows |
| QuerySnapshot.PositionQuery.OnRspQryInvestorPosition | src/gateway/ctp_trade_gateway.cpp:555-602 | rows of another request change nothing; the last row hands on the positions of the rows since the query began |
| QuerySnapshot.PositionQuery.Collect | src/gateway/ctp_trade_gateway.cpp:590-596 | the loop over the table picks the positions with volume |
| QuerySnapshot.OrderQuery.QueryActiveOrders | src/gateway/ctp_trade_gateway.cpp:241-248 | a fresh id is pending, with no orders |
| QuerySnapshot.OrderQuery.OnRspQryOrder | src/gateway/ctp_trade_gateway.cpp:604-673 | only active orders of the pending request are kept; the last row hands them on |
| Base64.CharacterDecodes | src/common/crypto.cpp:33-40 | each character of the alphabet decodes to its value, none is the padding |
| Base64.Alphabet | src/common/crypto.cpp:18-31 | the alphabet: A to Z, a to z, 0 to 9, plus and slash |
| Base64.FullQuartet | src/common/crypto.cpp:46-56 | four characters give their three octets back whatever the overflowing accumulator held |
| Base64.ShortQuartet | src/common/crypto.cpp:27-28 | the last one or two octets and their padding |
| Base64.DecodeEncoded | src/common/crypto.cpp:42-58 | decoding undoes encoding from any accumulator |
| Base64.RoundTrip | src/common/crypto.cpp:18-58 | decoding undoes encoding for every byte string |
| Base64.EncodingExample | src/common/crypto.cpp:18-31 | two test vectors of section 10 of RFC 4648 |
| Base64.NoiseIgnored | src/common/crypto.cpp:47-49 | padding, line breaks and foreign characters change nothing wherever they stand |
| Base64.EncodedLength | src/common/crypto.cpp:20 | the length that is reserved is the length of the result |
| Base64.EncodeBytes | src/common/crypto.cpp:18-31 | the loop computes the encoding |
| Base64.DecodeBytes | src/common/crypto.cpp:42-58 | the loop computes the decoding |
| IniConfig.SettingReadsBackIff | src/common/config.cpp:150-175 | a setting's line reads back as that setting if and only if it is trimmed, has no equals sign in the key and looks like no comment, section or marked line |
| IniConfig.SectionReadsBackIff | src/common/config.cpp:162-165 | a section's line reads back if and only if its name is trimmed |
| IniConfig.LinesByForm | src/common/config.cpp:150-175 | what any trimmed line comes to by its form: comment, section, setting split at the first equals sign, or nothing |
| IniConfig.MarkIgnored | src/common/config.cpp:150-160 | a byte order mark in front of a line changes nothing |
| IniConfig.LinesOfFile | src/common/config.cpp:150 | lines without line breaks come back from the file as they are, and so does a last one without a line feed |
| IniConfig.ItemsStored | src/common/config.cpp:175 | storing a section's settings answers each lookup by the last one stored |
| IniConfig.SectionsStored | src/common/config.cpp:140-179 | reading sections back in file order answers every lookup as before |
| IniConfig.SameData | src/common/config.cpp:140-179 | stored configurations that answer every lookup alike are the same |
| OrderedMap.BelowMeans | src/common/config.cpp:140-179 | the order of the maps: a proper prefix first, otherwise by the first octet that differs, unsigned |
| IniConfig.LoadOfSave | src/common/config.cpp:140-316 | loading what was saved returns the same configuration, whatever the ranks, if every name and setting survives its line |
| IniConfig.RoundTripIff | src/common/config.cpp:140-316 | and only if: nothing lost is ever made up for by another line |
| IniConfig.FileInOrder | src/common/config.cpp:267-316 | sections are written by rank, and alphabetically within a rank |
| IniConfig.SectionWritten | src/common/config.cpp:267-316 | a section is its name in brackets and its settings, each on a line of its own |
| IniConfig.SectionsWritten | src/common/config.cpp:267-316 | sections follow one another with an empty line between |
| IniConfig.LoadIsStored | src/common/config.cpp:140-179 | no file loads into a configuration with an empty section |
| IniConfig.EraseKeyStored | src/common/config.cpp:251-261 | erasing a key removes that setting only, and its section along with the last key |
| IniConfig.EraseSectionStored | src/common/config.cpp:263-265 | erasing a section removes its settings only |
| IniConfig.Config.constructor | src/common/config.cpp:140-141 | a new configuration is empty |
| IniConfig.Config.LoadFile | src/common/config.cpp:140-179 | what the file loads into, or nothing at all when there is none |
| IniConfig.Config.SetString | src/common/config.cpp:247-249 | one lookup answers the new value, every other as before |
| IniConfig.Config.EraseKey | src/common/config.cpp:251-261 | one lookup answers nothing, every other as before |
| IniConfig.Config.EraseSection | src/common/config.cpp:263-265 | lookups in the section answer nothing, every other as before |
| IniConfig.Config.SaveFile | src/common/config.cpp:267-316 | the file by rank, which loads back to the same configuration exactly when that can be saved |

## Left out

- Wal.ReplayOfDamagedFile: damage to size fields is not isolated by the code; what it does is stated apart, in `Wal.ShortSizeStopsReplay`, `Wal.LongSizeTruncates` and `Wal.EarlierPiecesStand`, and a size field damaged to another size that is there is not followed further. Appending 4 GiB and more, where the size wraps and the buffer is overrun, is undefined in the code and not modelled.
- CloseRouting.Engine.OnOrderReturn: an order taken over gets the next place as its reference, whatever its own; how much of it the position already reflects is given with it.
- CloseRouting.NeverOverReserved: one direction, for reports that do not run ahead; the exact condition is `CloseRouting.CoveredIffClosesFit`.
- KlineBars.ImportIsDirect: for the coarser periods the difference is stated as the rows left out, not whether it shows; a row of the first minutes after the epoch that changes no price and adds no volume would not.
- Weak memory: every atomic access is taken to be sequentially consistent.
- The logger's start and stop, messages racing with `stop()`, wake-ups, file rotation, recent entries, flushing, and the truncation of long log texts.
- Mapping shared memory, and the `mapped_` guard of `ShmQueue`.
- The engine's command queue: it is fed by more than one thread, so the single-producer results do not apply to it.
- Files that cannot be opened and failing disks: an append is taken whole or not at all, and the readers' results for missing files or read errors do not occur.
- Floating-point rounding: prices, turnover and profits are reals; converting a value out of the 64-bit range is taken to give the indefinite integer.
- Signed overflow in the store's deltas is taken to be two's complement; adding up a bar's volume is not bounded to 32 bits.
- Varint groups are joined by addition, which is the code's `or` where the bits do not overlap (`BinaryIo.JoinFits`); running out of memory for a huge string length is not modelled.
- Calendar and time-zone conversion, the text of a bar's time, the parsing of CSV files; the daily bucket of a tick is given with the tick.
- `last_volume` and the trading day of an instrument are not part of the store and are not restored, as in the code.
- Recording on its own thread with a bounded queue; `local_recv_ns` is not recorded.
- Overflow of the tick cache's sequence number, and its other queries.
- The Sharpe ratio and the printing of the report; an open against a standing position is ignored by the ledger, as in the code.
- Positions' totals and average prices, trades without an id, clearing of the seen ids and of orders on a new session, the day roll: close routing keeps only the two kinds of position, the orders and the trade ids of one account, instrument and side. Cancelling the other half of a split is a request to the gateway; its effect arrives as an order report.
- All other risk checks and the gateway's answer are inputs.
- The strategies' own code: whether a handler takes a tick and whether it throws are inputs; the controller's lock is not modelled, operations are one at a time.
- Responses to requests never sent: query rows are taken to carry the id of a request that was sent. A row tagged 0 would be taken in while no query is pending.
- Throttling and error responses of queries, and the mapping of CTP fields.
- `env:` references in configuration values; the tables of section and key ranks are parameters, so nothing depends on them.
- Encryption, sockets, HTTP, the database, scripting, the gateways themselves.
- `JsonBuilder`, `DualMdGateway` and the resumption after a reconnect: their natural properties do not hold and nothing here depends on them.
