# ARIB STD-B25 descrambling and capture: a model with proofs

This project models the parts of an ISDB-T receiver program that turn raw USB
transfers into a clear transport stream, and proves what they keep and deliver:

- the PSI section parser (`src/arib25/ts_section_parser.c`): packets in, sections
  out, with reference-counted elements that move between a pool, a queue, the
  work slot and the caller (`SectionModel`, `SectionTheorems`, `LinkedLists`,
  `SectionOwnership`, `SectionParser`, `Crc32`), and what its callers do with the
  sections they fetch (`SectionUse`);
- the MULTI2 cipher (`src/arib25/multi2.c`), in place over buffers, with what it
  computes in arithmetic and in literal answers (`Multi2`, `Multi2Answers`);
- the B25 descrambler (`src/arib25/arib_std_b25.c`): the PID map with its
  decryptors and stream lists (`PidGraph`, `PidInvariant`, `EcmEntries`,
  `Bindings`, `FirstPmt`, `PidTable`, `Tables`, `TableTheorems`), what one packet
  does (`Core`, `EcmKeys`, `EndToEnd`, `Emms`, and from the parts of a packet on
  `Packets`), the packet loop over a sliding buffer
  (`Framing`, `Streams`, `Exits`, `WorkBuffers`), what a put does before it comes
  to that loop - detecting the packet distance, and looking ahead for a PAT, for
  PMTs and for ECMs (`UnitSize`, `Search`) - and whole puts (`Chunking`,
  `Descrambler`), what runs of them keep (`Tallies`, `Locks`, `GraphRuns`) and what
  they come to for a broadcast programme (`Broadcasts`, `Programmes`, `Failures`,
  `SampleRun`);
- the USB capture ring (`src/IoThread.cpp`) as steps of two threads and a device
  (`CaptureRing`, `RingInvariant`, `IoThread`);
- the civil date of a Modified Julian Date (`extract_mjd` in
  `src/arib25/b_cas_card.c`; `Mjd`).

How the pieces fit. Where the program changes objects in place there is a class
or a method with a loop, and its contract ties the new state to a function of the
old one: `SectionParser.TsSectionParser` to `SectionModel`, `PidTable.Table` to
`PidGraph`, `Descrambler.AribStdB25` to `Search.PutCall` and `Framing.Scan`,
`IoThread.TsIoThread` to `CaptureRing.Apply`. The theorems are about those
functions, over all inputs and all runs. What the smallest of them read and compute
is stated apart from them: packets from their parts (`Packets`), sections and tables
from their bytes (`SectionTheorems.Sendable`, `TableTheorems`), the ids of EMMs as
numbers in base 256 (`Emms`), the cipher in arithmetic and in literal answers
(`Multi2`, `Multi2Answers`). A proof hides the definitions it does not
need (`hide`), which keeps every member quick to verify.

The smart card is any function from the number of earlier calls and the data of
this one to a reply. Three fields of `Core.State` are the history of a run: the
ECMs the card was asked about, the EMMs it was given, and the tables that took
effect. Properties of the graph speak of runs in which no PID is used in two
roles; that is a condition on this history, not on the code. A run is any list of
puts (`Search.Puts`), each with any bytes, from a new descrambler or from any other
state that a theorem names, and goes on whatever way a put ended; `SampleRun` gives
four of them byte for byte: the card opens a programme, declines it, loses it with
its second ECM, or does not start for it.

What a new descrambler makes of a programme is the subject of
`Programmes.FirstByteToClear`: a stream that carries one programme, with its PAT,
PMT and ECM any number of times and in any order, clear and scrambled packets
between them, cut into puts in any way. Every packet comes out, clear and in its
place, those before the first ECM too, because all bytes are kept until the search
is over; or nothing comes out at all, and the condition says exactly when.

What the model brought to light, each with its exact condition:

- The search for PMTs waits for all programs of the PAT, or for one of their PMTs to
  come again; the search for ECMs likewise for all decryptors. Until then nothing
  comes out, and the card is not asked before the PMTs are there
  (`Programmes.FirstByteToClear`, with `Programmes.Reaches` and `Programmes.Enough`).
- A packet loop that is left early stops before its cursor moves on. So the last
  packet is in the output again when the loop runs next if and only if it was left
  for anything but a decryption error and the packet still passes as it is then
  (`Exits.LastPacketComesOutTwice`): a fetched PAT section, good or not, and every
  failure behind the append (`Exits.DispatchExits` lists them, each as a test of the
  packet and the state).
- A decryption error is final if nothing is to be searched for: no later put gets
  past the packet, whatever is put (`Exits.NothingComesAfterwards`). One ECM that the
  card fails on is enough, once it has opened a programme
  (`Failures.FailedEcmEndsTheProgramme`).
- The map entry of a program's ECM PID can be cleared while its decryptor stays
  in use (`EcmEntries.MajorEntryIsLost`; `EcmEntries.EntryIsLostForInstance` gives
  three PMTs that do it).
- A cipher object whose start failed at the card is kept, and no later ECM starts
  it (`EcmKeys.AnsweredEcmGivesKeys`); its decryptor is of use again only after
  the card has refused it and has accepted an EMM (`Locks.FailedStartLasts`). With
  the first ECM of a programme it does happen (`Failures.FailedStartIsReached`). The
  section of that ECM is the only one that is never given back (`SectionUse.ProcEcm`).
- The capture ring is not tested for room: marking a slot keeps the ring a queue
  if and only if fewer than 1019 submissions are outstanding, and else the reader
  finds nothing (`RingInvariant.LapLosesTheRing`). A reader that rests long enough
  brings it about (`RingInvariant.LapIsReached`).
- The section parser takes equal neighbours for repetitions
  (`SectionTheorems.CarriedSectionsComeBack`). Handing back its last section
  without having it leaves that section with no count
  (`SectionOwnership.TakenBackKeeps`).
- `extract_mjd` is wrong on exactly one day in 400 years (`Mjd.ExtractIsCalendar`),
  and a power-on control period that crosses MJD 51604 has the wrong length
  (`Mjd.PeriodHasItsLength`).

`dafny verify dfyconfig.toml` checks the whole project.

## Model

| member | source | states |
|---|---|---|
| Crc32.Crc32 | src/arib25/ts_section_parser.c:705-801 | the table-driven loop computes the CRC function over all bytes given |
| Crc32.TableIsEightClocks | src/arib25/ts_section_parser.c:710-790 | each of the 256 table entries is what eight clocks of the shift register with polynomial 0x04C11DB7 leave |
| Crc32.StepIsEightShifts | src/arib25/ts_section_parser.c:795-798 | one turn of the loop is eight shifts of the bit-serial register fed with the byte |
| Crc32.CrcIsShiftRegister | src/arib25/ts_section_parser.c:705-801 | on every input the result is that of the bit-serial register of Annex A of ISO/IEC 13818-1 |
| Crc32.CrcIsRegister | src/arib25/ts_section_parser.c:705-801 | the CRC of a section starts from all bits set, in the polynomial 0x04C11DB7 |
| Crc32.ZeroMeansTrailerMatches | src/arib25/ts_section_parser.c:394-397 | on four bytes or more the result is 0 if and only if the last four are the big-endian CRC of the rest |
| Crc32.CrcInjectiveInState | src/arib25/ts_section_parser.c:792-798 | equal bytes keep different states different |
| Crc32.BurstDetected | src/arib25/ts_section_parser.c:705-801 | two strings that differ only inside four consecutive bytes have different CRCs |
| Multi2.Pi2Arithmetic | src/arib25/multi2.c:491-501 | for every block and key: core_pi2 in sums, products and quotients of 32-bit words, without a rotation |
| Multi2.Pi3Arithmetic | src/arib25/multi2.c:503-516 | the same of core_pi3, all three rotations and both key words |
| Multi2.Pi4Arithmetic | src/arib25/multi2.c:518-527 | the same of core_pi4 |
| Multi2Answers.Pi2Answer | src/arib25/multi2.c:491-501 | core_pi2 of one block, as literal words |
| Multi2Answers.Pi3Answer | src/arib25/multi2.c:503-516 | core_pi3 of one block, as literal words |
| Multi2Answers.OddScheduleAnswer | src/arib25/multi2.c:414-443 | the eight work words of one system key and scramble key, as literals |
| Multi2Answers.CipherAnswer | src/arib25/multi2.c:184-326 | eleven bytes enciphered under a system key, an initial value and a scramble key given as bytes: for every selector the eleven bytes that come out, as literals |
| Multi2Answers.ChainedBlocks | src/arib25/multi2.c:297-323 | for every string and block number: the block is enciphered after the cipher block before it was added; to the last bytes the enciphered last cipher block is added |
| Multi2.PiInvolutions | src/arib25/multi2.c:485-528 | each of the four round functions undoes itself |
| Multi2.CoreEncrypt | src/arib25/multi2.c:445-463 | the loop applies the encryption rounds function, for any number of rounds |
| Multi2.CoreDecrypt | src/arib25/multi2.c:465-483 | the loop applies the decryption rounds function, for any number of rounds |
| Multi2.RoundsInverse | src/arib25/multi2.c:445-483 | decryption undoes encryption and the reverse, for every work key, block and round count |
| Multi2.ScheduleIsOneRound | src/arib25/multi2.c:414-443 | the key schedule is one encryption round under the system key, found in words 6 and 7 of the work key |
| Multi2.ScheduleInjective | src/arib25/multi2.c:414-443 | under one system key, different scramble keys have different work keys |
| Multi2.DecryptUndoesEncrypt | src/arib25/multi2.c:263-391 | chained decryption restores what chained encryption made, for every length including short tails |
| Multi2.EncryptUndoesDecrypt | src/arib25/multi2.c:263-391 | chained encryption restores what chained decryption made, for every length including short tails |
| Multi2.BufferRoundTrip | src/arib25/multi2.c:263-391 | both round trips for every key state, selector and length, including the refused ones |
| Multi2.ReadyMeansAllKeysSet | src/arib25/multi2.c:273-289 | a buffer is accepted if and only if it is not empty and all three keys were set |
| Multi2.RefusalCode | src/arib25/multi2.c:273-287 | the codes -1, -3, -2 and -4 for an empty buffer and for each key, in the order they are looked for |
| Multi2.EncryptBuffer | src/arib25/multi2.c:263-326 | in place: the bytes named become their encryption, all others stay, and the code tells which key is missing |
| Multi2.DecryptBuffer | src/arib25/multi2.c:328-391 | in place: the bytes named become their decryption, all others stay, and the code tells which key is missing |
| Multi2.EncryptChain | src/arib25/multi2.c:297-323 | the chaining loop over a buffer equals the chaining function on its bytes |
| Multi2.DecryptChain | src/arib25/multi2.c:360-388 | the chaining loop over a buffer equals the chaining function on its bytes |
| Multi2.Cipher.SetScrambleKey | src/arib25/multi2.c:220-244 | both work keys come from the halves of the key under the present system key, and the key bit is set |
| Multi2.Cipher.ClearScrambleKey | src/arib25/multi2.c:246-261 | both work keys are gone and only the scramble key bit is cleared |
| Multi2.Cipher.EncryptThenDecrypt | src/arib25/multi2.c:263-391 | encrypting a buffer and decrypting it leaves it as it was, whatever keys are set |
| SectionTheorems.PutIsCut | src/arib25/ts_section_parser.c:155-177 | one call cuts the payload into whole and broken pieces, takes these one by one, and keeps the unfinished rest |
| SectionTheorems.RunDelivers | src/arib25/ts_section_parser.c:155-199 | for every run, sections fetched and then those queued are the good ones cut from the packets, in order, without immediate repetitions; the three counters are exact |
| SectionTheorems.HeaderIsRead | src/arib25/ts_section_parser.c:547-586 | every field of a long header is read as it was written, the 12-bit length among them |
| SectionTheorems.SendableIsComplete | src/arib25/ts_section_parser.c:418-447 | a section whose bytes say its length, and that ends in its CRC if it is long, is exactly what the parser takes for complete, sound and not stuffing |
| SectionTheorems.OnlyRightSections | src/arib25/ts_section_parser.c:394-397 | in every run, whatever is fetched or queued is as long as its length field says, and a long section ends in the CRC of its other bytes |
| SectionTheorems.CutCarries | src/arib25/ts_section_parser.c:290-409 | packets that carry sections as section 2.4.4 of ISO/IEC 13818-1 allows are cut into exactly these sections |
| SectionTheorems.CarriedSectionsComeBack | src/arib25/ts_section_parser.c:155-199 | any list of valid sections cut into packets at any points comes back byte for byte, if and only if no two neighbours are equal |
| SectionTheorems.EverythingCanBeSent | src/arib25/ts_section_parser.c:290-409 | for any PID and payload size every list of sections has packets that carry it, so the theorem above speaks of all lists |
| SectionTheorems.PacketisedSectionsComeBack | src/arib25/ts_section_parser.c:155-199 | packetising any valid sections and parsing the packets gives them back, if and only if no two neighbours are equal |
| SectionTheorems.StartsAreComplete | src/arib25/ts_section_parser.c:379-406 | every piece cut behind a pointer_field is a whole section of three bytes or more, so the inner loop always moves on |
| SectionOwnership.FilledKeeps | src/arib25/ts_section_parser.c:418-447 | filling the element at hand keeps the ownership invariant: no queued, lent or last section changes |
| SectionOwnership.CancelledKeeps | src/arib25/ts_section_parser.c:488-510 | giving up an element keeps the invariant, and its count is 0 |
| SectionOwnership.CommittedKeeps | src/arib25/ts_section_parser.c:512-523 | accepting a section keeps the invariant: the old last one loses a count, the new one has two |
| SectionOwnership.ReusedKeeps | src/arib25/ts_section_parser.c:525-545 | taking an element with count 0 from the pool keeps the invariant: it is neither the last nor lent, and nothing held changes |
| SectionOwnership.CreatedKeeps | src/arib25/ts_section_parser.c:591-607 | making an element when every pooled one has a count keeps the invariant and the bound on elements |
| SectionOwnership.FetchedKeeps | src/arib25/ts_section_parser.c:179-199 | a fetched section moves to the pool, lent, and keeps its bytes |
| SectionOwnership.ReturnedKeeps | src/arib25/ts_section_parser.c:201-224 | a returned section loses one count and is no longer lent |
| SectionOwnership.TakenBackKeeps | src/arib25/ts_section_parser.c:201-224 | whatever section is handed back, the invariant holds afterwards if and only if that is not the last section without being lent |
| SectionOwnership.LentIsTakenBack | src/arib25/ts_section_parser.c:201-224 | a section that the caller has is found by its data pointer and is no longer lent |
| SectionOwnership.ElementsAreBounded | src/arib25/ts_section_parser.c:525-545 | never more elements exist than the peak of queued and lent sections and two |
| SectionParser.AppendSectionData | src/arib25/ts_section_parser.c:418-447 | bytes are appended in place up to the buffer size, a complete section is cut to its length, and no byte it needs is lost |
| SectionParser.TsSectionParser.Put | src/arib25/ts_section_parser.c:155-177 | on the heap: the parser's state becomes that of the pure function, the ownership invariant holds, the call is recorded |
| SectionParser.TsSectionParser.PutIncludeSectionStart | src/arib25/ts_section_parser.c:324-409 | a payload with pointer_field: the rest of a section, an unfinished one given up, then whole sections up to stuffing |
| SectionParser.TsSectionParser.PutExcludeSectionStart | src/arib25/ts_section_parser.c:290-322 | a payload without a start continues the section under way or is dropped |
| SectionParser.TsSectionParser.Commit | src/arib25/ts_section_parser.c:512-523 | the section joins the queue's end and becomes the last, with counts moved |
| SectionParser.TsSectionParser.Cancel | src/arib25/ts_section_parser.c:495-510 | the element goes back to the pool, blank, and one counter is raised |
| SectionParser.TsSectionParser.QueryWorkElem | src/arib25/ts_section_parser.c:525-545 | an element with no count is taken from the pool, or a new one made |
| SectionParser.TsSectionParser.Get | src/arib25/ts_section_parser.c:179-199 | the oldest queued section, byte for byte, or the code for an empty queue with nothing changed |
| SectionParser.TsSectionParser.Ret | src/arib25/ts_section_parser.c:201-224 | for any section, known or not: the pool's last element with its data pointer loses a count if it has one; the parser stays sound except in the one case above |
| SectionParser.TsSectionParser.Reset | src/arib25/ts_section_parser.c:141-153 | all elements are freed and the parser is as new |
| SectionParser.TsSectionParser.Delivers | src/arib25/ts_section_parser.c:155-199 | for every sequence of calls on the object, what was fetched and what is queued is the pure function of its packets |
| SectionUse.ProcEcm | src/arib25/arib_std_b25.c:1675-1765 | on a parser object: the function of the model, and the section is given back if and only if the code is not that of a failed start; then one more is lent for good |
| SectionUse.ProcPat | src/arib25/arib_std_b25.c:1130-1217 | the section is given back in every case |
| SectionUse.ProcPmt | src/arib25/arib_std_b25.c:1374-1486 | the section is given back in every case |
| SectionUse.ProcCat | src/arib25/arib_std_b25.c:2012-2065 | the section is given back in every case |
| SectionUse.ProcEmm | src/arib25/arib_std_b25.c:2067-2151 | every section of the queue that is looked at is given back, also the one it stops at |
| LinkedLists.List.PutTail | src/arib25/ts_section_parser.c:636-656 | the list is the old one and the element, correctly linked both ways, with an exact count |
| LinkedLists.List.GetHead | src/arib25/ts_section_parser.c:609-634 | the first element, detached, and the rest; null if and only if the list is empty |
| LinkedLists.List.Unlink | src/arib25/ts_section_parser.c:658-682 | the element at any place is taken out and the list stays linked and counted |
| WorkBuffers.WorkBuffer.Reserve | src/arib25/arib_std_b25.c:2428-2468 | growth at least doubles the pool, keeps the bytes between head and tail, and copies just these |
| WorkBuffers.WorkBuffer.Append | src/arib25/arib_std_b25.c:2470-2491 | appending is concatenation, whatever growth it takes |
| WorkBuffers.WorkBuffer.Consume | src/arib25/arib_std_b25.c:1997-2007 | bytes before the cursor are gone, those behind it keep their order, moved or not |
| WorkBuffers.AppendAll | src/arib25/arib_std_b25.c:2428-2491 | appends from empty give the concatenation, and growth copied fewer than twice the bytes appended |
| UnitSize.CountIntervals | src/arib25/arib_std_b25.c:1015-1031 | every counter is the exact number of pairs of 0x47 bytes at its distance |
| UnitSize.SelectUnitSize | src/arib25/arib_std_b25.c:999-1052 | the smallest most frequent distance, if it occurs eight times and covers the buffer, and nothing otherwise |
| UnitSize.SyncsGiveUnitSize | src/arib25/arib_std_b25.c:1033-1049 | with count sync bytes u apart and no others, u is found if and only if count is 9 or more and the length at most (count+2)*u |
| UnitSize.StraySyncsDoNotMatter | src/arib25/arib_std_b25.c:1015-1049 | whatever else is in the packets: their distance wins if there are nine or more in at most (count+2)*u bytes and less than half as many stray 0x47 bytes as distances |
| UnitSize.DetectUnitSize | src/arib25/arib_std_b25.c:999-1052 | the method's answer on such a buffer, in both cases |
| Tables.FindCaDescriptorPid | src/arib25/arib_std_b25.c:1489-1514 | the loop finds the PID of the first matching CA descriptor |
| TableTheorems.FindCaFindsNamed | src/arib25/arib_std_b25.c:1489-1514 | on any well-formed list of descriptors the result is the PID that the first CA descriptor of the system names, or 0 |
| TableTheorems.PatIsReadBack | src/arib25/arib_std_b25.c:1179-1199 | the entries of a written PAT are read back in order |
| TableTheorems.PmtIsReadBack | src/arib25/arib_std_b25.c:1384-1433 | a written PMT is read back: the program's ECM PID and, per stream, type, PID and own ECM PID |
| TableTheorems.BodyIsInside | src/arib25/arib_std_b25.c:1159-1160 | the data of a section are its bytes behind a header of 8 or 3 and before the last 4 |
| TableTheorems.LongDescriptors | src/arib25/arib_std_b25.c:1384-1393 | a PMT is broken if and only if its program descriptors, by their length of 12 bits, reach into its CRC |
| TableTheorems.CatIsReadBack | src/arib25/arib_std_b25.c:2034-2034 | from the bytes of a CAT: the PID that the first CA descriptor of the system names |
| TableTheorems.ReadPatEntries | src/arib25/arib_std_b25.c:1182-1199 | the loop over a PAT section reads what the function reads |
| TableTheorems.ReadStreamLoop | src/arib25/arib_std_b25.c:1426-1433 | the loop over the streams of a PMT section reads what the function reads, or finds it overrun |
| PidInvariant.RemoveKeeps | src/arib25/arib_std_b25.c:2254-2293 | removing an unused decryptor keeps all counts exact and leaves no pointer to it |
| PidInvariant.UnrefKeeps | src/arib25/arib_std_b25.c:2182-2200 | one use less of a PID keeps both kinds of counts exact; the last use may take the decryptor along |
| PidInvariant.SetDecryptorKeeps | src/arib25/arib_std_b25.c:2202-2252 | the decryptor of an ECM PID exists afterwards, and only it may be without a stream |
| PidInvariant.BindKeeps | src/arib25/arib_std_b25.c:2306-2328 | rebinding a stream moves one count from the old decryptor to the new, and an unused old one goes |
| PidInvariant.AddEcmKeeps | src/arib25/arib_std_b25.c:1516-1541 | an ECM PID is listed and counted once per program |
| PidInvariant.ApplyPmtKeeps | src/arib25/arib_std_b25.c:1395-1478 | a PMT section keeps every count exact, and the streams of the section before the last lose theirs |
| PidInvariant.PatKeeps | src/arib25/arib_std_b25.c:1169-1206 | a PAT section keeps the invariant and starts over with no decryptor |
| PidInvariant.CatKeeps | src/arib25/arib_std_b25.c:2034-2053 | a CAT section keeps the invariant |
| PidInvariant.ReleasedLeavesNothing | src/arib25/arib_std_b25.c:2153-2180 | when all programs are released the decryptor list is empty |
| PidInvariant.RunKeeps | src/arib25/arib_std_b25.c:1349-1487 | all of this over every sequence of PAT, PMT and CAT sections whose PIDs keep to their roles |
| EcmEntries.UnrefAllLead | src/arib25/arib_std_b25.c:2182-2200 | giving up streams clears the entry of an ECM PID if and only if all its uses are among them |
| EcmEntries.MajorEntryIsLost | src/arib25/arib_std_b25.c:1395-1478 | after any PMT whose decryptor is in use, the program's ECM PID leads to it if and only if the PID was used outside the streams given up |
| EcmEntries.EntryIsLostForInstance | src/arib25/arib_std_b25.c:1395-1478 | a PMT with ECM PID 0x101, one without, and the first again: the stream is bound to a decryptor that gets no ECMs |
| Bindings.AddStreamBinds | src/arib25/arib_std_b25.c:1426-1470 | one turn of the stream loop lists the stream, binds it to its own decryptor, to none, or to the program's, and leaves every other stream's entry alone |
| Bindings.PmtBindsStreams | src/arib25/arib_std_b25.c:1395-1478 | after a PMT every announced stream is listed and bound as the last entry for its PID says |
| FirstPmt.PmtLeavesAlone | src/arib25/arib_std_b25.c:1395-1478 | a PMT leaves the entry of a PID alone that it does not name, gives up no stream of, and no decryptor reads ECMs from |
| FirstPmt.PmtLed | src/arib25/arib_std_b25.c:1395-1478 | while no stream is given up, every decryptor is led to by its ECM PID afterwards |
| FirstPmt.FirstPmtBuilds | src/arib25/arib_std_b25.c:1395-1478 | the first PMT after a PAT: a decryptor as new for the program, with every stream without an ECM PID of its own bound to it; it is the only one if and only if no stream has another ECM PID |
| Bindings.ProgramsAreEntries | src/arib25/arib_std_b25.c:1183-1199 | the programs are exactly the entries with a number other than 0, without streams |
| Bindings.PatEntersPrograms | src/arib25/arib_std_b25.c:1176-1206 | after a PAT a PID is read as a PMT if and only if a program has it; all else is cleared |
| Bindings.CatEntersEmm | src/arib25/arib_std_b25.c:2034-2053 | after a CAT the EMM PID is read for EMMs, even if it was a bound stream; the entries that changed, and the decryptor that goes or loses a use |
| Bindings.CatTakesItsStream | src/arib25/arib_std_b25.c:2034-2053 | a decryptor with a right count stays after that if and only if another stream is bound to it |
| PidTable.Table.RemoveDecryptor | src/arib25/arib_std_b25.c:2254-2293 | on the heap: the node leaves the list, the map entry that points at it is cleared, nothing else changes |
| PidTable.Table.UnrefStream | src/arib25/arib_std_b25.c:2182-2200 | on the heap: exactly the function of the value graph, for an entry that does not dangle |
| PidTable.Table.SetDecryptor | src/arib25/arib_std_b25.c:2202-2252 | on the heap: the node found or made, at the list's end, and the entry pointing at it |
| PidTable.Table.BindStreamDecryptor | src/arib25/arib_std_b25.c:2306-2328 | on the heap: exactly the function of the value graph |
| PidTable.Table.UnlockAllDecryptor | src/arib25/arib_std_b25.c:2330-2339 | the walk over the list unlocks every decryptor and changes nothing else |
| PidTable.Table.AddEcmStream | src/arib25/arib_std_b25.c:1516-1541 | the PID is appended and counted unless it is listed |
| PidTable.Table.ProcPmt | src/arib25/arib_std_b25.c:1395-1478 | on the heap, from a sound graph: map, list and both stream lists become what the value function says, with no freed node looked at |
| PidTable.Table.ReleaseProgram | src/arib25/arib_std_b25.c:2153-2180 | on the heap, from a sound graph: both stream lists are given up and the PMT entry cleared |
| PidTable.Table.ProcPat | src/arib25/arib_std_b25.c:1169-1206 | on the heap, from a sound graph: old programs released, the map cleared and refilled, new program objects in the table's order |
| PidTable.Table.ProcCat | src/arib25/arib_std_b25.c:2034-2053 | on the heap: the EMM and CAT entries, and a decryptor that loses its stream |
| EcmKeys.AnsweredEcmGivesKeys | src/arib25/arib_std_b25.c:1716-1754 | after an answered ECM the work keys are those of the answer; packets can be descrambled if and only if the cipher was started, before or now |
| EcmKeys.EcmOutcome | src/arib25/arib_std_b25.c:1700-1754 | after any ECM section, exactly when the decryptor can descramble and exactly when it is locked once more |
| EcmKeys.EcmReport | src/arib25/arib_std_b25.c:1700-1738 | after any ECM section: the code, the count of ECMs not paid for, the return code kept, and whether the card was asked, with the three return codes of a paid one |
| Packets.PartsAreRead | src/arib25/arib_std_b25.c:2510-2520 | a packet put together from its fields, with an adaptation field of any length or none: every field is read as written, and the payload from where it starts |
| Packets.BrokenIsTooLong | src/arib25/arib_std_b25.c:1824-1833 | broken is exactly a packet whose adaptation field is longer than 183, or is 183 with a payload marked |
| Packets.PacketComesOutClear | src/arib25/arib_std_b25.c:1835-1865 | from its parts, of which the payload alone is enciphered: it comes out with the clear payload and all other parts as they were if all three keys are set, and stops the loop otherwise |
| Packets.AnswerOpensPackets | src/arib25/arib_std_b25.c:1716-1865 | from the sixteen key bytes of the card to the packet: enciphered under the second eight for selector 2 and the first eight for 1 and 3, it comes out clear |
| Packets.UnknownPid | src/arib25/arib_std_b25.c:1835-1848 | a scrambled packet of a PID nothing is known about comes out clear if and only if there is exactly one decryptor |
| Packets.UnservedStaysScrambled | src/arib25/arib_std_b25.c:1835-1858 | a scrambled packet without a decryptor comes out as it is on air |
| Packets.ErrorsAndNulls | src/arib25/arib_std_b25.c:1810-1822 | a packet with a transmission error comes out unparsed, a null packet is dropped if that is asked for |
| Packets.BrokenMovesOn | src/arib25/arib_std_b25.c:1829-1833 | after a broken packet the loop goes on with the next byte |
| Packets.CatFromParts | src/arib25/arib_std_b25.c:1941-1966 | a CAT behind an adaptation field of any length takes effect |
| Packets.PmtFromParts | src/arib25/arib_std_b25.c:1891-1914 | a PMT behind an adaptation field of any length takes effect |
| Packets.EcmFromParts | src/arib25/arib_std_b25.c:1867-1890 | an ECM behind an adaptation field of any length reaches the card |
| EndToEnd.PatTakesEffect | src/arib25/arib_std_b25.c:1968-1990 | a PAT in one packet leaves the loop with code 0, its packet appended and its programs in place of the old ones |
| EndToEnd.PatIsRepeated | src/arib25/arib_std_b25.c:1968-1990 | the same packet again is dropped by the section parser, and the loop goes on |
| EndToEnd.PmtTakesEffect | src/arib25/arib_std_b25.c:1891-1914 | a PMT in one packet takes effect with the ECM PIDs and streams it was written with |
| EndToEnd.PmtIsRepeated | src/arib25/arib_std_b25.c:1891-1914 | the same PMT again is dropped by the section parser of its program, and the loop goes on |
| EndToEnd.EcmIsProcessed | src/arib25/arib_std_b25.c:1867-1890 | an ECM in one packet reaches the card through the parser of its decryptor |
| EndToEnd.EcmIsRepeated | src/arib25/arib_std_b25.c:1867-1890 | the same ECM again does not reach the card |
| EndToEnd.NoCardForEcms | src/arib25/arib_std_b25.c:1690-1693 | without a card an ECM leaves the loop with -7 |
| EndToEnd.CatTakesEffect | src/arib25/arib_std_b25.c:2029-2053 | a section of table 0x01 on PID 1: the PID that its descriptors name is read for EMMs afterwards, its packet is appended, the code is 0 |
| EndToEnd.OtherTableIsNoCat | src/arib25/arib_std_b25.c:2029-2032 | a section of any other table on PID 1 changes nothing but its parser and counter, with code 2 |
| EndToEnd.OtherTableIsNoPat | src/arib25/arib_std_b25.c:1154-1157 | the same on PID 0, but that the loop is left |
| EndToEnd.HeaderIsNoPat | src/arib25/arib_std_b25.c:1159-1167 | a PAT of a header alone leaves the loop with -2, and the programs stay |
| EndToEnd.OtherTableIsNoPmt | src/arib25/arib_std_b25.c:1379-1382 | the same on the PID of a PMT, with code 0 |
| EndToEnd.BrokenPmtIsDropped | src/arib25/arib_std_b25.c:1384-1393 | a PMT whose program descriptors reach into its CRC takes no effect, with code 0 |
| EndToEnd.OtherTableIsNoEcm | src/arib25/arib_std_b25.c:1700-1703 | the same on the PID of an ECM: the card is not asked |
| Emms.EmmsAreTakenApart | src/arib25/arib_std_b25.c:2104-2129 | the EMMs of a section are handed over whole, in order, until the card rejects one, and what is left at its end is not |
| Emms.DueAreForTheCard | src/arib25/arib_std_b25.c:2117-2118 | those handed over are exactly the EMMs whose first six bytes, most significant first, are an id of the card |
| Emms.EmmsReachTheCard | src/arib25/arib_std_b25.c:2067-2151 | from a packet with a section of table 0x84: each EMM for the card is passed to it and no other one, and as soon as it has accepted one no decryptor is locked |
| Emms.NothingReachesTheCard | src/arib25/arib_std_b25.c:2096-2102 | with EMMs switched off, for table 0x85 and for other tables the card gets nothing |
| Emms.NoCardForEmms | src/arib25/arib_std_b25.c:2083-2086 | without a card an EMM section leaves the loop with -7 |
| EndToEnd.StreamComesOutClear | src/arib25/arib_std_b25.c:1767-2010 | a stream of any packets that are clear, or scrambled under the keys of the decryptor their PID is bound to: exactly the clear packets come out, in order, from their places |
| EndToEnd.PaidStreamComesOutClear | src/arib25/arib_std_b25.c:1767-2010 | after an ECM that the card answers for a new decryptor, the ECM packet and then exactly the clear packets of any stream scrambled under the keys of that answer |
| Broadcasts.PatIsSeen | src/arib25/arib_std_b25.c:1054-1128 | a PAT packet ends the search for one, and its programs are entered |
| Broadcasts.PmtIsSeen | src/arib25/arib_std_b25.c:1270-1331 | the first PMT of a program takes effect in the search, which is over if and only if there is no other program |
| Broadcasts.PmtIsSeenAgain | src/arib25/arib_std_b25.c:1333-1337 | when it comes again the search is over, whatever other programs there are |
| Broadcasts.EcmIsSeen | src/arib25/arib_std_b25.c:1604-1659 | the first ECM goes to the card in the search, which is over if and only if the card opened it or declined it and no other decryptor waits |
| Broadcasts.EcmIsSeenAgain | src/arib25/arib_std_b25.c:1659-1664 | when it comes again the search is over, unless the card answered the first with a positive status: then it never is |
| Broadcasts.PacketPasses | src/arib25/arib_std_b25.c:1796-1995 | once the tables are known and the card was asked, every packet of the programme comes out: tables and ECMs as they are, a scrambled packet clear or, for a card that declined, as it is on air |
| Programmes.AdmitsIt | src/arib25/arib_std_b25.c:802-851 | for any stream of one programme the three searches together hold back or let through exactly on the condition stated, and ask the card once or not at all |
| Programmes.PutsOfAll | src/arib25/arib_std_b25.c:776-854 | for a card that pays or declines, and any pieces: everything comes out as that card has it, or nothing and all bytes are kept |
| Programmes.FirstByteToClear | src/arib25/arib_std_b25.c:776-854 | a new descrambler and a card that pays, from the first byte, in any pieces: every packet comes out clear and in its place if and only if the PAT is there, the PMT (twice if there are other programs), the ECM (twice if there are other ECM PIDs) and the card starts with a status of at most 1; otherwise nothing does |
| Programmes.DeclinedProgrammeIsLocked | src/arib25/arib_std_b25.c:776-854 | the same for a card that declines: on the same condition every packet comes out as it is on air, and every stream without an ECM PID of its own is bound to one decryptor, which is locked |
| Programmes.ReturnCodeDecides | src/arib25/arib_std_b25.c:1725-1738 | the return code of the card decides: with 0x0800, 0x0400 or 0x0200 the programme comes out clear, with any other one as it is on air |
| Failures.FailedEcmEndsTheProgramme | src/arib25/arib_std_b25.c:1716-1723 | a programme that is opened, another ECM that the card fails on, and a scrambled packet: the ECM packet comes out twice, the next put is left with a decryption error, and after that nothing comes out, whatever is put |
| Failures.FailedStartIsReached | src/arib25/arib_std_b25.c:1740-1749 | a card that answers the first ECM of any programme but does not start: the put that brings it is left with that error, nothing comes out, and the decryptor has no keys before the card has refused it and accepted an EMM |
| SampleRun.SomeRunEndsLocked | src/arib25/arib_std_b25.c:1725-1738 | a put, given byte for byte, after which a stream is bound to a locked decryptor and nothing is searched for |
| SampleRun.SomeRunComesOutClear | src/arib25/arib_std_b25.c:776-854 | the same bytes with a scrambled packet and a card that pays: it comes out as it was before scrambling, the fourth of all packets |
| SampleRun.SomeRunLosesItsKey | src/arib25/arib_std_b25.c:1716-1723 | three puts, the last of which is left with a decryption error for good |
| SampleRun.SomeRunNeverStarts | src/arib25/arib_std_b25.c:1740-1749 | a put that leaves a decryptor with a cipher that was never started |
| Tallies.ApplyBeside | src/arib25/arib_std_b25.c:1349-1487 | no table changes a decryptor's lock, keys or ECM PID, none but a PAT a packet counter, and decryptor numbers are not used again |
| Tallies.ApplyLeads | src/arib25/arib_std_b25.c:1194-1196 | whatever the tables, a PMT entry leads to a program of that PMT PID |
| Framing.Resync | src/arib25/arib_std_b25.c:2538-2560 | the first place with eight sync bytes a unit apart and the eighth unit complete, or proof that there is none |
| Framing.FoundBehindGarbage | src/arib25/arib_std_b25.c:2538-2560 | behind bytes without 0x47 the first packet is found if and only if eight whole units follow that start with one |
| Framing.CursorExtends | src/arib25/arib_std_b25.c:1796-1804 | the next packet is found at the same place whatever bytes follow later |
| Framing.ScanInTwo | src/arib25/arib_std_b25.c:1767-2010 | processing in two calls gives the same state, output and kept bytes as in one, for every split, if the first is not left early; the last code that any of the calls had is the same too |
| Framing.ChunkingDoesNotMatter | src/arib25/arib_std_b25.c:1767-2010 | the same for any number of pieces, empty ones included, from any state with any bytes in hand, such as after an early exit |
| Chunking.SweepExtends | src/arib25/arib_std_b25.c:1573-1673 | a search goes on over more bytes where it stopped for want of them, and is over when a packet ended it |
| Chunking.AdmitExtends | src/arib25/arib_std_b25.c:802-851 | so do the three searches together: whatever they let through stays through, and whatever they hold back goes on |
| Chunking.HeldBack | src/arib25/arib_std_b25.c:802-851 | a put is held back by an error in a packet or because something is missing; the code is 0, or -4 from 16 million bytes on without a PAT, -5 or -6 from 32 million on without the PMTs or the ECMs |
| Chunking.HeldPut | src/arib25/arib_std_b25.c:776-854 | such a put keeps every byte and gives that code, or -3 while the packet distance is unknown |
| Chunking.PutInTwo | src/arib25/arib_std_b25.c:776-854 | two puts come to the same session and output as one with both pieces, unless the first ends a search with a packet and without success, leaves the loop early, or leaves something to be searched for again |
| Chunking.PutsTogether | src/arib25/arib_std_b25.c:776-854 | the same for any number of pieces |
| Chunking.PutsFromTheStart | src/arib25/arib_std_b25.c:776-854 | a new descrambler, which finds the packet distance in one of the puts, ends as if it had known it and had been given everything at once |
| Streams.HandleFacts | src/arib25/arib_std_b25.c:1806-1994 | which packets are skipped, stripped, appended or held, with unchanged header and exactly one counter raised |
| Streams.OutputShape | src/arib25/arib_std_b25.c:1784-2007 | whole packets with a sync byte from places a unit or more apart in the bytes consumed; no stripped packet; the bytes kept are the end of those given |
| Streams.PacketsAreCounted | src/arib25/arib_std_b25.c:1835-1865 | per PID, error-free packets appended equal the increase of the counters, and those still scrambled are the undecrypted ones |
| Streams.NothingIsLost | src/arib25/arib_std_b25.c:1796-1995 | a stream in step comes out packet for packet, with at most one unit kept, unless the loop is left early |
| Streams.DescrambleRestores | src/arib25/arib_std_b25.c:1835-1860 | a scrambled packet of a bound PID becomes the clear one exactly if all three keys are set; otherwise a decryption error, nothing changed |
| Streams.ScrambledPacketComesOutClear | src/arib25/arib_std_b25.c:1835-1865 | for one packet: the loop appends it as it was before scrambling, header and adaptation field included |
| Exits.LeftPacketComesAgain | src/arib25/arib_std_b25.c:1862-1991 | a packet that was appended when the loop was left is let through unchanged when it is handled again |
| Exits.LastPacketComesOutTwice | src/arib25/arib_std_b25.c:1862-2007 | for every run of the loop and every state and bytes it runs on with: the next run starts with the last packet of the first if and only if that was left early for anything but a decryption error and the packet passes in the state of the second |
| Exits.LastPacketPasses | src/arib25/arib_std_b25.c:1862-2007 | with nothing done in between it passes |
| Exits.PutRefuses | src/arib25/ts_section_parser.c:155-177 | a section parser gives an error code if and only if the payload is empty or of another PID than its own |
| Exits.RefusedWith | src/arib25/ts_section_parser.c:155-177 | with -1 or -3, and nothing changed |
| Exits.RefusedPayload | src/arib25/arib_std_b25.c:1867-1985 | a payload that its parser refuses leaves the loop with -13, -12, -15, -14 or -11, after the table of its PID |
| Exits.EcmSectionFails | src/arib25/arib_std_b25.c:1700-1754 | when an ECM section ends in an error: the card fails on it, or on the start of a new cipher |
| Exits.ProcEmmFails | src/arib25/arib_std_b25.c:2088-2140 | when the queued EMM sections end in an error: a section too short for a header, or an EMM among those for the card that it rejects |
| Exits.DispatchExits | src/arib25/arib_std_b25.c:1867-1991 | a packet's payload leaves the loop if and only if one of the reasons is there that can be tested beforehand: a refused payload, a missing target, no card, a failing card, a short or overrun section, any PAT section |
| Exits.HandleStops | src/arib25/arib_std_b25.c:1810-1991 | the loop is left without the packet if and only if it cannot be deciphered, and with it if and only if its payload leaves the loop |
| Exits.LoopStaysStuck | src/arib25/arib_std_b25.c:1847-1852 | once the loop was left with a decryption error it gets no further, however often it is run |
| Exits.NothingComesAfterwards | src/arib25/arib_std_b25.c:802-854 | after a put with a decryption error, when nothing is searched for, every later put appends nothing, consumes nothing and changes nothing |
| Exits.AnsweredEcmLiftsIt | src/arib25/arib_std_b25.c:1740-1754 | an answered ECM for the decryptor would lift it, if its cipher was started; only a search can still come to one |
| Exits.FailedEcmStopsTheStream | src/arib25/arib_std_b25.c:1716-1723 | one ECM that the card fails on, for a decryptor with a cipher, and the next scrambled packet bound to it stops the stream for good |
| Locks.AcceptedEmmUnlocksAll | src/arib25/arib_std_b25.c:2117-2126 | the packet with which the card accepts an EMM leaves no decryptor locked |
| Locks.LocksStay | src/arib25/arib_std_b25.c:776-854 | any run of puts, from any state in which locked decryptors have no cipher, ends in one |
| Locks.LockedUntilAnEmmIsAccepted | src/arib25/arib_std_b25.c:1705-1738 | from any such state, over any puts, searches and early exits included: a decryptor that is locked has no cipher and asks the card for nothing afterwards, unless the card accepted an EMM for one of its ids |
| Locks.FailedStartLasts | src/arib25/arib_std_b25.c:1740-1754 | from any such state, over any puts: a decryptor whose cipher the card failed to start can descramble later only if it was refused and an EMM was accepted in between |
| Locks.LockedHasNoCipher | src/arib25/arib_std_b25.c:1725-1738 | in every state that any puts can bring a new descrambler to, a locked decryptor owns no cipher |
| GraphRuns.GraphStaysSound | src/arib25/arib_std_b25.c:776-854 | from any state with a sound graph, for any bytes in any puts, however each ends: if the tables that took effect since, in a search or in the loop, keep PIDs to their roles, all counts are exact and nothing is left after release |
| GraphRuns.TargetsAreThere | src/arib25/arib_std_b25.c:1867-1909 | over any puts from such a state a PMT entry leads to its program, and, when PIDs keep their roles, an ECM entry to its decryptor: the branches for a missing target are not taken |
| Descrambler.FindSync | src/arib25/arib_std_b25.c:2538-2560 | the two loops over the pool find what the function finds |
| Descrambler.AribStdB25.DescrambleAt | src/arib25/arib_std_b25.c:1835-1860 | in the input buffer: the packet is deciphered where it stands and no other byte changes |
| Descrambler.AribStdB25.HandleAt | src/arib25/arib_std_b25.c:1806-1994 | one packet in place: state, output buffer and held bytes as the function says |
| Descrambler.AribStdB25.Process | src/arib25/arib_std_b25.c:1767-2010 | the whole call on the two buffers is the function Scan: state, bytes appended, bytes kept, and the code, that of the last section handled if the loop was not left early |
| Descrambler.AribStdB25.Get | src/arib25/arib_std_b25.c:856-871 | everything in the output buffer, which is then empty |
| Descrambler.CheckPmtComplete | src/arib25/arib_std_b25.c:1219-1245 | the count of phases says yes if and only if some program has sent a second PMT or all have sent one |
| Descrambler.CheckEcmComplete | src/arib25/arib_std_b25.c:1543-1571 | the same of the listed decryptors and their ECMs |
| Descrambler.AribStdB25.SweepAhead | src/arib25/arib_std_b25.c:1585-1672 | the loop over the input buffer from the offset reached before equals the search function: state, offset, code |
| Descrambler.AribStdB25.FindPatAhead | src/arib25/arib_std_b25.c:1054-1128 | and find_pat, which processes a section that is queued afterwards |
| Descrambler.AribStdB25.Search | src/arib25/arib_std_b25.c:802-851 | the three searches, with their limits and codes, equal the gates one after the other |
| Descrambler.AribStdB25.Tune | src/arib25/arib_std_b25.c:792-801 | the packet distance is the one that the bytes in hand have, or the code for none with nothing changed |
| Descrambler.AribStdB25.Put | src/arib25/arib_std_b25.c:776-854 | the whole put equals its function on the session: state, distance, offset, both buffers and the code |
| Descrambler.AribStdB25.PutAll | src/arib25/arib_std_b25.c:776-854 | an object in any state that is given any pieces does what the puts do one after the other: session, both buffers, bytes consumed |
| Descrambler.Run | src/arib25/arib_std_b25.c:776-854 | a new object given any pieces, distance unknown, ends with the session and output of the run of puts, whatever way each of them ended |
| CaptureRing.Apply | src/IoThread.cpp:36-141 | every step keeps all indices in range |
| RingInvariant.StepKeeps | src/IoThread.cpp:36-141 | every step of either thread or the device keeps the invariant of the ring |
| RingInvariant.RingIsQueue | src/IoThread.cpp:122-141 | for every interleaving, the bytes read are those delivered for the submissions consumed, in order, each finished |
| RingInvariant.HistoryIsKept | src/IoThread.cpp:122-141 | what was read stays read, and a consumed submission never changes |
| RingInvariant.FlightsApart | src/IoThread.cpp:84-93 | two requests in flight never share a slot, and theirs are marked unfinished |
| RingInvariant.IssuedIsInFlight | src/IoThread.cpp:36-67 | after start-up the counter is the requests in flight or in hand, twenty until cancelled; none is left at the end |
| RingInvariant.ReadTakesFinishedSlots | src/IoThread.cpp:122-141 | the scan stops at the first slot exactly if that is unfinished or there is none |
| RingInvariant.LapLosesTheRing | src/IoThread.cpp:84-93 | marking a slot keeps the invariant if and only if there is room for it; if not, both indices meet and the reader finds nothing |
| RingInvariant.LapIsReached | src/IoThread.cpp:36-120 | from every start there is a run, with nobody reading, up to a slot that is marked without room |
| IoThread.TsIoThread.SetBufferPtrOfUrb | src/IoThread.cpp:84-93 | marks a slot, moves the index with wrap-around, and points the block at the slot, room or not; the queue stays one if there was room |
| IoThread.TsIoThread.Begin | src/IoThread.cpp:38-50 | start-up leaves block k in flight as submission k for slot k, and the counter at twenty |
| IoThread.TsIoThread.Complete | src/IoThread.cpp:122-141 | the device: the bytes transferred are in the block's slot, and the block is done |
| IoThread.TsIoThread.ReapUrb | src/IoThread.cpp:95-120 | stores the size, 0 for a failed transfer, and submits the block again or retires it after cancellation, room or not |
| IoThread.TsIoThread.ReadBuffer | src/IoThread.cpp:122-141 | the loop over sizes is the reader's steps carried through; all bytes read are the stream of consumed submissions |
| IoThread.TsIoThread.Capture | src/IoThread.cpp:36-141 | a capture from the start, any number of transfers completed in order, failed and short ones included: the bytes read are exactly the good bytes transferred |
| Mjd.MonthArithmetic | src/arib25/b_cas_card.c:630-631 | the shifts and multiplications are the table of month starts, for every day of a year from 1 March |
| Mjd.CivilNextDay | src/arib25/b_cas_card.c:618-639 | the next day's parts give the next day of the Gregorian calendar |
| Mjd.ExtractIsCalendar | src/arib25/b_cas_card.c:603-644 | from MJD 51604 on the date is right if and only if the day is not the last of a 400-year cycle |
| Mjd.ResponseDatesAreReal | src/arib25/b_cas_card.c:582-601 | both dates of every response are real and those that 16 bits of the day stand for |
| Mjd.PeriodHasItsLength | src/arib25/b_cas_card.c:588-595 | the last date is the right number of days after the first, or the day before it for a period of no days, if and only if day 51604 does not come in between |

## Left out

- `flush_arib_std_b25`: the same search, and a second copy of the packet loop for the last bytes, with a bound of 188 bytes in place of the packet distance.
- Programmes.FirstByteToClear: the programme has one version of its PAT, its PMT and its ECM, each in one packet; the changes of keys that further ECMs bring are `EcmKeys.EcmOutcome`.
- Smart card transport, USB and tuner access, option parsing: a card reply, a completed transfer or a status is an input here.
- Allocation failure, handle checks of the interface structures, function tables, and the pool of stream elements, which only recycles memory.
- 32-bit overflow of sizes and counters; the reference counts of the PID map are unsigned as in the code.
- Continuity counters, which the code does not check, and weak memory effects of `volatile` fields: steps of the ring are sequentially consistent.
- Descrambler.AribStdB25.HandleAt: the section parsers and the PID graph inside the packet loop are values; `SectionParser.TsSectionParser` and `PidTable.Table` do the same on objects.
- PidTable.Table.ProcPmt: the stream lists of a program are sequences in a field, not linked nodes, and the PCR PID, which only the report on a program reads, is not kept.
- Core.Dispatch: a map entry whose role changed under a pointer of another kind, or a PMT whose stream loop runs past its section, reads memory with no defined content; the model leaves the loop with a code of its own.
- CaptureRing.Enabled: the program does not test whether the ring is full; that the producer does not lap the reader is a condition of the step that marks a slot. The bytes of a read are those at the time of the call.
- IoThread.TsIoThread.ReapUrb: one turn of the loop of `reapUrbs`; methods run uninterrupted, and every other order of their steps is covered by `RingInvariant` only.
- SectionParser.TsSectionParser.Ret: what the parser does once its last section was handed back by someone who did not have it.
- Mjd.Extract: the code keeps 16 bits of the day by adding 65536 once; days before -13932 stay negative and are outside what a response can hold.
