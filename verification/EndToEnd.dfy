// From packets to effects: a section that arrives in one packet changes the
// graph or the keys as it says, and what is scrambled for a paying viewer comes
// out clear.

module EndToEnd {
  import opened Bytes
  import opened SectionModel
  import opened SectionTheorems
  import opened PidGraph
  import opened PidInvariant
  import opened Core
  import opened Framing
  import EcmKeys
  import Multi2
  import Streams
  import Tables
  import TableTheorems

  /** The parser waits for a section of this PID, and x is not the last one. */
  predicate Waiting(p: Parser, pid: Pid, x: seq<byte>) {
    p.work == [] && p.queue == [] && (p.pid < 0 || p.pid == pid) && p.last != Some(x)
  }

  /** A payload with the section x right behind its pointer_field of 0, and
      stuffing behind that. */
  predicate Alone(data: seq<byte>, x: seq<byte>) {
    && Sendable(x) && |data| >= 1 + |x| && data[0] == 0 && data[1..1 + |x|] == x && Stuffing(data[1 + |x|..])
  }

  /** The parser has taken x last, and nothing is under way. */
  predicate Settled(p: Parser, pid: Pid, x: seq<byte>) {
    p.work == [] && p.queue == [] && p.pid == pid && p.last == Some(x)
  }

  lemma OneSectionIsTaken(p: Parser, pid: Pid, data: seq<byte>, x: seq<byte>)
    requires Waiting(p, pid, x) && Alone(data, x)
    ensures var (p1, code) := Put(p, Packet(pid, true, data));
      && code == 0 && p1.queue == [x] && Get(p1) == (p1.(queue := []), Some(x)) && Settled(p1.(queue := []), pid, x)
  {
    hide Complete, First, Sound;
    StartsWith(data, x);
    StartsAlone(p.(pid := pid), data[1..], x);
    assert [x][1..] == [];
  }

  /** A section that comes again is dropped. */
  lemma OneSectionIsRepeated(p: Parser, pid: Pid, data: seq<byte>, x: seq<byte>)
    requires Settled(p, pid, x) && Alone(data, x)
    ensures var (p1, code) := Put(p, Packet(pid, true, data)); code == 0 && Settled(p1, pid, x)
  {
    hide Complete, First, Sound;
    StartsWith(data, x);
    StartsAlone(p, data[1..], x);
  }

  lemma StartsWith(data: seq<byte>, x: seq<byte>)
    requires Alone(data, x)
    ensures |x| >= 3 && Sound(x)
    ensures var rest := data[1..]; Complete(rest) && First(rest) == x && |x| <= |rest| && Stuffing(rest[|x|..])
  {
    hide Complete, First, Sound;
    var rest := data[1..];
    assert rest[..|x|] == x;
    WholeIsFirst(rest, x);
    assert rest[|x|..] == data[1 + |x|..];
    SendableIsSound(x);
  }

  lemma SendableIsSound(x: seq<byte>)
    requires Sendable(x)
    ensures |x| >= 3 && Sound(x)
  {
    hide Sound;
    SendableIsComplete(x);
  }

  lemma StartsAlone(p: Parser, rest: seq<byte>, x: seq<byte>)
    requires p.work == [] && |x| >= 3 && Sound(x)
    requires Complete(rest) && First(rest) == x && |x| <= |rest| && Stuffing(rest[|x|..])
    ensures Starts(p, rest, 0) == Finish(p, x) && Finish(p, x).1 == 0
    ensures Finish(p, x).0.queue == p.queue + if p.last == Some(x) then [] else [x]
    ensures var p1 := Finish(p, x).0; p1.work == [] && p1.pid == p.pid && p1.last == Some(x)
  {
    hide Complete, First, Sound;
  }

  // --------------------------------------------------------- one clear packet

  /** A clear packet with the section x in it. */
  predicate Carries(q: Packet188, x: seq<byte>) {
    && Transport(q) == 0 && UnitStart(q) && Scrambling(q) == 0 && !BrokenPacket(q) && PayloadAt(q) <= PACKET
    && Alone(q[PayloadAt(q)..], x)
  }

  lemma ClearIsDispatched(cfg: Config, s: State, q: Packet188)
    requires Transport(q) == 0 && Scrambling(q) == 0 && !BrokenPacket(q) && !Streams.Stripped(cfg, q)
    ensures var (s2, r, leave) := Dispatch(cfg, Counted(s, PidOf(q), 1, 0), q);
      Handle(cfg, s, q) == if Bad(r) || leave then Stop(s2, Some(q), q, Given(r)) else Next(s2, Some(q), r)
  {
    hide Dispatch, BrokenPacket, PayloadAt, PidOf, Transport, Counted;
  }

  lemma SamePutPid(s: State, q: Packet188)
    ensures var s1 := Counted(s, PidOf(q), 1, 0);
      && s1.links.pm[PidOf(q)].kind == s.links.pm[PidOf(q)].kind && s1.links.pm[PidOf(q)].target == s.links.pm[PidOf(q)].target
      && s1.links.decs == s.links.decs && s1.links.order == s.links.order && s1 == s.(links := s1.links)
  {
  }

  /** Put and proc_pat on a PAT in one packet. */
  lemma PatIsTaken(s: State, q: Packet188, x: seq<byte>, entries: seq<PatEntry>) returns (taken: Parser)
    requires Carries(q, x) && PidOf(q) == 0 && Waiting(ParserOf(s.pat), 0, x)
    requires |x| >= 3 && x[0] == 0 && !Tables.PatTooShort(x) && TableTheorems.PatBody(Tables.Body(x), entries)
    ensures Settled(taken, 0, x)
    ensures var (p, code) := Put(ParserOf(s.pat), PutOf(q));
      code == 0 && p.queue == [x] && ProcPat(s, p) == (Applied(s.(pat := Some(taken)), PatTable(entries)), 0)
  {
    hide Put, Tables.ReadPat, Tables.Body, Tables.PatTooShort, BrokenPacket, PayloadAt, Transport, Scrambling, UnitStart,
      Alone, Applied, PidOf;
    OneSectionIsTaken(ParserOf(s.pat), 0, q[PayloadAt(q)..], x);
    TableTheorems.PatIsReadBack(Tables.Body(x), entries);
    taken := Put(ParserOf(s.pat), PutOf(q)).0.(queue := []);
  }

  /** A PAT in one packet: every program is replaced by those it names. */
  lemma PatTakesEffect(cfg: Config, s: State, q: Packet188, x: seq<byte>, entries: seq<PatEntry>) returns (taken: Parser)
    requires Carries(q, x) && PidOf(q) == 0 && s.links.pm[0].kind !in {Ecm, Pmt, Emm}
    requires Waiting(ParserOf(s.pat), 0, x)
    requires |x| >= 3 && x[0] == 0 && !Tables.PatTooShort(x) && TableTheorems.PatBody(Tables.Body(x), entries)
    ensures Settled(taken, 0, x)
    ensures Handle(cfg, s, q)
         == Stop(Applied(Counted(s, 0, 1, 0).(pat := Some(taken)), PatTable(entries)), Some(q), q, 0)
  {
    hide Put, ProcPat, Tables.Body, Tables.PatTooShort, BrokenPacket, PayloadAt, Transport, Scrambling, UnitStart, Alone,
      Applied, Counted, PidOf;
    ClearIsDispatched(cfg, s, q);
    SamePutPid(s, q);
    taken := PatIsTaken(Counted(s, 0, 1, 0), q, x, entries);
  }

  /** The same PAT again changes nothing but its counters. */
  lemma PatIsRepeated(cfg: Config, s: State, q: Packet188, x: seq<byte>) returns (taken: Parser)
    requires Carries(q, x) && PidOf(q) == 0 && s.links.pm[0].kind !in {Ecm, Pmt, Emm}
    requires s.pat.Some? && Settled(s.pat.value, 0, x)
    ensures Settled(taken, 0, x)
    ensures Handle(cfg, s, q) == Next(Counted(s, 0, 1, 0).(pat := Some(taken)), Some(q), None)
  {
    hide Put, BrokenPacket, PayloadAt, Transport, Scrambling, UnitStart, Alone, Applied, Counted, PidOf;
    ClearIsDispatched(cfg, s, q);
    SamePutPid(s, q);
    OneSectionIsRepeated(s.pat.value, 0, q[PayloadAt(q)..], x);
    taken := Put(s.pat.value, PutOf(q)).0;
  }

  /** The section parser of a program, put and proc_pmt on a PMT in one packet. */
  lemma PmtIsTaken(cfg: Config, s: State, q: Packet188, x: seq<byte>, i: nat, ds: seq<TableTheorems.Descriptor>,
      streams: seq<TableTheorems.Announced>, crc: seq<byte>) returns (taken: Parser)
    requires Carries(q, x) && i < |s.programs| && Waiting(s.programs[i].pmt, PidOf(q), x)
    requires TableTheorems.PmtBytes(x, ds, streams, crc) && x[0] == 2
    ensures Settled(taken, PidOf(q), x)
    ensures var t := PmtTable(i, TableTheorems.Named(ds, cfg.caSystemId), TableTheorems.Entries(streams, cfg.caSystemId));
      PmtPacket(cfg, s, i, PutOf(q)) == (Applied(WithPmt(s, i, taken), t), Some(0))
  {
    hide Put, Tables.ReadPmt, BrokenPacket, PayloadAt, Transport, Scrambling, UnitStart, Alone, Applied, PidOf,
      TableTheorems.PmtBytes;
    OneSectionIsTaken(s.programs[i].pmt, PidOf(q), q[PayloadAt(q)..], x);
    TableTheorems.PmtIsReadBack(x, ds, streams, crc, cfg.caSystemId);
    LongEnough(x, ds, streams, crc);
    taken := Put(s.programs[i].pmt, PutOf(q)).0.(queue := []);
  }

  /** A PMT in one packet: the streams it announces take the place of those
      before, with the ECM PIDs it names. */
  lemma PmtTakesEffect(cfg: Config, s: State, q: Packet188, x: seq<byte>, i: nat, ds: seq<TableTheorems.Descriptor>,
      streams: seq<TableTheorems.Announced>, crc: seq<byte>) returns (taken: Parser)
    requires Carries(q, x) && !Streams.Stripped(cfg, q)
    requires s.links.pm[PidOf(q)].kind == Pmt && s.links.pm[PidOf(q)].target == ProgramAt(i) && i < |s.programs|
    requires Waiting(s.programs[i].pmt, PidOf(q), x)
    requires TableTheorems.PmtBytes(x, ds, streams, crc) && x[0] == 2
    ensures Settled(taken, PidOf(q), x)
    ensures var s1 := WithPmt(Counted(s, PidOf(q), 1, 0), i, taken);
      var t := PmtTable(i, TableTheorems.Named(ds, cfg.caSystemId), TableTheorems.Entries(streams, cfg.caSystemId));
      Handle(cfg, s, q) == Next(Applied(s1, t), Some(q), Some(0))
  {
    hide Put, PmtPacket, BrokenPacket, PayloadAt, Transport, Scrambling, UnitStart, Alone, Applied, Counted, PidOf,
      TableTheorems.PmtBytes;
    ClearIsDispatched(cfg, s, q);
    SamePutPid(s, q);
    taken := PmtIsTaken(cfg, Counted(s, PidOf(q), 1, 0), q, x, i, ds, streams, crc);
  }

  /** The same PMT again changes nothing but its counters. */
  lemma PmtIsRepeated(cfg: Config, s: State, q: Packet188, x: seq<byte>, i: nat) returns (taken: Parser)
    requires Carries(q, x) && !Streams.Stripped(cfg, q)
    requires s.links.pm[PidOf(q)].kind == Pmt && s.links.pm[PidOf(q)].target == ProgramAt(i) && i < |s.programs|
    requires Settled(s.programs[i].pmt, PidOf(q), x)
    ensures Settled(taken, PidOf(q), x)
    ensures Handle(cfg, s, q) == Next(WithPmt(Counted(s, PidOf(q), 1, 0), i, taken), Some(q), None)
  {
    hide Put, BrokenPacket, PayloadAt, Transport, Scrambling, UnitStart, Alone, Counted, PidOf;
    ClearIsDispatched(cfg, s, q);
    SamePutPid(s, q);
    OneSectionIsRepeated(s.programs[i].pmt, PidOf(q), q[PayloadAt(q)..], x);
    taken := Put(s.programs[i].pmt, PutOf(q)).0;
  }

  lemma LongEnough(x: seq<byte>, ds: seq<TableTheorems.Descriptor>, streams: seq<TableTheorems.Announced>, crc: seq<byte>)
    requires TableTheorems.PmtBytes(x, ds, streams, crc)
    ensures |x| >= 3
  {
  }

  /** Put and proc_ecm on an ECM in one packet. */
  lemma EcmIsTaken(cfg: Config, s: State, q: Packet188, x: seq<byte>, id: nat) returns (taken: Parser)
    requires Carries(q, x) && cfg.hasCard && id in s.links.decs && Waiting(s.links.decs[id].ecm, PidOf(q), x)
    ensures Settled(taken, PidOf(q), x) && |x| >= 3
    ensures var (s2, r) := EcmSection(cfg, WithDec(s, id, s.links.decs[id].(ecm := taken)), id, x);
      EcmPacket(cfg, s, id, PutOf(q)) == (s2, Some(r))
  {
    hide Put, BrokenPacket, PayloadAt, Transport, Scrambling, UnitStart, Alone, PidOf, EcmSection;
    var d := s.links.decs[id];
    OneSectionIsTaken(d.ecm, PidOf(q), q[PayloadAt(q)..], x);
    CarriesSound(q, x);
    taken := Put(d.ecm, PutOf(q)).0.(queue := []);
    DecTwice(s, id, d.(ecm := Put(d.ecm, PutOf(q)).0), d.(ecm := taken));
  }

  /** An ECM in one packet reaches the card. */
  lemma EcmIsProcessed(cfg: Config, s: State, q: Packet188, x: seq<byte>, id: nat) returns (taken: Parser)
    requires Carries(q, x) && !Streams.Stripped(cfg, q) && cfg.hasCard
    requires s.links.pm[PidOf(q)].kind == Ecm && s.links.pm[PidOf(q)].target == Decryptor(id) && id in s.links.decs
    requires Waiting(s.links.decs[id].ecm, PidOf(q), x)
    ensures |x| >= 3
    ensures var s1 := Counted(s, PidOf(q), 1, 0);
      var (s2, r) := EcmSection(cfg, WithDec(s1, id, s1.links.decs[id].(ecm := taken)), id, x);
      Handle(cfg, s, q) == if r < 0 then Stop(s2, Some(q), q, r) else Next(s2, Some(q), Some(r))
  {
    hide EcmPacket, PutOf, BrokenPacket, PayloadAt, Transport, Scrambling, UnitStart, Alone, PidOf, EcmSection, Counted;
    ClearIsDispatched(cfg, s, q);
    SamePutPid(s, q);
    taken := EcmIsTaken(cfg, Counted(s, PidOf(q), 1, 0), q, x, id);
  }

  /** The same ECM again changes nothing but its counters. */
  lemma EcmIsRepeated(cfg: Config, s: State, q: Packet188, x: seq<byte>, id: nat) returns (taken: Parser)
    requires Carries(q, x) && !Streams.Stripped(cfg, q)
    requires s.links.pm[PidOf(q)].kind == Ecm && s.links.pm[PidOf(q)].target == Decryptor(id) && id in s.links.decs
    requires Settled(s.links.decs[id].ecm, PidOf(q), x)
    ensures Settled(taken, PidOf(q), x)
    ensures var s1 := Counted(s, PidOf(q), 1, 0);
      Handle(cfg, s, q) == Next(WithDec(s1, id, s1.links.decs[id].(ecm := taken)), Some(q), None)
  {
    hide Put, BrokenPacket, PayloadAt, Transport, Scrambling, UnitStart, Alone, PidOf, Counted;
    ClearIsDispatched(cfg, s, q);
    SamePutPid(s, q);
    OneSectionIsRepeated(s.links.decs[id].ecm, PidOf(q), q[PayloadAt(q)..], x);
    taken := Put(s.links.decs[id].ecm, PutOf(q)).0;
  }

  lemma CarriesSound(q: Packet188, x: seq<byte>)
    requires Carries(q, x)
    ensures |x| >= 3
  {
  }

  lemma DecTwice(s: State, id: nat, d: Dec, d': Dec)
    requires id in s.links.decs
    ensures WithDec(WithDec(s, id, d), id, d') == WithDec(s, id, d')
  {
    assert s.links.decs[id := d][id := d'] == s.links.decs[id := d'];
  }

  // ------------------------------------------------------------------ the CAT

  /** The state once a CAT that names this PID has been taken by its parser. */
  function WithEmms(s: State, cat: Parser, emm: Pid): State {
    var s1 := Applied(s.(cat := Some(cat)), CatTable(emm));
    if emm == 0 || emm == 0x1fff then s1 else s1.(emmPid := emm)
  }

  /** Put and proc_cat on a CAT in one packet. */
  lemma CatIsTaken(cfg: Config, s: State, q: Packet188, x: seq<byte>, ds: seq<TableTheorems.Descriptor>) returns (taken: Parser)
    requires Carries(q, x) && PidOf(q) == 1 && Waiting(ParserOf(s.cat), 1, x) && |x| >= 3
    requires x[0] == 1 && TableTheorems.CatBytes(x, ds)
    ensures Settled(taken, 1, x)
    ensures CatPacket(cfg, s, PutOf(q)) == (WithEmms(s, taken, TableTheorems.Named(ds, cfg.caSystemId)), Some(0))
  {
    hide Put, Tables.FindCa, Tables.Body, BrokenPacket, PayloadAt, Transport, Scrambling, UnitStart, Alone, PidOf,
      TableTheorems.CatBytes, TableTheorems.Named, PidInvariant.Apply;
    OneSectionIsTaken(ParserOf(s.cat), 1, q[PayloadAt(q)..], x);
    TableTheorems.CatIsReadBack(x, ds, cfg.caSystemId);
    taken := Put(ParserOf(s.cat), PutOf(q)).0.(queue := []);
  }

  /** A CAT in one packet: the PID that its first descriptor of the card's system
      names is read for EMMs from then on. */
  lemma CatTakesEffect(cfg: Config, s: State, q: Packet188, x: seq<byte>, ds: seq<TableTheorems.Descriptor>) returns (taken: Parser)
    requires Carries(q, x) && PidOf(q) == 1 && s.links.pm[1].kind !in {Ecm, Pmt, Emm} && Waiting(ParserOf(s.cat), 1, x)
    requires |x| >= 3 && x[0] == 1 && TableTheorems.CatBytes(x, ds)
    ensures Settled(taken, 1, x)
    ensures var emm := TableTheorems.Named(ds, cfg.caSystemId);
      var s' := WithEmms(Counted(s, 1, 1, 0), taken, emm);
      && Handle(cfg, s, q) == Next(s', Some(q), Some(0)) && s'.links.pm[1].kind == Cat
      && (emm != 0 && emm != 1 && emm != 0x1fff ==> s'.links.pm[emm].kind == Emm && s'.emmPid == emm)
  {
    hide CatPacket, BrokenPacket, PayloadAt, Transport, Scrambling, UnitStart, Alone, Counted, PidOf, Put,
      TableTheorems.CatBytes, TableTheorems.Named;
    ClearIsDispatched(cfg, s, q);
    SamePutPid(s, q);
    taken := CatIsTaken(cfg, Counted(s, 1, 1, 0), q, x, ds);
  }

  /** A section of another table on its PID changes nothing but the parser. */
  lemma OtherTableIsNoCat(cfg: Config, s: State, q: Packet188, x: seq<byte>) returns (taken: Parser)
    requires Carries(q, x) && PidOf(q) == 1 && s.links.pm[1].kind !in {Ecm, Pmt, Emm} && Waiting(ParserOf(s.cat), 1, x)
    requires |x| >= 3 && x[0] != 1
    ensures Settled(taken, 1, x)
    ensures Handle(cfg, s, q) == Next(Counted(s, 1, 1, 0).(cat := Some(taken)), Some(q), Some(2))
  {
    hide BrokenPacket, PayloadAt, Transport, Scrambling, UnitStart, Alone, Counted, PidOf, Put, Tables.FindCa, Tables.Body;
    ClearIsDispatched(cfg, s, q);
    SamePutPid(s, q);
    OneSectionIsTaken(ParserOf(s.cat), 1, q[PayloadAt(q)..], x);
    taken := Put(ParserOf(s.cat), PutOf(q)).0.(queue := []);
  }

  // The same for the other tables.

  lemma OtherTableIsNoPat(cfg: Config, s: State, q: Packet188, x: seq<byte>) returns (taken: Parser)
    requires Carries(q, x) && PidOf(q) == 0 && s.links.pm[0].kind !in {Ecm, Pmt, Emm} && Waiting(ParserOf(s.pat), 0, x)
    requires |x| >= 3 && x[0] != 0
    ensures Settled(taken, 0, x)
    ensures Handle(cfg, s, q) == Stop(Counted(s, 0, 1, 0).(pat := Some(taken)), Some(q), q, 2)
  {
    hide BrokenPacket, PayloadAt, Transport, Scrambling, UnitStart, Alone, Counted, PidOf, Put, Tables.ReadPat, Tables.Body,
      Tables.PatTooShort;
    ClearIsDispatched(cfg, s, q);
    SamePutPid(s, q);
    OneSectionIsTaken(ParserOf(s.pat), 0, q[PayloadAt(q)..], x);
    taken := Put(ParserOf(s.pat), PutOf(q)).0.(queue := []);
  }

  /** A PAT of a header alone asks for a negative number of programs: the loop is
      left with the code for memory, and the programs stay. */
  lemma HeaderIsNoPat(cfg: Config, s: State, q: Packet188, x: seq<byte>) returns (taken: Parser)
    requires Carries(q, x) && PidOf(q) == 0 && s.links.pm[0].kind !in {Ecm, Pmt, Emm} && Waiting(ParserOf(s.pat), 0, x)
    requires |x| == 8 && x[0] == 0 && x[1] as int >= 128
    ensures Handle(cfg, s, q) == Stop(Counted(s, 0, 1, 0).(pat := Some(taken)), Some(q), q, -2)
  {
    hide BrokenPacket, PayloadAt, Transport, Scrambling, UnitStart, Alone, Counted, PidOf, Put, Tables.ReadPat, Tables.Body;
    ClearIsDispatched(cfg, s, q);
    SamePutPid(s, q);
    OneSectionIsTaken(ParserOf(s.pat), 0, q[PayloadAt(q)..], x);
    taken := Put(ParserOf(s.pat), PutOf(q)).0.(queue := []);
  }

  /** One byte more, and it is a PAT of no program. */
  lemma ShortPat(x: seq<byte>)
    requires |x| >= 3 && x[1] as int >= 128
    ensures Tables.PatTooShort(x) <==> |x| <= 8
  {
  }

  /** A PMT whose program descriptors reach into its CRC takes no effect. */
  lemma BrokenPmtIsDropped(cfg: Config, s: State, q: Packet188, x: seq<byte>, i: nat) returns (taken: Parser)
    requires Carries(q, x) && !Streams.Stripped(cfg, q) && |x| >= 12 && x[0] == 2 && x[1] as int >= 128
    requires 12 + (x[10] as int % 16 * 256 + x[11] as int) > |x| - 4
    requires s.links.pm[PidOf(q)].kind == Pmt && s.links.pm[PidOf(q)].target == ProgramAt(i) && i < |s.programs|
    requires Waiting(s.programs[i].pmt, PidOf(q), x)
    ensures Handle(cfg, s, q) == Next(WithPmt(Counted(s, PidOf(q), 1, 0), i, taken), Some(q), Some(0))
  {
    hide BrokenPacket, PayloadAt, Transport, Scrambling, UnitStart, Alone, Counted, PidOf, Put, Tables.ReadPmt;
    ClearIsDispatched(cfg, s, q);
    SamePutPid(s, q);
    OneSectionIsTaken(s.programs[i].pmt, PidOf(q), q[PayloadAt(q)..], x);
    TableTheorems.LongDescriptors(x, cfg.caSystemId);
    taken := Put(s.programs[i].pmt, PutOf(q)).0.(queue := []);
  }

  lemma OtherTableIsNoPmt(cfg: Config, s: State, q: Packet188, x: seq<byte>, i: nat) returns (taken: Parser)
    requires Carries(q, x) && !Streams.Stripped(cfg, q) && |x| >= 3 && x[0] != 2
    requires s.links.pm[PidOf(q)].kind == Pmt && s.links.pm[PidOf(q)].target == ProgramAt(i) && i < |s.programs|
    requires Waiting(s.programs[i].pmt, PidOf(q), x)
    ensures Settled(taken, PidOf(q), x)
    ensures Handle(cfg, s, q) == Next(WithPmt(Counted(s, PidOf(q), 1, 0), i, taken), Some(q), Some(0))
  {
    hide BrokenPacket, PayloadAt, Transport, Scrambling, UnitStart, Alone, Counted, PidOf, Put, Tables.ReadPmt;
    ClearIsDispatched(cfg, s, q);
    SamePutPid(s, q);
    OneSectionIsTaken(s.programs[i].pmt, PidOf(q), q[PayloadAt(q)..], x);
    taken := Put(s.programs[i].pmt, PutOf(q)).0.(queue := []);
  }

  lemma OtherTableIsNoEcm(cfg: Config, s: State, q: Packet188, x: seq<byte>, id: nat) returns (taken: Parser)
    requires Carries(q, x) && !Streams.Stripped(cfg, q) && cfg.hasCard && |x| >= 3 && x[0] != 0x82
    requires s.links.pm[PidOf(q)].kind == Ecm && s.links.pm[PidOf(q)].target == Decryptor(id) && id in s.links.decs
    requires Waiting(s.links.decs[id].ecm, PidOf(q), x)
    ensures var s1 := Counted(s, PidOf(q), 1, 0);
      Handle(cfg, s, q) == Next(WithDec(s1, id, s1.links.decs[id].(ecm := taken)), Some(q), Some(2))
  {
    hide Put, BrokenPacket, PayloadAt, Transport, Scrambling, UnitStart, Alone, PidOf, Counted, Handle, Streams.Stripped;
    taken := EcmIsProcessed(cfg, s, q, x, id);
    SamePutPid(s, q);
  }

  /** Without a card the loop is left. */
  lemma NoCardForEcms(cfg: Config, s: State, q: Packet188, x: seq<byte>, id: nat) returns (s': State)
    requires Carries(q, x) && !Streams.Stripped(cfg, q) && !cfg.hasCard
    requires s.links.pm[PidOf(q)].kind == Ecm && s.links.pm[PidOf(q)].target == Decryptor(id) && id in s.links.decs
    requires Waiting(s.links.decs[id].ecm, PidOf(q), x)
    ensures Handle(cfg, s, q) == Stop(s', Some(q), q, -7) && s'.ecmCalls == s.ecmCalls
  {
    hide Put, BrokenPacket, PayloadAt, Transport, Scrambling, UnitStart, Alone, PidOf, Counted, EcmSection, Streams.Stripped;
    ClearIsDispatched(cfg, s, q);
    SamePutPid(s, q);
    var d := s.links.decs[id];
    OneSectionIsTaken(d.ecm, PidOf(q), q[PayloadAt(q)..], x);
    s' := WithDec(Counted(s, PidOf(q), 1, 0), id, d.(ecm := Put(d.ecm, PutOf(q)).0));
  }

  // --------------------------------------------- from the ECM to the clear packet

  /** The keys under which a stream is broadcast that a started card opens. */
  function Broadcast(start: InitReply, round: int, key: Key16): Multi2.Keys {
    Multi2.NEW_KEYS.WithSystemKey(start.systemKey).WithInitCbc(start.initCbc).(round := round).WithScrambleKey(key)
  }

  /** What the answer does to a decryptor without a cipher. */
  lemma NewCipher(cfg: Config, s: State, id: nat, x: seq<byte>)
    requires id in s.links.decs && |x| >= 3 && EcmKeys.Answered(cfg, s, id, x) && s.links.decs[id].m2 == None
    requires cfg.init(|s.ecmCalls| + 1).status >= 0
    ensures var start, key := cfg.init(|s.ecmCalls| + 1), cfg.ecm(|s.ecmCalls|, Tables.Body(x)).key;
      var (s', r) := EcmSection(cfg, s, id, x);
      && r >= 0 && s'.links == WithDec(s, id, s.links.decs[id].(m2 := Some(Broadcast(start, cfg.round, key)))).links
  {
    hide Tables.Body, Multi2.Schedule, Multi2.LoadBlock, Multi2.LoadKey;
  }

  lemma BroadcastIsReady(start: InitReply, round: int, key: Key16)
    ensures var k := Broadcast(start, round, key);
      k.Has(Multi2.CBC_INIT_SET) && k.Has(Multi2.SYSTEM_KEY_SET) && k.Has(Multi2.SCRAMBLE_KEY_SET)
  {
    hide Multi2.Schedule, Multi2.LoadBlock, Multi2.LoadKey;
    var k := EcmKeys.StartedKeys(start, round);
    EcmKeys.ScrambleKeyIsSet(k, key);
  }

  lemma SameChoice(l: Links, l': Links, pid: Pid)
    requires l'.pm[pid].kind == l.pm[pid].kind && l'.pm[pid].target == l.pm[pid].target
    requires l'.order == l.order && l'.decs.Keys == l.decs.Keys
    ensures Chosen(l', pid) == Chosen(l, pid)
  {
  }

  // ------------------------------------------------------- whole clear streams

  /** A packet as it was before scrambling, and the keys and the selector it was
      scrambled with; the selector is 0 for one that is sent as it is. */
  datatype Sent = Sent(selector: nat, keys: Multi2.Keys, clear: Packet188)

  function OnAir(x: Sent): Packet188 {
    if 1 <= x.selector <= 3 && PayloadAt(x.clear) <= PACKET then Streams.Scrambled(x.keys, x.selector, x.clear) else x.clear
  }

  /** The bytes hold these packets a unit apart, and then the start of another. */
  predicate Holds(buf: seq<byte>, unit: nat, xs: seq<Sent>, tail: seq<byte>)
    requires 188 <= unit
    decreases |xs|
  {
    if xs == [] then buf == tail && 0 < |tail| <= unit && tail[0] == SYNC
    else |buf| > unit && buf[..188] == OnAir(xs[0]) && buf[0] == SYNC && Holds(buf[unit..], unit, xs[1..], tail)
  }

  /** The clear packets, and the places the packets on air came from. */
  function Clear(xs: seq<Sent>, unit: nat, at: nat): seq<Emitted> {
    if xs == [] then [] else [Emitted(at, xs[0].clear)] + Clear(xs[1..], unit, at + unit)
  }

  /** A packet that carries no section, of a PID that is none of those read for
      sections. */
  predicate Plain(cfg: Config, l: Links, x: Sent) {
    && x.selector <= 3 && Scrambling(x.clear) == 0 && !BrokenPacket(x.clear)
    && Transport(x.clear) == 0 && !Streams.Stripped(cfg, x.clear)
    && PidOf(x.clear) > 1 && l.pm[PidOf(x.clear)].kind in {Unknown, Other}
    && (x.selector > 0 ==> HasPayload(x.clear))
  }

  predicate AllKeys(k: Multi2.Keys) {
    k.Has(Multi2.CBC_INIT_SET) && k.Has(Multi2.SYSTEM_KEY_SET) && k.Has(Multi2.SCRAMBLE_KEY_SET)
  }

  /** If it is scrambled, then under the keys of the decryptor chosen for it. */
  predicate Openable(l: Links, x: Sent) {
    x.selector > 0 ==>
      && Chosen(l, PidOf(x.clear)).Some? && l.decs[Chosen(l, PidOf(x.clear)).value].m2 == Some(x.keys) && AllKeys(x.keys)
  }

  /** The same references and keys. */
  predicate SameWays(l: Links, l': Links) {
    l'.order == l.order && l'.decs == l.decs && l'.nextId == l.nextId
    && forall p: Pid :: l'.pm[p].kind == l.pm[p].kind && l'.pm[p].target == l.pm[p].target
  }

  lemma CountedWays(s: State, pid: Pid, normal: nat, undecrypted: nat)
    ensures SameWays(s.links, Counted(s, pid, normal, undecrypted).links)
  {
  }

  lemma SameWaysOpen(cfg: Config, l: Links, l': Links, x: Sent)
    requires SameWays(l, l') && Plain(cfg, l, x) && Openable(l, x)
    ensures Plain(cfg, l', x) && Openable(l', x)
  {
    hide BrokenPacket, Transport, Scrambling, HasPayload, PidOf, AllKeys;
    SameChoice(l, l', PidOf(x.clear));
  }

  lemma NothingToRead(cfg: Config, s: State, q: Packet188)
    requires PidOf(q) > 1 && s.links.pm[PidOf(q)].kind in {Unknown, Other}
    ensures Dispatch(cfg, s, q) == (s, None, false)
  {
    hide EcmPacket, PmtPacket, EmmPacket, CatPacket, PatPacket, PidOf;
  }

  lemma PlainComesOutClear(cfg: Config, s: State, x: Sent)
    requires Plain(cfg, s.links, x) && Openable(s.links, x)
    ensures Handle(cfg, s, OnAir(x)) == Next(Counted(s, PidOf(x.clear), 1, 0), Some(x.clear), None)
  {
    hide BrokenPacket, Transport, Scrambling, HasPayload, PidOf, Dispatch, Descramble, Streams.Scrambled, Chosen, Counted;
    var c, pid := x.clear, PidOf(x.clear);
    Streams.SoundPacket(c);
    CountedWays(s, pid, 1, 0);
    NothingToRead(cfg, Counted(s, pid, 1, 0), c);
    if x.selector > 0 {
      Streams.ScrambledHeader(x.keys, x.selector, c);
      Streams.DescrambleRestores(s, x.keys, x.selector, c);
    } else {
      ClearIsDispatched(cfg, s, c);
    }
  }

  lemma HeldTurn(cfg: Config, unit: nat, s: State, buf: seq<byte>, p: Packet188)
    requires 188 <= unit < |buf| && buf[..188] == p && buf[0] == SYNC && buf[unit] == SYNC
    ensures TurnOf(cfg, unit, s, buf) ==
      match Handle(cfg, s, p)
      case Skip => Go(s, 0, None, 1, None)
      case Next(s', out, code) => Go(s', 0, out, unit, code)
      case Stop(s', out, held, code) => Leave(s', 0, out, held + buf[188..], code)
  {
    hide Handle, Resync;
    assert buf[0..188] == p;
  }

  lemma TailHalts(cfg: Config, unit: nat, s: State, tail: seq<byte>, at: nat)
    requires 188 <= unit && |tail| <= unit
    ensures Scan(cfg, unit, s, tail, at) == Scanned(s, [], tail, None, None)
  {
    hide TurnOf;
    Streams.HaltsAtTheEnd(cfg, unit, s, tail);
  }

  lemma HoldsOn(buf: seq<byte>, unit: nat, xs: seq<Sent>, tail: seq<byte>)
    requires 188 <= unit && Holds(buf, unit, xs, tail)
    ensures |buf| > 0 && buf[0] == SYNC && |tail| <= |buf|
    decreases |xs|
  {
    hide OnAir;
    if xs != [] {
      HoldsOn(buf[unit..], unit, xs[1..], tail);
    }
  }

  /** Any stream of packets that are clear, or scrambled under the keys of the
      decryptor their PID is bound to: exactly the clear packets come out, in
      order, and the references and keys stay as they are. */
  lemma {:induction false} StreamComesOutClear(cfg: Config, unit: nat, s: State, buf: seq<byte>, at: nat, xs: seq<Sent>,
      tail: seq<byte>)
    requires 188 <= unit && Holds(buf, unit, xs, tail)
    requires forall x | x in xs :: Plain(cfg, s.links, x) && Openable(s.links, x)
    ensures var r := Scan(cfg, unit, s, buf, at);
      && r.out == Clear(xs, unit, at) && r.rest == tail && r.stop == None && r.code == None
      && r.state == s.(links := r.state.links) && SameWays(s.links, r.state.links)
    decreases |xs|
  {
    hide Scan, TurnOf, OnAir, Plain, Openable, Counted, Handle;
    if xs == [] {
      TailHalts(cfg, unit, s, buf, at);
    } else {
      var x := xs[0];
      HoldsOn(buf[unit..], unit, xs[1..], tail);
      assert buf[unit..][0] == buf[unit];
      PlainComesOutClear(cfg, s, x);
      HeldTurn(cfg, unit, s, buf, OnAir(x));
      ScanUnfolds(cfg, unit, s, buf, at);
      var s1 := Counted(s, PidOf(x.clear), 1, 0);
      CountedWays(s, PidOf(x.clear), 1, 0);
      CountedOnlyLinks(s, PidOf(x.clear), 1, 0);
      forall y | y in xs[1..] ensures Plain(cfg, s1.links, y) && Openable(s1.links, y) {
        SameWaysOpen(cfg, s.links, s1.links, y);
      }
      StreamComesOutClear(cfg, unit, s1, buf[unit..], at + unit, xs[1..], tail);
    }
  }

  // ------------------------------------------------- a packet without a cipher

  /** If it is scrambled, then for a decryptor without a cipher. */
  predicate Sealed(l: Links, x: Sent) {
    x.selector > 0 ==> Chosen(l, PidOf(x.clear)).Some? && l.decs[Chosen(l, PidOf(x.clear)).value].m2 == None
  }

  lemma SealedStays(cfg: Config, s: State, x: Sent)
    requires Plain(cfg, s.links, x) && Sealed(s.links, x)
    ensures var normal := if x.selector > 0 then 0 else 1;
      Handle(cfg, s, OnAir(x)) == Next(Counted(s, PidOf(x.clear), normal, 1 - normal), Some(OnAir(x)), None)
  {
    hide BrokenPacket, Transport, Scrambling, HasPayload, PidOf, Dispatch, Streams.Scrambled, Chosen, Counted;
    var c, pid := x.clear, PidOf(x.clear);
    Streams.SoundPacket(c);
    CountedWays(s, pid, 0, 1);
    CountedWays(s, pid, 1, 0);
    if x.selector > 0 {
      Streams.ScrambledHeader(x.keys, x.selector, c);
      NothingToRead(cfg, Counted(s, pid, 0, 1), OnAir(x));
    } else {
      NothingToRead(cfg, Counted(s, pid, 1, 0), c);
      ClearIsDispatched(cfg, s, c);
    }
  }

  lemma CountedOnlyLinks(s: State, pid: Pid, normal: nat, undecrypted: nat)
    ensures var s1 := Counted(s, pid, normal, undecrypted); s1 == s.(links := s1.links)
  {
  }

  /** A new decryptor, an ECM in one packet, a card that answers it and starts:
      the ECM packet comes out, and after it exactly the clear packets of any
      stream that is scrambled under the keys of the answer, in order. */
  lemma PaidStreamComesOutClear(cfg: Config, unit: nat, s: State, buf: seq<byte>, at: nat, q: Packet188, x: seq<byte>,
      id: nat, start: InitReply, key: Key16, xs: seq<Sent>, tail: seq<byte>)
    requires 188 <= unit < |buf| && buf[..188] == q && buf[0] == SYNC && Holds(buf[unit..], unit, xs, tail)
    requires Carries(q, x) && !Streams.Stripped(cfg, q) && cfg.hasCard
    requires s.links.pm[PidOf(q)].kind == Ecm && s.links.pm[PidOf(q)].target == Decryptor(id) && id in s.links.decs
    requires Waiting(s.links.decs[id].ecm, PidOf(q), x)
    requires |x| >= 3 && EcmKeys.Answered(cfg, s, id, x) && s.links.decs[id].m2 == None
    requires start == cfg.init(|s.ecmCalls| + 1) && start.status >= 0 && key == cfg.ecm(|s.ecmCalls|, Tables.Body(x)).key
    requires forall y | y in xs :: Plain(cfg, s.links, y) && (y.selector > 0 ==>
               Chosen(s.links, PidOf(y.clear)) == Some(id) && y.keys == Broadcast(start, cfg.round, key))
    ensures var r := Scan(cfg, unit, s, buf, at);
      r.out == [Emitted(at, q)] + Clear(xs, unit, at + unit) && r.rest == tail && r.stop == None
  {
    hide Scan, TurnOf, Handle, OnAir, Plain, Openable, Counted, EcmSection, Carries, Waiting, Broadcast, Tables.Body,
      Chosen, PidOf, Streams.Stripped;
    var ecm := EcmIsProcessed(cfg, s, q, x, id);
    SamePutPid(s, q);
    CountedWays(s, PidOf(q), 1, 0);
    var s1 := Counted(s, PidOf(q), 1, 0);
    var s2 := WithDec(s1, id, s1.links.decs[id].(ecm := ecm));
    NewCipher(cfg, s2, id, x);
    var s3 := EcmSection(cfg, s2, id, x).0;
    HoldsOn(buf[unit..], unit, xs, tail);
    assert buf[unit..][0] == buf[unit];
    HeldTurn(cfg, unit, s, buf, q);
    ScanUnfolds(cfg, unit, s, buf, at);
    forall y | y in xs ensures Plain(cfg, s3.links, y) && Openable(s3.links, y) {
      BecomesOpenable(cfg, s.links, s3.links, y, id, start, key);
    }
    StreamComesOutClear(cfg, unit, s3, buf[unit..], at + unit, xs, tail);
  }

  lemma BecomesOpenable(cfg: Config, l: Links, l': Links, y: Sent, id: nat, start: InitReply, key: Key16)
    requires forall p: Pid :: l'.pm[p].kind == l.pm[p].kind && l'.pm[p].target == l.pm[p].target
    requires l'.order == l.order && l'.decs.Keys == l.decs.Keys
    requires id in l'.decs && l'.decs[id].m2 == Some(Broadcast(start, cfg.round, key))
    requires Plain(cfg, l, y)
    requires y.selector > 0 ==> Chosen(l, PidOf(y.clear)) == Some(id) && y.keys == Broadcast(start, cfg.round, key)
    ensures Plain(cfg, l', y) && Openable(l', y)
  {
    hide BrokenPacket, Transport, Scrambling, HasPayload, PidOf, Broadcast, Chosen, Streams.Stripped;
    SameChoice(l, l', PidOf(y.clear));
    BroadcastIsReady(start, cfg.round, key);
  }
}
