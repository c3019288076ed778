// The packets of a programme with its tables and ECMs, as they come round again
// and again, and what each of them does to a descrambler: while it is looked for,
// and in the packet loop.

module Broadcasts {
  import opened Bytes
  import opened SectionModel
  import opened PidGraph
  import opened PidInvariant
  import opened Core
  import opened Framing
  import opened EcmEntries
  import opened Bindings
  import opened FirstPmt
  import opened EndToEnd
  import opened Search
  import Chunking
  import GraphRuns
  import Multi2
  import Streams
  import Tables
  import TT = TableTheorems

  /** The sections that are sent, what they say, and which program it is. */
  datatype Programme = Programme(
    patSection: seq<byte>,
    entries: seq<PatEntry>,
    index: nat,
    pmtPid: Pid,
    pmtSection: seq<byte>,
    ds: seq<TT.Descriptor>,
    streams: seq<TT.Announced>,
    crc: seq<byte>,
    ecmSection: seq<byte>)

  function MajorOf(cfg: Config, o: Programme): Pid {
    TT.Named(o.ds, cfg.caSystemId)
  }

  function StreamsOf(cfg: Config, o: Programme): seq<EsEntry> {
    TT.Entries(o.streams, cfg.caSystemId)
  }

  ghost predicate PatSays(o: Programme) {
    && |o.patSection| >= 3 && o.patSection[0] == 0 && !Tables.PatTooShort(o.patSection)
    && TT.PatBody(Tables.Body(o.patSection), o.entries)
  }

  ghost predicate LastOf(ps: seq<Program>, i: nat) {
    i < |ps| && forall j | i < j < |ps| :: ps[j].pmtPid != ps[i].pmtPid
  }

  /** The PMT is that of a program of the PAT, the last one with its PID. */
  ghost predicate PmtSays(o: Programme) {
    && TT.PmtBytes(o.pmtSection, o.ds, o.streams, o.crc) && o.pmtSection[0] == 2
    && LastOf(NewPrograms(o.entries), o.index) && NewPrograms(o.entries)[o.index].pmtPid == o.pmtPid
  }

  /** No PID is used in two roles, and some stream shares the program's ECMs. */
  ghost predicate Coherent(cfg: Config, roles: Roles, o: Programme) {
    && PatSays(o) && PmtSays(o) && |o.ecmSection| >= 3 && MajorOf(cfg, o) !in {0, 0x1fff}
    && PatFits(roles, o.entries) && PmtFits(roles, MajorOf(cfg, o), StreamsOf(cfg, o))
    && exists pid: Pid :: Shares(StreamsOf(cfg, o), pid)
  }

  // ------------------------------------------------------------- its packets

  datatype Part = PatPart | PmtPart | EcmPart | StreamPart

  function PartOf(cfg: Config, o: Programme, x: Sent): Part {
    var pid := PidOf(x.clear);
    if pid == 0 then PatPart
    else if pid == o.pmtPid then PmtPart
    else if pid == MajorOf(cfg, o) then EcmPart
    else StreamPart
  }

  /** A packet with a section of its own, sent as it is. */
  predicate Conveys(cfg: Config, x: Sent, section: seq<byte>) {
    x.selector == 0 && Carries(x.clear, section) && !Streams.Stripped(cfg, x.clear)
  }

  /** A packet of a stream, clear or scrambled. */
  ghost predicate StreamPacket(cfg: Config, roles: Roles, o: Programme, x: Sent) {
    && x.selector <= 3 && Scrambling(x.clear) == 0 && !BrokenPacket(x.clear)
    && Transport(x.clear) == 0 && !Streams.Stripped(cfg, x.clear)
    && PidOf(x.clear) > 1 && roles(PidOf(x.clear)) == EsRole
    && (x.selector > 0 ==> HasPayload(x.clear) && Shares(StreamsOf(cfg, o), PidOf(x.clear)))
  }

  /** Its tables and ECMs over and over, and the packets of its streams. */
  ghost predicate OfProgramme(cfg: Config, roles: Roles, o: Programme, x: Sent) {
    match PartOf(cfg, o, x)
    case PatPart => Conveys(cfg, x, o.patSection)
    case PmtPart => Conveys(cfg, x, o.pmtSection)
    case EcmPart => Conveys(cfg, x, o.ecmSection)
    case StreamPart => StreamPacket(cfg, roles, o, x)
  }

  /** How many of them are of this part. */
  function Times(cfg: Config, o: Programme, xs: seq<Sent>, part: Part): nat {
    if xs == [] then 0 else (if PartOf(cfg, o, xs[0]) == part then 1 else 0) + Times(cfg, o, xs[1..], part)
  }

  lemma OnAirPid(cfg: Config, roles: Roles, o: Programme, x: Sent)
    requires OfProgramme(cfg, roles, o, x)
    ensures PidOf(OnAir(x)) == PidOf(x.clear) && (PartOf(cfg, o, x) != StreamPart ==> OnAir(x) == x.clear)
  {
    hide BrokenPacket, Transport, Scrambling, HasPayload, PidOf, Carries, Shares, StreamsOf, MajorOf, Streams.Scrambled,
      Streams.Stripped, PayloadAt;
    if x.selector > 0 {
      Streams.ScrambledHeader(x.keys, x.selector, x.clear);
    }
  }

  // --------------------------------------------------------- states on the way

  /** Its PAT has taken effect, and no PMT. */
  ghost predicate PatKnown(roles: Roles, o: Programme, s: State) {
    && s.links.decs == map[] && s.links.order == [] && Valid(roles, s.links, s.programs)
    && s.programs == NewPrograms(o.entries)
    && s.links.pm[0].kind == Pat && s.pat.Some? && Settled(s.pat.value, 0, o.patSection)
    && s.links.pm[o.pmtPid].kind == Pmt && s.links.pm[o.pmtPid].target == ProgramAt(o.index)
    && s.ecmCalls == [] && GraphRuns.AllFit(roles, s.tables)
  }

  /** So has its PMT: the ECM PID of the program leads to the decryptor id, to
      which the streams are bound. */
  ghost predicate TablesKnown(cfg: Config, roles: Roles, o: Programme, s: State, id: nat) {
    && s.links.pm[0].kind == Pat && s.pat.Some? && Settled(s.pat.value, 0, o.patSection)
    && s.links.pm[o.pmtPid].kind == Pmt && s.links.pm[o.pmtPid].target == ProgramAt(o.index)
    && o.index < |s.programs| && Settled(s.programs[o.index].pmt, o.pmtPid, o.pmtSection)
    && LeadsTo(s.links, MajorOf(cfg, o), id) && id in s.links.decs
    && (forall pid: Pid | Shares(StreamsOf(cfg, o), pid) :: BoundTo(s.links, pid) == Some(id))
    && (forall pid: Pid | roles(pid) == EsRole :: s.links.pm[pid].kind in {Unknown, Other})
    && GraphRuns.AllFit(roles, s.tables)
  }

  /** Its PMT has come so many times, and no other one. */
  predicate PmtPhase(o: Programme, s: State, phase: nat) {
    && |s.programs| == |NewPrograms(o.entries)| && o.index < |s.programs|
    && s.programs[o.index].phase == phase
    && forall j | 0 <= j < |s.programs| && j != o.index :: s.programs[j].phase == 0
  }

  lemma PmtPhaseComplete(o: Programme, s: State, phase: nat)
    requires PmtPhase(o, s, phase)
    ensures PmtComplete(s.programs) <==> phase >= 2 || (phase == 1 && |NewPrograms(o.entries)| == 1)
  {
    hide NewPrograms;
    if |s.programs| > 1 {
      var j := if o.index == 0 then 1 else 0;
      assert s.programs[j].phase == 0;
    }
    assert s.programs[o.index].phase == phase;
  }

  /** Its ECM has come so many times, and no other one. */
  ghost predicate EcmPhase(cfg: Config, o: Programme, l: Links, id: nat, phase: nat) {
    && id in l.decs && l.decs[id].phase == phase && id in l.order
    && (forall d | d in l.decs && d != id :: l.decs[d].phase == 0)
    && (if OtherEcm(StreamsOf(cfg, o), MajorOf(cfg, o)) then exists d :: d in l.decs && d != id && d in l.order
        else l.order == [id])
  }

  lemma EcmPhaseComplete(cfg: Config, o: Programme, l: Links, id: nat, phase: nat)
    requires EcmPhase(cfg, o, l, id, phase)
    ensures EcmComplete(l) <==> phase >= 2 || (phase == 1 && !OtherEcm(StreamsOf(cfg, o), MajorOf(cfg, o)))
  {
    hide OtherEcm, StreamsOf, MajorOf;
    var i :| 0 <= i < |l.order| && l.order[i] == id;
    assert PhaseOf(l, l.order[i]) == phase;
    if OtherEcm(StreamsOf(cfg, o), MajorOf(cfg, o)) {
      var d :| d in l.decs && d != id && d in l.order;
      var j :| 0 <= j < |l.order| && l.order[j] == d;
      assert PhaseOf(l, l.order[j]) == 0;
    }
  }

  /** The card has been asked about its ECM: it has opened the stream, or has
      declined. */
  ghost predicate Asked(cfg: Config, o: Programme, s: State, id: nat, open: bool)
    requires |o.ecmSection| >= 3
  {
    && id in s.links.decs && |s.ecmCalls| == 1 && Settled(s.links.decs[id].ecm, MajorOf(cfg, o), o.ecmSection)
    && if open then s.links.decs[id].m2 == Some(KeysFor(cfg, o)) && s.links.decs[id].locked == 0
       else s.links.decs[id].m2 == None && s.links.decs[id].locked == 1
  }

  function KeysFor(cfg: Config, o: Programme): Multi2.Keys
    requires |o.ecmSection| >= 3
  {
    Broadcast(cfg.init(1), cfg.round, cfg.ecm(0, Tables.Body(o.ecmSection)).key)
  }

  // ------------------------------------------------------------------ the PAT

  lemma {:induction false} LastEntryLeads(pm: PidMap, ps: seq<Program>, at: nat, i: nat)
    requires at <= |ps| && LastOf(ps, i)
    requires at <= i || (pm[ps[i].pmtPid].kind == Pmt && pm[ps[i].pmtPid].target == ProgramAt(i))
    ensures var e := PmtEntries(pm, ps, at)[ps[i].pmtPid]; e.kind == Pmt && e.target == ProgramAt(i)
    decreases |ps| - at
  {
    if at < |ps| {
      var p := ps[at].pmtPid;
      LastEntryLeads(pm[p := pm[p].(kind := Pmt, target := ProgramAt(at))], ps, at + 1, i);
    }
  }

  lemma {:induction false} ProgramsAreNew(entries: seq<PatEntry>)
    ensures forall p | p in NewPrograms(entries) :: p.pmt == NEW_PARSER && p.streams == [] && p.oldStreams == [] && p.phase == 0
    decreases |entries|
  {
    if entries != [] {
      ProgramsAreNew(entries[1..]);
    }
  }

  lemma PatLeads(roles: Roles, l: Links, ps: seq<Program>, entries: seq<PatEntry>, i: nat)
    requires PatFits(roles, entries) && LastOf(NewPrograms(entries), i)
    ensures var (l', ps') := ApplyPat(l, ps, entries);
      && ps' == NewPrograms(entries) && l'.pm[0].kind == Pat
      && l'.pm[ps'[i].pmtPid].kind == Pmt && l'.pm[ps'[i].pmtPid].target == ProgramAt(i)
  {
    hide ReleasePrograms, NewPrograms, PmtEntries;
    LastEntryLeads(seq(0x2000, _ => BLANK), NewPrograms(entries), 0, i);
    NewProgramsFit(roles, entries);
  }

  lemma OneMoreFits(roles: Roles, ts: seq<Table>, t: Table)
    requires GraphRuns.AllFit(roles, ts) && TableFits(roles, t)
    ensures GraphRuns.AllFit(roles, ts + [t])
  {
    hide TableFits;
  }

  lemma StartOfAll(roles: Roles, x: seq<byte>)
    ensures Waiting(ParserOf(NEW_STATE.pat), 0, x) && NEW_STATE.links == NEW_LINKS
    ensures NEW_STATE.programs == [] && NEW_STATE.ecmCalls == []
    ensures NEW_STATE.tables == [] && GraphRuns.AllFit(roles, [])
  {
  }

  lemma CarriesPayload(q: Packet188, x: seq<byte>)
    requires Carries(q, x)
    ensures !Bare(q) && |x| >= 3
  {
    hide Transport, UnitStart, Scrambling, BrokenPacket, PayloadAt;
  }

  /** The PAT ends the search for one, and takes effect. */
  lemma PatIsSeen(cfg: Config, roles: Roles, o: Programme, x: Sent) returns (s1: State)
    requires Coherent(cfg, roles, o) && OfProgramme(cfg, roles, o, x) && PartOf(cfg, o, x) == PatPart
    ensures var look := LookForPat(NEW_STATE, OnAir(x));
      && look.done && look.code == 0 && look.state.pat.Some? && look.state.pat.value.queue != []
      && ProcPat(look.state, look.state.pat.value) == (s1, 0)
    ensures PatKnown(roles, o, s1)
  {
    hide Valid, ApplyPat, PatFits, PmtFits, GraphRuns.AllFit, Carries, Tables.PatTooShort, Tables.Body, TT.PatBody, TT.PmtBytes,
      NewPrograms, PidOf, LastOf, MajorOf, StreamsOf, Settled, Put, ProcPat, Bare, Shares, Waiting, Streams.Stripped, OnAir;
    NewLinksValid(roles);
    StartOfAll(roles, o.patSection);
    OnAirPid(cfg, roles, o, x);
    CarriesPayload(x.clear, o.patSection);
    var s0 := NEW_STATE;
    var p := Put(ParserOf(s0.pat), PutOf(x.clear)).0;
    var pat := PatIsTaken(s0, x.clear, o.patSection, o.entries);
    ProcPatOnlyTakes(s0, s0.(pat := Some(p)), p);
    s1 := Applied(s0.(pat := Some(pat)), PatTable(o.entries));
    PatKeeps(roles, s0.links, [], o.entries);
    PatLeads(roles, s0.links, [], o.entries, o.index);
    OneMoreFits(roles, s0.tables, PatTable(o.entries));
  }

  /** Its parser is all that proc_pat sees of the one before. */
  lemma ProcPatOnlyTakes(s: State, s': State, pat: Parser)
    requires s' == s.(pat := s'.pat) && pat.queue != []
    ensures ProcPat(s', pat) == ProcPat(s, pat)
  {
    hide Applied, Tables.ReadPat, Tables.PatTooShort, Tables.Body;
  }

  // ------------------------------------------------------------------ the PMT

  lemma StillValid(roles: Roles, s: State, s': State)
    requires GraphRuns.SameShape(s.links, s'.links) && GraphRuns.SamePrograms(s.programs, s'.programs)
    requires Valid(roles, s.links, s.programs)
    ensures Valid(roles, s'.links, s'.programs)
  {
    hide GraphRuns.SameShape, GraphRuns.SamePrograms, Valid;
    GraphRuns.SameShapeSound(roles, s, s');
  }

  lemma NewWaits(pid: Pid, x: seq<byte>)
    ensures Waiting(NEW_PARSER, pid, x)
  {
  }

  lemma PmtRolePid(cfg: Config, roles: Roles, o: Programme)
    requires Coherent(cfg, roles, o)
    ensures roles(o.pmtPid) == PmtRole && roles(0) == PatRole && roles(MajorOf(cfg, o)) == EcmRole
  {
    hide NewPrograms, TT.PmtBytes, TT.PatBody, Tables.Body, Tables.PatTooShort, MajorOf, StreamsOf, Shares;
    NewProgramsFit(roles, o.entries);
  }

  /** What its first PMT does to the graph. */
  lemma PmtApplies(cfg: Config, roles: Roles, o: Programme, s: State, pmt: Parser) returns (s2: State, id: nat)
    requires Coherent(cfg, roles, o) && PatKnown(roles, o, s) && Settled(pmt, o.pmtPid, o.pmtSection)
    requires o.index < |s.programs|
    ensures s2 == Applied(WithPmt(s, o.index, pmt), PmtTable(o.index, MajorOf(cfg, o), StreamsOf(cfg, o)))
    ensures TablesKnown(cfg, roles, o, s2, id) && s2.ecmCalls == []
    ensures EcmPhase(cfg, o, s2.links, id, 0) && Fresh(s2.links, id) && PmtPhase(o, s2, 0)
  {
    hide Valid, ApplyPmt, PmtFits, PatFits, GraphRuns.AllFit, NewPrograms, Settled, Shares, LeadsTo, BoundTo, LastOf, OtherEcm,
      TT.PmtBytes, TT.PatBody, TT.Named, TT.Entries, GraphRuns.SameShape, GraphRuns.SamePrograms, Tables.Body, Tables.PatTooShort;
    var i, major, ess := o.index, MajorOf(cfg, o), StreamsOf(cfg, o);
    ProgramsAreNew(o.entries);
    assert s.programs[i] in s.programs;
    var s1 := WithPmt(s, i, pmt);
    GraphRuns.SelfShape(s.links, s.programs);
    GraphRuns.ParserShape(s.programs, i, pmt);
    StillValid(roles, s, s1);
    var shared: Pid :| Shares(ess, shared);
    id := FirstPmtBuilds(roles, s1.links, s1.programs, i, major, ess, shared);
    s2 := Applied(s1, PmtTable(i, major, ess));
    OneMoreFits(roles, s.tables, PmtTable(i, major, ess));
    EntriesStay(cfg, roles, o, s1);
    Chunking.TableKeepsParser(s1.links, s1.programs[i], major, ess);
  }

  /** The entries of the PAT and of its PMT. */
  lemma EntriesStay(cfg: Config, roles: Roles, o: Programme, s: State)
    requires Coherent(cfg, roles, o) && s.links.decs == map[] && o.index < |s.programs| && s.programs[o.index].oldStreams == []
    ensures var l' := ApplyPmt(s.links, s.programs[o.index], MajorOf(cfg, o), StreamsOf(cfg, o)).0;
      SameLead(s.links, l', 0) && SameLead(s.links, l', o.pmtPid)
  {
    hide ApplyPmt, NewPrograms, TT.PmtBytes, TT.PatBody, Tables.Body, Tables.PatTooShort, MajorOf, StreamsOf, SameLead, Shares,
      LastOf, PatFits;
    PmtRolePid(cfg, roles, o);
    var ess := StreamsOf(cfg, o);
    forall k | 0 <= k < |ess| ensures roles(ess[k].pid) == EsRole && (Real(ess[k].ecm) ==> roles(ess[k].ecm) == EcmRole) {
      assert EsFits(roles, ess[k]);
    }
    PmtLeavesAlone(s.links, s.programs[o.index], MajorOf(cfg, o), ess, 0);
    PmtLeavesAlone(s.links, s.programs[o.index], MajorOf(cfg, o), ess, o.pmtPid);
  }

  // --------------------------------------------------- the search for a PMT

  /** The state in the search for PMTs, after its PMT has come once or twice. */
  ghost predicate InTables(cfg: Config, roles: Roles, o: Programme, s: State, id: nat, phase: nat) {
    && TablesKnown(cfg, roles, o, s, id) && s.ecmCalls == [] && PmtPhase(o, s, phase)
    && EcmPhase(cfg, o, s.links, id, 0) && Fresh(s.links, id)
  }

  /** Its PMT takes effect, and is enough if there is no other program. */
  lemma PmtIsSeen(cfg: Config, roles: Roles, o: Programme, s: State, x: Sent) returns (s2: State, id: nat)
    requires Coherent(cfg, roles, o) && PatKnown(roles, o, s) && OfProgramme(cfg, roles, o, x) && PartOf(cfg, o, x) == PmtPart
    ensures LookForPmt(cfg, s, OnAir(x)) == Look(s2, |NewPrograms(o.entries)| == 1, 0)
    ensures InTables(cfg, roles, o, s2, id, 1)
  {
    hide Valid, Carries, Tables.PatTooShort, Tables.Body, TT.PatBody, TT.PmtBytes, NewPrograms, PidOf, TT.Named, TT.Entries,
      Settled, PmtPacket, Bare, Shares, Streams.Stripped, OnAir, PatFits, PmtFits, TablesKnown, EcmPhase, Fresh, Applied,
      PmtComplete;
    OnAirPid(cfg, roles, o, x);
    CarriesPayload(x.clear, o.pmtSection);
    ProgramsAreNew(o.entries);
    assert s.programs[o.index] in s.programs;
    NewWaits(o.pmtPid, o.pmtSection);
    var pmt := PmtIsTaken(cfg, s, x.clear, o.pmtSection, o.index, o.ds, o.streams, o.crc);
    var s1, d := PmtApplies(cfg, roles, o, s, pmt);
    id := d;
    s2 := WithPhase(s1, o.index, 1);
    PmtPhaseSet(cfg, roles, o, s1, id, 0, 1);
    PmtPhaseComplete(o, s2, 1);
  }

  /** That it has come before is written down, and nothing else changes. */
  lemma PmtPhaseSet(cfg: Config, roles: Roles, o: Programme, s: State, id: nat, phase: nat, phase': nat)
    requires TablesKnown(cfg, roles, o, s, id) && PmtPhase(o, s, phase)
    ensures var s' := WithPhase(s, o.index, phase');
      TablesKnown(cfg, roles, o, s', id) && PmtPhase(o, s', phase') && s'.links == s.links && s'.ecmCalls == s.ecmCalls
  {
    hide Settled, LeadsTo, Shares, BoundTo, MajorOf, StreamsOf, GraphRuns.AllFit;
  }

  /** When it comes again it is enough, whatever other programs there are. */
  lemma PmtIsSeenAgain(cfg: Config, roles: Roles, o: Programme, s: State, id: nat, x: Sent) returns (s2: State)
    requires InTables(cfg, roles, o, s, id, 1) && OfProgramme(cfg, roles, o, x) && PartOf(cfg, o, x) == PmtPart
    ensures LookForPmt(cfg, s, OnAir(x)) == Look(s2, true, 0) && InTables(cfg, roles, o, s2, id, 2)
  {
    hide Carries, PidOf, MajorOf, StreamsOf, Settled, OnAir, Streams.Stripped, EcmPhase, Fresh, PmtPacket, Shares, LeadsTo, BoundTo;
    OnAirPid(cfg, roles, o, x);
    PmtPhaseSet(cfg, roles, o, s, id, 1, 2);
    s2 := WithPhase(s, o.index, 2);
  }

  // --------------------------------------------------- the search for an ECM

  /** The card answers the first ECM it is asked about, and starts. */
  predicate Pays(cfg: Config, x: seq<byte>)
    requires |x| >= 3
  {
    var reply := cfg.ecm(0, Tables.Body(x));
    && cfg.hasCard && x[0] == 0x82 && Tables.Body(x) != [] && reply.status >= 0 && Purchased(reply.returnCode)
    && cfg.init(1).status >= 0
  }

  /** The card says that the first ECM is not paid for. */
  predicate Declines(cfg: Config, x: seq<byte>)
    requires |x| >= 3
  {
    var reply := cfg.ecm(0, Tables.Body(x));
    && cfg.hasCard && x[0] == 0x82 && Tables.Body(x) != [] && reply.status >= 0 && !Purchased(reply.returnCode)
  }

  predicate Answers(cfg: Config, x: seq<byte>, open: bool)
    requires |x| >= 3
  {
    if open then Pays(cfg, x) else Declines(cfg, x)
  }

  /** The code of proc_ecm for the first ECM. */
  function CodeOf(cfg: Config, open: bool): int {
    if open then cfg.init(1).status else WARN_UNPURCHASED_ECM
  }

  lemma CardAnswers(cfg: Config, s: State, id: nat, x: seq<byte>, open: bool)
    requires |x| >= 3 && Answers(cfg, x, open) && s.ecmCalls == []
    requires id in s.links.decs && s.links.decs[id].locked == 0 && s.links.decs[id].m2 == None
    ensures var (s', r) := EcmSection(cfg, s, id, x);
      && r == CodeOf(cfg, open) && id in s'.links.decs && s' == WithDec(s, id, s'.links.decs[id]).(ecmCalls := s'.ecmCalls)
      && |s'.ecmCalls| == 1 && s'.links.decs[id].ecm == s.links.decs[id].ecm && s'.links.decs[id].phase == s.links.decs[id].phase
      && if open
         then s'.links.decs[id].m2 == Some(Broadcast(cfg.init(1), cfg.round, cfg.ecm(0, Tables.Body(x)).key))
              && s'.links.decs[id].locked == 0
         else s'.links.decs[id].m2 == None && s'.links.decs[id].locked == 1
  {
    hide Tables.Body, Multi2.Schedule, Multi2.LoadBlock, Multi2.LoadKey;
  }

  /** A change to the decryptor alone, which stays where it is. */
  lemma DecChanges(cfg: Config, roles: Roles, o: Programme, s: State, id: nat, d: Dec, calls: seq<EcmCall>, p: nat, q: nat)
    requires TablesKnown(cfg, roles, o, s, id) && PmtPhase(o, s, p) && EcmPhase(cfg, o, s.links, id, q)
    ensures var s' := WithDec(s, id, d).(ecmCalls := calls);
      TablesKnown(cfg, roles, o, s', id) && PmtPhase(o, s', p) && EcmPhase(cfg, o, s'.links, id, d.phase)
  {
    hide Settled, Shares, MajorOf, StreamsOf, GraphRuns.AllFit, OtherEcm;
  }

  /** The state after the card has been asked: how often its PMT and its ECM have
      come, and whether the card has opened the stream. */
  ghost predicate InEcms(cfg: Config, roles: Roles, o: Programme, s: State, id: nat, p: nat, q: nat, open: bool)
    requires |o.ecmSection| >= 3
  {
    && TablesKnown(cfg, roles, o, s, id) && PmtPhase(o, s, p) && EcmPhase(cfg, o, s.links, id, q) && Asked(cfg, o, s, id, open)
  }

  /** The first ECM counts if the card is content, or declines. */
  function Heard(cfg: Config, open: bool): nat {
    if CodeOf(cfg, open) <= 1 then 1 else 0
  }

  lemma ReaderIsThere(cfg: Config, roles: Roles, o: Programme, s: State, id: nat, x: Sent)
    requires TablesKnown(cfg, roles, o, s, id) && OfProgramme(cfg, roles, o, x) && PartOf(cfg, o, x) == EcmPart
    ensures ReaderOf(s.links, PidOf(OnAir(x))) == Some(id) && OnAir(x) == x.clear && Conveys(cfg, x, o.ecmSection)
    ensures PidOf(x.clear) == MajorOf(cfg, o) && !Bare(x.clear)
  {
    hide Settled, Shares, MajorOf, StreamsOf, GraphRuns.AllFit, PidOf, OnAir, Carries, Streams.Stripped, Bare, BoundTo;
    OnAirPid(cfg, roles, o, x);
    CarriesPayload(x.clear, o.ecmSection);
  }

  /** The first ECM goes to the card. */
  lemma EcmIsSeen(cfg: Config, roles: Roles, o: Programme, s: State, id: nat, x: Sent, p: nat, open: bool) returns (s3: State)
    requires |o.ecmSection| >= 3 && Answers(cfg, o.ecmSection, open) && InTables(cfg, roles, o, s, id, p)
    requires OfProgramme(cfg, roles, o, x) && PartOf(cfg, o, x) == EcmPart
    ensures LookForEcm(cfg, s, OnAir(x)) == Look(s3, Heard(cfg, open) == 1 && EcmComplete(s3.links), 0)
    ensures InEcms(cfg, roles, o, s3, id, p, Heard(cfg, open), open)
  {
    hide TablesKnown, PmtPhase, EcmPhase, Settled, MajorOf, StreamsOf, PidOf, OnAir, Carries, Streams.Stripped, Bare, EcmPacket,
      EcmSection, EcmComplete, Tables.Body, Broadcast;
    ReaderIsThere(cfg, roles, o, s, id, x);
    NewWaits(MajorOf(cfg, o), o.ecmSection);
    AnswersByCard(cfg, o.ecmSection, open);
    var ecm := EcmIsTaken(cfg, s, x.clear, o.ecmSection, id);
    var d := s.links.decs[id].(ecm := ecm);
    EcmPhaseOf(cfg, o, s.links, id, 0);
    DecChanges(cfg, roles, o, s, id, d, s.ecmCalls, p, 0);
    var s1 := WithDec(s, id, d);
    assert s1.(ecmCalls := s.ecmCalls) == s1;
    CardAnswers(cfg, s1, id, o.ecmSection, open);
    var s2 := EcmSection(cfg, s1, id, o.ecmSection).0;
    var d2 := s2.links.decs[id];
    DecChanges(cfg, roles, o, s1, id, d2, s2.ecmCalls, p, 0);
    s3 := if CodeOf(cfg, open) <= 1 then WithDecPhase(s2, id, 1) else s2;
    DecChanges(cfg, roles, o, s2, id, d2.(phase := 1), s2.ecmCalls, p, 0);
  }

  lemma EcmPhaseOf(cfg: Config, o: Programme, l: Links, id: nat, phase: nat)
    requires EcmPhase(cfg, o, l, id, phase)
    ensures id in l.decs && l.decs[id].phase == phase
  {
  }

  lemma AnswersByCard(cfg: Config, x: seq<byte>, open: bool)
    requires |x| >= 3 && Answers(cfg, x, open)
    ensures cfg.hasCard && CodeOf(cfg, open) >= 0
  {
    hide Tables.Body;
  }

  /** One that comes again is enough, whatever other ECMs there are, unless the
      first did not count: then none ever does. */
  lemma EcmIsSeenAgain(cfg: Config, roles: Roles, o: Programme, s: State, id: nat, x: Sent, p: nat, q: nat, open: bool)
    returns (s3: State)
    requires |o.ecmSection| >= 3 && InEcms(cfg, roles, o, s, id, p, q, open) && q <= 1
    requires OfProgramme(cfg, roles, o, x) && PartOf(cfg, o, x) == EcmPart
    ensures LookForEcm(cfg, s, OnAir(x)) == Look(s3, q == 1, 0) && InEcms(cfg, roles, o, s3, id, p, 2 * q, open)
  {
    hide TablesKnown, PmtPhase, EcmPhase, Settled, MajorOf, StreamsOf, PidOf, OnAir, Streams.Stripped, Bare, Put, Transport,
      UnitStart, Scrambling, BrokenPacket, PayloadAt, Alone, KeysFor, EcmComplete;
    ReaderIsThere(cfg, roles, o, s, id, x);
    EcmPhaseOf(cfg, o, s.links, id, q);
    var c, d := x.clear, s.links.decs[id];
    if q == 1 {
      s3 := WithDecPhase(s, id, 2);
      DecChanges(cfg, roles, o, s, id, d.(phase := 2), s.ecmCalls, p, q);
    } else {
      OneSectionIsRepeated(d.ecm, PidOf(c), c[PayloadAt(c)..], o.ecmSection);
      var ecm := Put(d.ecm, PutOf(c)).0;
      NothingQueued(ecm, PidOf(c), o.ecmSection);
      s3 := WithDec(s, id, d.(ecm := ecm));
      DecChanges(cfg, roles, o, s, id, d.(ecm := ecm), s.ecmCalls, p, q);
    }
  }

  lemma NothingQueued(p: Parser, pid: Pid, x: seq<byte>)
    requires Settled(p, pid, x)
    ensures p.queue == []
  {
  }

  // ------------------------------------------------ packets that do not matter

  lemma NoPat(cfg: Config, roles: Roles, o: Programme, s: State, x: Sent)
    requires OfProgramme(cfg, roles, o, x) && PartOf(cfg, o, x) != PatPart
    ensures LookForPat(s, OnAir(x)) == Look(s, false, 0)
  {
    hide OfProgramme, PidOf, OnAir, MajorOf, Put, Bare;
    OnAirPid(cfg, roles, o, x);
  }

  lemma NoPmtYet(cfg: Config, roles: Roles, o: Programme, s: State, x: Sent)
    requires Coherent(cfg, roles, o) && PatKnown(roles, o, s)
    requires OfProgramme(cfg, roles, o, x) && PartOf(cfg, o, x) != PmtPart
    ensures LookForPmt(cfg, s, OnAir(x)) == Look(s, false, 0)
  {
    hide Coherent, PidOf, OnAir, MajorOf, StreamsOf, OrderFits, DecsCounted, PidsCounted, PmtPacket, Bare, PmtComplete, Settled,
      NewPrograms, Carries, Streams.Stripped, Shares;
    OnAirPid(cfg, roles, o, x);
    PmtRolePid(cfg, roles, o);
    var pid := PidOf(x.clear);
    assert EntryFits(roles(pid), s.links.pm[pid], s.links.decs, pid);
  }

  lemma NoPmtMore(cfg: Config, roles: Roles, o: Programme, s: State, id: nat, x: Sent)
    requires TablesKnown(cfg, roles, o, s, id) && OfProgramme(cfg, roles, o, x) && PartOf(cfg, o, x) != PmtPart
    ensures LookForPmt(cfg, s, OnAir(x)) == Look(s, false, 0)
  {
    hide PidOf, OnAir, MajorOf, StreamsOf, PmtPacket, Bare, PmtComplete, Settled, Carries, Streams.Stripped, Shares, BoundTo;
    OnAirPid(cfg, roles, o, x);
  }

  lemma NoEcm(cfg: Config, roles: Roles, o: Programme, s: State, id: nat, x: Sent)
    requires TablesKnown(cfg, roles, o, s, id) && OfProgramme(cfg, roles, o, x) && PartOf(cfg, o, x) != EcmPart
    ensures LookForEcm(cfg, s, OnAir(x)) == Look(s, false, 0)
  {
    hide PidOf, OnAir, MajorOf, StreamsOf, EcmPacket, Bare, EcmComplete, Settled, Carries, Streams.Stripped, Shares, BoundTo;
    OnAirPid(cfg, roles, o, x);
  }

  // ----------------------------------------------------------- the packet loop

  /** What a viewer sees of it. */
  function Shown(open: bool, x: Sent): Packet188 {
    if open then x.clear else OnAir(x)
  }

  /** If the card has opened the stream, it is scrambled under the keys of the ECM. */
  predicate Keyed(cfg: Config, o: Programme, x: Sent, open: bool)
    requires |o.ecmSection| >= 3
  {
    open && x.selector > 0 ==> x.keys == KeysFor(cfg, o)
  }

  lemma CountedStays(cfg: Config, roles: Roles, o: Programme, s: State, id: nat, p: nat, q: nat, open: bool, pid: Pid,
      normal: nat, undecrypted: nat)
    requires |o.ecmSection| >= 3 && InEcms(cfg, roles, o, s, id, p, q, open)
    ensures InEcms(cfg, roles, o, Counted(s, pid, normal, undecrypted), id, p, q, open)
  {
    hide Settled, Shares, MajorOf, StreamsOf, GraphRuns.AllFit, OtherEcm, KeysFor, Counted;
    CountedWays(s, pid, normal, undecrypted);
    CountedOnlyLinks(s, pid, normal, undecrypted);
  }

  lemma EntriesAre(cfg: Config, roles: Roles, o: Programme, s: State, id: nat)
    requires TablesKnown(cfg, roles, o, s, id)
    ensures s.links.pm[0].kind == Pat && s.links.pm[o.pmtPid].kind == Pmt && s.links.pm[o.pmtPid].target == ProgramAt(o.index)
    ensures s.pat.Some? && Settled(s.pat.value, 0, o.patSection)
    ensures o.index < |s.programs| && Settled(s.programs[o.index].pmt, o.pmtPid, o.pmtSection)
    ensures LeadsTo(s.links, MajorOf(cfg, o), id) && id in s.links.decs
  {
    hide Settled, Shares, MajorOf, StreamsOf, GraphRuns.AllFit, BoundTo, LeadsTo;
  }

  lemma PatPasses(cfg: Config, roles: Roles, o: Programme, s: State, id: nat, x: Sent, p: nat, q: nat, open: bool)
    returns (s': State)
    requires |o.ecmSection| >= 3 && InEcms(cfg, roles, o, s, id, p, q, open)
    requires Conveys(cfg, x, o.patSection) && PidOf(x.clear) == 0
    ensures Handle(cfg, s, x.clear) == Next(s', Some(x.clear), None) && InEcms(cfg, roles, o, s', id, p, q, open)
  {
    hide Carries, PidOf, Handle, Settled, MajorOf, StreamsOf, Counted, KeysFor, EcmPhase, Shares, BoundTo, LeadsTo,
      GraphRuns.AllFit;
    CountedStays(cfg, roles, o, s, id, p, q, open, 0, 1, 0);
    var pat := PatIsRepeated(cfg, s, x.clear, o.patSection);
    s' := Counted(s, 0, 1, 0).(pat := Some(pat));
  }

  lemma PmtPasses(cfg: Config, roles: Roles, o: Programme, s: State, id: nat, x: Sent, p: nat, q: nat, open: bool)
    returns (s': State)
    requires |o.ecmSection| >= 3 && InEcms(cfg, roles, o, s, id, p, q, open)
    requires Conveys(cfg, x, o.pmtSection) && PidOf(x.clear) == o.pmtPid
    ensures Handle(cfg, s, x.clear) == Next(s', Some(x.clear), None) && InEcms(cfg, roles, o, s', id, p, q, open)
  {
    hide Carries, PidOf, Handle, Settled, MajorOf, StreamsOf, Counted, KeysFor, EcmPhase, Shares, BoundTo, LeadsTo,
      GraphRuns.AllFit, Streams.Stripped;
    CountedStays(cfg, roles, o, s, id, p, q, open, o.pmtPid, 1, 0);
    var pmt := PmtIsRepeated(cfg, s, x.clear, o.pmtSection, o.index);
    s' := WithPmt(Counted(s, o.pmtPid, 1, 0), o.index, pmt);
  }

  lemma EcmPasses(cfg: Config, roles: Roles, o: Programme, s: State, id: nat, x: Sent, p: nat, q: nat, open: bool)
    returns (s': State)
    requires |o.ecmSection| >= 3 && InEcms(cfg, roles, o, s, id, p, q, open)
    requires Conveys(cfg, x, o.ecmSection) && PidOf(x.clear) == MajorOf(cfg, o)
    ensures Handle(cfg, s, x.clear) == Next(s', Some(x.clear), None) && InEcms(cfg, roles, o, s', id, p, q, open)
  {
    hide Carries, PidOf, Handle, Settled, MajorOf, StreamsOf, Counted, KeysFor, EcmPhase, Shares, TablesKnown, PmtPhase,
      GraphRuns.AllFit, Streams.Stripped;
    EntriesAre(cfg, roles, o, s, id);
    CountedStays(cfg, roles, o, s, id, p, q, open, PidOf(x.clear), 1, 0);
    var ecm := EcmIsRepeated(cfg, s, x.clear, o.ecmSection, id);
    var s1 := Counted(s, PidOf(x.clear), 1, 0);
    var d := s1.links.decs[id].(ecm := ecm);
    s' := WithDec(s1, id, d);
    EcmPhaseOf(cfg, o, s1.links, id, q);
    DecChanges(cfg, roles, o, s1, id, d, s1.ecmCalls, p, q);
    assert s'.(ecmCalls := s1.ecmCalls) == s';
  }

  lemma StreamPasses(cfg: Config, roles: Roles, o: Programme, s: State, id: nat, x: Sent, p: nat, q: nat, open: bool)
    returns (s': State)
    requires |o.ecmSection| >= 3 && InEcms(cfg, roles, o, s, id, p, q, open)
    requires StreamPacket(cfg, roles, o, x) && Keyed(cfg, o, x, open)
    ensures Handle(cfg, s, OnAir(x)) == Next(s', Some(Shown(open, x)), None) && InEcms(cfg, roles, o, s', id, p, q, open)
  {
    hide PidOf, Handle, Settled, MajorOf, StreamsOf, Counted, KeysFor, EcmPhase, Shares, PmtPhase, GraphRuns.AllFit,
      Streams.Stripped, OnAir, Scrambling, BrokenPacket, Transport, HasPayload, LeadsTo, AllKeys;
    var pid := PidOf(x.clear);
    if open {
      KeysAreAll(cfg, o);
      PlainComesOutClear(cfg, s, x);
      CountedStays(cfg, roles, o, s, id, p, q, open, pid, 1, 0);
      s' := Counted(s, pid, 1, 0);
    } else {
      SealedStays(cfg, s, x);
      var normal := if x.selector > 0 then 0 else 1;
      CountedStays(cfg, roles, o, s, id, p, q, open, pid, normal, 1 - normal);
      s' := Counted(s, pid, normal, 1 - normal);
    }
  }

  lemma KeysAreAll(cfg: Config, o: Programme)
    requires |o.ecmSection| >= 3
    ensures AllKeys(KeysFor(cfg, o))
  {
    hide Broadcast, Tables.Body;
    BroadcastIsReady(cfg.init(1), cfg.round, cfg.ecm(0, Tables.Body(o.ecmSection)).key);
  }

  /** Every packet comes out, the streams' as the card has it. */
  lemma PacketPasses(cfg: Config, roles: Roles, o: Programme, s: State, id: nat, x: Sent, p: nat, q: nat, open: bool)
    returns (s': State)
    requires |o.ecmSection| >= 3 && InEcms(cfg, roles, o, s, id, p, q, open)
    requires OfProgramme(cfg, roles, o, x) && Keyed(cfg, o, x, open)
    ensures Handle(cfg, s, OnAir(x)) == Next(s', Some(Shown(open, x)), None) && InEcms(cfg, roles, o, s', id, p, q, open)
  {
    hide PidOf, Handle, InEcms, OnAir, Conveys, StreamPacket, MajorOf, Keyed;
    OnAirPid(cfg, roles, o, x);
    match PartOf(cfg, o, x)
    case PatPart => s' := PatPasses(cfg, roles, o, s, id, x, p, q, open);
    case PmtPart => s' := PmtPasses(cfg, roles, o, s, id, x, p, q, open);
    case EcmPart => s' := EcmPasses(cfg, roles, o, s, id, x, p, q, open);
    case StreamPart => s' := StreamPasses(cfg, roles, o, s, id, x, p, q, open);
  }
}
