// The graph over whole runs of the packet loop: both kinds of reference counts
// stay exact from packet to packet, as long as the tables that take effect keep
// every PID to one role.

module GraphRuns {
  import opened Bytes
  import opened SectionModel
  import opened PidGraph
  import opened PidInvariant
  import opened Core
  import opened Framing
  import opened Tallies
  import opened Search
  import Multi2

  /** The state's graph and programs fit together. */
  ghost predicate Sound(roles: Roles, s: State) {
    Valid(roles, s.links, s.programs)
  }

  ghost predicate Leads(s: State) {
    ProgramsFit(s.links, s.programs)
  }

  /** The same references between the same things; counters, locks, keys and
      section parsers may differ. */
  ghost predicate SameShape(l: Links, l': Links) {
    && l'.order == l.order && l'.nextId == l.nextId && l'.decs.Keys == l.decs.Keys
    && (forall p: Pid :: SameEntry(l.pm[p], l'.pm[p]))
    && (forall id | id in l.decs :: l'.decs[id].ref == l.decs[id].ref && l'.decs[id].ecmPid == l.decs[id].ecmPid)
  }

  predicate SameEntry(e: Entry, e': Entry) {
    e'.ref == e.ref && e'.kind == e.kind && e'.target == e.target
  }

  ghost predicate SamePrograms(ps: seq<Program>, ps': seq<Program>) {
    |ps'| == |ps| && forall i | 0 <= i < |ps| :: SameLists(ps[i], ps'[i])
  }

  predicate SameLists(p: Program, p': Program) {
    p'.pmtPid == p.pmtPid && p'.streams == p.streams && p'.oldStreams == p.oldStreams
  }

  lemma {:induction false} SameProgramsListed(ps: seq<Program>, ps': seq<Program>)
    requires SamePrograms(ps, ps')
    ensures AllListed(ps') == AllListed(ps)
    decreases |ps|
  {
    hide Listed;
    if ps != [] {
      assert SameLists(ps[0], ps'[0]);
      forall i | 0 <= i < |ps[1..]| ensures SameLists(ps[1..][i], ps'[1..][i]) {
        assert SameLists(ps[i + 1], ps'[i + 1]);
      }
      SameProgramsListed(ps[1..], ps'[1..]);
    }
  }

  lemma SameShapeBound(l: Links, l': Links, id: nat)
    requires SameShape(l, l')
    ensures BoundPids(l'.pm, id) == BoundPids(l.pm, id)
  {
    forall p: Pid ensures l'.pm[p].kind == l.pm[p].kind && l'.pm[p].target == l.pm[p].target {
      assert SameEntry(l.pm[p], l'.pm[p]);
    }
  }

  lemma SameShapeInv(roles: Roles, l: Links, l': Links, uses: multiset<nat>)
    requires SameShape(l, l') && Inv(roles, l, uses, None, {})
    ensures Inv(roles, l', uses, None, {})
  {
    forall p: Pid ensures EntryFits(roles(p), l'.pm[p], l'.decs, p) {
      assert SameEntry(l.pm[p], l'.pm[p]);
      assert EntryFits(roles(p), l.pm[p], l.decs, p);
    }
    forall p: Pid | Shared(roles(p)) ensures l'.pm[p].ref == uses[p] {
      assert SameEntry(l.pm[p], l'.pm[p]);
    }
    forall id | id in l'.decs
      ensures roles(l'.decs[id].ecmPid) == EcmRole && l'.decs[id].ref == |BoundPids(l'.pm, id)| && l'.decs[id].ref >= 1
    {
      SameShapeBound(l, l', id);
    }
  }

  lemma SameShapeSound(roles: Roles, s: State, s': State)
    requires SameShape(s.links, s'.links) && SamePrograms(s.programs, s'.programs) && Sound(roles, s)
    ensures Sound(roles, s')
  {
    hide Inv, SameShape, AllListed;
    SameProgramsListed(s.programs, s'.programs);
    SameShapeInv(roles, s.links, s'.links, AllListed(s.programs));
    forall i | 0 <= i < |s'.programs| ensures roles(s'.programs[i].pmtPid) == PmtRole {
      assert SameLists(s.programs[i], s'.programs[i]);
    }
  }

  lemma SameShapeLeads(s: State, s': State)
    requires SameShape(s.links, s'.links) && SamePrograms(s.programs, s'.programs) && Leads(s)
    ensures Leads(s')
  {
    forall p: Pid ensures EntryLeads(s'.links.pm[p], p, s'.programs) {
      assert SameEntry(s.links.pm[p], s'.links.pm[p]) && EntryLeads(s.links.pm[p], p, s.programs);
      if s.links.pm[p].target.ProgramAt? {
        assert SameLists(s.programs[s.links.pm[p].target.index], s'.programs[s.links.pm[p].target.index]);
      }
    }
  }

  // ------------------------------------------------------ stretches of a run

  /** The tables that took effect between two states. */
  function NewTables(s: State, s': State): seq<Table>
    requires s.tables <= s'.tables
  {
    s'.tables[|s.tables|..]
  }

  ghost predicate AllFit(roles: Roles, ts: seq<Table>) {
    forall i | 0 <= i < |ts| :: TableFits(roles, ts[i])
  }

  /** A stretch keeps the graph sound if its tables fit. */
  ghost predicate Keeps(roles: Roles, s: State, s': State) {
    && s.tables <= s'.tables && (Sound(roles, s) && AllFit(roles, NewTables(s, s')) ==> Sound(roles, s'))
    && (Leads(s) ==> Leads(s'))
  }

  lemma KeepsTwice(roles: Roles, s: State, s1: State, s2: State)
    requires Keeps(roles, s, s1) && Keeps(roles, s1, s2)
    ensures Keeps(roles, s, s2)
  {
    hide Sound, TableFits, Leads;
    var a, b := NewTables(s, s1), NewTables(s1, s2);
    assert NewTables(s, s2) == a + b;
    if AllFit(roles, a + b) {
      forall i | 0 <= i < |a| ensures TableFits(roles, a[i]) {
        assert TableFits(roles, (a + b)[i]);
      }
      forall i | 0 <= i < |b| ensures TableFits(roles, b[i]) {
        assert TableFits(roles, (a + b)[|a| + i]);
      }
    }
  }

  lemma ShapeKeeps(roles: Roles, s: State, s': State)
    requires SameShape(s.links, s'.links) && SamePrograms(s.programs, s'.programs) && s'.tables == s.tables
    ensures Keeps(roles, s, s')
  {
    hide SameShape, SamePrograms, Sound, Leads;
    if Sound(roles, s) {
      SameShapeSound(roles, s, s');
    }
    if Leads(s) {
      SameShapeLeads(s, s');
    }
  }

  lemma AppliedKeeps(roles: Roles, s: State, t: Table)
    ensures Keeps(roles, s, Applied(s, t))
  {
    hide Apply, TableFits, Valid, ProgramsFit;
    assert NewTables(s, Applied(s, t)) == [t];
    if Sound(roles, s) && AllFit(roles, [t]) {
      assert TableFits(roles, [t][0]);
      ApplyKeeps(roles, s.links, s.programs, t);
    }
    if Leads(s) {
      ApplyLeads(s.links, s.programs, t);
    }
  }

  lemma SelfShape(l: Links, ps: seq<Program>)
    ensures SameShape(l, l) && SamePrograms(ps, ps)
  {
  }

  lemma DecShape(s: State, id: nat, d: Dec)
    requires id in s.links.decs && d.ref == s.links.decs[id].ref && d.ecmPid == s.links.decs[id].ecmPid
    ensures SameShape(s.links, WithDec(s, id, d).links)
  {
  }

  lemma ShapeTwice(l: Links, l1: Links, l2: Links)
    requires SameShape(l, l1) && SameShape(l1, l2)
    ensures SameShape(l, l2)
  {
    forall p: Pid ensures SameEntry(l.pm[p], l2.pm[p]) {
      assert SameEntry(l.pm[p], l1.pm[p]);
      assert SameEntry(l1.pm[p], l2.pm[p]);
    }
  }

  lemma CountedShape(s: State, pid: Pid, normal: nat, undecrypted: nat)
    ensures SameShape(s.links, Counted(s, pid, normal, undecrypted).links)
  {
  }

  lemma UnlockedShape(l: Links)
    ensures SameShape(l, UnlockAll(l))
  {
  }

  lemma ParserShape(ps: seq<Program>, i: nat, pmt: Parser)
    requires i < |ps|
    ensures SamePrograms(ps, ps[i := ps[i].(pmt := pmt)])
  {
  }

  // ----------------------------------------------------------- one packet

  /** Only the graph's decorations differ. */
  ghost predicate Calm(s: State, s': State) {
    SameShape(s.links, s'.links) && s'.programs == s.programs && s'.tables == s.tables
  }

  lemma CalmTwice(s: State, s1: State, s2: State)
    requires Calm(s, s1) && Calm(s1, s2)
    ensures Calm(s, s2)
  {
    hide SameShape;
    ShapeTwice(s.links, s1.links, s2.links);
  }

  lemma EcmIsCalm(cfg: Config, s: State, id: nat, put: Packet)
    requires id in s.links.decs
    ensures Calm(s, EcmPacket(cfg, s, id, put).0)
  {
    hide Put, EcmSection, SameShape;
    var ecm := Put(s.links.decs[id].ecm, put).0;
    var s1 := WithDec(s, id, s.links.decs[id].(ecm := ecm));
    DecShape(s, id, s.links.decs[id].(ecm := ecm));
    var (ecm', got) := Get(ecm);
    if got.Some? && |got.value| >= 3 {
      var s2 := WithDec(s1, id, s1.links.decs[id].(ecm := ecm'));
      DecShape(s1, id, s1.links.decs[id].(ecm := ecm'));
      CalmTwice(s, s1, s2);
      EcmSectionIsCalm(cfg, s2, id, got.value);
      CalmTwice(s, s2, EcmSection(cfg, s2, id, got.value).0);
    }
  }

  lemma EcmSectionIsCalm(cfg: Config, s: State, id: nat, raw: seq<byte>)
    requires id in s.links.decs && |raw| >= 3
    ensures Calm(s, EcmSection(cfg, s, id, raw).0)
  {
    hide Tables.Body, SameShape;
    SelfShape(s.links, s.programs);
    var s' := EcmSection(cfg, s, id, raw).0;
    DecShape(s, id, s'.links.decs[id]);
  }

  lemma {:induction false} EmmForIdsIsCalm(cfg: Config, s: State, element: seq<byte>, ids: seq<int>)
    requires |element| >= 6
    ensures Calm(s, EmmForIds(cfg, s, element, ids).0)
    decreases |ids|
  {
    hide SameShape, UnlockAll, CardId;
    SelfShape(s.links, s.programs);
    UnlockedShape(s.links);
    if ids != [] {
      var n := cfg.emm(|s.emmCalls|, element);
      var s1 := s.(emmCalls := s.emmCalls + [EmmCall(element, n)]);
      var s2 := s1.(links := UnlockAll(s1.links));
      EmmForIdsIsCalm(cfg, s, element, ids[1..]);
      EmmForIdsIsCalm(cfg, s2, element, ids[1..]);
      CalmTwice(s, s2, EmmForIds(cfg, s2, element, ids[1..]).0);
    }
  }

  lemma {:induction false} EmmElementsIsCalm(cfg: Config, s: State, data: seq<byte>)
    ensures Calm(s, EmmElements(cfg, s, data).0)
    decreases |data|
  {
    hide SameShape, EmmForIds;
    SelfShape(s.links, s.programs);
    if |data| >= 13 && data[6] as int + 7 <= |data| {
      var len := data[6] as int + 7;
      var s1 := EmmForIds(cfg, s, data[..len], cfg.casIds).0;
      EmmForIdsIsCalm(cfg, s, data[..len], cfg.casIds);
      EmmElementsIsCalm(cfg, s1, data[len..]);
      CalmTwice(s, s1, EmmElements(cfg, s1, data[len..]).0);
    }
  }

  lemma {:induction false} ProcEmmIsCalm(cfg: Config, s: State, emm: Parser)
    ensures Calm(s, ProcEmm(cfg, s, emm).0)
    decreases |emm.queue|
  {
    hide SameShape, EmmElements, Tables.Body;
    SelfShape(s.links, s.programs);
    if emm.queue != [] {
      var (emm', got) := Get(emm);
      ProcEmmIsCalm(cfg, s, emm');
      if |got.value| >= 3 {
        var s1 := EmmElements(cfg, s, Tables.Body(got.value)).0;
        EmmElementsIsCalm(cfg, s, Tables.Body(got.value));
        ProcEmmIsCalm(cfg, s1, emm');
        CalmTwice(s, s1, ProcEmm(cfg, s1, emm').0);
      }
    }
  }

  lemma CalmKeeps(roles: Roles, s: State, s': State)
    requires Calm(s, s')
    ensures Keeps(roles, s, s')
  {
    hide SameShape, Keeps;
    SelfShape(s.links, s.programs);
    ShapeKeeps(roles, s, s');
  }

  lemma PmtKeepsSound(roles: Roles, cfg: Config, s: State, i: nat, put: Packet)
    requires i < |s.programs|
    ensures Keeps(roles, s, PmtPacket(cfg, s, i, put).0)
  {
    hide Put, Tables.ReadPmt, Applied, SameShape, Keeps, SamePrograms;
    SelfShape(s.links, s.programs);
    var pmt := Put(s.programs[i].pmt, put).0;
    ParserShape(s.programs, i, pmt);
    ShapeKeeps(roles, s, s.(programs := s.programs[i := s.programs[i].(pmt := pmt)]));
    if pmt.queue != [] {
      var (pmt', got) := Get(pmt);
      ParserShape(s.programs, i, pmt');
      var s2 := s.(programs := s.programs[i := s.programs[i].(pmt := pmt')]);
      ShapeKeeps(roles, s, s2);
      if |got.value| >= 3 && got.value[0] == 0x02 && Tables.ReadPmt(got.value, cfg.caSystemId).PmtRead? {
        var read := Tables.ReadPmt(got.value, cfg.caSystemId);
        AppliedKeeps(roles, s2, PmtTable(i, read.major, read.ess));
        KeepsTwice(roles, s, s2, Applied(s2, PmtTable(i, read.major, read.ess)));
      }
    }
  }

  lemma CatKeepsSound(roles: Roles, cfg: Config, s: State, put: Packet)
    ensures Keeps(roles, s, CatPacket(cfg, s, put).0)
  {
    hide Put, Tables.FindCa, Tables.Body, Applied, SameShape, Keeps, SamePrograms;
    SelfShape(s.links, s.programs);
    var cat := Put(ParserOf(s.cat), put).0;
    ShapeKeeps(roles, s, s.(cat := Some(cat)));
    if cat.queue != [] {
      var (cat', got) := Get(cat);
      var s2 := s.(cat := Some(cat'));
      ShapeKeeps(roles, s, s2);
      if |got.value| >= 3 && got.value[0] == 0x01 {
        var emm := Tables.FindCa(Tables.Body(got.value), cfg.caSystemId);
        var s3 := Applied(s2, CatTable(emm));
        AppliedKeeps(roles, s2, CatTable(emm));
        KeepsTwice(roles, s, s2, s3);
        SelfShape(s3.links, s3.programs);
        var s4 := s3.(emmPid := if Real(emm) then emm else s2.emmPid);
        ShapeKeeps(roles, s3, s4);
        KeepsTwice(roles, s, s3, s4);
      }
    }
  }

  lemma PatKeepsSound(roles: Roles, s: State, put: Packet)
    ensures Keeps(roles, s, PatPacket(s, put).0)
  {
    hide Put, Tables.ReadPat, Tables.PatTooShort, Tables.Body, Applied, SameShape, Keeps, SamePrograms;
    SelfShape(s.links, s.programs);
    var pat := Put(ParserOf(s.pat), put).0;
    ShapeKeeps(roles, s, s.(pat := Some(pat)));
    if pat.queue != [] {
      var (pat', got) := Get(pat);
      var s2 := s.(pat := Some(pat'));
      ShapeKeeps(roles, s, s2);
      if |got.value| >= 3 {
        var t := PatTable(Tables.ReadPat(Tables.Body(got.value)));
        AppliedKeeps(roles, s2, t);
        KeepsTwice(roles, s, s2, Applied(s2, t));
      }
    }
  }

  lemma EmmKeepsSound(roles: Roles, cfg: Config, s: State, put: Packet)
    ensures Keeps(roles, s, EmmPacket(cfg, s, put).0)
  {
    hide Put, ProcEmm, SameShape, Keeps;
    SelfShape(s.links, s.programs);
    var emm := Put(ParserOf(s.emm), put).0;
    var s1 := s.(emm := Some(emm));
    var s2 := ProcEmm(cfg, s1, emm).0;
    ProcEmmIsCalm(cfg, s1, emm);
    CalmTwice(s, s1, s2);
    CalmKeeps(roles, s, s);
    CalmKeeps(roles, s, s1);
    CalmKeeps(roles, s, s2.(emm := Some(ProcEmm(cfg, s1, emm).1)));
  }

  lemma DispatchKeepsSound(roles: Roles, cfg: Config, s: State, q: Packet188)
    ensures Keeps(roles, s, Dispatch(cfg, s, q).0)
  {
    hide Keeps, EcmPacket, PmtPacket, EmmPacket, CatPacket, PatPacket, SameShape;
    var pid, e := PidOf(q), s.links.pm[PidOf(q)];
    var put := PutOf(q);
    SelfShape(s.links, s.programs);
    CalmKeeps(roles, s, s);
    if e.kind == Ecm && e.target.Decryptor? && e.target.id in s.links.decs {
      EcmIsCalm(cfg, s, e.target.id, put);
      CalmKeeps(roles, s, EcmPacket(cfg, s, e.target.id, put).0);
    } else if e.kind == Pmt && e.target.ProgramAt? && e.target.index < |s.programs| {
      PmtKeepsSound(roles, cfg, s, e.target.index, put);
    }
    EmmKeepsSound(roles, cfg, s, put);
    CatKeepsSound(roles, cfg, s, put);
    PatKeepsSound(roles, s, put);
  }

  lemma HandleKeepsSound(roles: Roles, cfg: Config, s: State, p: Packet188)
    ensures !Handle(cfg, s, p).Skip? ==> Keeps(roles, s, Handle(cfg, s, p).state)
  {
    hide Keeps, Dispatch, SameShape, Multi2.CbcDecrypt, Counted;
    SelfShape(s.links, s.programs);
    CalmKeeps(roles, s, s);
    if Transport(p) == 0 && !(PidOf(p) == 0x1fff && cfg.strip) && !BrokenPacket(p) {
      var (s1, q, r) := Descramble(s, p);
      CountedIsCalm(s, PidOf(p));
      CalmKeeps(roles, s, s1);
      DispatchKeepsSound(roles, cfg, s1, q);
      KeepsTwice(roles, s, s1, Dispatch(cfg, s1, q).0);
    }
  }

  lemma CountedIsCalm(s: State, pid: Pid)
    ensures Calm(s, Counted(s, pid, 1, 0)) && Calm(s, Counted(s, pid, 0, 1))
  {
    hide SameShape;
    CountedShape(s, pid, 1, 0);
    CountedShape(s, pid, 0, 1);
  }

  lemma TurnKeepsSound(roles: Roles, cfg: Config, unit: nat, s: State, buf: seq<byte>)
    requires 188 <= unit
    ensures !TurnOf(cfg, unit, s, buf).Halt? ==> Keeps(roles, s, TurnOf(cfg, unit, s, buf).state)
  {
    hide Handle, Keeps, Cursor, SameShape;
    SelfShape(s.links, s.programs);
    CalmKeeps(roles, s, s);
    if !TurnOf(cfg, unit, s, buf).Halt? {
      var q := Cursor(buf, unit).value;
      HandleKeepsSound(roles, cfg, s, buf[q..q + 188]);
    }
  }

  lemma {:induction false} ScanKeeps(roles: Roles, cfg: Config, unit: nat, s: State, buf: seq<byte>, at: nat)
    requires 188 <= unit
    ensures Keeps(roles, s, Scan(cfg, unit, s, buf, at).state)
    decreases |buf|
  {
    hide Scan, TurnOf, Keeps, SameShape;
    ScanUnfolds(cfg, unit, s, buf, at);
    var t := TurnOf(cfg, unit, s, buf);
    TurnKeepsSound(roles, cfg, unit, s, buf);
    SelfShape(s.links, s.programs);
    CalmKeeps(roles, s, s);
    if t.Go? {
      ScanKeeps(roles, cfg, unit, t.state, buf[t.past..], at + t.past);
      KeepsTwice(roles, s, t.state, Scan(cfg, unit, t.state, buf[t.past..], at + t.past).state);
    }
  }

  // ------------------------------------------------------ before the packet loop

  lemma ProcPatKeepsSound(roles: Roles, s: State, pat: Parser)
    requires pat.queue != []
    ensures Keeps(roles, s, ProcPat(s, pat).0)
  {
    hide Tables.ReadPat, Tables.PatTooShort, Tables.Body, Applied, SameShape, Keeps, SamePrograms;
    SelfShape(s.links, s.programs);
    var (pat', got) := Get(pat);
    var s1 := s.(pat := Some(pat'));
    ShapeKeeps(roles, s, s1);
    if |got.value| >= 3 {
      var t := PatTable(Tables.ReadPat(Tables.Body(got.value)));
      AppliedKeeps(roles, s1, t);
      KeepsTwice(roles, s, s1, Applied(s1, t));
    }
  }

  lemma PhaseShape(s: State, i: nat, phase: nat)
    ensures SameShape(s.links, WithPhase(s, i, phase).links) && SamePrograms(s.programs, WithPhase(s, i, phase).programs)
  {
  }

  lemma PhaseKeeps(roles: Roles, s: State, i: nat, phase: nat)
    ensures Keeps(roles, s, WithPhase(s, i, phase))
  {
    hide SameShape, SamePrograms, Keeps;
    PhaseShape(s, i, phase);
    ShapeKeeps(roles, s, WithPhase(s, i, phase));
  }

  lemma DecPhaseKeeps(roles: Roles, s: State, id: nat, phase: nat)
    ensures Keeps(roles, s, WithDecPhase(s, id, phase))
  {
    hide SameShape, Keeps;
    SelfShape(s.links, s.programs);
    if id in s.links.decs {
      DecShape(s, id, s.links.decs[id].(phase := phase));
    }
    CalmKeeps(roles, s, WithDecPhase(s, id, phase));
  }

  lemma LookKeeps(roles: Roles, cfg: Config, hunt: Hunt, s: State, p: Packet188)
    ensures Keeps(roles, s, LookAt(cfg, hunt, s, p).state)
  {
    hide Keeps, Put, PmtPacket, EcmPacket, SameShape, SamePrograms, PidOf, Bare, PmtComplete, EcmComplete;
    SelfShape(s.links, s.programs);
    ShapeKeeps(roles, s, s);
    match hunt
    case ForPat =>
      ShapeKeeps(roles, s, s.(pat := Some(Put(ParserOf(s.pat), PutOf(p)).0)));
    case ForPmt =>
      var i := ProgramOf(s, PidOf(p));
      if i.Some? {
        PhaseKeeps(roles, s, i.value, 2);
        PmtKeepsSound(roles, cfg, s, i.value, PutOf(p));
        var s1 := PmtPacket(cfg, s, i.value, PutOf(p)).0;
        PhaseKeeps(roles, s1, i.value, 1);
        KeepsTwice(roles, s, s1, WithPhase(s1, i.value, 1));
      }
    case ForEcm =>
      var id := ReaderOf(s.links, PidOf(p));
      if id.Some? {
        DecPhaseKeeps(roles, s, id.value, 2);
        EcmIsCalm(cfg, s, id.value, PutOf(p));
        var s1 := EcmPacket(cfg, s, id.value, PutOf(p)).0;
        CalmKeeps(roles, s, s1);
        DecPhaseKeeps(roles, s1, id.value, 1);
        KeepsTwice(roles, s, s1, WithDecPhase(s1, id.value, 1));
      }
  }

  lemma SelfKeeps(roles: Roles, s: State)
    ensures Keeps(roles, s, s)
  {
    hide SameShape, Keeps;
    SelfShape(s.links, s.programs);
    CalmKeeps(roles, s, s);
  }

  lemma {:induction false} SweepKeeps(roles: Roles, cfg: Config, unit: nat, hunt: Hunt, s: State, buf: seq<byte>, from: nat)
    requires 188 <= unit
    ensures Keeps(roles, s, Sweep(cfg, unit, hunt, s, buf, from).state)
    decreases |buf| - from
  {
    hide Keeps, LookAt, Cursor;
    SelfKeeps(roles, s);
    if from + unit < |buf| && Cursor(buf[from..], unit).Some? {
      var at := from + Cursor(buf[from..], unit).value;
      var look := LookAt(cfg, hunt, s, buf[at..at + 188]);
      LookKeeps(roles, cfg, hunt, s, buf[at..at + 188]);
      if !look.done {
        SweepKeeps(roles, cfg, unit, hunt, look.state, buf, at + unit);
        KeepsTwice(roles, s, look.state, Sweep(cfg, unit, hunt, look.state, buf, at + unit).state);
      }
    }
  }

  lemma FindPatKeeps(roles: Roles, cfg: Config, unit: nat, s: State, buf: seq<byte>, from: nat)
    requires 188 <= unit
    ensures Keeps(roles, s, FindPat(cfg, unit, s, buf, from).state)
  {
    hide Keeps, Sweep, ProcPat;
    SweepKeeps(roles, cfg, unit, ForPat, s, buf, from);
    var r := Sweep(cfg, unit, ForPat, s, buf, from);
    if r.state.pat.Some? && r.state.pat.value.queue != [] {
      ProcPatKeepsSound(roles, r.state, r.state.pat.value);
      KeepsTwice(roles, s, r.state, ProcPat(r.state, r.state.pat.value).0);
    }
  }

  lemma AdmitKeeps(roles: Roles, cfg: Config, unit: nat, s: State, buf: seq<byte>, from: nat)
    requires 188 <= unit
    ensures Keeps(roles, s, Admit(cfg, unit, s, buf, from).state)
  {
    hide Keeps, Sweep, FindPat, PmtComplete, EcmComplete;
    SelfKeeps(roles, s);
    FindPatKeeps(roles, cfg, unit, s, buf, from);
    var g1 := PatGate(cfg, unit, s, buf, from);
    if g1.Through? {
      SelfKeeps(roles, g1.state);
      SweepKeeps(roles, cfg, unit, ForPmt, g1.state, buf, g1.offset);
      var g2 := PmtGate(cfg, unit, g1.state, buf, g1.offset);
      KeepsTwice(roles, s, g1.state, g2.state);
      if g2.Through? {
        SelfKeeps(roles, g2.state);
        SweepKeeps(roles, cfg, unit, ForEcm, g2.state, buf, g2.offset);
        KeepsTwice(roles, s, g2.state, EcmGate(cfg, unit, g2.state, buf, g2.offset).state);
      }
    }
  }

  lemma PutKeeps(roles: Roles, cfg: Config, b: Session, data: seq<byte>, at: nat)
    ensures Keeps(roles, b.core, PutCall(cfg, b, data, at).session.core)
  {
    hide Keeps, Scan, Admit, Found;
    SelfKeeps(roles, b.core);
    var buf := b.rest + data;
    var unit := if b.unit < 188 then Detected(buf) else Some(b.unit);
    if unit.Some? {
      AdmitKeeps(roles, cfg, unit.value, b.core, buf, b.offset);
      var g := Admit(cfg, unit.value, b.core, buf, b.offset);
      if g.Through? {
        ScanKeeps(roles, cfg, unit.value, g.state, buf, at);
        KeepsTwice(roles, b.core, g.state, Scan(cfg, unit.value, g.state, buf, at).state);
      }
    }
  }

  lemma {:induction false} PutsKeep(roles: Roles, cfg: Config, r: Called, chunks: seq<seq<byte>>, at: nat)
    requires |r.session.rest| <= at
    ensures Keeps(roles, r.session.core, Puts(cfg, r, chunks, at).session.core)
    decreases |chunks|
  {
    hide Keeps, PutCall;
    SelfKeeps(roles, r.session.core);
    if chunks != [] {
      var r1 := PutMore(cfg, r, chunks[0], at - |r.session.rest|);
      PutKeeps(roles, cfg, r.session, chunks[0], at - |r.session.rest|);
      PutsKeep(roles, cfg, r1, chunks[1..], at + |chunks[0]|);
      KeepsTwice(roles, r.session.core, r1.session.core, Puts(cfg, r1, chunks[1..], at + |chunks[0]|).session.core);
    }
  }

  // -------------------------------------------------------------- whole runs

  /** From any state with a sound graph, whatever bytes are put in whatever pieces,
      and however each put ends: if the tables that took effect since kept the PIDs
      to their roles, then all reference counts are exact, no map entry dangles,
      and releasing the programs leaves no decryptor. */
  lemma GraphStaysSound(roles: Roles, cfg: Config, r: Called, chunks: seq<seq<byte>>, at: nat)
    requires |r.session.rest| <= at && Valid(roles, r.session.core.links, r.session.core.programs)
    ensures var s, s' := r.session.core, Puts(cfg, r, chunks, at).session.core;
      && s.tables <= s'.tables
      && (AllFit(roles, s'.tables[|s.tables|..]) ==>
            && Valid(roles, s'.links, s'.programs)
            && ReleasePrograms(s'.links, s'.programs).decs == map[] && ReleasePrograms(s'.links, s'.programs).order == [])
  {
    hide Puts, Valid, ReleasePrograms, AllFit, Leads;
    PutsKeep(roles, cfg, r, chunks, at);
    var s, s' := r.session.core, Puts(cfg, r, chunks, at).session.core;
    if AllFit(roles, s'.tables[|s.tables|..]) {
      assert s'.tables[|s.tables|..] == NewTables(s, s');
      ReleasedLeavesNothing(roles, s'.links, s'.programs);
    }
  }

  /** A new descrambler starts with a sound graph. */
  lemma NewIsSound(roles: Roles)
    ensures Valid(roles, NEW_STATE.links, NEW_STATE.programs) && Leads(NEW_STATE)
  {
    hide Valid;
    NewLinksValid(roles);
  }

  /** The branches that the program says are never taken are not taken, in no run of
      puts from a state in which they are not, such as that of a new descrambler:
      a PMT packet finds its program, and an ECM packet its decryptor if the tables
      kept the PIDs to their roles. */
  lemma TargetsAreThere(roles: Roles, cfg: Config, r: Called, chunks: seq<seq<byte>>, at: nat, p: Pid)
    requires |r.session.rest| <= at && ProgramsFit(r.session.core.links, r.session.core.programs)
    ensures var s, s' := r.session.core, Puts(cfg, r, chunks, at).session.core;
      var e := s'.links.pm[p];
      && (e.kind == Pmt ==>
            e.target.ProgramAt? && e.target.index < |s'.programs| && s'.programs[e.target.index].pmtPid == p)
      && s.tables <= s'.tables
      && (e.kind == Ecm && Valid(roles, s.links, s.programs) && AllFit(roles, s'.tables[|s.tables|..]) ==>
            e.target.Decryptor? && e.target.id in s'.links.decs && s'.links.decs[e.target.id].ecmPid == p)
  {
    hide Puts, AllFit;
    PutsKeep(roles, cfg, r, chunks, at);
    var s, s' := r.session.core, Puts(cfg, r, chunks, at).session.core;
    assert s'.tables[|s.tables|..] == NewTables(s, s');
    assert EntryLeads(s'.links.pm[p], p, s'.programs);
    if s'.links.pm[p].kind == Ecm && Valid(roles, s.links, s.programs) && AllFit(roles, NewTables(s, s')) {
      assert EntryFits(roles(p), s'.links.pm[p], s'.links.decs, p);
    }
  }
}
