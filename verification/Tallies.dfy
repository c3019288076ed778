// The packet counters of the PID map, the ways to the programs, and the keys
// and locks of the decryptors: no PMT or CAT section changes them, and a PAT
// section starts the map over.

module Tallies {
  import opened Bytes
  import opened SectionModel
  import opened PidGraph
  import opened PidInvariant

  /** The graph was edited without touching a packet counter, or the lock and
      the keys of a decryptor; numbers of decryptors are never used again, and
      no new way leads to a program. */
  ghost predicate Beside(l: Links, l': Links) {
    SameLocks(l, l') && forall p: Pid :: EntryKept(l.pm[p], l'.pm[p])
  }

  predicate EntryKept(e: Entry, e': Entry) {
    && e'.normal == e.normal && e'.undecrypted == e.undecrypted
    && (e'.kind == Pmt ==> e.kind == Pmt && e'.target == e.target)
    && (e'.target.ProgramAt? ==> e'.target == e.target)
  }

  ghost predicate SameLocks(l: Links, l': Links) {
    l.nextId <= l'.nextId && forall id | id in l'.decs :: Carried(l, l', id) || New(l, l', id)
  }

  predicate Carried(l: Links, l': Links, id: nat)
    requires id in l'.decs
  {
    && id in l.decs && l'.decs[id].locked == l.decs[id].locked && l'.decs[id].m2 == l.decs[id].m2
    && l'.decs[id].ecmPid == l.decs[id].ecmPid && l'.decs[id].ecm == l.decs[id].ecm
    && l'.decs[id].phase == l.decs[id].phase
  }

  predicate New(l: Links, l': Links, id: nat)
    requires id in l'.decs
  {
    && l.nextId <= id < l'.nextId
    && l'.decs[id].locked == 0 && l'.decs[id].m2 == None && l'.decs[id].ecm == NEW_PARSER
    && l'.decs[id].phase == 0
  }

  lemma BesideTwice(l: Links, l1: Links, l2: Links)
    requires Beside(l, l1) && Beside(l1, l2)
    ensures Beside(l, l2)
  {
    forall id | id in l2.decs ensures Carried(l, l2, id) || New(l, l2, id) {
    }
    forall p: Pid ensures EntryKept(l.pm[p], l2.pm[p]) {
      assert EntryKept(l.pm[p], l1.pm[p]) && EntryKept(l1.pm[p], l2.pm[p]);
    }
  }

  lemma RefBeside(l: Links, id: nat, ref: int)
    requires id in l.decs
    ensures Beside(l, SetRef(l, id, ref))
  {
  }

  lemma EntryBeside(l: Links, p: Pid, e: Entry)
    requires EntryKept(l.pm[p], e)
    ensures Beside(l, l.(pm := l.pm[p := e]))
  {
  }

  lemma RemoveBeside(l: Links, id: nat)
    requires id in l.decs
    ensures Beside(l, Remove(l, id))
  {
  }

  lemma ReleaseBeside(l: Links, id: nat)
    requires id in l.decs
    ensures Beside(l, Release(l, id))
  {
    hide Beside, Remove;
    RefBeside(l, id, l.decs[id].ref - 1);
    var l1 := SetRef(l, id, l.decs[id].ref - 1);
    RemoveBeside(l1, id);
    BesideTwice(l, l1, Remove(l1, id));
  }

  lemma UnrefBeside(l: Links, p: Pid)
    ensures Beside(l, Unref(l, p))
  {
    hide Beside, Release;
    SelfBeside(l);
    var l1 := l;
    if BoundTo(l, p).Some? {
      ReleaseBeside(l, BoundTo(l, p).value);
      l1 := Release(l, BoundTo(l, p).value);
    }
    EntryBeside(l1, p, l1.pm[p].(ref := 0, kind := Unknown, target := NoTarget));
    BesideTwice(l, l1, l1.(pm := l1.pm[p := l1.pm[p].(ref := 0, kind := Unknown, target := NoTarget)]));
    EntryBeside(l, p, l.pm[p].(ref := Less(l.pm[p].ref)));
  }

  lemma SelfBeside(l: Links)
    ensures Beside(l, l)
  {
  }

  lemma {:induction false} UnrefAllBeside(l: Links, streams: seq<Stream>)
    ensures Beside(l, UnrefAll(l, streams))
    decreases |streams|
  {
    hide Beside, Unref;
    if streams == [] {
      SelfBeside(l);
    } else {
      UnrefBeside(l, streams[0].pid);
      UnrefAllBeside(Unref(l, streams[0].pid), streams[1..]);
      BesideTwice(l, Unref(l, streams[0].pid), UnrefAll(Unref(l, streams[0].pid), streams[1..]));
    }
  }

  lemma NewestBeside(l: Links, p: Pid)
    ensures Beside(l, l.(order := l.order + [l.nextId], decs := l.decs[l.nextId := NewDec(p)], nextId := l.nextId + 1))
  {
  }

  lemma SetDecryptorBeside(l: Links, p: Pid)
    ensures Beside(l, SetDecryptor(l, p).0)
  {
    hide Beside, Release;
    SelfBeside(l);
    NewestBeside(l, p);
    var l1 := l.(order := l.order + [l.nextId], decs := l.decs[l.nextId := NewDec(p)], nextId := l.nextId + 1);
    var l2 := l1;
    SelfBeside(l1);
    if BoundTo(l, p).Some? {
      ReleaseBeside(l1, BoundTo(l, p).value);
      l2 := Release(l1, BoundTo(l, p).value);
    }
    BesideTwice(l, l1, l2);
    var e := l2.pm[p].(kind := Ecm, target := Decryptor(l.nextId));
    EntryBeside(l2, p, e);
    BesideTwice(l, l2, l2.(pm := l2.pm[p := e]));
  }

  lemma BindBeside(l: Links, p: Pid, dec: Option<nat>)
    requires l.pm[p].kind != Pmt && (dec.Some? ==> dec.value in l.decs)
    ensures Beside(l, Bind(l, p, dec))
  {
    hide Beside, Remove;
    SelfBeside(l);
    var before := l.pm[p].target;
    var l1 := l;
    if before.Decryptor? && before.id in l.decs {
      var l0 := SetRef(l, before.id, l.decs[before.id].ref - 1);
      RefBeside(l, before.id, l.decs[before.id].ref - 1);
      RemoveBeside(l0, before.id);
      BesideTwice(l, l0, Remove(l0, before.id));
      l1 := if l0.decs[before.id].ref == 0 then Remove(l0, before.id) else l0;
    }
    var target := if dec.Some? then Decryptor(dec.value) else NoTarget;
    StillNotPmt(l, l1, p);
    EntryBeside(l1, p, l1.pm[p].(target := target));
    var l2 := l1.(pm := l1.pm[p := l1.pm[p].(target := target)]);
    BesideTwice(l, l1, l2);
    if dec.Some? && dec.value in l2.decs {
      RefBeside(l2, dec.value, l2.decs[dec.value].ref + 1);
      BesideTwice(l, l2, SetRef(l2, dec.value, l2.decs[dec.value].ref + 1));
    }
  }

  lemma StillNotPmt(l: Links, l': Links, p: Pid)
    requires Beside(l, l') && l.pm[p].kind != Pmt
    ensures l'.pm[p].kind != Pmt
  {
    assert EntryKept(l.pm[p], l'.pm[p]);
  }

  lemma AddEcmBeside(l: Links, streams: seq<Stream>, p: Pid)
    ensures Beside(l, AddEcm(l, streams, p).0)
  {
    hide Beside;
    SelfBeside(l);
    EntryBeside(l, p, l.pm[p].(ref := l.pm[p].ref + 1, kind := l.pm[p].kind));
  }

  lemma AddStreamBeside(l: Links, streams: seq<Stream>, major: Option<nat>, es: EsEntry)
    ensures Beside(l, AddStream(l, streams, major, es).0)
  {
    hide Beside, SetDecryptor, AddEcm, Bind;
    SelfBeside(l);
    var l1, l2 := l, l;
    var own: Option<nat> := None;
    if Real(es.ecm) {
      SetDecryptorBeside(l, es.ecm);
      l1, own := SetDecryptor(l, es.ecm).0, Some(SetDecryptor(l, es.ecm).1);
      AddEcmBeside(l1, streams, es.ecm);
      l2 := AddEcm(l1, streams, es.ecm).0;
      BesideTwice(l, l1, l2);
    }
    EntryBeside(l2, es.pid, l2.pm[es.pid].(ref := l2.pm[es.pid].ref + 1, kind := Other));
    var l3 := Count(l2, es.pid, Other);
    BesideTwice(l, l2, l3);
    var active := if own.Some? then own else if es.ecm == 0x1fff then None else major;
    if !(active.Some? && active.value !in l3.decs) {
      BindBeside(l3, es.pid, active);
      BesideTwice(l, l3, Bind(l3, es.pid, active));
    }
  }

  lemma {:induction false} AddStreamsBeside(l: Links, streams: seq<Stream>, major: Option<nat>, ess: seq<EsEntry>)
    ensures Beside(l, AddStreams(l, streams, major, ess).0)
    decreases |ess|
  {
    hide Beside, AddStream;
    if ess == [] {
      SelfBeside(l);
    } else {
      var (l1, listed) := AddStream(l, streams, major, ess[0]);
      AddStreamBeside(l, streams, major, ess[0]);
      AddStreamsBeside(l1, listed, major, ess[1..]);
      BesideTwice(l, l1, AddStreams(l1, listed, major, ess[1..]).0);
    }
  }

  lemma ApplyPmtBeside(l: Links, p: Program, major: Pid, ess: seq<EsEntry>)
    ensures Beside(l, ApplyPmt(l, p, major, ess).0)
  {
    hide Beside, SetDecryptor, UnrefAll, AddEcm, AddStreams, Release;
    SelfBeside(l);
    var l1, held := l, None;
    if Real(major) {
      SetDecryptorBeside(l, major);
      var (m, id) := SetDecryptor(l, major);
      l1, held := m, Some(id);
      if id in m.decs {
        RefBeside(m, id, m.decs[id].ref + 1);
        l1 := SetRef(m, id, m.decs[id].ref + 1);
        BesideTwice(l, m, l1);
      }
    }
    UnrefAllBeside(l1, p.oldStreams);
    var l2 := UnrefAll(l1, p.oldStreams);
    BesideTwice(l, l1, l2);
    PmtBodyBeside(l2, held, major, ess);
    var (l3, start) := if Real(major) then AddEcm(l2, [], major) else (l2, []);
    var l4 := AddStreams(l3, start, held, ess).0;
    BesideTwice(l, l2, if held.Some? && held.value in l4.decs then Release(l4, held.value) else l4);
  }

  lemma PmtBodyBeside(l2: Links, held: Option<nat>, major: Pid, ess: seq<EsEntry>)
    ensures
      var (l3, start) := if Real(major) then AddEcm(l2, [], major) else (l2, []);
      var l4 := AddStreams(l3, start, held, ess).0;
      Beside(l2, if held.Some? && held.value in l4.decs then Release(l4, held.value) else l4)
  {
    hide Beside, AddEcm, AddStreams, Release;
    SelfBeside(l2);
    AddEcmBeside(l2, [], major);
    var (l3, start) := if Real(major) then AddEcm(l2, [], major) else (l2, []);
    var l4 := AddStreams(l3, start, held, ess).0;
    AddStreamsBeside(l3, start, held, ess);
    BesideTwice(l2, l3, l4);
    if held.Some? && held.value in l4.decs {
      ReleaseBeside(l4, held.value);
      BesideTwice(l2, l4, Release(l4, held.value));
    }
  }

  lemma ApplyCatBeside(l: Links, emm: Pid)
    ensures Beside(l, ApplyCat(l, emm))
  {
    hide Beside, Release;
    SelfBeside(l);
    var l1 := l;
    if Real(emm) {
      var m := l;
      if BoundTo(l, emm).Some? {
        ReleaseBeside(l, BoundTo(l, emm).value);
        m := Release(l, BoundTo(l, emm).value);
      }
      EntryBeside(m, emm, m.pm[emm].(ref := 1, kind := Emm, target := NoTarget));
      l1 := m.(pm := m.pm[emm := m.pm[emm].(ref := 1, kind := Emm, target := NoTarget)]);
      BesideTwice(l, m, l1);
    }
    EntryBeside(l1, 1, l1.pm[1].(ref := 1, kind := Cat, target := NoTarget));
    BesideTwice(l, l1, ApplyCat(l, emm));
  }

  lemma {:induction false} ReleaseProgramsBeside(l: Links, ps: seq<Program>)
    ensures Beside(l, ReleasePrograms(l, ps))
    decreases |ps|
  {
    hide Beside, UnrefAll;
    SelfBeside(l);
    if ps != [] {
      var p := ps[0];
      var l1 := UnrefAll(l, p.oldStreams);
      var l2 := UnrefAll(l1, p.streams);
      UnrefAllBeside(l, p.oldStreams);
      UnrefAllBeside(l1, p.streams);
      BesideTwice(l, l1, l2);
      EntryBeside(l2, p.pmtPid, l2.pm[p.pmtPid].(ref := 0, kind := Unknown, target := NoTarget));
      BesideTwice(l, l2, ReleaseProgram(l, p));
      ReleaseProgramsBeside(ReleaseProgram(l, p), ps[1..]);
      BesideTwice(l, ReleaseProgram(l, p), ReleasePrograms(l, ps));
    }
  }

  /** No table touches locks or keys, and only a PAT touches the counters. */
  lemma ApplyBeside(l: Links, ps: seq<Program>, t: Table)
    ensures SameLocks(l, Apply(l, ps, t).0)
    ensures !t.PatTable? ==> Beside(l, Apply(l, ps, t).0)
  {
    hide ApplyPmt, ApplyCat, ReleasePrograms, NewPrograms, PmtEntries;
    SelfBeside(l);
    match t
    case PatTable(entries) => ReleaseProgramsBeside(l, ps);
    case PmtTable(i, major, ess) =>
      if i < |ps| {
        ApplyPmtBeside(l, ps[i], major, ess);
      }
    case CatTable(emm) => ApplyCatBeside(l, emm);
  }

  // ------------------------------------------------------- ways to the programs

  /** Every PMT entry of the map leads to a program, and every way to a program
      leads from the PID of its PMT. */
  ghost predicate ProgramsFit(l: Links, ps: seq<Program>) {
    forall p: Pid :: EntryLeads(l.pm[p], p, ps)
  }

  predicate EntryLeads(e: Entry, p: Pid, ps: seq<Program>) {
    && (e.kind == Pmt ==> e.target.ProgramAt?)
    && (e.target.ProgramAt? ==> e.target.index < |ps| && ps[e.target.index].pmtPid == p)
  }

  lemma BesideLeads(l: Links, l': Links, ps: seq<Program>, ps': seq<Program>)
    requires Beside(l, l') && ProgramsFit(l, ps)
    requires |ps'| == |ps| && forall i | 0 <= i < |ps| :: ps'[i].pmtPid == ps[i].pmtPid
    ensures ProgramsFit(l', ps')
  {
    forall p: Pid ensures EntryLeads(l'.pm[p], p, ps') {
      assert EntryKept(l.pm[p], l'.pm[p]) && EntryLeads(l.pm[p], p, ps);
    }
  }

  lemma {:induction false} PmtEntriesLead(pm: PidMap, ps: seq<Program>, at: nat)
    requires at <= |ps| && forall p: Pid :: EntryLeads(pm[p], p, ps)
    ensures forall p: Pid :: EntryLeads(PmtEntries(pm, ps, at)[p], p, ps)
    decreases |ps| - at
  {
    if at < |ps| {
      var p := ps[at].pmtPid;
      PmtEntriesLead(pm[p := pm[p].(kind := Pmt, target := ProgramAt(at))], ps, at + 1);
    }
  }

  /** Whatever tables take effect, even if they mix up the roles of PIDs. */
  lemma ApplyLeads(l: Links, ps: seq<Program>, t: Table)
    requires ProgramsFit(l, ps)
    ensures ProgramsFit(Apply(l, ps, t).0, Apply(l, ps, t).1)
  {
    hide ApplyPmt, ApplyCat, ReleasePrograms, NewPrograms, PmtEntries, Beside;
    match t
    case PatTable(entries) =>
      PmtEntriesLead(seq(0x2000, _ => BLANK), NewPrograms(entries), 0);
    case PmtTable(i, major, ess) =>
      if i < |ps| {
        ApplyPmtBeside(l, ps[i], major, ess);
        SamePmtPid(l, ps[i], major, ess);
        BesideLeads(l, Apply(l, ps, t).0, ps, Apply(l, ps, t).1);
      }
    case CatTable(emm) =>
      ApplyCatBeside(l, emm);
      BesideLeads(l, ApplyCat(l, emm), ps, ps);
  }

  lemma SamePmtPid(l: Links, p: Program, major: Pid, ess: seq<EsEntry>)
    ensures ApplyPmt(l, p, major, ess).1.pmtPid == p.pmtPid
  {
    hide SetDecryptor, UnrefAll, AddEcm, AddStreams, Release;
  }
}
