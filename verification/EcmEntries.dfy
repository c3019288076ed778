// When the map entry of an ECM PID is lost although its decryptor is in use:
// unref_stream clears the entry, and nothing enters it again.

module EcmEntries {
  import opened Bytes
  import opened SectionModel
  import opened PidGraph
  import opened PidInvariant

  /** Packets of the PID reach the section parser of this decryptor. */
  predicate LeadsTo(l: Links, p: Pid, id: nat) {
    l.pm[p].kind == Ecm && l.pm[p].target == Decryptor(id)
  }

  /** An edit that leaves kind and target of an entry alone. */
  predicate SameLead(l: Links, l': Links, p: Pid) {
    l'.pm[p].kind == l.pm[p].kind && l'.pm[p].target == l.pm[p].target
  }

  /** The entry leads to the decryptor or nowhere. */
  predicate Clean(l: Links, p: Pid, id: nat) {
    LeadsTo(l, p, id) || (l.pm[p].kind == Unknown && l.pm[p].target == NoTarget)
  }

  lemma ReleaseLead(l: Links, x: nat, p: Pid, id: nat)
    requires x in l.decs && Clean(l, p, id) && id in Release(l, x).decs
    ensures SameLead(l, Release(l, x), p)
  {
  }

  lemma UnrefLead(l: Links, q: Pid, p: Pid, id: nat)
    requires q != p && Clean(l, p, id) && id in Unref(l, q).decs
    ensures SameLead(l, Unref(l, q), p)
  {
    hide Release;
    if BoundTo(l, q).Some? && Less(l.pm[q].ref) < 1 {
      ReleaseLead(l, BoundTo(l, q).value, p, id);
    }
  }

  lemma UnrefSelf(roles: Roles, l: Links, uses: multiset<nat>, p: Pid, id: nat)
    requires Inv(roles, l, uses, Some(id), {}) && roles(p) == EcmRole && p in uses
    ensures if uses[p] == 1 then Unref(l, p).pm[p].kind == Unknown && Unref(l, p).pm[p].target == NoTarget
            else SameLead(l, Unref(l, p), p)
  {
    hide Inv;
    EntryFacts(roles, l, uses, Some(id), {}, p);
  }

  /** Giving up the old streams loses the entry if and only if all uses of the
      PID are among them. */
  lemma {:induction false} UnrefAllLead(roles: Roles, l: Links, uses: multiset<nat>, p: Pid, id: nat, streams: seq<Stream>)
    requires Inv(roles, l, uses, Some(id), {}) && roles(p) == EcmRole && Listed(streams) <= uses && Clean(l, p, id)
    ensures Clean(UnrefAll(l, streams), p, id)
    ensures LeadsTo(UnrefAll(l, streams), p, id)
        <==> LeadsTo(l, p, id) && !(p in Listed(streams) && Listed(streams)[p] == uses[p])
    decreases |streams|
  {
    hide Inv, Unref;
    if streams != [] {
      var q := streams[0].pid;
      assert q in Listed(streams);
      var rest := uses - multiset{q as nat};
      UnrefKeeps(roles, l, uses, Some(id), q);
      HeldIsThere(roles, Unref(l, q), rest, Some(id), {});
      if q == p {
        UnrefSelf(roles, l, uses, p, id);
      } else {
        UnrefLead(l, q, p, id);
      }
      assert Listed(streams) == multiset{q as nat} + Listed(streams[1..]);
      UnrefAllLead(roles, Unref(l, q), rest, p, id, streams[1..]);
    }
  }

  lemma AddEcmLead(l: Links, streams: seq<Stream>, q: Pid, p: Pid)
    ensures SameLead(l, AddEcm(l, streams, q).0, p)
  {
  }

  // While the streams of a section are added, the entry goes on leading to the
  // decryptor, or goes on not leading there, even if a stream names its PID.

  lemma RemoveOther(l: Links, x: nat, p: Pid, id: nat)
    requires x in l.decs && id in Remove(l, x).decs
    ensures LeadsTo(Remove(l, x), p, id) == LeadsTo(l, p, id)
  {
  }

  lemma SetDecryptorLead(roles: Roles, l: Links, uses: multiset<nat>, q: Pid, p: Pid, id: nat)
    requires Inv(roles, l, uses, Some(id), {}) && roles(q) == EcmRole
    ensures LeadsTo(SetDecryptor(l, q).0, p, id) == LeadsTo(l, p, id)
  {
    hide Inv;
    EntryFacts(roles, l, uses, Some(id), {}, q);
    HeldIsOld(roles, l, uses, id);
  }

  lemma HeldIsOld(roles: Roles, l: Links, uses: multiset<nat>, id: nat)
    requires Inv(roles, l, uses, Some(id), {})
    ensures id < l.nextId
  {
  }

  lemma BindLead(l: Links, q: Pid, dec: Option<nat>, p: Pid, id: nat)
    requires (dec.Some? ==> dec.value in l.decs) && q != p && id in Bind(l, q, dec).decs
    ensures LeadsTo(Bind(l, q, dec), p, id) == LeadsTo(l, p, id)
  {
    hide Remove;
    var before := l.pm[q].target;
    if before.Decryptor? && before.id in l.decs {
      var l0 := SetRef(l, before.id, l.decs[before.id].ref - 1);
      if l0.decs[before.id].ref == 0 && id in Remove(l0, before.id).decs {
        RemoveOther(l0, before.id, p, id);
      }
    }
  }

  lemma AddStreamLead(roles: Roles, l: Links, rest: multiset<nat>, id: nat, streams: seq<Stream>, es: EsEntry, p: Pid)
    requires Inv(roles, l, rest + Listed(streams), Some(id), {}) && EsFits(roles, es) && roles(p) == EcmRole
    ensures LeadsTo(AddStream(l, streams, Some(id), es).0, p, id) == LeadsTo(l, p, id)
  {
    hide Inv, SetDecryptor, AddEcm, Bind, Listed;
    AddStreamKeeps(roles, l, rest, Some(id), streams, es);
    var (l', listed) := AddStream(l, streams, Some(id), es);
    HeldIsThere(roles, l', rest + Listed(listed), Some(id), {});
    var l1, l2 := l, l;
    if Real(es.ecm) {
      SetDecryptorLead(roles, l, rest + Listed(streams), es.ecm, p, id);
      l1 := SetDecryptor(l, es.ecm).0;
      AddEcmLead(l1, streams, es.ecm, p);
      l2 := AddEcm(l1, streams, es.ecm).0;
    }
    var l3 := Count(l2, es.pid, Other);
    var active := if Real(es.ecm) then Some(SetDecryptor(l, es.ecm).1) else if es.ecm == 0x1fff then None else Some(id);
    if !(active.Some? && active.value !in l3.decs) {
      BindLead(l3, es.pid, active, p, id);
    }
  }

  lemma {:induction false} AddStreamsLead(roles: Roles, l: Links, rest: multiset<nat>, id: nat, streams: seq<Stream>,
      ess: seq<EsEntry>, p: Pid)
    requires Inv(roles, l, rest + Listed(streams), Some(id), {}) && roles(p) == EcmRole
    requires forall i | 0 <= i < |ess| :: EsFits(roles, ess[i])
    ensures LeadsTo(AddStreams(l, streams, Some(id), ess).0, p, id) == LeadsTo(l, p, id)
    decreases |ess|
  {
    hide Inv, AddStream, Listed, EsFits, LeadsTo;
    if ess != [] {
      AddStreamLead(roles, l, rest, id, streams, ess[0], p);
      AddStreamKeeps(roles, l, rest, Some(id), streams, ess[0]);
      var (l1, listed) := AddStream(l, streams, Some(id), ess[0]);
      AddStreamsLead(roles, l1, rest, id, listed, ess[1..], p);
    }
  }

  /** After a PMT with an ECM PID of the program, whose decryptor is in use: the
      PID leads to that decryptor if and only if not every use of the PID was one
      by the streams that the section before the last one named. If it does not
      lead there, the decryptor gets no ECMs, whatever is bound to it. */
  lemma MajorEntryIsLost(roles: Roles, l: Links, rest: multiset<nat>, p: Program, major: Pid, ess: seq<EsEntry>)
    requires Inv(roles, l, rest + (Listed(p.oldStreams) + Listed(p.streams)), None, {}) && PmtFits(roles, major, ess)
    requires Real(major)
    ensures var id := SetDecryptor(l, major).1;
      var l' := ApplyPmt(l, p, major, ess).0;
      id in l'.decs ==>
        (LeadsTo(l', major, id) <==> !(major in Listed(p.oldStreams) && major !in rest + Listed(p.streams)))
  {
    hide Inv, SetDecryptor, UnrefAll, AddEcm, AddStreams, Listed, SetRef, Release;
    var uses := rest + (Listed(p.oldStreams) + Listed(p.streams));
    var base := rest + Listed(p.streams);
    TakeMajor(roles, l, uses, major);
    var (m, id) := SetDecryptor(l, major);
    SetDecryptorLeads(l, major);
    var l1 := SetRef(m, id, m.decs[id].ref + 1);
    SetRefLead(m, id, m.decs[id].ref + 1, major);
    UnrefAllLead(roles, l1, uses, major, id, p.oldStreams);
    UnrefAllKeeps(roles, l1, uses, Some(id), p.oldStreams);
    NoneListed();
    assert uses - Listed(p.oldStreams) == base && base + Listed([]) == base;
    var l2 := UnrefAll(l1, p.oldStreams);
    AddEcmKeeps(roles, l2, base, Some(id), {}, [], major);
    AddEcmLead(l2, [], major, major);
    var (l3, start) := AddEcm(l2, [], major);
    AddStreamsLead(roles, l3, base, id, start, ess, major);
    AddStreamsKeeps(roles, l3, base, Some(id), start, ess);
    var (l4, streams) := AddStreams(l3, start, Some(id), ess);
    LetGoKeeps(roles, l4, base + Listed(streams), id);
    if id in Release(l4, id).decs {
      LetGoLead(l4, id, major);
    }
    assert uses[major] == Listed(p.oldStreams)[major] + base[major];
  }

  // ---------------------------------------------------------------- an instance

  const ONE_STREAM := [EsEntry(2, 0x200, 0)]

  /** Three PMTs of a program: with ECM PID 0x101, without one, and with 0x101
      again. Its stream is then bound to a decryptor for 0x101, and no packet of
      PID 0x101 is read for ECMs. */
  lemma EntryIsLostForInstance()
    ensures var (l1, p1) := ApplyPmt(NEW_LINKS, NewProgram(1, 0x100), 0x101, ONE_STREAM);
      var (l2, p2) := ApplyPmt(l1, p1, 0, ONE_STREAM);
      var (l3, p3) := ApplyPmt(l2, p2, 0x101, ONE_STREAM);
      && BoundTo(l3, 0x200) == Some(1) && l3.decs[1].ecmPid == 0x101
      && l3.pm[0x101].kind == Unknown && l3.pm[0x101].target == NoTarget
  {
    var p := NewProgram(1, 0x100);
    var l1, p1 := FirstPmt(p);
    var l2, p2 := SecondPmt(l1, p1);
    ThirdPmt(l2, p2);
  }

  lemma FirstPmt(p: Program) returns (l': Links, p': Program)
    requires p.streams == p.oldStreams == []
    ensures (l', p') == ApplyPmt(NEW_LINKS, p, 0x101, ONE_STREAM)
    ensures p'.oldStreams == [] && p'.streams == [Stream(0x101, ECM_STREAM_KIND), Stream(0x200, 2)]
    ensures l'.nextId == 1 && l'.decs.Keys == {0} && l'.decs[0].ref == 1 && l'.decs[0].ecmPid == 0x101
    ensures LeadsTo(l', 0x101, 0) && l'.pm[0x101].ref == 1
    ensures l'.pm[0x200].kind == Other && l'.pm[0x200].target == Decryptor(0) && l'.pm[0x200].ref == 1
  {
    var r := ApplyPmt(NEW_LINKS, p, 0x101, ONE_STREAM);
    l', p' := r.0, r.1;
  }

  lemma SecondPmt(l: Links, p: Program) returns (l': Links, p': Program)
    requires p.oldStreams == [] && p.streams == [Stream(0x101, ECM_STREAM_KIND), Stream(0x200, 2)]
    requires l.nextId == 1 && l.decs.Keys == {0} && l.decs[0].ref == 1 && l.decs[0].ecmPid == 0x101
    requires LeadsTo(l, 0x101, 0) && l.pm[0x101].ref == 1
    requires l.pm[0x200].kind == Other && l.pm[0x200].target == Decryptor(0) && l.pm[0x200].ref == 1
    ensures (l', p') == ApplyPmt(l, p, 0, ONE_STREAM)
    ensures p'.oldStreams == p.streams && p'.streams == [Stream(0x200, 2)]
    ensures l'.nextId == 1 && l'.decs.Keys == {}
    ensures l'.pm[0x101].kind == Unknown && l'.pm[0x101].target == NoTarget && l'.pm[0x101].ref == 1
    ensures l'.pm[0x200].kind == Other && l'.pm[0x200].target == NoTarget && l'.pm[0x200].ref == 2
  {
    var r := ApplyPmt(l, p, 0, ONE_STREAM);
    l', p' := r.0, r.1;
  }

  lemma ThirdPmt(l: Links, p: Program)
    requires p.oldStreams == [Stream(0x101, ECM_STREAM_KIND), Stream(0x200, 2)] && l.nextId == 1 && l.decs.Keys == {}
    requires l.pm[0x101].kind == Unknown && l.pm[0x101].target == NoTarget && l.pm[0x101].ref == 1
    requires l.pm[0x200].kind == Other && l.pm[0x200].target == NoTarget && l.pm[0x200].ref == 2
    ensures var l' := ApplyPmt(l, p, 0x101, ONE_STREAM).0;
      && BoundTo(l', 0x200) == Some(1) && l'.decs[1].ecmPid == 0x101
      && l'.pm[0x101].kind == Unknown && l'.pm[0x101].target == NoTarget
  {
    var (m, id) := SetDecryptor(l, 0x101);
    var l1 := SetRef(m, id, m.decs[id].ref + 1);
    var l2 := Unref(Unref(l1, 0x101), 0x200);
    TwoGivenUp(l1, p.oldStreams);
  }

  lemma TwoGivenUp(l: Links, streams: seq<Stream>)
    requires |streams| == 2
    ensures UnrefAll(l, streams) == Unref(Unref(l, streams[0].pid), streams[1].pid)
  {
    hide Unref;
    assert streams[1..] == [streams[1]] && streams[1..][1..] == [];
    var l1 := Unref(l, streams[0].pid);
    assert UnrefAll(Unref(l1, streams[1].pid), []) == Unref(l1, streams[1].pid);
  }

  lemma SetDecryptorLeads(l: Links, p: Pid)
    ensures LeadsTo(SetDecryptor(l, p).0, p, SetDecryptor(l, p).1)
  {
    hide Release;
  }

  lemma SetRefLead(l: Links, id: nat, ref: int, p: Pid)
    requires id in l.decs
    ensures SameLead(l, SetRef(l, id, ref), p)
  {
  }

  /** Letting go of the decryptor touches no entry unless it goes with it. */
  lemma LetGoLead(l: Links, id: nat, p: Pid)
    requires id in l.decs && id in Release(l, id).decs
    ensures SameLead(l, Release(l, id), p)
  {
  }
}
