// What a PMT section makes of the streams it announces: each is listed, and
// bound to the decryptor that its descriptors name.

module Bindings {
  import opened Bytes
  import opened SectionModel
  import opened PidGraph
  import opened PidInvariant
  import opened Tallies
  import opened EcmEntries

  /** The stream is bound as announced: to the decryptor of its own ECM PID, to
      none if it is marked as clear, and else to that of the program. */
  ghost predicate BoundAs(l: Links, es: EsEntry, major: Option<nat>) {
    var t := l.pm[es.pid].target;
    && l.pm[es.pid].kind == Other
    && if es.ecm == 0x1fff || (es.ecm == 0 && major.None?) then t == NoTarget
       else if es.ecm == 0 then t == Decryptor(major.value)
       else t.Decryptor? && t.id in l.decs && l.decs[t.id].ecmPid == es.ecm
  }

  /** An edit keeps what a stream entry says. */
  lemma BoundAsStays(roles: Roles, l: Links, l': Links, uses: multiset<nat>, held: Option<nat>, es: EsEntry, major: Option<nat>)
    requires BoundAs(l, es, major) && SameLead(l, l', es.pid) && SameLocks(l, l')
    requires Inv(roles, l', uses, held, {}) && roles(es.pid) == EsRole
    requires forall id | id in l.decs :: id < l.nextId
    ensures BoundAs(l', es, major)
  {
    assert EntryFits(roles(es.pid), l'.pm[es.pid], l'.decs, es.pid);
    if Real(es.ecm) {
      var id := l.pm[es.pid].target.id;
      assert Carried(l, l', id) || New(l, l', id);
    }
  }

  lemma BindSets(l: Links, p: Pid, dec: Option<nat>)
    requires (dec.Some? ==> dec.value in l.decs) && l.pm[p].kind == Other
    requires forall id | id in l.decs :: l.decs[id].ecmPid != p
    ensures Bind(l, p, dec).pm[p].kind == Other
    ensures Bind(l, p, dec).pm[p].target == if dec.Some? then Decryptor(dec.value) else NoTarget
  {
  }

  /** Removing a decryptor touches only the entry of its ECM PID. */
  lemma BindOthers(l: Links, p: Pid, dec: Option<nat>, q: Pid)
    requires (dec.Some? ==> dec.value in l.decs) && q != p
    requires forall id | id in l.decs :: l.decs[id].ecmPid != q
    ensures SameLead(l, Bind(l, p, dec), q)
  {
  }

  lemma EcmPidsAreEcms(roles: Roles, l: Links, uses: multiset<nat>, held: Option<nat>, spare: set<nat>, p: Pid)
    requires Inv(roles, l, uses, held, spare) && roles(p) == EsRole
    ensures forall id | id in l.decs :: l.decs[id].ecmPid != p && id < l.nextId
  {
  }

  /** The state half way through a turn: the stream's own decryptor is there. */
  lemma HalfTurn(roles: Roles, l: Links, rest: multiset<nat>, held: Option<nat>, streams: seq<Stream>, es: EsEntry, q: Pid)
    requires Inv(roles, l, rest + Listed(streams), held, {}) && EsFits(roles, es) && roles(q) == EsRole && Real(es.ecm)
    ensures var (l1, id) := SetDecryptor(l, es.ecm);
      var l2 := AddEcm(l1, streams, es.ecm).0;
      && id in l2.decs && l2.decs[id].ecmPid == es.ecm && SameLead(l, l2, q)
      && forall x | x in l2.decs :: l2.decs[x].ecmPid != q
  {
    hide Inv, SetDecryptor, AddEcm, Listed;
    SetDecryptorKeeps(roles, l, rest + Listed(streams), held, {}, es.ecm);
    OwnEcmKeeps(roles, l, rest, held, streams, es.ecm);
    var (l1, id) := SetDecryptor(l, es.ecm);
    var (l2, listed) := AddEcm(l1, streams, es.ecm);
    EcmPidsAreEcms(roles, l2, rest + Listed(listed), held, {id}, q);
    AddEcmLead(l1, streams, es.ecm, q);
    SetDecryptorOthers(roles, l, rest + Listed(streams), held, es.ecm, q);
    AddEcmDecs(l1, streams, es.ecm);
  }

  lemma AddEcmDecs(l: Links, streams: seq<Stream>, p: Pid)
    ensures AddEcm(l, streams, p).0.decs == l.decs
  {
  }

  lemma SetDecryptorOthers(roles: Roles, l: Links, uses: multiset<nat>, held: Option<nat>, p: Pid, q: Pid)
    requires Inv(roles, l, uses, held, {}) && roles(p) == EcmRole && q != p
    ensures SameLead(l, SetDecryptor(l, p).0, q)
  {
    hide Inv;
    EntryFacts(roles, l, uses, held, {}, p);
  }

  /** One turn of the stream loop: the stream is listed and bound as announced,
      and no other stream's entry changes. */
  lemma AddStreamBinds(roles: Roles, l: Links, rest: multiset<nat>, held: Option<nat>, streams: seq<Stream>, es: EsEntry)
    requires Inv(roles, l, rest + Listed(streams), held, {}) && EsFits(roles, es)
    ensures var (l', listed) := AddStream(l, streams, held, es);
      && BoundAs(l', es, held) && streams <= listed && Stream(es.pid, es.kind) in listed
      && forall q: Pid | roles(q) == EsRole && q != es.pid :: SameLead(l, l', q)
  {
    hide Inv, SetDecryptor, AddEcm, Bind, Listed;
    TurnEnds(roles, l, rest, held, streams, es);
    var (l', listed) := AddStream(l, streams, held, es);
    AddStreamKeeps(roles, l, rest, held, streams, es);
    AddStreamLists(l, streams, held, es);
    StreamTargetThere(roles, l', rest + Listed(listed), held, es.pid);
    if Real(es.ecm) {
      HalfTurn(roles, l, rest, held, streams, es, es.pid);
      OwnDecStays(roles, l, rest, held, streams, es);
    }
    forall q: Pid | roles(q) == EsRole && q != es.pid ensures SameLead(l, l', q) {
      TurnOthers(roles, l, rest, held, streams, es, q);
    }
  }

  lemma StreamTargetThere(roles: Roles, l: Links, uses: multiset<nat>, held: Option<nat>, p: Pid)
    requires Inv(roles, l, uses, held, {}) && roles(p) == EsRole
    ensures l.pm[p].target.Decryptor? ==> l.pm[p].target.id in l.decs
  {
    assert EntryFits(roles(p), l.pm[p], l.decs, p);
  }

  lemma AddStreamLists(l: Links, streams: seq<Stream>, held: Option<nat>, es: EsEntry)
    ensures var listed := AddStream(l, streams, held, es).1;
      streams <= listed && Stream(es.pid, es.kind) in listed
  {
    hide SetDecryptor, Bind;
  }

  /** Entry and target of the stream at the end of its turn. */
  lemma TurnEnds(roles: Roles, l: Links, rest: multiset<nat>, held: Option<nat>, streams: seq<Stream>, es: EsEntry)
    requires Inv(roles, l, rest + Listed(streams), held, {}) && EsFits(roles, es)
    ensures var e := AddStream(l, streams, held, es).0.pm[es.pid];
      && e.kind == Other
      && e.target == if Real(es.ecm) then Decryptor(SetDecryptor(l, es.ecm).1)
                     else if es.ecm == 0x1fff || held.None? then NoTarget else Decryptor(held.value)
  {
    hide Inv, SetDecryptor, AddEcm, Bind, Listed;
    if Real(es.ecm) {
      HalfTurn(roles, l, rest, held, streams, es, es.pid);
      var (l1, id) := SetDecryptor(l, es.ecm);
      BindSets(Count(AddEcm(l1, streams, es.ecm).0, es.pid, Other), es.pid, Some(id));
    } else {
      EcmPidsAreEcms(roles, l, rest + Listed(streams), held, {}, es.pid);
      if held.Some? {
        HeldIsThere(roles, l, rest + Listed(streams), held, {});
      }
      BindSets(Count(l, es.pid, Other), es.pid, if es.ecm == 0x1fff then None else held);
    }
  }

  lemma TurnOthers(roles: Roles, l: Links, rest: multiset<nat>, held: Option<nat>, streams: seq<Stream>, es: EsEntry, q: Pid)
    requires Inv(roles, l, rest + Listed(streams), held, {}) && EsFits(roles, es) && roles(q) == EsRole && q != es.pid
    ensures SameLead(l, AddStream(l, streams, held, es).0, q)
  {
    hide Inv, SetDecryptor, AddEcm, Bind, Listed;
    if Real(es.ecm) {
      HalfTurn(roles, l, rest, held, streams, es, q);
      var (l1, id) := SetDecryptor(l, es.ecm);
      BindOthers(Count(AddEcm(l1, streams, es.ecm).0, es.pid, Other), es.pid, Some(id), q);
    } else {
      EcmPidsAreEcms(roles, l, rest + Listed(streams), held, {}, q);
      if held.Some? {
        HeldIsThere(roles, l, rest + Listed(streams), held, {});
      }
      BindOthers(Count(l, es.pid, Other), es.pid, if es.ecm == 0x1fff then None else held, q);
    }
  }

  /** The stream's own decryptor keeps its ECM PID while the stream is bound. */
  lemma OwnDecStays(roles: Roles, l: Links, rest: multiset<nat>, held: Option<nat>, streams: seq<Stream>, es: EsEntry)
    requires Inv(roles, l, rest + Listed(streams), held, {}) && EsFits(roles, es) && Real(es.ecm)
    ensures var id := SetDecryptor(l, es.ecm).1;
      var l' := AddStream(l, streams, held, es).0;
      id in l'.decs ==> l'.decs[id].ecmPid == es.ecm
  {
    hide Inv, SetDecryptor, AddEcm, Bind, Listed;
    HalfTurn(roles, l, rest, held, streams, es, es.pid);
    var (l1, id) := SetDecryptor(l, es.ecm);
    BindKeepsEcmPids(Count(AddEcm(l1, streams, es.ecm).0, es.pid, Other), es.pid, Some(id));
  }

  lemma BindKeepsEcmPids(l: Links, p: Pid, dec: Option<nat>)
    requires dec.Some? ==> dec.value in l.decs
    ensures forall id | id in Bind(l, p, dec).decs :: id in l.decs && Bind(l, p, dec).decs[id].ecmPid == l.decs[id].ecmPid
  {
  }

  // ------------------------------------------------------------ whole sections

  /** No later entry of the section is for the same PID. */
  ghost predicate LastWord(ess: seq<EsEntry>, i: nat) {
    i < |ess| && forall j | i < j < |ess| :: ess[j].pid != ess[i].pid
  }

  lemma {:induction false} AddStreamsBind(roles: Roles, l: Links, rest: multiset<nat>, held: Option<nat>, streams: seq<Stream>,
      ess: seq<EsEntry>)
    requires Inv(roles, l, rest + Listed(streams), held, {}) && forall i | 0 <= i < |ess| :: EsFits(roles, ess[i])
    ensures var (l', listed) := AddStreams(l, streams, held, ess);
      && streams <= listed && (forall i | 0 <= i < |ess| :: Stream(ess[i].pid, ess[i].kind) in listed)
      && (forall i: nat | LastWord(ess, i) :: BoundAs(l', ess[i], held))
      && (forall q: Pid | roles(q) == EsRole && (forall i | 0 <= i < |ess| :: ess[i].pid != q) :: SameLead(l, l', q))
    decreases |ess|
  {
    hide Inv, AddStream, Listed, EsFits, BoundAs;
    if ess != [] {
      var (l1, listed) := AddStream(l, streams, held, ess[0]);
      AddStreamBinds(roles, l, rest, held, streams, ess[0]);
      AddStreamKeeps(roles, l, rest, held, streams, ess[0]);
      AddStreamsBind(roles, l1, rest, held, listed, ess[1..]);
      AddStreamsKeeps(roles, l1, rest, held, listed, ess[1..]);
      AddStreamsBeside(l1, listed, held, ess[1..]);
      var (l', all) := AddStreams(l1, listed, held, ess[1..]);
      RoleOf(roles, ess[0]);
      if LastWord(ess, 0) {
        forall i | 0 <= i < |ess[1..]| ensures ess[1..][i].pid != ess[0].pid {
          assert ess[1..][i] == ess[i + 1];
        }
        EcmPidsAreEcms(roles, l1, rest + Listed(listed), held, {}, ess[0].pid);
        BoundAsStays(roles, l1, l', rest + Listed(all), held, ess[0], held);
      }
      forall i: nat | LastWord(ess, i) ensures BoundAs(l', ess[i], held) {
        if i > 0 {
          LastWordLater(ess, i);
        }
      }
      forall q: Pid | roles(q) == EsRole && (forall i | 0 <= i < |ess| :: ess[i].pid != q) ensures SameLead(l, l', q) {
        assert ess[0].pid != q;
        forall i | 0 <= i < |ess[1..]| ensures ess[1..][i].pid != q {
          assert ess[1..][i] == ess[i + 1];
        }
      }
    }
  }

  lemma RoleOf(roles: Roles, es: EsEntry)
    requires EsFits(roles, es)
    ensures roles(es.pid) == EsRole
  {
  }

  lemma LastWordLater(ess: seq<EsEntry>, i: nat)
    requires i > 0 && LastWord(ess, i)
    ensures LastWord(ess[1..], i - 1) && ess[1..][i - 1] == ess[i]
  {
    forall j | i - 1 < j < |ess[1..]| ensures ess[1..][j].pid != ess[1..][i - 1].pid {
      assert ess[1..][j] == ess[j + 1];
    }
  }

  lemma ReleaseOthers(roles: Roles, l: Links, uses: multiset<nat>, id: nat, q: Pid)
    requires Inv(roles, l, uses, Some(id), {}) && roles(q) == EsRole
    ensures id in l.decs && SameLead(l, Release(l, id), q)
  {
    hide BoundPids;
  }

  /** After a PMT every stream it announces is listed, and bound as the last
      entry for its PID says: to the decryptor of its own ECM PID, to none, or
      to that of the program. */
  lemma PmtBindsStreams(roles: Roles, l: Links, rest: multiset<nat>, p: Program, major: Pid, ess: seq<EsEntry>)
    requires Inv(roles, l, rest + (Listed(p.oldStreams) + Listed(p.streams)), None, {}) && PmtFits(roles, major, ess)
    ensures var (l', p') := ApplyPmt(l, p, major, ess);
      && (forall i | 0 <= i < |ess| :: Stream(ess[i].pid, ess[i].kind) in p'.streams)
      && (forall i: nat | LastWord(ess, i) ::
            BoundAs(l', ess[i], if major != 0 && major != 0x1fff then Some(SetDecryptor(l, major).1) else None))
  {
    hide Inv, SetDecryptor, UnrefAll, AddEcm, AddStreams, Listed, SetRef, Release, BoundAs, EsFits;
    var uses := rest + (Listed(p.oldStreams) + Listed(p.streams));
    var base := rest + Listed(p.streams);
    var l1, held := l, None;
    if Real(major) {
      TakeMajor(roles, l, uses, major);
      var (m, id) := SetDecryptor(l, major);
      l1, held := SetRef(m, id, m.decs[id].ref + 1), Some(id);
    }
    UnrefAllKeeps(roles, l1, uses, held, p.oldStreams);
    NoneListed();
    assert uses - Listed(p.oldStreams) == base && base + Listed([]) == base;
    var l3, start := UnrefAll(l1, p.oldStreams), [];
    if Real(major) {
      AddEcmKeeps(roles, l3, base, held, {}, [], major);
      var (m, listed) := AddEcm(l3, [], major);
      l3, start := m, listed;
    }
    AddStreamsBind(roles, l3, base, held, start, ess);
    AddStreamsKeeps(roles, l3, base, held, start, ess);
    var (l4, streams) := AddStreams(l3, start, held, ess);
    if held.Some? {
      var id := held.value;
      LetGoKeeps(roles, l4, base + Listed(streams), id);
      ReleaseBeside(l4, id);
      var l' := Release(l4, id);
      forall i: nat | LastWord(ess, i) ensures BoundAs(l', ess[i], held) {
        RoleOf(roles, ess[i]);
        ReleaseOthers(roles, l4, base + Listed(streams), id, ess[i].pid);
        EcmPidsBelow(roles, l4, base + Listed(streams), held);
        BoundAsStays(roles, l4, l', base + Listed(streams), None, ess[i], held);
      }
    }
  }

  lemma EcmPidsBelow(roles: Roles, l: Links, uses: multiset<nat>, held: Option<nat>)
    requires Inv(roles, l, uses, held, {})
    ensures forall id | id in l.decs :: id < l.nextId
  {
  }

  // ------------------------------------------------------------ PAT and CAT

  predicate IsProgramOf(p: Program, e: PatEntry) {
    p.number == e.number && p.pmtPid == e.pid && p.streams == [] && p.oldStreams == []
  }

  /** The programs are the entries of the table, but for the network. */
  lemma {:induction false} ProgramsAreEntries(entries: seq<PatEntry>)
    ensures forall p | p in NewPrograms(entries) :: exists e | e in entries :: e.number != 0 && IsProgramOf(p, e)
    ensures forall e | e in entries && e.number != 0 :: exists p | p in NewPrograms(entries) :: IsProgramOf(p, e)
    decreases |entries|
  {
    if entries != [] {
      var rest := NewPrograms(entries[1..]);
      ProgramsAreEntries(entries[1..]);
      forall p | p in NewPrograms(entries) ensures exists e | e in entries :: e.number != 0 && IsProgramOf(p, e) {
        if p in rest {
          var e :| e in entries[1..] && e.number != 0 && IsProgramOf(p, e);
          assert e in entries;
        } else {
          assert IsProgramOf(p, entries[0]);
        }
      }
      forall e | e in entries && e.number != 0 ensures exists p | p in NewPrograms(entries) :: IsProgramOf(p, e) {
        if e in entries[1..] {
          var p :| p in rest && IsProgramOf(p, e);
          assert p in NewPrograms(entries);
        } else {
          var p := NewProgram(e.number, e.pid);
          assert p == NewPrograms(entries)[0] && IsProgramOf(p, e);
        }
      }
    }
  }

  lemma {:induction false} PmtEntriesEnter(pm: PidMap, ps: seq<Program>, at: nat, q: Pid)
    requires at <= |ps|
    ensures var e := PmtEntries(pm, ps, at)[q];
      if exists i | at <= i < |ps| :: ps[i].pmtPid == q
      then e.kind == Pmt && e.target.ProgramAt? else e == pm[q]
    decreases |ps| - at
  {
    if at < |ps| {
      var p := ps[at].pmtPid;
      PmtEntriesEnter(pm[p := pm[p].(kind := Pmt, target := ProgramAt(at))], ps, at + 1, q);
    }
  }

  /** After a PAT a PID is that of a PMT if and only if a program has it, PID 0
      is that of the PAT, and nothing else is left in the map. */
  lemma PatEntersPrograms(l: Links, ps: seq<Program>, entries: seq<PatEntry>, q: Pid)
    ensures var (l', ps') := ApplyPat(l, ps, entries);
      && ps' == NewPrograms(entries)
      && (l'.pm[q].kind == Pmt <==> q != 0 && exists i | 0 <= i < |ps'| :: ps'[i].pmtPid == q)
      && (l'.pm[q].kind == Pat <==> q == 0)
      && (l'.pm[q].kind != Pmt && l'.pm[q].kind != Pat ==> l'.pm[q] == BLANK)
  {
    hide ReleasePrograms, NewPrograms, PmtEntries;
    PmtEntriesEnter(seq(0x2000, _ => BLANK), NewPrograms(entries), 0, q);
  }

  /** After a CAT the EMM PID that it names is read for EMMs. If it was a bound
      stream its decryptor has one stream less, and goes if that was its last use;
      of the other entries only that of a decryptor gone has changed. */
  lemma CatEntersEmm(l: Links, emm: Pid, q: Pid, id: nat)
    ensures var l' := ApplyCat(l, emm);
      && l'.pm[1].kind == Cat && l'.pm[1].ref == 1 && l'.pm[1].target == NoTarget
      && (emm !in {0, 1, 0x1fff} ==> l'.pm[emm].kind == Emm && l'.pm[emm].ref == 1 && l'.pm[emm].target == NoTarget)
      && (q != 1 && (q != emm || emm == 0 || emm == 0x1fff) ==>
            if l.pm[q].kind == Ecm && l.pm[q].target.Decryptor? && l.pm[q].target.id in l.decs
               && l.pm[q].target.id !in l'.decs && l.decs[l.pm[q].target.id].ecmPid == q
            then l'.pm[q] == l.pm[q].(kind := Unknown, target := NoTarget) else l'.pm[q] == l.pm[q])
      && (id in l'.decs <==> id in l.decs && !(emm !in {0, 0x1fff} && BoundTo(l, emm) == Some(id) && l.decs[id].ref <= 1))
      && (id in l'.decs ==> l'.decs[id] == l.decs[id].(
            ref := l.decs[id].ref - if emm !in {0, 0x1fff} && BoundTo(l, emm) == Some(id) then 1 else 0))
  {
  }

  /** So a decryptor whose uses are counted right stays exactly if another stream
      is bound to it. */
  lemma CatTakesItsStream(l: Links, emm: Pid, id: nat)
    requires Real(emm) && BoundTo(l, emm) == Some(id) && l.decs[id].ref == |BoundPids(l.pm, id)|
    ensures id in ApplyCat(l, emm).decs <==> exists q: Pid :: q != emm && Binds(l.pm[q], id)
  {
    CatEntersEmm(l, emm, emm, id);
    var bound := BoundPids(l.pm, id);
    assert emm in bound;
    if q: Pid :| q != emm && Binds(l.pm[q], id) {
      assert q in bound - {emm as nat} && |bound - {emm as nat}| == |bound| - 1;
    } else {
      assert bound == {emm as nat};
    }
  }
}
