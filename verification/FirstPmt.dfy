// The graph that the first PMT after a PAT builds: which entries it touches, and
// how many decryptors there are then.

module FirstPmt {
  import opened Bytes
  import opened SectionModel
  import opened PidGraph
  import opened PidInvariant
  import opened Tallies
  import opened EcmEntries
  import opened Bindings

  // ------------------------------------------------ entries that are not named

  /** The PID is not an ECM PID that a decryptor is there for. */
  ghost predicate NoReader(l: Links, q: Pid) {
    forall id | id in l.decs :: l.decs[id].ecmPid != q
  }

  /** The entry says the same, and still nobody else will change it. */
  ghost predicate Apart(l: Links, l': Links, q: Pid) {
    SameLead(l, l', q) && (NoReader(l, q) ==> NoReader(l', q))
  }

  lemma ReleaseApart(l: Links, id: nat, q: Pid)
    requires id in l.decs && NoReader(l, q)
    ensures Apart(l, Release(l, id), q)
  {
  }

  lemma SetDecryptorApart(l: Links, p: Pid, q: Pid)
    requires NoReader(l, q) && p != q
    ensures Apart(l, SetDecryptor(l, p).0, q)
  {
    hide Release;
    var l1 := l.(order := l.order + [l.nextId], decs := l.decs[l.nextId := NewDec(p)], nextId := l.nextId + 1);
    if BoundTo(l, p).Some? {
      ReleaseApart(l1, BoundTo(l, p).value, q);
    }
  }

  lemma UnrefApart(l: Links, p: Pid, q: Pid)
    requires NoReader(l, q) && p != q
    ensures Apart(l, Unref(l, p), q)
  {
    hide Release;
    if BoundTo(l, p).Some? {
      ReleaseApart(l, BoundTo(l, p).value, q);
    }
  }

  lemma {:induction false} UnrefAllApart(l: Links, streams: seq<Stream>, q: Pid)
    requires NoReader(l, q) && forall x | x in streams :: x.pid != q
    ensures Apart(l, UnrefAll(l, streams), q)
    decreases |streams|
  {
    hide Unref, NoReader;
    if streams != [] {
      UnrefApart(l, streams[0].pid, q);
      UnrefAllApart(Unref(l, streams[0].pid), streams[1..], q);
    }
  }

  lemma BindApart(l: Links, p: Pid, dec: Option<nat>, q: Pid)
    requires NoReader(l, q) && p != q && (dec.Some? ==> dec.value in l.decs)
    ensures Apart(l, Bind(l, p, dec), q)
  {
  }

  lemma AddStreamApart(l: Links, streams: seq<Stream>, major: Option<nat>, es: EsEntry, q: Pid)
    requires NoReader(l, q) && es.pid != q && (Real(es.ecm) ==> es.ecm != q)
    ensures Apart(l, AddStream(l, streams, major, es).0, q)
  {
    hide SetDecryptor, Bind, NoReader;
    var l2 := l;
    if Real(es.ecm) {
      SetDecryptorApart(l, es.ecm, q);
      CountedApart(SetDecryptor(l, es.ecm).0, streams, es.ecm, q);
      l2 := AddEcm(SetDecryptor(l, es.ecm).0, streams, es.ecm).0;
    }
    var l3 := Count(l2, es.pid, Other);
    SameReaders(l2, l3, q);
    var active := if Real(es.ecm) then Some(SetDecryptor(l, es.ecm).1) else if es.ecm == 0x1fff then None else major;
    if !(active.Some? && active.value !in l3.decs) {
      BindApart(l3, es.pid, active, q);
    }
  }

  lemma SameReaders(l: Links, l': Links, q: Pid)
    requires l'.decs == l.decs
    ensures NoReader(l, q) == NoReader(l', q)
  {
  }

  lemma CountedApart(l: Links, streams: seq<Stream>, p: Pid, q: Pid)
    requires p != q
    ensures Apart(l, AddEcm(l, streams, p).0, q)
  {
  }

  lemma {:induction false} AddStreamsApart(l: Links, streams: seq<Stream>, major: Option<nat>, ess: seq<EsEntry>, q: Pid)
    requires NoReader(l, q) && forall i | 0 <= i < |ess| :: ess[i].pid != q && (Real(ess[i].ecm) ==> ess[i].ecm != q)
    ensures Apart(l, AddStreams(l, streams, major, ess).0, q)
    decreases |ess|
  {
    hide AddStream, NoReader;
    if ess != [] {
      AddStreamApart(l, streams, major, ess[0], q);
      var (l1, listed) := AddStream(l, streams, major, ess[0]);
      AddStreamsApart(l1, listed, major, ess[1..], q);
    }
  }

  /** A PMT leaves alone the entry of a PID that it does not name and gives up no
      stream of, and that no decryptor reads ECMs from. */
  lemma PmtLeavesAlone(l: Links, p: Program, major: Pid, ess: seq<EsEntry>, q: Pid)
    requires NoReader(l, q) && major != q && forall x | x in p.oldStreams :: x.pid != q
    requires forall i | 0 <= i < |ess| :: ess[i].pid != q && (Real(ess[i].ecm) ==> ess[i].ecm != q)
    ensures SameLead(l, ApplyPmt(l, p, major, ess).0, q)
  {
    hide SetDecryptor, UnrefAll, AddEcm, AddStreams, NoReader, Release;
    var l1, held := l, None;
    if Real(major) {
      SetDecryptorApart(l, major, q);
      var (m, id) := SetDecryptor(l, major);
      l1, held := if id in m.decs then SetRef(m, id, m.decs[id].ref + 1) else m, Some(id);
      if id in m.decs {
        SetRefApart(m, id, m.decs[id].ref + 1, q);
      }
    }
    UnrefAllApart(l1, p.oldStreams, q);
    var l3, start := UnrefAll(l1, p.oldStreams), [];
    if Real(major) {
      CountedApart(l3, [], major, q);
      var (m, listed) := AddEcm(l3, [], major);
      l3, start := m, listed;
    }
    AddStreamsApart(l3, start, held, ess, q);
    var l4 := AddStreams(l3, start, held, ess).0;
    if held.Some? && held.value in l4.decs {
      ReleaseApart(l4, held.value, q);
    }
  }

  lemma SetRefApart(l: Links, id: nat, ref: int, q: Pid)
    requires id in l.decs
    ensures Apart(l, SetRef(l, id, ref), q)
  {
  }

  // ----------------------------------------------- every decryptor gets its ECMs

  /** The ECM PID of every decryptor leads to it. */
  ghost predicate Led(l: Links) {
    forall id | id in l.decs :: LeadsTo(l, l.decs[id].ecmPid, id)
  }

  lemma SetDecryptorLed(roles: Roles, l: Links, uses: multiset<nat>, held: Option<nat>, p: Pid)
    requires Inv(roles, l, uses, held, {}) && roles(p) == EcmRole && Led(l)
    ensures Led(SetDecryptor(l, p).0)
  {
    hide Inv;
    EntryFacts(roles, l, uses, held, {}, p);
    EcmPidsBelow(roles, l, uses, held);
  }

  lemma BindLed(l: Links, p: Pid, dec: Option<nat>)
    requires (dec.Some? ==> dec.value in l.decs) && NoReader(l, p) && Led(l)
    ensures Led(Bind(l, p, dec))
  {
  }

  lemma AddStreamLed(roles: Roles, l: Links, rest: multiset<nat>, held: Option<nat>, streams: seq<Stream>, es: EsEntry)
    requires Inv(roles, l, rest + Listed(streams), held, {}) && EsFits(roles, es) && Led(l)
    ensures Led(AddStream(l, streams, held, es).0)
  {
    hide Inv, SetDecryptor, AddEcm, Bind, Listed, Led;
    var l2, active := l, None;
    if Real(es.ecm) {
      SetDecryptorLed(roles, l, rest + Listed(streams), held, es.ecm);
      HalfTurn(roles, l, rest, held, streams, es, es.pid);
      var (l1, id) := SetDecryptor(l, es.ecm);
      AddEcmLed(l1, streams, es.ecm);
      l2, active := AddEcm(l1, streams, es.ecm).0, Some(id);
    } else {
      EcmPidsAreEcms(roles, l, rest + Listed(streams), held, {}, es.pid);
      active := if es.ecm == 0x1fff then None else held;
      if held.Some? {
        HeldIsThere(roles, l, rest + Listed(streams), held, {});
      }
    }
    CountLed(l2, es.pid);
    BindLed(Count(l2, es.pid, Other), es.pid, active);
  }

  lemma AddEcmLed(l: Links, streams: seq<Stream>, p: Pid)
    requires Led(l)
    ensures Led(AddEcm(l, streams, p).0)
  {
  }

  lemma CountLed(l: Links, p: Pid)
    requires Led(l) && NoReader(l, p)
    ensures Led(Count(l, p, Other)) && NoReader(Count(l, p, Other), p)
  {
  }

  lemma {:induction false} AddStreamsLed(roles: Roles, l: Links, rest: multiset<nat>, held: Option<nat>, streams: seq<Stream>,
      ess: seq<EsEntry>)
    requires Inv(roles, l, rest + Listed(streams), held, {}) && Led(l)
    requires forall i | 0 <= i < |ess| :: EsFits(roles, ess[i])
    ensures Led(AddStreams(l, streams, held, ess).0)
    decreases |ess|
  {
    hide Inv, AddStream, Listed, EsFits, Led;
    if ess != [] {
      AddStreamLed(roles, l, rest, held, streams, ess[0]);
      AddStreamKeeps(roles, l, rest, held, streams, ess[0]);
      var (l1, listed) := AddStream(l, streams, held, ess[0]);
      AddStreamsLed(roles, l1, rest, held, listed, ess[1..]);
    }
  }

  lemma ReleaseLed(l: Links, id: nat)
    requires id in l.decs && Led(l)
    ensures Led(Release(l, id))
  {
  }

  lemma SetRefLed(l: Links, id: nat, ref: int)
    requires id in l.decs && Led(l)
    ensures Led(SetRef(l, id, ref))
  {
  }

  /** While no stream is given up, a PMT leaves every decryptor with its ECMs. */
  lemma PmtLed(roles: Roles, l: Links, rest: multiset<nat>, p: Program, major: Pid, ess: seq<EsEntry>)
    requires Inv(roles, l, rest + (Listed(p.oldStreams) + Listed(p.streams)), None, {}) && PmtFits(roles, major, ess)
    requires Led(l) && p.oldStreams == [] && Real(major)
    ensures Led(ApplyPmt(l, p, major, ess).0)
  {
    hide Inv, SetDecryptor, AddEcm, AddStreams, Listed, SetRef, Release, Led, EsFits;
    var uses := rest + (Listed(p.oldStreams) + Listed(p.streams));
    var base := rest + Listed(p.streams);
    TakeMajor(roles, l, uses, major);
    SetDecryptorLed(roles, l, uses, None, major);
    var (m, id) := SetDecryptor(l, major);
    SetRefLed(m, id, m.decs[id].ref + 1);
    var l1 := SetRef(m, id, m.decs[id].ref + 1);
    NoneListed();
    assert uses == base && base + Listed([]) == base;
    AddEcmKeeps(roles, l1, base, Some(id), {}, [], major);
    AddEcmLed(l1, [], major);
    var (l3, start) := AddEcm(l1, [], major);
    AddStreamsLed(roles, l3, base, Some(id), start, ess);
    AddStreamsKeeps(roles, l3, base, Some(id), start, ess);
    var (l4, streams) := AddStreams(l3, start, Some(id), ess);
    HeldIsThere(roles, l4, base + Listed(streams), Some(id), {});
    ReleaseLed(l4, id);
  }

  // -------------------------------------------------------- how many there are

  /** A stream without an ECM PID of its own. */
  ghost predicate Shares(ess: seq<EsEntry>, pid: Pid) {
    exists i: nat :: LastWord(ess, i) && ess[i].pid == pid && ess[i].ecm == 0
  }

  /** A stream with an ECM PID of its own, other than the program's. */
  ghost predicate OtherEcm(ess: seq<EsEntry>, major: Pid) {
    exists i: nat :: LastWord(ess, i) && ess[i].ecm !in {0, 0x1fff} && ess[i].ecm != major
  }

  lemma {:induction false} LastOfPid(ess: seq<EsEntry>, pid: Pid, j: nat) returns (i: nat)
    requires j < |ess| && ess[j].pid == pid
    ensures LastWord(ess, i) && ess[i].pid == pid
    decreases |ess| - j
  {
    if k: nat :| j < k < |ess| && ess[k].pid == pid {
      i := LastOfPid(ess, pid, k);
    } else {
      i := j;
    }
  }

  lemma BoundIsStream(roles: Roles, l: Links, uses: multiset<nat>, d: nat) returns (p: Pid)
    requires Inv(roles, l, uses, None, {}) && d in l.decs
    ensures roles(p) == EsRole && l.pm[p].kind == Other && l.pm[p].target == Decryptor(d)
  {
    hide OrderFits, PidsCounted;
    assert |BoundPids(l.pm, d)| >= 1;
    var q :| q in BoundPids(l.pm, d);
    p := q;
    assert EntryFits(roles(p), l.pm[p], l.decs, p);
  }

  lemma UnboundBefore(roles: Roles, l: Links, uses: multiset<nat>, p: Pid)
    requires Inv(roles, l, uses, None, {}) && l.decs == map[] && roles(p) == EsRole
    ensures !l.pm[p].target.Decryptor?
  {
    assert EntryFits(roles(p), l.pm[p], l.decs, p);
  }

  /** Every decryptor that the first PMT leaves is that of the program, or there is
      a stream with another ECM PID. */
  lemma DecryptorIsKnown(roles: Roles, l: Links, l': Links, p: Program, major: Pid, ess: seq<EsEntry>, rest: multiset<nat>,
      uses: multiset<nat>, id: nat, d: nat)
    requires Inv(roles, l, rest, None, {}) && l.decs == map[] && p.oldStreams == [] && PmtFits(roles, major, ess) && Real(major)
    requires l' == ApplyPmt(l, p, major, ess).0 && Inv(roles, l', uses, None, {}) && Led(l')
    requires id in l'.decs && l'.decs[id].ecmPid == major && d in l'.decs && d != id
    requires forall i: nat | LastWord(ess, i) :: BoundAs(l', ess[i], Some(id))
    ensures OtherEcm(ess, major)
  {
    hide Inv, ApplyPmt, EsFits;
    var q := BoundIsStream(roles, l', uses, d);
    UnboundBefore(roles, l, rest, q);
    if forall j | 0 <= j < |ess| :: ess[j].pid != q {
      forall j | 0 <= j < |ess| ensures Real(ess[j].ecm) ==> ess[j].ecm != q {
        EcmIsNoStream(roles, ess[j], q);
      }
      PmtLeavesAlone(l, p, major, ess, q);
    } else {
      var j :| 0 <= j < |ess| && ess[j].pid == q;
      var i := LastOfPid(ess, q, j);
      assert BoundAs(l', ess[i], Some(id));
      LedApart(l', id, d);
    }
  }

  lemma LedApart(l: Links, id: nat, d: nat)
    requires Led(l) && id in l.decs && d in l.decs && d != id
    ensures l.decs[id].ecmPid != l.decs[d].ecmPid
  {
    assert LeadsTo(l, l.decs[id].ecmPid, id) && LeadsTo(l, l.decs[d].ecmPid, d);
  }

  lemma EcmIsNoStream(roles: Roles, es: EsEntry, q: Pid)
    requires EsFits(roles, es) && roles(q) == EsRole
    ensures Real(es.ecm) ==> es.ecm != q
  {
  }

  lemma OnlyOne(roles: Roles, l: Links, uses: multiset<nat>, id: nat)
    requires Inv(roles, l, uses, None, {}) && id in l.decs
    ensures l.order == [id] <==> forall d | d in l.decs :: d == id
    ensures forall d | d in l.decs :: d in l.order
  {
    hide EntriesFit, PidsCounted, DecsCounted;
    assert id in l.order;
    if forall d | d in l.decs :: d == id {
      SameTwice(l.order, id);
    } else {
      var d :| d in l.decs && d != id;
      assert d in l.order;
    }
  }

  lemma SameTwice(order: seq<nat>, id: nat)
    requires id in order && (forall x | x in order :: x == id)
    requires |order| > 1 ==> order[0] != order[1]
    ensures order == [id]
  {
    forall i | 0 <= i < |order| ensures order[i] == id {
      assert order[i] in order;
    }
  }

  lemma OwnEcmIsThere(roles: Roles, l: Links, ess: seq<EsEntry>, major: Pid, id: nat) returns (d: nat)
    requires OtherEcm(ess, major) && id in l.decs && l.decs[id].ecmPid == major
    requires forall i: nat | LastWord(ess, i) :: BoundAs(l, ess[i], Some(id))
    ensures d in l.decs && d != id
  {
    var i: nat :| LastWord(ess, i) && ess[i].ecm !in {0, 0x1fff} && ess[i].ecm != major;
    assert BoundAs(l, ess[i], Some(id));
    d := l.pm[ess[i].pid].target.id;
  }

  lemma SharedIsBound(roles: Roles, l: Links, uses: multiset<nat>, ess: seq<EsEntry>, pid: Pid, id: nat)
    requires Inv(roles, l, uses, None, {}) && Shares(ess, pid) && forall i | 0 <= i < |ess| :: EsFits(roles, ess[i])
    requires forall i: nat | LastWord(ess, i) :: BoundAs(l, ess[i], Some(id))
    ensures BoundTo(l, pid) == Some(id) && id in l.decs
  {
    hide OrderFits, DecsCounted, PidsCounted;
    var i: nat :| LastWord(ess, i) && ess[i].pid == pid && ess[i].ecm == 0;
    assert BoundAs(l, ess[i], Some(id)) && EsFits(roles, ess[i]);
    assert EntryFits(roles(pid), l.pm[pid], l.decs, pid);
  }

  lemma EsEntryKinds(roles: Roles, l: Links, uses: multiset<nat>)
    requires Inv(roles, l, uses, None, {})
    ensures forall pid: Pid | roles(pid) == EsRole :: l.pm[pid].kind in {Unknown, Other}
  {
    hide OrderFits, DecsCounted, PidsCounted;
    forall pid: Pid | roles(pid) == EsRole ensures l.pm[pid].kind in {Unknown, Other} {
      assert EntryFits(roles(pid), l.pm[pid], l.decs, pid);
    }
  }

  /** The decryptor is there, as new. */
  ghost predicate Fresh(l: Links, id: nat) {
    && id in l.decs && l.decs[id].locked == 0 && l.decs[id].m2 == None && l.decs[id].ecm == NEW_PARSER
    && l.decs[id].phase == 0
  }

  lemma AllAreNew(l: Links, l': Links)
    requires SameLocks(l, l') && l.decs == map[]
    ensures forall id | id in l'.decs :: Fresh(l', id)
  {
    forall id | id in l'.decs ensures Fresh(l', id) {
      assert Carried(l, l', id) || New(l, l', id);
    }
  }

  lemma LeadsFromHere(l: Links, major: Pid, id: nat)
    requires Led(l) && id in l.decs && l.decs[id].ecmPid == major
    ensures LeadsTo(l, major, id)
  {
  }

  lemma MajorPid(roles: Roles, l: Links, uses: multiset<nat>, major: Pid)
    requires Inv(roles, l, uses, None, {}) && roles(major) == EcmRole && l.decs == map[]
    ensures var (m, id) := SetDecryptor(l, major); id in m.decs && m.decs[id].ecmPid == major && id == l.nextId
  {
    assert EntryFits(roles(major), l.pm[major], l.decs, major);
  }

  /** The graph after the first PMT of a program, with no decryptor before: one
      decryptor for the program's ECM PID, as new, to which every stream without an
      ECM PID of its own is bound. It is the only one if and only if no stream has
      another ECM PID. */
  lemma FirstPmtBuilds(roles: Roles, l: Links, ps: seq<Program>, i: nat, major: Pid, ess: seq<EsEntry>, shared: Pid)
    returns (id: nat)
    requires Valid(roles, l, ps) && l.decs == map[] && i < |ps| && ps[i].streams == [] && ps[i].oldStreams == []
    requires PmtFits(roles, major, ess) && Real(major) && Shares(ess, shared)
    ensures var l' := ApplyPmt(l, ps[i], major, ess).0;
      && LeadsTo(l', major, id) && id in l'.decs && (forall d | d in l'.decs :: Fresh(l', d))
      && (forall d | d in l'.decs :: d in l'.order)
      && (l'.order == [id] <==> !OtherEcm(ess, major)) && (OtherEcm(ess, major) ==> exists d :: d in l'.decs && d != id)
      && (forall pid: Pid | Shares(ess, pid) :: BoundTo(l', pid) == Some(id))
      && (forall pid: Pid | roles(pid) == EsRole :: l'.pm[pid].kind in {Unknown, Other})
  {
    hide Inv, ApplyPmt, Listed, AllListed, Others, BoundTo, Shares, LeadsTo, SetDecryptor, SameLocks, BoundAs, EsFits, Beside,
      Led, OtherEcm, Fresh, LastWord, PidGraph.Release;
    var (l', p') := ApplyPmt(l, ps[i], major, ess);
    id := SetDecryptor(l, major).1;
    AllListedAt(ps, i, p');
    var rest := Others(ps, i);
    ApplyPmtKeeps(roles, l, rest, ps[i], major, ess);
    PmtBindsStreams(roles, l, rest, ps[i], major, ess);
    var uses := rest + (Listed(p'.oldStreams) + Listed(p'.streams));
    SharedIsBound(roles, l', uses, ess, shared, id);
    forall pid: Pid | Shares(ess, pid) ensures BoundTo(l', pid) == Some(id) {
      SharedIsBound(roles, l', uses, ess, pid, id);
    }
    EsEntryKinds(roles, l', uses);
    ApplyBeside(l, ps, PmtTable(i, major, ess));
    AllAreNew(l, l');
    NothingLed(l);
    PmtLed(roles, l, rest, ps[i], major, ess);
    MajorStays(roles, l, ps, i, major, ess, id);
    LeadsFromHere(l', major, id);
    OnlyOne(roles, l', uses, id);
    if d :| d in l'.decs && d != id {
      DecryptorIsKnown(roles, l, l', ps[i], major, ess, AllListed(ps), uses, id, d);
    } else if OtherEcm(ess, major) {
      var d := OwnEcmIsThere(roles, l', ess, major, id);
    }
  }

  lemma NothingLed(l: Links)
    requires l.decs == map[]
    ensures Led(l)
  {
  }

  /** The program's decryptor keeps its ECM PID. */
  lemma MajorStays(roles: Roles, l: Links, ps: seq<Program>, i: nat, major: Pid, ess: seq<EsEntry>, id: nat)
    requires Valid(roles, l, ps) && i < |ps| && l.decs == map[] && Real(major) && PmtFits(roles, major, ess)
    requires ps[i].streams == [] && ps[i].oldStreams == [] && id == SetDecryptor(l, major).1
    ensures var l' := ApplyPmt(l, ps[i], major, ess).0; id in l'.decs ==> l'.decs[id].ecmPid == major
  {
    hide AllListed, Listed, SetDecryptor, AddEcm, AddStreams, Release, SetRef, Inv;
    MajorPid(roles, l, AllListed(ps), major);
    var (m, x) := SetDecryptor(l, major);
    var l1 := SetRef(m, id, m.decs[id].ref + 1);
    SetRefPid(m, id, m.decs[id].ref + 1);
    assert UnrefAll(l1, []) == l1;
    AddEcmPid(l1, [], major);
    var (l3, start) := AddEcm(l1, [], major);
    BelowNext(l, major);
    AddStreamsBeside(l3, start, Some(id), ess);
    var l4 := AddStreams(l3, start, Some(id), ess).0;
    StaysInPlace(l3, l4, id);
    if id in l4.decs {
      ReleasePid(l4, id);
    }
  }

  lemma SetRefPid(l: Links, id: nat, ref: int)
    requires id in l.decs
    ensures var l' := SetRef(l, id, ref); id in l'.decs && l'.decs[id].ecmPid == l.decs[id].ecmPid && l'.nextId == l.nextId
  {
  }

  lemma AddEcmPid(l: Links, streams: seq<Stream>, p: Pid)
    ensures AddEcm(l, streams, p).0.decs == l.decs && AddEcm(l, streams, p).0.nextId == l.nextId
  {
  }

  lemma BelowNext(l: Links, p: Pid)
    requires l.decs == map[]
    ensures var (m, id) := SetDecryptor(l, p); id in m.decs ==> id < m.nextId
  {
  }

  lemma StaysInPlace(l: Links, l': Links, id: nat)
    requires SameLocks(l, l') && id < l.nextId && id in l.decs
    ensures id in l'.decs ==> l'.decs[id].ecmPid == l.decs[id].ecmPid
  {
    if id in l'.decs {
      assert Carried(l, l', id) || New(l, l', id);
    }
  }

  lemma ReleasePid(l: Links, id: nat)
    requires id in l.decs
    ensures id in Release(l, id).decs ==> Release(l, id).decs[id].ecmPid == l.decs[id].ecmPid
  {
  }
}
