// A decryptor whose contract has run out is locked: it owns no cipher and asks
// the card for nothing, until the card has accepted an EMM.

module Locks {
  import opened Bytes
  import opened SectionModel
  import opened PidGraph
  import opened PidInvariant
  import opened Core
  import opened Framing
  import opened Tallies
  import opened Search
  import EcmKeys
  import Multi2
  import Tables

  /** A locked decryptor has no cipher, and numbers are given out in order. */
  ghost predicate LocksHold(l: Links) {
    forall id | id in l.decs :: id < l.nextId && (l.decs[id].locked > 0 ==> l.decs[id].m2 == None)
  }

  /** The card accepted one of these EMMs. */
  ghost predicate Accepted(calls: seq<EmmCall>) {
    exists i | 0 <= i < |calls| :: calls[i].status >= 0
  }

  /** The card was asked for this decryptor, and it refused. */
  ghost predicate Refused(calls: seq<EcmCall>, id: nat) {
    EcmCall(id, true) in calls
  }

  /** The history of s goes on in that of s'. */
  ghost predicate Grows(s: State, s': State) {
    s.ecmCalls <= s'.ecmCalls && s.emmCalls <= s'.emmCalls
  }

  function NewEcms(s: State, s': State): seq<EcmCall>
    requires s.ecmCalls <= s'.ecmCalls
  {
    s'.ecmCalls[|s.ecmCalls|..]
  }

  function NewEmms(s: State, s': State): seq<EmmCall>
    requires s.emmCalls <= s'.emmCalls
  {
    s'.emmCalls[|s.emmCalls|..]
  }

  /** Locked, and without a cipher. */
  predicate IsShut(d: Dec) {
    d.locked > 0 && d.m2 == None
  }

  /** The cipher is there, but the card never started it. */
  predicate IsBroken(d: Dec) {
    d.m2.Some? && !EcmKeys.Started(d.m2.value)
  }

  // The same of the decryptor of this number, or that it is gone for good.

  ghost predicate Shut(s: State, id: nat) {
    id < s.links.nextId && (id in s.links.decs ==> IsShut(s.links.decs[id]))
  }

  ghost predicate Broken(s: State, id: nat) {
    id < s.links.nextId && (id in s.links.decs ==> IsBroken(s.links.decs[id]))
  }

  ghost predicate Useless(s: State, id: nat) {
    id < s.links.nextId && (id in s.links.decs ==> IsBroken(s.links.decs[id]) || IsShut(s.links.decs[id]))
  }

  ghost predicate NotAsked(calls: seq<EcmCall>, id: nat) {
    forall c | c in calls :: c.id != id
  }

  /** What a stretch of a run keeps: the history grows, and only EMMs for the card
      are passed on. Unless the card accepts an EMM, a shut decryptor stays shut,
      without a call to the card for it, and a useless one useless. A broken one
      stays broken unless the card refuses it. */
  ghost predicate Guarded(cfg: Config, s: State, s': State) {
    && Grows(s, s') && s.links.nextId <= s'.links.nextId
    && (LocksHold(s.links) ==> LocksHold(s'.links))
    && (forall c | c in NewEmms(s, s') :: |c.element| >= 6 && CardId(c.element) in cfg.casIds)
    && (!Accepted(NewEmms(s, s')) ==>
          forall id :: (Shut(s, id) ==> Shut(s', id) && NotAsked(NewEcms(s, s'), id)) && (Useless(s, id) ==> Useless(s', id)))
    && (forall id :: Broken(s, id) && !Refused(NewEcms(s, s'), id) ==> Broken(s', id))
  }

  lemma GuardedTwice(cfg: Config, s: State, s1: State, s2: State)
    requires Guarded(cfg, s, s1) && Guarded(cfg, s1, s2)
    ensures Guarded(cfg, s, s2)
  {
    hide LocksHold, Shut, Broken, Useless, Accepted, CardId;
    HistoriesJoin(s, s1, s2);
    AcceptedJoin(NewEmms(s, s1), NewEmms(s1, s2));
  }

  lemma HistoriesJoin(s: State, s1: State, s2: State)
    requires Grows(s, s1) && Grows(s1, s2)
    ensures Grows(s, s2)
    ensures NewEcms(s, s2) == NewEcms(s, s1) + NewEcms(s1, s2)
    ensures NewEmms(s, s2) == NewEmms(s, s1) + NewEmms(s1, s2)
  {
  }

  lemma AcceptedJoin(a: seq<EmmCall>, b: seq<EmmCall>)
    ensures Accepted(a + b) <==> Accepted(a) || Accepted(b)
  {
    if Accepted(a) {
      var i :| 0 <= i < |a| && a[i].status >= 0;
      assert (a + b)[i].status >= 0;
    }
    if Accepted(b) {
      var i :| 0 <= i < |b| && b[i].status >= 0;
      assert (a + b)[|a| + i].status >= 0;
    }
  }

  /** No step that leaves locks, keys and the card alone can break it. */
  lemma QuietIsGuarded(cfg: Config, s: State, s': State)
    requires SameLocks(s.links, s'.links) && s'.ecmCalls == s.ecmCalls && s'.emmCalls == s.emmCalls
    ensures Guarded(cfg, s, s')
  {
    hide EcmKeys.Started;
    assert NewEcms(s, s') == [] && NewEmms(s, s') == [];
    forall id | id in s'.links.decs ensures Carried(s.links, s'.links, id) || New(s.links, s'.links, id) {
    }
  }

  lemma AppliedIsQuiet(s: State, t: Table)
    ensures SameLocks(s.links, Applied(s, t).links)
    ensures Applied(s, t).ecmCalls == s.ecmCalls && Applied(s, t).emmCalls == s.emmCalls
  {
    hide Apply;
    ApplyBeside(s.links, s.programs, t);
  }

  lemma SameDecs(l: Links, l': Links)
    requires l'.decs == l.decs && l'.nextId == l.nextId
    ensures SameLocks(l, l')
  {
  }

  // ----------------------------------------------------------------- ECMs

  /** The new value of one decryptor, and at most one question to the card. */
  ghost predicate Turned(s: State, d: Dec, d': Dec, calls: seq<EcmCall>, id: nat) {
    && (d.locked == 0 ==> d'.locked == 0 || d'.m2 == None)
    && (d.locked > 0 ==> calls == [] && d'.locked == d.locked && d'.m2 == d.m2)
    && (IsBroken(d) ==> IsBroken(d') || (IsShut(d') && Refused(calls, id)))
  }

  lemma OneDecIsGuarded(cfg: Config, s: State, s': State, id: nat, calls: seq<EcmCall>)
    requires id in s.links.decs && id in s'.links.decs && s'.links == WithDec(s, id, s'.links.decs[id]).links
    requires s'.ecmCalls == s.ecmCalls + calls && s'.emmCalls == s.emmCalls && forall c | c in calls :: c.id == id
    requires Turned(s, s.links.decs[id], s'.links.decs[id], calls, id)
    ensures Guarded(cfg, s, s')
  {
    hide EcmKeys.Started;
    assert NewEcms(s, s') == calls;
    assert NewEmms(s, s') == [];
  }

  lemma EcmSectionIsGuarded(cfg: Config, s: State, id: nat, raw: seq<byte>)
    requires id in s.links.decs && |raw| >= 3
    ensures Guarded(cfg, s, EcmSection(cfg, s, id, raw).0)
  {
    hide Guarded, Tables.Body, SameLocks;
    var s' := EcmSection(cfg, s, id, raw).0;
    QuietSelf(cfg, s);
    if raw[0] == 0x82 {
      EcmSectionTouches(cfg, s, id, raw);
      OneDecIsGuarded(cfg, s, s', id, NewEcms(s, s'));
    }
  }

  lemma QuietSelf(cfg: Config, s: State)
    ensures Guarded(cfg, s, s)
  {
    SameDecs(s.links, s.links);
    QuietIsGuarded(cfg, s, s);
  }

  lemma EcmSectionTouches(cfg: Config, s: State, id: nat, raw: seq<byte>)
    requires id in s.links.decs && |raw| >= 3 && raw[0] == 0x82
    ensures var s' := EcmSection(cfg, s, id, raw).0;
      && id in s'.links.decs && s'.links == WithDec(s, id, s'.links.decs[id]).links
      && s'.emmCalls == s.emmCalls && s.ecmCalls <= s'.ecmCalls && s'.ecmCalls == s.ecmCalls + NewEcms(s, s')
      && (forall c | c in NewEcms(s, s') :: c.id == id)
      && Turned(s, s.links.decs[id], s'.links.decs[id], NewEcms(s, s'), id)
  {
    hide Tables.Body, EcmKeys.Started;
    var s' := EcmSection(cfg, s, id, raw).0;
    var d := s.links.decs[id];
    if d.locked == 0 {
      var c := s'.ecmCalls[|s.ecmCalls|];
      assert NewEcms(s, s') == [c];
      if d.m2.Some? {
        OnlyStarts(d.m2.value, cfg.ecm(|s.ecmCalls|, Tables.Body(raw)).key);
      }
    } else {
      assert NewEcms(s, s') == [];
    }
  }

  lemma OnlyStarts(k: Multi2.Keys, key: Key16)
    ensures EcmKeys.Started(k.WithScrambleKey(key)) == EcmKeys.Started(k)
    ensures EcmKeys.Started(k.WithoutScrambleKey()) == EcmKeys.Started(k)
  {
    hide Multi2.Schedule, Multi2.LoadBlock;
    EcmKeys.BitsStay(k.state);
  }

  lemma EcmPacketIsGuarded(cfg: Config, s: State, id: nat, put: Packet)
    requires id in s.links.decs
    ensures Guarded(cfg, s, EcmPacket(cfg, s, id, put).0)
  {
    hide Guarded, Put, EcmSection, LocksHold;
    var ecm := Put(s.links.decs[id].ecm, put).0;
    var s1 := WithDec(s, id, s.links.decs[id].(ecm := ecm));
    SameKeysGuarded(cfg, s, id, ecm);
    QuietSelf(cfg, s1);
    if ecm.queue != [] {
      var (ecm', got) := Get(ecm);
      var s2 := WithDec(s1, id, s1.links.decs[id].(ecm := ecm'));
      SameKeysGuarded(cfg, s1, id, ecm');
      if |got.value| >= 3 {
        EcmSectionIsGuarded(cfg, s2, id, got.value);
        GuardedTwice(cfg, s1, s2, EcmSection(cfg, s2, id, got.value).0);
        GuardedTwice(cfg, s, s1, EcmSection(cfg, s2, id, got.value).0);
      }
    }
  }

  lemma SameKeysGuarded(cfg: Config, s: State, id: nat, ecm: Parser)
    requires id in s.links.decs
    ensures Guarded(cfg, s, WithDec(s, id, s.links.decs[id].(ecm := ecm)))
  {
    assert s.ecmCalls + [] == s.ecmCalls;
    OneDecIsGuarded(cfg, s, WithDec(s, id, s.links.decs[id].(ecm := ecm)), id, []);
  }

  // ----------------------------------------------------------------- EMMs

  ghost predicate AllUnlocked(l: Links) {
    forall id | id in l.decs :: l.decs[id].locked == 0
  }

  /** What handing EMMs to the card does: beside what any step keeps, one that
      is accepted unlocks every decryptor at once. */
  ghost predicate Unlocks(cfg: Config, s: State, s': State) {
    Guarded(cfg, s, s') && (AllUnlocked(s.links) || Accepted(NewEmms(s, s')) ==> AllUnlocked(s'.links))
  }

  lemma UnlocksTwice(cfg: Config, s: State, s1: State, s2: State)
    requires Unlocks(cfg, s, s1) && Unlocks(cfg, s1, s2)
    ensures Unlocks(cfg, s, s2)
  {
    hide LocksHold, Shut, Broken, Useless, Accepted, CardId, AllUnlocked;
    GuardedTwice(cfg, s, s1, s2);
    HistoriesJoin(s, s1, s2);
    AcceptedJoin(NewEmms(s, s1), NewEmms(s1, s2));
  }

  lemma UnlocksSelf(cfg: Config, s: State)
    ensures Unlocks(cfg, s, s)
  {
    QuietSelf(cfg, s);
  }

  lemma OneEmm(cfg: Config, s: State, element: seq<byte>, n: int)
    requires |element| >= 6 && CardId(element) in cfg.casIds
    ensures var s1 := s.(emmCalls := s.emmCalls + [EmmCall(element, n)]);
      Unlocks(cfg, s, if n < 0 then s1 else s1.(links := UnlockAll(s1.links)))
  {
    hide CardId, EcmKeys.Started;
    var s1 := s.(emmCalls := s.emmCalls + [EmmCall(element, n)]);
    var s' := if n < 0 then s1 else s1.(links := UnlockAll(s1.links));
    assert NewEmms(s, s') == [EmmCall(element, n)];
    assert n >= 0 ==> [EmmCall(element, n)][0].status >= 0;
  }

  lemma {:induction false} EmmForIdsUnlocks(cfg: Config, s: State, element: seq<byte>, ids: seq<int>)
    requires |element| >= 6 && forall x | x in ids :: x in cfg.casIds
    ensures Unlocks(cfg, s, EmmForIds(cfg, s, element, ids).0)
    decreases |ids|
  {
    hide Unlocks, CardId, UnlockAll;
    if ids == [] {
      UnlocksSelf(cfg, s);
    } else if ids[0] != CardId(element) {
      EmmForIdsUnlocks(cfg, s, element, ids[1..]);
    } else {
      var n := cfg.emm(|s.emmCalls|, element);
      OneEmm(cfg, s, element, n);
      var s1 := s.(emmCalls := s.emmCalls + [EmmCall(element, n)]);
      if n >= 0 {
        var s2 := s1.(links := UnlockAll(s1.links));
        EmmForIdsUnlocks(cfg, s2, element, ids[1..]);
        UnlocksTwice(cfg, s, s2, EmmForIds(cfg, s2, element, ids[1..]).0);
      }
    }
  }

  lemma {:induction false} EmmElementsUnlock(cfg: Config, s: State, data: seq<byte>)
    ensures Unlocks(cfg, s, EmmElements(cfg, s, data).0)
    decreases |data|
  {
    hide Unlocks, EmmForIds;
    UnlocksSelf(cfg, s);
    if |data| >= 13 && data[6] as int + 7 <= |data| {
      var len := data[6] as int + 7;
      var s1 := EmmForIds(cfg, s, data[..len], cfg.casIds).0;
      EmmForIdsUnlocks(cfg, s, data[..len], cfg.casIds);
      EmmElementsUnlock(cfg, s1, data[len..]);
      UnlocksTwice(cfg, s, s1, EmmElements(cfg, s1, data[len..]).0);
    }
  }

  lemma {:induction false} ProcEmmUnlocks(cfg: Config, s: State, emm: Parser)
    ensures Unlocks(cfg, s, ProcEmm(cfg, s, emm).0)
    decreases |emm.queue|
  {
    hide Unlocks, EmmElements, Tables.Body;
    UnlocksSelf(cfg, s);
    if emm.queue != [] {
      var (emm', got) := Get(emm);
      ProcEmmUnlocks(cfg, s, emm');
      if |got.value| >= 3 {
        var s1 := EmmElements(cfg, s, Tables.Body(got.value)).0;
        EmmElementsUnlock(cfg, s, Tables.Body(got.value));
        ProcEmmUnlocks(cfg, s1, emm');
        UnlocksTwice(cfg, s, s1, ProcEmm(cfg, s1, emm').0);
      }
    }
  }

  // ----------------------------------------------------------- one packet

  /** What one packet does: an accepted EMM leaves no decryptor locked. */
  ghost predicate Careful(cfg: Config, s: State, s': State) {
    Guarded(cfg, s, s') && (Accepted(NewEmms(s, s')) ==> AllUnlocked(s'.links))
  }

  lemma QuietIsCareful(cfg: Config, s: State, s': State)
    requires SameLocks(s.links, s'.links) && s'.ecmCalls == s.ecmCalls && s'.emmCalls == s.emmCalls
    ensures Careful(cfg, s, s')
  {
    QuietIsGuarded(cfg, s, s');
    assert NewEmms(s, s') == [];
  }

  lemma EcmIsCareful(cfg: Config, s: State, id: nat, put: Packet)
    requires id in s.links.decs
    ensures Careful(cfg, s, EcmPacket(cfg, s, id, put).0)
  {
    hide Guarded, AllUnlocked;
    EcmPacketIsGuarded(cfg, s, id, put);
    EcmHandsOutNoEmm(cfg, s, id, put);
  }

  lemma EcmHandsOutNoEmm(cfg: Config, s: State, id: nat, put: Packet)
    requires id in s.links.decs
    ensures EcmPacket(cfg, s, id, put).0.emmCalls == s.emmCalls
    ensures Grows(s, EcmPacket(cfg, s, id, put).0) ==> NewEmms(s, EcmPacket(cfg, s, id, put).0) == []
  {
    hide Put, Tables.Body;
  }

  lemma PmtIsCareful(cfg: Config, s: State, i: nat, put: Packet)
    requires i < |s.programs|
    ensures Careful(cfg, s, PmtPacket(cfg, s, i, put).0)
  {
    hide Put, Tables.ReadPmt, Applied, SameLocks, Careful;
    SameDecs(s.links, s.links);
    var pmt := Put(s.programs[i].pmt, put).0;
    if pmt.queue != [] {
      var (pmt', got) := Get(pmt);
      var s2 := s.(programs := s.programs[i := s.programs[i].(pmt := pmt')]);
      if |got.value| >= 3 && got.value[0] == 0x02 && Tables.ReadPmt(got.value, cfg.caSystemId).PmtRead? {
        var read := Tables.ReadPmt(got.value, cfg.caSystemId);
        AppliedIsQuiet(s2, PmtTable(i, read.major, read.ess));
      }
    }
    QuietIsCareful(cfg, s, PmtPacket(cfg, s, i, put).0);
  }

  lemma CatIsCareful(cfg: Config, s: State, put: Packet)
    ensures Careful(cfg, s, CatPacket(cfg, s, put).0)
  {
    hide Put, Tables.FindCa, Tables.Body, Applied, SameLocks, Careful;
    SameDecs(s.links, s.links);
    var cat := Put(ParserOf(s.cat), put).0;
    if cat.queue != [] {
      var (cat', got) := Get(cat);
      if |got.value| >= 3 {
        AppliedIsQuiet(s.(cat := Some(cat')), CatTable(Tables.FindCa(Tables.Body(got.value), cfg.caSystemId)));
      }
    }
    QuietIsCareful(cfg, s, CatPacket(cfg, s, put).0);
  }

  lemma PatIsCareful(cfg: Config, s: State, put: Packet)
    ensures Careful(cfg, s, PatPacket(s, put).0)
  {
    hide Put, Tables.ReadPat, Tables.PatTooShort, Tables.Body, Applied, SameLocks, Careful;
    SameDecs(s.links, s.links);
    var pat := Put(ParserOf(s.pat), put).0;
    if pat.queue != [] {
      var (pat', got) := Get(pat);
      if |got.value| >= 3 {
        AppliedIsQuiet(s.(pat := Some(pat')), PatTable(Tables.ReadPat(Tables.Body(got.value))));
      }
    }
    QuietIsCareful(cfg, s, PatPacket(s, put).0);
  }

  lemma EmmIsCareful(cfg: Config, s: State, put: Packet)
    ensures Careful(cfg, s, EmmPacket(cfg, s, put).0)
  {
    hide Put, ProcEmm, SameLocks, Guarded, AllUnlocked, Accepted;
    SameDecs(s.links, s.links);
    var emm := Put(ParserOf(s.emm), put).0;
    var s1 := s.(emm := Some(emm));
    QuietIsCareful(cfg, s, s);
    QuietIsCareful(cfg, s, s1);
    if cfg.emmOn && emm.queue != [] && cfg.hasCard {
      ProcEmmUnlocks(cfg, s1, emm);
      var s2, emm2 := ProcEmm(cfg, s1, emm).0, ProcEmm(cfg, s1, emm).1;
      SameDecs(s2.links, s2.links);
      SameHistory(cfg, s, s1, s2, s2.(emm := Some(emm2)));
    }
  }

  lemma SameHistory(cfg: Config, s: State, s1: State, s2: State, s3: State)
    requires Guarded(cfg, s1, s2) && (Accepted(NewEmms(s1, s2)) ==> AllUnlocked(s2.links))
    requires s1.links == s.links && s1.ecmCalls == s.ecmCalls && s1.emmCalls == s.emmCalls
    requires s3.links == s2.links && s3.ecmCalls == s2.ecmCalls && s3.emmCalls == s2.emmCalls
    ensures Careful(cfg, s, s3)
  {
    hide AllUnlocked, Accepted, LocksHold, CardId, Shut, Broken, Useless;
    assert NewEmms(s, s3) == NewEmms(s1, s2) && NewEcms(s, s3) == NewEcms(s1, s2);
    SameStanding(s, s1);
    SameStanding(s2, s3);
  }

  lemma SameStanding(s: State, s': State)
    requires s'.links == s.links
    ensures forall id :: Shut(s', id) == Shut(s, id) && Broken(s', id) == Broken(s, id) && Useless(s', id) == Useless(s, id)
  {
    hide EcmKeys.Started;
  }

  lemma DispatchIsCareful(cfg: Config, s: State, q: Packet188)
    ensures Careful(cfg, s, Dispatch(cfg, s, q).0)
  {
    hide Careful, EcmPacket, PmtPacket, EmmPacket, CatPacket, PatPacket, SameLocks;
    var pid, e := PidOf(q), s.links.pm[PidOf(q)];
    var put := PutOf(q);
    SameDecs(s.links, s.links);
    QuietIsCareful(cfg, s, s);
    if e.kind == Ecm && e.target.Decryptor? && e.target.id in s.links.decs {
      EcmIsCareful(cfg, s, e.target.id, put);
    } else if e.kind == Pmt && e.target.ProgramAt? && e.target.index < |s.programs| {
      PmtIsCareful(cfg, s, e.target.index, put);
    }
    EmmIsCareful(cfg, s, put);
    CatIsCareful(cfg, s, put);
    PatIsCareful(cfg, s, put);
  }

  lemma HandleIsCareful(cfg: Config, s: State, p: Packet188)
    ensures !Handle(cfg, s, p).Skip? ==> Careful(cfg, s, Handle(cfg, s, p).state)
  {
    hide Careful, Dispatch, SameLocks, Multi2.CbcDecrypt;
    SameDecs(s.links, s.links);
    QuietIsCareful(cfg, s, s);
    if Transport(p) == 0 && !(PidOf(p) == 0x1fff && cfg.strip) && !BrokenPacket(p) {
      var (s1, q, r) := Descramble(s, p);
      SameDecs(s.links, s1.links);
      QuietIsCareful(cfg, s, s1);
      DispatchIsCareful(cfg, s1, q);
      CarefulAfterQuiet(cfg, s, s1, Dispatch(cfg, s1, q).0);
    }
  }

  lemma CarefulAfterQuiet(cfg: Config, s: State, s1: State, s2: State)
    requires Careful(cfg, s, s1) && Careful(cfg, s1, s2) && s1.emmCalls == s.emmCalls
    ensures Careful(cfg, s, s2)
  {
    hide AllUnlocked, Accepted, LocksHold, CardId, Shut, Broken, Useless;
    GuardedTwice(cfg, s, s1, s2);
    assert NewEmms(s, s2) == NewEmms(s1, s2);
  }

  // ---------------------------------------------------------- whole runs

  lemma TurnIsCareful(cfg: Config, unit: nat, s: State, buf: seq<byte>)
    requires 188 <= unit
    ensures !TurnOf(cfg, unit, s, buf).Halt? ==> Careful(cfg, s, TurnOf(cfg, unit, s, buf).state)
  {
    hide Handle, Careful, Cursor, SameLocks;
    SameDecs(s.links, s.links);
    QuietIsCareful(cfg, s, s);
    if !TurnOf(cfg, unit, s, buf).Halt? {
      var q := Cursor(buf, unit).value;
      HandleIsCareful(cfg, s, buf[q..q + 188]);
    }
  }

  lemma {:induction false} ScanIsGuarded(cfg: Config, unit: nat, s: State, buf: seq<byte>, at: nat)
    requires 188 <= unit
    ensures Guarded(cfg, s, Scan(cfg, unit, s, buf, at).state)
    decreases |buf|
  {
    hide Scan, TurnOf, Guarded;
    ScanUnfolds(cfg, unit, s, buf, at);
    var t := TurnOf(cfg, unit, s, buf);
    TurnIsCareful(cfg, unit, s, buf);
    QuietSelf(cfg, s);
    if t.Go? {
      ScanIsGuarded(cfg, unit, t.state, buf[t.past..], at + t.past);
      GuardedTwice(cfg, s, t.state, Scan(cfg, unit, t.state, buf[t.past..], at + t.past).state);
    }
  }

  // ------------------------------------------------------ before the packet loop

  lemma ProcPatIsGuarded(cfg: Config, s: State, pat: Parser)
    requires pat.queue != []
    ensures Guarded(cfg, s, ProcPat(s, pat).0)
  {
    hide Tables.ReadPat, Tables.PatTooShort, Tables.Body, Applied, SameLocks, Guarded;
    SameDecs(s.links, s.links);
    var (pat', got) := Get(pat);
    if |got.value| >= 3 {
      AppliedIsQuiet(s.(pat := Some(pat')), PatTable(Tables.ReadPat(Tables.Body(got.value))));
    }
    QuietIsGuarded(cfg, s, ProcPat(s, pat).0);
  }

  lemma LookIsGuarded(cfg: Config, hunt: Hunt, s: State, p: Packet188)
    ensures Guarded(cfg, s, LookAt(cfg, hunt, s, p).state)
  {
    hide Guarded, Put, PmtPacket, EcmPacket, SameLocks, PidOf, Bare, PmtComplete, EcmComplete;
    SameDecs(s.links, s.links);
    QuietIsGuarded(cfg, s, s);
    match hunt
    case ForPat =>
      QuietIsGuarded(cfg, s, s.(pat := Some(Put(ParserOf(s.pat), PutOf(p)).0)));
    case ForPmt =>
      var i := ProgramOf(s, PidOf(p));
      if i.Some? {
        PhaseIsGuarded(cfg, s, i.value, 2);
        PmtIsCareful(cfg, s, i.value, PutOf(p));
        CarefulIsGuarded(cfg, s, PmtPacket(cfg, s, i.value, PutOf(p)).0);
        var s1 := PmtPacket(cfg, s, i.value, PutOf(p)).0;
        PhaseIsGuarded(cfg, s1, i.value, 1);
        GuardedTwice(cfg, s, s1, WithPhase(s1, i.value, 1));
      }
    case ForEcm =>
      var id := ReaderOf(s.links, PidOf(p));
      if id.Some? {
        DecPhaseIsGuarded(cfg, s, id.value, 2);
        EcmPacketIsGuarded(cfg, s, id.value, PutOf(p));
        var s1 := EcmPacket(cfg, s, id.value, PutOf(p)).0;
        DecPhaseIsGuarded(cfg, s1, id.value, 1);
        GuardedTwice(cfg, s, s1, WithDecPhase(s1, id.value, 1));
      }
  }

  lemma CarefulIsGuarded(cfg: Config, s: State, s': State)
    requires Careful(cfg, s, s')
    ensures Guarded(cfg, s, s')
  {
    hide Guarded, AllUnlocked, Accepted;
  }

  lemma PhaseIsGuarded(cfg: Config, s: State, i: nat, phase: nat)
    ensures Guarded(cfg, s, WithPhase(s, i, phase))
  {
    hide Guarded;
    SameDecs(s.links, s.links);
    QuietIsGuarded(cfg, s, WithPhase(s, i, phase));
  }

  lemma DecPhaseIsGuarded(cfg: Config, s: State, id: nat, phase: nat)
    ensures Guarded(cfg, s, WithDecPhase(s, id, phase))
  {
    hide Guarded;
    QuietSelf(cfg, s);
    if id in s.links.decs {
      assert s.ecmCalls + [] == s.ecmCalls;
      OneDecIsGuarded(cfg, s, WithDecPhase(s, id, phase), id, []);
    }
  }

  lemma {:induction false} SweepIsGuarded(cfg: Config, unit: nat, hunt: Hunt, s: State, buf: seq<byte>, from: nat)
    requires 188 <= unit
    ensures Guarded(cfg, s, Sweep(cfg, unit, hunt, s, buf, from).state)
    decreases |buf| - from
  {
    hide Guarded, LookAt, Cursor;
    QuietSelf(cfg, s);
    if from + unit < |buf| && Cursor(buf[from..], unit).Some? {
      var at := from + Cursor(buf[from..], unit).value;
      var look := LookAt(cfg, hunt, s, buf[at..at + 188]);
      LookIsGuarded(cfg, hunt, s, buf[at..at + 188]);
      if !look.done {
        SweepIsGuarded(cfg, unit, hunt, look.state, buf, at + unit);
        GuardedTwice(cfg, s, look.state, Sweep(cfg, unit, hunt, look.state, buf, at + unit).state);
      }
    }
  }

  lemma FindPatIsGuarded(cfg: Config, unit: nat, s: State, buf: seq<byte>, from: nat)
    requires 188 <= unit
    ensures Guarded(cfg, s, FindPat(cfg, unit, s, buf, from).state)
  {
    hide Guarded, Sweep, ProcPat;
    SweepIsGuarded(cfg, unit, ForPat, s, buf, from);
    var r := Sweep(cfg, unit, ForPat, s, buf, from);
    if r.state.pat.Some? && r.state.pat.value.queue != [] {
      ProcPatIsGuarded(cfg, r.state, r.state.pat.value);
      GuardedTwice(cfg, s, r.state, ProcPat(r.state, r.state.pat.value).0);
    }
  }

  /** The searches ask the card and use tables under the same guard as the loop. */
  lemma AdmitIsGuarded(cfg: Config, unit: nat, s: State, buf: seq<byte>, from: nat)
    requires 188 <= unit
    ensures Guarded(cfg, s, Admit(cfg, unit, s, buf, from).state)
  {
    hide Guarded, Sweep, FindPat, PmtComplete, EcmComplete;
    QuietSelf(cfg, s);
    FindPatIsGuarded(cfg, unit, s, buf, from);
    var g1 := PatGate(cfg, unit, s, buf, from);
    if g1.Through? {
      QuietSelf(cfg, g1.state);
      SweepIsGuarded(cfg, unit, ForPmt, g1.state, buf, g1.offset);
      var g2 := PmtGate(cfg, unit, g1.state, buf, g1.offset);
      GuardedTwice(cfg, s, g1.state, g2.state);
      if g2.Through? {
        QuietSelf(cfg, g2.state);
        SweepIsGuarded(cfg, unit, ForEcm, g2.state, buf, g2.offset);
        GuardedTwice(cfg, s, g2.state, EcmGate(cfg, unit, g2.state, buf, g2.offset).state);
      }
    }
  }

  lemma PutIsGuarded(cfg: Config, b: Session, data: seq<byte>, at: nat)
    ensures Guarded(cfg, b.core, PutCall(cfg, b, data, at).session.core)
  {
    hide Guarded, Scan, Admit, Found;
    QuietSelf(cfg, b.core);
    var buf := b.rest + data;
    var unit := if b.unit < 188 then Detected(buf) else Some(b.unit);
    if unit.Some? {
      AdmitIsGuarded(cfg, unit.value, b.core, buf, b.offset);
      var g := Admit(cfg, unit.value, b.core, buf, b.offset);
      if g.Through? {
        ScanIsGuarded(cfg, unit.value, g.state, buf, at);
        GuardedTwice(cfg, b.core, g.state, Scan(cfg, unit.value, g.state, buf, at).state);
      }
    }
  }

  lemma {:induction false} PutsAreGuarded(cfg: Config, r: Called, chunks: seq<seq<byte>>, at: nat)
    requires |r.session.rest| <= at
    ensures Guarded(cfg, r.session.core, Puts(cfg, r, chunks, at).session.core)
    decreases |chunks|
  {
    hide PutCall, Guarded;
    QuietSelf(cfg, r.session.core);
    if chunks != [] {
      var r1 := PutMore(cfg, r, chunks[0], at - |r.session.rest|);
      PutIsGuarded(cfg, r.session, chunks[0], at - |r.session.rest|);
      PutsAreGuarded(cfg, r1, chunks[1..], at + |chunks[0]|);
      GuardedTwice(cfg, r.session.core, r1.session.core, Puts(cfg, r1, chunks[1..], at + |chunks[0]|).session.core);
    }
  }

  lemma NewLocksHold()
    ensures LocksHold(NEW_STATE.links)
  {
  }

  /** From whatever state in which locks hold: they hold after every run of puts. */
  lemma LocksStay(cfg: Config, r: Called, chunks: seq<seq<byte>>, at: nat)
    requires |r.session.rest| <= at && LocksHold(r.session.core.links)
    ensures LocksHold(Puts(cfg, r, chunks, at).session.core.links)
  {
    hide LocksHold, Shut, Broken, Useless, Accepted, CardId, Puts;
    PutsAreGuarded(cfg, r, chunks, at);
  }

  /** In every state that puts can bring a new descrambler to, a locked decryptor
      has no cipher. */
  lemma LockedHasNoCipher(cfg: Config, chunks: seq<seq<byte>>, id: nat)
    ensures var l := Puts(cfg, Called(Session(NEW_STATE, 0, 0, []), [], 0), chunks, 0).session.core.links;
      id in l.decs && l.decs[id].locked > 0 ==> l.decs[id].m2 == None
  {
    hide Puts;
    NewLocksHold();
    LocksStay(cfg, Called(Session(NEW_STATE, 0, 0, []), [], 0), chunks, 0);
  }

  /** A decryptor that is locked, and any puts after that: either the card has
      accepted an EMM since, which was one for the card, or it has not been asked
      for that decryptor, which is still locked and without a cipher, if it is
      there at all. */
  lemma LockedUntilAnEmmIsAccepted(cfg: Config, r: Called, chunks: seq<seq<byte>>, at: nat, id: nat)
    requires |r.session.rest| <= at && LocksHold(r.session.core.links)
    requires id in r.session.core.links.decs && r.session.core.links.decs[id].locked > 0
    ensures var s, s' := r.session.core, Puts(cfg, r, chunks, at).session.core;
      && s.ecmCalls <= s'.ecmCalls && s.emmCalls <= s'.emmCalls
      && (|| (exists c | c in s'.emmCalls[|s.emmCalls|..] :: c.status >= 0 && |c.element| >= 6 && Number(c.element[..6]) in cfg.casIds)
          || ((forall c | c in s'.ecmCalls[|s.ecmCalls|..] :: c.id != id)
              && (id in s'.links.decs ==> s'.links.decs[id].locked > 0 && s'.links.decs[id].m2 == None)))
  {
    hide CardId, Number, Puts, EcmKeys.Started;
    PutsAreGuarded(cfg, r, chunks, at);
    assert Shut(r.session.core, id);
    forall c: EmmCall | |c.element| >= 6 ensures CardId(c.element) == Number(c.element[..6]) {
      CardIdIsNumber(c.element);
    }
  }

  /** A cipher that the card failed to start: whatever is put later, and whatever
      ECMs are answered, the decryptor can descramble again only after the card has
      refused it and has accepted an EMM. */
  lemma FailedStartLasts(cfg: Config, r: Called, chunks: seq<seq<byte>>, at: nat, id: nat)
    requires |r.session.rest| <= at && LocksHold(r.session.core.links)
    requires id in r.session.core.links.decs
    requires var d := r.session.core.links.decs[id]; d.m2.Some? && !EcmKeys.Started(d.m2.value)
    ensures var s, s' := r.session.core, Puts(cfg, r, chunks, at).session.core;
      && s.ecmCalls <= s'.ecmCalls && s.emmCalls <= s'.emmCalls
      && (id in s'.links.decs && EcmKeys.Ready(s'.links.decs[id]) ==>
            && EcmCall(id, true) in s'.ecmCalls[|s.ecmCalls|..]
            && exists c | c in s'.emmCalls[|s.emmCalls|..] :: c.status >= 0)
  {
    hide CardId, Puts, EcmKeys.Started, EcmKeys.Ready;
    var s, s' := r.session.core, Puts(cfg, r, chunks, at).session.core;
    PutsAreGuarded(cfg, r, chunks, at);
    assert Broken(s, id) && Useless(s, id);
    if id in s'.links.decs && EcmKeys.Ready(s'.links.decs[id]) {
      ReadyIsStarted(s'.links.decs[id]);
    }
  }

  lemma ReadyIsStarted(d: Dec)
    requires EcmKeys.Ready(d)
    ensures !IsBroken(d) && !IsShut(d)
  {
    Multi2.ReadyMeansAllKeysSet(d.m2.value, 1);
  }

  /** The packet with which the card accepts an EMM unlocks every decryptor. */
  lemma AcceptedEmmUnlocksAll(cfg: Config, s: State, p: Packet188)
    requires !Handle(cfg, s, p).Skip?
    ensures var s' := Handle(cfg, s, p).state;
      && s.emmCalls <= s'.emmCalls
      && ((exists c | c in s'.emmCalls[|s.emmCalls|..] :: c.status >= 0) ==>
            forall id | id in s'.links.decs :: s'.links.decs[id].locked == 0)
  {
    hide Handle, CardId;
    HandleIsCareful(cfg, s, p);
  }
}
