// Two ways in which a smart card ends a programme: it fails on an ECM after it
// has opened the stream, or it answers the first ECM and then fails to start.

module Failures {
  import opened Bytes
  import opened SectionModel
  import opened PidGraph
  import opened PidInvariant
  import opened Core
  import opened Framing
  import opened EcmEntries
  import opened FirstPmt
  import opened EndToEnd
  import opened Search
  import opened Broadcasts
  import opened Programmes
  import Chunking
  import EcmKeys
  import Exits
  import GraphRuns
  import Locks
  import Multi2
  import Streams
  import Tables
  import WorkBuffers

  // ------------------------------------------------------- an ECM that fails

  /** A further ECM of the program, on which the card fails. */
  predicate FailsOn(cfg: Config, o: Programme, x: seq<byte>) {
    && |x| >= 3 && x != o.ecmSection && x[0] == 0x82 && cfg.hasCard
    && (Tables.Body(x) == [] || cfg.ecm(1, Tables.Body(x)).status < 0)
  }

  /** As after the card was asked, but that it failed on x later. */
  ghost predicate KeyLost(cfg: Config, roles: Roles, o: Programme, s: State, id: nat, p: nat, q: nat, x: seq<byte>)
    requires |o.ecmSection| >= 3
  {
    && TablesKnown(cfg, roles, o, s, id) && PmtPhase(o, s, p) && EcmPhase(cfg, o, s.links, id, q)
    && Settled(s.links.decs[id].ecm, MajorOf(cfg, o), x)
    && s.links.decs[id].m2 == Some(KeysFor(cfg, o).WithoutScrambleKey())
  }

  lemma CardFails(cfg: Config, s: State, id: nat, x: seq<byte>)
    requires id in s.links.decs && |x| >= 3 && x[0] == 0x82 && s.links.decs[id].locked == 0 && |s.ecmCalls| == 1
    requires Tables.Body(x) == [] || cfg.ecm(1, Tables.Body(x)).status < 0
    requires s.links.decs[id].m2.Some?
    ensures var (s', r) := EcmSection(cfg, s, id, x);
      && r == ERROR_ECM_PROC_FAILURE
      && s' == WithDec(s, id, s.links.decs[id].(m2 := Some(s.links.decs[id].m2.value.WithoutScrambleKey()))).(ecmCalls := s'.ecmCalls)
  {
    hide Tables.Body;
  }

  /** The packet with the ECM: it is appended, and the loop is left. */
  lemma FailedEcmLeaves(cfg: Config, roles: Roles, o: Programme, s: State, id: nat, p: nat, q: nat, e: Sent, x: seq<byte>)
    returns (s2: State)
    requires |o.ecmSection| >= 3 && InEcms(cfg, roles, o, s, id, p, q, true) && FailsOn(cfg, o, x)
    requires Conveys(cfg, e, x) && PidOf(e.clear) == MajorOf(cfg, o)
    ensures Handle(cfg, s, e.clear) == Stop(s2, Some(e.clear), e.clear, ERROR_ECM_PROC_FAILURE)
    ensures KeyLost(cfg, roles, o, s2, id, p, q, x)
  {
    hide Carries, PidOf, Handle, MajorOf, StreamsOf, Counted, KeysFor, EcmPhase, TablesKnown, PmtPhase, Streams.Stripped,
      EcmSection, Tables.Body, Transport, Scrambling, BrokenPacket;
    EntriesAre(cfg, roles, o, s, id);
    var pid := PidOf(e.clear);
    CountedStays(cfg, roles, o, s, id, p, q, true, pid, 1, 0);
    CarriesClear(e.clear, x);
    ClearIsDispatched(cfg, s, e.clear);
    SamePutPid(s, e.clear);
    var s1 := Counted(s, pid, 1, 0);
    SettledWaits(s1.links.decs[id].ecm, pid, o.ecmSection, x);
    var ecm := EcmIsTaken(cfg, s1, e.clear, x, id);
    ReaderOnly(cfg, s1, e.clear, id);
    var d := s1.links.decs[id].(ecm := ecm);
    EcmPhaseOf(cfg, o, s1.links, id, q);
    DecChanges(cfg, roles, o, s1, id, d, s1.ecmCalls, p, q);
    var s0 := WithDec(s1, id, d);
    assert s0.(ecmCalls := s1.ecmCalls) == s0;
    CardFails(cfg, s0, id, x);
    s2 := EcmSection(cfg, s0, id, x).0;
    DecChanges(cfg, roles, o, s0, id, s2.links.decs[id], s2.ecmCalls, p, q);
  }

  lemma CarriesClear(c: Packet188, x: seq<byte>)
    requires Carries(c, x)
    ensures Transport(c) == 0 && Scrambling(c) == 0 && !BrokenPacket(c)
  {
    hide Transport, UnitStart, Scrambling, BrokenPacket, PayloadAt, Alone;
  }

  lemma SettledWaits(p: Parser, pid: Pid, x: seq<byte>, x': seq<byte>)
    requires Settled(p, pid, x) && x' != x
    ensures Waiting(p, pid, x')
  {
  }

  lemma ReaderOnly(cfg: Config, s: State, c: Packet188, id: nat)
    requires s.links.pm[PidOf(c)].kind == Ecm && s.links.pm[PidOf(c)].target == Decryptor(id) && id in s.links.decs
    ensures var (s1, r) := EcmPacket(cfg, s, id, PutOf(c)); Dispatch(cfg, s, c) == (s1, r, false)
  {
    hide EcmPacket, PidOf, PutOf;
  }

  /** The same packet again, which is still in hand: it is appended once more. */
  lemma FailedEcmAgain(cfg: Config, roles: Roles, o: Programme, s: State, id: nat, p: nat, q: nat, e: Sent, x: seq<byte>)
    returns (s2: State)
    requires |o.ecmSection| >= 3 && KeyLost(cfg, roles, o, s, id, p, q, x)
    requires Conveys(cfg, e, x) && PidOf(e.clear) == MajorOf(cfg, o)
    ensures Handle(cfg, s, e.clear) == Next(s2, Some(e.clear), None) && KeyLost(cfg, roles, o, s2, id, p, q, x)
  {
    hide Carries, PidOf, Handle, Settled, MajorOf, StreamsOf, Counted, KeysFor, EcmPhase, TablesKnown, PmtPhase,
      Streams.Stripped;
    EntriesAre(cfg, roles, o, s, id);
    CountedIsLost(cfg, roles, o, s, id, p, q, x, PidOf(e.clear));
    var ecm := EcmIsRepeated(cfg, s, e.clear, x, id);
    var s1 := Counted(s, PidOf(e.clear), 1, 0);
    EcmPhaseOf(cfg, o, s1.links, id, q);
    var d := s1.links.decs[id].(ecm := ecm);
    s2 := WithDec(s1, id, d);
    DecChanges(cfg, roles, o, s1, id, d, s1.ecmCalls, p, q);
    assert s2.(ecmCalls := s1.ecmCalls) == s2;
  }

  lemma CountedIsLost(cfg: Config, roles: Roles, o: Programme, s: State, id: nat, p: nat, q: nat, x: seq<byte>, pid: Pid)
    requires |o.ecmSection| >= 3 && KeyLost(cfg, roles, o, s, id, p, q, x)
    ensures KeyLost(cfg, roles, o, Counted(s, pid, 1, 0), id, p, q, x)
  {
    hide Settled, Shares, MajorOf, StreamsOf, GraphRuns.AllFit, OtherEcm, KeysFor, Counted;
    CountedWays(s, pid, 1, 0);
    CountedOnlyLinks(s, pid, 1, 0);
  }

  /** Then a scrambled packet of the programme stops the loop for good. */
  lemma LostKeySticks(cfg: Config, roles: Roles, unit: nat, o: Programme, s: State, id: nat, p: nat, q: nat, x: seq<byte>,
      y: Sent, buf: seq<byte>, at: nat)
    requires 188 <= unit < |buf| && buf[..188] == OnAir(y) && buf[0] == SYNC && buf[unit] == SYNC
    requires |o.ecmSection| >= 3 && KeyLost(cfg, roles, o, s, id, p, q, x)
    requires StreamPacket(cfg, roles, o, y) && y.selector > 0
    ensures Scan(cfg, unit, s, buf, at) == Scanned(s, [], buf, Some(ERROR_DECRYPT_FAILURE), Some(ERROR_DECRYPT_FAILURE))
  {
    hide PidOf, Settled, MajorOf, StreamsOf, KeysFor, EcmPhase, Shares, PmtPhase, Streams.Stripped, Scrambling, BrokenPacket,
      Transport, HasPayload, LeadsTo, PayloadAt, Multi2.Keys.Check, Streams.Scrambled, GraphRuns.AllFit, Scan;
    var c := y.clear;
    Streams.ScrambledHeader(y.keys, y.selector, c);
    Streams.SoundPacket(c);
    EcmKeys.ClearedIsNotReady(KeysFor(cfg, o), PACKET - PayloadAt(c));
    StrippedAlike(cfg, c, OnAir(y));
    Exits.StuckScan(cfg, unit, s, buf, at);
  }

  lemma StrippedAlike(cfg: Config, c: Packet188, p: Packet188)
    requires PidOf(p) == PidOf(c) && Transport(p) == Transport(c)
    ensures Streams.Stripped(cfg, p) == Streams.Stripped(cfg, c)
  {
    hide PidOf, Transport;
  }

  lemma LostIsAdmitted(cfg: Config, roles: Roles, o: Programme, s: State, s': State, id: nat, p: nat, q: nat)
    requires PmtPhase(o, s, p) && EcmPhase(cfg, o, s.links, id, q) && PmtPhase(o, s', p) && EcmPhase(cfg, o, s'.links, id, q)
    ensures Admitted(s') == Admitted(s)
  {
    hide EcmPhase, EcmComplete, PmtComplete, OtherEcm, MajorOf, StreamsOf, NewPrograms;
    EcmPhaseComplete(cfg, o, s.links, id, q);
    EcmPhaseComplete(cfg, o, s'.links, id, q);
    PmtPhaseComplete(o, s, p);
    PmtPhaseComplete(o, s', p);
  }

  /** A programme that is opened, and another ECM, on which the card fails; a
      scrambled packet of the programme follows. The put is left with the error of
      the ECM, behind its packet, which stays in hand; the next put appends it
      again and is left with a decryption error at the packet that follows; and
      after that nothing comes out and nothing is consumed, whatever is put. */
  lemma FailedEcmEndsTheProgramme(cfg: Config, roles: Roles, o: Programme, b: Session, id: nat, e: Sent, x: seq<byte>, y: Sent,
      ys: seq<Sent>, tail: seq<byte>, data: seq<byte>, more: seq<byte>, at: nat, chunks: seq<seq<byte>>)
    requires 188 <= b.unit && |o.ecmSection| >= 3 && WithDecryptor(cfg, roles, o, b.core, id, true) && Admitted(b.core)
    requires FailsOn(cfg, o, x) && Conveys(cfg, e, x) && PidOf(e.clear) == MajorOf(cfg, o)
    requires StreamPacket(cfg, roles, o, y) && y.selector > 0
    requires Holds(b.rest + data, b.unit, [e, y] + ys, tail)
    ensures var buf, twice := b.rest + data, [Emitted(at, e.clear), Emitted(at, e.clear)];
      var r1 := PutCall(cfg, b, data, at);
      var r2 := PutMore(cfg, r1, more, at);
      && r1.out == [Emitted(at, e.clear)] && r1.code == -9 && r1.session.rest == buf
      && r2.out == twice && r2.code == -10 && r2.session.rest == (buf + more)[b.unit..]
      && |r2.session.rest| <= at + |buf| + |more| && Admitted(r2.session.core)
      && Puts(cfg, r2, chunks, at + |buf| + |more|)
         == r2.(session := r2.session.(rest := r2.session.rest + WorkBuffers.Flatten(chunks)))
  {
    hide Scan, TurnOf, Handle, Holds, OnAir, InEcms, Conveys, PidOf, Admitted, Puts, FailsOn, StreamPacket, TablesKnown, PmtPhase,
      EcmPhase, KeysFor, Settled, Admit;
    var s, unit, buf := b.core, b.unit, b.rest + data;
    var p: nat, q: nat :| InEcms(cfg, roles, o, s, id, p, q, true);
    TwoFirst(cfg, buf, unit, e, x, y, ys, tail);
    var s1 := FailedEcmLeaves(cfg, roles, o, s, id, p, q, e, x);
    PhasesThere(cfg, roles, o, s, id, p, q, true);
    LostIsAdmitted(cfg, roles, o, s, s1, id, p, q);
    Chunking.AdmitPasses(cfg, unit, s, buf, b.offset);
    HeldTurn(cfg, unit, s, buf, e.clear);
    ScanUnfolds(cfg, unit, s, buf, at);
    assert e.clear + buf[188..] == buf;
    var r1 := PutCall(cfg, b, data, at);
    assert r1.session == Session(s1, unit, b.offset, buf);
    SecondPut(cfg, roles, unit, o, s1, id, p, q, e, x, y, buf, more, at, b.offset);
    assert [Emitted(at, e.clear)] + [Emitted(at, e.clear)] == [Emitted(at, e.clear), Emitted(at, e.clear)];
    Exits.NothingComesAfterwards(cfg, r1, more, at + |buf|, chunks);
  }

  lemma PhasesThere(cfg: Config, roles: Roles, o: Programme, s: State, id: nat, p: nat, q: nat, open: bool)
    requires |o.ecmSection| >= 3 && InEcms(cfg, roles, o, s, id, p, q, open)
    ensures PmtPhase(o, s, p) && EcmPhase(cfg, o, s.links, id, q)
  {
    hide PmtPhase, EcmPhase, TablesKnown;
  }

  lemma TwoFirst(cfg: Config, buf: seq<byte>, unit: nat, e: Sent, x: seq<byte>, y: Sent, ys: seq<Sent>, tail: seq<byte>)
    requires 188 <= unit && Holds(buf, unit, [e, y] + ys, tail) && Conveys(cfg, e, x)
    ensures |buf| > 2 * unit && buf[..188] == e.clear && buf[0] == SYNC && buf[unit] == SYNC && buf[2 * unit] == SYNC
    ensures buf[unit..][..188] == OnAir(y)
  {
    hide Carries, Streams.Stripped, Streams.Scrambled;
    var rest := buf[unit..];
    assert ([e, y] + ys)[1..] == [y] + ys && ([y] + ys)[1..] == ys;
    HoldsOn(rest, unit, [y] + ys, tail);
    HoldsOn(rest[unit..], unit, ys, tail);
    assert rest[0] == buf[unit] && rest[unit..][0] == buf[2 * unit];
  }

  lemma MoreBehind(buf: seq<byte>, more: seq<byte>, unit: nat)
    requires 188 <= unit && |buf| > 2 * unit
    ensures var all := buf + more;
      && all[..188] == buf[..188] && all[0] == buf[0] && all[unit] == buf[unit]
      && all[unit..][..188] == buf[unit..][..188] && all[unit..][0] == buf[unit] && all[unit..][unit] == buf[2 * unit]
  {
  }

  lemma SecondPut(cfg: Config, roles: Roles, unit: nat, o: Programme, s: State, id: nat, p: nat, q: nat, e: Sent, x: seq<byte>,
      y: Sent, buf: seq<byte>, more: seq<byte>, at: nat, offset: nat)
    requires 188 <= unit && |o.ecmSection| >= 3 && KeyLost(cfg, roles, o, s, id, p, q, x) && Admitted(s)
    requires Conveys(cfg, e, x) && PidOf(e.clear) == MajorOf(cfg, o) && StreamPacket(cfg, roles, o, y) && y.selector > 0
    requires |buf| > 2 * unit && buf[..188] == e.clear && buf[0] == SYNC && buf[unit] == SYNC && buf[2 * unit] == SYNC
    requires buf[unit..][..188] == OnAir(y)
    ensures var r := PutCall(cfg, Session(s, unit, offset, buf), more, at);
      && r.out == [Emitted(at, e.clear)] && r.code == ERROR_DECRYPT_FAILURE && r.session.rest == (buf + more)[unit..]
      && Admitted(r.session.core)
  {
    hide Scan, TurnOf, Handle, OnAir, Conveys, PidOf, Admitted, StreamPacket, TablesKnown, PmtPhase, EcmPhase, KeysFor, Settled,
      Admit;
    var all := buf + more;
    MoreBehind(buf, more, unit);
    Chunking.AdmitPasses(cfg, unit, s, all, offset);
    var s2 := FailedEcmAgain(cfg, roles, o, s, id, p, q, e, x);
    LostIsAdmitted(cfg, roles, o, s, s2, id, p, q);
    HeldTurn(cfg, unit, s, all, e.clear);
    ScanUnfolds(cfg, unit, s, all, at);
    LostKeySticks(cfg, roles, unit, o, s2, id, p, q, x, y, all[unit..], at + unit);
  }

  // ------------------------------------------------------ a start that fails

  /** The card answers the first ECM, and fails to start. */
  predicate FailsToStart(cfg: Config, x: seq<byte>) {
    && |x| >= 3 && cfg.hasCard && x[0] == 0x82 && Tables.Body(x) != []
    && cfg.ecm(0, Tables.Body(x)).status >= 0 && Purchased(cfg.ecm(0, Tables.Body(x)).returnCode) && cfg.init(1).status < 0
  }

  predicate HasBroken(s: State, id: nat) {
    id in s.links.decs && s.links.decs[id].m2.Some? && !EcmKeys.Started(s.links.decs[id].m2.value)
  }

  lemma CardDoesNotStart(cfg: Config, s: State, id: nat, x: seq<byte>)
    requires FailsToStart(cfg, x) && s.ecmCalls == []
    requires id in s.links.decs && s.links.decs[id].locked == 0 && s.links.decs[id].m2 == None
    ensures var (s', r) := EcmSection(cfg, s, id, x); r == ERROR_INVALID_B_CAS_STATUS && HasBroken(s', id)
  {
    hide Tables.Body, Multi2.Schedule, Multi2.LoadBlock, Multi2.LoadKey, Multi2.Keys.WithSystemKey, Multi2.Keys.WithScrambleKey;
  }

  /** The first ECM ends the search with the error. */
  lemma EcmDoesNotStart(cfg: Config, roles: Roles, o: Programme, s: State, id: nat, x: Sent, p: nat) returns (s3: State)
    requires FailsToStart(cfg, o.ecmSection) && InTables(cfg, roles, o, s, id, p)
    requires OfProgramme(cfg, roles, o, x) && PartOf(cfg, o, x) == EcmPart
    ensures LookForEcm(cfg, s, OnAir(x)) == Look(s3, true, ERROR_INVALID_B_CAS_STATUS) && HasBroken(s3, id)
  {
    hide TablesKnown, PmtPhase, EcmPhase, Settled, MajorOf, StreamsOf, PidOf, OnAir, Carries, Streams.Stripped, Bare, EcmPacket,
      EcmSection, EcmComplete, Tables.Body, HasBroken;
    ReaderIsThere(cfg, roles, o, s, id, x);
    NewWaits(MajorOf(cfg, o), o.ecmSection);
    EcmPhaseOf(cfg, o, s.links, id, 0);
    var ecm := EcmIsTaken(cfg, s, x.clear, o.ecmSection, id);
    var s1 := WithDec(s, id, s.links.decs[id].(ecm := ecm));
    CardDoesNotStart(cfg, s1, id, o.ecmSection);
    s3 := EcmSection(cfg, s1, id, o.ecmSection).0;
  }

  lemma {:induction false} SearchDoesNotStart(cfg: Config, roles: Roles, unit: nat, o: Programme, s: State, id: nat, p: nat,
      buf: seq<byte>, from: nat, xs: seq<Sent>, tail: seq<byte>)
    requires 188 <= unit && FailsToStart(cfg, o.ecmSection) && InTables(cfg, roles, o, s, id, p) && AllOf(cfg, roles, o, xs)
    requires from <= |buf| && Holds(buf[from..], unit, xs, tail) && Times(cfg, o, xs, EcmPart) > 0
    ensures var r := Sweep(cfg, unit, ForEcm, s, buf, from);
      r.done && r.code == ERROR_INVALID_B_CAS_STATUS && HasBroken(r.state, id)
    decreases |xs|
  {
    hide AllOf, Holds, Sweep, InTables, LookForEcm, OnAir, OfProgramme, PartOf, FailsToStart, HasBroken;
    if xs == [] {
      return;
    }
    SweepNext(cfg, unit, ForEcm, s, buf, from, xs, tail);
    FirstAndRest(cfg, roles, o, xs, EcmPart);
    if PartOf(cfg, o, xs[0]) == EcmPart {
      var s3 := EcmDoesNotStart(cfg, roles, o, s, id, xs[0], p);
    } else {
      InTablesKnown(cfg, roles, o, s, id, p);
      NoEcm(cfg, roles, o, s, id, xs[0]);
      SearchDoesNotStart(cfg, roles, unit, o, s, id, p, buf, from + unit, xs[1..], tail);
    }
  }

  /** A new descrambler, and a card that answers the first ECM of a programme but
      fails to start: the put that brings them is left with the error of the card,
      nothing comes out, and the decryptor has a cipher that was never started. It
      lasts: whatever is put afterwards, the decryptor has no keys until the card
      has refused it and has accepted an EMM. */
  lemma FailedStartIsReached(cfg: Config, roles: Roles, unit: nat, o: Programme, data: seq<byte>, xs: seq<Sent>,
      tail: seq<byte>, chunks: seq<seq<byte>>) returns (id: nat)
    requires 188 <= unit && Detected(data) == Some(unit) && Holds(data, unit, xs, tail)
    requires Coherent(cfg, roles, o) && FailsToStart(cfg, o.ecmSection)
    requires AllOf(cfg, roles, o, xs) && Reaches(cfg, o, xs)
    ensures var r := PutMore(cfg, Called(Session(NEW_STATE, 0, 0, []), [], 0), data, 0);
      && r.out == [] && r.code == -8 && r.session.rest == data && HasBroken(r.session.core, id)
      && Locks.LocksHold(r.session.core.links)
      && var s, s' := r.session.core, Puts(cfg, r, chunks, |data|).session.core;
         && s.ecmCalls <= s'.ecmCalls && s.emmCalls <= s'.emmCalls
         && (id in s'.links.decs && EcmKeys.Ready(s'.links.decs[id]) ==>
               && EcmCall(id, true) in s'.ecmCalls[|s.ecmCalls|..]
               && exists c | c in s'.emmCalls[|s.emmCalls|..] :: c.status >= 0)
  {
    hide Coherent, AllOf, Holds, Sweep, PatKnown, InTables, ProcPat, PmtComplete, EcmComplete, Times, NewPrograms, FailsToStart,
      Detected, Scan, HasBroken, Puts, Locks.LocksHold, EcmKeys.Ready;
    var r0 := Called(Session(NEW_STATE, 0, 0, []), [], 0);
    assert [] + data == data && data[0..] == data;
    NoProgramYet();
    var s1 := PatSearch(cfg, roles, unit, o, data, 0, xs, tail);
    NoPmtYetSeen(cfg, roles, o, s1);
    var s2, d, p := PmtSearch(cfg, roles, unit, o, s1, data, 0, xs, tail);
    id := d;
    NoEcmYetSeen(cfg, roles, o, s2, id, p);
    SearchDoesNotStart(cfg, roles, unit, o, s2, id, p, data, 0, xs, tail);
    NewPutHoldsLocks(cfg, data);
    var r := PutMore(cfg, r0, data, 0);
    BrokenAt(r.session.core, id);
    Locks.FailedStartLasts(cfg, r, chunks, |data|, id);
  }

  lemma BrokenAt(s: State, id: nat)
    requires HasBroken(s, id)
    ensures id in s.links.decs && s.links.decs[id].m2.Some? && !EcmKeys.Started(s.links.decs[id].m2.value)
  {
  }

  lemma NewPutHoldsLocks(cfg: Config, data: seq<byte>)
    ensures Locks.LocksHold(PutMore(cfg, Called(Session(NEW_STATE, 0, 0, []), [], 0), data, 0).session.core.links)
  {
    hide PutCall, Locks.LocksHold;
    var r0 := Called(Session(NEW_STATE, 0, 0, []), [], 0);
    Locks.NewLocksHold();
    Locks.LocksStay(cfg, r0, [data], 0);
    assert [data][1..] == [];
  }
}
