// The EMMs of a section: which of them reach the card, and what an accepted one
// does.

module Emms {
  import opened Bytes
  import opened SectionModel
  import opened PidGraph
  import opened Core
  import opened EndToEnd
  import opened Exits
  import Streams
  import Tables
  import TableTheorems

  /** An EMM as it is broadcast: 13 bytes at least, the seventh of which tells
      how many follow. */
  type Emm = e: seq<byte> | |e| >= 13 && |e| == e[6] as int + 7 witness [0, 0, 0, 0, 0, 0, 6, 0, 0, 0, 0, 0, 0]

  function Sent(es: seq<Emm>): seq<byte> {
    if es == [] then [] else es[0] + Sent(es[1..])
  }

  /** The end of a section, with no whole EMM in it. */
  predicate NoEmm(rest: seq<byte>) {
    |rest| < 13 || rest[6] as int + 7 > |rest|
  }

  /** Those for the card, in order: an EMM for every id of the card that its first
      six bytes are, most significant first. */
  function Due(es: seq<Emm>, ids: seq<int>): seq<seq<byte>> {
    if es == [] then [] else HandedTo(es[0], ids) + Due(es[1..], ids)
  }

  lemma {:induction false} HandedToMatches(e: seq<byte>, ids: seq<int>)
    requires |e| >= 6
    ensures forall x | x in HandedTo(e, ids) :: x == e
    ensures HandedTo(e, ids) != [] <==> Number(e[..6]) in ids
    decreases |ids|
  {
    hide Number;
    if ids != [] {
      HandedToMatches(e, ids[1..]);
    }
  }

  /** Each EMM with an id of the card is among them, and no other one. */
  lemma {:induction false} DueAreForTheCard(es: seq<Emm>, ids: seq<int>, e: seq<byte>)
    ensures e in Due(es, ids) <==> e in es && Number(e[..6]) in ids
    decreases |es|
  {
    hide Number, HandedTo;
    if es != [] {
      HandedToMatches(es[0], ids);
      DueAreForTheCard(es[1..], ids, e);
      if e in HandedTo(es[0], ids) {
        assert e == es[0];
      }
      if e == es[0] && Number(e[..6]) in ids {
        assert HandedTo(es[0], ids)[0] in HandedTo(es[0], ids);
      }
    }
  }

  // ------------------------------------------------------ what reaches the card

  /** The calls to the card with these EMMs, one after the other. */
  ghost predicate Calls(cfg: Config, before: seq<EmmCall>, after: seq<EmmCall>, due: seq<seq<byte>>) {
    && |before| <= |after| <= |before| + |due| && after[..|before|] == before
    && forall k | |before| <= k < |after| :: after[k] == EmmCall(due[k - |before|], cfg.emm(k, due[k - |before|]))
  }

  /** All of them, or up to the first that the card rejects. */
  ghost predicate Passed(cfg: Config, s: State, s': State, due: seq<seq<byte>>, code: int) {
    && Calls(cfg, s.emmCalls, s'.emmCalls, due)
    && s' == s.(links := s'.links, emmCalls := s'.emmCalls)
    && if code < 0
       then
         && code == -16 && |s'.emmCalls| > |s.emmCalls| && s'.emmCalls[|s'.emmCalls| - 1].status < 0
         && (forall k | |s.emmCalls| <= k < |s'.emmCalls| - 1 :: s'.emmCalls[k].status >= 0)
         && s'.links == if |s'.emmCalls| > |s.emmCalls| + 1 then Unlocked(s.links) else s.links
       else
         && code == 0 && |s'.emmCalls| == |s.emmCalls| + |due|
         && (forall k | |s.emmCalls| <= k < |s'.emmCalls| :: s'.emmCalls[k].status >= 0)
         && s'.links == if due != [] then Unlocked(s.links) else s.links
  }

  /** No decryptor is locked, and nothing else has changed. */
  function Unlocked(l: Links): Links {
    l.(decs := map id | id in l.decs :: l.decs[id].(locked := 0))
  }

  lemma UnlockedTwice(l: Links)
    ensures Unlocked(Unlocked(l)) == Unlocked(l) && UnlockAll(l) == Unlocked(l)
  {
  }

  lemma PassedNothing(cfg: Config, s: State)
    ensures Passed(cfg, s, s, [], 0)
  {
  }

  lemma PassedOne(cfg: Config, s: State, e: seq<byte>)
    ensures var n := cfg.emm(|s.emmCalls|, e);
      var s1 := s.(emmCalls := s.emmCalls + [EmmCall(e, n)]);
      if n < 0 then Passed(cfg, s, s1, [e], ERROR_EMM_PROC_FAILURE)
      else Passed(cfg, s, s1.(links := Unlocked(s.links)), [e], 0)
  {
    hide Unlocked;
  }

  /** Those of a first stretch that goes well, and then those of a second one. */
  lemma PassedBoth(cfg: Config, s: State, s1: State, s2: State, a: seq<seq<byte>>, b: seq<seq<byte>>, code: int)
    requires Passed(cfg, s, s1, a, 0) && Passed(cfg, s1, s2, b, code)
    ensures Passed(cfg, s, s2, a + b, code)
  {
    hide Unlocked;
    UnlockedTwice(s.links);
    var n, m := |s.emmCalls|, |s1.emmCalls|;
    forall k | n <= k < |s2.emmCalls| ensures s2.emmCalls[k] == EmmCall((a + b)[k - n], cfg.emm(k, (a + b)[k - n])) {
      if k < m {
        assert s2.emmCalls[..m][k] == s1.emmCalls[k];
      }
    }
    forall k | n <= k < m ensures s2.emmCalls[k].status >= 0 {
      assert s2.emmCalls[..m][k] == s1.emmCalls[k];
    }
    assert s2.emmCalls[..n] == s2.emmCalls[..m][..n];
  }

  /** What follows a rejected one does not reach the card. */
  lemma PassedPart(cfg: Config, s: State, s1: State, a: seq<seq<byte>>, b: seq<seq<byte>>, code: int)
    requires Passed(cfg, s, s1, a, code) && code < 0
    ensures Passed(cfg, s, s1, a + b, code)
  {
    hide Unlocked;
  }

  lemma {:induction false} IdsArePassed(cfg: Config, s: State, e: seq<byte>, ids: seq<int>)
    requires |e| >= 6
    ensures var (s', r) := EmmForIds(cfg, s, e, ids); Passed(cfg, s, s', HandedTo(e, ids), r)
    decreases |ids|
  {
    hide CardId, Number, Passed, UnlockAll, Unlocked;
    CardIdIsNumber(e);
    PassedNothing(cfg, s);
    if ids != [] {
      var rest := HandedTo(e, ids[1..]);
      if ids[0] != Number(e[..6]) {
        IdsArePassed(cfg, s, e, ids[1..]);
        assert [] + rest == rest;
      } else {
        var n := cfg.emm(|s.emmCalls|, e);
        var s1 := s.(emmCalls := s.emmCalls + [EmmCall(e, n)]);
        PassedOne(cfg, s, e);
        UnlockedTwice(s.links);
        if n < 0 {
          PassedPart(cfg, s, s1, [e], rest, ERROR_EMM_PROC_FAILURE);
        } else {
          var s2 := s1.(links := UnlockAll(s1.links));
          IdsArePassed(cfg, s2, e, ids[1..]);
          PassedBoth(cfg, s, s2, EmmForIds(cfg, s2, e, ids[1..]).0, [e], rest, EmmForIds(cfg, s2, e, ids[1..]).1);
        }
      }
    }
  }

  lemma Grouped(a: seq<byte>, b: seq<byte>, c: seq<byte>)
    ensures a + b + c == a + (b + c)
  {
  }

  lemma StartsWithIt(e: Emm, more: seq<byte>)
    ensures var data, len := e + more, |e|;
      |data| >= 13 && data[6] as int + 7 == len <= |data| && data[..len] == e && data[len..] == more
  {
    assert (e + more)[6] == e[6];
  }

  lemma NextEmm(es: seq<Emm>, rest: seq<byte>)
    requires es != []
    ensures var data, len := Sent(es) + rest, |es[0]|;
      && |data| >= 13 && data[6] as int + 7 == len <= |data| && data[..len] == es[0] && data[len..] == Sent(es[1..]) + rest
  {
    Grouped(es[0], Sent(es[1..]), rest);
    StartsWithIt(es[0], Sent(es[1..]) + rest);
  }

  /** Every EMM of a section for the card reaches it, whole and in order, until it
      rejects one, and nothing else does. */
  lemma {:induction false} EmmsAreTakenApart(cfg: Config, s: State, es: seq<Emm>, rest: seq<byte>)
    requires NoEmm(rest)
    ensures var (s', r) := EmmElements(cfg, s, Sent(es) + rest); Passed(cfg, s, s', Due(es, cfg.casIds), r)
    decreases |es|
  {
    hide EmmForIds, Passed, HandedTo;
    PassedNothing(cfg, s);
    if es == [] {
      assert Sent(es) + rest == rest;
    } else {
      NextEmm(es, rest);
      IdsArePassed(cfg, s, es[0], cfg.casIds);
      var (s1, r) := EmmForIds(cfg, s, es[0], cfg.casIds);
      var now, later := HandedTo(es[0], cfg.casIds), Due(es[1..], cfg.casIds);
      if r < 0 {
        PassedPart(cfg, s, s1, now, later, r);
      } else {
        CodeIsZero(cfg, s, s1, now, r);
        EmmsAreTakenApart(cfg, s1, es[1..], rest);
        var (s2, r2) := EmmElements(cfg, s1, Sent(es[1..]) + rest);
        PassedBoth(cfg, s, s1, s2, now, later, r2);
      }
    }
  }

  lemma CodeIsZero(cfg: Config, s: State, s': State, due: seq<seq<byte>>, code: int)
    requires Passed(cfg, s, s', due, code) && code >= 0
    ensures code == 0
  {
    hide Unlocked, Calls;
  }

  // ---------------------------------------------------------- from the packet on

  /** A section of EMMs: header, EMMs, perhaps something short, CRC. */
  ghost predicate EmmBytes(x: seq<byte>, es: seq<Emm>, rest: seq<byte>) {
    && |x| >= 12 && x[0] == 0x84 && x[1] as int >= 128 && x[8..|x| - 4] == Sent(es) + rest && NoEmm(rest)
  }

  lemma OneSection(cfg: Config, s: State, emm: Parser, x: seq<byte>, es: seq<Emm>, rest: seq<byte>)
    requires emm.queue == [x] && EmmBytes(x, es, rest)
    ensures var (s', emm', r) := ProcEmm(cfg, s, emm);
      Passed(cfg, s, s', Due(es, cfg.casIds), r) && emm' == emm.(queue := [])
  {
    hide Tables.Body, EmmElements, Passed, Sent, NoEmm, Due;
    TableTheorems.BodyIsInside(x);
    EmmsAreTakenApart(cfg, s, es, rest);
    var (s1, r) := EmmElements(cfg, s, Tables.Body(x));
    assert [x][1..] == [];
    if r >= 0 {
      CodeIsZero(cfg, s, s1, Due(es, cfg.casIds), r);
      NoneLeft(cfg, s1, emm.(queue := []));
    }
  }

  lemma NoneLeft(cfg: Config, s: State, emm: Parser)
    requires emm.queue == []
    ensures ProcEmm(cfg, s, emm) == (s, emm, 0)
  {
  }

  /** A section of EMMs in one packet of their PID: each EMM whose first six bytes are
      an id of the card is passed to it, and no other one. As soon as the card has
      accepted one no decryptor is locked. */
  lemma EmmsReachTheCard(cfg: Config, s: State, q: Packet188, x: seq<byte>, es: seq<Emm>, rest: seq<byte>)
    returns (taken: Parser, s': State, r: int)
    requires Carries(q, x) && !Streams.Stripped(cfg, q) && EmmBytes(x, es, rest)
    requires s.links.pm[PidOf(q)].kind == Emm && cfg.emmOn && cfg.hasCard && Waiting(ParserOf(s.emm), PidOf(q), x)
    ensures Settled(taken, PidOf(q), x)
    ensures Passed(cfg, Counted(s, PidOf(q), 1, 0).(emm := Some(taken)), s', Due(es, cfg.casIds), r)
    ensures Handle(cfg, s, q) == if r < 0 then Stop(s', Some(q), q, r) else Next(s', Some(q), Some(0))
    ensures (exists k | |s.emmCalls| <= k < |s'.emmCalls| :: s'.emmCalls[k].status >= 0) ==>
              forall id | id in s'.links.decs :: s'.links.decs[id].locked == 0
  {
    hide Put, BrokenPacket, PayloadAt, Transport, Scrambling, UnitStart, Alone, PidOf, Counted, EmmBytes, Passed, ProcEmm, Due,
      Streams.Stripped;
    ClearIsDispatched(cfg, s, q);
    SamePutPid(s, q);
    var pid := PidOf(q);
    var s1 := Counted(s, pid, 1, 0);
    OneSectionIsTaken(ParserOf(s.emm), pid, q[PayloadAt(q)..], x);
    var p := Put(ParserOf(s.emm), PutOf(q)).0;
    taken := p.(queue := []);
    OneSection(cfg, s1.(emm := Some(p)), p, x, es, rest);
    var (s2, p2, code) := ProcEmm(cfg, s1.(emm := Some(p)), p);
    r, s' := code, s2.(emm := Some(taken));
    ParserAside(cfg, s1, s2, p, taken, Due(es, cfg.casIds), r);
    if r >= 0 {
      CodeIsZero(cfg, s1.(emm := Some(p)), s2, Due(es, cfg.casIds), r);
    }
    AcceptedUnlocks(cfg, s1.(emm := Some(taken)), s', Due(es, cfg.casIds), r);
  }

  lemma ParserAside(cfg: Config, s: State, s': State, p: Parser, emm: Parser, due: seq<seq<byte>>, code: int)
    requires Passed(cfg, s.(emm := Some(p)), s', due, code)
    ensures Passed(cfg, s.(emm := Some(emm)), s'.(emm := Some(emm)), due, code)
  {
    hide Unlocked, Calls;
  }

  lemma AcceptedUnlocks(cfg: Config, s: State, s': State, due: seq<seq<byte>>, code: int)
    requires Passed(cfg, s, s', due, code)
    ensures (exists k | |s.emmCalls| <= k < |s'.emmCalls| :: s'.emmCalls[k].status >= 0) ==>
              forall id | id in s'.links.decs :: s'.links.decs[id].locked == 0
  {
  }

  /** Without a card the loop is left. */
  lemma NoCardForEmms(cfg: Config, s: State, q: Packet188, x: seq<byte>) returns (s': State)
    requires Carries(q, x) && !Streams.Stripped(cfg, q) && cfg.emmOn && !cfg.hasCard
    requires s.links.pm[PidOf(q)].kind == Emm && Waiting(ParserOf(s.emm), PidOf(q), x)
    ensures Handle(cfg, s, q) == Stop(s', Some(q), q, -7) && s'.emmCalls == s.emmCalls && s'.links.decs == s.links.decs
  {
    hide Put, BrokenPacket, PayloadAt, Transport, Scrambling, UnitStart, Alone, PidOf, Counted, ProcEmm, Streams.Stripped;
    ClearIsDispatched(cfg, s, q);
    SamePutPid(s, q);
    OneSectionIsTaken(ParserOf(s.emm), PidOf(q), q[PayloadAt(q)..], x);
    s' := Counted(s, PidOf(q), 1, 0).(emm := Some(Put(ParserOf(s.emm), PutOf(q)).0));
  }

  /** With EMM processing switched off, for a message of table 0x85, or for another
      table, nothing reaches the card. */
  lemma NothingReachesTheCard(cfg: Config, s: State, q: Packet188, x: seq<byte>) returns (taken: Option<Parser>)
    requires Carries(q, x) && !Streams.Stripped(cfg, q) && |x| >= 3
    requires s.links.pm[PidOf(q)].kind == Emm && Waiting(ParserOf(s.emm), PidOf(q), x)
    requires !cfg.emmOn || (cfg.hasCard && x[0] != 0x84)
    ensures Handle(cfg, s, q)
         == Next(Counted(s, PidOf(q), 1, 0).(emm := taken), Some(q), if !cfg.emmOn then None else Some(if x[0] == 0x85 then 0 else 2))
  {
    hide Put, BrokenPacket, PayloadAt, Transport, Scrambling, UnitStart, Alone, PidOf, Counted, EmmElements, Tables.Body,
      Streams.Stripped;
    ClearIsDispatched(cfg, s, q);
    SamePutPid(s, q);
    OneSectionIsTaken(ParserOf(s.emm), PidOf(q), q[PayloadAt(q)..], x);
    var p := Put(ParserOf(s.emm), PutOf(q)).0;
    taken := if cfg.emmOn then Some(p.(queue := [])) else s.emm;
    assert [x][1..] == [];
    NoneLeft(cfg, Counted(s, PidOf(q), 1, 0).(emm := Some(p)), p.(queue := []));
  }
}
