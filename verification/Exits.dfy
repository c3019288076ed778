// The ways out of the packet loop before the end of the input: what makes the
// loop leave, which packet is in the output twice afterwards, and when nothing
// comes out ever again.

module Exits {
  import opened Bytes
  import opened SectionModel
  import opened PidGraph
  import opened PidInvariant
  import opened Core
  import opened Framing
  import opened Streams
  import opened Search
  import Chunking
  import EcmKeys
  import Multi2
  import Tables
  import WorkBuffers

  // ------------------------------------------- the packet at an exit comes again

  /** A scrambled packet of this PID is let through as it is. */
  predicate Blind(l: Links, pid: Pid) {
    Chosen(l, pid).None? || l.decs[Chosen(l, pid).value].m2.None?
  }

  lemma BlindStays(l: Links, l': Links, pid: Pid)
    requires Blind(l, pid) && (l' == l || l'.pm[pid].kind !in {Other, Unknown})
    ensures Blind(l', pid)
  {
  }

  lemma PmtExit(cfg: Config, s: State, i: nat, put: Packet)
    requires i < |s.programs| && Bad(PmtPacket(cfg, s, i, put).1)
    ensures PmtPacket(cfg, s, i, put).0.links == s.links
  {
    hide Put, Tables.ReadPmt, Applied;
  }

  lemma CatExit(cfg: Config, s: State, put: Packet)
    requires Bad(CatPacket(cfg, s, put).1)
    ensures CatPacket(cfg, s, put).0.links == s.links
  {
    hide Put, Tables.FindCa, Applied, Tables.Body;
  }

  lemma PatExit(s: State, put: Packet)
    ensures var (s', r, leave) := PatPacket(s, put);
      Bad(r) || leave ==> s'.links == s.links || s'.links.pm[0].kind == Pat
  {
    hide Put, Tables.ReadPat, Tables.PatTooShort, Tables.Body, ReleasePrograms, NewPrograms, PmtEntries;
  }

  /** What a packet leaves behind when it leaves the loop does not open its own
      PID. */
  lemma ExitStaysBlind(cfg: Config, s: State, q: Packet188)
    requires Bad(Dispatch(cfg, s, q).1) || Dispatch(cfg, s, q).2
    requires Blind(s.links, PidOf(q))
    ensures Blind(Dispatch(cfg, s, q).0.links, PidOf(q))
  {
    hide Put, EcmPacket, PmtPacket, CatPacket, PatPacket, ProcEmm, Blind, PidOf, PayloadAt;
    var pid, e := PidOf(q), s.links.pm[PidOf(q)];
    var put := PutOf(q);
    if e.kind == Ecm {
      if e.target.Decryptor? && e.target.id in s.links.decs {
        EcmTallies(cfg, s, e.target.id, put);
      }
    } else if e.kind == Pmt {
      if e.target.ProgramAt? && e.target.index < |s.programs| {
        PmtExit(cfg, s, e.target.index, put);
      }
    } else if e.kind == Emm {
      var emm := Put(ParserOf(s.emm), put).0;
      ProcEmmTallies(cfg, s.(emm := Some(emm)), emm);
    } else if pid == 1 {
      CatExit(cfg, s, put);
    } else if pid == 0 {
      PatExit(s, put);
    }
    BlindStays(s.links, Dispatch(cfg, s, q).0.links, pid);
  }

  /** A packet that is not marked, or whose PID is blind, passes unchanged. */
  lemma PassesUnchanged(s: State, q: Packet188)
    requires StillScrambled(q) ==> Blind(s.links, PidOf(q))
    ensures Descramble(s, q).1 == q && Descramble(s, q).2 == 0
  {
    hide PayloadAt, Multi2.CbcDecrypt;
  }

  lemma DescrambledOrBlind(s: State, p: Packet188)
    requires !BrokenPacket(p) && Descramble(s, p).2 >= 0
    ensures var (s', q, _) := Descramble(s, p); StillScrambled(q) ==> Blind(s'.links, PidOf(q))
  {
    hide PayloadAt, Multi2.CbcDecrypt, BrokenPacket, HasAdaptation;
    DescrambleKeepsHead(s, p);
    SameHeadSameFields(p, Descramble(s, p).1);
    SoundPacket(p);
    if Chosen(s.links, PidOf(p)).Some? && s.links.decs[Chosen(s.links, PidOf(p)).value].m2.Some? {
      DecryptedIsClear(s, p);
    }
  }

  lemma DecryptedIsClear(s: State, p: Packet188)
    requires !BrokenPacket(p) && Descramble(s, p).2 >= 0
    requires Chosen(s.links, PidOf(p)).Some? && s.links.decs[Chosen(s.links, PidOf(p)).value].m2.Some?
    ensures !StillScrambled(Descramble(s, p).1)
  {
    hide PayloadAt, Multi2.CbcDecrypt, BrokenPacket, HasAdaptation, Unmarked;
    SoundPacket(p);
    if Scrambling(p) != 0 && HasPayload(p) {
      var k := s.links.decs[Chosen(s.links, PidOf(p)).value].m2.value;
      DecryptedHead(p, k.Decrypted(Scrambling(p), p[PayloadAt(p)..]));
    }
  }

  /** The packet is let through as it is. */
  predicate Passes(s: State, q: Packet188) {
    StillScrambled(q) ==> Blind(s.links, PidOf(q))
  }

  /** Handling it appends it unchanged exactly if it passes. */
  lemma ComesOutAsItIs(cfg: Config, s: State, q: Packet188)
    requires !BrokenPacket(q) && Transport(q) == 0 && !Stripped(cfg, q)
    ensures var h := Handle(cfg, s, q); !h.Skip? && (h.out == Some(q) <==> Passes(s, q))
  {
    hide Descramble, Dispatch, BrokenPacket, PidOf, Transport, StillScrambled, Blind;
    if Passes(s, q) {
      PassesUnchanged(s, q);
    } else if Descramble(s, q).2 >= 0 {
      NotBlind(s, q);
      DecryptedIsClear(s, q);
    }
  }

  lemma NotBlind(s: State, q: Packet188)
    requires !Blind(s.links, PidOf(q))
    ensures Chosen(s.links, PidOf(q)).Some? && s.links.decs[Chosen(s.links, PidOf(q)).value].m2.Some?
  {
  }

  /** A packet that was appended when the loop was left passes in the state it was
      left in; in any state it comes out unchanged again exactly if it passes. */
  lemma LeftPacketComesAgain(cfg: Config, s: State, p: Packet188, s2: State)
    requires Handle(cfg, s, p).Stop? && Handle(cfg, s, p).out.Some?
    ensures var h := Handle(cfg, s, p);
      && h.out == Some(h.held) && SameHead(p, h.held) && Passes(h.state, h.held)
      && var h' := Handle(cfg, s2, h.held); !h'.Skip? && (h'.out == Some(h.held) <==> Passes(s2, h.held))
  {
    hide Descramble, Dispatch, BrokenPacket, PidOf, Transport, PayloadAt, SameHead, StillScrambled, Blind, TalliedOnce;
    HandleFacts(cfg, s, p);
    var (s1, q, _) := Descramble(s, p);
    DescrambleKeepsHead(s, p);
    SameHeadSameFields(p, q);
    DescrambledOrBlind(s, p);
    if StillScrambled(q) {
      ExitStaysBlind(cfg, s1, q);
    }
    ComesOutAsItIs(cfg, s2, q);
  }

  /** The second call starts with the last packet of the first. */
  predicate Repeats(r: Scanned, r': Scanned) {
    r.out != [] && r'.out != [] && r'.out[0] == r.out[|r.out| - 1]
  }

  /** The call was left early, behind the append. */
  predicate LeftBehind(r: Scanned) {
    r.out != [] && r.stop.Some? && r.stop.value != ERROR_DECRYPT_FAILURE
  }

  /** The loop is left before the cursor moves on. So, whatever is appended next,
      and whatever is done to the state in between, the last packet of a run of
      the loop is the first of the next one, and is in the output twice, if and only
      if the first was left early for anything but a decryption error, and the
      packet passes in the state that the second starts in. */
  lemma {:induction false} LastPacketComesOutTwice(cfg: Config, unit: nat, s: State, buf: seq<byte>, at: nat,
      more: seq<byte>, r: Scanned, s2: State)
    requires 188 <= unit && r == Scan(cfg, unit, s, buf, at)
    ensures Repeats(r, Scan(cfg, unit, s2, r.rest + more, at + |buf| - |r.rest|))
        <==> LeftBehind(r) && Passes(s2, r.out[|r.out| - 1].packet)
    decreases |buf|
  {
    hide Scan, TurnOf, Spaced, Kept, From, Passes;
    if r.stop.Some? && r.stop.value != ERROR_DECRYPT_FAILURE {
      ExitRepeats(cfg, unit, s, buf, at, more, r, s2);
    } else {
      OutputShape(cfg, unit, s, buf, at);
      OutputShape(cfg, unit, s2, r.rest + more, at + |buf| - |r.rest|);
      var r' := Scan(cfg, unit, s2, r.rest + more, at + |buf| - |r.rest|);
      SpacedApart(r.out, r'.out, unit, at, at + |buf| - |r.rest|, End(r', r.rest + more, at + |buf| - |r.rest|));
    }
  }

  /** With nothing done in between it passes. */
  lemma LastPacketPasses(cfg: Config, unit: nat, s: State, buf: seq<byte>, at: nat)
    requires 188 <= unit
    ensures var r := Scan(cfg, unit, s, buf, at);
      r.stop.Some? && r.stop.value != ERROR_DECRYPT_FAILURE ==> LeftBehind(r) && Passes(r.state, r.out[|r.out| - 1].packet)
  {
    hide Scan, Passes;
    var r := Scan(cfg, unit, s, buf, at);
    if r.stop.Some? && r.stop.value != ERROR_DECRYPT_FAILURE {
      ExitRepeats(cfg, unit, s, buf, at, [], r, r.state);
    }
  }

  lemma SpacedApart(a: seq<Emitted>, b: seq<Emitted>, unit: nat, from: nat, mid: nat, to: nat)
    requires 188 <= unit && Spaced(a, unit, from, mid) && Spaced(b, unit, mid, to)
    ensures a != [] && b != [] ==> b[0] != a[|a| - 1]
  {
  }

  lemma {:induction false} ExitRepeats(cfg: Config, unit: nat, s: State, buf: seq<byte>, at: nat, more: seq<byte>, r: Scanned,
      s2: State)
    requires 188 <= unit && r == Scan(cfg, unit, s, buf, at)
    requires r.stop.Some? && r.stop.value != ERROR_DECRYPT_FAILURE
    ensures LeftBehind(r) && Passes(r.state, r.out[|r.out| - 1].packet)
    ensures Repeats(r, Scan(cfg, unit, s2, r.rest + more, at + |buf| - |r.rest|)) <==> Passes(s2, r.out[|r.out| - 1].packet)
    decreases |buf|
  {
    hide Scan, TurnOf, Passes;
    ScanUnfolds(cfg, unit, s, buf, at);
    var t := TurnOf(cfg, unit, s, buf);
    if t.Go? {
      var r1 := Scan(cfg, unit, t.state, buf[t.past..], at + t.past);
      ExitRepeats(cfg, unit, t.state, buf[t.past..], at + t.past, more, r1, s2);
    } else {
      LeftTurnComesAgain(cfg, unit, s, buf, more, s2);
      ScanUnfolds(cfg, unit, s2, r.rest + more, at + |buf| - |r.rest|);
      FirstOut(cfg, unit, s2, r.rest + more, at + |buf| - |r.rest|);
    }
  }

  /** What the first turn puts out is the first that comes out. */
  lemma FirstOut(cfg: Config, unit: nat, s: State, buf: seq<byte>, at: nat)
    requires 188 <= unit && !TurnOf(cfg, unit, s, buf).Halt? && TurnOf(cfg, unit, s, buf).skip == 0
    ensures var t, r := TurnOf(cfg, unit, s, buf), Scan(cfg, unit, s, buf, at);
      && (t.out.Some? ==> r.out != [] && r.out[0] == Emitted(at, t.out.value))
      && (t.out.None? && r.out != [] ==> r.out[0].at > at)
  {
    hide Scan, TurnOf, Spaced, Kept, From;
    ScanUnfolds(cfg, unit, s, buf, at);
    var t := TurnOf(cfg, unit, s, buf);
    if t.Go? && t.out.None? {
      TurnMovesOn(cfg, unit, s, buf);
      OutputShape(cfg, unit, t.state, buf[t.past..], at + t.past);
      var r := Scan(cfg, unit, t.state, buf[t.past..], at + t.past);
      SpacedFrom(r.out, unit, at + t.past, End(r, buf[t.past..], at + t.past));
      assert [] + r.out == r.out;
    }
  }

  lemma SpacedFrom(out: seq<Emitted>, unit: nat, from: nat, to: nat)
    requires Spaced(out, unit, from, to)
    ensures out != [] ==> out[0].at >= from
  {
  }

  lemma TurnMovesOn(cfg: Config, unit: nat, s: State, buf: seq<byte>)
    requires 188 <= unit
    ensures var t := TurnOf(cfg, unit, s, buf); t.Go? ==> t.skip < t.past <= |buf|
  {
    hide TurnOf;
  }

  lemma LeftTurnComesAgain(cfg: Config, unit: nat, s: State, buf: seq<byte>, more: seq<byte>, s2: State)
    requires 188 <= unit
    requires var t := TurnOf(cfg, unit, s, buf); t.Leave? && t.code != ERROR_DECRYPT_FAILURE
    ensures var t := TurnOf(cfg, unit, s, buf);
      var t' := TurnOf(cfg, unit, s2, t.rest + more);
      && t.out.Some? && Passes(t.state, t.out.value) && !t'.Halt? && t'.skip == 0
      && (t'.out == t.out <==> Passes(s2, t.out.value))
  {
    hide Handle, Resync, SameHead, BrokenPacket, PidOf, Transport, StillScrambled, TalliedOnce, Passes;
    var q := Cursor(buf, unit).value;
    var p := buf[q..q + 188];
    HandleFacts(cfg, s, p);
    LeftPacketComesAgain(cfg, s, p, s2);
    var held := Handle(cfg, s, p).held;
    SameSync(p, held);
    StillInStep(buf, q, unit, held, more);
  }

  lemma SameSync(p: Packet188, q: Packet188)
    requires SameHead(p, q)
    ensures q[0] == p[0]
  {
  }

  /** Behind the packet that is kept the next sync byte is where it was. */
  lemma StillInStep(buf: seq<byte>, q: nat, unit: nat, held: Packet188, more: seq<byte>)
    requires 188 <= unit && q + unit < |buf| && held[0] == SYNC && buf[q + unit] == SYNC
    ensures var again := held + buf[q + 188..] + more;
      && |again| > unit && again[0] == SYNC && again[unit] == SYNC && again[0..188] == held
      && Cursor(again, unit) == Some(0)
  {
    var again := held + buf[q + 188..] + more;
    assert again[unit] == (held + buf[q + 188..])[unit] == if unit == 188 then buf[q + 188] else buf[q + unit];
  }

  // ------------------------------------------------------- what leaves the loop

  /** A section parser refuses an empty payload, and another PID than its own. */
  predicate Refuses(p: Parser, put: Packet) {
    put.payload == [] || (p.pid >= 0 && p.pid != put.pid)
  }

  lemma {:induction false} StartsCode(p: Parser, data: seq<byte>, code: int)
    requires code >= 0
    ensures Starts(p, data, code).1 >= 0
    decreases |data|
  {
    hide Complete, First, Sound;
    if Complete(data) {
      var raw := First(data);
      var (p', c) := Finish(p, raw);
      StartsCode(p', data[|raw|..], if c == WARN_CRC_MISMATCH then c else code);
    }
  }

  lemma PutRefuses(p: Parser, put: Packet)
    ensures Put(p, put).1 < 0 <==> Refuses(p, put)
  {
    hide Complete, First, Sound, Starts;
    if !Refuses(p, put) && put.start {
      var s0, data := p.(pid := put.pid), put.payload;
      var pointer := data[0] as int;
      if 1 + pointer < |data| {
        var (s1, c1) := if pointer > 0 then Continue(s0, data[1..1 + pointer]) else (s0, 0);
        var (s2, c2) := Abandon(s1, c1);
        StartsCode(s2, data[1 + pointer..], c2);
      }
    }
  }

  lemma RefusedWith(p: Parser, put: Packet)
    ensures put.payload == [] ==> Put(p, put) == (p, -1)
    ensures put.payload != [] && p.pid >= 0 && p.pid != put.pid ==> Put(p, put) == (p, -3)
  {
  }

  /** A payload that its parser refuses leaves the loop, with a code for each table. */
  lemma RefusedPayload(cfg: Config, s: State, q: Packet188)
    ensures var e, put, r := s.links.pm[PidOf(q)], PutOf(q), Dispatch(cfg, s, q).1;
      && (e.kind == Ecm && e.target.Decryptor? && e.target.id in s.links.decs && Refuses(s.links.decs[e.target.id].ecm, put) ==>
            r == Some(-13))
      && (e.kind == Pmt && e.target.ProgramAt? && e.target.index < |s.programs| && Refuses(s.programs[e.target.index].pmt, put) ==>
            r == Some(-12))
      && (e.kind == Emm && cfg.emmOn && Refuses(ParserOf(s.emm), put) ==> r == Some(-15))
      && (e.kind !in {Ecm, Pmt, Emm} && PidOf(q) == 1 && Refuses(ParserOf(s.cat), put) ==> r == Some(-14))
      && (e.kind !in {Ecm, Pmt, Emm} && PidOf(q) == 0 && Refuses(ParserOf(s.pat), put) ==> r == Some(-11))
  {
    hide Put, ProcEcm, ProcEmm, ProcPat, ProcPmt, ProcCat, PidOf, PayloadAt, Refuses;
    var e, put := s.links.pm[PidOf(q)], PutOf(q);
    if e.target.Decryptor? && e.target.id in s.links.decs {
      PutRefuses(s.links.decs[e.target.id].ecm, put);
    }
    if e.target.ProgramAt? && e.target.index < |s.programs| {
      PutRefuses(s.programs[e.target.index].pmt, put);
    }
    PutRefuses(ParserOf(s.emm), put);
    PutRefuses(ParserOf(s.cat), put);
    PutRefuses(ParserOf(s.pat), put);
  }

  /** The section that is fetched when this payload is put, if there is one. */
  function Fetched(p: Parser, put: Packet): Option<seq<byte>> {
    if Refuses(p, put) || Put(p, put).0.queue == [] then None else Some(Put(p, put).0.queue[0])
  }

  /** The card fails on this ECM, or on the start of a cipher for its answer. */
  predicate EcmFails(cfg: Config, s: State, id: nat, raw: seq<byte>)
    requires id in s.links.decs && |raw| >= 3
  {
    var reply := cfg.ecm(|s.ecmCalls|, Tables.Body(raw));
    && raw[0] == 0x82 && s.links.decs[id].locked == 0
    && (Tables.Body(raw) == [] || reply.status < 0
        || (Purchased(reply.returnCode) && s.links.decs[id].m2.None? && cfg.init(|s.ecmCalls| + 1).status < 0))
  }

  lemma EcmSectionFails(cfg: Config, s: State, id: nat, raw: seq<byte>)
    requires id in s.links.decs && |raw| >= 3
    ensures EcmSection(cfg, s, id, raw).1 < 0 <==> EcmFails(cfg, s, id, raw)
  {
    hide Tables.Body, WithDec, Purchased, Multi2.Schedule, Multi2.LoadBlock, Multi2.LoadKey;
  }

  // The EMMs that are handed to the card, in order, as long as it accepts them: once
  // for every id of the card that the first six bytes are.

  function HandedTo(element: seq<byte>, ids: seq<int>): seq<seq<byte>>
    requires |element| >= 6
  {
    if ids == [] then [] else (if ids[0] == Number(element[..6]) then [element] else []) + HandedTo(element, ids[1..])
  }

  function EmmsOf(cfg: Config, data: seq<byte>): seq<seq<byte>>
    decreases |data|
  {
    if |data| < 13 || data[6] as int + 7 > |data| then []
    else
      var len := data[6] as int + 7;
      HandedTo(data[..len], cfg.casIds) + EmmsOf(cfg, data[len..])
  }

  /** The EMMs of the queued sections up to one of an unknown table; the flag
      says that a section too short to have a header comes first. */
  function EmmsQueued(cfg: Config, queue: seq<seq<byte>>): (seq<seq<byte>>, bool) {
    if queue == [] then ([], false)
    else if |queue[0]| < 3 then ([], true)
    else if queue[0][0] == 0x85 then EmmsQueued(cfg, queue[1..])
    else if queue[0][0] != 0x84 then ([], false)
    else
      var (rest, short) := EmmsQueued(cfg, queue[1..]);
      (EmmsOf(cfg, Tables.Body(queue[0])) + rest, short)
  }

  predicate Rejected(cfg: Config, calls: nat, emms: seq<seq<byte>>) {
    exists i | 0 <= i < |emms| :: cfg.emm(calls + i, emms[i]) < 0
  }

  lemma RejectedJoins(cfg: Config, calls: nat, a: seq<seq<byte>>, b: seq<seq<byte>>)
    ensures Rejected(cfg, calls, a + b) <==> Rejected(cfg, calls, a) || Rejected(cfg, calls + |a|, b)
  {
    if Rejected(cfg, calls, a) {
      var i :| 0 <= i < |a| && cfg.emm(calls + i, a[i]) < 0;
      assert (a + b)[i] == a[i];
    }
    if Rejected(cfg, calls + |a|, b) {
      var i :| 0 <= i < |b| && cfg.emm(calls + |a| + i, b[i]) < 0;
      assert (a + b)[|a| + i] == b[i] && calls + (|a| + i) == calls + |a| + i;
    }
    if Rejected(cfg, calls, a + b) {
      var i :| 0 <= i < |a + b| && cfg.emm(calls + i, (a + b)[i]) < 0;
      if i >= |a| {
        assert b[i - |a|] == (a + b)[i] && calls + |a| + (i - |a|) == calls + i;
      }
    }
  }

  lemma {:induction false} EmmForIdsFails(cfg: Config, s: State, element: seq<byte>, ids: seq<int>)
    requires |element| >= 6
    ensures var (s', r) := EmmForIds(cfg, s, element, ids);
      && (r < 0 <==> Rejected(cfg, |s.emmCalls|, HandedTo(element, ids)))
      && (r >= 0 ==> |s'.emmCalls| == |s.emmCalls| + |HandedTo(element, ids)|)
    decreases |ids|
  {
    hide CardId, Number;
    CardIdIsNumber(element);
    if ids != [] {
      var rest := HandedTo(element, ids[1..]);
      if ids[0] != CardId(element) {
        EmmForIdsFails(cfg, s, element, ids[1..]);
        assert [] + rest == rest;
      } else {
        RejectedJoins(cfg, |s.emmCalls|, [element], rest);
        OneRejected(cfg, |s.emmCalls|, element);
        var n := cfg.emm(|s.emmCalls|, element);
        var s1 := s.(emmCalls := s.emmCalls + [EmmCall(element, n)]);
        if n >= 0 {
          EmmForIdsFails(cfg, s1.(links := UnlockAll(s1.links)), element, ids[1..]);
        }
      }
    }
  }

  lemma OneRejected(cfg: Config, calls: nat, element: seq<byte>)
    ensures Rejected(cfg, calls, [element]) <==> cfg.emm(calls, element) < 0
  {
    if cfg.emm(calls, element) < 0 {
      assert cfg.emm(calls + 0, [element][0]) < 0;
    }
  }

  lemma {:induction false} EmmElementsFails(cfg: Config, s: State, data: seq<byte>)
    ensures var (s', r) := EmmElements(cfg, s, data);
      && (r < 0 <==> Rejected(cfg, |s.emmCalls|, EmmsOf(cfg, data)))
      && (r >= 0 ==> |s'.emmCalls| == |s.emmCalls| + |EmmsOf(cfg, data)|)
    decreases |data|
  {
    hide EmmForIds, HandedTo, Rejected;
    if |data| < 13 || data[6] as int + 7 > |data| {
      NothingRejected(cfg, |s.emmCalls|);
    } else {
      var len := data[6] as int + 7;
      EmmForIdsFails(cfg, s, data[..len], cfg.casIds);
      var (s1, r) := EmmForIds(cfg, s, data[..len], cfg.casIds);
      RejectedJoins(cfg, |s.emmCalls|, HandedTo(data[..len], cfg.casIds), EmmsOf(cfg, data[len..]));
      if r >= 0 {
        EmmElementsFails(cfg, s1, data[len..]);
      }
    }
  }

  lemma NothingRejected(cfg: Config, calls: nat)
    ensures !Rejected(cfg, calls, [])
  {
  }

  lemma {:induction false} ProcEmmFails(cfg: Config, s: State, emm: Parser)
    ensures ProcEmm(cfg, s, emm).2 < 0
        <==> EmmsQueued(cfg, emm.queue).1 || Rejected(cfg, |s.emmCalls|, EmmsQueued(cfg, emm.queue).0)
    decreases |emm.queue|
  {
    hide EmmElements, EmmsOf, Tables.Body, Rejected;
    NothingRejected(cfg, |s.emmCalls|);
    if emm.queue != [] {
      var (emm', got) := Get(emm);
      var raw := got.value;
      if |raw| >= 3 {
        ProcEmmFails(cfg, s, emm');
        if raw[0] == 0x84 {
          EmmElementsFails(cfg, s, Tables.Body(raw));
          var (s1, r) := EmmElements(cfg, s, Tables.Body(raw));
          RejectedJoins(cfg, |s.emmCalls|, EmmsOf(cfg, Tables.Body(raw)), EmmsQueued(cfg, emm'.queue).0);
          if r >= 0 {
            ProcEmmFails(cfg, s1, emm');
          }
        }
      }
    }
  }

  /** Why the payload of a packet makes the loop leave. */
  predicate Exit(cfg: Config, s: State, q: Packet188) {
    var e, put := s.links.pm[PidOf(q)], PutOf(q);
    if e.kind == Ecm then
      if e.target.Decryptor? && e.target.id in s.links.decs then
        var p := s.links.decs[e.target.id].ecm;
        Refuses(p, put) || (Fetched(p, put).Some? && (
            !cfg.hasCard || |Fetched(p, put).value| < 3 || EcmFails(cfg, s, e.target.id, Fetched(p, put).value)))
      else true
    else if e.kind == Pmt then
      if e.target.ProgramAt? && e.target.index < |s.programs| then
        var p := s.programs[e.target.index].pmt;
        Refuses(p, put) || (Fetched(p, put).Some? && (
            |Fetched(p, put).value| < 3
            || (Fetched(p, put).value[0] == 2 && Tables.ReadPmt(Fetched(p, put).value, cfg.caSystemId).OverrunPmt?)))
      else true
    else if e.kind == Emm then
      var p := ParserOf(s.emm);
      cfg.emmOn && (Refuses(p, put) || (Fetched(p, put).Some? && (
          !cfg.hasCard || EmmsQueued(cfg, Put(p, put).0.queue).1
          || Rejected(cfg, |s.emmCalls|, EmmsQueued(cfg, Put(p, put).0.queue).0))))
    else if PidOf(q) == 1 then
      Refuses(ParserOf(s.cat), put) || (Fetched(ParserOf(s.cat), put).Some? && |Fetched(ParserOf(s.cat), put).value| < 3)
    else if PidOf(q) == 0 then
      Refuses(ParserOf(s.pat), put) || Fetched(ParserOf(s.pat), put).Some?
    else false
  }

  lemma EcmExits(cfg: Config, s: State, id: nat, put: Packet)
    requires id in s.links.decs
    ensures var p := s.links.decs[id].ecm;
      Bad(EcmPacket(cfg, s, id, put).1) <==>
        (Refuses(p, put) || (Fetched(p, put).Some? && (
            !cfg.hasCard || |Fetched(p, put).value| < 3 || EcmFails(cfg, s, id, Fetched(p, put).value))))
  {
    hide Put, EcmSection, Tables.Body, Refuses;
    var d := s.links.decs[id];
    PutRefuses(d.ecm, put);
    var ecm := Put(d.ecm, put).0;
    if ecm.queue != [] && |ecm.queue[0]| >= 3 {
      var s1 := WithDec(s, id, d.(ecm := ecm));
      var s2 := WithDec(s1, id, d.(ecm := Get(ecm).0));
      EcmSectionFails(cfg, s2, id, ecm.queue[0]);
    }
  }

  /** A packet leaves the loop if and only if one of these reasons is there. */
  lemma DispatchExits(cfg: Config, s: State, q: Packet188)
    ensures Bad(Dispatch(cfg, s, q).1) || Dispatch(cfg, s, q).2 <==> Exit(cfg, s, q)
  {
    hide Put, EcmPacket, ProcEmm, Applied, Tables.ReadPat, Tables.ReadPmt, Tables.FindCa, Tables.PatTooShort, Tables.Body,
      Refuses, EcmFails, EmmsQueued, Rejected, PidOf, PayloadAt;
    var e, put := s.links.pm[PidOf(q)], PutOf(q);
    if e.kind == Ecm {
      if e.target.Decryptor? && e.target.id in s.links.decs {
        EcmExits(cfg, s, e.target.id, put);
      }
    } else if e.kind == Pmt {
      if e.target.ProgramAt? && e.target.index < |s.programs| {
        PutRefuses(s.programs[e.target.index].pmt, put);
      }
    } else if e.kind == Emm {
      PutRefuses(ParserOf(s.emm), put);
      var emm := Put(ParserOf(s.emm), put).0;
      ProcEmmFails(cfg, s.(emm := Some(emm)), emm);
    } else if PidOf(q) == 1 {
      PutRefuses(ParserOf(s.cat), put);
    } else if PidOf(q) == 0 {
      PutRefuses(ParserOf(s.pat), put);
    }
  }

  /** The packet is scrambled for a decryptor that lacks one of its keys. */
  predicate Undecipherable(s: State, p: Packet188) {
    && StillScrambled(p) && Chosen(s.links, PidOf(p)).Some?
    && var m2 := s.links.decs[Chosen(s.links, PidOf(p)).value].m2;
       m2.Some? && m2.value.Check(PACKET - PayloadAt(p)) < 0
  }

  /** When the loop is left with a packet, and whether the packet is appended
      first: exactly these two cases. */
  lemma HandleStops(cfg: Config, s: State, p: Packet188)
    ensures var parsed := Transport(p) == 0 && !Stripped(cfg, p) && !BrokenPacket(p);
      var h := Handle(cfg, s, p);
      && (h.Stop? && h.out.None? <==> parsed && Undecipherable(s, p))
      && (h.Stop? && h.out.Some? <==>
            parsed && !Undecipherable(s, p) && Exit(cfg, Descramble(s, p).0, Descramble(s, p).1))
  {
    hide Dispatch, BrokenPacket, Transport, PidOf, Exit, Undecipherable;
    var (s1, q, r) := Descramble(s, p);
    DispatchExits(cfg, s1, q);
    if !BrokenPacket(p) {
      FailsWhen(s, p);
    }
  }

  lemma FailsWhen(s: State, p: Packet188)
    requires !BrokenPacket(p)
    ensures Descramble(s, p).2 < 0 <==> Undecipherable(s, p)
  {
    hide PayloadAt, Multi2.CbcDecrypt, BrokenPacket;
    SoundPacket(p);
  }

  // --------------------------------------------- after a decryption error

  /** The next packet starts the bytes in hand, and cannot be deciphered. */
  ghost predicate Stuck(cfg: Config, unit: nat, s: State, buf: seq<byte>)
    requires 188 <= unit
  {
    && |buf| > unit && buf[0] == SYNC && buf[unit] == SYNC
    && var p: Packet188 := buf[..188];
       Transport(p) == 0 && !Stripped(cfg, p) && !BrokenPacket(p) && Undecipherable(s, p)
  }

  lemma StuckExtends(cfg: Config, unit: nat, s: State, buf: seq<byte>, more: seq<byte>)
    requires 188 <= unit && Stuck(cfg, unit, s, buf)
    ensures Stuck(cfg, unit, s, buf + more)
  {
    hide Undecipherable, Stripped, BrokenPacket, Transport;
    assert (buf + more)[..188] == buf[..188];
  }

  lemma StuckTurn(cfg: Config, unit: nat, s: State, buf: seq<byte>)
    requires 188 <= unit && Stuck(cfg, unit, s, buf)
    ensures TurnOf(cfg, unit, s, buf) == Leave(s, 0, None, buf, ERROR_DECRYPT_FAILURE)
  {
    hide Undecipherable, Stripped, BrokenPacket, Transport, PidOf, Resync, Handle, Exit, Descramble, SameHead, TalliedOnce;
    var p: Packet188 := buf[..188];
    HandleStops(cfg, s, p);
    HandleFacts(cfg, s, p);
    assert buf[0..188] == p;
    assert p + buf[188..] == buf;
  }

  lemma StuckScan(cfg: Config, unit: nat, s: State, buf: seq<byte>, at: nat)
    requires 188 <= unit && Stuck(cfg, unit, s, buf)
    ensures Scan(cfg, unit, s, buf, at) == Scanned(s, [], buf, Some(ERROR_DECRYPT_FAILURE), Some(ERROR_DECRYPT_FAILURE))
  {
    hide Stuck, TurnOf, Scan;
    StuckTurn(cfg, unit, s, buf);
    ScanUnfolds(cfg, unit, s, buf, at);
  }

  lemma {:induction false} StuckForGood(cfg: Config, unit: nat, r: Scanned, chunks: seq<seq<byte>>, at: nat)
    requires 188 <= unit && |r.rest| <= at && Stuck(cfg, unit, r.state, r.rest)
    requires r.stop == r.code == Some(ERROR_DECRYPT_FAILURE)
    ensures Feed(cfg, unit, r, chunks, at) == r.(rest := r.rest + WorkBuffers.Flatten(chunks))
    decreases |chunks|
  {
    hide Stuck, Scan;
    if chunks == [] {
      assert r.rest + [] == r.rest;
    } else {
      StuckExtends(cfg, unit, r.state, r.rest, chunks[0]);
      StuckScan(cfg, unit, r.state, r.rest + chunks[0], at - |r.rest|);
      var r1 := Continued(cfg, unit, r, chunks[0], at - |r.rest|);
      assert r1 == r.(rest := r.rest + chunks[0]) by {
        assert r.out + [] == r.out;
      }
      StuckForGood(cfg, unit, r1, chunks[1..], at + |chunks[0]|);
      assert r.rest + chunks[0] + WorkBuffers.Flatten(chunks[1..]) == r.rest + (chunks[0] + WorkBuffers.Flatten(chunks[1..]));
    }
  }

  lemma {:induction false} LeftStuck(cfg: Config, unit: nat, s: State, buf: seq<byte>, at: nat)
    requires 188 <= unit && Scan(cfg, unit, s, buf, at).stop == Some(ERROR_DECRYPT_FAILURE)
    ensures var r := Scan(cfg, unit, s, buf, at); r.code == r.stop && Stuck(cfg, unit, r.state, r.rest)
    decreases |buf|
  {
    hide Stuck, TurnOf, Scan;
    ScanUnfolds(cfg, unit, s, buf, at);
    var t := TurnOf(cfg, unit, s, buf);
    if t.Go? {
      LeftStuck(cfg, unit, t.state, buf[t.past..], at + t.past);
    } else {
      TurnLeftStuck(cfg, unit, s, buf);
    }
  }

  lemma TurnLeftStuck(cfg: Config, unit: nat, s: State, buf: seq<byte>)
    requires 188 <= unit
    requires var t := TurnOf(cfg, unit, s, buf); t.Leave? && t.code == ERROR_DECRYPT_FAILURE
    ensures var t := TurnOf(cfg, unit, s, buf); Stuck(cfg, unit, t.state, t.rest)
  {
    hide Undecipherable, Stripped, BrokenPacket, Transport, PidOf, Resync, Handle, Exit, Descramble, SameHead, TalliedOnce;
    var q := Cursor(buf, unit).value;
    var p: Packet188 := buf[q..q + 188];
    HandleStops(cfg, s, p);
    HandleFacts(cfg, s, p);
    StillInStep(buf, q, unit, p, []);
    var rest := p + buf[q + 188..];
    assert rest + [] == rest;
  }

  /** Once the loop was left with a decryption error it gets no further, however
      often it is run: whatever is appended, nothing comes out, nothing is consumed,
      and the state stays as it is. */
  lemma LoopStaysStuck(cfg: Config, unit: nat, r: Scanned, more: seq<byte>, at: nat, chunks: seq<seq<byte>>)
    requires 188 <= unit && |r.rest| <= at
    requires Continued(cfg, unit, r, more, at - |r.rest|).stop == Some(ERROR_DECRYPT_FAILURE)
    ensures var r1 := Continued(cfg, unit, r, more, at - |r.rest|);
      Feed(cfg, unit, r1, chunks, at + |more|) == r1.(rest := r1.rest + WorkBuffers.Flatten(chunks))
  {
    hide Stuck, Scan, Feed;
    LeftStuck(cfg, unit, r.state, r.rest + more, at - |r.rest|);
    StuckForGood(cfg, unit, Continued(cfg, unit, r, more, at - |r.rest|), chunks, at + |more|);
  }

  /** A code is negative exactly if it is that of an early exit. */
  lemma {:induction false} CodeIsOfExit(cfg: Config, unit: nat, s: State, buf: seq<byte>, at: nat)
    requires 188 <= unit
    ensures var r := Scan(cfg, unit, s, buf, at); if r.stop.Some? then r.code == r.stop else !Bad(r.code)
    decreases |buf|
  {
    hide Scan, TurnOf;
    ScanUnfolds(cfg, unit, s, buf, at);
    var t := TurnOf(cfg, unit, s, buf);
    if t.Go? {
      GoesOnWithoutError(cfg, unit, s, buf);
      CodeIsOfExit(cfg, unit, t.state, buf[t.past..], at + t.past);
    }
  }

  lemma GoesOnWithoutError(cfg: Config, unit: nat, s: State, buf: seq<byte>)
    requires 188 <= unit
    ensures TurnOf(cfg, unit, s, buf).Go? ==> !Bad(TurnOf(cfg, unit, s, buf).last)
  {
    hide Dispatch, Descramble, Resync, BrokenPacket, Transport, PidOf;
  }

  // A search never gives the code of a decryption error.

  lemma LookCode(cfg: Config, hunt: Hunt, s: State, p: Packet188)
    ensures LookAt(cfg, hunt, s, p).code != ERROR_DECRYPT_FAILURE
  {
    hide Put, EcmPacket, PmtPacket, PidOf, Bare, PmtComplete, EcmComplete;
    match hunt
    case ForPat =>
    case ForPmt =>
      var i := ProgramOf(s, PidOf(p));
      if i.Some? {
        PmtCode(cfg, s, i.value, PutOf(p));
      }
    case ForEcm =>
      var id := ReaderOf(s.links, PidOf(p));
      if id.Some? {
        EcmCode(cfg, s, id.value, PutOf(p));
      }
  }

  lemma PmtCode(cfg: Config, s: State, i: nat, put: Packet)
    requires i < |s.programs|
    ensures PmtPacket(cfg, s, i, put).1 != Some(ERROR_DECRYPT_FAILURE)
  {
    hide Put, Tables.ReadPmt, Applied;
  }

  lemma {:induction false} SweepCode(cfg: Config, unit: nat, hunt: Hunt, s: State, buf: seq<byte>, from: nat)
    requires 188 <= unit
    ensures Sweep(cfg, unit, hunt, s, buf, from).code != ERROR_DECRYPT_FAILURE
    decreases |buf| - from
  {
    hide LookAt, Cursor;
    if from + unit < |buf| && Cursor(buf[from..], unit).Some? {
      var at := from + Cursor(buf[from..], unit).value;
      LookCode(cfg, hunt, s, buf[at..at + 188]);
      SweepCode(cfg, unit, hunt, LookAt(cfg, hunt, s, buf[at..at + 188]).state, buf, at + unit);
    }
  }

  lemma ProcPatCode(s: State, pat: Parser)
    requires pat.queue != []
    ensures ProcPat(s, pat).1 != ERROR_DECRYPT_FAILURE
  {
    hide Tables.ReadPat, Tables.PatTooShort, Tables.Body, Applied;
  }

  lemma AdmitCode(cfg: Config, unit: nat, s: State, buf: seq<byte>, from: nat)
    requires 188 <= unit
    ensures var g := Admit(cfg, unit, s, buf, from); g.Held? ==> g.code != ERROR_DECRYPT_FAILURE
  {
    hide Sweep, ProcPat, PmtComplete, EcmComplete;
    SweepCode(cfg, unit, ForPat, s, buf, from);
    var r := Sweep(cfg, unit, ForPat, s, buf, from);
    if r.state.pat.Some? && r.state.pat.value.queue != [] {
      ProcPatCode(r.state, r.state.pat.value);
    }
    var g1 := PatGate(cfg, unit, s, buf, from);
    if g1.Through? {
      SweepCode(cfg, unit, ForPmt, g1.state, buf, g1.offset);
      var g2 := PmtGate(cfg, unit, g1.state, buf, g1.offset);
      if g2.Through? {
        SweepCode(cfg, unit, ForEcm, g2.state, buf, g2.offset);
      }
    }
  }

  ghost predicate StuckSession(cfg: Config, b: Session) {
    188 <= b.unit && Stuck(cfg, b.unit, b.core, b.rest)
  }

  lemma PutLeftStuck(cfg: Config, b: Session, data: seq<byte>, at: nat)
    requires PutCall(cfg, b, data, at).code == ERROR_DECRYPT_FAILURE
    ensures StuckSession(cfg, PutCall(cfg, b, data, at).session)
  {
    hide Stuck, Scan, Admit, Found;
    var buf := b.rest + data;
    var unit := if b.unit < 188 then Detected(buf) else Some(b.unit);
    AdmitCode(cfg, unit.value, b.core, buf, b.offset);
    var s := Admit(cfg, unit.value, b.core, buf, b.offset).state;
    CodeIsOfExit(cfg, unit.value, s, buf, at);
    LeftStuck(cfg, unit.value, s, buf, at);
  }

  lemma {:induction false} StuckSessionStays(cfg: Config, r: Called, chunks: seq<seq<byte>>, at: nat)
    requires |r.session.rest| <= at && StuckSession(cfg, r.session) && Admitted(r.session.core)
    requires r.code == ERROR_DECRYPT_FAILURE
    ensures Puts(cfg, r, chunks, at) == r.(session := r.session.(rest := r.session.rest + WorkBuffers.Flatten(chunks)))
    decreases |chunks|
  {
    hide Stuck, Scan, Admit, Admitted;
    var b := r.session;
    if chunks == [] {
      assert b.rest + [] == b.rest;
    } else {
      Chunking.AdmitPasses(cfg, b.unit, b.core, b.rest + chunks[0], b.offset);
      StuckExtends(cfg, b.unit, b.core, b.rest, chunks[0]);
      StuckScan(cfg, b.unit, b.core, b.rest + chunks[0], at - |b.rest|);
      var r1 := PutMore(cfg, r, chunks[0], at - |b.rest|);
      assert r1 == r.(session := b.(rest := b.rest + chunks[0])) by {
        assert r.out + [] == r.out;
      }
      StuckSessionStays(cfg, r1, chunks[1..], at + |chunks[0]|);
      assert b.rest + chunks[0] + WorkBuffers.Flatten(chunks[1..]) == b.rest + (chunks[0] + WorkBuffers.Flatten(chunks[1..]));
    }
  }

  /** After a put that ended with a decryption error no put gets any further, if
      nothing is searched for: whatever is put, nothing comes out, nothing is
      consumed, and the state stays as it is, so that no later ECM is ever seen. */
  lemma NothingComesAfterwards(cfg: Config, r: Called, data: seq<byte>, at: nat, chunks: seq<seq<byte>>)
    requires |r.session.rest| <= at
    requires var r1 := PutMore(cfg, r, data, at - |r.session.rest|);
      r1.code == ERROR_DECRYPT_FAILURE && Admitted(r1.session.core)
    ensures var r1 := PutMore(cfg, r, data, at - |r.session.rest|);
      && |r1.session.rest| <= at + |data|
      && Puts(cfg, r1, chunks, at + |data|)
         == r1.(session := r1.session.(rest := r1.session.rest + WorkBuffers.Flatten(chunks)))
  {
    hide StuckSession, PutCall, Puts, Admitted;
    PutLeftStuck(cfg, r.session, data, at - |r.session.rest|);
    StuckSessionStays(cfg, PutMore(cfg, r, data, at - |r.session.rest|), chunks, at + |data|);
  }

  /** What would lift it is an answered ECM for the decryptor, and only a search
      can still come to one. */
  lemma AnsweredEcmLiftsIt(cfg: Config, s: State, id: nat, raw: seq<byte>, p: Packet188)
    requires id in s.links.decs && |raw| >= 3 && EcmKeys.Answered(cfg, s, id, raw)
    requires s.links.decs[id].m2.Some? && EcmKeys.Started(s.links.decs[id].m2.value)
    requires Chosen(s.links, PidOf(p)) == Some(id) && !BrokenPacket(p)
    ensures !Undecipherable(EcmSection(cfg, s, id, raw).0, p)
  {
    hide BrokenPacket, PidOf, Chosen, EcmKeys.Started, EcmSection, PayloadAt;
    var s' := EcmSection(cfg, s, id, raw).0;
    SectionKeepsBinding(cfg, s, id, raw);
    SameBinding(s.links, s'.links, PidOf(p));
    if StillScrambled(p) {
      SoundPacket(p);
      EcmKeys.AnsweredEcmGivesKeys(cfg, s, id, raw, PACKET - PayloadAt(p));
    }
  }

  lemma SectionKeepsBinding(cfg: Config, s: State, id: nat, raw: seq<byte>)
    requires id in s.links.decs && |raw| >= 3
    ensures var l := EcmSection(cfg, s, id, raw).0.links;
      l.pm == s.links.pm && l.order == s.links.order && l.decs.Keys == s.links.decs.Keys
  {
    hide Tables.Body;
  }

  /** One ECM that the card fails on is enough, if its decryptor has a cipher:
      the next scrambled packet of a PID bound to it stops the stream. */
  lemma FailedEcmStopsTheStream(cfg: Config, unit: nat, s: State, id: nat, raw: seq<byte>, s': State, p: Packet188,
      behind: seq<byte>, at: nat, chunks: seq<seq<byte>>)
    requires 188 <= unit && id in s.links.decs && |raw| >= 3 && s' == EcmSection(cfg, s, id, raw).0
    requires raw[0] == 0x82 && s.links.decs[id].locked == 0 && s.links.decs[id].m2.Some?
    requires Tables.Body(raw) == [] || cfg.ecm(|s.ecmCalls|, Tables.Body(raw)).status < 0
    requires Chosen(s.links, PidOf(p)) == Some(id) && StillScrambled(p)
    requires Transport(p) == 0 && !Stripped(cfg, p) && !BrokenPacket(p)
    requires p[0] == SYNC && |p + behind| > unit && (p + behind)[unit] == SYNC
    ensures var r := Scan(cfg, unit, s', p + behind, at);
      && r == Scanned(s', [], p + behind, Some(ERROR_DECRYPT_FAILURE), Some(ERROR_DECRYPT_FAILURE))
      && Feed(cfg, unit, r, chunks, at + |p + behind|) == r.(rest := r.rest + WorkBuffers.Flatten(chunks))
  {
    hide Stripped, BrokenPacket, Transport, StillScrambled, Tables.Body, Chosen, PidOf, Feed, Scan, PayloadAt,
      EcmSection, Multi2.Keys.Check;
    EcmFailure(cfg, s, id, raw);
    SameBinding(s.links, s'.links, PidOf(p));
    assert (p + behind)[..188] == p;
    var k := s.links.decs[id].m2.value;
    EcmKeys.ClearedIsNotReady(k, PACKET - PayloadAt(p));
    StuckScan(cfg, unit, s', p + behind, at);
    StuckForGood(cfg, unit, Scan(cfg, unit, s', p + behind, at), chunks, at + |p + behind|);
  }

  lemma EcmFailure(cfg: Config, s: State, id: nat, raw: seq<byte>)
    requires id in s.links.decs && |raw| >= 3
    requires raw[0] == 0x82 && s.links.decs[id].locked == 0 && s.links.decs[id].m2.Some?
    requires Tables.Body(raw) == [] || cfg.ecm(|s.ecmCalls|, Tables.Body(raw)).status < 0
    ensures var s' := EcmSection(cfg, s, id, raw).0;
      && id in s'.links.decs && s'.links.decs[id].m2 == Some(s.links.decs[id].m2.value.WithoutScrambleKey())
      && s'.links.pm == s.links.pm && s'.links.order == s.links.order && s'.links.decs.Keys == s.links.decs.Keys
  {
    hide Tables.Body;
  }

  lemma SameBinding(l: Links, l': Links, pid: Pid)
    requires l'.pm == l.pm && l'.order == l.order && l'.decs.Keys == l.decs.Keys
    ensures Chosen(l', pid) == Chosen(l, pid)
  {
  }
}
