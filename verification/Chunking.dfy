// Putting the bytes in two pieces comes to the same as putting them at once,
// search and packet loop together, with exactly these exceptions: a search that
// ends with a packet and yet without success, and a packet loop that is left
// early or after which something has to be searched for again.

module Chunking {
  import opened Bytes
  import opened SectionModel
  import opened PidGraph
  import opened PidInvariant
  import opened Core
  import opened Framing
  import opened Search
  import Multi2
  import Tables
  import WorkBuffers

  // ------------------------------------------------------------- the searches

  /** A search goes on over more bytes where it stopped for want of them, and is
      over when it ended with a packet. */
  lemma {:induction false} SweepExtends(cfg: Config, unit: nat, hunt: Hunt, s: State, a: seq<byte>, c: seq<byte>, from: nat)
    requires 188 <= unit && from <= |a|
    ensures var r := Sweep(cfg, unit, hunt, s, a, from);
      && r.offset <= |a|
      && (r.done ==> Sweep(cfg, unit, hunt, s, a + c, from) == r)
      && (!r.done ==> r.code == 0)
      && (!r.done ==> Sweep(cfg, unit, hunt, s, a + c, from) == Sweep(cfg, unit, hunt, r.state, a + c, r.offset))
    decreases |a| - from
  {
    hide LookAt, Cursor, Sweep;
    SweepUnfolds(cfg, unit, hunt, s, a, from);
    if from + unit < |a| && Cursor(a[from..], unit).Some? {
      SweepUnfolds(cfg, unit, hunt, s, a + c, from);
      assert (a + c)[from..] == a[from..] + c;
      CursorExtends(a[from..], c, unit);
      var at := from + Cursor(a[from..], unit).value;
      CursorInside(a[from..], unit);
      assert (a + c)[at..at + 188] == a[at..at + 188];
      var look := LookAt(cfg, hunt, s, a[at..at + 188]);
      if !look.done {
        SweepExtends(cfg, unit, hunt, look.state, a, c, at + unit);
      }
    }
  }

  lemma CursorInside(buf: seq<byte>, unit: nat)
    requires 188 <= unit < |buf|
    ensures Cursor(buf, unit).Some? ==> Cursor(buf, unit).value + unit < |buf|
  {
    hide Cursor;
  }

  // What a search that goes on leaves alone.

  predicate SamePhases(ps: seq<Program>, ps': seq<Program>) {
    |ps'| == |ps| && forall i | 0 <= i < |ps| :: ps'[i].phase == ps[i].phase
  }

  lemma SamePhasesComplete(ps: seq<Program>, ps': seq<Program>)
    requires SamePhases(ps, ps')
    ensures PmtComplete(ps') == PmtComplete(ps)
  {
    if PmtComplete(ps) && exists i | 0 <= i < |ps| :: ps[i].phase >= 2 {
      var i :| 0 <= i < |ps| && ps[i].phase >= 2;
      assert ps'[i].phase >= 2;
    }
    if PmtComplete(ps') && exists i | 0 <= i < |ps'| :: ps'[i].phase >= 2 {
      var i :| 0 <= i < |ps'| && ps'[i].phase >= 2;
      assert ps[i].phase >= 2;
    }
  }

  lemma PmtKeepsPhases(cfg: Config, s: State, i: nat, put: Packet)
    requires i < |s.programs|
    ensures SamePhases(s.programs, PmtPacket(cfg, s, i, put).0.programs)
  {
    hide Put, Tables.ReadPmt, ApplyPmt;
    var pmt := Put(s.programs[i].pmt, put).0;
    if pmt.queue != [] {
      var s1 := WithPmt(s, i, Get(pmt).0);
      var raw := Get(pmt).1.value;
      if |raw| >= 3 && raw[0] == 0x02 && Tables.ReadPmt(raw, cfg.caSystemId).PmtRead? {
        var read := Tables.ReadPmt(raw, cfg.caSystemId);
        TableKeepsParser(s1.links, s1.programs[i], read.major, read.ess);
      }
    }
  }

  lemma TableKeepsParser(l: Links, p: Program, major: Pid, ess: seq<EsEntry>)
    ensures var p' := ApplyPmt(l, p, major, ess).1; p'.phase == p.phase && p'.pmt == p.pmt
  {
    hide SetDecryptor, UnrefAll, AddEcm, AddStreams, Release;
  }

  ghost predicate SameDecs(s: State, s': State) {
    && s'.programs == s.programs && s'.links.order == s.links.order
    && forall x :: PhaseOf(s'.links, x) == PhaseOf(s.links, x)
  }

  lemma EcmSectionKeepsPhases(cfg: Config, s: State, id: nat, raw: seq<byte>)
    requires id in s.links.decs && |raw| >= 3
    ensures SameDecs(s, EcmSection(cfg, s, id, raw).0)
  {
    hide Tables.Body, Purchased, Multi2.Schedule, Multi2.LoadBlock, Multi2.LoadKey, Multi2.Keys.WithSystemKey,
      Multi2.Keys.WithScrambleKey, Multi2.Keys.WithInitCbc;
  }

  lemma EcmKeepsPhases(cfg: Config, s: State, id: nat, put: Packet)
    requires id in s.links.decs
    ensures SameDecs(s, EcmPacket(cfg, s, id, put).0)
  {
    hide Put, EcmSection;
    var ecm := Put(s.links.decs[id].ecm, put).0;
    if ecm.queue != [] && |ecm.queue[0]| >= 3 {
      var s1 := WithDec(s, id, s.links.decs[id].(ecm := ecm));
      EcmSectionKeepsPhases(cfg, WithDec(s1, id, s1.links.decs[id].(ecm := Get(ecm).0)), id, ecm.queue[0]);
    }
  }

  /** What is still missing is missing after a packet that does not end the
      search. */
  predicate Missing(hunt: Hunt, s: State) {
    match hunt
    case ForPat => |s.programs| < 1 && ParserOf(s.pat).queue == []
    case ForPmt => !PmtComplete(s.programs)
    case ForEcm => !EcmComplete(s.links)
  }

  lemma SameDecPhases(l: Links, l': Links)
    requires l'.order == l.order && forall x :: PhaseOf(l', x) == PhaseOf(l, x)
    ensures EcmComplete(l') == EcmComplete(l)
  {
    hide PhaseOf;
    if EcmComplete(l) && exists i | 0 <= i < |l.order| :: PhaseOf(l, l.order[i]) >= 2 {
      var i :| 0 <= i < |l.order| && PhaseOf(l, l.order[i]) >= 2;
      assert PhaseOf(l', l'.order[i]) >= 2;
    }
    if EcmComplete(l') && exists i | 0 <= i < |l'.order| :: PhaseOf(l', l'.order[i]) >= 2 {
      var i :| 0 <= i < |l'.order| && PhaseOf(l', l'.order[i]) >= 2;
      assert PhaseOf(l, l.order[i]) >= 2;
    }
  }

  lemma LookLeavesMissing(cfg: Config, hunt: Hunt, s: State, p: Packet188)
    requires Missing(hunt, s) && !LookAt(cfg, hunt, s, p).done
    ensures Missing(hunt, LookAt(cfg, hunt, s, p).state)
  {
    hide Put, PmtPacket, EcmPacket, PidOf, Bare, PmtComplete, EcmComplete;
    match hunt
    case ForPat =>
    case ForPmt =>
      var i := ProgramOf(s, PidOf(p));
      if i.Some? {
        PmtKeepsPhases(cfg, s, i.value, PutOf(p));
        SamePhasesComplete(s.programs, PmtPacket(cfg, s, i.value, PutOf(p)).0.programs);
      }
    case ForEcm =>
      var id := ReaderOf(s.links, PidOf(p));
      if id.Some? {
        EcmKeepsPhases(cfg, s, id.value, PutOf(p));
        SameDecPhases(s.links, EcmPacket(cfg, s, id.value, PutOf(p)).0.links);
      }
  }

  lemma {:induction false} SweepLeavesMissing(cfg: Config, unit: nat, hunt: Hunt, s: State, buf: seq<byte>, from: nat)
    requires 188 <= unit && Missing(hunt, s) && !Sweep(cfg, unit, hunt, s, buf, from).done
    ensures Missing(hunt, Sweep(cfg, unit, hunt, s, buf, from).state)
    decreases |buf| - from
  {
    hide LookAt, Cursor, Sweep, Missing;
    SweepUnfolds(cfg, unit, hunt, s, buf, from);
    if from + unit < |buf| && Cursor(buf[from..], unit).Some? {
      var at := from + Cursor(buf[from..], unit).value;
      LookLeavesMissing(cfg, hunt, s, buf[at..at + 188]);
      SweepLeavesMissing(cfg, unit, hunt, LookAt(cfg, hunt, s, buf[at..at + 188]).state, buf, at + unit);
    }
  }

  /** No search makes or loses a program, and that for ECMs leaves them as they are. */
  lemma LookKeepsPrograms(cfg: Config, hunt: Hunt, s: State, p: Packet188)
    ensures var s' := LookAt(cfg, hunt, s, p).state;
      |s'.programs| == |s.programs| && (hunt == ForEcm ==> s'.programs == s.programs)
  {
    hide Put, PmtPacket, EcmPacket, PidOf, Bare, PmtComplete, EcmComplete;
    match hunt
    case ForPat =>
    case ForPmt =>
      var i := ProgramOf(s, PidOf(p));
      if i.Some? {
        PmtKeepsPhases(cfg, s, i.value, PutOf(p));
      }
    case ForEcm =>
      var id := ReaderOf(s.links, PidOf(p));
      if id.Some? {
        EcmKeepsPhases(cfg, s, id.value, PutOf(p));
      }
  }

  lemma {:induction false} SweepKeepsPrograms(cfg: Config, unit: nat, hunt: Hunt, s: State, buf: seq<byte>, from: nat)
    requires 188 <= unit
    ensures var s' := Sweep(cfg, unit, hunt, s, buf, from).state;
      |s'.programs| == |s.programs| && (hunt == ForEcm ==> s'.programs == s.programs)
    decreases |buf| - from
  {
    hide LookAt, Cursor, Sweep;
    SweepUnfolds(cfg, unit, hunt, s, buf, from);
    if from + unit < |buf| && Cursor(buf[from..], unit).Some? {
      var at := from + Cursor(buf[from..], unit).value;
      LookKeepsPrograms(cfg, hunt, s, buf[at..at + 188]);
      SweepKeepsPrograms(cfg, unit, hunt, LookAt(cfg, hunt, s, buf[at..at + 188]).state, buf, at + unit);
    }
  }

  // --------------------------------------------------------------- the gates

  /** No section of a PAT is waiting while there is no program. */
  predicate NonePending(s: State) {
    |s.programs| < 1 ==> ParserOf(s.pat).queue == []
  }

  lemma PatGateExtends(cfg: Config, unit: nat, s: State, a: seq<byte>, c: seq<byte>, from: nat)
    requires 188 <= unit && from <= |a| && NonePending(s)
    ensures var g := PatGate(cfg, unit, s, a, from);
      && g.offset <= |a|
      && (g.Through? ==> |g.state.programs| >= 1 && PatGate(cfg, unit, s, a + c, from) == g)
      && (g.Held? && !g.done ==>
            NonePending(g.state) && PatGate(cfg, unit, s, a + c, from) == PatGate(cfg, unit, g.state, a + c, g.offset))
  {
    hide Sweep, ProcPat;
    if |s.programs| < 1 {
      SweepExtends(cfg, unit, ForPat, s, a, c, from);
      if !Sweep(cfg, unit, ForPat, s, a, from).done {
        SweepLeavesMissing(cfg, unit, ForPat, s, a, from);
      }
    }
  }

  lemma PmtGateExtends(cfg: Config, unit: nat, s: State, a: seq<byte>, c: seq<byte>, from: nat)
    requires 188 <= unit && from <= |a|
    ensures var g := PmtGate(cfg, unit, s, a, from);
      && g.offset <= |a| && |g.state.programs| == |s.programs|
      && (g.Through? ==> PmtComplete(g.state.programs) && PmtGate(cfg, unit, s, a + c, from) == g)
      && (g.Held? && !g.done ==> PmtGate(cfg, unit, s, a + c, from) == PmtGate(cfg, unit, g.state, a + c, g.offset))
  {
    hide Sweep, PmtComplete;
    if !PmtComplete(s.programs) {
      SweepKeepsPrograms(cfg, unit, ForPmt, s, a, from);
      SweepExtends(cfg, unit, ForPmt, s, a, c, from);
      if !Sweep(cfg, unit, ForPmt, s, a, from).done {
        SweepLeavesMissing(cfg, unit, ForPmt, s, a, from);
      }
    }
  }

  lemma EcmGateExtends(cfg: Config, unit: nat, s: State, a: seq<byte>, c: seq<byte>, from: nat)
    requires 188 <= unit && from <= |a|
    ensures var g := EcmGate(cfg, unit, s, a, from);
      && g.offset <= |a| && g.state.programs == s.programs
      && (g.Through? ==> EcmComplete(g.state.links) && EcmGate(cfg, unit, s, a + c, from) == g)
      && (g.Held? && !g.done ==> EcmGate(cfg, unit, s, a + c, from) == EcmGate(cfg, unit, g.state, a + c, g.offset))
  {
    hide Sweep, EcmComplete;
    if !EcmComplete(s.links) {
      SweepKeepsPrograms(cfg, unit, ForEcm, s, a, from);
      SweepExtends(cfg, unit, ForEcm, s, a, c, from);
      if !Sweep(cfg, unit, ForEcm, s, a, from).done {
        SweepLeavesMissing(cfg, unit, ForEcm, s, a, from);
      }
    }
  }

  /** All searches together. */
  lemma AdmitExtends(cfg: Config, unit: nat, s: State, a: seq<byte>, c: seq<byte>, from: nat)
    requires 188 <= unit && from <= |a| && NonePending(s)
    ensures var g := Admit(cfg, unit, s, a, from);
      && g.offset <= |a|
      && (g.Through? ==> Admitted(g.state) && Admit(cfg, unit, s, a + c, from) == g)
      && (g.Held? && !g.done ==>
            NonePending(g.state) && Admit(cfg, unit, s, a + c, from) == Admit(cfg, unit, g.state, a + c, g.offset))
  {
    hide PatGate, PmtGate, EcmGate, PmtComplete, EcmComplete;
    PatGateExtends(cfg, unit, s, a, c, from);
    var g1 := PatGate(cfg, unit, s, a, from);
    if g1.Through? {
      PmtGateExtends(cfg, unit, g1.state, a, c, g1.offset);
      var g2 := PmtGate(cfg, unit, g1.state, a, g1.offset);
      PatGatePasses(cfg, unit, g2.state, a + c, g2.offset);
      if g2.Through? {
        EcmGateExtends(cfg, unit, g2.state, a, c, g2.offset);
        var g3 := EcmGate(cfg, unit, g2.state, a, g2.offset);
        PatGatePasses(cfg, unit, g3.state, a + c, g3.offset);
        PmtGatePasses(cfg, unit, g3.state, a + c, g3.offset);
      }
    }
  }

  lemma PatGatePasses(cfg: Config, unit: nat, s: State, buf: seq<byte>, from: nat)
    requires 188 <= unit && |s.programs| >= 1
    ensures PatGate(cfg, unit, s, buf, from) == Through(s, from)
  {
  }

  lemma PmtGatePasses(cfg: Config, unit: nat, s: State, buf: seq<byte>, from: nat)
    requires 188 <= unit && PmtComplete(s.programs)
    ensures PmtGate(cfg, unit, s, buf, from) == Through(s, from)
  {
  }

  lemma AdmitPasses(cfg: Config, unit: nat, s: State, buf: seq<byte>, from: nat)
    requires 188 <= unit && Admitted(s)
    ensures Admit(cfg, unit, s, buf, from) == Through(s, from)
  {
    hide PmtComplete, EcmComplete;
  }

  // --------------------------------------------------- what is missing is said

  /** The code while the search goes on: 0, or that nothing was found in the first
      16 million bytes for a PAT, or the first 32 million for PMTs or for ECMs. */
  function LimitCode(s: State, offset: nat): int {
    if |s.programs| < 1 then if offset < 16_777_216 then 0 else -4
    else if !PmtComplete(s.programs) then if offset < 33_554_432 then 0 else -5
    else if offset < 33_554_432 then 0 else -6
  }

  /** What is held back is so by an error in a packet, or because something is still
      missing; and the code says which, and how far the search has come. */
  lemma HeldBack(cfg: Config, unit: nat, s: State, buf: seq<byte>, from: nat)
    requires 188 <= unit
    ensures var g := Admit(cfg, unit, s, buf, from);
      g.Held? ==> (g.done && g.code < 0) || (!Admitted(g.state) && g.code == LimitCode(g.state, g.offset))
  {
    hide Sweep, ProcPat, PmtComplete, EcmComplete;
    SweepExtendsCode(cfg, unit, ForPat, s, buf, from);
    var g1 := PatGate(cfg, unit, s, buf, from);
    if g1.Through? {
      SweepExtendsCode(cfg, unit, ForPmt, g1.state, buf, g1.offset);
      SweepKeepsPrograms(cfg, unit, ForPmt, g1.state, buf, g1.offset);
      var g2 := PmtGate(cfg, unit, g1.state, buf, g1.offset);
      if g2.Through? {
        SweepExtendsCode(cfg, unit, ForEcm, g2.state, buf, g2.offset);
        SweepKeepsPrograms(cfg, unit, ForEcm, g2.state, buf, g2.offset);
      }
    }
  }

  lemma {:induction false} SweepExtendsCode(cfg: Config, unit: nat, hunt: Hunt, s: State, buf: seq<byte>, from: nat)
    requires 188 <= unit
    ensures var r := Sweep(cfg, unit, hunt, s, buf, from); !r.done ==> r.code == 0
    decreases |buf| - from
  {
    hide LookAt, Cursor, Sweep;
    SweepUnfolds(cfg, unit, hunt, s, buf, from);
    if from + unit < |buf| && Cursor(buf[from..], unit).Some? {
      var at := from + Cursor(buf[from..], unit).value;
      SweepExtendsCode(cfg, unit, hunt, LookAt(cfg, hunt, s, buf[at..at + 188]).state, buf, at + unit);
    }
  }

  /** A put that is held back keeps every byte and gives that code, or -3 while the
      packet distance is unknown. */
  lemma HeldPut(cfg: Config, b: Session, data: seq<byte>, at: nat)
    ensures var buf, r := b.rest + data, PutCall(cfg, b, data, at);
      var unit := if b.unit < 188 then Detected(buf) else Some(b.unit);
      if unit.None? then r == Called(b.(rest := buf), [], -3)
      else
        var g := Admit(cfg, unit.value, b.core, buf, b.offset);
        g.Held? ==>
          && r.out == [] && r.session == Session(g.state, unit.value, g.offset, buf)
          && ((g.done && r.code < 0)
              || (!Admitted(r.session.core) && r.code == LimitCode(r.session.core, r.session.offset)))
  {
    hide Admit, Admitted, Scan, Found, LimitCode;
    var buf := b.rest + data;
    var unit := if b.unit < 188 then Detected(buf) else Some(b.unit);
    if unit.Some? {
      HeldBack(cfg, unit.value, b.core, buf, b.offset);
    }
  }

  // ---------------------------------------------------------------- the puts

  /** The put ends for want of bytes: no search ended with a packet and without
      success, the loop was not left early, and nothing is to be searched for. */
  ghost predicate Smooth(cfg: Config, b: Session, data: seq<byte>, at: nat)
    requires 188 <= b.unit
  {
    var buf := b.rest + data;
    match Admit(cfg, b.unit, b.core, buf, b.offset)
    case Held(_, _, done, _) => !done
    case Through(s, _) => var r := Scan(cfg, b.unit, s, buf, at); r.stop.None? && Admitted(r.state)
  }

  /** The same session and the same output. */
  predicate Alike(r: Called, r': Called) {
    r.session == r'.session && r.out == r'.out
  }

  /** Two puts come to one. */
  lemma PutInTwo(cfg: Config, b: Session, a: seq<byte>, c: seq<byte>, at: nat)
    requires 188 <= b.unit && b.offset <= |b.rest| && NonePending(b.core) && Smooth(cfg, b, a, at)
    ensures var r1 := PutCall(cfg, b, a, at);
      && 188 <= r1.session.unit && r1.session.offset <= b.offset + |b.rest| + |a| && |r1.session.rest| <= at + |b.rest| + |a|
      && Alike(PutMore(cfg, r1, c, at + |b.rest| + |a| - |r1.session.rest|), PutCall(cfg, b, a + c, at))
  {
    hide Scan, Admit, Admitted;
    var buf := b.rest + a;
    assert b.rest + (a + c) == buf + c;
    AdmitExtends(cfg, b.unit, b.core, buf, c, b.offset);
    var g := Admit(cfg, b.unit, b.core, buf, b.offset);
    var r1 := PutCall(cfg, b, a, at);
    if g.Held? {
      assert [] + PutCall(cfg, b, a + c, at).out == PutCall(cfg, b, a + c, at).out;
    } else {
      var r := Scan(cfg, b.unit, g.state, buf, at);
      AdmitPasses(cfg, b.unit, r.state, r.rest + c, g.offset);
      ScanInTwo(cfg, b.unit, g.state, buf, c, at);
    }
  }

  lemma AlikeGoesOn(cfg: Config, r: Called, r': Called, data: seq<byte>, at: nat)
    requires Alike(r, r')
    ensures Alike(PutMore(cfg, r, data, at), PutMore(cfg, r', data, at))
  {
    hide PutCall;
  }

  /** However bytes are cut into puts, the same comes of them as when they are put
      at once, if each put but the last ends for want of bytes. */
  lemma {:induction false} PutsTogether(cfg: Config, b: Session, chunks: seq<seq<byte>>, at: nat)
    requires 188 <= b.unit && b.offset <= |b.rest| <= at && NonePending(b.core) && chunks != []
    requires forall i | 0 < i < |chunks| :: Smooth(cfg, b, WorkBuffers.Flatten(chunks[..i]), at - |b.rest|)
    ensures Alike(Puts(cfg, Called(b, [], 0), chunks, at), PutCall(cfg, b, WorkBuffers.Flatten(chunks), at - |b.rest|))
    decreases |chunks|
  {
    hide PutCall, Puts, Smooth, NonePending, WorkBuffers.Flatten;
    var n := |chunks| - 1;
    var before, last := chunks[..n], chunks[n];
    var r0 := Called(b, [], 0);
    LastPut(cfg, r0, chunks, at);
    NothingPut(cfg, r0, at);
    if n == 0 {
      assert before == [];
      assert [] + last == last;
      assert [] + PutCall(cfg, b, last, at - |b.rest|).out == PutCall(cfg, b, last, at - |b.rest|).out;
    } else {
      forall i | 0 < i < n ensures Smooth(cfg, b, WorkBuffers.Flatten(before[..i]), at - |b.rest|) {
        assert before[..i] == chunks[..i];
      }
      PutsTogether(cfg, b, before, at);
      var a := WorkBuffers.Flatten(before);
      var r1 := PutCall(cfg, b, a, at - |b.rest|);
      PutInTwo(cfg, b, a, last, at - |b.rest|);
      AlikeGoesOn(cfg, Puts(cfg, r0, before, at), r1, last, at + |a| - |r1.session.rest|);
    }
  }

  lemma NothingPut(cfg: Config, r: Called, at: nat)
    requires |r.session.rest| <= at
    ensures Puts(cfg, r, [], at) == r && WorkBuffers.Flatten([]) == []
  {
    hide PutCall;
  }

  lemma OnePut(cfg: Config, r: Called, data: seq<byte>, at: nat)
    requires |r.session.rest| <= at
    ensures Puts(cfg, r, [data], at) == PutMore(cfg, r, data, at - |r.session.rest|)
  {
    hide PutCall;
    assert [data][1..] == [];
  }

  lemma LastPut(cfg: Config, r: Called, chunks: seq<seq<byte>>, at: nat)
    requires |r.session.rest| <= at && chunks != []
    ensures var n := |chunks| - 1;
      var r1, m := Puts(cfg, r, chunks[..n], at), at + |WorkBuffers.Flatten(chunks[..n])|;
      && |r1.session.rest| <= m
      && Puts(cfg, r, chunks, at) == PutMore(cfg, r1, chunks[n], m - |r1.session.rest|)
      && WorkBuffers.Flatten(chunks) == WorkBuffers.Flatten(chunks[..n]) + chunks[n]
  {
    hide PutCall, Puts, WorkBuffers.Flatten;
    var n := |chunks| - 1;
    PutsInTwo(cfg, r, chunks[..n], [chunks[n]], at);
    assert chunks[..n] + [chunks[n]] == chunks;
    OnePut(cfg, Puts(cfg, r, chunks[..n], at), chunks[n], at + |WorkBuffers.Flatten(chunks[..n])|);
    WorkBuffers.FlattenOneMore(chunks, n);
    assert chunks[..n + 1] == chunks;
  }

  // ------------------------------------------------ from the first byte on

  /** In some put this packet distance is found, and no other one before. */
  ghost predicate TunesTo(chunks: seq<seq<byte>>, unit: nat) {
    && (forall i | 0 < i <= |chunks| :: Detected(WorkBuffers.Flatten(chunks[..i])) in {None, Some(unit)})
    && exists i | 0 < i <= |chunks| :: Detected(WorkBuffers.Flatten(chunks[..i])) == Some(unit)
  }

  ghost predicate Untuned(chunks: seq<seq<byte>>) {
    forall i | 0 < i <= |chunks| :: Detected(WorkBuffers.Flatten(chunks[..i])) == None
  }

  /** Until the distance is found the bytes are collected. */
  lemma {:induction false} UntunedCollects(cfg: Config, s: State, chunks: seq<seq<byte>>)
    requires Untuned(chunks)
    ensures var r := Puts(cfg, Called(Session(s, 0, 0, []), [], 0), chunks, 0);
      r.session == Session(s, 0, 0, WorkBuffers.Flatten(chunks)) && r.out == []
    decreases |chunks|
  {
    hide Puts, Scan, Admit, Found, WorkBuffers.Flatten;
    var r0 := Called(Session(s, 0, 0, []), [], 0);
    NothingPut(cfg, r0, 0);
    if chunks != [] {
      var n := |chunks| - 1;
      LastPut(cfg, r0, chunks, 0);
      forall i | 0 < i <= n ensures Detected(WorkBuffers.Flatten(chunks[..n][..i])) == None {
        assert chunks[..n][..i] == chunks[..i];
      }
      UntunedCollects(cfg, s, chunks[..n]);
      assert chunks[..|chunks|] == chunks;
      assert Detected(WorkBuffers.Flatten(chunks[..|chunks|])) == None;
    }
  }

  /** A descrambler that does not know the packet distance yet ends up as if it had
      known it and had been given everything at once. */
  lemma {:induction false} PutsFromTheStart(cfg: Config, unit: nat, s: State, chunks: seq<seq<byte>>)
    requires 188 <= unit && TunesTo(chunks, unit) && NonePending(s)
    requires forall i | 0 < i < |chunks| :: Smooth(cfg, Session(s, unit, 0, []), WorkBuffers.Flatten(chunks[..i]), 0)
    ensures Alike(Puts(cfg, Called(Session(s, 0, 0, []), [], 0), chunks, 0),
                  PutCall(cfg, Session(s, unit, 0, []), WorkBuffers.Flatten(chunks), 0))
    decreases |chunks|
  {
    hide Puts, PutCall, Smooth, NonePending, Detected, WorkBuffers.Flatten;
    var n := |chunks| - 1;
    var r0, b := Called(Session(s, 0, 0, []), [], 0), Session(s, unit, 0, []);
    var before, last := chunks[..n], chunks[n];
    var a := WorkBuffers.Flatten(before);
    LastPut(cfg, r0, chunks, 0);
    forall i | 0 < i <= n ensures WorkBuffers.Flatten(before[..i]) == WorkBuffers.Flatten(chunks[..i]) {
      assert before[..i] == chunks[..i];
    }
    assert chunks[..|chunks|] == chunks;
    if Untuned(before) {
      UntunedCollects(cfg, s, before);
      FirstTuned(cfg, s, unit, a, last);
    } else {
      PutsFromTheStart(cfg, unit, s, before);
      var r1 := PutCall(cfg, b, a, 0);
      if n > 0 {
        PutInTwo(cfg, b, a, last, 0);
        AlikeGoesOn(cfg, Puts(cfg, r0, before, 0), r1, last, |a| - |r1.session.rest|);
      }
    }
  }

  /** The put that finds the distance. */
  lemma FirstTuned(cfg: Config, s: State, unit: nat, a: seq<byte>, last: seq<byte>)
    requires 188 <= unit && Detected(a + last) == Some(unit)
    ensures Alike(PutCall(cfg, Session(s, 0, 0, a), last, 0), PutCall(cfg, Session(s, unit, 0, []), a + last, 0))
  {
    hide Scan, Admit, Found;
    assert [] + (a + last) == a + last;
  }
}
