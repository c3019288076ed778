// From the first byte to a programme: what puts make, from a new descrambler on,
// of a stream that carries one programme with its tables and ECMs, however it is
// cut into pieces, and when nothing comes out of it at all.

module Programmes {
  import opened Bytes
  import opened SectionModel
  import opened PidGraph
  import opened PidInvariant
  import opened Core
  import opened Framing
  import opened EcmEntries
  import opened FirstPmt
  import opened EndToEnd
  import opened Search
  import opened Chunking
  import opened Broadcasts
  import opened WorkBuffers
  import GraphRuns
  import Tables
  import TT = TableTheorems

  // ------------------------------------------------------------ what is enough

  /** Its PMT has to come again if there are other programs. */
  function PmtsNeeded(o: Programme): nat {
    if |NewPrograms(o.entries)| == 1 then 1 else 2
  }

  /** Its ECM has to come again if there are other ECM PIDs. */
  ghost function EcmsNeeded(cfg: Config, o: Programme): nat {
    if OtherEcm(StreamsOf(cfg, o), MajorOf(cfg, o)) then 2 else 1
  }

  /** The card is asked: the PAT and enough PMTs are there, and an ECM. */
  predicate Reaches(cfg: Config, o: Programme, xs: seq<Sent>) {
    && Times(cfg, o, xs, PatPart) >= 1 && Times(cfg, o, xs, PmtPart) >= PmtsNeeded(o) && Times(cfg, o, xs, EcmPart) >= 1
  }

  /** Nothing is searched for any more. */
  ghost predicate Enough(cfg: Config, o: Programme, xs: seq<Sent>, open: bool) {
    Reaches(cfg, o, xs) && Times(cfg, o, xs, EcmPart) >= EcmsNeeded(cfg, o) && CodeOf(cfg, open) <= 1
  }

  ghost predicate AllOf(cfg: Config, roles: Roles, o: Programme, xs: seq<Sent>) {
    forall x | x in xs :: OfProgramme(cfg, roles, o, x)
  }

  // ------------------------------------------------------------ one search step

  lemma SweepNext(cfg: Config, unit: nat, hunt: Hunt, s: State, buf: seq<byte>, from: nat, xs: seq<Sent>, tail: seq<byte>)
    requires 188 <= unit && from <= |buf| && Holds(buf[from..], unit, xs, tail) && xs != []
    ensures from + unit <= |buf| && Holds(buf[from + unit..], unit, xs[1..], tail)
    ensures var look := LookAt(cfg, hunt, s, OnAir(xs[0]));
      Sweep(cfg, unit, hunt, s, buf, from) ==
        if look.done then Searched(look.state, from + unit, true, look.code)
        else Sweep(cfg, unit, hunt, look.state, buf, from + unit)
  {
    hide LookAt, OnAir, Sweep;
    var rest := buf[from..];
    HoldsOn(rest[unit..], unit, xs[1..], tail);
    assert rest[unit..] == buf[from + unit..] && rest[unit..][0] == rest[unit];
    assert rest[..188] == buf[from..from + 188];
    SweepUnfolds(cfg, unit, hunt, s, buf, from);
  }

  lemma SweepTail(cfg: Config, unit: nat, hunt: Hunt, s: State, buf: seq<byte>, from: nat, tail: seq<byte>)
    requires 188 <= unit && from <= |buf| && Holds(buf[from..], unit, [], tail)
    ensures Sweep(cfg, unit, hunt, s, buf, from) == Searched(s, from, false, 0)
  {
  }

  lemma FirstAndRest(cfg: Config, roles: Roles, o: Programme, xs: seq<Sent>, part: Part)
    requires xs != [] && AllOf(cfg, roles, o, xs)
    ensures OfProgramme(cfg, roles, o, xs[0]) && AllOf(cfg, roles, o, xs[1..])
    ensures Times(cfg, o, xs, part) == (if PartOf(cfg, o, xs[0]) == part then 1 else 0) + Times(cfg, o, xs[1..], part)
  {
    hide OfProgramme, PartOf;
  }

  // ------------------------------------------------------------- the searches

  lemma {:induction false} PatSearch(cfg: Config, roles: Roles, unit: nat, o: Programme, buf: seq<byte>, from: nat,
      xs: seq<Sent>, tail: seq<byte>) returns (s1: State)
    requires 188 <= unit && Coherent(cfg, roles, o) && AllOf(cfg, roles, o, xs)
    requires from <= |buf| && Holds(buf[from..], unit, xs, tail)
    ensures var r, found := Sweep(cfg, unit, ForPat, NEW_STATE, buf, from), Times(cfg, o, xs, PatPart) > 0;
      && r.done == found && r.code == 0
      && if found
         then r.state.pat.Some? && r.state.pat.value.queue != [] && ProcPat(r.state, r.state.pat.value) == (s1, 0)
              && PatKnown(roles, o, s1)
         else r.state == NEW_STATE
    decreases |xs|
  {
    hide Coherent, AllOf, Holds, Sweep, PatKnown, LookForPat, OnAir, ProcPat, OfProgramme, PartOf;
    s1 := NEW_STATE;
    if xs == [] {
      SweepTail(cfg, unit, ForPat, NEW_STATE, buf, from, tail);
    } else {
      SweepNext(cfg, unit, ForPat, NEW_STATE, buf, from, xs, tail);
      FirstAndRest(cfg, roles, o, xs, PatPart);
      if PartOf(cfg, o, xs[0]) == PatPart {
        s1 := PatIsSeen(cfg, roles, o, xs[0]);
      } else {
        NoPat(cfg, roles, o, NEW_STATE, xs[0]);
        s1 := PatSearch(cfg, roles, unit, o, buf, from + unit, xs[1..], tail);
      }
    }
  }

  lemma {:induction false} PmtSearch(cfg: Config, roles: Roles, unit: nat, o: Programme, s: State, buf: seq<byte>, from: nat,
      xs: seq<Sent>, tail: seq<byte>) returns (s2: State, id: nat, p: nat)
    requires 188 <= unit && Coherent(cfg, roles, o) && AllOf(cfg, roles, o, xs) && PatKnown(roles, o, s)
    requires from <= |buf| && Holds(buf[from..], unit, xs, tail)
    ensures var r := Sweep(cfg, unit, ForPmt, s, buf, from);
      && r.done == (Times(cfg, o, xs, PmtPart) >= PmtsNeeded(o)) && r.code == 0 && r.state == s2
      && if Times(cfg, o, xs, PmtPart) > 0 then InTables(cfg, roles, o, s2, id, p) && p >= 1 && r.done == (p >= PmtsNeeded(o)) else s2 == s
    decreases |xs|
  {
    hide Coherent, AllOf, Holds, Sweep, PatKnown, InTables, LookForPmt, OnAir, OfProgramme, PartOf, NewPrograms;
    s2, id, p := s, 0, 0;
    if xs == [] {
      SweepTail(cfg, unit, ForPmt, s, buf, from, tail);
    } else {
      SweepNext(cfg, unit, ForPmt, s, buf, from, xs, tail);
      FirstAndRest(cfg, roles, o, xs, PmtPart);
      if PartOf(cfg, o, xs[0]) == PmtPart {
        s2, id := PmtIsSeen(cfg, roles, o, s, xs[0]);
        p := 1;
        if PmtsNeeded(o) > 1 {
          s2, p := PmtSearchAgain(cfg, roles, unit, o, s2, id, buf, from + unit, xs[1..], tail);
        }
      } else {
        NoPmtYet(cfg, roles, o, s, xs[0]);
        s2, id, p := PmtSearch(cfg, roles, unit, o, s, buf, from + unit, xs[1..], tail);
      }
    }
  }

  lemma {:induction false} PmtSearchAgain(cfg: Config, roles: Roles, unit: nat, o: Programme, s: State, id: nat,
      buf: seq<byte>, from: nat, xs: seq<Sent>, tail: seq<byte>) returns (s2: State, p: nat)
    requires 188 <= unit && AllOf(cfg, roles, o, xs) && InTables(cfg, roles, o, s, id, 1)
    requires from <= |buf| && Holds(buf[from..], unit, xs, tail)
    ensures var r := Sweep(cfg, unit, ForPmt, s, buf, from);
      && r.done == (Times(cfg, o, xs, PmtPart) > 0) && r.code == 0 && r.state == s2
      && InTables(cfg, roles, o, s2, id, p) && p == if r.done then 2 else 1
    decreases |xs|
  {
    hide AllOf, Holds, Sweep, TablesKnown, PmtPhase, EcmPhase, Fresh, LookForPmt, OnAir, OfProgramme, PartOf;
    s2, p := s, 1;
    if xs == [] {
      SweepTail(cfg, unit, ForPmt, s, buf, from, tail);
    } else {
      SweepNext(cfg, unit, ForPmt, s, buf, from, xs, tail);
      FirstAndRest(cfg, roles, o, xs, PmtPart);
      if PartOf(cfg, o, xs[0]) == PmtPart {
        s2 := PmtIsSeenAgain(cfg, roles, o, s, id, xs[0]);
        p := 2;
      } else {
        NoPmtMore(cfg, roles, o, s, id, xs[0]);
        s2, p := PmtSearchAgain(cfg, roles, unit, o, s, id, buf, from + unit, xs[1..], tail);
      }
    }
  }

  lemma {:induction false} EcmSearch(cfg: Config, roles: Roles, unit: nat, o: Programme, s: State, id: nat, p: nat,
      open: bool, buf: seq<byte>, from: nat, xs: seq<Sent>, tail: seq<byte>) returns (s3: State, q: nat)
    requires 188 <= unit && |o.ecmSection| >= 3 && Answers(cfg, o.ecmSection, open)
    requires AllOf(cfg, roles, o, xs) && InTables(cfg, roles, o, s, id, p)
    requires from <= |buf| && Holds(buf[from..], unit, xs, tail)
    ensures var r := Sweep(cfg, unit, ForEcm, s, buf, from);
      && r.done == (Times(cfg, o, xs, EcmPart) >= EcmsNeeded(cfg, o) && CodeOf(cfg, open) <= 1) && r.code == 0 && r.state == s3
      && if Times(cfg, o, xs, EcmPart) > 0
         then InEcms(cfg, roles, o, s3, id, p, q, open) && r.done == (q >= EcmsNeeded(cfg, o)) && q <= 2
         else s3 == s
    decreases |xs|
  {
    hide AllOf, Holds, Sweep, InTables, InEcms, LookForEcm, OnAir, OfProgramme, PartOf, OtherEcm, EcmComplete, CodeOf, Answers,
      TablesKnown, PmtPhase, PmtComplete, MajorOf, StreamsOf;
    s3, q := s, 0;
    if xs == [] {
      SweepTail(cfg, unit, ForEcm, s, buf, from, tail);
    } else {
      SweepNext(cfg, unit, ForEcm, s, buf, from, xs, tail);
      FirstAndRest(cfg, roles, o, xs, EcmPart);
      if PartOf(cfg, o, xs[0]) == EcmPart {
        s3 := EcmIsSeen(cfg, roles, o, s, id, xs[0], p, open);
        q := Heard(cfg, open);
        EcmsHeard(cfg, roles, o, s3, id, p, q, open);
        if !(q == 1 && EcmsNeeded(cfg, o) == 1) {
          s3, q := EcmSearchAgain(cfg, roles, unit, o, s3, id, p, q, open, buf, from + unit, xs[1..], tail);
        }
      } else {
        InTablesKnown(cfg, roles, o, s, id, p);
        NoEcm(cfg, roles, o, s, id, xs[0]);
        s3, q := EcmSearch(cfg, roles, unit, o, s, id, p, open, buf, from + unit, xs[1..], tail);
      }
    }
  }

  lemma InTablesKnown(cfg: Config, roles: Roles, o: Programme, s: State, id: nat, p: nat)
    requires InTables(cfg, roles, o, s, id, p)
    ensures TablesKnown(cfg, roles, o, s, id) && PmtPhase(o, s, p) && EcmPhase(cfg, o, s.links, id, 0) && s.ecmCalls == []
  {
    hide TablesKnown, PmtPhase, EcmPhase, Fresh;
  }

  lemma EcmsHeard(cfg: Config, roles: Roles, o: Programme, s: State, id: nat, p: nat, q: nat, open: bool)
    requires |o.ecmSection| >= 3 && InEcms(cfg, roles, o, s, id, p, q, open) && q <= 2
    ensures EcmComplete(s.links) == (q >= EcmsNeeded(cfg, o)) && TablesKnown(cfg, roles, o, s, id) && PmtPhase(o, s, p)
    ensures |s.ecmCalls| == 1 && (p >= PmtsNeeded(o) ==> |s.programs| >= 1 && PmtComplete(s.programs))
  {
    hide TablesKnown, EcmPhase, EcmComplete, PmtComplete, OtherEcm, MajorOf, StreamsOf, Settled, KeysFor, NewPrograms;
    EcmPhaseComplete(cfg, o, s.links, id, q);
    PmtPhaseComplete(o, s, p);
  }

  lemma {:induction false} EcmSearchAgain(cfg: Config, roles: Roles, unit: nat, o: Programme, s: State, id: nat, p: nat, q: nat,
      open: bool, buf: seq<byte>, from: nat, xs: seq<Sent>, tail: seq<byte>) returns (s3: State, q': nat)
    requires 188 <= unit && |o.ecmSection| >= 3 && AllOf(cfg, roles, o, xs) && InEcms(cfg, roles, o, s, id, p, q, open) && q <= 1
    requires from <= |buf| && Holds(buf[from..], unit, xs, tail)
    ensures var r := Sweep(cfg, unit, ForEcm, s, buf, from);
      && r.done == (Times(cfg, o, xs, EcmPart) > 0 && q == 1) && r.code == 0 && r.state == s3
      && InEcms(cfg, roles, o, s3, id, p, q', open) && q' == if r.done then 2 else q
    decreases |xs|
  {
    hide AllOf, Holds, Sweep, InEcms, LookForEcm, OnAir, OfProgramme, PartOf;
    s3, q' := s, q;
    if xs == [] {
      SweepTail(cfg, unit, ForEcm, s, buf, from, tail);
    } else {
      SweepNext(cfg, unit, ForEcm, s, buf, from, xs, tail);
      FirstAndRest(cfg, roles, o, xs, EcmPart);
      if PartOf(cfg, o, xs[0]) == EcmPart {
        s3 := EcmIsSeenAgain(cfg, roles, o, s, id, xs[0], p, q, open);
        q' := 2 * q;
      } else {
        EcmsHeard(cfg, roles, o, s, id, p, q, open);
        NoEcm(cfg, roles, o, s, id, xs[0]);
      }
      if !(PartOf(cfg, o, xs[0]) == EcmPart && q == 1) {
        s3, q' := EcmSearchAgain(cfg, roles, unit, o, s3, id, p, q, open, buf, from + unit, xs[1..], tail);
      }
    }
  }

  // ----------------------------------------------------------------- one put

  lemma NoProgramYet()
    ensures NEW_STATE.programs == [] && NEW_STATE.ecmCalls == []
  {
  }

  lemma NoPmtYetSeen(cfg: Config, roles: Roles, o: Programme, s: State)
    requires Coherent(cfg, roles, o) && PatKnown(roles, o, s)
    ensures |s.programs| >= 1 && !PmtComplete(s.programs) && s.ecmCalls == []
  {
    hide NewPrograms, TT.PmtBytes, PatSays, Settled, MajorOf, StreamsOf, Valid, Shares, PatFits, PmtFits, PmtComplete;
    ProgramsAreNew(o.entries);
    forall j | 0 <= j < |s.programs| ensures s.programs[j].phase == 0 {
      assert s.programs[j] in s.programs;
    }
    PmtPhaseComplete(o, s, 0);
  }

  lemma NoEcmYetSeen(cfg: Config, roles: Roles, o: Programme, s: State, id: nat, p: nat)
    requires InTables(cfg, roles, o, s, id, p) && p >= 1
    ensures |s.programs| >= 1 && PmtComplete(s.programs) == (p >= PmtsNeeded(o))
    ensures !EcmComplete(s.links) && s.ecmCalls == []
  {
    hide TablesKnown, EcmPhase, PmtComplete, EcmComplete, Fresh, NewPrograms, OtherEcm;
    PmtPhaseComplete(o, s, p);
    EcmPhaseComplete(cfg, o, s.links, id, 0);
  }

  /** All searches together: what they hold back, and what they let through. */
  lemma AdmitsIt(cfg: Config, roles: Roles, unit: nat, o: Programme, open: bool, buf: seq<byte>, xs: seq<Sent>,
      tail: seq<byte>) returns (s: State, id: nat, p: nat, q: nat)
    requires 188 <= unit && Coherent(cfg, roles, o) && AllOf(cfg, roles, o, xs) && Holds(buf, unit, xs, tail)
    requires |o.ecmSection| >= 3 && Answers(cfg, o.ecmSection, open)
    ensures var g := Admit(cfg, unit, NEW_STATE, buf, 0);
      && g.state == s && |s.ecmCalls| == (if Reaches(cfg, o, xs) then 1 else 0)
      && g.Through? == Enough(cfg, o, xs, open) && (g.Held? ==> !g.done)
      && (g.Through? ==> g.offset == 0 && Admitted(s) && InEcms(cfg, roles, o, s, id, p, q, open))
  {
    hide Coherent, AllOf, Holds, Sweep, PatKnown, InTables, InEcms, ProcPat, PmtComplete, EcmComplete, Times, NewPrograms,
      OtherEcm, CodeOf, Answers;
    assert buf[0..] == buf;
    s, id, p, q := NEW_STATE, 0, 0, 0;
    NoProgramYet();
    var s1 := PatSearch(cfg, roles, unit, o, buf, 0, xs, tail);
    if Times(cfg, o, xs, PatPart) > 0 {
      NoPmtYetSeen(cfg, roles, o, s1);
      s, id, p := PmtSearch(cfg, roles, unit, o, s1, buf, 0, xs, tail);
      if Times(cfg, o, xs, PmtPart) > 0 {
        NoEcmYetSeen(cfg, roles, o, s, id, p);
      }
      if Times(cfg, o, xs, PmtPart) >= PmtsNeeded(o) {
        var s2 := s;
        s, q := EcmSearch(cfg, roles, unit, o, s2, id, p, open, buf, 0, xs, tail);
        if Times(cfg, o, xs, EcmPart) > 0 {
          EcmsHeard(cfg, roles, o, s, id, p, q, open);
        }
      }
    }
  }

  // ------------------------------------------------------------ the packet loop

  /** The packets as a viewer sees them. */
  function Seen(open: bool, xs: seq<Sent>, unit: nat, at: nat): seq<Emitted> {
    if xs == [] then [] else [Emitted(at, Shown(open, xs[0]))] + Seen(open, xs[1..], unit, at + unit)
  }

  ghost predicate AllKeyed(cfg: Config, o: Programme, xs: seq<Sent>, open: bool)
    requires |o.ecmSection| >= 3
  {
    forall x | x in xs :: Keyed(cfg, o, x, open)
  }

  lemma FirstOfAll(cfg: Config, roles: Roles, o: Programme, xs: seq<Sent>, open: bool)
    requires |o.ecmSection| >= 3 && xs != [] && AllOf(cfg, roles, o, xs) && AllKeyed(cfg, o, xs, open)
    ensures OfProgramme(cfg, roles, o, xs[0]) && Keyed(cfg, o, xs[0], open)
    ensures AllOf(cfg, roles, o, xs[1..]) && AllKeyed(cfg, o, xs[1..], open)
  {
    hide OfProgramme, Keyed;
  }

  /** Once the tables are known and the card has been asked, every packet comes out
      in its place. */
  lemma {:induction false} AllPass(cfg: Config, roles: Roles, unit: nat, o: Programme, s: State, id: nat, p: nat, q: nat,
      open: bool, buf: seq<byte>, at: nat, xs: seq<Sent>, tail: seq<byte>)
    requires 188 <= unit && |o.ecmSection| >= 3 && InEcms(cfg, roles, o, s, id, p, q, open)
    requires AllOf(cfg, roles, o, xs) && AllKeyed(cfg, o, xs, open) && Holds(buf, unit, xs, tail)
    ensures var r := Scan(cfg, unit, s, buf, at);
      r.out == Seen(open, xs, unit, at) && r.rest == tail && r.stop == None && InEcms(cfg, roles, o, r.state, id, p, q, open)
    decreases |xs|
  {
    hide Scan, TurnOf, OnAir, Handle, AllOf, AllKeyed, InEcms, OfProgramme, Keyed, Shown;
    if xs == [] {
      TailHalts(cfg, unit, s, buf, at);
    } else {
      FirstOfAll(cfg, roles, o, xs, open);
      HoldsOn(buf[unit..], unit, xs[1..], tail);
      assert buf[unit..][0] == buf[unit];
      var s1 := PacketPasses(cfg, roles, o, s, id, xs[0], p, q, open);
      HeldTurn(cfg, unit, s, buf, OnAir(xs[0]));
      ScanUnfolds(cfg, unit, s, buf, at);
      AllPass(cfg, roles, unit, o, s1, id, p, q, open, buf[unit..], at + unit, xs[1..], tail);
    }
  }

  /** What a put comes to that brings all of it. */
  ghost predicate ComesTo(cfg: Config, roles: Roles, unit: nat, o: Programme, open: bool, data: seq<byte>, xs: seq<Sent>,
      tail: seq<byte>, r: Called)
    requires |o.ecmSection| >= 3
  {
    && |r.session.core.ecmCalls| == (if Reaches(cfg, o, xs) then 1 else 0) && r.session.unit == unit
    && if Enough(cfg, o, xs, open)
       then r.out == Seen(open, xs, unit, 0) && r.session.rest == tail && Admitted(r.session.core)
            && exists id: nat :: WithDecryptor(cfg, roles, o, r.session.core, id, open)
       else r.out == [] && r.session.rest == data
  }

  /** The tables are known and the card has been asked. */
  ghost predicate WithDecryptor(cfg: Config, roles: Roles, o: Programme, s: State, id: nat, open: bool)
    requires |o.ecmSection| >= 3
  {
    exists p: nat, q: nat :: InEcms(cfg, roles, o, s, id, p, q, open)
  }

  lemma PutOfAll(cfg: Config, roles: Roles, unit: nat, o: Programme, open: bool, data: seq<byte>, xs: seq<Sent>,
      tail: seq<byte>)
    requires 188 <= unit && Coherent(cfg, roles, o) && |o.ecmSection| >= 3 && Answers(cfg, o.ecmSection, open)
    requires AllOf(cfg, roles, o, xs) && AllKeyed(cfg, o, xs, open) && Holds(data, unit, xs, tail)
    ensures Smooth(cfg, Session(NEW_STATE, unit, 0, []), data, 0)
    ensures ComesTo(cfg, roles, unit, o, open, data, xs, tail, PutCall(cfg, Session(NEW_STATE, unit, 0, []), data, 0))
    ensures !Enough(cfg, o, xs, open) ==>
              var r := PutCall(cfg, Session(NEW_STATE, unit, 0, []), data, 0); r.code == LimitCode(r.session.core, r.session.offset)
  {
    hide LimitCode, Scan, Admit, Coherent, AllOf, AllKeyed, Holds, InEcms, Answers, Reaches, Enough, Admitted, Seen, Detected,
      WithDecryptor;
    assert [] + data == data;
    HeldPut(cfg, Session(NEW_STATE, unit, 0, []), data, 0);
    var s, id, p, q := AdmitsIt(cfg, roles, unit, o, open, data, xs, tail);
    if Enough(cfg, o, xs, open) {
      AllPass(cfg, roles, unit, o, s, id, p, q, open, data, 0, xs, tail);
      var s' := Scan(cfg, unit, s, data, 0).state;
      StaysAdmitted(cfg, roles, o, s, s', id, p, q, open);
    }
  }

  /** Whether something is to be searched for is a matter of the tables and ECMs
      that have come. */
  lemma StaysAdmitted(cfg: Config, roles: Roles, o: Programme, s: State, s': State, id: nat, p: nat, q: nat, open: bool)
    requires |o.ecmSection| >= 3 && InEcms(cfg, roles, o, s, id, p, q, open) && InEcms(cfg, roles, o, s', id, p, q, open)
    ensures Admitted(s') == Admitted(s) && WithDecryptor(cfg, roles, o, s', id, open) && |s'.ecmCalls| == |s.ecmCalls|
  {
    hide TablesKnown, EcmPhase, EcmComplete, PmtComplete, OtherEcm, MajorOf, StreamsOf, Settled, KeysFor, NewPrograms;
    EcmPhaseComplete(cfg, o, s.links, id, q);
    EcmPhaseComplete(cfg, o, s'.links, id, q);
    PmtPhaseComplete(o, s, p);
    PmtPhaseComplete(o, s', p);
  }

  // ------------------------------------------------------------------- pieces

  /** The beginning of a stream of packets is one. */
  lemma {:induction false} HoldsPart(data: seq<byte>, n: nat, unit: nat, xs: seq<Sent>, tail: seq<byte>)
    returns (k: nat, start: seq<byte>)
    requires 188 <= unit && Holds(data, unit, xs, tail) && 0 < n <= |data|
    ensures k <= |xs| && Holds(data[..n], unit, xs[..k], start)
    decreases |xs|
  {
    hide OnAir;
    HoldsOn(data, unit, xs, tail);
    if n <= unit || xs == [] {
      k, start := 0, data[..n];
    } else {
      var j;
      j, start := HoldsPart(data[unit..], n - unit, unit, xs[1..], tail);
      k := j + 1;
      assert data[unit..][..n - unit] == data[..n][unit..] && xs[..k][1..] == xs[1..][..j];
      assert data[..n][..188] == data[..188];
    }
  }

  lemma SomeOfAll(cfg: Config, roles: Roles, o: Programme, xs: seq<Sent>, k: nat, open: bool)
    requires |o.ecmSection| >= 3 && k <= |xs| && AllOf(cfg, roles, o, xs) && AllKeyed(cfg, o, xs, open)
    ensures AllOf(cfg, roles, o, xs[..k]) && AllKeyed(cfg, o, xs[..k], open)
  {
    hide OfProgramme, Keyed;
  }

  lemma NothingIsSmooth(cfg: Config, unit: nat)
    requires 188 <= unit
    ensures Smooth(cfg, Session(NEW_STATE, unit, 0, []), [], 0)
  {
  }

  lemma {:induction false} FlattenStart(chunks: seq<seq<byte>>, i: nat)
    requires i <= |chunks|
    ensures Flatten(chunks[..i]) <= Flatten(chunks)
    decreases |chunks|
  {
    if i > 0 {
      FlattenStart(chunks[1..], i - 1);
      assert chunks[..i][1..] == chunks[1..][..i - 1];
    }
  }

  /** However it is cut into pieces. */
  lemma PutsOfAll(cfg: Config, roles: Roles, unit: nat, o: Programme, open: bool, chunks: seq<seq<byte>>, xs: seq<Sent>,
      tail: seq<byte>)
    requires 188 <= unit && TunesTo(chunks, unit)
    requires Coherent(cfg, roles, o) && |o.ecmSection| >= 3 && Answers(cfg, o.ecmSection, open)
    requires AllOf(cfg, roles, o, xs) && AllKeyed(cfg, o, xs, open) && Holds(Flatten(chunks), unit, xs, tail)
    ensures ComesTo(cfg, roles, unit, o, open, Flatten(chunks), xs, tail, Puts(cfg, Called(Session(NEW_STATE, 0, 0, []), [], 0), chunks, 0))
  {
    hide Puts, PutCall, Smooth, TunesTo, Coherent, AllOf, AllKeyed, Holds, Answers, Reaches, Enough, Admitted, Seen, Flatten,
      WithDecryptor;
    var data := Flatten(chunks);
    forall i | 0 < i < |chunks| ensures Smooth(cfg, Session(NEW_STATE, unit, 0, []), Flatten(chunks[..i]), 0) {
      FlattenStart(chunks, i);
      var a := Flatten(chunks[..i]);
      assert a == data[..|a|];
      if a == [] {
        NothingIsSmooth(cfg, unit);
      } else {
        var k, start := HoldsPart(data, |a|, unit, xs, tail);
        SomeOfAll(cfg, roles, o, xs, k, open);
        PutOfAll(cfg, roles, unit, o, open, a, xs[..k], start);
      }
    }
    NewIsNotPending();
    PutsFromTheStart(cfg, unit, NEW_STATE, chunks);
    PutOfAll(cfg, roles, unit, o, open, data, xs, tail);
  }

  lemma NewIsNotPending()
    ensures NonePending(NEW_STATE)
  {
  }

  // ------------------------------------------------------ what the viewer gets

  /** A new descrambler, a stream of one programme with its tables and ECMs, and a
      card that pays for it. However the stream is cut into pieces: if the PAT is in
      it, the ECM, and the PMT - twice if there are other programs, as the ECM if
      there are other ECM PIDs - then every packet comes out, clear, in its place,
      those before the first ECM too. Otherwise nothing comes out at all and every
      byte is kept. The card is asked once, or not at all if it is not reached. */
  lemma FirstByteToClear(cfg: Config, roles: Roles, unit: nat, o: Programme, chunks: seq<seq<byte>>, xs: seq<Sent>,
      tail: seq<byte>)
    requires 188 <= unit && TunesTo(chunks, unit) && Holds(Flatten(chunks), unit, xs, tail)
    requires Coherent(cfg, roles, o) && |o.ecmSection| >= 3 && Pays(cfg, o.ecmSection)
    requires forall x | x in xs :: OfProgramme(cfg, roles, o, x) && (x.selector > 0 ==> x.keys == KeysFor(cfg, o))
    ensures var r := Puts(cfg, Called(Session(NEW_STATE, 0, 0, []), [], 0), chunks, 0);
      && (if Enough(cfg, o, xs, true) then r.out == Clear(xs, unit, 0) && r.session.rest == tail
          else r.out == [] && r.session.rest == Flatten(chunks))
      && |r.session.core.ecmCalls| == if Reaches(cfg, o, xs) then 1 else 0
  {
    hide Puts, TunesTo, Coherent, Holds, Reaches, Enough, Flatten, OfProgramme, Pays, Seen, Clear, Admitted, WithDecryptor;
    PutsOfAll(cfg, roles, unit, o, true, chunks, xs, tail);
    ClearIsSeen(xs, unit, 0);
  }

  lemma {:induction false} ClearIsSeen(xs: seq<Sent>, unit: nat, at: nat)
    ensures Seen(true, xs, unit, at) == Clear(xs, unit, at)
    decreases |xs|
  {
    if xs != [] {
      ClearIsSeen(xs[1..], unit, at + unit);
    }
  }

  /** Locked, and bound to a stream. */
  predicate HoldsBack(l: Links, pid: Pid, id: nat) {
    BoundTo(l, pid) == Some(id) && l.decs[id].locked == 1 && l.decs[id].m2 == None
  }

  /** The same stream for a card that declines: the same packets come out, but as
      they are on air, and every stream that shares the program's ECMs is bound to
      one decryptor, which is locked. */
  lemma DeclinedProgrammeIsLocked(cfg: Config, roles: Roles, unit: nat, o: Programme, chunks: seq<seq<byte>>, xs: seq<Sent>,
      tail: seq<byte>) returns (id: nat)
    requires 188 <= unit && TunesTo(chunks, unit) && Holds(Flatten(chunks), unit, xs, tail)
    requires Coherent(cfg, roles, o) && |o.ecmSection| >= 3 && Declines(cfg, o.ecmSection)
    requires forall x | x in xs :: OfProgramme(cfg, roles, o, x)
    ensures var r := Puts(cfg, Called(Session(NEW_STATE, 0, 0, []), [], 0), chunks, 0);
      var s := r.session.core;
      && (if Enough(cfg, o, xs, false)
          then r.out == Seen(false, xs, unit, 0) && r.session.rest == tail && Admitted(s) && GraphRuns.AllFit(roles, s.tables)
               && forall pid: Pid | Shares(StreamsOf(cfg, o), pid) :: HoldsBack(s.links, pid, id)
          else r.out == [] && r.session.rest == Flatten(chunks))
      && |s.ecmCalls| == if Reaches(cfg, o, xs) then 1 else 0
  {
    hide Puts, TunesTo, Coherent, Holds, Reaches, Enough, Flatten, OfProgramme, Declines, Seen, Admitted, StreamsOf, Shares,
      BoundTo, GraphRuns.AllFit, WithDecryptor, HoldsBack;
    PutsOfAll(cfg, roles, unit, o, false, chunks, xs, tail);
    id := 0;
    if Enough(cfg, o, xs, false) {
      var s := Puts(cfg, Called(Session(NEW_STATE, 0, 0, []), [], 0), chunks, 0).session.core;
      id :| WithDecryptor(cfg, roles, o, s, id, false);
      DecryptorHoldsBack(cfg, roles, o, s, id);
    }
  }

  /** What the card says of the ECM decides: with one of three return codes the
      programme comes out clear, with any other one as it is on air. */
  lemma ReturnCodeDecides(cfg: Config, roles: Roles, unit: nat, o: Programme, chunks: seq<seq<byte>>, xs: seq<Sent>,
      tail: seq<byte>)
    requires 188 <= unit && TunesTo(chunks, unit) && Holds(Flatten(chunks), unit, xs, tail)
    requires Coherent(cfg, roles, o) && |o.ecmSection| >= 3 && o.ecmSection[0] == 0x82 && Tables.Body(o.ecmSection) != []
    requires cfg.hasCard && cfg.ecm(0, Tables.Body(o.ecmSection)).status >= 0 && 0 <= cfg.init(1).status <= 1
    requires Reaches(cfg, o, xs) && Times(cfg, o, xs, EcmPart) >= EcmsNeeded(cfg, o)
    requires forall x | x in xs :: OfProgramme(cfg, roles, o, x) && (x.selector > 0 ==> x.keys == KeysFor(cfg, o))
    ensures var code := cfg.ecm(0, Tables.Body(o.ecmSection)).returnCode;
      Puts(cfg, Called(Session(NEW_STATE, 0, 0, []), [], 0), chunks, 0).out
      == if code == 0x0800 || code == 0x0400 || code == 0x0200 then Clear(xs, unit, 0) else Seen(false, xs, unit, 0)
  {
    hide Puts, TunesTo, Coherent, Holds, Reaches, Flatten, OfProgramme, Seen, Clear, Times, EcmsNeeded, Tables.Body, KeysFor,
      Admitted, StreamsOf, Shares, GraphRuns.AllFit, HoldsBack;
    var code := cfg.ecm(0, Tables.Body(o.ecmSection)).returnCode;
    if code == 0x0800 || code == 0x0400 || code == 0x0200 {
      FirstByteToClear(cfg, roles, unit, o, chunks, xs, tail);
    } else {
      var id := DeclinedProgrammeIsLocked(cfg, roles, unit, o, chunks, xs, tail);
    }
  }

  lemma DecryptorHoldsBack(cfg: Config, roles: Roles, o: Programme, s: State, id: nat)
    requires |o.ecmSection| >= 3 && WithDecryptor(cfg, roles, o, s, id, false)
    ensures forall pid: Pid | Shares(StreamsOf(cfg, o), pid) :: HoldsBack(s.links, pid, id)
    ensures GraphRuns.AllFit(roles, s.tables)
  {
    hide Settled, MajorOf, StreamsOf, Shares, BoundTo, LeadsTo, GraphRuns.AllFit;
  }
}
