// What a put does before it comes to the packet loop: it detects the packet
// distance, and looks ahead for a PAT, for PMTs and for ECMs. As long as one of
// them is missing the bytes are only collected.

module Search {
  import opened Bytes
  import opened SectionModel
  import opened PidGraph
  import opened Core
  import opened Framing
  import UnitSize
  import WorkBuffers

  const ERROR_NON_TS_INPUT_STREAM := -3
  const ERROR_NO_PAT_IN_HEAD_16M := -4
  const ERROR_NO_PMT_IN_HEAD_32M := -5
  const ERROR_NO_ECM_IN_HEAD_32M := -6

  const PAT_LIMIT := 16 * 1024 * 1024
  const PMT_LIMIT := 32 * 1024 * 1024
  const ECM_LIMIT := 32 * 1024 * 1024

  // ------------------------------------------------------- what is complete

  /** check_pmt_complete: some program has sent a second PMT, or all have sent
      one. */
  predicate PmtComplete(ps: seq<Program>) {
    (exists i | 0 <= i < |ps| :: ps[i].phase >= 2) || (forall i | 0 <= i < |ps| :: ps[i].phase != 0)
  }

  function PhaseOf(l: Links, id: nat): nat {
    if id in l.decs then l.decs[id].phase else 0
  }

  /** check_ecm_complete: the same of the decryptors and their ECMs. */
  predicate EcmComplete(l: Links) {
    || (exists i | 0 <= i < |l.order| :: PhaseOf(l, l.order[i]) >= 2)
    || (forall i | 0 <= i < |l.order| :: PhaseOf(l, l.order[i]) != 0)
  }

  function WithPhase(s: State, i: nat, phase: nat): State {
    if i < |s.programs| then s.(programs := s.programs[i := s.programs[i].(phase := phase)]) else s
  }

  function WithDecPhase(s: State, id: nat, phase: nat): State {
    if id in s.links.decs then WithDec(s, id, s.links.decs[id].(phase := phase)) else s
  }

  // ------------------------------------------------------------- one packet

  datatype Hunt = ForPat | ForPmt | ForEcm

  /** What a search makes of a packet. When it is done the search ends behind it;
      of the code only its sign is ever looked at. */
  datatype Look = Look(state: State, done: bool, code: int)

  /** No byte is left for a payload. */
  predicate Bare(p: Packet188) {
    PayloadAt(p) >= PACKET
  }

  function LookForPat(s: State, p: Packet188): Look {
    if PidOf(p) != 0 || Bare(p) then Look(s, false, 0)
    else
      var (pat, m) := Put(ParserOf(s.pat), PutOf(p));
      var s1 := s.(pat := Some(pat));
      if m < 0 then Look(s1, true, ERROR_PAT_PARSE_FAILURE) else Look(s1, pat.queue != [], 0)
  }

  /** The program that a PID is read for. */
  function ProgramOf(s: State, pid: Pid): Option<nat> {
    var e := s.links.pm[pid];
    if e.kind == Pmt && e.target.ProgramAt? && e.target.index < |s.programs| then Some(e.target.index) else None
  }

  /** The decryptor that a PID is read for. */
  function ReaderOf(l: Links, pid: Pid): Option<nat> {
    var e := l.pm[pid];
    if e.kind == Ecm && e.target.Decryptor? && e.target.id in l.decs then Some(e.target.id) else None
  }

  function LookForPmt(cfg: Config, s: State, p: Packet188): Look {
    var i := ProgramOf(s, PidOf(p));
    if i.None? then Look(s, false, 0)
    else if s.programs[i.value].phase != 0 then Look(WithPhase(s, i.value, 2), true, 0)
    else if Bare(p) then Look(s, false, 0)
    else
      var (s1, r) := PmtPacket(cfg, s, i.value, PutOf(p));
      if Bad(r) then Look(s1, true, r.value)
      else if r != Some(0) then Look(s1, false, 0)
      else
        var s2 := WithPhase(s1, i.value, 1);
        Look(s2, PmtComplete(s2.programs), 0)
  }

  function LookForEcm(cfg: Config, s: State, p: Packet188): Look {
    var id := ReaderOf(s.links, PidOf(p));
    if id.None? then Look(s, false, 0)
    else if s.links.decs[id.value].phase != 0 then Look(WithDecPhase(s, id.value, 2), true, 0)
    else if Bare(p) then Look(s, false, 0)
    else
      var (s1, r) := EcmPacket(cfg, s, id.value, PutOf(p));
      if Bad(r) then Look(s1, true, r.value)
      else if r.None? || (r.value > 0 && r.value != WARN_UNPURCHASED_ECM) then Look(s1, false, 0)
      else
        var s2 := WithDecPhase(s1, id.value, 1);
        Look(s2, EcmComplete(s2.links), 0)
  }

  function LookAt(cfg: Config, hunt: Hunt, s: State, p: Packet188): Look {
    match hunt
    case ForPat => LookForPat(s, p)
    case ForPmt => LookForPmt(cfg, s, p)
    case ForEcm => LookForEcm(cfg, s, p)
  }

  // ------------------------------------------------------------- the searches

  /** The state, where in the buffer to go on, whether the search ended with a
      packet or for want of bytes, and the code. */
  datatype Searched = Searched(state: State, offset: nat, done: bool, code: int)

  /** The loop of find_pat, find_pmt and find_ecm over the bytes in hand. */
  function Sweep(cfg: Config, unit: nat, hunt: Hunt, s: State, buf: seq<byte>, from: nat): (r: Searched)
    requires 188 <= unit
    ensures from <= |buf| ==> r.offset <= |buf|
    decreases |buf| - from
  {
    if from + unit >= |buf| || Cursor(buf[from..], unit).None? then Searched(s, from, false, 0)
    else
      var at := from + Cursor(buf[from..], unit).value;
      var look := LookAt(cfg, hunt, s, buf[at..at + 188]);
      if look.done then Searched(look.state, at + unit, true, look.code)
      else Sweep(cfg, unit, hunt, look.state, buf, at + unit)
  }

  lemma SweepUnfolds(cfg: Config, unit: nat, hunt: Hunt, s: State, buf: seq<byte>, from: nat)
    requires 188 <= unit
    ensures Sweep(cfg, unit, hunt, s, buf, from) ==
      if from + unit >= |buf| || Cursor(buf[from..], unit).None? then Searched(s, from, false, 0)
      else
        var at := from + Cursor(buf[from..], unit).value;
        var look := LookAt(cfg, hunt, s, buf[at..at + 188]);
        if look.done then Searched(look.state, at + unit, true, look.code)
        else Sweep(cfg, unit, hunt, look.state, buf, at + unit)
  {
    hide LookAt, Cursor;
  }

  /** find_pat: a section that is queued afterwards is processed. */
  function FindPat(cfg: Config, unit: nat, s: State, buf: seq<byte>, from: nat): Searched
    requires 188 <= unit
  {
    var r := Sweep(cfg, unit, ForPat, s, buf, from);
    if r.state.pat.Some? && r.state.pat.value.queue != [] then
      var (s1, code) := ProcPat(r.state, r.state.pat.value);
      Searched(s1, r.offset, true, code)
    else r
  }

  // ------------------------------------------------------------- the gates

  /** Put goes on, or returns with a code. */
  datatype Gate = Through(state: State, offset: nat) | Held(state: State, offset: nat, done: bool, code: int)

  /** After a search: an error, or not enough yet, or on from the first byte. */
  function Judged(r: Searched, complete: bool, limit: nat, error: int): Gate {
    if r.code < 0 then Held(r.state, r.offset, r.done, r.code)
    else if complete then Through(r.state, 0)
    else Held(r.state, r.offset, r.done, if r.offset < limit then 0 else error)
  }

  function PatGate(cfg: Config, unit: nat, s: State, buf: seq<byte>, from: nat): Gate
    requires 188 <= unit
  {
    if |s.programs| >= 1 then Through(s, from)
    else
      var r := FindPat(cfg, unit, s, buf, from);
      Judged(r, |r.state.programs| >= 1, PAT_LIMIT, ERROR_NO_PAT_IN_HEAD_16M)
  }

  function PmtGate(cfg: Config, unit: nat, s: State, buf: seq<byte>, from: nat): Gate
    requires 188 <= unit
  {
    if PmtComplete(s.programs) then Through(s, from)
    else
      var r := Sweep(cfg, unit, ForPmt, s, buf, from);
      Judged(r, PmtComplete(r.state.programs), PMT_LIMIT, ERROR_NO_PMT_IN_HEAD_32M)
  }

  function EcmGate(cfg: Config, unit: nat, s: State, buf: seq<byte>, from: nat): Gate
    requires 188 <= unit
  {
    if EcmComplete(s.links) then Through(s, from)
    else
      var r := Sweep(cfg, unit, ForEcm, s, buf, from);
      Judged(r, EcmComplete(r.state.links), ECM_LIMIT, ERROR_NO_ECM_IN_HEAD_32M)
  }

  /** All that comes before the packet loop, once the packet distance is known. */
  function Admit(cfg: Config, unit: nat, s: State, buf: seq<byte>, from: nat): Gate
    requires 188 <= unit
  {
    match PatGate(cfg, unit, s, buf, from)
    case Held(s1, o, done, code) => Held(s1, o, done, code)
    case Through(s1, o1) =>
      match PmtGate(cfg, unit, s1, buf, o1)
      case Held(s2, o, done, code) => Held(s2, o, done, code)
      case Through(s2, o2) => EcmGate(cfg, unit, s2, buf, o2)
  }

  /** Nothing is searched for. */
  predicate Admitted(s: State) {
    |s.programs| >= 1 && PmtComplete(s.programs) && EcmComplete(s.links)
  }

  // -------------------------------------------------------------- whole puts

  /** What a descrambler keeps between calls: besides the state of the loop the
      packet distance (0 while unknown), how far the bytes in hand have been
      searched, and these bytes. */
  datatype Session = Session(core: State, unit: nat, offset: nat, rest: seq<byte>)

  /** What a put comes to. */
  datatype Called = Called(session: Session, out: seq<Emitted>, code: int)

  /** The packet distance that is found in these bytes. */
  ghost predicate Found(buf: seq<byte>, unit: nat) {
    UnitSize.MostFrequent(buf, unit) && UnitSize.Convincing(buf, unit)
  }

  ghost function Detected(buf: seq<byte>): (r: Option<nat>)
    ensures r.Some? ==> Found(buf, r.value) && 188 <= r.value
    ensures r.None? ==> forall u :: !Found(buf, u)
  {
    if u :| Found(buf, u) then Some(u) else None
  }

  lemma DetectedIs(buf: seq<byte>, u: Option<nat>)
    requires u.Some? ==> Found(buf, u.value)
    requires u.None? ==> forall v :: !Found(buf, v)
    ensures Detected(buf) == u
  {
    hide UnitSize.Pairs;
    if u.Some? {
      var v := Detected(buf).value;
      assert Found(buf, v);
    }
  }

  /** put_arib_std_b25; at bytes of the stream have left the buffer before. */
  ghost function PutCall(cfg: Config, b: Session, data: seq<byte>, at: nat): (r: Called)
    ensures |r.session.rest| <= |b.rest| + |data|
  {
    var buf := b.rest + data;
    var unit := if b.unit < 188 then Detected(buf) else Some(b.unit);
    if unit.None? then Called(b.(rest := buf), [], ERROR_NON_TS_INPUT_STREAM)
    else
      match Admit(cfg, unit.value, b.core, buf, b.offset)
      case Held(s, o, _, code) => Called(Session(s, unit.value, o, buf), [], code)
      case Through(s, o) =>
        var r := Scan(cfg, unit.value, s, buf, at);
        Called(Session(r.state, unit.value, o, r.rest), r.out, Given(r.code))
  }

  /** One put more; the output is that of both. */
  ghost function PutMore(cfg: Config, r: Called, data: seq<byte>, at: nat): Called {
    var r1 := PutCall(cfg, r.session, data, at);
    r1.(out := r.out + r1.out)
  }

  /** A put for each piece; at bytes have come before them. */
  ghost function Puts(cfg: Config, r: Called, chunks: seq<seq<byte>>, at: nat): Called
    requires |r.session.rest| <= at
    decreases |chunks|
  {
    if chunks == [] then r
    else Puts(cfg, PutMore(cfg, r, chunks[0], at - |r.session.rest|), chunks[1..], at + |chunks[0]|)
  }

  lemma {:induction false} PutsInTwo(cfg: Config, r: Called, a: seq<seq<byte>>, b: seq<seq<byte>>, at: nat)
    requires |r.session.rest| <= at
    ensures var r1, n := Puts(cfg, r, a, at), at + |WorkBuffers.Flatten(a)|;
      |r1.session.rest| <= n && Puts(cfg, r, a + b, at) == Puts(cfg, r1, b, n)
    decreases |a|
  {
    hide PutCall;
    if a == [] {
      assert a + b == b;
    } else {
      assert (a + b)[1..] == a[1..] + b;
      PutsInTwo(cfg, PutMore(cfg, r, a[0], at - |r.session.rest|), a[1..], b, at + |a[0]|);
    }
  }
}
