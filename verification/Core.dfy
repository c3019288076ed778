// What one transport packet does to the descrambler: which decryptor, parser
// and counter it reaches, and what the sections it completes change.

module Core {
  import opened Bytes
  import opened SectionModel
  import opened PidGraph
  import PidInvariant
  import Multi2
  import Tables

  const PACKET := 188

  type Packet188 = p: seq<byte> | |p| == 188 witness seq(188, _ => 0)

  const ERROR_NO_ENOUGH_MEMORY := -2
  const ERROR_EMPTY_B_CAS_CARD := -7
  const ERROR_INVALID_B_CAS_STATUS := -8
  const ERROR_ECM_PROC_FAILURE := -9
  const ERROR_DECRYPT_FAILURE := -10
  const ERROR_PAT_PARSE_FAILURE := -11
  const ERROR_PMT_PARSE_FAILURE := -12
  const ERROR_ECM_PARSE_FAILURE := -13
  const ERROR_CAT_PARSE_FAILURE := -14
  const ERROR_EMM_PARSE_FAILURE := -15
  const ERROR_EMM_PROC_FAILURE := -16
  const WARN_UNPURCHASED_ECM := 1
  const WARN_TS_SECTION_ID_MISMATCH := 2

  // Not a code of the program: a PMT whose stream loop overruns its section,
  // or a map entry that two roles share, has no defined effect.
  const UNDEFINED := -100

  // ------------------------------------------------------------ the smart card

  type Key32 = s: seq<byte> | |s| == 32 witness seq(32, _ => 0)
  type Key16 = s: seq<byte> | |s| == 16 witness seq(16, _ => 0)
  type Key8 = s: seq<byte> | |s| == 8 witness seq(8, _ => 0)

  datatype EcmReply = EcmReply(status: int, returnCode: int, key: Key16)
  datatype InitReply = InitReply(status: int, systemKey: Key32, initCbc: Key8)

  /** The settings, and the card: any function from the number of calls made
      before and the data of this one to a reply. casIds are the ids of
      the card. */
  datatype Config = Config(
    strip: bool,
    emmOn: bool,
    round: int,
    caSystemId: int,
    casIds: seq<int>,
    hasCard: bool,
    ecm: (nat, seq<byte>) -> EcmReply,
    emm: (nat, seq<byte>) -> int,
    init: nat -> InitReply)

  predicate Purchased(returnCode: int) {
    returnCode == 0x0800 || returnCode == 0x0400 || returnCode == 0x0200
  }

  // ------------------------------------------------------------ the state

  /** An ECM that the card was asked about, for the decryptor id; it was refused
      when the card answered that it is not paid for. */
  datatype EcmCall = EcmCall(id: nat, refused: bool)

  /** An EMM that was passed to the card, and the status that came back. */
  datatype EmmCall = EmmCall(element: seq<byte>, status: int)

  /** The last three fields are the history of a run: the ECMs and the EMMs that
      went to the card, and the tables that took effect. */
  datatype State = State(
    links: Links,
    programs: seq<Program>,
    pat: Option<Parser>,
    cat: Option<Parser>,
    emm: Option<Parser>,
    emmPid: Pid,
    ecmCalls: seq<EcmCall>,
    emmCalls: seq<EmmCall>,
    tables: seq<PidInvariant.Table>)

  const NEW_STATE := State(PidInvariant.NEW_LINKS, [], None, None, None, 0, [], [], [])

  /** The parser there is, or a new one. */
  function ParserOf(p: Option<Parser>): Parser {
    if p.Some? then p.value else NEW_PARSER
  }

  /** A table takes effect on the graph. */
  function Applied(s: State, t: PidInvariant.Table): State {
    var (l, ps) := PidInvariant.Apply(s.links, s.programs, t);
    s.(links := l, programs := ps, tables := s.tables + [t])
  }

  function WithDec(s: State, id: nat, d: Dec): State {
    s.(links := s.links.(decs := s.links.decs[id := d]))
  }

  // ---------------------------------------------------------- the TS header

  function Transport(p: Packet188): int { p[1] as int / 128 }
  function UnitStart(p: Packet188): bool { p[1] as int / 64 % 2 == 1 }
  function PidOf(p: Packet188): Pid { p[1] as int % 32 * 256 + p[2] as int }
  function Scrambling(p: Packet188): int { p[3] as int / 64 }
  predicate HasAdaptation(p: Packet188) { p[3] as int / 32 % 2 == 1 }
  predicate HasPayload(p: Packet188) { p[3] as int / 16 % 2 == 1 }

  /** Offset of the payload, behind the adaptation field if there is one. */
  function PayloadAt(p: Packet188): nat {
    if HasAdaptation(p) then 4 + p[4] as int + 1 else 4
  }

  predicate BrokenPacket(p: Packet188) {
    PayloadAt(p) > PACKET || (PayloadAt(p) == PACKET && HasPayload(p))
  }

  /** The code that a packet leaves behind: none when no section was handled. A
      negative one ends the loop. */
  predicate Bad(code: Option<int>) {
    code.Some? && code.value < 0
  }

  function Given(code: Option<int>): int {
    if code.Some? then code.value else 0
  }

  // ------------------------------------------------------------ ECM sections

  /** proc_ecm, after the section raw has been fetched. */
  function EcmSection(cfg: Config, s: State, id: nat, raw: seq<byte>): (State, int)
    requires id in s.links.decs && |raw| >= 3
  {
    var d := s.links.decs[id];
    if raw[0] != 0x82 then (s, WARN_TS_SECTION_ID_MISMATCH)
    else if d.locked != 0 then (WithDec(s, id, d.(unpurchased := d.unpurchased + 1)), WARN_UNPURCHASED_ECM)
    else
      var reply := cfg.ecm(|s.ecmCalls|, Tables.Body(raw));
      var refused := Tables.Body(raw) != [] && reply.status >= 0 && !Purchased(reply.returnCode);
      var s1 := s.(ecmCalls := s.ecmCalls + [EcmCall(id, refused)]);
      if Tables.Body(raw) == [] || reply.status < 0 then
        var m2 := if d.m2.Some? then Some(d.m2.value.WithoutScrambleKey()) else None;
        (WithDec(s1, id, d.(m2 := m2)), ERROR_ECM_PROC_FAILURE)
      else if refused then
        (WithDec(s1, id, d.(m2 := None, unpurchased := d.unpurchased + 1, lastError := reply.returnCode,
                            locked := d.locked + 1)), WARN_UNPURCHASED_ECM)
      else if d.m2.Some? then
        (WithDec(s1, id, d.(m2 := Some(d.m2.value.WithScrambleKey(reply.key)))), reply.status)
      else
        var start := cfg.init(|s1.ecmCalls|);
        if start.status < 0 then
          (WithDec(s1, id, d.(m2 := Some(Multi2.NEW_KEYS))), ERROR_INVALID_B_CAS_STATUS)
        else
          var k := Multi2.NEW_KEYS.WithSystemKey(start.systemKey).WithInitCbc(start.initCbc).(round := cfg.round);
          (WithDec(s1, id, d.(m2 := Some(k.WithScrambleKey(reply.key)))), start.status)
  }

  /** proc_ecm */
  function ProcEcm(cfg: Config, s: State, id: nat): (State, int)
    requires id in s.links.decs
  {
    if !cfg.hasCard then (s, ERROR_EMPTY_B_CAS_CARD)
    else
      var (ecm, got) := Get(s.links.decs[id].ecm);
      if got.None? || |got.value| < 3 then (s, ERROR_ECM_PARSE_FAILURE)
      else EcmSection(cfg, WithDec(s, id, s.links.decs[id].(ecm := ecm)), id, got.value)
  }

  /** An ECM packet: its payload goes to the section parser of the decryptor. */
  function EcmPacket(cfg: Config, s: State, id: nat, p: Packet): (State, Option<int>)
    requires id in s.links.decs
  {
    var d := s.links.decs[id];
    var (ecm, m) := Put(d.ecm, p);
    var s1 := WithDec(s, id, d.(ecm := ecm));
    if m < 0 then (s1, Some(ERROR_ECM_PARSE_FAILURE))
    else if ecm.queue == [] then (s1, None)
    else
      var (s2, r) := ProcEcm(cfg, s1, id);
      (s2, Some(r))
  }

  // ------------------------------------------------------------ EMM sections

  function CardId(data: seq<byte>): int
    requires |data| >= 6
  {
    Be16(data[0], data[1]) * 0x100000000 + Be16(data[2], data[3]) * 0x10000 + Be16(data[4], data[5])
  }

  lemma CardIdIsNumber(data: seq<byte>)
    requires |data| >= 6
    ensures CardId(data) == Number(data[..6])
  {
    assert data[..6] == [data[0], data[1], data[2], data[3], data[4], data[5]];
    NumberOfSix(data[0], data[1], data[2], data[3], data[4], data[5]);
  }

  /** unlock_all_decryptor */
  function UnlockAll(l: Links): Links {
    l.(decs := map id | id in l.decs :: l.decs[id].(locked := 0))
  }

  /** An EMM for this card is passed on once for every id that it matches. */
  function EmmForIds(cfg: Config, s: State, element: seq<byte>, ids: seq<int>): (State, int)
    requires |element| >= 6
    decreases |ids|
  {
    if ids == [] then (s, 0)
    else if ids[0] != CardId(element) then EmmForIds(cfg, s, element, ids[1..])
    else
      var n := cfg.emm(|s.emmCalls|, element);
      var s1 := s.(emmCalls := s.emmCalls + [EmmCall(element, n)]);
      if n < 0 then (s1, ERROR_EMM_PROC_FAILURE)
      else EmmForIds(cfg, s1.(links := UnlockAll(s1.links)), element, ids[1..])
  }

  /** The EMMs of a section; a broken one ends it. */
  function EmmElements(cfg: Config, s: State, data: seq<byte>): (State, int)
    decreases |data|
  {
    if |data| < 13 then (s, 0)
    else
      var len := data[6] as int + 7;
      if len > |data| then (s, 0)
      else
        var (s1, r) := EmmForIds(cfg, s, data[..len], cfg.casIds);
        if r < 0 then (s1, r) else EmmElements(cfg, s1, data[len..])
  }

  /** proc_emm, from one fetched section to the next. */
  function ProcEmm(cfg: Config, s: State, emm: Parser): (State, Parser, int)
    decreases |emm.queue|
  {
    if emm.queue == [] then (s, emm, 0)
    else
      var (emm', got) := Get(emm);
      var raw := got.value;
      if |raw| < 3 then (s, emm', ERROR_CAT_PARSE_FAILURE)
      else if raw[0] == 0x85 then ProcEmm(cfg, s, emm')
      else if raw[0] != 0x84 then (s, emm', WARN_TS_SECTION_ID_MISMATCH)
      else
        var (s1, r) := EmmElements(cfg, s, Tables.Body(raw));
        if r < 0 then (s1, emm', r) else ProcEmm(cfg, s1, emm')
  }

  function EmmPacket(cfg: Config, s: State, p: Packet): (State, Option<int>) {
    if !cfg.emmOn then (s, None)
    else
      var (emm, m) := Put(ParserOf(s.emm), p);
      var s1 := s.(emm := Some(emm));
      if m < 0 then (s1, Some(ERROR_EMM_PARSE_FAILURE))
      else if emm.queue == [] then (s1, None)
      else if !cfg.hasCard then (s1, Some(ERROR_EMPTY_B_CAS_CARD))
      else
        var (s2, emm2, r) := ProcEmm(cfg, s1, emm);
        (s2.(emm := Some(emm2)), Some(r))
  }

  // ------------------------------------------------- PMT, CAT and PAT sections

  /** proc_pmt; it returns 0 whatever it finds. */
  function PmtSection(cfg: Config, s: State, i: nat, raw: seq<byte>): (State, int)
    requires i < |s.programs| && |raw| >= 3
  {
    if raw[0] != 0x02 then (s, 0)
    else
      match Tables.ReadPmt(raw, cfg.caSystemId)
      case BrokenPmt => (s, 0)
      case OverrunPmt => (s, UNDEFINED)
      case PmtRead(major, ess) => (Applied(s, PidInvariant.PmtTable(i, major, ess)), 0)
  }

  function WithPmt(s: State, i: nat, pmt: Parser): State
    requires i < |s.programs|
  {
    s.(programs := s.programs[i := s.programs[i].(pmt := pmt)])
  }

  /** proc_pmt, after the section has been queued in pmt. */
  function ProcPmt(cfg: Config, s: State, i: nat, pmt: Parser): (State, int)
    requires i < |s.programs| && pmt.queue != []
  {
    var (pmt', got) := Get(pmt);
    var s1 := WithPmt(s, i, pmt');
    if |got.value| < 3 then (s1, ERROR_PMT_PARSE_FAILURE) else PmtSection(cfg, s1, i, got.value)
  }

  function PmtPacket(cfg: Config, s: State, i: nat, p: Packet): (State, Option<int>)
    requires i < |s.programs|
  {
    var (pmt, m) := Put(s.programs[i].pmt, p);
    if m < 0 then (WithPmt(s, i, pmt), Some(ERROR_PMT_PARSE_FAILURE))
    else if pmt.queue == [] then (WithPmt(s, i, pmt), None)
    else
      var (s1, r) := ProcPmt(cfg, s, i, pmt);
      (s1, Some(r))
  }

  /** proc_cat, after the section has been queued in cat. */
  function ProcCat(cfg: Config, s: State, cat: Parser): (State, int)
    requires cat.queue != []
  {
    var (cat', got) := Get(cat);
    var s1, raw := s.(cat := Some(cat')), got.value;
    if |raw| < 3 then (s1, ERROR_CAT_PARSE_FAILURE)
    else if raw[0] != 0x01 then (s1, WARN_TS_SECTION_ID_MISMATCH)
    else
      var emm := Tables.FindCa(Tables.Body(raw), cfg.caSystemId);
      (Applied(s1, PidInvariant.CatTable(emm)).(emmPid := if Real(emm) then emm else s1.emmPid), 0)
  }

  function CatPacket(cfg: Config, s: State, p: Packet): (State, Option<int>) {
    var (cat, m) := Put(ParserOf(s.cat), p);
    if m < 0 then (s.(cat := Some(cat)), Some(ERROR_CAT_PARSE_FAILURE))
    else if cat.queue == [] then (s.(cat := Some(cat)), None)
    else
      var (s1, r) := ProcCat(cfg, s, cat);
      (s1, Some(r))
  }

  /** proc_pat, after the section has been queued in pat. */
  function ProcPat(s: State, pat: Parser): (State, int)
    requires pat.queue != []
  {
    var (pat', got) := Get(pat);
    var s1, raw := s.(pat := Some(pat')), got.value;
    if |raw| < 3 then (s1, ERROR_PAT_PARSE_FAILURE)
    else if raw[0] != 0x00 then (s1, WARN_TS_SECTION_ID_MISMATCH)
    else if Tables.PatTooShort(raw) then (s1, ERROR_NO_ENOUGH_MEMORY)
    else (Applied(s1, PidInvariant.PatTable(Tables.ReadPat(Tables.Body(raw)))), 0)
  }

  /** A packet of the PAT; the flag says that a section was fetched, which
      leaves the packet loop whatever became of it. */
  function PatPacket(s: State, p: Packet): (State, Option<int>, bool) {
    var (pat, m) := Put(ParserOf(s.pat), p);
    if m < 0 then (s.(pat := Some(pat)), Some(ERROR_PAT_PARSE_FAILURE), false)
    else if pat.queue == [] then (s.(pat := Some(pat)), None, false)
    else
      var (s1, r) := ProcPat(s, pat);
      (s1, Some(r), true)
  }

  // ---------------------------------------------------------- one packet

  /** The decryptor for a scrambled packet: the one its PID is bound to, or the
      only one there is when nothing is known about the PID. */
  function Chosen(l: Links, pid: Pid): Option<nat> {
    var e := l.pm[pid];
    if e.kind == Other then
      if e.target.Decryptor? && e.target.id in l.decs then Some(e.target.id) else None
    else if e.kind == Unknown && |l.order| == 1 && l.order[0] in l.decs then Some(l.order[0])
    else None
  }

  function Counted(s: State, pid: Pid, normal: nat, undecrypted: nat): State {
    var e := s.links.pm[pid];
    s.(links := s.links.(pm := s.links.pm[
         pid := e.(normal := e.normal + normal, undecrypted := e.undecrypted + undecrypted)]))
  }

  /** The scrambling control bits cleared. */
  function Unmarked(p: Packet188): Packet188 {
    p[3 := p[3] & 0x3f]
  }

  /** What happens to the packet itself: counted, and descrambled if it can be.
      A negative code leaves the loop. */
  function Descramble(s: State, p: Packet188): (State, Packet188, int) {
    var pid, at := PidOf(p), PayloadAt(p);
    if Scrambling(p) == 0 || !HasPayload(p) || at > PACKET then (Counted(s, pid, 1, 0), p, 0)
    else
      var dec := Chosen(s.links, pid);
      if dec.None? || s.links.decs[dec.value].m2.None? then (Counted(s, pid, 0, 1), p, 0)
      else
        var k := s.links.decs[dec.value].m2.value;
        if k.Check(PACKET - at) < 0 then (s, p, ERROR_DECRYPT_FAILURE)
        else (Counted(s, pid, 1, 0), Unmarked(p[..at] + k.Decrypted(Scrambling(p), p[at..])), 0)
  }

  /** A packet as its section parser sees it. */
  function PutOf(p: Packet188): Packet {
    Packet(PidOf(p), UnitStart(p), if PayloadAt(p) <= PACKET then p[PayloadAt(p)..] else [])
  }

  /** What the payload does, once the packet is in the output. */
  function Dispatch(cfg: Config, s: State, p: Packet188): (State, Option<int>, bool) {
    var pid := PidOf(p);
    var e := s.links.pm[pid];
    var put := PutOf(p);
    if e.kind == Ecm then
      if e.target.Decryptor? && e.target.id in s.links.decs then
        var (s1, r) := EcmPacket(cfg, s, e.target.id, put);
        (s1, r, false)
      else (s, Some(ERROR_ECM_PARSE_FAILURE), false)
    else if e.kind == Pmt then
      if e.target.ProgramAt? && e.target.index < |s.programs| then
        var (s1, r) := PmtPacket(cfg, s, e.target.index, put);
        (s1, r, false)
      else (s, Some(ERROR_PMT_PARSE_FAILURE), false)
    else if e.kind == Emm then
      var (s1, r) := EmmPacket(cfg, s, put);
      (s1, r, false)
    else if pid == 1 then
      var (s1, r) := CatPacket(cfg, s, put);
      (s1, r, false)
    else if pid == 0 then PatPacket(s, put)
    else (s, None, false)
  }

  /** What the packet loop does with one packet. */
  datatype Step =
    | Skip
    | Next(state: State, out: Option<Packet188>, last: Option<int>)
    | Stop(state: State, out: Option<Packet188>, held: Packet188, code: int)

  function Handle(cfg: Config, s: State, p: Packet188): Step {
    if Transport(p) != 0 then Next(s, Some(p), None)
    else if PidOf(p) == 0x1fff && cfg.strip then Next(s, None, None)
    else if BrokenPacket(p) then Skip
    else
      var (s1, q, r) := Descramble(s, p);
      if r < 0 then Stop(s1, None, q, r)
      else
        var (s2, r2, leave) := Dispatch(cfg, s1, q);
        if Bad(r2) || leave then Stop(s2, Some(q), q, Given(r2)) else Next(s2, Some(q), r2)
  }
}
