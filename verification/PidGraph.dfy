// The graph that PAT, PMT and CAT sections build: the PID map, the list of
// decryptors, and the stream lists of the programs, with a reference count on
// every PID and on every decryptor.

module PidGraph {
  import opened Bytes
  import opened SectionModel
  import Multi2

  const PIDS := 0x2000

  type Pid = p: nat | p < 0x2000

  /** PID_MAP_TYPE, as far as it is used. */
  datatype PidType = Unknown | Pat | Pmt | Ecm | Emm | Cat | Other

  /** A decryptor is named by the order of its creation, a program by its
      place in the program array. */
  datatype Target = NoTarget | Decryptor(id: nat) | ProgramAt(index: nat)

  datatype Entry = Entry(ref: int, kind: PidType, normal: nat, undecrypted: nat, target: Target)

  const BLANK := Entry(0, Unknown, 0, 0, NoTarget)

  type PidMap = m: seq<Entry> | |m| == 0x2000 witness seq(0x2000, _ => BLANK)

  /** DECRYPTOR_ELEM */
  datatype Dec = Dec(
    ref: int,
    phase: nat,
    ecmPid: Pid,
    locked: nat,
    ecm: Parser,
    m2: Option<Multi2.Keys>,
    unpurchased: int,
    lastError: int)

  function NewDec(pid: Pid): Dec {
    Dec(0, 0, pid, 0, NEW_PARSER, None, 0, 0)
  }

  /** The PID map, and the decryptors in list order. */
  datatype Links = Links(pm: PidMap, order: seq<nat>, decs: map<nat, Dec>, nextId: nat)

  datatype Stream = Stream(pid: Pid, kind: int)

  /** TS_PROGRAM; its phase, like that of a decryptor, says how far the search for
      the first sections has come: 1 when there was one, 2 when there were more. */
  datatype Program = Program(
    phase: nat,
    number: int,
    pmtPid: Pid,
    pmt: Parser,
    streams: seq<Stream>,
    oldStreams: seq<Stream>)

  function NewProgram(number: int, pid: Pid): Program {
    Program(0, number, pid, NEW_PARSER, [], [])
  }

  const ECM_STREAM_KIND := 0x0500

  /** A reference count of the PID map is an unsigned 32-bit number. */
  function Less(ref: int): int {
    if ref == 0 then 0xffffffff else ref - 1
  }

  // ------------------------------------------------------------ the operations

  function Without(order: seq<nat>, id: nat): seq<nat> {
    if order == [] then [] else if order[0] == id then order[1..] else [order[0]] + Without(order[1..], id)
  }

  /** remove_decryptor */
  function Remove(l: Links, id: nat): Links
    requires id in l.decs
  {
    var p := l.decs[id].ecmPid;
    var e := l.pm[p];
    var pm := if e.kind == Ecm && e.target == Decryptor(id)
                then l.pm[p := e.(kind := Unknown, target := NoTarget)] else l.pm;
    l.(pm := pm, order := Without(l.order, id), decs := l.decs - {id})
  }

  function SetRef(l: Links, id: nat, ref: int): Links
    requires id in l.decs
  {
    l.(decs := l.decs[id := l.decs[id].(ref := ref)])
  }

  /** One reference less, and the last one takes the decryptor along. */
  function Release(l: Links, id: nat): Links
    requires id in l.decs
  {
    var l1 := SetRef(l, id, l.decs[id].ref - 1);
    if l1.decs[id].ref < 1 then Remove(l1, id) else l1
  }

  /** The decryptor a stream PID is bound to, if it is one. */
  function BoundTo(l: Links, pid: Pid): Option<nat> {
    var e := l.pm[pid];
    if e.kind == Other && e.target.Decryptor? && e.target.id in l.decs then Some(e.target.id) else None
  }

  /** unref_stream */
  function Unref(l: Links, pid: Pid): Links {
    var ref := Less(l.pm[pid].ref);
    if ref < 1 then
      var l1 := if BoundTo(l, pid).Some? then Release(l, BoundTo(l, pid).value) else l;
      l1.(pm := l1.pm[pid := l1.pm[pid].(ref := 0, kind := Unknown, target := NoTarget)])
    else
      l.(pm := l.pm[pid := l.pm[pid].(ref := ref)])
  }

  /** set_decryptor: the decryptor of an ECM PID, made when there is none. */
  function SetDecryptor(l: Links, pid: Pid): (Links, nat) {
    var e := l.pm[pid];
    if e.kind == Ecm && e.target.Decryptor? then (l, e.target.id)
    else
      var id := l.nextId;
      var l1 := l.(order := l.order + [id], decs := l.decs[id := NewDec(pid)], nextId := id + 1);
      var l2 := if BoundTo(l, pid).Some? then Release(l1, BoundTo(l, pid).value) else l1;
      (l2.(pm := l2.pm[pid := l2.pm[pid].(kind := Ecm, target := Decryptor(id))]), id)
  }

  /** bind_stream_decryptor */
  function Bind(l: Links, pid: Pid, dec: Option<nat>): Links
    requires dec.Some? ==> dec.value in l.decs
  {
    var target := if dec.Some? then Decryptor(dec.value) else NoTarget;
    var before := l.pm[pid].target;
    if before == target then l
    else
      var l1 := if before.Decryptor? && before.id in l.decs then
                  var l0 := SetRef(l, before.id, l.decs[before.id].ref - 1);
                  if l0.decs[before.id].ref == 0 then Remove(l0, before.id) else l0
                else l;
      var l2 := l1.(pm := l1.pm[pid := l1.pm[pid].(target := target)]);
      if dec.Some? && dec.value in l2.decs then SetRef(l2, dec.value, l2.decs[dec.value].ref + 1) else l2
  }

  /** One more stream of a program has this PID. */
  function Count(l: Links, pid: Pid, kind: PidType): Links {
    l.(pm := l.pm[pid := l.pm[pid].(ref := l.pm[pid].ref + 1, kind := kind)])
  }

  /** add_ecm_stream: an ECM PID is listed once per program. */
  function AddEcm(l: Links, streams: seq<Stream>, pid: Pid): (Links, seq<Stream>) {
    if exists s :: s in streams && s.pid == pid then (l, streams)
    else (Count(l, pid, l.pm[pid].kind), streams + [Stream(pid, ECM_STREAM_KIND)])
  }

  function UnrefAll(l: Links, streams: seq<Stream>): Links
    decreases |streams|
  {
    if streams == [] then l else UnrefAll(Unref(l, streams[0].pid), streams[1..])
  }

  // ------------------------------------------------------------ PMT sections

  /** An entry of a PMT: stream type, PID, and the PID of its own CA
      descriptor (0 when there is none, 0x1fff for a clear stream). */
  datatype EsEntry = EsEntry(kind: int, pid: Pid, ecm: Pid)

  predicate Real(ecm: Pid) {
    ecm != 0 && ecm != 0x1fff
  }

  /** One turn of the loop over the streams of a PMT. */
  function AddStream(l: Links, streams: seq<Stream>, major: Option<nat>, es: EsEntry): (Links, seq<Stream>) {
    var (l1, own) :=
      if Real(es.ecm) then
        var (m, id) := SetDecryptor(l, es.ecm);
        (m, Some(id))
      else (l, None);
    var (l2, listed) := if Real(es.ecm) then AddEcm(l1, streams, es.ecm) else (l1, streams);
    var l3 := Count(l2, es.pid, Other);
    var active := if own.Some? then own else if es.ecm == 0x1fff then None else major;
    var l4 := if active.Some? && active.value !in l3.decs then l3 else Bind(l3, es.pid, active);
    (l4, listed + [Stream(es.pid, es.kind)])
  }

  function AddStreams(l: Links, streams: seq<Stream>, major: Option<nat>, ess: seq<EsEntry>): (Links, seq<Stream>)
    decreases |ess|
  {
    if ess == [] then (l, streams)
    else
      var (l1, listed) := AddStream(l, streams, major, ess[0]);
      AddStreams(l1, listed, major, ess[1..])
  }

  /** proc_pmt for a section whose loops have been read: the major ECM PID and
      the stream entries. The streams of the section before the last one lose
      their counts; the major decryptor is held while that happens. */
  function ApplyPmt(l: Links, p: Program, major: Pid, ess: seq<EsEntry>): (Links, Program) {
    var (l1, held) :=
      if Real(major) then
        var (m, id) := SetDecryptor(l, major);
        (if id in m.decs then SetRef(m, id, m.decs[id].ref + 1) else m, Some(id))
      else (l, None);
    var l2 := UnrefAll(l1, p.oldStreams);
    var (l3, start) := if Real(major) then AddEcm(l2, [], major) else (l2, []);
    var (l4, streams) := AddStreams(l3, start, held, ess);
    var l5 := if held.Some? && held.value in l4.decs then Release(l4, held.value) else l4;
    (l5, p.(streams := streams, oldStreams := p.streams))
  }

  // ------------------------------------------------- programs, PAT and CAT

  /** release_program, apart from freeing its section parser. */
  function ReleaseProgram(l: Links, p: Program): Links {
    var l1 := UnrefAll(UnrefAll(l, p.oldStreams), p.streams);
    l1.(pm := l1.pm[p.pmtPid := l1.pm[p.pmtPid].(ref := 0, kind := Unknown, target := NoTarget)])
  }

  function ReleasePrograms(l: Links, ps: seq<Program>): Links
    decreases |ps|
  {
    if ps == [] then l else ReleasePrograms(ReleaseProgram(l, ps[0]), ps[1..])
  }

  /** An entry of a PAT. */
  datatype PatEntry = PatEntry(number: int, pid: Pid)

  /** The programs of a PAT; number 0 is the network, not a program. */
  function NewPrograms(entries: seq<PatEntry>): seq<Program> {
    if entries == [] then []
    else if entries[0].number == 0 then NewPrograms(entries[1..])
    else [NewProgram(entries[0].number, entries[0].pid)] + NewPrograms(entries[1..])
  }

  function PmtEntries(pm: PidMap, ps: seq<Program>, at: nat): PidMap
    requires at <= |ps|
    decreases |ps| - at
  {
    if at == |ps| then pm
    else
      var p := ps[at].pmtPid;
      PmtEntries(pm[p := pm[p].(kind := Pmt, target := ProgramAt(at))], ps, at + 1)
  }

  /** proc_pat: every program is released, the map is cleared, and the programs
      of the new table are entered. */
  function ApplyPat(l: Links, ps: seq<Program>, entries: seq<PatEntry>): (Links, seq<Program>) {
    var l1 := ReleasePrograms(l, ps);
    var blank: PidMap := seq(0x2000, _ => BLANK);
    var programs := NewPrograms(entries);
    var pm := PmtEntries(blank, programs, 0);
    (l1.(pm := pm[0 := pm[0].(ref := 1, kind := Pat, target := NoTarget)]), programs)
  }

  /** proc_cat, for the EMM PID that the section names. */
  function ApplyCat(l: Links, emm: Pid): Links {
    var l1 := if Real(emm) then
                var m := if BoundTo(l, emm).Some? then Release(l, BoundTo(l, emm).value) else l;
                m.(pm := m.pm[emm := m.pm[emm].(ref := 1, kind := Emm, target := NoTarget)])
              else l;
    l1.(pm := l1.pm[1 := l1.pm[1].(ref := 1, kind := Cat, target := NoTarget)])
  }
}
