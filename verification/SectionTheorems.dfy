// What a whole run of the section parser delivers. First the run is shown to
// be three independent passes: cutting payloads into sections, checking them,
// and dropping repetitions. Then every legal way of carrying a list of
// sections in packets is shown to deliver exactly that list.

module SectionTheorems {
  import opened Bytes
  import opened SectionModel
  import Crc32

  // ------------------------------------------------------------- the passes

  /** What a payload contributes: whole sections, and sections given up. */
  datatype Piece = Whole(raw: seq<byte>) | Broken

  function CutContinue(work: seq<byte>, data: seq<byte>): (seq<Piece>, seq<byte>) {
    if work == [] then ([], [])
    else
      var all := work + data;
      if Complete(all) then ([Whole(First(all))], []) else ([], all)
  }

  function CutStarts(data: seq<byte>): (seq<Piece>, seq<byte>)
    decreases |data|
  {
    if !Complete(data) then ([], data)
    else
      var raw := First(data);
      var rest := data[|raw|..];
      if rest == [] || rest[0] == 0xff then ([Whole(raw)], [])
      else
        var (pieces, work) := CutStarts(rest);
        ([Whole(raw)] + pieces, work)
  }

  function Left(work: seq<byte>): seq<Piece> {
    if work == [] then [] else [Broken]
  }

  function CutStart(work: seq<byte>, data: seq<byte>): (seq<Piece>, seq<byte>)
    requires data != []
  {
    var pointer := data[0] as int;
    if 1 + pointer >= |data| then (Left(work), [])
    else
      var (before, work1) := if pointer > 0 then CutContinue(work, data[1..1 + pointer]) else ([], work);
      var (after, work2) := CutStarts(data[1 + pointer..]);
      (before + Left(work1) + after, work2)
  }

  function Cut(work: seq<byte>, p: Packet): (seq<Piece>, seq<byte>)
    requires p.payload != []
  {
    if p.start then CutStart(work, p.payload) else CutContinue(work, p.payload)
  }

  /** The packets a parser takes: not empty, and all of the first one's PID. */
  function Relevant(pid: int, ps: seq<Packet>): (r: seq<Packet>)
    ensures forall p | p in r :: p.payload != []
    decreases |ps|
  {
    if ps == [] then []
    else if ps[0].payload == [] || (pid >= 0 && pid != ps[0].pid) then Relevant(pid, ps[1..])
    else [ps[0]] + Relevant(ps[0].pid, ps[1..])
  }

  function CutAll(work: seq<byte>, ps: seq<Packet>): (seq<Piece>, seq<byte>)
    requires forall p | p in ps :: p.payload != []
    decreases |ps|
  {
    if ps == [] then ([], work)
    else
      var (first, work1) := Cut(work, ps[0]);
      var (rest, work2) := CutAll(work1, ps[1..]);
      (first + rest, work2)
  }

  /** Second pass: whole sections that are short or have the right CRC. */
  function Good(pieces: seq<Piece>): seq<seq<byte>> {
    if pieces == [] then []
    else
      match pieces[0]
      case Whole(raw) =>
        if |raw| >= 3 && Sound(raw) then [raw] + Good(pieces[1..]) else Good(pieces[1..])
      case Broken =>
        Good(pieces[1..])
  }

  /** Third pass: a section equal to the one just before it is dropped. */
  function Collapse(xs: seq<seq<byte>>): seq<seq<byte>> {
    if xs == [] then []
    else
      var n := |xs| - 1;
      if n > 0 && xs[n] == xs[n - 1] then Collapse(xs[..n]) else Collapse(xs[..n]) + [xs[n]]
  }

  // ---------------------------------------------------- a run is the passes

  datatype Op = PutOp(p: Packet) | GetOp

  function Packets(ops: seq<Op>): seq<Packet> {
    if ops == [] then []
    else if ops[0].PutOp? then [ops[0].p] + Packets(ops[1..]) else Packets(ops[1..])
  }

  /** The parser after some calls, and the sections the get calls returned. */
  function Run(s: Parser, ops: seq<Op>): (Parser, seq<seq<byte>>)
    decreases |ops|
  {
    if ops == [] then (s, [])
    else
      match ops[0]
      case PutOp(p) =>
        Run(Put(s, p).0, ops[1..])
      case GetOp =>
        var (s', got) := Get(s);
        var (s'', more) := Run(s', ops[1..]);
        (s'', if got.Some? then [got.value] + more else more)
  }

  lemma {:induction false} RunOneMore(s: Parser, ops: seq<Op>, op: Op)
    ensures Run(s, ops + [op]).0 == Run(Run(s, ops).0, [op]).0
    ensures Run(s, ops + [op]).1 == Run(s, ops).1 + Run(Run(s, ops).0, [op]).1
    decreases |ops|
  {
    hide Put, Get;
    if ops == [] {
      assert ops + [op] == [op];
    } else {
      assert (ops + [op])[0] == ops[0] && (ops + [op])[1..] == ops[1..] + [op];
      RunOneMore(if ops[0].PutOp? then Put(s, ops[0].p).0 else Get(s).0, ops[1..], op);
    }
  }

  lemma RunNothing(s: Parser)
    ensures Run(s, []) == (s, [])
  {
  }

  lemma RunOne(s: Parser, op: Op)
    ensures op.PutOp? ==> Run(s, [op]) == (Put(s, op.p).0, [])
    ensures op.GetOp? ==> Run(s, [op]) == (Get(s).0, if Get(s).1.Some? then [Get(s).1.value] else [])
  {
    hide Put;
    assert [op][1..] == [];
    if op.GetOp? && Get(s).1.Some? {
      assert [Get(s).1.value] + [] == [Get(s).1.value];
    }
  }

  /** What one piece does to the parser. */
  function Take(s: Parser, piece: Piece): Parser {
    match piece
    case Whole(raw) => if |raw| >= 3 then Finish(s, raw).0 else s
    case Broken => s.(stat := s.stat.(total := s.stat.total + 1, error := s.stat.error + 1))
  }

  function TakeAll(s: Parser, pieces: seq<Piece>): Parser
    decreases |pieces|
  {
    if pieces == [] then s else TakeAll(Take(s, pieces[0]), pieces[1..])
  }

  lemma {:induction false} TakeAllConcat(s: Parser, a: seq<Piece>, b: seq<Piece>)
    ensures TakeAll(s, a + b) == TakeAll(TakeAll(s, a), b)
    decreases |a|
  {
    hide Take;
    if a == [] {
      assert a + b == b;
    } else {
      assert (a + b)[0] == a[0] && (a + b)[1..] == a[1..] + b;
      TakeAllConcat(Take(s, a[0]), a[1..], b);
    }
  }

  /** Taking pieces does not look at the work slot. */
  lemma {:induction false} TakeAllIgnoresWork(s: Parser, work: seq<byte>, pieces: seq<Piece>)
    ensures TakeAll(s, pieces).work == s.work && TakeAll(s, pieces).pid == s.pid
    ensures TakeAll(s.(work := work), pieces) == TakeAll(s, pieces).(work := work)
    decreases |pieces|
  {
    if pieces != [] {
      TakeAllIgnoresWork(Take(s, pieces[0]), work, pieces[1..]);
    }
  }

  lemma TakeOne(s: Parser, piece: Piece)
    ensures TakeAll(s, [piece]) == Take(s, piece)
  {
    assert [piece][1..] == [];
  }

  lemma ContinueIsCut(s: Parser, data: seq<byte>)
    ensures var (pieces, work) := CutContinue(s.work, data);
      Continue(s, data).0 == TakeAll(s, pieces).(work := work)
  {
    hide Finish, Complete;
    var all := s.work + data;
    if s.work != [] && Complete(all) {
      TakeAllIgnoresWork(s, [], [Whole(First(all))]);
      TakeOne(s.(work := []), Whole(First(all)));
    }
  }

  lemma AbandonIsCut(s: Parser, code: int)
    ensures Abandon(s, code).0 == TakeAll(s, Left(s.work)).(work := [])
  {
    TakeOne(s, Broken);
  }

  lemma {:induction false} StartsIsCut(s: Parser, data: seq<byte>, code: int)
    requires s.work == []
    ensures var (pieces, work) := CutStarts(data);
      Starts(s, data, code).0 == TakeAll(s, pieces).(work := work)
    decreases |data|
  {
    hide Sound, Complete;
    if Complete(data) {
      var raw := First(data);
      var (s', c) := Finish(s, raw);
      var rest := data[|raw|..];
      TakeOne(s, Whole(raw));
      if rest != [] && rest[0] != 0xff {
        var code' := if c == WARN_CRC_MISMATCH then c else code;
        StartsIsCut(s', rest, code');
        TakeAllConcat(s, [Whole(raw)], CutStarts(rest).0);
      }
    }
  }

  lemma PutIsCut(s: Parser, p: Packet)
    requires p.payload != [] && (s.pid < 0 || s.pid == p.pid)
    ensures var (pieces, work) := Cut(s.work, p);
      Put(s, p).0 == TakeAll(s.(pid := p.pid), pieces).(work := work)
  {
    hide Continue, Starts, Abandon, CutContinue, CutStarts, Left;
    var s0, data := s.(pid := p.pid), p.payload;
    if !p.start {
      ContinueIsCut(s0, data);
    } else if 1 + data[0] as int >= |data| {
      AbandonIsCut(s0, 0);
    } else {
      var pointer := data[0] as int;
      var (before, work1) := if pointer > 0 then CutContinue(s.work, data[1..1 + pointer]) else ([], s.work);
      var (s1, c1) := if pointer > 0 then Continue(s0, data[1..1 + pointer]) else (s0, 0);
      if pointer > 0 {
        ContinueIsCut(s0, data[1..1 + pointer]);
      }
      var t1 := TakeAll(s0, before);
      assert s1 == t1.(work := work1);
      AbandonIsCut(s1, c1);
      TakeAllIgnoresWork(t1, work1, Left(work1));
      var t2 := TakeAll(t1, Left(work1));
      var (s2, c2) := Abandon(s1, c1);
      assert s2 == t2.(work := []);
      var rest := data[1 + pointer..];
      StartsIsCut(s2, rest, c2);
      var (after, work2) := CutStarts(rest);
      TakeAllIgnoresWork(t2, [], after);
      TakeAllConcat(s0, before, Left(work1));
      TakeAllConcat(s0, before + Left(work1), after);
    }
  }

  // ------------------------------------------- what the second and third pass do

  /** The sections accepted from a list of good ones, after `last`. */
  function Kept(last: Option<seq<byte>>, xs: seq<seq<byte>>): seq<seq<byte>>
    decreases |xs|
  {
    if xs == [] then []
    else if last == Some(xs[0]) then Kept(last, xs[1..])
    else [xs[0]] + Kept(Some(xs[0]), xs[1..])
  }

  function LastOf(last: Option<seq<byte>>, xs: seq<seq<byte>>): Option<seq<byte>> {
    if xs == [] then last else Some(xs[|xs| - 1])
  }

  lemma {:induction false} GoodConcat(a: seq<Piece>, b: seq<Piece>)
    ensures Good(a + b) == Good(a) + Good(b)
    decreases |a|
  {
    if a == [] {
      assert a + b == b;
    } else {
      assert (a + b)[0] == a[0] && (a + b)[1..] == a[1..] + b;
      GoodConcat(a[1..], b);
    }
  }

  lemma {:induction false} KeptConcat(last: Option<seq<byte>>, a: seq<seq<byte>>, b: seq<seq<byte>>)
    ensures Kept(last, a + b) == Kept(last, a) + Kept(LastOf(last, a), b)
    decreases |a|
  {
    if a == [] {
      assert a + b == b;
    } else {
      assert (a + b)[0] == a[0] && (a + b)[1..] == a[1..] + b;
      KeptConcat(Some(a[0]), a[1..], b);
    }
  }

  lemma {:induction false} KeptIsCollapse(xs: seq<seq<byte>>)
    ensures Kept(None, xs) == Collapse(xs)
    decreases |xs|
  {
    if xs != [] {
      var n := |xs| - 1;
      assert xs == xs[..n] + [xs[n]];
      KeptConcat(None, xs[..n], [xs[n]]);
      assert [xs[n]][1..] == [];
      KeptIsCollapse(xs[..n]);
    }
  }

  /** The pieces a parser takes show in its queue, its counters and nowhere else. */
  lemma {:induction false} TakeAllQueue(s: Parser, pieces: seq<Piece>)
    requires forall i | 0 <= i < |pieces| && pieces[i].Whole? :: |pieces[i].raw| >= 3
    ensures var s', kept := TakeAll(s, pieces), Kept(s.last, Good(pieces));
      && s'.queue == s.queue + kept && s'.last == LastOf(s.last, Good(pieces))
      && s'.stat.unique == s.stat.unique + |kept|
      && s'.stat.total == s.stat.total + |pieces|
      && s'.stat.error == s.stat.error + |pieces| - |Good(pieces)|
    decreases |pieces|
  {
    hide Sound, Take, Kept;
    if pieces == [] {
      KeptOfNone(s.last);
    } else {
      var s1 := Take(s, pieces[0]);
      TakeAllQueue(s1, pieces[1..]);
      TakeQueue(s, pieces[0], Good(pieces[1..]));
    }
  }

  lemma KeptOfNone(last: Option<seq<byte>>)
    ensures Kept(last, []) == []
  {
  }

  lemma TakeQueue(s: Parser, piece: Piece, xs: seq<seq<byte>>)
    requires piece.Whole? ==> |piece.raw| >= 3
    ensures var s1 := Take(s, piece);
      var all := if piece.Whole? && Sound(piece.raw) then [piece.raw] + xs else xs;
      && s1.queue + Kept(s1.last, xs) == s.queue + Kept(s.last, all)
      && LastOf(s1.last, xs) == LastOf(s.last, all)
      && s1.stat.unique + |Kept(s1.last, xs)| == s.stat.unique + |Kept(s.last, all)|
      && s1.stat.total == s.stat.total + 1
      && s1.stat.error == s.stat.error + 1 + |xs| - |all|
  {
    hide Sound;
    if piece.Whole? && Sound(piece.raw) {
      assert ([piece.raw] + xs)[1..] == xs;
    }
  }

  lemma {:induction false} StartsAreComplete(data: seq<byte>)
    ensures forall i | 0 <= i < |CutStarts(data).0| ::
              var p := CutStarts(data).0[i]; p.Whole? && |p.raw| >= 3
    decreases |data|
  {
    hide Complete;
    if Complete(data) {
      StartsAreComplete(data[|First(data)|..]);
    }
  }

  lemma CutIsComplete(work: seq<byte>, p: Packet)
    requires p.payload != []
    ensures forall i | 0 <= i < |Cut(work, p).0| && Cut(work, p).0[i].Whole? :: |Cut(work, p).0[i].raw| >= 3
  {
    hide CutStarts, Complete;
    if p.start && 1 + p.payload[0] as int < |p.payload| {
      StartsAreComplete(p.payload[1 + p.payload[0] as int..]);
    }
  }

  lemma PutQueue(s: Parser, p: Packet)
    requires p.payload != [] && (s.pid < 0 || s.pid == p.pid)
    ensures var s', (pieces, work) := Put(s, p).0, Cut(s.work, p);
      && s'.pid == p.pid && s'.work == work
      && s'.queue == s.queue + Kept(s.last, Good(pieces)) && s'.last == LastOf(s.last, Good(pieces))
      && s'.stat.unique == s.stat.unique + |Kept(s.last, Good(pieces))|
      && s'.stat.total == s.stat.total + |pieces|
      && s'.stat.error == s.stat.error + |pieces| - |Good(pieces)|
  {
    hide Put, Cut, TakeAll, Good, Kept;
    var (pieces, work) := Cut(s.work, p);
    PutIsCut(s, p);
    CutIsComplete(s.work, p);
    TakeAllQueue(s.(pid := p.pid), pieces);
    TakeAllIgnoresWork(s.(pid := p.pid), work, pieces);
  }

  lemma {:induction false} RunQueue(s: Parser, ops: seq<Op>)
    ensures var (s', delivered) := Run(s, ops);
      var (pieces, work) := CutAll(s.work, Relevant(s.pid, Packets(ops)));
      && s.queue + Kept(s.last, Good(pieces)) == delivered + s'.queue
      && s'.work == work
      && s'.stat.total == s.stat.total + |pieces|
      && s'.stat.unique == s.stat.unique + |Kept(s.last, Good(pieces))|
      && s'.stat.error == s.stat.error + |pieces| - |Good(pieces)|
    decreases |ops|
  {
    hide Put, Cut, Good, Kept, CutAll;
    if ops == [] {
      RunQueueEmpty(s);
    } else if ops[0].GetOp? {
      var s1, got := Get(s).0, Get(s).1;
      RunQueue(s1, ops[1..]);
      if got.Some? {
        var (s', more) := Run(s1, ops[1..]);
        var kept := Kept(s.last, Good(CutAll(s.work, Relevant(s.pid, Packets(ops))).0));
        assert s.queue + kept == [got.value] + (s1.queue + kept);
        assert [got.value] + more + s'.queue == [got.value] + (more + s'.queue);
      }
    } else {
      var p := ops[0].p;
      RunQueue(Put(s, p).0, ops[1..]);
      if p.payload != [] && (s.pid < 0 || s.pid == p.pid) {
        RunQueuePut(s, p, ops[1..]);
        PutQueue(s, p);
      } else {
        RunQueueSkip(s, p, ops[1..]);
      }
    }
  }

  lemma RunQueueEmpty(s: Parser)
    ensures CutAll(s.work, []) == ([], s.work) && Good([]) == [] && Kept(s.last, []) == []
  {
  }

  lemma RunQueueSkip(s: Parser, p: Packet, rest: seq<Op>)
    requires p.payload == [] || (s.pid >= 0 && s.pid != p.pid)
    ensures Put(s, p).0 == s
    ensures Relevant(s.pid, [p] + Packets(rest)) == Relevant(s.pid, Packets(rest))
  {
    assert ([p] + Packets(rest))[1..] == Packets(rest);
  }

  /** The step of RunQueue for a packet the parser takes. */
  lemma RunQueuePut(s: Parser, p: Packet, rest: seq<Op>)
    requires p.payload != [] && (s.pid < 0 || s.pid == p.pid)
    ensures var ps := Relevant(p.pid, Packets(rest));
      var s1, (first, work1) := Put(s, p).0, Cut(s.work, p);
      var (more, work) := CutAll(work1, ps);
      && CutAll(s.work, Relevant(s.pid, [p] + Packets(rest))) == (first + more, work)
      && s.queue + Kept(s.last, Good(first + more)) == s1.queue + Kept(s1.last, Good(more))
      && |Good(first + more)| == |Good(first)| + |Good(more)|
  {
    hide Put, Cut, Good, Kept;
    var ps := Relevant(p.pid, Packets(rest));
    var (first, work1) := Cut(s.work, p);
    var (more, work) := CutAll(work1, ps);
    assert ([p] + Packets(rest))[1..] == Packets(rest);
    assert ([p] + ps)[1..] == ps;
    PutQueue(s, p);
    GoodConcat(first, more);
    KeptConcat(s.last, Good(first), Good(more));
  }

  /** Every run of a new parser: the sections fetched so far, followed by those
      still queued, are the good sections cut from the packets, in order,
      without those that repeat the one before. The counters count them. */
  lemma RunDelivers(ops: seq<Op>)
    ensures var (s, delivered) := Run(NEW_PARSER, ops);
      var pieces := CutAll([], Relevant(-1, Packets(ops))).0;
      && delivered + s.queue == Collapse(Good(pieces))
      && s.stat.total == |pieces|
      && s.stat.unique == |Collapse(Good(pieces))|
      && s.stat.error == |pieces| - |Good(pieces)|
  {
    hide Run, CutAll, Good, Kept, Collapse;
    RunQueue(NEW_PARSER, ops);
    KeptIsCollapse(Good(CutAll([], Relevant(-1, Packets(ops))).0));
  }

  // ------------------------------------------------------ nothing else comes out

  /** Its length field is its length, and a long section ends in its CRC. */
  predicate Right(x: seq<byte>) {
    && |x| >= 3 && (x[1] as int % 16) * 256 + x[2] as int == |x| - 3
    && (x[1] as int >= 128 && |x| >= 4 ==> RightTrailer(x))
  }

  /** What is cut is as long as it says. */
  ghost predicate Cropped(pieces: seq<Piece>) {
    forall i | 0 <= i < |pieces| && pieces[i].Whole? ::
      |pieces[i].raw| >= 3 && (pieces[i].raw[1] as int % 16) * 256 + pieces[i].raw[2] as int == |pieces[i].raw| - 3
  }

  lemma FirstIsCropped(all: seq<byte>)
    requires Complete(all)
    ensures var x := First(all); |x| >= 3 && (x[1] as int % 16) * 256 + x[2] as int == |x| - 3
  {
    hide SectionLength;
    LengthIsRead(all);
  }

  lemma {:induction false} StartsAreCropped(data: seq<byte>)
    ensures Cropped(CutStarts(data).0)
    decreases |data|
  {
    hide Complete, First;
    if Complete(data) {
      FirstIsCropped(data);
      StartsAreCropped(data[|First(data)|..]);
    }
  }

  lemma ContinueIsCropped(work: seq<byte>, data: seq<byte>)
    ensures Cropped(CutContinue(work, data).0)
  {
    hide Complete, First;
    if Complete(work + data) {
      FirstIsCropped(work + data);
    }
  }

  lemma NoneIsCropped(work: seq<byte>)
    ensures Cropped([]) && Cropped(Left(work))
  {
  }

  lemma BothAreCropped(a: seq<Piece>, b: seq<Piece>)
    requires Cropped(a) && Cropped(b)
    ensures Cropped(a + b)
  {
  }

  lemma CutIsCropped(work: seq<byte>, p: Packet)
    requires p.payload != []
    ensures Cropped(Cut(work, p).0)
  {
    hide CutStarts, Complete, First, CutContinue, Cropped;
    var data := p.payload;
    var n := data[0] as int;
    NoneIsCropped(work);
    if !p.start {
      ContinueIsCropped(work, data);
    } else if 1 + n < |data| {
      ContinueIsCropped(work, data[1..1 + n]);
      StartsAreCropped(data[1 + n..]);
      var (before, work1) := if n > 0 then CutContinue(work, data[1..1 + n]) else ([], work);
      NoneIsCropped(work1);
      BothAreCropped(before, Left(work1));
      BothAreCropped(before + Left(work1), CutStarts(data[1 + n..]).0);
    }
  }

  lemma {:induction false} AllIsCropped(work: seq<byte>, ps: seq<Packet>)
    requires forall p | p in ps :: p.payload != []
    ensures Cropped(CutAll(work, ps).0)
    decreases |ps|
  {
    hide Cut;
    if ps != [] {
      CutIsCropped(work, ps[0]);
      AllIsCropped(Cut(work, ps[0]).1, ps[1..]);
    }
  }

  lemma {:induction false} GoodIsRight(pieces: seq<Piece>)
    requires Cropped(pieces)
    ensures forall x | x in Good(pieces) :: Right(x)
    decreases |pieces|
  {
    hide Sound, RightTrailer;
    if pieces != [] {
      GoodIsRight(pieces[1..]);
      if pieces[0].Whole? && |pieces[0].raw| >= 4 {
        TrailerIsSound(pieces[0].raw);
      }
    }
  }

  lemma {:induction false} CollapseKeeps(xs: seq<seq<byte>>)
    ensures forall x | x in Collapse(xs) :: x in xs
    decreases |xs|
  {
    if xs != [] {
      CollapseKeeps(xs[..|xs| - 1]);
    }
  }

  /** Whatever packets come, a section that is fetched or queued is as long as its
      length field says, and a long one ends in the CRC of its other bytes. */
  lemma OnlyRightSections(ops: seq<Op>)
    ensures var (s, delivered) := Run(NEW_PARSER, ops); forall x | x in delivered + s.queue :: Right(x)
  {
    hide Run, CutAll, Good, Collapse, Right;
    RunDelivers(ops);
    var ps := Relevant(-1, Packets(ops));
    AllIsCropped([], ps);
    GoodIsRight(CutAll([], ps).0);
    CollapseKeeps(Good(CutAll([], ps).0));
  }

  // ------------------------------------- carrying sections, and getting them back

  /** A section as section 2.4.4 allows it to be sent: its length field is its
      length, a long one has room for its header and a right CRC, and its
      table_id is not the stuffing value. */
  predicate Sendable(x: seq<byte>) {
    && |x| >= 3 && x[0] != 0xff && (x[1] as int % 16) * 256 + x[2] as int == |x| - 3
    && (x[1] as int >= 128 ==> |x| >= 8 && RightTrailer(x))
  }

  /** The last four bytes are the CRC of the others. */
  predicate RightTrailer(x: seq<byte>)
    requires |x| >= 4
  {
    var n := |x| - 4;
    Be32(x[n], x[n + 1], x[n + 2], x[n + 3]) == Crc32.Crc(x[..n])
  }

  /** Such a section is what the parser takes for a complete one without error. */
  lemma SendableIsComplete(x: seq<byte>)
    ensures Sendable(x) <==> Complete(x) && TotalLength(x) == |x| && Sound(x) && x[0] != 0xff
  {
    hide Sound, RightTrailer, SectionLength, Be16;
    if |x| >= 3 {
      LengthIsRead(x);
      TrailerIsSound(x);
    }
  }

  lemma LengthIsRead(x: seq<byte>)
    requires |x| >= 3
    ensures SectionLength(x) == (x[1] as int % 16) * 256 + x[2] as int
  {
    LengthField(x[1] as int, x[2] as int);
  }

  lemma TrailerIsSound(x: seq<byte>)
    requires |x| >= 3
    ensures x[1] as int < 128 ==> Sound(x)
    ensures x[1] as int >= 128 && |x| >= 4 ==> (Sound(x) <==> RightTrailer(x))
  {
    hide Crc32.Crc, Be32;
    if |x| >= 4 {
      Crc32.ZeroMeansTrailerMatches(x);
    }
  }

  lemma LengthField(hi: int, lo: int)
    requires 0 <= hi < 256 && 0 <= lo < 256
    ensures (hi * 256 + lo) % 4096 == hi % 16 * 256 + lo
  {
  }

  /** Eight bytes stand for this header of a long section. */
  predicate HeaderBytes(raw: seq<byte>, h: Header, reserved: int) {
    && |raw| >= 8 && 0 <= h.sectionLength < 4096 && 0 <= reserved < 4
    && raw[0] as int == h.tableId && h.syntax == 1 && 0 <= h.privateIndicator <= 1
    && raw[1] as int == 128 + 64 * h.privateIndicator + 16 * reserved + h.sectionLength / 256
    && raw[2] as int == h.sectionLength % 256
    && 0 <= h.tableIdExtension && raw[3] as int == h.tableIdExtension / 256 && raw[4] as int == h.tableIdExtension % 256
    && 0 <= h.versionNumber < 32 && 0 <= h.currentNext <= 1
    && raw[5] as int == 64 * reserved + 2 * h.versionNumber + h.currentNext
    && raw[6] as int == h.sectionNumber && raw[7] as int == h.lastSectionNumber
  }

  lemma FlagsAreRead(raw: seq<byte>, h: Header, reserved: int)
    requires HeaderBytes(raw, h, reserved)
    ensures |raw| >= 8 && LongForm(raw) && raw[0] as int == h.tableId && h.syntax == 1
    ensures raw[1] as int / 128 == 1 && raw[1] as int / 64 % 2 == h.privateIndicator && SectionLength(raw) == h.sectionLength
  {
    FlagsAndLength(raw[1] as int, raw[2] as int, h.privateIndicator, reserved, h.sectionLength);
  }

  lemma ExtensionIsRead(raw: seq<byte>, h: Header, reserved: int)
    requires HeaderBytes(raw, h, reserved)
    ensures |raw| >= 8 && Be16(raw[3], raw[4]) == h.tableIdExtension
    ensures raw[5] as int / 2 % 32 == h.versionNumber && raw[5] as int % 2 == h.currentNext
    ensures raw[6] as int == h.sectionNumber && raw[7] as int == h.lastSectionNumber
  {
    Joined(raw[3] as int, raw[4] as int, h.tableIdExtension);
    VersionField(raw[5] as int, reserved, h.versionNumber, h.currentNext);
  }

  /** The fields of a long header are read as they were written. */
  lemma HeaderIsRead(raw: seq<byte>, h: Header, reserved: int)
    requires HeaderBytes(raw, h, reserved)
    ensures HeaderKnown(raw) && ParseHeader(raw) == h && DataOffset(raw) == 8 && TotalLength(raw) == h.sectionLength + 3
  {
    hide HeaderBytes, Be16, SectionLength;
    FlagsAreRead(raw, h, reserved);
    ExtensionIsRead(raw, h, reserved);
  }

  lemma FlagsAndLength(hi: int, lo: int, flag: int, reserved: int, length: int)
    requires 0 <= flag <= 1 && 0 <= reserved < 4 && 0 <= length < 4096
    requires hi == 128 + 64 * flag + 16 * reserved + length / 256 && lo == length % 256
    ensures hi / 128 == 1 && hi / 64 % 2 == flag && (hi * 256 + lo) % 4096 == length
  {
    var top := length / 256;
    assert 0 <= top < 16 && hi / 64 == 2 + flag;
    LengthField(hi, lo);
  }

  lemma Joined(hi: int, lo: int, value: int)
    requires 0 <= value && hi == value / 256 && lo == value % 256
    ensures hi * 256 + lo == value
  {
  }

  lemma VersionField(b: int, reserved: int, version: int, current: int)
    requires 0 <= reserved < 4 && 0 <= version < 32 && 0 <= current <= 1 && b == 64 * reserved + 2 * version + current
    ensures b / 2 % 32 == version && b % 2 == current
  {
    assert b / 2 == 32 * reserved + version;
  }

  predicate Stuffing(data: seq<byte>) {
    forall i | 0 <= i < |data| :: data[i] == 0xff
  }

  /** The payload from a section boundary on carries the sections xs from their
      start: whole ones, then stuffing or the first part of the next. The
      result is the part of xs[0] already sent, and what is still to finish. */
  function Body(data: seq<byte>, xs: seq<seq<byte>>): Option<(seq<byte>, seq<seq<byte>>)>
    decreases |xs|
  {
    if xs == [] || data == [] then None
    else if |data| < |xs[0]| then
      if data == xs[0][..|data|] then Some((data, xs)) else None
    else if data[..|xs[0]|] != xs[0] then None
    else if Stuffing(data[|xs[0]|..]) then Some(([], xs[1..]))
    else Body(data[|xs[0]|..], xs[1..])
  }

  /** The rest of a section of which `sent` is on its way, and stuffing when it ends. */
  function Tail(data: seq<byte>, sent: seq<byte>, xs: seq<seq<byte>>): Option<(seq<byte>, seq<seq<byte>>)> {
    if xs == [] || sent == [] || !(sent <= xs[0]) then None
    else if |sent + data| < |xs[0]| then
      if sent + data <= xs[0] then Some((sent + data, xs)) else None
    else if !(xs[0] <= sent + data) then None
    else if Stuffing((sent + data)[|xs[0]|..]) then Some(([], xs[1..]))
    else None
  }

  /** One packet: with a start, a pointer over the end of the section under
      way, then sections; without one, more of the section under way. */
  function Carry(p: Packet, sent: seq<byte>, xs: seq<seq<byte>>): Option<(seq<byte>, seq<seq<byte>>)> {
    if p.payload == [] then None
    else if !p.start then Tail(p.payload, sent, xs)
    else
      var pointer := p.payload[0] as int;
      if 1 + pointer >= |p.payload| then None
      else if sent == [] then
        if pointer == 0 then Body(p.payload[1..], xs) else None
      else if pointer > 0 && xs != [] && sent + p.payload[1..1 + pointer] == xs[0] then
        Body(p.payload[1 + pointer..], xs[1..])
      else None
  }

  /** The packets carry exactly the rest of the sections xs. */
  predicate Carries(ps: seq<Packet>, sent: seq<byte>, xs: seq<seq<byte>>)
    decreases |ps|
  {
    if ps == [] then sent == [] && xs == []
    else
      match Carry(ps[0], sent, xs)
      case None => false
      case Some(next) => Carries(ps[1..], next.0, next.1)
  }

  predicate NoEqualNeighbours(xs: seq<seq<byte>>) {
    forall i | 0 < i < |xs| :: xs[i] != xs[i - 1]
  }

  lemma PartIsIncomplete(part: seq<byte>, x: seq<byte>)
    requires Sendable(x) && part <= x && |part| < |x|
    ensures !Complete(part)
  {
    hide Sound, Crc32.Crc;
    SendableIsComplete(x);
    if |part| >= 3 {
      assert TotalLength(part) == TotalLength(x);
    }
  }

  lemma WholeIsFirst(all: seq<byte>, x: seq<byte>)
    requires Sendable(x) && x <= all
    ensures Complete(all) && First(all) == x
  {
    hide Sound, Crc32.Crc;
    SendableIsComplete(x);
    assert TotalLength(all) == TotalLength(x) == |x|;
    assert all[..|x|] == x;
  }

  /** Cutting at a section boundary where the section x begins. */
  lemma CutFirst(data: seq<byte>, x: seq<byte>)
    requires Sendable(x) && x <= data
    ensures var rest := data[|x|..];
      CutStarts(data) ==
        if rest == [] || rest[0] == 0xff then ([Whole(x)], [])
        else ([Whole(x)] + CutStarts(rest).0, CutStarts(rest).1)
  {
    hide Complete, First, Sendable;
    WholeIsFirst(data, x);
  }

  /** The state after a body is a suffix ys of xs, the first of them begun. */
  ghost predicate Suffix(xs: seq<seq<byte>>, ys: seq<seq<byte>>, sent: seq<byte>) {
    && |ys| <= |xs| && ys == xs[|xs| - |ys|..]
    && (sent != [] ==> ys != [] && sent <= ys[0] && |sent| < |ys[0]|)
  }

  lemma SuffixStep(xs: seq<seq<byte>>, ys: seq<seq<byte>>, sent: seq<byte>)
    requires xs != [] && Suffix(xs[1..], ys, sent)
    ensures Suffix(xs, ys, sent)
    ensures xs[..|xs| - |ys|] == [xs[0]] + xs[1..][..|xs| - 1 - |ys|]
    ensures Wholes(xs[..|xs| - |ys|]) == [Whole(xs[0])] + Wholes(xs[1..][..|xs| - 1 - |ys|])
  {
    var n := |xs| - |ys|;
    assert xs[..n][1..] == xs[1..][..n - 1];
    assert xs[n..] == xs[1..][n - 1..];
  }

  /** What is cut from a body that carries sections: exactly those it ends. */
  lemma {:induction false} CutBody(data: seq<byte>, xs: seq<seq<byte>>)
    requires forall x | x in xs :: Sendable(x)
    requires Body(data, xs).Some?
    ensures var (sent, ys) := Body(data, xs).value;
      Suffix(xs, ys, sent) && CutStarts(data) == (Wholes(xs[..|xs| - |ys|]), sent)
    decreases |xs|
  {
    hide Sendable, Complete, CutStarts, Suffix, Wholes;
    var x := xs[0];
    if |data| < |x| {
      CutPart(data, xs);
    } else {
      CutFirst(data, x);
      var rest := data[|x|..];
      if Stuffing(rest) {
        CutLast(xs);
      } else {
        CutBody(rest, xs[1..]);
        BodyStartsWithTable(rest, xs[1..]);
        SuffixStep(xs, Body(rest, xs[1..]).value.1, Body(rest, xs[1..]).value.0);
      }
    }
  }

  lemma CutPart(data: seq<byte>, xs: seq<seq<byte>>)
    requires xs != [] && Sendable(xs[0]) && data != [] && |data| < |xs[0]| && data == xs[0][..|data|]
    ensures Suffix(xs, xs, data) && Wholes(xs[..0]) == [] && CutStarts(data) == ([], data)
  {
    hide Sendable, Complete;
    PartIsIncomplete(data, xs[0]);
  }

  lemma CutLast(xs: seq<seq<byte>>)
    requires xs != []
    ensures Suffix(xs, xs[1..], []) && Wholes(xs[..1]) == [Whole(xs[0])]
  {
    assert xs[..1][1..] == [];
  }

  function Wholes(xs: seq<seq<byte>>): seq<Piece> {
    if xs == [] then [] else [Whole(xs[0])] + Wholes(xs[1..])
  }

  lemma BodyStartsWithTable(data: seq<byte>, xs: seq<seq<byte>>)
    requires forall x | x in xs :: Sendable(x)
    requires Body(data, xs).Some?
    ensures data != [] && data[0] != 0xff
  {
    assert xs[0] in xs;
    assert Sendable(xs[0]);
    if |data| >= |xs[0]| {
      assert data[..|xs[0]|][0] == xs[0][0];
    }
  }

  lemma CutTail(data: seq<byte>, sent: seq<byte>, xs: seq<seq<byte>>)
    requires forall x | x in xs :: Sendable(x)
    requires Tail(data, sent, xs).Some?
    ensures var (sent', ys) := Tail(data, sent, xs).value;
      Suffix(xs, ys, sent') && CutContinue(sent, data) == (Wholes(xs[..|xs| - |ys|]), sent')
  {
    hide Sendable, Complete, First, Wholes, Stuffing;
    assert Sendable(xs[0]);
    if |sent + data| < |xs[0]| {
      PartIsIncomplete(sent + data, xs[0]);
      assert Wholes(xs[..0]) == [] by {
        WholesOfNone(xs);
      }
    } else {
      WholeIsFirst(sent + data, xs[0]);
      CutLast(xs);
    }
  }

  lemma WholesOfNone(xs: seq<seq<byte>>)
    ensures Wholes(xs[..0]) == []
  {
  }

  lemma CutCarry(p: Packet, sent: seq<byte>, xs: seq<seq<byte>>)
    requires forall x | x in xs :: Sendable(x)
    requires Carry(p, sent, xs).Some?
    ensures var (sent', ys) := Carry(p, sent, xs).value;
      Suffix(xs, ys, sent') && Cut(sent, p) == (Wholes(xs[..|xs| - |ys|]), sent')
  {
    hide Sendable, Complete, First, Wholes, Stuffing, CutStarts, Body, Tail, Suffix;
    var data := p.payload;
    if !p.start {
      CutTail(data, sent, xs);
    } else {
      var pointer := data[0] as int;
      var body := data[1 + pointer..];
      if sent == [] {
        CutBody(body, xs);
        var none: seq<Piece> := [];
        assert Left(sent) == none && none + none == none && none + CutStarts(body).0 == CutStarts(body).0;
      } else {
        var end := data[1..1 + pointer];
        assert Sendable(xs[0]);
        WholeIsFirst(sent + end, xs[0]);
        assert CutContinue(sent, end) == ([Whole(xs[0])], []);
        CutBody(body, xs[1..]);
        SuffixStep(xs, Body(body, xs[1..]).value.1, Body(body, xs[1..]).value.0);
        assert [Whole(xs[0])] + [] == [Whole(xs[0])];
      }
    }
  }

  lemma {:induction false} CutCarries(ps: seq<Packet>, sent: seq<byte>, xs: seq<seq<byte>>)
    requires forall x | x in xs :: Sendable(x)
    requires Carries(ps, sent, xs)
    ensures forall p | p in ps :: p.payload != []
    ensures CutAll(sent, ps) == (Wholes(xs), [])
    decreases |ps|
  {
    hide Sendable, Carry, Cut;
    if ps != [] {
      var (sent', ys) := Carry(ps[0], sent, xs).value;
      CarryNeedsPayload(ps[0], sent, xs);
      CutCarry(ps[0], sent, xs);
      CutCarries(ps[1..], sent', ys);
      assert ps == [ps[0]] + ps[1..];
      var n := |xs| - |ys|;
      assert xs == xs[..n] + ys;
      WholesConcat(xs[..n], ys);
    }
  }

  lemma CarryNeedsPayload(p: Packet, sent: seq<byte>, xs: seq<seq<byte>>)
    requires Carry(p, sent, xs).Some?
    ensures p.payload != []
  {
  }

  lemma {:induction false} WholesConcat(a: seq<seq<byte>>, b: seq<seq<byte>>)
    ensures Wholes(a + b) == Wholes(a) + Wholes(b)
    decreases |a|
  {
    if a == [] {
      assert a + b == b;
    } else {
      assert (a + b)[0] == a[0] && (a + b)[1..] == a[1..] + b;
      WholesConcat(a[1..], b);
    }
  }

  lemma CompleteIsThree(x: seq<byte>)
    ensures Complete(x) ==> |x| >= 3
  {
  }

  lemma {:induction false} SendableAreGood(xs: seq<seq<byte>>)
    requires forall x | x in xs :: Sendable(x)
    ensures |Wholes(xs)| == |xs| && Good(Wholes(xs)) == xs
    decreases |xs|
  {
    hide Sendable, Sound, Complete, TotalLength, RightTrailer;
    if xs != [] {
      assert Sendable(xs[0]);
      SendableIsComplete(xs[0]);
      CompleteIsThree(xs[0]);
      SendableAreGood(xs[1..]);
      assert Wholes(xs)[1..] == Wholes(xs[1..]);
    }
  }

  lemma {:induction false} CollapseShrinks(xs: seq<seq<byte>>)
    ensures |Collapse(xs)| <= |xs|
    ensures |Collapse(xs)| == |xs| <==> NoEqualNeighbours(xs)
    ensures NoEqualNeighbours(xs) ==> Collapse(xs) == xs
    decreases |xs|
  {
    if xs != [] {
      var n := |xs| - 1;
      CollapseShrinks(xs[..n]);
      if NoEqualNeighbours(xs[..n]) && (n == 0 || xs[n] != xs[n - 1]) {
        assert NoEqualNeighbours(xs);
      }
    }
  }

  lemma {:induction false} AllRelevant(pid: nat, ps: seq<Packet>)
    requires forall p | p in ps :: p.payload != [] && p.pid == pid
    ensures Relevant(pid, ps) == ps
    decreases |ps|
  {
    if ps != [] {
      AllRelevant(pid, ps[1..]);
    }
  }

  function Puts(ps: seq<Packet>): (ops: seq<Op>)
    ensures |ops| == |ps|
  {
    if ps == [] then [] else [PutOp(ps[0])] + Puts(ps[1..])
  }

  lemma {:induction false} PacketsOfPuts(ps: seq<Packet>)
    ensures Packets(Puts(ps)) == ps
  {
    if ps != [] {
      PacketsOfPuts(ps[1..]);
      assert Puts(ps)[1..] == Puts(ps[1..]);
    }
  }

  lemma {:induction false} PutsDeliverNothing(s: Parser, ps: seq<Packet>)
    ensures Run(s, Puts(ps)).1 == []
    decreases |ps|
  {
    hide Put;
    if ps != [] {
      PutsDeliverNothing(Put(s, ps[0]).0, ps[1..]);
      assert Puts(ps)[1..] == Puts(ps[1..]);
    }
  }

  /** However a list of sections is cut into packets of one PID, a new parser
      gives back each of them, byte for byte and in order, with no error,
      except for those it takes for repetitions: equal neighbours. */
  lemma CarriedSectionsComeBack(pid: nat, ps: seq<Packet>, xs: seq<seq<byte>>)
    requires forall x | x in xs :: Sendable(x)
    requires forall p | p in ps :: p.pid == pid
    requires Carries(ps, [], xs)
    ensures var (s, delivered) := Run(NEW_PARSER, Puts(ps));
      && delivered == [] && s.queue == Collapse(xs) && s.work == []
      && (s.queue == xs <==> NoEqualNeighbours(xs))
      && s.stat == Stat(|xs|, |Collapse(xs)|, 0)
  {
    hide Run, Carries, Sendable, Collapse, Good, Kept, CutAll, Packets, Wholes, NoEqualNeighbours;
    CutCarries(ps, [], xs);
    SendableAreGood(xs);
    CollapseShrinks(xs);
    PacketsOfPuts(ps);
    if ps != [] {
      AllRelevant(pid, ps[1..]);
      assert ps == [ps[0]] + ps[1..];
    }
    assert Relevant(-1, ps) == ps;
    RunDelivers(Puts(ps));
    RunQueue(NEW_PARSER, Puts(ps));
    PutsDeliverNothing(NEW_PARSER, ps);
    assert [] + Run(NEW_PARSER, Puts(ps)).0.queue == Run(NEW_PARSER, Puts(ps)).0.queue;
  }

  // --------------------------------------------------------------- a packetiser

  /** Filled up to a whole payload. */
  function Padded(data: seq<byte>, size: nat): (r: seq<byte>)
    requires |data| <= size
    ensures |r| == size && r[..|data|] == data && Stuffing(r[|data|..])
  {
    data + seq(size - |data|, _ => 0xff as byte)
  }

  /** Packets that go on with a section. */
  function Further(pid: nat, size: nat, rest: seq<byte>): seq<Packet>
    requires size >= 2
    decreases |rest|
  {
    if |rest| <= size then [Packet(pid, false, Padded(rest, size))]
    else [Packet(pid, false, rest[..size])] + Further(pid, size, rest[size..])
  }

  /** A section in packets of its own, each with a payload of this size. */
  function Sent(pid: nat, size: nat, x: seq<byte>): seq<Packet>
    requires size >= 2
  {
    if |x| < size then [Packet(pid, true, Padded([0] + x, size))]
    else [Packet(pid, true, [0] + x[..size - 1])] + Further(pid, size, x[size - 1..])
  }

  function Packetise(pid: nat, size: nat, xs: seq<seq<byte>>): seq<Packet>
    requires size >= 2
  {
    if xs == [] then [] else Sent(pid, size, xs[0]) + Packetise(pid, size, xs[1..])
  }

  /** One more payload that the section goes on beyond. */
  lemma GoesOn(data: seq<byte>, k: nat, xs: seq<seq<byte>>)
    requires xs != [] && 0 < k && data != [] && k + |data| < |xs[0]| && data == xs[0][k..k + |data|]
    ensures Tail(data, xs[0][..k], xs) == Some((xs[0][..k + |data|], xs))
  {
    hide Stuffing;
    assert xs[0][..k] + data == xs[0][..k + |data|];
  }

  /** The payload that the section ends in. */
  lemma GoesToTheEnd(data: seq<byte>, k: nat, xs: seq<seq<byte>>)
    requires xs != [] && 0 < k < |xs[0]| <= k + |data|
    requires data[..|xs[0]| - k] == xs[0][k..] && Stuffing(data[|xs[0]| - k..])
    ensures Tail(data, xs[0][..k], xs) == Some(([], xs[1..]))
  {
    hide Stuffing;
    var x := xs[0];
    assert x[..k] + data[..|x| - k] == x;
    assert (x[..k] + data)[..|x|] == x;
    assert (x[..k] + data)[|x|..] == data[|x| - k..];
  }

  lemma {:induction false} FurtherCarries(pid: nat, size: nat, k: nat, xs: seq<seq<byte>>, more: seq<Packet>)
    requires size >= 2 && xs != [] && 0 < k < |xs[0]| && Carries(more, [], xs[1..])
    ensures Carries(Further(pid, size, xs[0][k..]) + more, xs[0][..k], xs)
    decreases |xs[0]| - k
  {
    hide Tail, Body, Stuffing;
    var x, ps := xs[0], Further(pid, size, xs[0][k..]) + more;
    if |x| - k <= size {
      var data := Padded(x[k..], size);
      GoesToTheEnd(data, k, xs);
      assert ps[0] == Packet(pid, false, data) && ps[1..] == more;
    } else {
      assert x[k..][..size] == x[k..k + size] && x[k..][size..] == x[k + size..];
      GoesOn(x[k..k + size], k, xs);
      FurtherCarries(pid, size, k + size, xs, more);
      assert ps == [Packet(pid, false, x[k..k + size])] + (Further(pid, size, x[k + size..]) + more);
    }
  }

  lemma SentCarries(pid: nat, size: nat, xs: seq<seq<byte>>, more: seq<Packet>)
    requires size >= 2 && xs != [] && xs[0] != [] && Carries(more, [], xs[1..])
    ensures Carries(Sent(pid, size, xs[0]) + more, [], xs)
  {
    hide Further;
    var x, ps := xs[0], Sent(pid, size, xs[0]) + more;
    if |x| < size {
      var data := Padded([0] + x, size);
      assert data[0] == 0 && data[1..][..|x|] == data[..1 + |x|][1..] == x;
      assert data[1..][|x|..] == data[1 + |x|..];
      assert ps[0] == Packet(pid, true, data) && ps[1..] == more;
    } else {
      var k := size - 1;
      var data := [0] + x[..k];
      assert data[1..] == x[..k];
      FurtherCarries(pid, size, k, xs, more);
      assert ps == [Packet(pid, true, data)] + (Further(pid, size, x[k..]) + more);
    }
  }

  /** Every list of sections can be sent: in packets of one PID and any payload
      size, each section starting a packet of its own. */
  lemma {:induction false} EverythingCanBeSent(pid: nat, size: nat, xs: seq<seq<byte>>)
    requires size >= 2 && forall x | x in xs :: x != []
    ensures Carries(Packetise(pid, size, xs), [], xs)
    ensures forall p | p in Packetise(pid, size, xs) :: p.pid == pid && |p.payload| == size
    decreases |xs|
  {
    hide Carries, Sent;
    if xs == [] {
      NothingCarried();
    } else {
      assert xs[0] in xs && forall x | x in xs[1..] :: x in xs;
      EverythingCanBeSent(pid, size, xs[1..]);
      SentCarries(pid, size, xs, Packetise(pid, size, xs[1..]));
      SentShape(pid, size, xs[0]);
    }
  }

  lemma NothingCarried()
    ensures Carries([], [], [])
  {
  }

  lemma SentShape(pid: nat, size: nat, x: seq<byte>)
    requires size >= 2
    ensures forall p | p in Sent(pid, size, x) :: p.pid == pid && |p.payload| == size
  {
    if |x| >= size {
      FurtherShape(pid, size, x[size - 1..]);
    }
  }

  lemma {:induction false} FurtherShape(pid: nat, size: nat, rest: seq<byte>)
    requires size >= 2
    ensures forall p | p in Further(pid, size, rest) :: p.pid == pid && |p.payload| == size
    decreases |rest|
  {
    if |rest| > size {
      FurtherShape(pid, size, rest[size..]);
    }
  }

  /** So every list of valid sections without equal neighbours survives being
      packetised and parsed. */
  lemma PacketisedSectionsComeBack(pid: nat, size: nat, xs: seq<seq<byte>>)
    requires size >= 2 && forall x | x in xs :: Sendable(x)
    ensures var (s, delivered) := Run(NEW_PARSER, Puts(Packetise(pid, size, xs)));
      delivered == [] && s.work == [] && s.stat.error == 0 && (s.queue == xs <==> NoEqualNeighbours(xs))
  {
    hide Run, Carries, Packetise, NoEqualNeighbours, Collapse;
    EverythingCanBeSent(pid, size, xs);
    CarriedSectionsComeBack(pid, Packetise(pid, size, xs), xs);
  }
}
