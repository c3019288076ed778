// The descrambler object: input bytes are appended to one work buffer, packets
// are descrambled in place there and appended to another. Every call of the
// packet loop does what the function Scan says.

module Descrambler {
  import opened Bytes
  import opened SectionModel
  import opened PidGraph
  import opened Core
  import opened Framing
  import opened Search
  import opened WorkBuffers
  import Multi2
  import Streams
  import UnitSize

  /** resync, over the bytes from..to of a pool. */
  method FindSync(pool: array<byte>, from: nat, to: nat, unit: nat) returns (p: Option<nat>)
    requires from <= to <= pool.Length && 0 < unit
    ensures p.None? ==> Resync(pool[from..to], 0, unit) == None
    ensures p.Some? ==> from <= p.value && Resync(pool[from..to], 0, unit) == Some(p.value - from)
  {
    hide Synced, SyncAt;
    ghost var bytes := pool[from..to];
    var buf := from;
    var last: int := to - unit * 8;
    while buf <= last
      invariant from <= buf && Resync(bytes, 0, unit) == Resync(bytes, buf - from, unit)
    {
      ghost var q := buf - from;
      SyncByte(bytes, q, unit, 0);
      var i := 0;
      if pool[buf] == SYNC {
        i := 1;
        while i < 8
          invariant 1 <= i <= 8 && forall j | 0 <= j < i :: SyncAt(bytes, q, unit, j)
        {
          InReach(buf, unit, i, to);
          SyncByte(bytes, q, unit, i);
          if pool[buf + unit * i] != SYNC {
            break;
          }
          i := i + 1;
        }
        if i == 8 {
          SyncedWhen(bytes, q, unit, i);
          return Some(buf);
        }
      }
      SyncedWhen(bytes, q, unit, i);
      buf := buf + 1;
    }
    return None;
  }

  lemma SyncByte(bytes: seq<byte>, q: nat, unit: nat, i: nat)
    requires i < 8 && 0 < unit && q + unit * 8 <= |bytes|
    ensures q + unit * i < |bytes| && (SyncAt(bytes, q, unit, i) <==> bytes[q + unit * i] == SYNC)
  {
    InReach(q, unit, i, |bytes|);
  }

  lemma SyncedWhen(bytes: seq<byte>, q: nat, unit: nat, i: nat)
    requires i <= 8 && q + unit * 8 <= |bytes|
    requires forall j | 0 <= j < i :: SyncAt(bytes, q, unit, j)
    requires i < 8 ==> !SyncAt(bytes, q, unit, i)
    ensures Synced(bytes, q, unit) <==> i == 8
  {
    hide SyncAt;
  }

  lemma Rejoined(s: seq<byte>, i: nat, j: nat)
    requires i <= j <= |s|
    ensures s[..i] + s[i..j] + s[j..] == s
  {
  }

  /** Deciphering the payload and clearing the scrambling bits, in the pool. */
  lemma InPlace(before: seq<byte>, curr: nat, at: nat, clear: seq<byte>)
    requires curr + 188 <= |before| && 4 <= at && at + |clear| == 188
    ensures var p: Packet188 := before[curr..curr + 188];
      var mid := before[..curr + at] + clear + before[curr + 188..];
      var after := mid[curr + 3 := mid[curr + 3] & 0x3f];
      after[curr..curr + 188] == Unmarked(p[..at] + clear) && OnlyPacket(before, after, curr)
  {
    var p: Packet188 := before[curr..curr + 188];
    var mid := before[..curr + at] + clear + before[curr + 188..];
    assert mid[curr..curr + 188] == p[..at] + clear;
    assert mid[curr + 3] == (p[..at] + clear)[3];
  }

  /** The bytes of the packets appended, in order. */
  function Payload(out: seq<Emitted>): seq<byte> {
    if out == [] then [] else out[0].packet + Payload(out[1..])
  }

  lemma {:induction false} PayloadConcat(a: seq<Emitted>, b: seq<Emitted>)
    ensures Payload(a + b) == Payload(a) + Payload(b)
    decreases |a|
  {
    if a == [] {
      assert a + b == b;
    } else {
      assert (a + b)[1..] == a[1..] + b;
      PayloadConcat(a[1..], b);
    }
  }

  /** A change to one packet of a pool. */
  ghost predicate OnlyPacket(before: seq<byte>, after: seq<byte>, curr: nat) {
    && |after| == |before| && curr + 188 <= |before|
    && after[..curr] == before[..curr] && after[curr + 188..] == before[curr + 188..]
  }

  lemma NoChange(pool: seq<byte>, curr: nat)
    requires curr + 188 <= |pool|
    ensures OnlyPacket(pool, pool, curr)
  {
  }

  class AribStdB25 {
    const cfg: Config
    var unitSize: nat
    var sbufOffset: nat
    var sbuf: WorkBuffer
    var dbuf: WorkBuffer
    var state: State

    // How many bytes of the stream have left the input buffer.
    ghost var consumed: nat

    ghost predicate Valid()
      reads this, sbuf, dbuf
    {
      sbuf != dbuf && sbuf.pool != dbuf.pool && sbuf.Valid() && dbuf.Valid()
    }

    /** The packet distance is known. */
    ghost predicate Tuned()
      reads this, sbuf, dbuf
    {
      Valid() && 188 <= unitSize
    }

    ghost function Now(): Session
      reads this, sbuf, sbuf.pool
      requires sbuf.Valid()
    {
      Session(state, unitSize, sbufOffset, sbuf.Contents())
    }

    constructor (cfg: Config)
      ensures Valid() && fresh(sbuf) && fresh(dbuf) && fresh(sbuf.pool) && fresh(dbuf.pool)
      ensures this.cfg == cfg && Now() == Session(NEW_STATE, 0, 0, []) && consumed == 0 && dbuf.Contents() == []
    {
      this.cfg, unitSize, sbufOffset, state, consumed := cfg, 0, 0, NEW_STATE, 0;
      sbuf := new WorkBuffer();
      dbuf := new WorkBuffer();
    }

    /** The payload, from at on, is deciphered in place, and the scrambling bits
        are cleared. */
    method DecipherAt(curr: nat, at: nat, k: Multi2.Keys, kind: int) returns (code: int)
      requires Valid() && curr + 188 <= sbuf.pool.Length && 4 <= at <= 188
      modifies sbuf.pool
      ensures Valid() && code == k.Check(188 - at)
      ensures code < 0 ==> sbuf.pool[..] == old(sbuf.pool[..])
      ensures code >= 0 ==>
        var p: Packet188 := old(sbuf.pool[..])[curr..curr + 188];
        && sbuf.pool[..][curr..curr + 188] == Unmarked(p[..at] + k.Decrypted(kind, p[at..]))
        && OnlyPacket(old(sbuf.pool[..]), sbuf.pool[..], curr)
    {
      hide Unmarked, Multi2.CbcDecrypt, OnlyPacket;
      var pool := sbuf.pool;
      ghost var before := pool[..];
      ghost var p: Packet188 := before[curr..curr + 188];
      code := Multi2.DecryptBuffer(k, kind, pool, curr + at, 188 - at);
      Rejoined(before, curr + at, curr + 188);
      if code >= 0 {
        InPlace(before, curr, at, k.Decrypted(kind, p[at..]));
        assert before[curr + at..curr + 188] == p[at..];
        ghost var mid := pool[..];
        pool[curr + 3] := pool[curr + 3] & 0x3f;
        assert pool[..] == mid[curr + 3 := mid[curr + 3] & 0x3f];
      }
    }

    /** The packet at curr is descrambled where it stands. */
    method DescrambleAt(curr: nat) returns (code: int)
      requires Valid() && curr + 188 <= sbuf.pool.Length
      modifies this`state, sbuf.pool
      ensures Valid()
      ensures var p := old(sbuf.pool[..])[curr..curr + 188];
        Descramble(old(state), p) == (state, sbuf.pool[..][curr..curr + 188], code)
      ensures OnlyPacket(old(sbuf.pool[..]), sbuf.pool[..], curr)
    {
      hide Counted, HasPayload, HasAdaptation, PayloadAt, PidOf, Scrambling, Unmarked, Multi2.CbcDecrypt, OnlyPacket;
      NoChange(sbuf.pool[..], curr);
      var p: Packet188 := sbuf.pool[curr..curr + 188];
      var pid, at := PidOf(p), PayloadAt(p);
      if Scrambling(p) == 0 || !HasPayload(p) || at > PACKET {
        state := Counted(state, pid, 1, 0);
        return 0;
      }
      var dec := Chosen(state.links, pid);
      if dec.None? || state.links.decs[dec.value].m2.None? {
        state := Counted(state, pid, 0, 1);
        return 0;
      }
      Streams.AdaptationIsInside(p);
      var m := DecipherAt(curr, at, state.links.decs[dec.value].m2.value, Scrambling(p));
      if m < 0 {
        return ERROR_DECRYPT_FAILURE;
      }
      state := Counted(state, pid, 1, 0);
      return 0;
    }

    /** One packet: counted, descrambled, appended to the output, and then read
        for what it says. */
    method HandleAt(curr: nat) returns (step: Step)
      requires Valid() && curr + 188 <= sbuf.pool.Length
      modifies this`state, sbuf.pool, dbuf, dbuf.pool
      ensures Valid() && (dbuf.pool == old(dbuf.pool) || fresh(dbuf.pool))
      ensures step == Handle(cfg, old(state), old(sbuf.pool[..])[curr..curr + 188])
      ensures state == if step.Skip? then old(state) else step.state
      ensures dbuf.Contents() == old(dbuf.Contents()) + (if !step.Skip? && step.out.Some? then step.out.value else [])
      ensures OnlyPacket(old(sbuf.pool[..]), sbuf.pool[..], curr)
      ensures step.Stop? ==> sbuf.pool[..][curr..curr + 188] == step.held
      ensures step.Skip? ==> sbuf.pool[..] == old(sbuf.pool[..])
    {
      hide Descramble, Dispatch, BrokenPacket, PidOf, Transport, OnlyPacket;
      NoChange(sbuf.pool[..], curr);
      var p: Packet188 := sbuf.pool[curr..curr + 188];
      if Transport(p) != 0 {
        dbuf.Append(p);
        return Next(state, Some(p), None);
      }
      if PidOf(p) == 0x1fff && cfg.strip {
        return Next(state, None, None);
      }
      if BrokenPacket(p) {
        return Skip;
      }
      ghost var before := state;
      var r := DescrambleAt(curr);
      var q: Packet188 := sbuf.pool[curr..curr + 188];
      if r < 0 {
        return Stop(state, None, q, r);
      }
      dbuf.Append(q);
      var (s2, r2, leave) := Dispatch(cfg, state, q);
      state := s2;
      return if Bad(r2) || leave then Stop(s2, Some(q), q, Given(r2)) else Next(s2, Some(q), r2);
    }

    /** Where the next packet starts, if enough of the input is there. */
    method CursorAt(curr: nat) returns (p: Option<nat>)
      requires Tuned() && curr + unitSize < sbuf.tail
      ensures var c := Cursor(sbuf.pool[curr..sbuf.tail], unitSize);
        if c.None? then p.None? else p == Some(curr + c.value)
    {
      hide Resync;
      if sbuf.pool[curr] == SYNC && sbuf.pool[curr + unitSize] == SYNC {
        return Some(curr);
      }
      p := FindSync(sbuf.pool, curr, sbuf.tail, unitSize);
    }

    /** One turn of the packet loop, from the byte at curr on. */
    method TurnAt(curr: nat) returns (t: Turn)
      requires Tuned() && curr + unitSize < sbuf.tail
      modifies this`state, sbuf.pool, dbuf, dbuf.pool
      ensures Tuned() && (dbuf.pool == old(dbuf.pool) || fresh(dbuf.pool))
      ensures t == TurnOf(cfg, unitSize, old(state), old(sbuf.pool[curr..sbuf.tail]))
      ensures state == if t.Halt? then old(state) else t.state
      ensures dbuf.Contents() == old(dbuf.Contents()) + (if !t.Halt? && t.out.Some? then t.out.value else [])
      ensures InPool(t, old(sbuf.pool[curr..sbuf.tail]), sbuf.pool[..], curr, sbuf.tail)
    {
      hide Handle, Cursor, TurnOf, WorkBuffer.Contents, InPool, OnlyPacket, AfterStep;
      ghost var buf := sbuf.pool[curr..sbuf.tail];
      ghost var before, s := sbuf.pool[..], state;
      var at := CursorAt(curr);
      if at.None? {
        TurnUnfolds(cfg, unitSize, state, buf);
        NothingMoved(buf, before, curr, sbuf.tail);
        return Halt;
      }
      var q, tail := at.value - curr, sbuf.tail;
      var step := HandleAt(at.value);
      t := AfterStep(step, state, q, unitSize, sbuf.pool[at.value..tail]);
      TurnInPool(cfg, unitSize, s, buf, step, q, before, sbuf.pool[..], curr, tail);
    }

    /** The loop itself; the result is where it stopped. */
    method Loop() returns (curr: nat, code: int, ghost r: Scanned)
      requires Tuned()
      modifies this`state, sbuf.pool, dbuf, dbuf.pool
      ensures Tuned() && (dbuf.pool == old(dbuf.pool) || fresh(dbuf.pool)) && sbuf.head <= curr <= sbuf.tail
      ensures r == Scan(cfg, unitSize, old(state), old(sbuf.Contents()), consumed)
      ensures state == r.state && sbuf.pool[curr..sbuf.tail] == r.rest
      ensures dbuf.Contents() == old(dbuf.Contents()) + Payload(r.out)
      ensures code == Given(r.code)
    {
      hide Scan, TurnOf, Handle, Cursor, Payload, Continues, Emit, After, WorkBuffer.Contents, InPool;
      sbuf.ContentsAre();
      ghost var output := dbuf.Contents();
      ghost var out: seq<Emitted>, last: Option<int> := [], None;
      curr, code := sbuf.head, 0;
      var tail := sbuf.tail;
      r := Scan(cfg, unitSize, state, sbuf.Contents(), consumed);
      NothingYet(r);
      while curr + unitSize < tail
        invariant Tuned() && sbuf.head <= curr <= tail == sbuf.tail
        invariant dbuf.pool == old(dbuf.pool) || fresh(dbuf.pool)
        invariant dbuf.Contents() == output + Payload(out) && code == Given(last)
        invariant Continues(r, out, last, Scan(cfg, unitSize, state, sbuf.pool[curr..tail], consumed + curr - sbuf.head))
        decreases tail - curr
      {
        ghost var buf, at := sbuf.pool[curr..tail], consumed + curr - sbuf.head;
        NextTurn(cfg, unitSize, r, out, last, state, buf, at);
        var t := TurnAt(curr);
        InPoolMeans(t, buf, sbuf.pool[..], curr, tail);
        match t {
          case Halt =>
            return;
          case Go(_, skip, packet, past, c) =>
            out, last := out + Emit(at + skip, packet), Latest(last, c);
            curr := curr + past;
            if c.Some? {
              code := c.value;
            }
          case Leave(_, skip, packet, rest, c) =>
            curr, code := curr + skip, c;
            return;
        }
      }
      ScanHalts(cfg, unitSize, state, sbuf.pool[curr..tail], consumed + curr - sbuf.head);
      NothingMore(r, out, last, state, sbuf.pool[curr..tail], None, None);
    }

    /** proc_arib_std_b25 */
    method Process() returns (code: int, ghost r: Scanned)
      requires Tuned()
      modifies this`state, this`consumed, sbuf`head, sbuf`tail, sbuf.pool, dbuf, dbuf.pool
      ensures Tuned() && (dbuf.pool == old(dbuf.pool) || fresh(dbuf.pool))
      ensures r == Scan(cfg, unitSize, old(state), old(sbuf.Contents()), old(consumed))
      ensures state == r.state && sbuf.Contents() == r.rest
      ensures consumed == old(consumed) + |old(sbuf.Contents())| - |r.rest|
      ensures dbuf.Contents() == old(dbuf.Contents()) + Payload(r.out)
      ensures code == Given(r.code)
    {
      hide Scan, TurnOf, Handle, Payload, WorkBuffer.Contents;
      dbuf.Reserve(dbuf.tail - dbuf.head + (sbuf.tail - sbuf.head));
      var curr: nat;
      curr, code, r := Loop();
      consumed := consumed + (curr - sbuf.head);
      sbuf.Consume(curr);
    }

    // ----------------------------------------------------- before the loop

    /** One turn of the loop of find_pat, find_pmt and find_ecm, at curr: whether it
        was the last, and where to go on. */
    method LookAhead(hunt: Hunt, curr: nat) returns (over: bool, next: nat, code: int, ghost done: bool)
      requires Tuned() && sbuf.head <= curr && curr + unitSize < sbuf.tail
      modifies this`state
      ensures Tuned() && curr <= next && (!over ==> curr < next)
      ensures var head := sbuf.head;
        var r := Sweep(cfg, unitSize, hunt, old(state), sbuf.Contents(), curr - head);
        if over then r == Searched(state, next - head, done, code)
        else r == Sweep(cfg, unitSize, hunt, state, sbuf.Contents(), next - head)
    {
      hide LookAt, Cursor, Sweep, WorkBuffer.Contents;
      sbuf.ContentsAre();
      ghost var pool := sbuf.pool[..];
      var p := CursorAt(curr);
      Looked(cfg, unitSize, hunt, state, pool, sbuf.head, curr, sbuf.tail, p);
      if p.None? {
        return true, curr, 0, false;
      }
      var look := LookAt(cfg, hunt, state, sbuf.pool[p.value..p.value + 188]);
      state := look.state;
      return look.done, p.value + unitSize, look.code, look.done;
    }

    /** The loop of find_pat, find_pmt and find_ecm. */
    method SweepAhead(hunt: Hunt) returns (code: int, ghost done: bool)
      requires Tuned()
      modifies this`state, this`sbufOffset
      ensures Tuned()
      ensures Searched(state, sbufOffset, done, code) == Sweep(cfg, unitSize, hunt, old(state), sbuf.Contents(), old(sbufOffset))
    {
      hide Sweep, WorkBuffer.Contents;
      sbuf.ContentsAre();
      var head, tail := sbuf.head, sbuf.tail;
      var curr, over := head + sbufOffset, false;
      code, done := 0, false;
      while !over && curr + unitSize < tail
        invariant Tuned() && head <= curr && sbufOffset == old(sbufOffset)
        invariant var r := Sweep(cfg, unitSize, hunt, old(state), sbuf.Contents(), sbufOffset);
          if over then r == Searched(state, curr - head, done, code)
          else code == 0 && !done && r == Sweep(cfg, unitSize, hunt, state, sbuf.Contents(), curr - head)
        decreases !over, tail - curr
      {
        var n;
        ghost var d;
        over, curr, n, d := LookAhead(hunt, curr);
        if over {
          code, done := n, d;
        }
      }
      if !over {
        SweepUnfolds(cfg, unitSize, hunt, state, sbuf.Contents(), curr - head);
      }
      sbufOffset := curr - head;
    }

    /** find_pat */
    method FindPatAhead() returns (code: int, ghost done: bool)
      requires Tuned()
      modifies this`state, this`sbufOffset
      ensures Tuned()
      ensures Searched(state, sbufOffset, done, code) == FindPat(cfg, unitSize, old(state), sbuf.Contents(), old(sbufOffset))
    {
      hide Sweep, ProcPat, WorkBuffer.Contents;
      code, done := SweepAhead(ForPat);
      if state.pat.Some? && state.pat.value.queue != [] {
        var (s, r) := ProcPat(state, state.pat.value);
        state := s;
        return r, true;
      }
    }

    /** How a search ends: with a code to return, or not. */
    ghost function Gated(code: Option<int>, done: bool): Gate
      reads this
    {
      if code.Some? then Held(state, sbufOffset, done, code.value) else Through(state, sbufOffset)
    }

    // The three searches of put_arib_std_b25; the code, if it returns there.

    method PassPat() returns (code: Option<int>, ghost done: bool)
      requires Tuned()
      modifies this`state, this`sbufOffset
      ensures Tuned()
      ensures PatGate(cfg, unitSize, old(state), sbuf.Contents(), old(sbufOffset)) == Gated(code, done)
    {
      hide Sweep, FindPat, WorkBuffer.Contents, WorkBuffer.Valid, PmtComplete, EcmComplete;
      if |state.programs| >= 1 {
        return None, false;
      }
      var n;
      n, done := FindPatAhead();
      if n < 0 {
        return Some(n), done;
      }
      if |state.programs| < 1 {
        return Some(if sbufOffset < PAT_LIMIT then 0 else ERROR_NO_PAT_IN_HEAD_16M), done;
      }
      sbufOffset := 0;
      return None, done;
    }

    method PassPmt() returns (code: Option<int>, ghost done: bool)
      requires Tuned()
      modifies this`state, this`sbufOffset
      ensures Tuned()
      ensures PmtGate(cfg, unitSize, old(state), sbuf.Contents(), old(sbufOffset)) == Gated(code, done)
    {
      hide Sweep, FindPat, WorkBuffer.Contents, WorkBuffer.Valid, PmtComplete, EcmComplete;
      var complete := CheckPmtComplete(state.programs);
      if complete {
        return None, false;
      }
      var n;
      n, done := SweepAhead(ForPmt);
      if n < 0 {
        return Some(n), done;
      }
      complete := CheckPmtComplete(state.programs);
      if !complete {
        return Some(if sbufOffset < PMT_LIMIT then 0 else ERROR_NO_PMT_IN_HEAD_32M), done;
      }
      sbufOffset := 0;
      return None, done;
    }

    method PassEcm() returns (code: Option<int>, ghost done: bool)
      requires Tuned()
      modifies this`state, this`sbufOffset
      ensures Tuned()
      ensures EcmGate(cfg, unitSize, old(state), sbuf.Contents(), old(sbufOffset)) == Gated(code, done)
    {
      hide Sweep, FindPat, WorkBuffer.Contents, WorkBuffer.Valid, PmtComplete, EcmComplete;
      var complete := CheckEcmComplete(state.links);
      if complete {
        return None, false;
      }
      var n;
      n, done := SweepAhead(ForEcm);
      if n < 0 {
        return Some(n), done;
      }
      complete := CheckEcmComplete(state.links);
      if !complete {
        return Some(if sbufOffset < ECM_LIMIT then 0 else ERROR_NO_ECM_IN_HEAD_32M), done;
      }
      sbufOffset := 0;
      return None, done;
    }

    method Search() returns (code: Option<int>, ghost done: bool)
      requires Tuned()
      modifies this`state, this`sbufOffset
      ensures Tuned()
      ensures Admit(cfg, unitSize, old(state), sbuf.Contents(), old(sbufOffset)) == Gated(code, done)
    {
      hide PatGate, PmtGate, EcmGate, WorkBuffer.Contents, WorkBuffer.Valid;
      code, done := PassPat();
      if code.None? {
        code, done := PassPmt();
        if code.None? {
          code, done := PassEcm();
        }
      }
    }

    /** select_unit_size on the bytes in hand. */
    method Tune() returns (code: int)
      requires Valid() && unitSize < 188
      modifies this`unitSize
      ensures Valid()
      ensures var u := Detected(sbuf.Contents());
        if u.Some? then code == 0 && unitSize == u.value && Tuned()
        else code == ERROR_NON_TS_INPUT_STREAM && unitSize == old(unitSize)
    {
      hide UnitSize.MostFrequent, UnitSize.Convincing, WorkBuffer.Contents;
      sbuf.ContentsAre();
      var u := UnitSize.SelectUnitSize(sbuf.pool, sbuf.head, sbuf.tail);
      DetectedIs(sbuf.Contents(), u);
      if u.None? {
        return ERROR_NON_TS_INPUT_STREAM;
      }
      unitSize := u.value;
      return 0;
    }

    /** put_arib_std_b25 */
    method Put(data: seq<byte>) returns (code: int, ghost r: Called)
      requires Valid()
      modifies this`state, this`unitSize, this`sbufOffset, this`consumed, sbuf, sbuf.pool, dbuf, dbuf.pool
      ensures Valid() && (dbuf.pool == old(dbuf.pool) || fresh(dbuf.pool)) && (sbuf.pool == old(sbuf.pool) || fresh(sbuf.pool))
      ensures r == PutCall(cfg, old(Now()), data, old(consumed)) && Now() == r.session && code == r.code
      ensures consumed == old(consumed) + |old(sbuf.Contents())| + |data| - |r.session.rest|
      ensures dbuf.Contents() == old(dbuf.Contents()) + Payload(r.out)
    {
      hide Scan, Admit, Payload, Found, WorkBuffer.Contents;
      r := PutCall(cfg, Now(), data, consumed);
      NothingOut();
      sbuf.Append(data);
      if unitSize < 188 {
        code := Tune();
        if code < 0 {
          return;
        }
      }
      var held: Option<int>;
      ghost var done: bool;
      held, done := Search();
      if held.Some? {
        return held.value, r;
      }
      ghost var call: Scanned;
      code, call := Process();
    }

    /** One put after the other, from any state. */
    method PutAll(chunks: seq<seq<byte>>) returns (ghost r: Called)
      requires Valid()
      modifies this`state, this`unitSize, this`sbufOffset, this`consumed, sbuf, sbuf.pool, dbuf, dbuf.pool
      ensures Valid() && (dbuf.pool == old(dbuf.pool) || fresh(dbuf.pool)) && (sbuf.pool == old(sbuf.pool) || fresh(sbuf.pool))
      ensures r == Puts(cfg, Called(old(Now()), [], 0), chunks, old(consumed) + |old(sbuf.Contents())|)
      ensures Now() == r.session && dbuf.Contents() == old(dbuf.Contents()) + Payload(r.out)
      ensures consumed == old(consumed) + |old(sbuf.Contents())| + |Flatten(chunks)| - |r.session.rest|
    {
      hide PutCall, Puts, Payload, Flatten, WorkBuffer.Contents;
      ghost var output, at := dbuf.Contents(), consumed + |sbuf.Contents()|;
      ghost var start := Called(Now(), [], 0);
      r := start;
      NothingPut(cfg, start, chunks, at);
      for i := 0 to |chunks|
        invariant Valid() && (dbuf.pool == old(dbuf.pool) || fresh(dbuf.pool)) && (sbuf.pool == old(sbuf.pool) || fresh(sbuf.pool))
        invariant r == Puts(cfg, start, chunks[..i], at) && Now() == r.session
        invariant dbuf.Contents() == output + Payload(r.out)
        invariant consumed == at + |Flatten(chunks[..i])| - |r.session.rest|
      {
        PutsOneMore(cfg, start, chunks, at, i);
        FlattenOneMore(chunks, i);
        var code: int;
        ghost var call: Called;
        code, call := Put(chunks[i]);
        PayloadConcat(r.out, call.out);
        r := call.(out := r.out + call.out);
      }
      assert chunks[..|chunks|] == chunks;
    }

    /** get_arib_std_b25: everything in the output, which is then empty. */
    method Get() returns (data: seq<byte>)
      requires Valid()
      modifies dbuf`head, dbuf`tail
      ensures Valid() && data == old(dbuf.Contents()) && dbuf.Contents() == []
    {
      data := dbuf.pool[dbuf.head..dbuf.tail];
      dbuf.Reset();
    }
  }

  /** check_pmt_complete */
  method CheckPmtComplete(ps: seq<Program>) returns (complete: bool)
    ensures complete == PmtComplete(ps)
  {
    var none, more := 0, 0;
    for i := 0 to |ps|
      invariant none >= 0 && (none > 0 <==> exists j | 0 <= j < i :: ps[j].phase == 0)
      invariant more >= 0 && (more > 0 <==> exists j | 0 <= j < i :: ps[j].phase >= 2)
    {
      if ps[i].phase == 0 {
        none := none + 1;
      } else if ps[i].phase >= 2 {
        more := more + 1;
      }
    }
    return more > 0 || none == 0;
  }

  /** check_ecm_complete */
  method CheckEcmComplete(l: Links) returns (complete: bool)
    ensures complete == EcmComplete(l)
  {
    var none, more := 0, 0;
    for i := 0 to |l.order|
      invariant none >= 0 && (none > 0 <==> exists j | 0 <= j < i :: PhaseOf(l, l.order[j]) == 0)
      invariant more >= 0 && (more > 0 <==> exists j | 0 <= j < i :: PhaseOf(l, l.order[j]) >= 2)
    {
      if PhaseOf(l, l.order[i]) == 0 {
        none := none + 1;
      } else if PhaseOf(l, l.order[i]) >= 2 {
        more := more + 1;
      }
    }
    return more > 0 || none == 0;
  }

  /** A new descrambler that is given a stream in pieces does what the puts do one
      after the other, whatever way each of them ends. */
  method Run(cfg: Config, chunks: seq<seq<byte>>) returns (b: AribStdB25)
    ensures fresh(b) && b.Valid() && b.cfg == cfg
    ensures var r := Puts(cfg, Called(Session(NEW_STATE, 0, 0, []), [], 0), chunks, 0);
      && b.Now() == r.session && b.dbuf.Contents() == Payload(r.out)
      && b.consumed == |Flatten(chunks)| - |r.session.rest|
  {
    hide Puts, Payload, Flatten, WorkBuffer.Contents;
    b := new AribStdB25(cfg);
    ghost var r := b.PutAll(chunks);
  }

  lemma NothingOut()
    ensures Payload([]) == []
  {
  }

  /** One turn of a search, on the bytes head..tail of a pool. */
  lemma Looked(cfg: Config, unit: nat, hunt: Hunt, s: State, pool: seq<byte>, head: nat, curr: nat, tail: nat, p: Option<nat>)
    requires 188 <= unit && head <= curr && curr + unit < tail <= |pool|
    requires var c := Cursor(pool[curr..tail], unit); if c.None? then p.None? else p == Some(curr + c.value)
    ensures var r := Sweep(cfg, unit, hunt, s, pool[head..tail], curr - head);
      if p.None? then r == Searched(s, curr - head, false, 0)
      else
        && p.value + unit < tail
        && var look := LookAt(cfg, hunt, s, pool[p.value..p.value + 188]);
           var next := p.value + unit - head;
           r == if look.done then Searched(look.state, next, true, look.code)
                else Sweep(cfg, unit, hunt, look.state, pool[head..tail], next)
  {
    hide LookAt, Cursor, Sweep;
    var buf := pool[head..tail];
    assert buf[curr - head..] == pool[curr..tail];
    SweepUnfolds(cfg, unit, hunt, s, buf, curr - head);
    if p.Some? {
      SliceOfSlice(pool, head, tail, p.value - head, p.value - head + 188);
    }
  }

  lemma NothingPut(cfg: Config, r: Called, chunks: seq<seq<byte>>, at: nat)
    requires |r.session.rest| <= at
    ensures Puts(cfg, r, chunks[..0], at) == r && Flatten(chunks[..0]) == [] && Payload([]) == []
  {
    hide PutCall;
  }

  lemma PutsOneMore(cfg: Config, r: Called, chunks: seq<seq<byte>>, at: nat, i: nat)
    requires |r.session.rest| <= at && i < |chunks|
    ensures var r1, n := Puts(cfg, r, chunks[..i], at), at + |Flatten(chunks[..i])|;
      && |r1.session.rest| <= n
      && Puts(cfg, r, chunks[..i + 1], at) == PutMore(cfg, r1, chunks[i], n - |r1.session.rest|)
  {
    hide PutCall;
    PutsInTwo(cfg, r, chunks[..i], [chunks[i]], at);
    assert chunks[..i] + [chunks[i]] == chunks[..i + 1];
    assert [chunks[i]][1..] == [];
  }

  /** What has been appended and which code there was so far, and what the rest of
      the run comes to. */
  ghost predicate Continues(whole: Scanned, out: seq<Emitted>, last: Option<int>, rest: Scanned) {
    whole == After(out, last, rest)
  }

  lemma NothingYet(r: Scanned)
    ensures Continues(r, [], None, r) && Payload([]) == []
  {
    assert [] + r.out == r.out;
  }

  lemma NothingMore(whole: Scanned, out: seq<Emitted>, last: Option<int>, s: State, rest: seq<byte>, stop: Option<int>,
      code: Option<int>)
    requires Continues(whole, out, last, Scanned(s, [], rest, stop, code))
    ensures whole == Scanned(s, out, rest, stop, Latest(last, code))
  {
  }

  lemma ScanHalts(cfg: Config, unit: nat, s: State, buf: seq<byte>, at: nat)
    requires 188 <= unit && |buf| <= unit
    ensures Scan(cfg, unit, s, buf, at) == Scanned(s, [], buf, None, None)
  {
    hide TurnOf;
    Streams.HaltsAtTheEnd(cfg, unit, s, buf);
  }

  lemma LeftAtOnce(s: State, out: seq<Emitted>, rest: seq<byte>, code: int)
    ensures Scanned(s, out, rest, Some(code), Some(code)) == After(out, Some(code), Scanned(s, [], rest, Some(code), None))
  {
  }

  lemma OneMore(whole: Scanned, out: seq<Emitted>, last: Option<int>, at: nat, packet: Option<Packet188>, code: Option<int>,
      rest: Scanned)
    requires Continues(whole, out, last, After(Emit(at, packet), code, rest))
    ensures Continues(whole, out + Emit(at, packet), Latest(last, code), rest)
    ensures Payload(out + Emit(at, packet)) == Payload(out) + (if packet.Some? then packet.value else [])
  {
    AfterAfter(out, last, Emit(at, packet), code, rest);
    PayloadConcat(out, Emit(at, packet));
    if packet.Some? {
      assert Emit(at, packet)[1..] == [];
      assert Payload(Emit(at, packet)) == packet.value + Payload([]) == packet.value;
    }
  }

  /** What one more turn of the loop comes to. */
  lemma NextTurn(cfg: Config, unit: nat, whole: Scanned, out: seq<Emitted>, last: Option<int>, s: State, buf: seq<byte>, at: nat)
    requires 188 <= unit && Continues(whole, out, last, Scan(cfg, unit, s, buf, at))
    ensures match TurnOf(cfg, unit, s, buf)
      case Halt => whole == Scanned(s, out, buf, None, last)
      case Go(s', skip, packet, past, c) =>
        && skip < past <= |buf|
        && Continues(whole, out + Emit(at + skip, packet), Latest(last, c), Scan(cfg, unit, s', buf[past..], at + past))
        && Payload(out + Emit(at + skip, packet)) == Payload(out) + if packet.Some? then packet.value else []
      case Leave(s', skip, packet, rest, c) =>
        && whole == Scanned(s', out + Emit(at + skip, packet), rest, Some(c), Some(c))
        && Payload(out + Emit(at + skip, packet)) == Payload(out) + if packet.Some? then packet.value else []
  {
    hide Scan, TurnOf, Continues, Payload, Emit, After;
    ScanUnfolds(cfg, unit, s, buf, at);
    TurnFits(cfg, unit, s, buf);
    match TurnOf(cfg, unit, s, buf) {
      case Halt =>
        NothingMore(whole, out, last, s, buf, None, None);
      case Go(s', skip, packet, past, c) =>
        OneMore(whole, out, last, at + skip, packet, c, Scan(cfg, unit, s', buf[past..], at + past));
      case Leave(s', skip, packet, rest, c) =>
        LeftAtOnce(s', Emit(at + skip, packet), rest, c);
        OneMore(whole, out, last, at + skip, packet, Some(c), Scanned(s', [], rest, Some(c), None));
        NothingMore(whole, out + Emit(at + skip, packet), Some(c), s', rest, Some(c), None);
    }
  }

  /** What a turn leaves of the bytes from..to of a pool. */
  ghost predicate InPool(t: Turn, buf: seq<byte>, pool: seq<byte>, from: nat, to: nat) {
    && from + |buf| == to <= |pool|
    && match t
       case Halt => pool[from..to] == buf
       case Go(_, _, _, past, _) => past <= |buf| && pool[from + past..to] == buf[past..]
       case Leave(_, skip, _, rest, _) => skip <= |buf| && pool[from + skip..to] == rest
  }

  lemma InPoolMeans(t: Turn, buf: seq<byte>, pool: seq<byte>, from: nat, to: nat)
    requires InPool(t, buf, pool, from, to)
    ensures from + |buf| == to <= |pool|
    ensures t.Halt? ==> pool[from..to] == buf
    ensures t.Go? ==> t.past <= |buf| && pool[from + t.past..to] == buf[t.past..]
    ensures t.Leave? ==> t.skip <= |buf| && pool[from + t.skip..to] == t.rest
  {
  }

  lemma NothingMoved(buf: seq<byte>, pool: seq<byte>, from: nat, to: nat)
    requires from <= to <= |pool| && buf == pool[from..to]
    ensures InPool(Halt, buf, pool, from, to)
  {
  }

  lemma TurnFits(cfg: Config, unit: nat, s: State, buf: seq<byte>)
    requires 188 <= unit
    ensures var t := TurnOf(cfg, unit, s, buf); t.Go? ==> t.skip < t.past <= |buf|
  {
    hide TurnOf;
  }

  /** The turn, once the packet has been handled. */
  function AfterStep(step: Step, s: State, q: nat, unit: nat, rest: seq<byte>): Turn {
    match step
    case Skip => Go(s, q, None, q + 1, None)
    case Next(s', out, code) => Go(s', q, out, q + unit, code)
    case Stop(s', out, _, code) => Leave(s', q, out, rest, code)
  }

  lemma TurnInPool(cfg: Config, unit: nat, s: State, buf: seq<byte>, step: Step, q: nat, before: seq<byte>, pool: seq<byte>,
      from: nat, to: nat)
    requires 188 <= unit < |buf| && from + |buf| == to <= |before| == |pool| && buf == before[from..to]
    requires Cursor(buf, unit) == Some(q) && step == Handle(cfg, s, before[from + q..from + q + 188])
    requires OnlyPacket(before, pool, from + q)
    requires step.Skip? ==> pool == before
    requires step.Stop? ==> pool[from + q..from + q + 188] == step.held
    ensures var t := AfterStep(step, if step.Skip? then s else step.state, q, unit, pool[from + q..to]);
      && t == TurnOf(cfg, unit, s, buf) && InPool(t, buf, pool, from, to) && !t.Halt?
      && t.state == (if step.Skip? then s else step.state) && t.out == if step.Skip? then None else step.out
  {
    hide Handle, Cursor, TurnOf;
    TurnUnfolds(cfg, unit, s, buf);
    PacketBytes(before, from, q, to);
    match step
    case Skip => LaterBytes(pool, before, from, 0, q + 1, to);
    case Next(_, _, _) => LaterBytes(pool, before, from, q + 188, q + unit, to);
    case Stop(_, _, _, _) => HeldBytes(pool, before, from, q, to);
  }

  // The bytes from..to of a pool, before and after a change to one packet.

  lemma PacketBytes(s: seq<byte>, from: nat, q: nat, to: nat)
    requires from + q + 188 <= to <= |s|
    ensures s[from + q..from + q + 188] == s[from..to][q..q + 188]
  {
    SliceOfSlice(s, from, to, q, q + 188);
  }

  lemma LaterBytes(s': seq<byte>, s: seq<byte>, from: nat, same: nat, k: nat, to: nat)
    requires from + same <= |s| == |s'| && s'[from + same..] == s[from + same..] && same <= k && from + k <= to <= |s|
    ensures s'[from + k..to] == s[from..to][k..]
  {
    SameLater(s', s, from + same, from + k, to);
    SliceOfSlice(s, from, to, k, to - from);
    assert s[from..to][k..to - from] == s[from..to][k..];
  }

  lemma HeldBytes(s': seq<byte>, s: seq<byte>, from: nat, q: nat, to: nat)
    requires from + q + 188 <= to <= |s| == |s'| && s'[from + q + 188..] == s[from + q + 188..]
    ensures s'[from + q..to] == s'[from + q..from + q + 188] + s[from..to][q + 188..]
  {
    LaterBytes(s', s, from, q + 188, q + 188, to);
    var p := from + q;
    assert s'[p..to] == s'[p..p + 188] + s'[p + 188..to];
  }
}
