// TS_WORK_BUFFER: a growable byte buffer whose head moves forward as bytes are
// consumed. What lies between head and tail behaves as a sequence.

module WorkBuffers {
  import opened Bytes

  class WorkBuffer {
    // An array of no bytes stands for a pool that is not allocated; max is
    // always the length of the pool.
    var pool: array<byte>
    var head: nat
    var tail: nat

    // Bytes appended, and bytes copied by growth, since the last release.
    ghost var appended: nat
    ghost var copied: nat

    ghost predicate Valid()
      reads this
    {
      head <= tail <= pool.Length && (pool.Length == 0 || pool.Length >= 512)
    }

    ghost function Contents(): (r: seq<byte>)
      requires Valid()
      reads this, pool
      ensures |r| == tail - head
    {
      pool[head..tail]
    }

    lemma ContentsAre()
      requires Valid()
      ensures Contents() == pool[head..tail]
    {
    }

    /** Nothing but appends happened since the buffer was empty: then growth
        has copied fewer bytes than twice those appended. */
    ghost predicate OnlyAppends()
      reads this
    {
      head == 0 && tail == appended && copied <= pool.Length && (copied == 0 || copied < 2 * appended)
    }

    constructor ()
      ensures Valid() && Contents() == [] && OnlyAppends() && appended == 0 && fresh(pool)
    {
      pool := new byte[0];
      head, tail, appended, copied := 0, 0, 0, 0;
    }

    /** reserve_work_buffer: the pool grows by doubling, and what it holds moves
        to its start. */
    method Reserve(size: int)
      requires Valid()
      modifies this
      ensures Valid() && Contents() == old(Contents()) && appended == old(appended)
      ensures size <= pool.Length && (pool == old(pool) || fresh(pool))
      ensures size <= old(pool.Length) ==> unchanged(this)
      ensures size > old(pool.Length) ==>
        && head == 0 && pool.Length >= 2 * old(pool.Length)
        && copied == old(copied) + (old(tail) - old(head))
    {
      if pool.Length >= size {
        return;
      }
      var n := if pool.Length < 512 then 512 else pool.Length * 2;
      while n < size
        invariant n >= 512 && n >= 2 * pool.Length && n > pool.Length
        decreases size - n
      {
        n := n + n;
      }
      var p := new byte[n];
      var m := tail - head;
      forall i | 0 <= i < m {
        p[i] := pool[head + i];
      }
      copied := copied + m;
      pool, head, tail := p, 0, m;
    }

    /** The copy at the end of append_work_buffer. */
    method Write(data: seq<byte>)
      requires Valid() && tail + |data| <= pool.Length
      modifies this`tail, this`appended, pool
      ensures Valid() && Contents() == old(Contents()) + data
      ensures tail == old(tail) + |data| && appended == old(appended) + |data|
    {
      ghost var before := Contents();
      forall i | 0 <= i < |data| {
        pool[tail + i] := data[i];
      }
      tail := tail + |data|;
      appended := appended + |data|;
      assert pool[head..tail] == before + data;
    }

    /** append_work_buffer */
    method Append(data: seq<byte>)
      requires Valid()
      modifies this, pool
      ensures Valid() && Contents() == old(Contents()) + data
      ensures pool == old(pool) || fresh(pool)
      ensures appended == old(appended) + |data|
      ensures old(OnlyAppends()) ==> OnlyAppends()
    {
      hide Contents;
      if |data| < 1 {
        return;
      }
      if tail + |data| > pool.Length {
        Reserve(tail + |data|);
      }
      Write(data);
    }

    /** The end of a processing call: the bytes before curr are consumed. When
        few bytes are left, or half of the pool is used up, those left move to
        the start of the pool (an overlapping copy that keeps their order). */
    method Consume(curr: nat)
      requires Valid() && head <= curr <= tail
      modifies this`head, this`tail, pool
      ensures Valid() && Contents() == old(pool[curr..tail]) == old(Contents())[curr - old(head)..]
    {
      var m, n := curr - head, tail - curr;
      if n < 1024 || m > pool.Length / 2 {
        forall i | 0 <= i < n {
          pool[i] := pool[curr + i];
        }
        head, tail := 0, n;
      } else {
        head := curr;
      }
    }

    /** reset_work_buffer */
    method Reset()
      requires Valid()
      modifies this`head, this`tail
      ensures Valid() && Contents() == []
    {
      head, tail := 0, 0;
    }

    /** release_work_buffer */
    method Release()
      modifies this
      ensures Valid() && Contents() == [] && OnlyAppends() && appended == 0 && fresh(pool)
    {
      pool := new byte[0];
      head, tail, appended, copied := 0, 0, 0, 0;
    }
  }

  /** The buffer after appending each of the given strings to an empty one. */
  method AppendAll(chunks: seq<seq<byte>>) returns (b: WorkBuffer)
    ensures fresh(b) && b.Valid() && b.Contents() == Flatten(chunks)
    ensures b.copied == 0 || b.copied < 2 * |b.Contents()|
  {
    b := new WorkBuffer();
    for i := 0 to |chunks|
      invariant fresh(b) && fresh(b.pool) && b.Valid() && b.OnlyAppends() && b.Contents() == Flatten(chunks[..i])
    {
      FlattenOneMore(chunks, i);
      b.Append(chunks[i]);
    }
    assert chunks[..|chunks|] == chunks;
  }

  function Flatten(chunks: seq<seq<byte>>): seq<byte> {
    if chunks == [] then [] else chunks[0] + Flatten(chunks[1..])
  }

  lemma {:induction false} FlattenConcat(a: seq<seq<byte>>, b: seq<seq<byte>>)
    ensures Flatten(a + b) == Flatten(a) + Flatten(b)
    decreases |a|
  {
    if a == [] {
      assert a + b == b;
    } else {
      assert (a + b)[0] == a[0] && (a + b)[1..] == a[1..] + b;
      FlattenConcat(a[1..], b);
    }
  }

  lemma FlattenOneMore(chunks: seq<seq<byte>>, i: nat)
    requires i < |chunks|
    ensures Flatten(chunks[..i + 1]) == Flatten(chunks[..i]) + chunks[i]
  {
    assert chunks[..i + 1] == chunks[..i] + [chunks[i]];
    FlattenConcat(chunks[..i], [chunks[i]]);
    assert [chunks[i]][1..] == [];
    assert Flatten([chunks[i]]) == chunks[i] + [] == chunks[i];
  }
}
