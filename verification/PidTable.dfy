// The PID map, the decryptor list and the stream lists as the program keeps
// them: an array of entries that point at list nodes, changed in place. Every
// method does to the objects what the function of PidGraph does to the value
// they stand for; on a sound graph no freed decryptor is ever looked at.

module PidTable {
  import opened Bytes
  import opened SectionModel
  import opened PidGraph
  import opened PidInvariant
  import opened LinkedLists
  import Core

  /** map[pid].target: a void pointer in the program. */
  datatype Pointer = Null | ToDecryptor(node: Node<Dec>) | ToProgram(index: nat)

  /** PID_MAP */
  datatype Cell = Cell(ref: int, kind: PidType, normal: nat, undecrypted: nat, target: Pointer)

  ghost predicate Known(t: Pointer, idOf: map<Node<Dec>, nat>) {
    t.ToDecryptor? ==> t.node in idOf
  }

  ghost function TargetOf(t: Pointer, idOf: map<Node<Dec>, nat>): Target
    requires Known(t, idOf)
  {
    match t
    case Null => NoTarget
    case ToDecryptor(n) => Decryptor(idOf[n])
    case ToProgram(i) => ProgramAt(i)
  }

  /** The entry that a cell stands for, when decryptors are numbered. */
  ghost predicate Means(c: Cell, e: Entry, idOf: map<Node<Dec>, nat>) {
    && Known(c.target, idOf)
    && e == Entry(c.ref, c.kind, c.normal, c.undecrypted, TargetOf(c.target, idOf))
  }

  /** Numbers and nodes belong together one to one. */
  ghost predicate Numbered(idOf: map<Node<Dec>, nat>, nodeOf: map<nat, Node<Dec>>, next: nat) {
    && (forall n | n in idOf :: idOf[n] < next && idOf[n] in nodeOf && nodeOf[idOf[n]] == n)
    && (forall i | i in nodeOf :: nodeOf[i] in idOf && idOf[nodeOf[i]] == i)
  }

  /** The listed nodes are those of the decryptors there are, in order. */
  ghost predicate InOrder(nodes: seq<Node<Dec>>, idOf: map<Node<Dec>, nat>, nodeOf: map<nat, Node<Dec>>, order: seq<nat>,
      ids: set<nat>)
  {
    && |order| == |nodes|
    && (forall i | 0 <= i < |nodes| :: nodes[i] in idOf && idOf[nodes[i]] == order[i] && order[i] in ids)
    && (forall i | i in ids :: i in nodeOf && nodeOf[i] in nodes)
  }

  lemma InOrderMore(nodes: seq<Node<Dec>>, idOf: map<Node<Dec>, nat>, nodeOf: map<nat, Node<Dec>>, order: seq<nat>,
      ids: set<nat>, n: Node<Dec>, id: nat)
    requires InOrder(nodes, idOf, nodeOf, order, ids) && Numbered(idOf, nodeOf, id) && n !in idOf
    ensures InOrder(nodes + [n], idOf[n := id], nodeOf[id := n], order + [id], ids + {id})
  {
  }

  lemma InOrderLess(nodes: seq<Node<Dec>>, idOf: map<Node<Dec>, nat>, nodeOf: map<nat, Node<Dec>>, order: seq<nat>,
      ids: set<nat>, k: nat, next: nat)
    requires InOrder(nodes, idOf, nodeOf, order, ids) && Numbered(idOf, nodeOf, next) && k < |nodes|
    requires forall i, j | 0 <= i < j < |nodes| :: nodes[i] != nodes[j]
    ensures InOrder(nodes[..k] + nodes[k + 1..], idOf, nodeOf, order[..k] + order[k + 1..], ids - {order[k]})
    ensures Without(order, order[k]) == order[..k] + order[k + 1..]
  {
    forall i, j | 0 <= i < j < |order| ensures order[i] != order[j] {
      assert nodes[i] != nodes[j];
    }
    hide Without;
    WithoutAt(order, k);
    forall i | i in ids - {order[k]} ensures i in nodeOf && nodeOf[i] in nodes[..k] + nodes[k + 1..] {
      var j :| 0 <= j < |nodes| && nodes[j] == nodeOf[i];
      StillListed(nodes, k, j);
    }
  }

  lemma StillListed(nodes: seq<Node<Dec>>, k: nat, j: nat)
    requires k < |nodes| && j < |nodes| && j != k
    ensures nodes[j] in nodes[..k] + nodes[k + 1..]
  {
    assert (nodes[..k] + nodes[k + 1..])[if j < k then j else j - 1] == nodes[j];
  }

  lemma {:induction false} WithoutAt(order: seq<nat>, k: nat)
    requires k < |order| && forall i, j | 0 <= i < j < |order| :: order[i] != order[j]
    ensures Without(order, order[k]) == order[..k] + order[k + 1..]
    decreases |order|
  {
    if k > 0 {
      assert order[0] != order[k];
      forall i, j | 0 <= i < j < |order[1..]| ensures order[1..][i] != order[1..][j] {
        assert order[i + 1] != order[j + 1];
      }
      WithoutAt(order[1..], k - 1);
      assert order[1..][..k - 1] == order[1..k] && order[1..][k..] == order[k + 1..];
      assert [order[0]] + (order[1..k] + order[k + 1..]) == order[..k] + order[k + 1..];
    }
  }

  lemma NumberedMore(idOf: map<Node<Dec>, nat>, nodeOf: map<nat, Node<Dec>>, next: nat, n: Node<Dec>)
    requires Numbered(idOf, nodeOf, next) && n !in idOf
    ensures Numbered(idOf[n := next], nodeOf[next := n], next + 1)
  {
  }

  lemma NextIsFree(idOf: map<Node<Dec>, nat>, nodeOf: map<nat, Node<Dec>>, next: nat)
    requires Numbered(idOf, nodeOf, next)
    ensures next !in nodeOf && forall n | n in idOf :: idOf[n] < next
  {
  }

  lemma MeansMore(c: Cell, e: Entry, idOf: map<Node<Dec>, nat>, n: Node<Dec>, id: nat)
    requires Means(c, e, idOf) && n !in idOf
    ensures Means(c, e, idOf[n := id])
  {
  }

  class Table {
    const cells: array<Cell>
    const decrypt: List<Dec>

    // The value that the objects stand for. Every decryptor ever made has a
    // number, and keeps it when it is freed.
    ghost var model: Links
    ghost var idOf: map<Node<Dec>, nat>
    ghost var nodeOf: map<nat, Node<Dec>>

    ghost predicate Tied()
      reads this, cells, decrypt, idOf.Keys
    {
      && cells.Length == PIDS
      && (forall p | 0 <= p < PIDS :: Means(cells[p], model.pm[p], idOf))
      && Numbered(idOf, nodeOf, model.nextId)
      && InOrder(decrypt.nodes, idOf, nodeOf, model.order, model.decs.Keys)
      && (forall n | n in decrypt.nodes :: n in idOf)
      && decrypt.Valid()
      && (forall i | i in model.decs :: nodeOf[i] in idOf && nodeOf[i].value == model.decs[i])
    }

    constructor ()
      ensures Tied() && model == NEW_LINKS && idOf == map[] && fresh(cells) && fresh(decrypt)
    {
      cells := new Cell[PIDS](_ => Cell(0, Unknown, 0, 0, Null));
      decrypt := new List<Dec>();
      model, idOf, nodeOf := NEW_LINKS, map[], map[];
    }

    /** An assignment to an entry of the map. */
    method SetCell(p: Pid, c: Cell)
      requires Tied() && Known(c.target, idOf)
      modifies this`model, cells
      ensures Tied() && Means(c, model.pm[p], idOf)
      ensures model == old(model).(pm := old(model).pm[p := model.pm[p]])
    {
      hide List.Valid, InOrder, Numbered;
      cells[p] := c;
      model := model.(pm := model.pm[p := Entry(c.ref, c.kind, c.normal, c.undecrypted, TargetOf(c.target, idOf))]);
    }

    /** An assignment to a field of a decryptor. */
    method SetDec(n: Node<Dec>, d: Dec)
      requires Tied() && n in decrypt.nodes
      modifies this`model, n`value
      ensures Tied() && model == old(model).(decs := old(model).decs[idOf[n] := d])
    {
      hide List.Valid, Means;
      assert model.decs[idOf[n] := d].Keys == model.decs.Keys;
      n.value := d;
      model := model.(decs := model.decs[idOf[n] := d]);
    }

    /** A new decryptor at the end of the list. */
    method Create(p: Pid) returns (n: Node<Dec>)
      requires Tied()
      modifies this`model, this`idOf, this`nodeOf, decrypt, idOf.Keys
      ensures Tied() && fresh(n) && idOf == old(idOf)[n := old(model).nextId] && n in decrypt.nodes
      ensures var id := old(model).nextId;
        model == old(model).(order := old(model).order + [id], decs := old(model).decs[id := NewDec(p)], nextId := id + 1)
    {
      hide List.Valid, Means, Numbered, InOrder;
      n := new Node(NewDec(p));
      decrypt.PutTail(n);
      ghost var id := model.nextId;
      NumberedMore(idOf, nodeOf, id, n);
      InOrderMore(old(decrypt.nodes), idOf, nodeOf, model.order, model.decs.Keys, n, id);
      assert model.decs[id := NewDec(p)].Keys == model.decs.Keys + {id};
      NextIsFree(idOf, nodeOf, id);
      forall q | 0 <= q < PIDS ensures Means(cells[q], model.pm[q], idOf[n := id]) {
        MeansMore(cells[q], model.pm[q], idOf, n, id);
      }
      idOf, nodeOf := idOf[n := id], nodeOf[id := n];
      model := model.(order := model.order + [id], decs := model.decs[id := NewDec(p)], nextId := id + 1);
    }

    /** remove_decryptor */
    method RemoveDecryptor(n: Node<Dec>)
      requires Tied() && n in decrypt.nodes
      modifies this`model, cells, decrypt, decrypt.nodes
      ensures Tied() && model == Remove(old(model), idOf[n])
    {
      hide List.Valid, InOrder, Numbered;
      var pid := n.value.ecmPid;
      ghost var id := idOf[n];
      ListedIsThere(n);
      if cells[pid].kind == Ecm && cells[pid].target == ToDecryptor(n) {
        SetCell(pid, cells[pid].(kind := Unknown, target := Null));
      }
      ghost var k :| 0 <= k < |decrypt.nodes| && decrypt.nodes[k] == n;
      Cut(k);
      decrypt.Unlink(n, k);
      model := model.(order := Without(model.order, id), decs := model.decs - {id});
    }

    lemma ListedIsThere(n: Node<Dec>)
      requires Tied() && n in decrypt.nodes
      ensures n in idOf && idOf[n] in model.decs && nodeOf[idOf[n]] == n && model.decs[idOf[n]] == n.value
      ensures forall c, e | Means(c, e, idOf) :: c.target == ToDecryptor(n) <==> e.target == Decryptor(idOf[n])
    {
      hide List.Valid;
    }

    lemma Cut(k: nat)
      requires Tied() && k < |decrypt.nodes|
      ensures var nodes := decrypt.nodes;
        && InOrder(nodes[..k] + nodes[k + 1..], idOf, nodeOf, Without(model.order, model.order[k]), model.decs.Keys - {model.order[k]})
        && model.order[k] == idOf[nodes[k]]
    {
      InOrderLess(decrypt.nodes, idOf, nodeOf, model.order, model.decs.Keys, k, model.nextId);
    }

    /** One reference less; the last one takes the decryptor along. */
    method ReleaseDecryptor(n: Node<Dec>)
      requires Tied() && n in decrypt.nodes
      modifies this`model, cells, decrypt, idOf.Keys
      ensures Tied() && model == Release(old(model), idOf[n])
    {
      hide Tied, Remove, List.Valid;
      ListedIsThere(n);
      NodesKnown();
      SetDec(n, n.value.(ref := n.value.ref - 1));
      ListedIsThere(n);
      if n.value.ref < 1 {
        RemoveDecryptor(n);
      }
    }

    lemma NodesKnown()
      requires Tied()
      ensures forall n | n in decrypt.nodes :: n in idOf
      ensures cells.Length == PIDS
    {
    }

    lemma CellAt(p: Pid)
      requires Tied()
      ensures cells.Length == PIDS && Means(cells[p], model.pm[p], idOf)
    {
    }

    /** A decryptor of the model is listed. */
    lemma ThereIsListed(n: Node<Dec>)
      requires Tied() && n in idOf && idOf[n] in model.decs
      ensures n in decrypt.nodes
    {
      hide List.Valid, Means;
    }

    /** unref_stream. A stream must not be bound to a decryptor that is gone. */
    method UnrefStream(p: Pid)
      requires Tied() && Sane(model, p)
      modifies this`model, cells, decrypt, idOf.Keys
      ensures Tied() && model == Unref(old(model), p)
    {
      hide Tied, Release, List.Valid;
      CellAt(p);
      var ref := Less(cells[p].ref);
      if ref < 1 {
        if cells[p].kind == Other && cells[p].target.ToDecryptor? {
          ThereIsListed(cells[p].target.node);
          ReleaseDecryptor(cells[p].target.node);
        }
        CellAt(p);
        SetCell(p, cells[p].(kind := Unknown, ref := 0, target := Null));
      } else {
        SetCell(p, cells[p].(ref := ref));
      }
    }

    /** set_decryptor */
    method SetDecryptor(p: Pid) returns (n: Node<Dec>)
      requires Tied() && Sane(model, p)
      modifies this`model, this`idOf, this`nodeOf, cells, decrypt, idOf.Keys
      ensures Tied() && n in idOf && (model, idOf[n]) == PidGraph.SetDecryptor(old(model), p)
      ensures forall m | m in old(idOf) :: m in idOf && idOf[m] == old(idOf)[m]
      ensures fresh(idOf.Keys - old(idOf.Keys))
    {
      hide Tied, Release, List.Valid;
      CellAt(p);
      if cells[p].kind == Ecm && cells[p].target.ToDecryptor? {
        return cells[p].target.node;
      }
      n := Create(p);
      CellAt(p);
      if cells[p].kind == Other && cells[p].target.ToDecryptor? {
        ThereIsListed(cells[p].target.node);
        ReleaseDecryptor(cells[p].target.node);
      }
      CellAt(p);
      SetCell(p, cells[p].(kind := Ecm, target := ToDecryptor(n)));
    }

    /** bind_stream_decryptor, on a PID that was just counted as a stream. */
    method BindStreamDecryptor(p: Pid, dec: Node?<Dec>)
      requires Tied() && (dec != null ==> dec in decrypt.nodes && dec in idOf)
      requires Sane(model, p) && model.pm[p].kind == Other
      modifies this`model, cells, decrypt, idOf.Keys
      ensures Tied() && model == Bind(old(model), p, if dec == null then None else Some(idOf[dec]))
    {
      hide Tied, Remove, List.Valid, Bind, Unbound;
      CellAt(p);
      ghost var l, active := model, if dec == null then None else Some(idOf[dec]);
      var pointer := if dec == null then Null else ToDecryptor(dec);
      SamePointer(cells[p].target, pointer);
      if dec != null {
        ListedIsThere(dec);
      }
      if cells[p].target == pointer {
        BindSame(l, p, active);
        return;
      }
      StaysThere(l, p, active);
      BindViaUnbound(l, p, active);
      Unbind(p);
      if dec != null {
        ThereIsListed(dec);
        ListedIsThere(dec);
        SetDec(dec, dec.value.(ref := dec.value.ref + 1));
        CellAt(p);
        SetCell(p, cells[p].(target := pointer));
      }
    }

    lemma StaysThere(l: Links, p: Pid, dec: Option<nat>)
      requires dec.Some? ==> dec.value in l.decs && l.pm[p].target != Decryptor(dec.value)
      ensures dec.Some? ==> dec.value in Unbound(l, p).decs
    {
    }

    lemma SamePointer(a: Pointer, b: Pointer)
      requires Tied() && Known(a, idOf) && Known(b, idOf)
      ensures a == b <==> TargetOf(a, idOf) == TargetOf(b, idOf)
    {
      hide List.Valid, Means, InOrder;
    }

    /** The first half: a PID that was bound is bound no longer. */
    method Unbind(p: Pid)
      requires Tied() && Sane(model, p) && model.pm[p].kind == Other
      modifies this`model, cells, decrypt, idOf.Keys
      ensures Tied() && model == Unbound(old(model), p)
    {
      hide Tied, Remove, List.Valid;
      CellAt(p);
      if cells[p].target.ToDecryptor? {
        var o := cells[p].target.node;
        ThereIsListed(o);
        ListedIsThere(o);
        NodesKnown();
        SetDec(o, o.value.(ref := o.value.ref - 1));
        ListedIsThere(o);
        if o.value.ref == 0 {
          RemoveDecryptor(o);
        }
      }
      CellAt(p);
      SetCell(p, cells[p].(target := Null));
    }

    /** add_ecm_stream */
    method AddEcmStream(list: seq<Stream>, p: Pid) returns (listed: seq<Stream>)
      requires Tied()
      modifies this`model, cells
      ensures Tied() && (model, listed) == AddEcm(old(model), list, p)
    {
      hide Tied;
      for i := 0 to |list|
        invariant forall s | s in list[..i] :: s.pid != p
      {
        if list[i].pid == p {
          return list;
        }
      }
      assert list[..|list|] == list;
      CellAt(p);
      SetCell(p, cells[p].(ref := cells[p].ref + 1));
      return list + [Stream(p, ECM_STREAM_KIND)];
    }

    /** Every stream of a list that is given up loses one reference. */
    method UnrefStreams(list: seq<Stream>, ghost roles: Roles, ghost uses: multiset<nat>, ghost held: Option<nat>)
      requires Tied() && Inv(roles, model, uses, held, {}) && Listed(list) <= uses
      modifies this`model, cells, decrypt, idOf.Keys
      ensures Tied() && model == UnrefAll(old(model), list)
    {
      hide Tied, Inv, Unref, Listed;
      ghost var left := uses;
      for i := 0 to |list|
        invariant Tied() && UnrefAll(old(model), list) == UnrefAll(model, list[i..])
        invariant Inv(roles, model, left, held, {}) && Listed(list[i..]) <= left
      {
        ListedFirst(list, i);
        assert list[i..][0] == list[i] && list[i..][1..] == list[i + 1..];
        UnrefKeeps(roles, model, left, held, list[i].pid);
        SoundIsSane(roles, model, left, held, {}, list[i].pid);
        UnrefStream(list[i].pid);
        left := left - multiset{list[i].pid as nat};
      }
    }

    /** One turn of the stream loop of proc_pmt. */
    method AddStreamEntry(list: seq<Stream>, major: Node?<Dec>, es: EsEntry, ghost roles: Roles, ghost rest: multiset<nat>,
        ghost held: Option<nat>)
      returns (listed: seq<Stream>)
      requires Tied() && NumberIs(major, held)
      requires Inv(roles, model, rest + Listed(list), held, {}) && EsFits(roles, es)
      modifies this`model, this`idOf, this`nodeOf, cells, decrypt, idOf.Keys
      ensures Tied() && (model, listed) == AddStream(old(model), list, held, es)
      ensures Numbers(old(idOf)) && fresh(idOf.Keys - old(idOf.Keys))
    {
      hide Tied, Inv, Bind, Listed, PidGraph.SetDecryptor, AddEcm;
      ghost var l := model;
      AddStreamStages(roles, l, rest, held, list, es);
      var own: Node?<Dec> := null;
      listed := list;
      if Real(es.ecm) {
        own := SetDecryptor(es.ecm);
        listed := AddEcmStream(listed, es.ecm);
      }
      CellAt(es.pid);
      SetCell(es.pid, cells[es.pid].(kind := Other, ref := cells[es.pid].ref + 1));
      var active := if own != null then own else if es.ecm == 0x1fff then null else major;
      if active != null {
        ThereIsListed(active);
      }
      BindStreamDecryptor(es.pid, active);
      listed := listed + [Stream(es.pid, es.kind)];
    }

    method AddStreamEntries(list: seq<Stream>, major: Node?<Dec>, ess: seq<EsEntry>, ghost roles: Roles,
        ghost rest: multiset<nat>, ghost held: Option<nat>)
      returns (listed: seq<Stream>)
      requires Tied() && NumberIs(major, held)
      requires Inv(roles, model, rest + Listed(list), held, {}) && forall i | 0 <= i < |ess| :: EsFits(roles, ess[i])
      modifies this`model, this`idOf, this`nodeOf, cells, decrypt, idOf.Keys
      ensures Tied() && (model, listed) == AddStreams(old(model), list, held, ess)
      ensures Numbers(old(idOf)) && fresh(idOf.Keys - old(idOf.Keys))
      ensures Inv(roles, model, rest + Listed(listed), held, {})
    {
      hide Tied, Inv, AddStream, Listed, EsFits;
      listed := list;
      for i := 0 to |ess|
        invariant Tied() && NumberIs(major, held) && Numbers(old(idOf)) && fresh(idOf.Keys - old(idOf.Keys))
        invariant Inv(roles, model, rest + Listed(listed), held, {})
        invariant AddStreams(old(model), list, held, ess) == AddStreams(model, listed, held, ess[i..])
      {
        AddStreamKeeps(roles, model, rest, held, listed, ess[i]);
        assert ess[i..][0] == ess[i] && ess[i..][1..] == ess[i + 1..];
        listed := AddStreamEntry(listed, major, ess[i], roles, rest, held);
      }
    }

    /** The major decryptor of a PMT, held while the streams change. */
    method HoldMajor(major: Pid, ghost roles: Roles, ghost uses: multiset<nat>) returns (n: Node<Dec>)
      requires Tied() && Inv(roles, model, uses, None, {}) && roles(major) == EcmRole
      modifies this`model, this`idOf, this`nodeOf, cells, decrypt, idOf.Keys
      ensures Tied() && n in idOf && Inv(roles, model, uses, Some(idOf[n]), {})
      ensures var (l, id) := PidGraph.SetDecryptor(old(model), major);
        id == idOf[n] && id in l.decs && model == SetRef(l, id, l.decs[id].ref + 1)
      ensures fresh(idOf.Keys - old(idOf.Keys))
    {
      hide Tied, Inv, PidGraph.SetDecryptor;
      TakeMajor(roles, model, uses, major);
      SoundIsSane(roles, model, uses, None, {}, major);
      n := SetDecryptor(major);
      ThereIsListed(n);
      ListedIsThere(n);
      SetDec(n, n.value.(ref := n.value.ref + 1));
    }

    /** proc_pmt, for a section whose loops were read. */
    method ProcPmt(program: TsProgram, major: Pid, ess: seq<EsEntry>, ghost roles: Roles, ghost rest: multiset<nat>)
      requires Tied() && PmtFits(roles, major, ess)
      requires Inv(roles, model, rest + (Listed(program.oldStreams) + Listed(program.streams)), None, {})
      modifies this`model, this`idOf, this`nodeOf, cells, decrypt, idOf.Keys, program`streams, program`oldStreams
      ensures Tied() && (model, program.Value()) == ApplyPmt(old(model), old(program.Value()), major, ess)
    {
      hide Tied, Inv, PidGraph.SetDecryptor, UnrefAll, AddEcm, AddStreams, PidGraph.Release, Listed, SetRef;
      ghost var p := program.Value();
      ghost var uses := rest + (Listed(p.oldStreams) + Listed(p.streams));
      ghost var base := rest + Listed(p.streams);
      var dec: Node?<Dec> := null;
      ghost var held: Option<nat> := None;
      if Real(major) {
        dec := HoldMajor(major, roles, uses);
        held := Some(idOf[dec]);
      }
      UnrefAllKeeps(roles, model, uses, held, p.oldStreams);
      NoneListed();
      assert uses - Listed(p.oldStreams) == base && base + Listed([]) == base;
      UnrefStreams(program.oldStreams, roles, uses, held);
      program.oldStreams := program.streams;
      program.streams := [];
      if Real(major) {
        AddEcmKeeps(roles, model, base, held, {}, [], major);
        program.streams := AddEcmStream(program.streams, major);
      }
      program.streams := AddStreamEntries(program.streams, dec, ess, roles, base, held);
      if dec != null {
        HeldIsThere(roles, model, base + Listed(program.streams), held, {});
        ThereIsListed(dec);
        ReleaseDecryptor(dec);
      }
    }

    /** release_program, apart from its section parser. */
    method ReleaseProgram(program: TsProgram, ghost roles: Roles, ghost rest: multiset<nat>)
      requires Tied() && roles(program.pmtPid) == PmtRole
      requires Inv(roles, model, Listed(program.oldStreams) + Listed(program.streams) + rest, None, {})
      modifies this`model, cells, decrypt, idOf.Keys, program`streams, program`oldStreams
      ensures Tied() && model == PidGraph.ReleaseProgram(old(model), old(program.Value()))
      ensures program.streams == [] && program.oldStreams == []
    {
      hide Tied, Inv, UnrefAll, Listed;
      ghost var uses := Listed(program.oldStreams) + Listed(program.streams) + rest;
      UnrefAllKeeps(roles, model, uses, None, program.oldStreams);
      assert uses - Listed(program.oldStreams) == Listed(program.streams) + rest;
      UnrefStreams(program.oldStreams, roles, uses, None);
      UnrefStreams(program.streams, roles, Listed(program.streams) + rest, None);
      program.oldStreams, program.streams := [], [];
      CellAt(program.pmtPid);
      SetCell(program.pmtPid, cells[program.pmtPid].(kind := Unknown, ref := 0, target := Null));
    }

    /** proc_cat, for the EMM PID that the section names. */
    method ProcCat(emm: Pid)
      requires Tied() && Sane(model, emm)
      modifies this`model, cells, decrypt, idOf.Keys
      ensures Tied() && model == ApplyCat(old(model), emm)
    {
      hide Tied, PidGraph.Release;
      if Real(emm) {
        CellAt(emm);
        if cells[emm].kind == Other && cells[emm].target.ToDecryptor? {
          ThereIsListed(cells[emm].target.node);
          ReleaseDecryptor(cells[emm].target.node);
        }
        CellAt(emm);
        SetCell(emm, cells[emm].(ref := 1, kind := Emm, target := Null));
      }
      CellAt(1);
      SetCell(1, cells[1].(ref := 1, kind := Cat, target := Null));
    }

    /** Every program of the old table is released. */
    method ReleaseAll(programs: seq<TsProgram>, ghost values: seq<Program>, ghost roles: Roles)
      requires Tied() && Stand(programs, values) && PidInvariant.Valid(roles, model, values)
      modifies this`model, cells, decrypt, idOf.Keys, programs
      ensures Tied() && model == ReleasePrograms(old(model), values)
    {
      hide Tied, Inv, PidGraph.ReleaseProgram, Listed;
      for i := 0 to |programs|
        invariant Tied() && ReleasePrograms(old(model), values) == ReleasePrograms(model, values[i..])
        invariant Inv(roles, model, AllListed(values[i..]), None, {})
        invariant forall j | i <= j < |programs| :: programs[j].Value() == values[j]
      {
        assert values[i..][0] == values[i] && values[i..][1..] == values[i + 1..];
        ReleaseProgramKeeps(roles, model, AllListed(values[i + 1..]), values[i]);
        ReleaseProgram(programs[i], roles, AllListed(values[i + 1..]));
      }
    }

    /** memset of the map */
    method ClearMap()
      requires Tied()
      modifies this`model, cells
      ensures Tied() && model == old(model).(pm := seq(0x2000, _ => BLANK))
    {
      hide Tied;
      for p := 0 to PIDS
        invariant Tied() && model == old(model).(pm := model.pm)
        invariant forall q | 0 <= q < p :: model.pm[q] == BLANK
      {
        SetCell(p, Cell(0, Unknown, 0, 0, Null));
      }
      var blank: PidMap := seq(0x2000, _ => BLANK);
      assert model.pm == blank;
    }

    /** The programs of the new table, entered one by one. */
    method EnterPrograms(entries: seq<PatEntry>) returns (work: seq<TsProgram>)
      requires Tied()
      modifies this`model, cells
      ensures Tied() && Stand(work, NewPrograms(entries)) && fresh(work)
      ensures model == old(model).(pm := PmtEntries(old(model).pm, NewPrograms(entries), 0))
    {
      hide Tied, NewPrograms, PmtEntries;
      ghost var values: seq<Program> := [];
      work := [];
      NothingEntered(model.pm);
      for i := 0 to |entries|
        invariant Tied() && fresh(work) && Stand(work, values) && values == NewPrograms(entries[..i])
        invariant model == old(model).(pm := PmtEntries(old(model).pm, values, 0))
      {
        OneMoreEntry(entries, i);
        if entries[i].number != 0 {
          var p := entries[i].pid;
          var program := new TsProgram(entries[i].number, p);
          OneMorePmt(old(model).pm, values, 0, NewProgram(entries[i].number, p));
          CellAt(p);
          SetCell(p, cells[p].(kind := Pmt, target := ToProgram(|work|)));
          work := work + [program];
          values := values + [NewProgram(entries[i].number, p)];
        }
      }
      assert entries[..|entries|] == entries;
    }

    /** proc_pat, for a section whose entries were read. */
    method ProcPat(programs: seq<TsProgram>, entries: seq<PatEntry>, ghost values: seq<Program>, ghost roles: Roles)
      returns (work: seq<TsProgram>)
      requires Tied() && Stand(programs, values) && PidInvariant.Valid(roles, model, values)
      modifies this`model, cells, decrypt, idOf.Keys, programs
      ensures Tied() && fresh(work) && Stand(work, ApplyPat(old(model), values, entries).1)
      ensures model == ApplyPat(old(model), values, entries).0
    {
      hide Tied, Inv, ReleasePrograms, NewPrograms, PmtEntries;
      ReleaseAll(programs, values, roles);
      ClearMap();
      work := EnterPrograms(entries);
      CellAt(0);
      SetCell(0, cells[0].(ref := 1, kind := Pat, target := Null));
    }

    /** unlock_all_decryptor */
    method UnlockAllDecryptor()
      requires Tied()
      modifies this`model, decrypt.nodes
      ensures Tied() && model == Core.UnlockAll(old(model))
    {
      hide Tied, List.Valid, InOrder, Unlocked, Core.UnlockAll;
      ghost var l := model;
      UnlockedNone(l);
      NodeAt(0);
      AllInOrder();
      var e := decrypt.head;
      ghost var i := 0;
      while e != null
        invariant Tied() && decrypt.nodes == old(decrypt.nodes) && i <= |l.order| == |decrypt.nodes|
        invariant e == if i < |decrypt.nodes| then decrypt.nodes[i] else null
        invariant model == Unlocked(l, i)
        decreases |l.order| - i
      {
        NodeAt(i);
        UnlockedMore(l, i);
        SetDec(e, e.value.(locked := 0));
        NodeAt(i);
        e := e.next;
        i := i + 1;
      }
      UnlockedAll(l);
    }

    lemma NodeAt(i: nat)
      requires Tied()
      ensures |model.order| == |decrypt.nodes|
      ensures decrypt.head == if decrypt.nodes == [] then null else decrypt.nodes[0]
      ensures i < |decrypt.nodes| ==>
        var n := decrypt.nodes[i];
        && n.next == (if i + 1 < |decrypt.nodes| then decrypt.nodes[i + 1] else null)
        && n in decrypt.nodes && n in idOf && idOf[n] == model.order[i] && model.order[i] in model.decs
        && n.value == model.decs[model.order[i]]
    {
    }

    lemma AllInOrder()
      requires Tied()
      ensures forall id | id in model.decs :: id in model.order
      ensures forall i | 0 <= i < |model.order| :: model.order[i] in model.decs
    {
      hide List.Valid, Means;
      forall id | id in model.decs ensures id in model.order {
        ghost var i :| 0 <= i < |decrypt.nodes| && decrypt.nodes[i] == nodeOf[id];
      }
    }

    /** The node, or none, that a number stands for. */
    ghost predicate NumberIs(n: Node?<Dec>, id: Option<nat>)
      reads this
    {
      if n == null then id == None else n in idOf && id == Some(idOf[n])
    }

    /** Decryptors keep their numbers. */
    ghost predicate Numbers(before: map<Node<Dec>, nat>)
      reads this
    {
      forall n | n in before :: n in idOf && idOf[n] == before[n]
    }
  }

  /** The first k decryptors of the list unlocked. */
  function Unlocked(l: Links, k: nat): Links
    requires k <= |l.order|
  {
    l.(decs := map id | id in l.decs :: if id in l.order[..k] then l.decs[id].(locked := 0) else l.decs[id])
  }

  /** The program objects stand for these values, each for its own. */
  ghost predicate Stand(programs: seq<TsProgram>, values: seq<Program>)
    reads programs
  {
    && |programs| == |values| && (forall i | 0 <= i < |programs| :: programs[i].Value() == values[i])
    && (forall i, j | 0 <= i < j < |programs| :: programs[i] != programs[j])
  }

  lemma NothingEntered(pm: PidMap)
    ensures PmtEntries(pm, [], 0) == pm && NewPrograms([]) == []
  {
  }

  lemma {:induction false} OneMoreEntry(entries: seq<PatEntry>, i: nat)
    requires i < |entries|
    ensures NewPrograms(entries[..i + 1]) == NewPrograms(entries[..i])
         + if entries[i].number == 0 then [] else [NewProgram(entries[i].number, entries[i].pid)]
    decreases i
  {
    var now, next := entries[..i], entries[..i + 1];
    if i == 0 {
      assert next == [entries[0]] && next[1..] == [];
    } else {
      assert now[0] == next[0] == entries[0];
      assert now[1..] == entries[1..][..i - 1] && next[1..] == entries[1..][..i];
      OneMoreEntry(entries[1..], i - 1);
    }
  }

  lemma {:induction false} OneMorePmt(pm: PidMap, ps: seq<Program>, at: nat, p: Program)
    requires at <= |ps|
    ensures var pm' := PmtEntries(pm, ps, at);
      PmtEntries(pm, ps + [p], at) == pm'[p.pmtPid := pm'[p.pmtPid].(kind := Pmt, target := ProgramAt(|ps|))]
    decreases |ps| - at
  {
    if at == |ps| {
      var q := p.pmtPid;
      assert (ps + [p])[at] == p;
      assert PmtEntries(pm[q := pm[q].(kind := Pmt, target := ProgramAt(at))], ps + [p], at + 1)
          == pm[q := pm[q].(kind := Pmt, target := ProgramAt(at))];
    } else {
      var q := ps[at].pmtPid;
      assert (ps + [p])[at] == ps[at];
      OneMorePmt(pm[q := pm[q].(kind := Pmt, target := ProgramAt(at))], ps, at + 1, p);
    }
  }

  lemma UnlockedNone(l: Links)
    ensures Unlocked(l, 0) == l
  {
    assert Unlocked(l, 0).decs == l.decs;
  }

  lemma UnlockedMore(l: Links, k: nat)
    requires k < |l.order| && l.order[k] in l.decs
    ensures var l', id := Unlocked(l, k), l.order[k];
      && l'.order == l.order && id in l'.decs
      && Unlocked(l, k + 1) == l'.(decs := l'.decs[id := l'.decs[id].(locked := 0)])
  {
    assert l.order[..k + 1] == l.order[..k] + [l.order[k]];
  }

  lemma UnlockedAll(l: Links)
    requires forall id | id in l.decs :: id in l.order
    ensures Unlocked(l, |l.order|) == Core.UnlockAll(l)
  {
    assert l.order[..|l.order|] == l.order;
  }

  /** TS_PROGRAM. Its stream lists are values here; the program links their
      elements like those of the decryptor list. */
  class TsProgram {
    const number: int
    const pmtPid: Pid
    var phase: nat
    var pmt: Parser
    var streams: seq<Stream>
    var oldStreams: seq<Stream>

    constructor (number: int, pmtPid: Pid)
      ensures Value() == NewProgram(number, pmtPid)
    {
      this.number, this.pmtPid, phase, pmt, streams, oldStreams := number, pmtPid, 0, NEW_PARSER, [], [];
    }

    function Value(): Program
      reads this
    {
      Program(phase, number, pmtPid, pmt, streams, oldStreams)
    }
  }

  /** What is known half way through a turn. */
  lemma AddStreamStages(roles: Roles, l: Links, rest: multiset<nat>, held: Option<nat>, list: seq<Stream>, es: EsEntry)
    requires Inv(roles, l, rest + Listed(list), held, {}) && EsFits(roles, es)
    ensures Real(es.ecm) ==>
      var (l1, id) := PidGraph.SetDecryptor(l, es.ecm);
      var l2 := AddEcm(l1, list, es.ecm).0;
      Sane(l, es.ecm) && id in l2.decs && ReadyToBind(l2, es.pid)
    ensures !Real(es.ecm) ==> ReadyToBind(l, es.pid) && (held.Some? ==> held.value in l.decs)
  {
    hide Inv, PidGraph.SetDecryptor, AddEcm, Listed;
    if Real(es.ecm) {
      SoundIsSane(roles, l, rest + Listed(list), held, {}, es.ecm);
      OwnEcmKeeps(roles, l, rest, held, list, es.ecm);
      var (l1, id) := PidGraph.SetDecryptor(l, es.ecm);
      var (l2, listed) := AddEcm(l1, list, es.ecm);
      StreamEntryReady(roles, l2, rest + Listed(listed), held, {id}, es.pid);
    } else {
      StreamEntryReady(roles, l, rest + Listed(list), held, {}, es.pid);
      if held.Some? {
        HeldIsThere(roles, l, rest + Listed(list), held, {});
      }
    }
  }

  ghost predicate ReadyToBind(l: Links, p: Pid) {
    l.pm[p].target.Decryptor? ==> l.pm[p].target.id in l.decs
  }

  lemma StreamEntryReady(roles: Roles, l: Links, uses: multiset<nat>, held: Option<nat>, spare: set<nat>, p: Pid)
    requires Inv(roles, l, uses, held, spare) && roles(p) == EsRole
    ensures ReadyToBind(l, p)
  {
    assert EntryFits(roles(p), l.pm[p], l.decs, p);
  }

  lemma ListedFirst(list: seq<Stream>, i: nat)
    requires i < |list|
    ensures Listed(list[i..]) == multiset{list[i].pid as nat} + Listed(list[i + 1..])
    ensures list[i].pid as nat in Listed(list[i..])
  {
    assert list[i..][1..] == list[i + 1..];
  }

  /** What the map says about a stream PID leads to a decryptor that is there. */
  ghost predicate Sane(l: Links, p: Pid) {
    l.pm[p].kind == Other && l.pm[p].target.Decryptor? ==> l.pm[p].target.id in l.decs
  }

  lemma SoundIsSane(roles: Roles, l: Links, uses: multiset<nat>, held: Option<nat>, spare: set<nat>, p: Pid)
    requires Inv(roles, l, uses, held, spare)
    ensures Sane(l, p)
  {
    assert EntryFits(roles(p), l.pm[p], l.decs, p);
  }
}
