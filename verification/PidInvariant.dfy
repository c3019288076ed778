// What every PAT, PMT and CAT section keeps, as long as no PID is used in two
// roles: both kinds of reference counts are exact, nothing dangles, and no
// decryptor outlives the streams bound to it.

module PidInvariant {
  import opened Bytes
  import opened SectionModel
  import opened PidGraph

  /** What a PID is used for during a run. */
  datatype Role = PatRole | CatRole | PmtRole | EmmRole | EcmRole | EsRole

  type Roles = Pid -> Role

  /** The PIDs of a stream list, each as often as it is listed. */
  function Listed(streams: seq<Stream>): multiset<nat> {
    if streams == [] then multiset{} else multiset{streams[0].pid as nat} + Listed(streams[1..])
  }

  lemma NoneListed()
    ensures Listed([]) == multiset{}
  {
  }

  /** The PIDs of all programs' present and previous stream lists. */
  function AllListed(ps: seq<Program>): multiset<nat> {
    if ps == [] then multiset{}
    else Listed(ps[0].oldStreams) + Listed(ps[0].streams) + AllListed(ps[1..])
  }

  /** The stream PIDs bound to a decryptor. */
  function BoundPids(pm: PidMap, id: nat): set<nat> {
    set p: nat | p < 0x2000 && pm[p].kind == Other && pm[p].target == Decryptor(id)
  }

  ghost predicate EntryFits(role: Role, e: Entry, decs: map<nat, Dec>, p: Pid) {
    match role
    case EsRole =>
      if e.ref == 0 then e.kind == Unknown && e.target == NoTarget
      else e.kind == Other && (e.target == NoTarget || (e.target.Decryptor? && e.target.id in decs))
    case EcmRole =>
      || (e.kind == Unknown && e.target == NoTarget)
      || (e.kind == Ecm && e.target.Decryptor? && e.target.id in decs && decs[e.target.id].ecmPid == p)
    case _ =>
      e.kind != Other && e.kind != Ecm && !e.target.Decryptor?
  }

  predicate Shared(role: Role) {
    role == EsRole || role == EcmRole
  }

  ghost predicate EntriesFit(roles: Roles, l: Links) {
    forall p: Pid :: EntryFits(roles(p), l.pm[p], l.decs, p)
  }

  /** Elementary stream and ECM PIDs count their uses. */
  ghost predicate PidsCounted(roles: Roles, l: Links, uses: multiset<nat>) {
    && (forall p: Pid | Shared(roles(p)) :: l.pm[p].ref == uses[p])
    && (forall p | p in uses :: p < 0x2000 && Shared(roles(p)))
  }

  ghost predicate OrderFits(l: Links) {
    && (forall i, j | 0 <= i < j < |l.order| :: l.order[i] != l.order[j])
    && (forall id | id in l.order :: id in l.decs)
    && (forall id | id in l.decs :: id in l.order && id < l.nextId)
  }

  /** A decryptor counts the streams bound to it, and one more while held. Each
      has at least one, except the spare ones: new and not bound yet, or about
      to be removed. */
  ghost predicate DecsCounted(roles: Roles, l: Links, held: Option<nat>, spare: set<nat>) {
    forall id | id in l.decs ::
      && roles(l.decs[id].ecmPid) == EcmRole
      && l.decs[id].ref == |BoundPids(l.pm, id)| + One(held == Some(id))
      && (l.decs[id].ref >= 1 || id in spare)
  }

  ghost predicate Inv(roles: Roles, l: Links, uses: multiset<nat>, held: Option<nat>, spare: set<nat>) {
    && EntriesFit(roles, l) && PidsCounted(roles, l, uses) && OrderFits(l)
    && DecsCounted(roles, l, held, spare)
    && (held.Some? ==> held.value in l.decs)
  }

  /** Between sections nothing is held, and no decryptor is spare. */
  ghost predicate Valid(roles: Roles, l: Links, ps: seq<Program>) {
    && Inv(roles, l, AllListed(ps), None, {})
    && (forall i | 0 <= i < |ps| :: roles(ps[i].pmtPid) == PmtRole)
  }

  // --------------------------------------------------------- small lemmas

  lemma {:induction false} WithoutKeeps(order: seq<nat>, id: nat)
    requires forall i, j | 0 <= i < j < |order| :: order[i] != order[j]
    ensures var w := Without(order, id);
      && (forall i, j | 0 <= i < j < |w| :: w[i] != w[j])
      && (forall x :: x in w <==> x in order && x != id)
      && (id in order ==> |w| == |order| - 1)
  {
    if order != [] {
      WithoutKeeps(order[1..], id);
      assert order == [order[0]] + order[1..];
      assert order[0] !in order[1..];
      if order[0] != id {
        var v := Without(order[1..], id);
        assert Without(order, id) == [order[0]] + v;
      }
    }
  }

  /** Only entries that are bound streams before or after matter. */
  lemma BoundPidsSame(pm: PidMap, pm': PidMap, id: nat)
    requires forall p: Pid :: (pm[p].kind == Other && pm[p].target == Decryptor(id)) <==>
               (pm'[p].kind == Other && pm'[p].target == Decryptor(id))
    ensures BoundPids(pm, id) == BoundPids(pm', id)
  {
  }

  predicate Binds(e: Entry, id: nat) {
    e.kind == Other && e.target == Decryptor(id)
  }

  lemma BoundPidsChange(pm: PidMap, p: Pid, e: Entry, id: nat)
    ensures var pm' := pm[p := e];
      |BoundPids(pm', id)| == |BoundPids(pm, id)| + One(Binds(e, id)) - One(Binds(pm[p], id))
  {
    var pm' := pm[p := e];
    var rest := BoundPids(pm, id) - {p};
    assert BoundPids(pm, id) == if Binds(pm[p], id) then rest + {p} else rest by {
      forall q: nat ensures q in BoundPids(pm, id) <==> q in if Binds(pm[p], id) then rest + {p} else rest {
      }
    }
    assert BoundPids(pm', id) == if Binds(e, id) then rest + {p} else rest by {
      forall q: nat ensures q in BoundPids(pm', id) <==> q in if Binds(e, id) then rest + {p} else rest {
      }
    }
  }

  // ------------------------------------------------------ removing a decryptor

  /** A decryptor that nothing is bound to, and that is not held, can go. */
  lemma RemoveKeeps(roles: Roles, l: Links, uses: multiset<nat>, held: Option<nat>, spare: set<nat>, id: nat)
    requires Inv(roles, l, uses, held, spare) && id in l.decs && l.decs[id].ref < 1
    ensures Inv(roles, Remove(l, id), uses, held, spare - {id})
    ensures held != Some(id) && BoundPids(l.pm, id) == {}
  {
    hide EntriesFit, PidsCounted, OrderFits, DecsCounted;
    RemovedIsFree(roles, l, held, spare, id);
    RemoveEntries(roles, l, id);
    RemoveCounted(roles, l, uses, id);
    RemoveOrder(l, id);
    RemoveCounts(roles, l, held, spare, id);
  }

  lemma RemovedIsFree(roles: Roles, l: Links, held: Option<nat>, spare: set<nat>, id: nat)
    requires DecsCounted(roles, l, held, spare) && id in l.decs && l.decs[id].ref < 1
    ensures BoundPids(l.pm, id) == {} && held != Some(id) && roles(l.decs[id].ecmPid) == EcmRole
  {
  }

  lemma RemoveCounted(roles: Roles, l: Links, uses: multiset<nat>, id: nat)
    requires PidsCounted(roles, l, uses) && id in l.decs
    ensures PidsCounted(roles, Remove(l, id), uses)
  {
  }

  lemma RemoveOrder(l: Links, id: nat)
    requires OrderFits(l) && id in l.decs
    ensures OrderFits(Remove(l, id))
  {
    WithoutKeeps(l.order, id);
  }

  lemma RemoveEntries(roles: Roles, l: Links, id: nat)
    requires EntriesFit(roles, l) && id in l.decs && roles(l.decs[id].ecmPid) == EcmRole
    requires BoundPids(l.pm, id) == {}
    ensures EntriesFit(roles, Remove(l, id))
  {
    var l' := Remove(l, id);
    forall p: Pid ensures EntryFits(roles(p), l'.pm[p], l'.decs, p) {
      assert EntryFits(roles(p), l.pm[p], l.decs, p);
      assert p as nat !in BoundPids(l.pm, id);
    }
  }

  lemma RemoveCounts(roles: Roles, l: Links, held: Option<nat>, spare: set<nat>, id: nat)
    requires DecsCounted(roles, l, held, spare) && id in l.decs && EntriesFit(roles, l)
    ensures DecsCounted(roles, Remove(l, id), held, spare - {id})
  {
    var l' := Remove(l, id);
    forall k | k in l'.decs ensures BoundPids(l'.pm, k) == BoundPids(l.pm, k) {
      assert EntryFits(roles(l.decs[id].ecmPid), l.pm[l.decs[id].ecmPid], l.decs, l.decs[id].ecmPid);
      BoundPidsSame(l.pm, l'.pm, k);
    }
  }

  // -------------------------------------------------- editing one stream entry

  /** The entry of a stream PID changes, and the decryptors it is bound to
      before and after lose and gain a count. The one that loses is spare. */
  ghost predicate Edited(l: Links, l': Links, p: Pid, e: Entry) {
    && l'.pm == l.pm[p := e] && l'.order == l.order && l'.nextId == l.nextId && l'.decs.Keys == l.decs.Keys
    && forall id | id in l.decs ::
         l'.decs[id] == l.decs[id].(ref := l.decs[id].ref + One(Binds(e, id)) - One(Binds(l.pm[p], id)))
  }

  /** An edit that leaves the binding alone. */
  lemma SameEdited(l: Links, p: Pid, e: Entry)
    requires forall id :: Binds(e, id) == Binds(l.pm[p], id)
    ensures Edited(l, l.(pm := l.pm[p := e]), p, e)
  {
  }

  function Loser(e: Entry): set<nat> {
    if e.kind == Other && e.target.Decryptor? then {e.target.id} else {}
  }

  lemma EditKeeps(roles: Roles, l: Links, uses: multiset<nat>, held: Option<nat>, spare: set<nat>,
      l': Links, p: Pid, e: Entry)
    requires Inv(roles, l, uses, held, spare) && Edited(l, l', p, e) && roles(p) == EsRole
    requires e.ref >= 0 && EntryFits(EsRole, e, l.decs, p)
    ensures Inv(roles, l', uses[p := e.ref], held, spare + Loser(l.pm[p]))
  {
    hide EntriesFit, PidsCounted, DecsCounted;
    EditEntries(roles, l, l', p, e);
    EditCounted(roles, l, l', uses, p, e);
    EditDecs(roles, l, l', held, spare, p, e);
  }

  lemma EditCounted(roles: Roles, l: Links, l': Links, uses: multiset<nat>, p: Pid, e: Entry)
    requires PidsCounted(roles, l, uses) && l'.pm == l.pm[p := e] && Shared(roles(p)) && e.ref >= 0
    ensures PidsCounted(roles, l', uses[p := e.ref])
  {
  }

  lemma EditDecs(roles: Roles, l: Links, l': Links, held: Option<nat>, spare: set<nat>, p: Pid, e: Entry)
    requires DecsCounted(roles, l, held, spare) && Edited(l, l', p, e)
    ensures DecsCounted(roles, l', held, spare + Loser(l.pm[p]))
  {
    hide BoundPids;
    forall id | id in l.decs
      ensures |BoundPids(l'.pm, id)| == |BoundPids(l.pm, id)| + One(Binds(e, id)) - One(Binds(l.pm[p], id))
    {
      BoundPidsChange(l.pm, p, e, id);
    }
  }

  lemma EditEntries(roles: Roles, l: Links, l': Links, p: Pid, e: Entry)
    requires EntriesFit(roles, l) && Edited(l, l', p, e) && EntryFits(roles(p), e, l.decs, p)
    ensures EntriesFit(roles, l')
  {
    forall q: Pid ensures EntryFits(roles(q), l'.pm[q], l'.decs, q) {
      assert EntryFits(roles(q), l.pm[q], l.decs, q);
    }
  }

  /** The entry of a PID that carries no stream changes. */
  lemma PlainEditKeeps(roles: Roles, l: Links, uses: multiset<nat>, held: Option<nat>, spare: set<nat>, p: Pid, e: Entry)
    requires Inv(roles, l, uses, held, spare) && roles(p) != EsRole && EntryFits(roles(p), e, l.decs, p)
    requires e.ref >= 0
    ensures Inv(roles, l.(pm := l.pm[p := e]), if roles(p) == EcmRole then uses[p := e.ref] else uses, held, spare)
  {
    hide EntriesFit, PidsCounted, DecsCounted, Edited;
    var l' := l.(pm := l.pm[p := e]);
    EntryFacts(roles, l, uses, held, spare, p);
    SameEdited(l, p, e);
    EditEntries(roles, l, l', p, e);
    if roles(p) == EcmRole {
      EditCounted(roles, l, l', uses, p, e);
    } else {
      OtherEditCounted(roles, l, l', uses, p, e);
    }
    EditDecs(roles, l, l', held, spare, p, e);
    assert Loser(l.pm[p]) == {} && spare + {} == spare;
  }

  lemma OtherEditCounted(roles: Roles, l: Links, l': Links, uses: multiset<nat>, p: Pid, e: Entry)
    requires PidsCounted(roles, l, uses) && l'.pm == l.pm[p := e] && !Shared(roles(p))
    ensures PidsCounted(roles, l', uses)
  {
  }

  lemma Tighten(roles: Roles, l: Links, uses: multiset<nat>, held: Option<nat>, spare: set<nat>, spare': set<nat>)
    requires Inv(roles, l, uses, held, spare)
    requires forall id | id in spare - spare' && id in l.decs :: l.decs[id].ref >= 1
    ensures Inv(roles, l, uses, held, spare')
  {
  }

  // ------------------------------------------------------------- unref_stream

  function Cleared(e: Entry): Entry {
    e.(ref := 0, kind := Unknown, target := NoTarget)
  }

  lemma OneUseLess(uses: multiset<nat>, p: nat)
    requires p in uses
    ensures uses[p := uses[p] - 1] == uses - multiset{p}
  {
  }

  lemma OneUseMore(uses: multiset<nat>, p: nat)
    ensures uses[p := uses[p] + 1] == uses + multiset{p}
  {
  }

  /** Facts about one entry that the invariant gives. */
  lemma EntryFacts(roles: Roles, l: Links, uses: multiset<nat>, held: Option<nat>, spare: set<nat>, p: Pid)
    requires Inv(roles, l, uses, held, spare)
    ensures EntryFits(roles(p), l.pm[p], l.decs, p)
    ensures Shared(roles(p)) ==> l.pm[p].ref == uses[p]
    ensures roles(p) != EsRole ==> BoundTo(l, p) == None
    ensures BoundTo(l, p).Some? ==>
      var id := BoundTo(l, p).value;
      id in l.decs && l.decs[id].ecmPid != p && roles(l.decs[id].ecmPid) == EcmRole
      && Loser(l.pm[p]) == {id} && Binds(l.pm[p], id) && forall k | k != id :: !Binds(l.pm[p], k)
    ensures BoundTo(l, p).None? ==> Loser(l.pm[p]) == {} && forall k :: !Binds(l.pm[p], k)
  {
    hide PidsCounted, OrderFits;
    assert EntryFits(roles(p), l.pm[p], l.decs, p);
    if Shared(roles(p)) {
      UsesCounted(roles, l, uses, p);
    }
  }

  lemma UsesCounted(roles: Roles, l: Links, uses: multiset<nat>, p: Pid)
    requires PidsCounted(roles, l, uses) && Shared(roles(p))
    ensures l.pm[p].ref == uses[p]
  {
  }

  lemma NoneSpare(roles: Roles, l: Links, uses: multiset<nat>, held: Option<nat>, spare: set<nat>)
    requires Inv(roles, l, uses, held, spare)
    ensures forall id | id in l.decs && id !in spare :: l.decs[id].ref >= 1
  {
  }

  lemma UnrefKeeps(roles: Roles, l: Links, uses: multiset<nat>, held: Option<nat>, p: Pid)
    requires Inv(roles, l, uses, held, {}) && p in uses
    ensures Inv(roles, Unref(l, p), uses - multiset{p as nat}, held, {})
  {
    hide Inv, Remove;
    UsesAreShared(roles, l, uses, held, p);
    EntryFacts(roles, l, uses, held, {}, p);
    NoneSpare(roles, l, uses, held, {});
    OneUseLess(uses, p);
    var e := l.pm[p];
    var e' := if e.ref == 1 then Cleared(e) else e.(ref := e.ref - 1);
    if roles(p) == EcmRole {
      PlainEditKeeps(roles, l, uses, held, {}, p, e');
    } else if e.ref > 1 || BoundTo(l, p).None? {
      var l' := l.(pm := l.pm[p := e']);
      SameEdited(l, p, e');
      EditKeeps(roles, l, uses, held, {}, l', p, e');
      assert {} + Loser(e) == Loser(e);
      Tighten(roles, l', uses[p := e'.ref], held, Loser(e), {});
    } else {
      UnrefBound(roles, l, uses, held, p, BoundTo(l, p).value);
    }
  }

  lemma UsesAreShared(roles: Roles, l: Links, uses: multiset<nat>, held: Option<nat>, p: Pid)
    requires Inv(roles, l, uses, held, {}) && p in uses
    ensures Shared(roles(p)) && uses[p] >= 1
  {
  }

  /** The last use of a bound stream: its decryptor may go with it. */
  lemma UnrefBound(roles: Roles, l: Links, uses: multiset<nat>, held: Option<nat>, p: Pid, id: nat)
    requires Inv(roles, l, uses, held, {}) && roles(p) == EsRole && l.pm[p].ref == 1
    requires BoundTo(l, p) == Some(id)
    ensures Inv(roles, Unref(l, p), uses[p := 0], held, {})
  {
    hide Inv, Edited, Remove;
    EntryFacts(roles, l, uses, held, {}, p);
    NoneSpare(roles, l, uses, held, {});
    var e' := Cleared(l.pm[p]);
    var l1 := SetRef(l, id, l.decs[id].ref - 1);
    var l' := l1.(pm := l.pm[p := e']);
    LoseEdited(l, p, id, e');
    EditKeeps(roles, l, uses, held, {}, l', p, e');
    assert {} + {id} == {id};
    if l'.decs[id].ref < 1 {
      RemoveKeeps(roles, l', uses[p := 0], held, {id}, id);
      assert {id} - {id} == {};
      RemoveThenClear(l1, id, p, e');
    } else {
      Tighten(roles, l', uses[p := 0], held, {id}, {});
    }
  }

  /** Removing a decryptor does not look at the entry of another PID. */
  lemma RemoveThenClear(l: Links, id: nat, p: Pid, e: Entry)
    requires id in l.decs && l.decs[id].ecmPid != p
    ensures Remove(l, id).pm[p] == l.pm[p]
    ensures Remove(l.(pm := l.pm[p := e]), id) == Remove(l, id).(pm := Remove(l, id).pm[p := e])
  {
    var q := l.decs[id].ecmPid;
    var f := l.pm[q].(kind := Unknown, target := NoTarget);
    assert l.pm[p := e][q := f] == l.pm[q := f][p := e];
  }

  lemma {:induction false} UnrefAllKeeps(roles: Roles, l: Links, uses: multiset<nat>, held: Option<nat>, streams: seq<Stream>)
    requires Inv(roles, l, uses, held, {}) && Listed(streams) <= uses
    ensures Inv(roles, UnrefAll(l, streams), uses - Listed(streams), held, {})
    decreases |streams|
  {
    hide Inv, Unref;
    if streams == [] {
      assert uses - multiset{} == uses;
    } else {
      var p := streams[0].pid;
      assert p in Listed(streams);
      UnrefKeeps(roles, l, uses, held, p);
      var rest := uses - multiset{p as nat};
      UnrefAllKeeps(roles, Unref(l, p), rest, held, streams[1..]);
      assert rest - Listed(streams[1..]) == uses - Listed(streams);
    }
  }

  // ------------------------------------------------------------- set_decryptor

  lemma SetDecryptorKeeps(roles: Roles, l: Links, uses: multiset<nat>, held: Option<nat>, spare: set<nat>, p: Pid)
    requires Inv(roles, l, uses, held, spare) && roles(p) == EcmRole
    ensures var (l', id) := SetDecryptor(l, p);
      && Inv(roles, l', uses, held, if id in l.decs then spare else spare + {id})
      && id in l'.decs && l'.decs[id].ecmPid == p
      && l'.pm[p].kind == Ecm && l'.pm[p].target == Decryptor(id)
      && (id in l.decs ==> l' == l)
      && (id !in l.decs ==> l'.decs[id].ref == 0 && held != Some(id) && l'.decs == l.decs[id := NewDec(p)])
  {
    hide Inv;
    EntryFacts(roles, l, uses, held, spare, p);
    var e := l.pm[p];
    var (l', id) := SetDecryptor(l, p);
    if !(e.kind == Ecm && e.target.Decryptor?) {
      var l1 := l.(order := l.order + [id], decs := l.decs[id := NewDec(p)], nextId := id + 1);
      NewestKeeps(roles, l, uses, held, spare, p, l1);
      var e' := e.(kind := Ecm, target := Decryptor(id));
      EntryFacts(roles, l1, uses, held, spare + {id}, p);
      PlainEditKeeps(roles, l1, uses, held, spare + {id}, p, e');
      assert uses[p := uses[p]] == uses;
    }
  }

  lemma NewestKeeps(roles: Roles, l: Links, uses: multiset<nat>, held: Option<nat>, spare: set<nat>, p: Pid, l': Links)
    requires Inv(roles, l, uses, held, spare) && roles(p) == EcmRole
    requires l' == l.(order := l.order + [l.nextId], decs := l.decs[l.nextId := NewDec(p)], nextId := l.nextId + 1)
    ensures Inv(roles, l', uses, held, spare + {l.nextId}) && l.nextId !in l.decs && held != Some(l.nextId)
  {
    hide EntriesFit, DecsCounted, OrderFits;
    NextIsNew(l);
    NewestEntries(roles, l, l', p);
    NewestDecs(roles, l, held, spare, l', p);
    NewestOrder(l, l', p);
  }

  lemma NextIsNew(l: Links)
    requires OrderFits(l)
    ensures l.nextId !in l.decs
  {
  }

  lemma NewestEntries(roles: Roles, l: Links, l': Links, p: Pid)
    requires EntriesFit(roles, l) && l.nextId !in l.decs && l'.decs == l.decs[l.nextId := NewDec(p)] && l'.pm == l.pm
    ensures EntriesFit(roles, l')
  {
    forall q: Pid ensures EntryFits(roles(q), l'.pm[q], l'.decs, q) {
      assert EntryFits(roles(q), l.pm[q], l.decs, q);
    }
  }

  lemma NewestOrder(l: Links, l': Links, p: Pid)
    requires OrderFits(l)
    requires l' == l.(order := l.order + [l.nextId], decs := l.decs[l.nextId := NewDec(p)], nextId := l.nextId + 1)
    ensures OrderFits(l')
  {
    assert forall i | 0 <= i < |l.order| :: l.order[i] in l.order;
  }

  lemma NewestDecs(roles: Roles, l: Links, held: Option<nat>, spare: set<nat>, l': Links, p: Pid)
    requires DecsCounted(roles, l, held, spare) && roles(p) == EcmRole && EntriesFit(roles, l) && OrderFits(l)
    requires l'.decs == l.decs[l.nextId := NewDec(p)] && l'.pm == l.pm && held != Some(l.nextId)
    ensures DecsCounted(roles, l', held, spare + {l.nextId})
  {
    hide BoundPids;
    NoneBoundToNewest(roles, l);
  }

  lemma NoneBoundToNewest(roles: Roles, l: Links)
    requires EntriesFit(roles, l) && OrderFits(l)
    ensures BoundPids(l.pm, l.nextId) == {}
  {
    forall p: Pid ensures !Binds(l.pm[p], l.nextId) {
      assert EntryFits(roles(p), l.pm[p], l.decs, p);
    }
  }

  // ------------------------------------------------- counting and binding streams

  lemma CountStreamKeeps(roles: Roles, l: Links, uses: multiset<nat>, held: Option<nat>, spare: set<nat>, p: Pid)
    requires Inv(roles, l, uses, held, spare) && roles(p) == EsRole
    ensures Inv(roles, Count(l, p, Other), uses + multiset{p as nat}, held, spare)
    ensures Count(l, p, Other).pm[p].kind == Other && Count(l, p, Other).decs == l.decs
  {
    hide Inv;
    EntryFacts(roles, l, uses, held, spare, p);
    OneUseMore(uses, p);
    var e := l.pm[p];
    var e' := e.(ref := e.ref + 1, kind := Other);
    var l' := Count(l, p, Other);
    assert forall id :: Binds(e', id) == Binds(e, id);
    assert Edited(l, l', p, e');
    EditKeeps(roles, l, uses, held, spare, l', p, e');
    SameLoser(roles, l, uses, held, spare, p, e', l');
  }

  /** An edit that leaves the binding alone makes nothing spare. */
  lemma SameLoser(roles: Roles, l: Links, uses: multiset<nat>, held: Option<nat>, spare: set<nat>, p: Pid, e: Entry, l': Links)
    requires Inv(roles, l, uses, held, spare) && l'.decs == l.decs && l'.pm == l.pm[p := e]
    requires roles(p) == EsRole && e.ref >= 0 && l.pm[p].target == e.target
    requires Inv(roles, l', uses[p := e.ref], held, spare + Loser(l.pm[p]))
    ensures Inv(roles, l', uses[p := e.ref], held, spare)
  {
    NoneSpare(roles, l, uses, held, spare);
    Tighten(roles, l', uses[p := e.ref], held, spare + Loser(l.pm[p]), spare);
  }

  lemma AddEcmKeeps(roles: Roles, l: Links, rest: multiset<nat>, held: Option<nat>, spare: set<nat>, streams: seq<Stream>, p: Pid)
    requires Inv(roles, l, rest + Listed(streams), held, spare) && roles(p) == EcmRole
    ensures var (l', listed) := AddEcm(l, streams, p);
      Inv(roles, l', rest + Listed(listed), held, spare) && l'.decs == l.decs
  {
    hide Inv, Listed;
    if !(exists s :: s in streams && s.pid == p) {
      var uses := rest + Listed(streams);
      ListedOneMore(streams, Stream(p, ECM_STREAM_KIND));
      EntryFacts(roles, l, uses, held, spare, p);
      OneUseMore(uses, p);
      assert uses + multiset{p as nat} == rest + (Listed(streams) + multiset{p as nat});
      PlainEditKeeps(roles, l, uses, held, spare, p, l.pm[p].(ref := l.pm[p].ref + 1));
    }
  }

  lemma {:induction false} ListedConcat(a: seq<Stream>, b: seq<Stream>)
    ensures Listed(a + b) == Listed(a) + Listed(b)
    decreases |a|
  {
    if a == [] {
      assert a + b == b;
    } else {
      assert (a + b)[0] == a[0] && (a + b)[1..] == a[1..] + b;
      ListedConcat(a[1..], b);
    }
  }

  lemma ListedOneMore(streams: seq<Stream>, s: Stream)
    ensures Listed(streams + [s]) == Listed(streams) + multiset{s.pid as nat}
  {
    ListedConcat(streams, [s]);
    assert [s][1..] == [];
  }

  lemma BoundIsCounted(roles: Roles, l: Links, uses: multiset<nat>, held: Option<nat>, spare: set<nat>, p: Pid, id: nat)
    requires Inv(roles, l, uses, held, spare) && id in l.decs && Binds(l.pm[p], id)
    ensures l.decs[id].ref >= 1
  {
    assert p as nat in BoundPids(l.pm, id);
    assert BoundPids(l.pm, id) - {p} < BoundPids(l.pm, id);
  }

  /** Taking a bound stream off its decryptor, and its count off that one. */
  lemma LoseEdited(l: Links, p: Pid, id: nat, e: Entry)
    requires id in l.decs && Binds(l.pm[p], id) && forall k :: !Binds(e, k)
    ensures Edited(l, SetRef(l, id, l.decs[id].ref - 1).(pm := l.pm[p := e]), p, e)
  {
  }

  /** Binding a stream that is bound to nothing. */
  lemma GainEdited(l: Links, p: Pid, id: nat, e: Entry)
    requires id in l.decs && Binds(e, id) && forall k :: !Binds(l.pm[p], k)
    ensures Edited(l, SetRef(l, id, l.decs[id].ref + 1).(pm := l.pm[p := e]), p, e)
  {
  }

  /** The stream p loses its decryptor, and that may take the decryptor along. */
  function Unbound(l: Links, p: Pid): Links {
    var l1 := if BoundTo(l, p).Some? then
                var id := BoundTo(l, p).value;
                var l0 := SetRef(l, id, l.decs[id].ref - 1);
                if l0.decs[id].ref == 0 then Remove(l0, id) else l0
              else l;
    l1.(pm := l1.pm[p := l1.pm[p].(target := NoTarget)])
  }

  lemma UnboundKeeps(roles: Roles, l: Links, uses: multiset<nat>, held: Option<nat>, spare: set<nat>, p: Pid)
    requires Inv(roles, l, uses, held, spare) && roles(p) == EsRole && l.pm[p].kind == Other
    requires forall id | id in spare :: !Binds(l.pm[p], id)
    ensures var l' := Unbound(l, p);
      && Inv(roles, l', uses, held, spare) && l'.pm[p] == l.pm[p].(target := NoTarget)
      && forall id | id in l.decs && BoundTo(l, p) != Some(id) :: id in l'.decs && l'.decs[id] == l.decs[id]
  {
    hide Inv;
    EntryFacts(roles, l, uses, held, spare, p);
    if BoundTo(l, p).None? {
      var e := l.pm[p];
      assert e.(target := NoTarget) == e && l.pm[p := e] == l.pm;
    } else {
      UnboundKeepsBy(roles, l, uses, held, spare, p, BoundTo(l, p).value);
    }
  }

  lemma UnboundKeepsBy(roles: Roles, l: Links, uses: multiset<nat>, held: Option<nat>, spare: set<nat>, p: Pid, id: nat)
    requires Inv(roles, l, uses, held, spare) && roles(p) == EsRole && l.pm[p].kind == Other
    requires BoundTo(l, p) == Some(id) && id !in spare
    ensures var l' := Unbound(l, p);
      && Inv(roles, l', uses, held, spare) && l'.pm[p] == l.pm[p].(target := NoTarget)
      && forall k | k in l.decs && k != id :: k in l'.decs && l'.decs[k] == l.decs[k]
  {
    hide Inv, BoundPids, Edited, Remove;
    EntryFacts(roles, l, uses, held, spare, p);
    NoneSpare(roles, l, uses, held, spare);
    BoundIsCounted(roles, l, uses, held, spare, p, id);
    var e := l.pm[p];
    var e' := e.(target := NoTarget);
    var l1 := SetRef(l, id, l.decs[id].ref - 1);
    var l' := l1.(pm := l.pm[p := e']);
    assert uses[p := e.ref] == uses;
    LoseEdited(l, p, id, e');
    EditKeeps(roles, l, uses, held, spare, l', p, e');
    if l'.decs[id].ref < 1 {
      RemoveKeeps(roles, l', uses, held, spare + {id}, id);
      assert spare + {id} - {id} == spare;
      RemoveThenClear(l1, id, p, e');
      RemoveOthers(l1, id);
    } else {
      Tighten(roles, l', uses, held, spare + {id}, spare);
    }
  }

  lemma RemoveOthers(l: Links, id: nat)
    requires id in l.decs
    ensures Remove(l, id).decs == l.decs - {id}
  {
  }

  lemma BindSame(l: Links, p: Pid, dec: Option<nat>)
    requires dec.Some? ==> dec.value in l.decs
    requires l.pm[p].target == if dec.Some? then Decryptor(dec.value) else NoTarget
    ensures Bind(l, p, dec) == l
  {
  }

  lemma BindKeeps(roles: Roles, l: Links, uses: multiset<nat>, held: Option<nat>, p: Pid, dec: Option<nat>, spare: set<nat>)
    requires Inv(roles, l, uses, held, spare) && roles(p) == EsRole && l.pm[p].kind == Other
    requires dec.Some? ==> dec.value in l.decs
    requires forall id | id in spare :: dec == Some(id)
    ensures Inv(roles, Bind(l, p, dec), uses, held, {})
  {
    hide Inv, Unbound, Bind;
    EntryFacts(roles, l, uses, held, spare, p);
    var target := if dec.Some? then Decryptor(dec.value) else NoTarget;
    if l.pm[p].target == target {
      BindSame(l, p, dec);
      if dec.Some? {
        BoundIsCounted(roles, l, uses, held, spare, p, dec.value);
      }
      Tighten(roles, l, uses, held, spare, {});
    } else {
      UnboundKeeps(roles, l, uses, held, spare, p);
      BindViaUnbound(l, p, dec);
      if dec.Some? {
        BindNewKeeps(roles, Unbound(l, p), uses, held, p, dec.value, spare);
      } else {
        Tighten(roles, Unbound(l, p), uses, held, spare, {});
      }
    }
  }

  /** A stream bound to nothing is bound to a decryptor. */
  lemma BindNewKeeps(roles: Roles, l: Links, uses: multiset<nat>, held: Option<nat>, p: Pid, id: nat, spare: set<nat>)
    requires Inv(roles, l, uses, held, spare) && roles(p) == EsRole && l.pm[p].kind == Other
    requires id in l.decs && l.pm[p].target == NoTarget && spare <= {id}
    ensures Inv(roles, SetRef(l, id, l.decs[id].ref + 1).(pm := l.pm[p := l.pm[p].(target := Decryptor(id))]), uses, held, {})
  {
    hide Inv, BoundPids, Edited;
    EntryFacts(roles, l, uses, held, spare, p);
    NoneSpare(roles, l, uses, held, spare);
    var e := l.pm[p].(target := Decryptor(id));
    var l' := SetRef(l, id, l.decs[id].ref + 1).(pm := l.pm[p := e]);
    assert uses[p := e.ref] == uses;
    GainEdited(l, p, id, e);
    EditKeeps(roles, l, uses, held, spare, l', p, e);
    assert spare + Loser(l.pm[p]) == spare;
    BoundIsCounted(roles, l', uses, held, spare, p, id);
    Tighten(roles, l', uses, held, spare, {});
  }

  lemma BindViaUnbound(l: Links, p: Pid, dec: Option<nat>)
    requires dec.Some? ==> dec.value in l.decs && dec.value in Unbound(l, p).decs
    requires l.pm[p].kind == Other && (l.pm[p].target.Decryptor? ==> l.pm[p].target.id in l.decs)
    requires l.pm[p].target != if dec.Some? then Decryptor(dec.value) else NoTarget
    ensures var l1 := Unbound(l, p);
      var e := l1.pm[p].(target := if dec.Some? then Decryptor(dec.value) else NoTarget);
      Bind(l, p, dec) ==
        if dec.Some? then SetRef(l1, dec.value, l1.decs[dec.value].ref + 1).(pm := l1.pm[p := e]) else l1
  {
    hide Remove;
  }

  // -------------------------------------------------------------- PMT sections

  /** The PIDs that a PMT names are used in their roles. */
  ghost predicate PmtFits(roles: Roles, major: Pid, ess: seq<EsEntry>) {
    && (Real(major) ==> roles(major) == EcmRole)
    && forall i | 0 <= i < |ess| :: EsFits(roles, ess[i])
  }

  ghost predicate EsFits(roles: Roles, es: EsEntry) {
    roles(es.pid) == EsRole && (Real(es.ecm) ==> roles(es.ecm) == EcmRole)
  }

  /** The first half of a turn: the stream's own ECM PID. */
  lemma OwnEcmKeeps(roles: Roles, l: Links, rest: multiset<nat>, held: Option<nat>, streams: seq<Stream>, p: Pid)
    requires Inv(roles, l, rest + Listed(streams), held, {}) && roles(p) == EcmRole
    ensures var (l1, id) := SetDecryptor(l, p);
      var (l2, listed) := AddEcm(l1, streams, p);
      id in l2.decs && Inv(roles, l2, rest + Listed(listed), held, {id})
  {
    hide Inv, SetDecryptor, AddEcm, Listed;
    SetDecryptorKeeps(roles, l, rest + Listed(streams), held, {}, p);
    var (l1, id) := SetDecryptor(l, p);
    assert {} + {id} == {id};
    Loosen(roles, l1, rest + Listed(streams), held, if id in l.decs then {} else {id}, {id});
    AddEcmKeeps(roles, l1, rest, held, {id}, streams, p);
  }

  lemma Loosen(roles: Roles, l: Links, uses: multiset<nat>, held: Option<nat>, spare: set<nat>, spare': set<nat>)
    requires Inv(roles, l, uses, held, spare) && spare <= spare'
    ensures Inv(roles, l, uses, held, spare')
  {
  }

  lemma HeldIsThere(roles: Roles, l: Links, uses: multiset<nat>, held: Option<nat>, spare: set<nat>)
    requires Inv(roles, l, uses, held, spare) && held.Some?
    ensures held.value in l.decs
  {
  }

  /** The second half: the stream is counted and bound. */
  lemma BindStreamKeeps(roles: Roles, l: Links, rest: multiset<nat>, held: Option<nat>, streams: seq<Stream>, s: Stream,
      active: Option<nat>, spare: set<nat>)
    requires Inv(roles, l, rest + Listed(streams), held, spare) && roles(s.pid) == EsRole
    requires active.Some? ==> active.value in l.decs
    requires forall id | id in spare :: active == Some(id)
    ensures Inv(roles, Bind(Count(l, s.pid, Other), s.pid, active), rest + Listed(streams + [s]), held, {})
  {
    hide Inv, Bind, Count, Listed;
    CountStreamKeeps(roles, l, rest + Listed(streams), held, spare, s.pid);
    ListedOneMore(streams, s);
    assert rest + Listed(streams) + multiset{s.pid as nat} == rest + Listed(streams + [s]);
    BindKeeps(roles, Count(l, s.pid, Other), rest + Listed(streams + [s]), held, s.pid, active, spare);
  }

  lemma CountKeepsDecs(l: Links, p: Pid, kind: PidType)
    ensures Count(l, p, kind).decs == l.decs
  {
  }

  lemma AddStreamKeeps(roles: Roles, l: Links, rest: multiset<nat>, major: Option<nat>, streams: seq<Stream>, es: EsEntry)
    requires Inv(roles, l, rest + Listed(streams), major, {}) && EsFits(roles, es)
    ensures var (l', listed) := AddStream(l, streams, major, es);
      Inv(roles, l', rest + Listed(listed), major, {})
  {
    hide Inv, Bind, Count, Listed, SetDecryptor, AddEcm;
    var s := Stream(es.pid, es.kind);
    if Real(es.ecm) {
      OwnEcmKeeps(roles, l, rest, major, streams, es.ecm);
      var (l1, id) := SetDecryptor(l, es.ecm);
      var (l2, listed) := AddEcm(l1, streams, es.ecm);
      CountKeepsDecs(l2, es.pid, Other);
      BindStreamKeeps(roles, l2, rest, major, listed, s, Some(id), {id});
    } else {
      CountKeepsDecs(l, es.pid, Other);
      if major.Some? {
        HeldIsThere(roles, l, rest + Listed(streams), major, {});
      }
      BindStreamKeeps(roles, l, rest, major, streams, s, if es.ecm == 0x1fff then None else major, {});
    }
  }

  lemma {:induction false} AddStreamsKeeps(roles: Roles, l: Links, rest: multiset<nat>, major: Option<nat>,
      streams: seq<Stream>, ess: seq<EsEntry>)
    requires Inv(roles, l, rest + Listed(streams), major, {})
    requires forall i | 0 <= i < |ess| :: EsFits(roles, ess[i])
    ensures var (l', listed) := AddStreams(l, streams, major, ess);
      Inv(roles, l', rest + Listed(listed), major, {})
    decreases |ess|
  {
    hide Inv, AddStream, Listed, EsFits;
    if ess != [] {
      AddStreamKeeps(roles, l, rest, major, streams, ess[0]);
      var (l1, listed) := AddStream(l, streams, major, ess[0]);
      AddStreamsKeeps(roles, l1, rest, major, listed, ess[1..]);
    }
  }

  /** Holding a decryptor, and letting it go again. */
  lemma HoldKeeps(roles: Roles, l: Links, uses: multiset<nat>, spare: set<nat>, id: nat)
    requires Inv(roles, l, uses, None, spare) && id in l.decs && spare <= {id}
    ensures Inv(roles, SetRef(l, id, l.decs[id].ref + 1), uses, Some(id), {})
  {
    hide BoundPids;
    HeldEntries(roles, l, id, l.decs[id].ref + 1);
  }

  lemma HeldEntries(roles: Roles, l: Links, id: nat, ref: int)
    requires EntriesFit(roles, l) && id in l.decs
    ensures EntriesFit(roles, SetRef(l, id, ref))
  {
    forall q: Pid ensures EntryFits(roles(q), l.pm[q], SetRef(l, id, ref).decs, q) {
      assert EntryFits(roles(q), l.pm[q], l.decs, q);
    }
  }

  lemma LetGoKeeps(roles: Roles, l: Links, uses: multiset<nat>, id: nat)
    requires Inv(roles, l, uses, Some(id), {})
    ensures id in l.decs && Inv(roles, Release(l, id), uses, None, {})
  {
    hide Inv, Remove;
    HeldIsThere(roles, l, uses, Some(id), {});
    LetGo(roles, l, uses, id);
    var l1 := SetRef(l, id, l.decs[id].ref - 1);
    if l1.decs[id].ref < 1 {
      RemoveKeeps(roles, l1, uses, None, {id}, id);
      assert {id} - {id} == {};
    } else {
      Tighten(roles, l1, uses, None, {id}, {});
    }
  }

  lemma LetGo(roles: Roles, l: Links, uses: multiset<nat>, id: nat)
    requires Inv(roles, l, uses, Some(id), {})
    ensures Inv(roles, SetRef(l, id, l.decs[id].ref - 1), uses, None, {id})
  {
    hide BoundPids;
    HeldEntries(roles, l, id, l.decs[id].ref - 1);
  }

  /** proc_pmt keeps the invariant. */
  lemma ApplyPmtKeeps(roles: Roles, l: Links, rest: multiset<nat>, p: Program, major: Pid, ess: seq<EsEntry>)
    requires Inv(roles, l, rest + (Listed(p.oldStreams) + Listed(p.streams)), None, {}) && PmtFits(roles, major, ess)
    ensures var (l', p') := ApplyPmt(l, p, major, ess);
      && Inv(roles, l', rest + (Listed(p'.oldStreams) + Listed(p'.streams)), None, {})
      && p'.pmtPid == p.pmtPid && p'.number == p.number && p'.oldStreams == p.streams
  {
    hide Inv, SetDecryptor, UnrefAll, AddEcm, AddStreams, Release, Listed, SetRef;
    var uses := rest + (Listed(p.oldStreams) + Listed(p.streams));
    var base := rest + Listed(p.streams);
    if Real(major) {
      var (m, id) := SetDecryptor(l, major);
      TakeMajor(roles, l, uses, major);
      var l1 := SetRef(m, id, m.decs[id].ref + 1);
      PmtBody(roles, l1, rest, p, Some(id), major, ess);
      var (l3, start) := AddEcm(UnrefAll(l1, p.oldStreams), [], major);
      var (l4, streams) := AddStreams(l3, start, Some(id), ess);
      LetGoKeeps(roles, l4, base + Listed(streams), id);
      assert base + Listed(streams) == rest + (Listed(p.streams) + Listed(streams));
    } else {
      PmtBody(roles, l, rest, p, None, major, ess);
      var (l4, streams) := AddStreams(UnrefAll(l, p.oldStreams), [], None, ess);
      assert base + Listed(streams) == rest + (Listed(p.streams) + Listed(streams));
    }
  }

  lemma TakeMajor(roles: Roles, l: Links, uses: multiset<nat>, major: Pid)
    requires Inv(roles, l, uses, None, {}) && roles(major) == EcmRole
    ensures var (m, id) := SetDecryptor(l, major);
      id in m.decs && Inv(roles, SetRef(m, id, m.decs[id].ref + 1), uses, Some(id), {})
  {
    hide Inv, SetDecryptor;
    SetDecryptorKeeps(roles, l, uses, None, {}, major);
    var (m, id) := SetDecryptor(l, major);
    HoldKeeps(roles, m, uses, if id in l.decs then {} else {} + {id}, id);
  }

  /** The part of proc_pmt during which the major decryptor is held. */
  lemma PmtBody(roles: Roles, l: Links, rest: multiset<nat>, p: Program, held: Option<nat>, major: Pid, ess: seq<EsEntry>)
    requires Inv(roles, l, rest + (Listed(p.oldStreams) + Listed(p.streams)), held, {}) && PmtFits(roles, major, ess)
    ensures var l2 := UnrefAll(l, p.oldStreams);
      var (l3, start) := if Real(major) then AddEcm(l2, [], major) else (l2, []);
      var (l4, streams) := AddStreams(l3, start, held, ess);
      Inv(roles, l4, rest + Listed(p.streams) + Listed(streams), held, {})
  {
    hide Inv, SetDecryptor, UnrefAll, AddEcm, AddStreams;
    var uses := rest + (Listed(p.oldStreams) + Listed(p.streams));
    var base := rest + Listed(p.streams);
    UnrefAllKeeps(roles, l, uses, held, p.oldStreams);
    assert uses - Listed(p.oldStreams) == base && base + Listed([]) == base;
    var l2 := UnrefAll(l, p.oldStreams);
    if Real(major) {
      AddEcmKeeps(roles, l2, base, held, {}, [], major);
      var (l3, start) := AddEcm(l2, [], major);
      AddStreamsKeeps(roles, l3, base, held, start, ess);
    } else {
      AddStreamsKeeps(roles, l2, base, held, [], ess);
    }
  }

  // ------------------------------------------------------ programs, PAT and CAT

  function Own(p: Program): multiset<nat> {
    Listed(p.oldStreams) + Listed(p.streams)
  }

  /** The PIDs listed by all programs but the i-th. */
  function Others(ps: seq<Program>, i: nat): multiset<nat>
    requires i < |ps|
  {
    if i == 0 then AllListed(ps[1..]) else Own(ps[0]) + Others(ps[1..], i - 1)
  }

  lemma {:induction false} AllListedAt(ps: seq<Program>, i: nat, p: Program)
    requires i < |ps|
    ensures AllListed(ps) == Others(ps, i) + Own(ps[i])
    ensures AllListed(ps[i := p]) == Others(ps, i) + Own(p)
    decreases |ps|
  {
    hide Listed;
    if i == 0 {
      assert ps[0 := p][1..] == ps[1..];
    } else {
      AllListedAt(ps[1..], i - 1, p);
      assert ps[i := p][1..] == ps[1..][i - 1 := p];
    }
  }

  /** A PMT section of the i-th program keeps the invariant. */
  lemma PmtKeeps(roles: Roles, l: Links, ps: seq<Program>, i: nat, major: Pid, ess: seq<EsEntry>)
    requires Valid(roles, l, ps) && i < |ps| && PmtFits(roles, major, ess)
    ensures var (l', p') := ApplyPmt(l, ps[i], major, ess);
      Valid(roles, l', ps[i := p'])
  {
    hide Inv, ApplyPmt, Listed, PmtFits, AllListed, Others;
    AllListedAt(ps, i, ApplyPmt(l, ps[i], major, ess).1);
    ApplyPmtKeeps(roles, l, Others(ps, i), ps[i], major, ess);
  }

  lemma ReleaseProgramKeeps(roles: Roles, l: Links, rest: multiset<nat>, p: Program)
    requires Inv(roles, l, Listed(p.oldStreams) + Listed(p.streams) + rest, None, {}) && roles(p.pmtPid) == PmtRole
    ensures Inv(roles, ReleaseProgram(l, p), rest, None, {})
  {
    hide Inv, UnrefAll, Listed;
    var uses := Listed(p.oldStreams) + Listed(p.streams) + rest;
    UnrefAllKeeps(roles, l, uses, None, p.oldStreams);
    assert uses - Listed(p.oldStreams) == Listed(p.streams) + rest;
    var l1 := UnrefAll(l, p.oldStreams);
    UnrefAllKeeps(roles, l1, Listed(p.streams) + rest, None, p.streams);
    assert Listed(p.streams) + rest - Listed(p.streams) == rest;
    var l2 := UnrefAll(l1, p.streams);
    PlainEditKeeps(roles, l2, rest, None, {}, p.pmtPid, Cleared(l2.pm[p.pmtPid]));
  }

  lemma {:induction false} ReleaseProgramsKeeps(roles: Roles, l: Links, ps: seq<Program>)
    requires Valid(roles, l, ps)
    ensures Inv(roles, ReleasePrograms(l, ps), multiset{}, None, {})
    decreases |ps|
  {
    hide Inv, ReleaseProgram, Listed;
    if ps != [] {
      ReleaseProgramKeeps(roles, l, AllListed(ps[1..]), ps[0]);
      ReleaseProgramsKeeps(roles, ReleaseProgram(l, ps[0]), ps[1..]);
    }
  }

  /** A decryptor lives only as long as some listed stream is bound to it. */
  lemma NoUsesNoDecryptors(roles: Roles, l: Links)
    requires Inv(roles, l, multiset{}, None, {})
    ensures l.decs == map[] && l.order == []
  {
    forall id ensures id !in l.decs {
      NothingBound(roles, l, id);
    }
    ListedIsThere(l);
  }

  lemma ListedIsThere(l: Links)
    requires OrderFits(l)
    ensures l.order == [] || l.order[0] in l.decs
  {
    if l.order != [] {
      assert l.order[0] in l.order;
    }
  }

  lemma NothingBound(roles: Roles, l: Links, id: nat)
    requires Inv(roles, l, multiset{}, None, {})
    ensures BoundPids(l.pm, id) == {}
  {
    forall p: Pid ensures !Binds(l.pm[p], id) {
      assert EntryFits(roles(p), l.pm[p], l.decs, p);
    }
  }

  /** Once all programs are released, no decryptor is left. */
  lemma ReleasedLeavesNothing(roles: Roles, l: Links, ps: seq<Program>)
    requires Valid(roles, l, ps)
    ensures ReleasePrograms(l, ps).decs == map[] && ReleasePrograms(l, ps).order == []
  {
    hide Inv, ReleasePrograms;
    ReleaseProgramsKeeps(roles, l, ps);
    NoUsesNoDecryptors(roles, ReleasePrograms(l, ps));
  }

  ghost predicate PatFits(roles: Roles, entries: seq<PatEntry>) {
    roles(0) == PatRole && forall i | 0 <= i < |entries| && entries[i].number != 0 :: roles(entries[i].pid) == PmtRole
  }

  lemma {:induction false} NewProgramsFit(roles: Roles, entries: seq<PatEntry>)
    requires PatFits(roles, entries)
    ensures AllListed(NewPrograms(entries)) == multiset{}
    ensures forall i | 0 <= i < |NewPrograms(entries)| :: roles(NewPrograms(entries)[i].pmtPid) == PmtRole
    decreases |entries|
  {
    if entries != [] {
      NewProgramsFit(roles, entries[1..]);
      if entries[0].number != 0 {
        assert NewPrograms(entries)[1..] == NewPrograms(entries[1..]);
      }
    }
  }

  /** The entries of a map just made by a PAT. */
  ghost predicate FreshEntry(role: Role, e: Entry) {
    e.ref == 0 && if role == PmtRole then e.kind in {Unknown, Pmt} && !e.target.Decryptor? else e == BLANK
  }

  lemma {:induction false} PmtEntriesFit(roles: Roles, pm: PidMap, ps: seq<Program>, at: nat)
    requires at <= |ps| && forall i | 0 <= i < |ps| :: roles(ps[i].pmtPid) == PmtRole
    requires forall p: Pid :: FreshEntry(roles(p), pm[p])
    ensures forall p: Pid :: FreshEntry(roles(p), PmtEntries(pm, ps, at)[p])
    decreases |ps| - at
  {
    if at < |ps| {
      var p := ps[at].pmtPid;
      PmtEntriesFit(roles, pm[p := pm[p].(kind := Pmt, target := ProgramAt(at))], ps, at + 1);
    }
  }

  /** A PAT section keeps the invariant, and starts over without decryptors. */
  lemma PatKeeps(roles: Roles, l: Links, ps: seq<Program>, entries: seq<PatEntry>)
    requires Valid(roles, l, ps) && PatFits(roles, entries)
    ensures var (l', ps') := ApplyPat(l, ps, entries);
      Valid(roles, l', ps') && l'.decs == map[] && l'.order == []
  {
    hide Inv, ReleasePrograms, NewPrograms, PmtEntries, AllListed, Listed, EntryFits;
    ReleasedLeavesNothing(roles, l, ps);
    NewProgramsFit(roles, entries);
    var programs := NewPrograms(entries);
    var blank: PidMap := seq(0x2000, _ => BLANK);
    PmtEntriesFit(roles, blank, programs, 0);
    var pm := PmtEntries(blank, programs, 0);
    var l' := ApplyPat(l, ps, entries).0;
    FreshMapFits(roles, pm, l');
  }

  lemma FreshMapFits(roles: Roles, pm: PidMap, l: Links)
    requires forall p: Pid :: FreshEntry(roles(p), pm[p])
    requires roles(0) == PatRole && l.pm == pm[0 := pm[0].(ref := 1, kind := Pat, target := NoTarget)]
    requires l.decs == map[] && l.order == []
    ensures Inv(roles, l, multiset{}, None, {})
  {
    forall p: Pid ensures EntryFits(roles(p), l.pm[p], l.decs, p) {
      assert FreshEntry(roles(p), pm[p]);
    }
    assert PidsCounted(roles, l, multiset{}) by {
      forall p: Pid | Shared(roles(p)) ensures l.pm[p].ref == 0 {
        assert FreshEntry(roles(p), pm[p]);
      }
    }
  }

  lemma CatKeeps(roles: Roles, l: Links, ps: seq<Program>, emm: Pid)
    requires Valid(roles, l, ps) && roles(1) == CatRole && (Real(emm) ==> roles(emm) == EmmRole)
    ensures Valid(roles, ApplyCat(l, emm), ps)
  {
    hide Inv, AllListed;
    var uses := AllListed(ps);
    var l1 := l;
    if Real(emm) {
      EntryFacts(roles, l, uses, None, {}, emm);
      var e := l.pm[emm].(ref := 1, kind := Emm, target := NoTarget);
      PlainEditKeeps(roles, l, uses, None, {}, emm, e);
      l1 := l.(pm := l.pm[emm := e]);
    }
    PlainEditKeeps(roles, l1, uses, None, {}, 1, l1.pm[1].(ref := 1, kind := Cat, target := NoTarget));
  }

  // -------------------------------------------------------------- whole runs

  /** What a section can do to the graph. */
  datatype Table =
    | PatTable(entries: seq<PatEntry>)
    | PmtTable(program: nat, major: Pid, ess: seq<EsEntry>)
    | CatTable(emm: Pid)

  function Apply(l: Links, ps: seq<Program>, t: Table): (Links, seq<Program>) {
    match t
    case PatTable(entries) => ApplyPat(l, ps, entries)
    case PmtTable(i, major, ess) =>
      if i >= |ps| then (l, ps)
      else
        var (l', p') := ApplyPmt(l, ps[i], major, ess);
        (l', ps[i := p'])
    case CatTable(emm) => (ApplyCat(l, emm), ps)
  }

  function ApplyAll(l: Links, ps: seq<Program>, ts: seq<Table>): (Links, seq<Program>)
    decreases |ts|
  {
    if ts == [] then (l, ps)
    else
      var (l', ps') := Apply(l, ps, ts[0]);
      ApplyAll(l', ps', ts[1..])
  }

  ghost predicate TableFits(roles: Roles, t: Table) {
    match t
    case PatTable(entries) => PatFits(roles, entries)
    case PmtTable(_, major, ess) => PmtFits(roles, major, ess)
    case CatTable(emm) => roles(1) == CatRole && (Real(emm) ==> roles(emm) == EmmRole)
  }

  const NEW_LINKS := Links(seq(0x2000, _ => BLANK), [], map[], 0)

  lemma NewLinksValid(roles: Roles)
    ensures Valid(roles, NEW_LINKS, [])
  {
    forall p: Pid ensures EntryFits(roles(p), NEW_LINKS.pm[p], NEW_LINKS.decs, p) {
    }
  }

  lemma ApplyKeeps(roles: Roles, l: Links, ps: seq<Program>, t: Table)
    requires Valid(roles, l, ps) && TableFits(roles, t)
    ensures Valid(roles, Apply(l, ps, t).0, Apply(l, ps, t).1)
  {
    hide Valid, ApplyPat, ApplyPmt, ApplyCat, PatFits, PmtFits;
    match t
    case PatTable(entries) => PatKeeps(roles, l, ps, entries);
    case PmtTable(i, major, ess) =>
      if i < |ps| {
        PmtKeeps(roles, l, ps, i, major, ess);
      }
    case CatTable(emm) => CatKeeps(roles, l, ps, emm);
  }

  /** Every run of sections whose PIDs keep to their roles keeps both kinds of
      counts exact; and when the programs are then released, nothing is left. */
  lemma {:induction false} RunKeeps(roles: Roles, l: Links, ps: seq<Program>, ts: seq<Table>)
    requires Valid(roles, l, ps) && forall i | 0 <= i < |ts| :: TableFits(roles, ts[i])
    ensures var (l', ps') := ApplyAll(l, ps, ts);
      && Valid(roles, l', ps')
      && ReleasePrograms(l', ps').decs == map[] && ReleasePrograms(l', ps').order == []
    decreases |ts|
  {
    hide Valid, Apply, TableFits, ReleasePrograms;
    if ts == [] {
      ReleasedLeavesNothing(roles, l, ps);
    } else {
      ApplyKeeps(roles, l, ps, ts[0]);
      var (l', ps') := Apply(l, ps, ts[0]);
      RunKeeps(roles, l', ps', ts[1..]);
    }
  }
}
