/**
 The objects of one BLE session and which of them hold pointers into which, so that release
 order can be stated: boxed allocations, and the stack-held values that borrow from them.
 */
module SessionHeap {
  import opened Common

  datatype Kind =
    | Mpsl | Rng | SdcMem | HostResources | HostStack
    | Appearance | Table | Server | ValueStore | SessionFuture

  /** A live object and the objects it may still dereference. */
  datatype Block = Block(kind: Kind, refs: set<nat>)

  type Blocks = map<nat, Block>

  predicate Referenced(live: Blocks, id: nat) {
    exists k :: k in live && k != id && id in live[k].refs
  }

  /** Identifiers below `bound` only. */
  ghost predicate Below(live: Blocks, bound: nat) {
    forall k :: k in live ==> k < bound && forall r :: r in live[k].refs ==> r < bound
  }

  class Heap {
    var live: Blocks
    var next: nat
    /** Set once something is released while a live object may still dereference it. */
    var dangling: bool

    ghost predicate Valid()
      reads this
    {
      Below(live, next)
    }

    constructor ()
      ensures Valid() && live == map[] && !dangling
    {
      live, next, dangling := map[], 0, false;
    }

    /** Identifiers are never used again, so releasing a live one releases it for the first time. */
    method Alloc(kind: Kind, refs: set<nat>) returns (id: nat)
      requires Valid() && forall r :: r in refs ==> r < next
      modifies this
      ensures Valid() && id == old(next) && next == id + 1 && dangling == old(dangling)
      ensures live == old(live)[id := Block(kind, refs)]
    {
      id := next;
      live := live[id := Block(kind, refs)];
      next := next + 1;
    }

    method Refer(from: nat, to: nat)
      requires Valid() && from in live && to < next
      modifies this`live
      ensures Valid() && live == old(live)[from := old(live)[from].(refs := old(live)[from].refs + {to})]
    {
      live := live[from := live[from].(refs := live[from].refs + {to})];
    }

    method Free(id: nat)
      requires Valid() && id in live
      modifies this`live, this`dangling
      ensures Valid() && live == old(live) - {id}
      ensures dangling == (old(dangling) || Referenced(old(live), id))
    {
      dangling := dangling || Referenced(live, id);
      live := live - {id};
    }
  }

  function AppSet(app: Option<nat>): set<nat> { if app.Some? then {app.value} else {} }

  function IdSet(stores: seq<nat>): set<nat> { set s | s in stores }

  /** `base` is untouched, and the owner and the appearance are new, the appearance referring to nothing. */
  ghost predicate BaseKept(live: Blocks, base: Blocks, bound: nat, owner: nat, app: Option<nat>) {
    && Below(base, bound) && base.Keys <= live.Keys && owner in live && bound <= owner
    && (forall k :: k in base ==> live[k] == base[k])
    && (app.Some? ==>
          app.value in live && bound <= app.value && app.value != owner && live[app.value].refs == {})
  }

  /** The value stores are new blocks, each in the list once, that refer to nothing. */
  ghost predicate StoresOk(live: Blocks, bound: nat, owner: nat, stores: seq<nat>, app: Option<nat>) {
    && (forall s :: s in stores ==>
          s in live && bound <= s && s != owner && Some(s) != app && live[s].refs == {})
    && (forall i, j :: 0 <= i < j < |stores| ==> stores[i] != stores[j])
  }

  /**
   `live` is `base` plus an owner, the value stores and perhaps an appearance box, where only the
   owner refers to the new objects. Everything in `base` is older than `bound`.
   */
  ghost predicate Owns(live: Blocks, base: Blocks, bound: nat, owner: nat, stores: seq<nat>, app: Option<nat>) {
    && BaseKept(live, base, bound, owner, app)
    && StoresOk(live, bound, owner, stores, app)
    && live.Keys == base.Keys + {owner} + IdSet(stores) + AppSet(app)
    && live[owner].refs <= IdSet(stores) + AppSet(app)
  }

  lemma {:induction false} StoresGrow(live: Blocks, after: Blocks, bound: nat, owner: nat, stores: seq<nat>,
                                      app: Option<nat>, id: nat)
    requires StoresOk(live, bound, owner, stores, app)
    requires id !in stores && bound <= id && id != owner && Some(id) != app && id in after && after[id].refs == {}
    requires forall s :: s in live && s != owner ==> s in after && after[s] == live[s]
    ensures StoresOk(after, bound, owner, stores + [id], app)
  {
    forall i | 0 <= i < |stores| ensures stores[i] != id {
      assert stores[i] in stores;
    }
  }

  /** A further store is allocated and the owner is given a pointer to it. */
  lemma {:induction false} OwnsGrows(live: Blocks, base: Blocks, bound: nat, owner: nat, stores: seq<nat>,
                                     app: Option<nat>, id: nat, after: Blocks)
    requires Owns(live, base, bound, owner, stores, app) && Below(live, id)
    requires var l := live[id := Block(ValueStore, {})];
             after == l[owner := l[owner].(refs := l[owner].refs + {id})]
    ensures owner < id && bound <= id && Owns(after, base, bound, owner, stores + [id], app)
  {
    assert id !in stores;
    StoresGrow(live, after, bound, owner, stores, app, id);
    assert IdSet(stores + [id]) == IdSet(stores) + {id};
    assert after.Keys == live.Keys + {id};
  }

  /** The owner's content is moved into a new owner. */
  lemma {:induction false} OwnsMoves(live: Blocks, base: Blocks, bound: nat, owner: nat, stores: seq<nat>,
                                     app: Option<nat>, id: nat, after: Blocks)
    requires Owns(live, base, bound, owner, stores, app) && Below(live, id)
    requires after == live[id := Block(Server, live[owner].refs)] - {owner}
    ensures owner < id && Owns(after, base, bound, id, stores, app)
    ensures !Referenced(live[id := Block(Server, live[owner].refs)], owner)
  {
  }
}
