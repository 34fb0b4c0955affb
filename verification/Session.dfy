/**
 One load-to-unload session's allocations: `chip::run` on either chip family, `serve_session`
 and `serve_central`. Each failure of the stack below is an outcome passed in.
 */
module Session {
  import opened Common
  import opened SessionHeap
  import opened Gatt
  import Lifecycle

  datatype Config = Config(services: Services, appearance: U16, central: bool)

  /** How the parts that are not ours answer. */
  datatype Outcomes = Outcomes(mpslOk: bool, sdcOk: bool, gap: Gap)

  /** The one path on which something is released too early. */
  predicate ReleasesEarly(cfg: Option<Config>, o: Outcomes) {
    && cfg.Some? && !cfg.value.central && o.mpslOk && o.sdcOk
    && cfg.value.appearance != 0 && o.gap == GapRejected(true)
  }

  /** What is left of a GATT once its server is gone: boxes nobody points to. */
  ghost predicate Leftover(live: Blocks, base: Blocks, bound: nat, stores: seq<nat>, app: Option<nat>) {
    && Below(base, bound)
    && live.Keys == base.Keys + IdSet(stores) + AppSet(app)
    && (forall k :: k in base ==> live[k] == base[k])
    && (forall s :: s in stores ==> bound <= s && Some(s) != app && live[s].refs == {})
    && (app.Some? ==> bound <= app.value && live[app.value].refs == {})
    && (forall i, j :: 0 <= i < j < |stores| ==> stores[i] != stores[j])
  }

  lemma {:induction false} ServerGone(live: Blocks, base: Blocks, bound: nat, server: nat, stores: seq<nat>,
                                      app: Option<nat>)
    requires Owns(live, base, bound, server, stores, app)
    ensures !Referenced(live, server) && Leftover(live - {server}, base, bound, stores, app)
  {
  }

  lemma {:induction false} StoreGone(live: Blocks, base: Blocks, bound: nat, stores: seq<nat>, app: Option<nat>)
    requires Leftover(live, base, bound, stores, app) && stores != []
    ensures stores[0] in live && !Referenced(live, stores[0])
    ensures Leftover(live - {stores[0]}, base, bound, stores[1..], app)
  {
    assert stores[0] in stores;
    assert forall s :: s in stores <==> s == stores[0] || s in stores[1..];
    assert stores[0] !in stores[1..] by {
      assert forall i :: 0 <= i < |stores| - 1 ==> stores[1..][i] == stores[i + 1] && stores[i + 1] != stores[0];
    }
  }

  lemma {:induction false} AppearanceGone(live: Blocks, base: Blocks, bound: nat, app: Option<nat>)
    requires Leftover(live, base, bound, [], app)
    ensures app.None? ==> live == base
    ensures app.Some? ==> app.value in live && !Referenced(live, app.value) && live - {app.value} == base
  {
    if app.Some? {
      assert app.value !in base;
      assert (live - {app.value}).Keys == base.Keys;
    } else {
      assert live.Keys == base.Keys;
    }
  }

  /** Drop the server first, then reclaim every value buffer, then the appearance. */
  method Teardown(g: Built, heap: Heap, ghost base: Blocks, ghost bound: nat)
    requires heap.Valid() && Owns(heap.live, base, bound, g.server, g.stores, g.appearance)
    modifies heap
    ensures heap.Valid() && heap.live == base && heap.dangling == old(heap.dangling)
  {
    assert g.server in heap.live;
    ServerGone(heap.live, base, bound, g.server, g.stores, g.appearance);
    heap.Free(g.server);
    ReclaimStores(g.stores, heap, base, bound, g.appearance);
    AppearanceGone(heap.live, base, bound, g.appearance);
    if g.appearance.Some? {
      heap.Free(g.appearance.value);
    }
  }

  method ReclaimStores(stores: seq<nat>, heap: Heap, ghost base: Blocks, ghost bound: nat, ghost app: Option<nat>)
    requires heap.Valid() && Leftover(heap.live, base, bound, stores, app)
    modifies heap
    ensures heap.Valid() && heap.dangling == old(heap.dangling) && Leftover(heap.live, base, bound, [], app)
  {
    for i := 0 to |stores|
      invariant heap.Valid() && heap.dangling == old(heap.dangling)
      invariant Leftover(heap.live, base, bound, stores[i..], app)
    {
      StoreGone(heap.live, base, bound, stores[i..], app);
      heap.Free(stores[i]);
      assert stores[i..][1..] == stores[i + 1..];
    }
    assert stores[|stores|..] == [];
  }

  /** `serve_session`: the session future borrows server, stack and MPSL while it runs. */
  method ServeSession(cfg: Config, o: Outcomes, heap: Heap, mpsl: nat, stack: nat)
    requires heap.Valid() && mpsl in heap.live && stack in heap.live
    modifies heap
    ensures heap.Valid() && heap.live == old(heap.live)
    ensures heap.dangling == (old(heap.dangling) || (cfg.appearance != 0 && o.gap == GapRejected(true)))
  {
    var g := BuildGatt(cfg.services, cfg.appearance, o.gap, heap);
    if g.None? { return; }
    assert g.value.server in heap.live;
    RunFuture(heap, {g.value.server, stack, mpsl});
    Teardown(g.value, heap, old(heap.live), old(heap.next));
  }

  /** `block_on` over a future that borrows `refs`; it is dropped when the call returns. */
  method RunFuture(heap: Heap, refs: set<nat>)
    requires heap.Valid() && forall r :: r in refs ==> r < heap.next
    modifies heap
    ensures heap.Valid() && heap.live == old(heap.live) && heap.dangling == old(heap.dangling)
  {
    var f := heap.Alloc(SessionFuture, refs);
    heap.Free(f);
    assert f !in old(heap.live);
  }

  /** The controller's resources, released in the order of the code. */
  method ReleaseSdc(heap: Heap, mpsl: nat, rng: nat, mem: nat, ghost base: Blocks)
    requires heap.Valid() && Below(base, mpsl) && mpsl < rng < mem
    requires heap.live == base[mpsl := Block(Mpsl, {})][rng := Block(Rng, {})][mem := Block(SdcMem, {})]
    modifies heap
    ensures heap.Valid() && heap.live == base && heap.dangling == old(heap.dangling)
  {
    heap.Free(mem);
    heap.Free(rng);
    heap.Free(mpsl);
    assert mpsl !in base && rng !in base && mem !in base;
  }

  /** The status of the first step that fails, or OK. */
  function StatusOf(cfg: Option<Config>, o: Outcomes): Lifecycle.Status {
    if cfg.None? then Lifecycle.Invalid
    else if !o.mpslOk then Lifecycle.Mpsl
    else if !o.sdcOk then Lifecycle.Sdc
    else Lifecycle.Ok
  }

  /** What a thread of the load handshake can publish is what a session can end its bring-up with. */
  lemma {:induction false} PublishedStatuses(st: Lifecycle.Status)
    ensures Lifecycle.CanPublish(st) <==> exists cfg: Option<Config>, o: Outcomes :: StatusOf(cfg, o) == st
  {
    var cfg := Some(Config([], 0, false));
    assert StatusOf(None, Outcomes(true, true, GapBuilt)) == Lifecycle.Invalid;
    assert StatusOf(cfg, Outcomes(false, true, GapBuilt)) == Lifecycle.Mpsl;
    assert StatusOf(cfg, Outcomes(true, false, GapBuilt)) == Lifecycle.Sdc;
    assert StatusOf(cfg, Outcomes(true, true, GapBuilt)) == Lifecycle.Ok;
  }

  /**
   `chip::run`: whatever the configuration and whichever step fails, the heap afterwards is the
   heap before, and nothing was released under a live pointer except where `ReleasesEarly` says.
   The result is the status published to the loader.
   */
  method RunSession(cfg: Option<Config>, o: Outcomes, heap: Heap) returns (status: Lifecycle.Status)
    requires heap.Valid()
    modifies heap
    ensures heap.Valid() && heap.live == old(heap.live)
    ensures heap.dangling == (old(heap.dangling) || ReleasesEarly(cfg, o))
    ensures status == StatusOf(cfg, o)
  {
    ghost var base := heap.live;
    if cfg.None? { return Lifecycle.Invalid; }
    if !o.mpslOk { return Lifecycle.Mpsl; }
    var mpsl := heap.Alloc(Mpsl, {});
    var rng := heap.Alloc(Rng, {});
    var mem := heap.Alloc(SdcMem, {});
    if !o.sdcOk {
      ReleaseSdc(heap, mpsl, rng, mem, base);
      return Lifecycle.Sdc;
    }
    Serve(cfg.value, o, heap, mpsl, rng, mem);
    ReleaseSdc(heap, mpsl, rng, mem, base);
    status := Lifecycle.Ok;
  }

  /** Host resources and stack around the serving of a session; the stack borrows all the rest. */
  method Serve(cfg: Config, o: Outcomes, heap: Heap, mpsl: nat, rng: nat, mem: nat)
    requires heap.Valid() && mpsl in heap.live && rng in heap.live && mem in heap.live
    modifies heap
    ensures heap.Valid() && heap.live == old(heap.live)
    ensures heap.dangling == (old(heap.dangling) || (!cfg.central && cfg.appearance != 0 && o.gap == GapRejected(true)))
  {
    var res := heap.Alloc(HostResources, {});
    var stack := heap.Alloc(HostStack, {res, mem, rng, mpsl});
    if cfg.central {
      RunFuture(heap, {stack, mpsl});
    } else {
      ServeSession(cfg, o, heap, mpsl, stack);
    }
    assert !Referenced(heap.live, stack);
    heap.Free(stack);
    assert !Referenced(heap.live, res);
    heap.Free(res);
    assert res !in old(heap.live) && stack !in old(heap.live);
  }

  /** Any sequence of sessions leaves the heap where it started. */
  method RunSessions(sessions: seq<(Option<Config>, Outcomes)>, heap: Heap)
    requires heap.Valid()
    modifies heap
    ensures heap.Valid() && heap.live == old(heap.live)
    ensures heap.dangling == (old(heap.dangling)
              || exists i :: 0 <= i < |sessions| && ReleasesEarly(sessions[i].0, sessions[i].1))
  {
    for i := 0 to |sessions|
      invariant heap.Valid() && heap.live == old(heap.live)
      invariant heap.dangling == (old(heap.dangling)
                  || exists k :: 0 <= k < i && ReleasesEarly(sessions[k].0, sessions[k].1))
    {
      var _ := RunSession(sessions[i].0, sessions[i].1, heap);
    }
  }
}
