/**
 The GATT built at load time from the application's nested configuration: `build_gatt`, the
 lookup by UUID in `runtime_ble_char_index`, and the dispatch of a peer's write in
 `connection_task`.

 The stack's attribute table is an allocator of fresh handles; a characteristic gets a client
 configuration descriptor exactly when it notifies or indicates.
 */
module Gatt {
  import opened Common
  import opened SessionHeap

  const ERR_INVALID := -1

  datatype DescDef = DescDef(permissions: U16)

  /** Counts are single bytes in the configuration. A null UUID pointer is `None`. */
  type Descs = s: seq<DescDef> | |s| <= 255
  datatype CharDef = CharDef(uuid: Option<seq<Byte>>, props: U16, descriptors: Descs)
  type Chars = s: seq<CharDef> | |s| <= 255
  /** A null pointer to characteristics goes with a count of zero. */
  datatype ServiceDef = ServiceDef(chars: Option<Chars>)
  type Services = s: seq<ServiceDef> | |s| <= 255

  datatype Chr = Chr(handle: nat, cccd: Option<nat>, uuid: Uuid)
  datatype DescMeta = DescMeta(handle: nat, chr: U16, desc: Byte)

  /** What the session keeps. `nusRx` and `nusTx` are set for the built-in service only. */
  datatype Built = Built(
    chars: seq<Chr>, props: seq<U16>, descriptors: seq<DescMeta>,
    nusRx: Option<nat>, nusTx: Option<nat>,
    server: nat, stores: seq<nat>, appearance: Option<nat>)

  predicate Notifies(props: U16) { props / 8 % 2 == 1 || props / 16 % 2 == 1 }

  predicate Writable(permissions: U16) {
    permissions / 4 % 2 == 1 || permissions / 8 % 2 == 1 || permissions / 64 % 2 == 1
  }

  // ---------------------------------------------------------------------------
  // Declaration order.
  // ---------------------------------------------------------------------------

  function CharsOf(s: ServiceDef): Chars { if s.chars.Some? then s.chars.value else [] }

  /** All characteristics, in declaration order: position is the flat index. */
  function Flat(services: seq<ServiceDef>): seq<CharDef> {
    if services == [] then [] else Flat(services[..|services| - 1]) + CharsOf(services[|services| - 1])
  }

  /** The (characteristic, descriptor) positions of all user descriptors, in declaration order. */
  function DescRefs(flat: seq<CharDef>): seq<(nat, nat)> {
    if flat == [] then []
    else DescRefs(flat[..|flat| - 1]) + Pairs(|flat| - 1, |flat[|flat| - 1].descriptors|)
  }

  function Pairs(chr: nat, n: nat): seq<(nat, nat)> {
    if n == 0 then [] else Pairs(chr, n - 1) + [(chr, n - 1)]
  }

  /** One value buffer per characteristic and per writable descriptor. */
  function StoreCount(flat: seq<CharDef>): nat { |flat| + WritableDescs(flat) }

  function WritableDescs(flat: seq<CharDef>): nat {
    if flat == [] then 0
    else WritableDescs(flat[..|flat| - 1]) + WritableCount(flat[|flat| - 1].descriptors)
  }

  function WritableCount(ds: seq<DescDef>): nat {
    if ds == [] then 0
    else WritableCount(ds[..|ds| - 1]) + (if Writable(ds[|ds| - 1].permissions) then 1 else 0)
  }

  lemma {:induction false} FlatBound(services: seq<ServiceDef>)
    ensures |Flat(services)| <= 255 * |services|
  {
    if services != [] {
      FlatBound(services[..|services| - 1]);
    }
  }

  lemma {:induction false} FlatStep(services: seq<ServiceDef>, i: nat)
    requires i < |services|
    ensures Flat(services[..i + 1]) == Flat(services[..i]) + CharsOf(services[i])
  {
    assert services[..i + 1][..i] == services[..i];
  }

  lemma {:induction false} FlatPrefix(services: seq<ServiceDef>, i: nat)
    requires i <= |services|
    ensures Flat(services[..i]) <= Flat(services)
    decreases |services| - i
  {
    if i == |services| {
      assert services[..i] == services;
    } else {
      FlatPrefix(services, i + 1);
      FlatStep(services, i);
    }
  }

  /** A service's characteristics stand in the flat list right after those of the services before it. */
  lemma {:induction false} FlatSpan(services: seq<ServiceDef>, i: nat)
    requires i < |services|
    ensures var start, n := |Flat(services[..i])|, |CharsOf(services[i])|;
            && |Flat(services[..i + 1])| == start + n <= |Flat(services)|
            && Flat(services)[start..start + n] == CharsOf(services[i])
  {
    FlatStep(services, i);
    FlatPrefix(services, i + 1);
  }

  // ---------------------------------------------------------------------------
  // Lookup by UUID.
  // ---------------------------------------------------------------------------

  /** First position from `from` whose declared UUID is `want`; the length when there is none. */
  function FirstDeclared(flat: seq<CharDef>, want: seq<Byte>, from: nat): (k: nat)
    requires from <= |flat|
    ensures from <= k <= |flat| && (k < |flat| ==> flat[k].uuid == Some(want))
    ensures forall j :: from <= j < k ==> flat[j].uuid != Some(want)
    decreases |flat| - from
  {
    if from == |flat| || flat[from].uuid == Some(want) then from else FirstDeclared(flat, want, from + 1)
  }

  /** The inner loop: `idx` runs on over one service's characteristics. */
  method SearchService(cdefs: Chars, uuid: Option<seq<Byte>>, start: U16, ghost flat: seq<CharDef>)
    returns (found: bool, idx: U16)
    requires start + |cdefs| <= |flat| <= 255 * 255 && flat[start..start + |cdefs|] == cdefs
    ensures found ==> start <= idx < start + |cdefs| && flat[idx].uuid == uuid
    ensures !found ==> idx == start + |cdefs|
    ensures forall k :: start <= k < idx ==> flat[k].uuid != uuid
  {
    idx := start;
    for j := 0 to |cdefs|
      invariant idx == start + j && forall k :: start <= k < idx ==> flat[k].uuid != uuid
    {
      assert flat[idx] == flat[start..start + |cdefs|][j];
      if cdefs[j].uuid == uuid { return true, idx; }
      idx := idx + 1;
    }
    found := false;
  }

  /** One service of the outer loop, skipped if it has no characteristics. */
  method SearchNext(services: Services, i: nat, uuid: Option<seq<Byte>>, start: U16) returns (found: bool, idx: U16)
    requires i < |services| && start == |Flat(services[..i])| && |Flat(services)| <= 255 * 255
    ensures start <= idx <= |Flat(services)| && forall k :: start <= k < idx ==> Flat(services)[k].uuid != uuid
    ensures found ==> idx < |Flat(services)| && Flat(services)[idx].uuid == uuid
    ensures !found ==> idx == |Flat(services[..i + 1])|
  {
    FlatSpan(services, i);
    if services[i].chars.None? { return false, start; }
    found, idx := SearchService(services[i].chars.value, uuid, start, Flat(services));
  }

  /** The first declared characteristic with a well-formed UUID; an error when there is none. */
  function Lookup(services: Services, uuid: Option<seq<Byte>>): int {
    var flat := Flat(services);
    if WellFormedUuid(uuid) && FirstDeclared(flat, uuid.value, 0) < |flat|
    then FirstDeclared(flat, uuid.value, 0) else ERR_INVALID
  }

  /**
   `runtime_ble_char_index`. The running index is a u16: that it cannot overflow is part of what
   is verified here.
   */
  method CharIndex(services: Services, uuid: Option<seq<Byte>>) returns (r: int)
    ensures r == Lookup(services, uuid)
  {
    if uuid.None? || (|uuid.value| != 2 && |uuid.value| != 16) { return ERR_INVALID; }
    if services == [] { return ERR_INVALID; }
    ghost var flat := Flat(services);
    FlatBound(services);
    assert services[..0] == [];
    var idx: U16 := 0;
    for i := 0 to |services|
      invariant idx == |Flat(services[..i])|
      invariant idx <= |flat| && forall k :: 0 <= k < idx ==> flat[k].uuid != uuid
    {
      var found;
      found, idx := SearchNext(services, i, uuid, idx);
      if found {
        LookupIs(services, uuid, idx);
        return idx;
      }
    }
    assert services[..|services|] == services;
    LookupIs(services, uuid, idx);
    r := ERR_INVALID;
  }

  /** A search that got to `k` without a match has the answer: a match there, or none at the end. */
  lemma {:induction false} LookupIs(services: Services, uuid: Option<seq<Byte>>, k: nat)
    requires WellFormedUuid(uuid) && k <= |Flat(services)|
    requires forall j :: 0 <= j < k ==> Flat(services)[j].uuid != uuid
    ensures k == |Flat(services)| ==> Lookup(services, uuid) == ERR_INVALID
    ensures k < |Flat(services)| && Flat(services)[k].uuid == uuid ==> Lookup(services, uuid) == k
  {
  }

  // ---------------------------------------------------------------------------
  // Building.
  // ---------------------------------------------------------------------------

  /** The stack's attribute table, as far as handles go: every one it hands out is new. */
  class AttributeTable {
    var used: set<nat>
    var next: nat

    ghost predicate Valid()
      reads this
    {
      forall h :: h in used ==> h < next
    }

    constructor ()
      ensures Valid() && used == {}
    {
      used, next := {}, 1;
    }

    method Fresh() returns (h: nat)
      requires Valid()
      modifies this
      ensures Valid() && h !in old(used) && used == old(used) + {h}
    {
      h := next;
      used := used + {h};
      next := next + 1;
    }
  }

  /** The vectors under construction. */
  datatype Partial = Partial(chars: seq<Chr>, props: seq<U16>, descriptors: seq<DescMeta>, stores: seq<nat>)

  /** No handle stands for two things. */
  ghost predicate DistinctHandles(chars: seq<Chr>, descs: seq<DescMeta>) {
    && (forall i, j :: 0 <= i < j < |chars| ==> chars[i].handle != chars[j].handle)
    && (forall i, j :: 0 <= i < j < |chars| && chars[i].cccd.Some? ==> chars[i].cccd != chars[j].cccd)
    && (forall i, j :: 0 <= i < |chars| && 0 <= j < |chars| ==> Some(chars[i].handle) != chars[j].cccd)
    && (forall k, l :: 0 <= k < l < |descs| ==> descs[k].handle != descs[l].handle)
    && (forall i, k :: 0 <= i < |chars| && 0 <= k < |descs| ==>
          chars[i].handle != descs[k].handle && chars[i].cccd != Some(descs[k].handle))
  }

  ghost predicate HandlesIn(chars: seq<Chr>, descs: seq<DescMeta>, used: set<nat>) {
    && (forall i :: 0 <= i < |chars| ==>
          chars[i].handle in used && (chars[i].cccd.Some? ==> chars[i].cccd.value in used))
    && (forall k :: 0 <= k < |descs| ==> descs[k].handle in used)
  }

  /** The handles in use, each for one thing. */
  ghost predicate Handles(chars: seq<Chr>, descs: seq<DescMeta>, used: set<nat>) {
    DistinctHandles(chars, descs) && HandlesIn(chars, descs, used)
  }

  lemma {:induction false} AddDescHandle(chars: seq<Chr>, descs: seq<DescMeta>, used: set<nat>, m: DescMeta)
    requires Handles(chars, descs, used) && m.handle !in used
    ensures Handles(chars, descs + [m], used + {m.handle})
  {
  }

  lemma {:induction false} AddCharHandles(chars: seq<Chr>, descs: seq<DescMeta>, used: set<nat>, c: Chr,
                                          used': set<nat>)
    requires Handles(chars, descs, used) && c.handle !in used && used + {c.handle} <= used' && c.handle in used'
    requires c.cccd.Some? ==> c.cccd.value !in used + {c.handle} && c.cccd.value in used'
    ensures Handles(chars + [c], descs, used')
  {
  }

  ghost predicate CharMirrors(c: Chr, def: CharDef) {
    c.uuid == UuidFrom(def.uuid) && (c.cccd.Some? <==> Notifies(def.props))
  }

  ghost predicate DescsMirror(descs: seq<DescMeta>, refs: seq<(nat, nat)>) {
    |descs| == |refs| && forall k :: 0 <= k < |descs| ==> (descs[k].chr, descs[k].desc) == refs[k]
  }

  /** Position by position, what was built is what was declared. */
  ghost predicate Mirrors(chars: seq<Chr>, props: seq<U16>, descs: seq<DescMeta>, flat: seq<CharDef>) {
    && |chars| == |flat| && |props| == |flat|
    && (forall i :: 0 <= i < |flat| ==> CharMirrors(chars[i], flat[i]) && props[i] == flat[i].props)
    && DescsMirror(descs, DescRefs(flat))
  }

  /** `alloc_store`: a value buffer that the table points into. */
  method AllocStore(heap: Heap, owner: nat, stores: seq<nat>, ghost base: Blocks, ghost bound: nat,
                    ghost app: Option<nat>)
    returns (stores': seq<nat>)
    requires heap.Valid() && Owns(heap.live, base, bound, owner, stores, app)
    modifies heap
    ensures heap.Valid() && heap.dangling == old(heap.dangling)
    ensures |stores'| == |stores| + 1 && Owns(heap.live, base, bound, owner, stores', app)
  {
    assert owner in heap.live;
    var id := heap.Alloc(ValueStore, {});
    heap.Refer(owner, id);
    OwnsGrows(old(heap.live), base, bound, owner, stores, app, id, heap.live);
    stores' := stores + [id];
  }

  lemma {:induction false} MirrorDesc(descs: seq<DescMeta>, flat: seq<CharDef>, j: nat, m: DescMeta)
    requires DescsMirror(descs, DescRefs(flat) + Pairs(|flat|, j)) && m.chr == |flat| && m.desc == j
    ensures DescsMirror(descs + [m], DescRefs(flat) + Pairs(|flat|, j + 1))
  {
    assert DescRefs(flat) + Pairs(|flat|, j + 1) == DescRefs(flat) + Pairs(|flat|, j) + [(|flat|, j)];
  }

  /** What holds of the vectors after `j` descriptors of the characteristic `c` in the making. */
  ghost predicate InChar(p: Partial, c: Chr, j: nat, flat: seq<CharDef>, heap: Heap, table: AttributeTable, owner: nat,
                         base: Blocks, bound: nat, app: Option<nat>)
    reads heap, table
  {
    && heap.Valid() && Owns(heap.live, base, bound, owner, p.stores, app)
    && table.Valid() && Handles(p.chars + [c], p.descriptors, table.used)
    && |p.chars| == |flat| < 0x1_0000
    && DescsMirror(p.descriptors, DescRefs(flat) + Pairs(|flat|, j))
  }

  /** One user descriptor; a writable one gets a value buffer. */
  method AddDescriptor(d: DescDef, j: nat, c: Chr, p: Partial, heap: Heap, table: AttributeTable, owner: nat,
                       ghost flat: seq<CharDef>, ghost base: Blocks, ghost bound: nat, ghost app: Option<nat>)
    returns (p': Partial)
    requires j < 255 && InChar(p, c, j, flat, heap, table, owner, base, bound, app)
    modifies heap, table
    ensures InChar(p', c, j + 1, flat, heap, table, owner, base, bound, app)
    ensures heap.dangling == old(heap.dangling) && p'.chars == p.chars && p'.props == p.props
    ensures |p'.stores| == |p.stores| + (if Writable(d.permissions) then 1 else 0)
  {
    var stores := p.stores;
    if Writable(d.permissions) {
      stores := AllocStore(heap, owner, p.stores, base, bound, app);
    }
    var h := table.Fresh();
    var m := DescMeta(h, |p.chars|, Min(j, 255));
    AddDescHandle(p.chars + [c], p.descriptors, old(table.used), m);
    MirrorDesc(p.descriptors, flat, j, m);
    p' := p.(stores := stores, descriptors := p.descriptors + [m]);
  }

  method AddDescriptors(ds: Descs, c: Chr, p: Partial, heap: Heap, table: AttributeTable, owner: nat,
                        ghost flat: seq<CharDef>, ghost base: Blocks, ghost bound: nat, ghost app: Option<nat>)
    returns (p': Partial)
    requires InChar(p, c, 0, flat, heap, table, owner, base, bound, app)
    modifies heap, table
    ensures InChar(p', c, |ds|, flat, heap, table, owner, base, bound, app)
    ensures heap.dangling == old(heap.dangling) && p'.chars == p.chars && p'.props == p.props
    ensures |p'.stores| == |p.stores| + WritableCount(ds)
  {
    p' := p;
    for j := 0 to |ds|
      invariant InChar(p', c, j, flat, heap, table, owner, base, bound, app)
      invariant heap.dangling == old(heap.dangling) && p'.chars == p.chars && p'.props == p.props
      invariant |p'.stores| == |p.stores| + WritableCount(ds[..j])
    {
      assert ds[..j + 1][..j] == ds[..j];
      p' := AddDescriptor(ds[j], j, c, p', heap, table, owner, flat, base, bound, app);
    }
    assert ds[..|ds|] == ds;
  }

  lemma {:induction false} FlatAppend(flat: seq<CharDef>, def: CharDef)
    ensures DescRefs(flat + [def]) == DescRefs(flat) + Pairs(|flat|, |def.descriptors|)
    ensures StoreCount(flat + [def]) == StoreCount(flat) + 1 + WritableCount(def.descriptors)
  {
    assert (flat + [def])[..|flat|] == flat;
  }

  lemma {:induction false} MirrorsAppend(chars: seq<Chr>, props: seq<U16>, descs: seq<DescMeta>, flat: seq<CharDef>,
                      c: Chr, def: CharDef, descs': seq<DescMeta>)
    requires Mirrors(chars, props, descs, flat) && CharMirrors(c, def)
    requires DescsMirror(descs', DescRefs(flat) + Pairs(|flat|, |def.descriptors|))
    ensures Mirrors(chars + [c], props + [def.props], descs', flat + [def])
  {
    FlatAppend(flat, def);
  }

  /** Everything the build keeps true after each characteristic. */
  ghost predicate Progress(p: Partial, flat: seq<CharDef>, heap: Heap, table: AttributeTable, owner: nat,
                           base: Blocks, bound: nat, app: Option<nat>)
    reads heap, table
  {
    && heap.Valid() && Owns(heap.live, base, bound, owner, p.stores, app)
    && table.Valid() && Handles(p.chars, p.descriptors, table.used)
    && Mirrors(p.chars, p.props, p.descriptors, flat)
    && |p.stores| == StoreCount(flat)
  }

  /** One characteristic with its descriptors: the body of the builder's inner loop. */
  method AddCharacteristic(def: CharDef, p: Partial, heap: Heap, table: AttributeTable, owner: nat,
                           ghost flat: seq<CharDef>, ghost base: Blocks, ghost bound: nat, ghost app: Option<nat>)
    returns (p': Partial)
    requires Progress(p, flat, heap, table, owner, base, bound, app) && |flat| < 0x1_0000
    modifies heap, table
    ensures Progress(p', flat + [def], heap, table, owner, base, bound, app)
    ensures heap.dangling == old(heap.dangling)
  {
    var stores := AllocStore(heap, owner, p.stores, base, bound, app);
    var h := table.Fresh();
    var cccd := None;
    if Notifies(def.props) {
      var x := table.Fresh();
      cccd := Some(x);
    }
    var c := Chr(h, cccd, UuidFrom(def.uuid));
    AddCharHandles(p.chars, p.descriptors, old(table.used), c, table.used);
    assert DescRefs(flat) + Pairs(|flat|, 0) == DescRefs(flat);
    p' := AddDescriptors(def.descriptors, c, p.(stores := stores), heap, table, owner, flat, base, bound, app);
    FlatAppend(flat, def);
    MirrorsAppend(p.chars, p.props, p.descriptors, flat, c, def, p'.descriptors);
    p' := p'.(chars := p'.chars + [c], props := p'.props + [def.props]);
  }

  // The built-in Nordic UART service: RX is written, TX notifies.
  const NUS_RX: seq<Byte> :=
    [0x9e, 0xca, 0xdc, 0x24, 0x0e, 0xe5, 0xa9, 0xe0, 0x93, 0xf3, 0xa3, 0xb5, 0x02, 0x00, 0x40, 0x6e]
  const NUS_TX: seq<Byte> :=
    [0x9e, 0xca, 0xdc, 0x24, 0x0e, 0xe5, 0xa9, 0xe0, 0x93, 0xf3, 0xa3, 0xb5, 0x03, 0x00, 0x40, 0x6e]

  function NusRxDef(): CharDef { CharDef(Some(NUS_RX), 0x06, []) }
  function NusTxDef(): CharDef { CharDef(Some(NUS_TX), 0x08, []) }

  /** The characteristics a configuration stands for. */
  function Effective(services: Services): seq<CharDef> {
    if services == [] then [NusRxDef(), NusTxDef()] else Flat(services)
  }

  /** The stack's answer to the GAP service; a rejection may or may not have left the appearance in the table. */
  datatype Gap = GapBuilt | GapRejected(kept: bool)

  /** The index space, the handles and the value buffers of a built GATT are those of its configuration. */
  ghost predicate Faithful(g: Built, services: Services) {
    && Mirrors(g.chars, g.props, g.descriptors, Effective(services))
    && DistinctHandles(g.chars, g.descriptors)
    && |g.stores| == StoreCount(Effective(services))
    && g.nusRx == (if services == [] then Some(0) else None)
    && g.nusTx == (if services == [] then Some(1) else None)
  }

  /**
   `build_gatt`. On a rejected GAP service the appearance box is released before the table, a
   local, goes out of scope.
   */
  method BuildGatt(services: Services, appearance: U16, gap: Gap, heap: Heap) returns (r: Option<Built>)
    requires heap.Valid()
    modifies heap
    ensures heap.Valid() && (r.Some? <==> gap.GapBuilt?)
    ensures r.Some? ==> heap.dangling == old(heap.dangling) && Faithful(r.value, services)
    ensures r.Some? ==> (r.value.appearance.Some? <==> appearance != 0)
    ensures r.Some? ==>
      Owns(heap.live, old(heap.live), old(heap.next), r.value.server, r.value.stores, r.value.appearance)
    ensures r.None? ==> heap.live == old(heap.live)
    ensures r.None? ==> heap.dangling == (old(heap.dangling) || (appearance != 0 && gap.kept))
  {
    ghost var base, bound := heap.live, heap.next;
    var table := new AttributeTable();
    var owner := heap.Alloc(Table, {});
    var app := None;
    if appearance != 0 {
      var id := heap.Alloc(Appearance, {});
      app := Some(id);
    }
    if gap.GapRejected? {
      RejectGap(heap, owner, app, gap.kept, base, bound);
      return None;
    }
    if app.Some? {
      heap.Refer(owner, app.value);
    }
    assert Owns(heap.live, base, bound, owner, [], app);
    assert heap.dangling == old(heap.dangling);
    var p := BuildChars(services, heap, table, owner, base, bound, app);
    var server := MoveToServer(heap, owner, p.stores, base, bound, app);
    r := Some(Built(p.chars, p.props, p.descriptors,
                    if services == [] then Some(0) else None, if services == [] then Some(1) else None,
                    server, p.stores, app));
  }

  /** The table moves into the boxed server, and its old place is gone. */
  method MoveToServer(heap: Heap, table: nat, stores: seq<nat>, ghost base: Blocks, ghost bound: nat,
                      ghost app: Option<nat>)
    returns (server: nat)
    requires heap.Valid() && Owns(heap.live, base, bound, table, stores, app)
    modifies heap
    ensures heap.Valid() && heap.dangling == old(heap.dangling) && Owns(heap.live, base, bound, server, stores, app)
  {
    assert table in heap.live;
    server := heap.Alloc(Server, heap.live[table].refs);
    heap.Free(table);
    OwnsMoves(old(heap.live), base, bound, table, stores, app, server, heap.live);
  }

  method RejectGap(heap: Heap, table: nat, app: Option<nat>, kept: bool, ghost base: Blocks, ghost bound: nat)
    requires heap.Valid() && Below(base, bound) && table == bound && (app.Some? ==> app.value == table + 1)
    requires heap.live == (if app.None? then base[table := Block(Table, {})]
                           else base[table := Block(Table, {})][app.value := Block(Appearance, {})])
    modifies heap
    ensures heap.Valid() && heap.live == base
    ensures heap.dangling == (old(heap.dangling) || (app.Some? && kept))
  {
    if app.Some? {
      assert app.value in heap.live && table in heap.live;
      if kept {
        heap.Refer(table, app.value);
        assert table in heap.live && app.value in heap.live[table].refs;
      }
      heap.Free(app.value);
    }
    heap.Free(table);
  }

  /** The characteristics: the built-in pair, or those of the configured services. */
  method BuildChars(services: Services, heap: Heap, table: AttributeTable, owner: nat,
                    ghost base: Blocks, ghost bound: nat, ghost app: Option<nat>) returns (p: Partial)
    requires heap.Valid() && table.Valid() && Owns(heap.live, base, bound, owner, [], app)
    modifies heap, table
    ensures Progress(p, Effective(services), heap, table, owner, base, bound, app)
    ensures heap.dangling == old(heap.dangling)
  {
    p := Partial([], [], [], []);
    if services == [] {
      p := BuildService([NusRxDef(), NusTxDef()], p, heap, table, owner, [], base, bound, app);
      assert [] + Effective(services) == Effective(services);
    } else {
      p := BuildServices(services, p, heap, table, owner, base, bound, app);
    }
  }

  method BuildServices(services: Services, start: Partial, heap: Heap, table: AttributeTable, owner: nat,
                       ghost base: Blocks, ghost bound: nat, ghost app: Option<nat>) returns (p: Partial)
    requires Progress(start, [], heap, table, owner, base, bound, app)
    modifies heap, table
    ensures Progress(p, Flat(services), heap, table, owner, base, bound, app)
    ensures heap.dangling == old(heap.dangling)
  {
    p := start;
    assert services[..0] == [];
    for i := 0 to |services|
      invariant Progress(p, Flat(services[..i]), heap, table, owner, base, bound, app)
      invariant heap.dangling == old(heap.dangling)
    {
      FlatStep(services, i);
      FlatBound(services[..i]);
      p := BuildService(CharsOf(services[i]), p, heap, table, owner, Flat(services[..i]), base, bound, app);
    }
    assert services[..|services|] == services;
  }

  method BuildService(cdefs: Chars, p: Partial, heap: Heap, table: AttributeTable, owner: nat,
                      ghost flat: seq<CharDef>, ghost base: Blocks, ghost bound: nat, ghost app: Option<nat>)
    returns (p': Partial)
    requires Progress(p, flat, heap, table, owner, base, bound, app) && |flat| <= 255 * 255
    modifies heap, table
    ensures Progress(p', flat + cdefs, heap, table, owner, base, bound, app)
    ensures heap.dangling == old(heap.dangling)
  {
    p' := p;
    assert flat + cdefs[..0] == flat;
    for j := 0 to |cdefs|
      invariant Progress(p', flat + cdefs[..j], heap, table, owner, base, bound, app)
      invariant heap.dangling == old(heap.dangling)
    {
      TakeOneMore(flat, cdefs, j);
      p' := AddCharacteristic(cdefs[j], p', heap, table, owner, flat + cdefs[..j], base, bound, app);
    }
    TakeAll(flat, cdefs);
  }

  lemma {:induction false} TakeOneMore(flat: seq<CharDef>, cdefs: Chars, j: nat)
    requires j < |cdefs|
    ensures flat + cdefs[..j + 1] == flat + cdefs[..j] + [cdefs[j]]
  {
  }

  lemma {:induction false} TakeAll(flat: seq<CharDef>, cdefs: Chars)
    ensures flat + cdefs[..|cdefs|] == flat + cdefs
  {
    assert cdefs[..|cdefs|] == cdefs;
  }

  // ---------------------------------------------------------------------------
  // Lookup against the built table.
  // ---------------------------------------------------------------------------

  /** First position from `from` in the built table whose UUID is `want`. */
  function FirstBuilt(chars: seq<Chr>, want: Uuid, from: nat): (k: nat)
    requires from <= |chars|
    ensures from <= k <= |chars| && (k < |chars| ==> chars[k].uuid == want)
    ensures forall j :: from <= j < k ==> chars[j].uuid != want
    decreases |chars| - from
  {
    if from == |chars| || chars[from].uuid == want then from else FirstBuilt(chars, want, from + 1)
  }

  /** The answer a search of the built table would give. */
  function TableAnswer(g: Built, want: seq<Byte>): int {
    var k := FirstBuilt(g.chars, UuidFrom(Some(want)), 0);
    if k < |g.chars| then k else ERR_INVALID
  }

  /** 0 is asked for, and a characteristic with a malformed UUID, which is built as 0, is declared earlier. */
  predicate MalformedFirst(services: Services, want: seq<Byte>) {
    var flat := Flat(services);
    want == [0, 0] && exists k :: 0 <= k < FirstDeclared(flat, want, 0) && !WellFormedUuid(flat[k].uuid)
  }

  /** The built-in service is asked for, which the lookup does not know. */
  predicate AsksBuiltIn(services: Services, want: seq<Byte>) {
    services == [] && (want == NUS_RX || want == NUS_TX)
  }

  /** The built UUID equals the one asked for: the declared one does, or 0 stands in for a malformed one. */
  lemma {:induction false} BuiltUuidMatches(u: Option<seq<Byte>>, want: seq<Byte>)
    requires WellFormedUuid(Some(want))
    ensures UuidFrom(u) == UuidFrom(Some(want)) <==> u == Some(want) || (!WellFormedUuid(u) && want == [0, 0])
  {
    if |want| == 2 {
      assert want == [want[0], want[1]];
      if u.Some? && |u.value| == 2 {
        assert u.value == [u.value[0], u.value[1]];
      }
    }
  }

  lemma {:induction false} NusDiffer()
    ensures NUS_RX != NUS_TX
  {
    assert NUS_RX[12] != NUS_TX[12];
  }

  lemma {:induction false} FirstOfTwo(chars: seq<Chr>, rx: seq<Byte>, tx: seq<Byte>, want: seq<Byte>)
    requires |chars| == 2 && |rx| == 16 && |tx| == 16 && WellFormedUuid(Some(want))
    requires chars[0].uuid == Long(rx) && chars[1].uuid == Long(tx)
    ensures FirstBuilt(chars, UuidFrom(Some(want)), 0) == if want == rx then 0 else if want == tx then 1 else 2
  {
  }

  /** The built-in service's table. */
  lemma {:induction false} BuiltInChars(g: Built)
    requires Faithful(g, [])
    ensures |g.chars| == 2 && g.chars[0].uuid == Long(NUS_RX) && g.chars[1].uuid == Long(NUS_TX)
  {
    var flat := Effective([]);
    assert CharMirrors(g.chars[0], flat[0]) && CharMirrors(g.chars[1], flat[1]);
  }

  lemma {:induction false} BuiltInAnswer(g: Built, want: seq<Byte>)
    requires WellFormedUuid(Some(want)) && Faithful(g, [])
    ensures Lookup([], Some(want)) == ERR_INVALID
    ensures TableAnswer(g, want) == if want == NUS_RX then 0 else if want == NUS_TX then 1 else ERR_INVALID
  {
    BuiltInChars(g);
    FirstOfTwo(g.chars, NUS_RX, NUS_TX, want);
  }

  lemma {:induction false} DeclaredAnswer(services: Services, g: Built, want: seq<Byte>)
    requires WellFormedUuid(Some(want)) && Faithful(g, services) && services != []
    ensures Lookup(services, Some(want)) == TableAnswer(g, want) <==> !MalformedFirst(services, want)
  {
    var flat := Flat(services);
    var d, b := FirstDeclared(flat, want, 0), FirstBuilt(g.chars, UuidFrom(Some(want)), 0);
    forall k | 0 <= k < |flat|
      ensures g.chars[k].uuid == UuidFrom(Some(want))
         <==> flat[k].uuid == Some(want) || (!WellFormedUuid(flat[k].uuid) && want == [0, 0])
    {
      assert CharMirrors(g.chars[k], flat[k]);
      BuiltUuidMatches(flat[k].uuid, want);
    }
    assert b <= d;
    assert b < d ==> want == [0, 0] && !WellFormedUuid(flat[b].uuid);
  }

  /**
   For every configuration and every GATT built from it: the lookup answers with the first
   characteristic of the built table that has the UUID, or an error when there is none, exactly
   unless the UUID is 0 and a malformed one is declared earlier, or there are no services and it is
   one of the built-in service's.
   */
  lemma {:induction false} LookupAgreesWithBuild(services: Services, g: Built, want: seq<Byte>)
    requires WellFormedUuid(Some(want)) && Faithful(g, services)
    ensures Lookup(services, Some(want)) == TableAnswer(g, want)
       <==> !MalformedFirst(services, want) && !AsksBuiltIn(services, want)
  {
    if services == [] {
      BuiltInAnswer(g, want);
      assert Flat(services) == [];
    } else {
      DeclaredAnswer(services, g, want);
    }
  }

  /** The bits that decide: notify or indicate for a configuration descriptor, one of three for a writable one. */
  lemma {:induction false} DecidingBits(mask: U16)
    ensures Notifies(mask) <==> mask as bv16 & 0x18 != 0
    ensures Writable(mask) <==> mask as bv16 & 0x4c != 0
  {
  }

  /** What a built characteristic carries: its declared UUID, and a configuration descriptor exactly if it notifies. */
  lemma {:induction false} BuiltAsDeclared(g: Built, services: Services, i: nat, x: U16)
    requires Faithful(g, services) && i < |Effective(services)|
    ensures var def, c := Effective(services)[i], g.chars[i];
            && (def.uuid == Some([x % 0x100, x / 0x100]) ==> c.uuid == Short(x))
            && (def.uuid.Some? && |def.uuid.value| == 16 ==> c.uuid == Long(def.uuid.value))
            && (!WellFormedUuid(def.uuid) ==> c.uuid == Short(0))
            && g.props[i] == def.props
  {
    assert CharMirrors(g.chars[i], Effective(services)[i]);
    ShortUuidIsLittleEndian(x, if Effective(services)[i].uuid.Some? then Effective(services)[i].uuid.value else []);
  }

  /** The built-in service: RX is written and has no configuration descriptor, TX notifies and has one. */
  lemma {:induction false} BuiltInService(g: Built)
    requires Faithful(g, [])
    ensures |g.chars| == 2 && g.props == [0x06, 0x08] && g.descriptors == [] && |g.stores| == 2
    ensures g.chars[0].uuid == Long(NUS_RX) && g.chars[0].cccd.None?
    ensures g.chars[1].uuid == Long(NUS_TX) && g.chars[1].cccd.Some?
    ensures g.nusRx == Some(0) && g.nusTx == Some(1)
  {
    BuiltInChars(g);
    var flat := Effective([]);
    assert CharMirrors(g.chars[0], flat[0]) && CharMirrors(g.chars[1], flat[1]);
    assert flat[..1] == [NusRxDef()] && flat[..1][..0] == [];
    assert DescRefs(flat) == [] && WritableDescs(flat) == 0;
  }

  /** The first failing input: the lookup finds the second characteristic, the built table the first. */
  lemma {:induction false} MalformedWitness(g: Built)
    requires Faithful(g, [ServiceDef(Some([CharDef(None, 0, []), CharDef(Some([0, 0]), 0, [])]))])
    ensures var services: Services := [ServiceDef(Some([CharDef(None, 0, []), CharDef(Some([0, 0]), 0, [])]))];
            Lookup(services, Some([0, 0])) == 1 && TableAnswer(g, [0, 0]) == 0
  {
    var chars: Chars := [CharDef(None, 0, []), CharDef(Some([0, 0]), 0, [])];
    var services: Services := [ServiceDef(Some(chars))];
    assert services[..0] == [];
    assert Flat(services) == [] + chars;
    assert CharMirrors(g.chars[0], chars[0]);
  }

  /** The second: the built-in characteristics are in the table, and the lookup does not find them. */
  lemma {:induction false} BuiltInWitness(g: Built)
    requires Faithful(g, [])
    ensures Lookup([], Some(NUS_RX)) == ERR_INVALID && TableAnswer(g, NUS_RX) == 0
    ensures Lookup([], Some(NUS_TX)) == ERR_INVALID && TableAnswer(g, NUS_TX) == 1
  {
    BuiltInAnswer(g, NUS_RX);
    BuiltInAnswer(g, NUS_TX);
    NusDiffer();
  }

  // ---------------------------------------------------------------------------
  // Dispatch.
  // ---------------------------------------------------------------------------

  /** Which callback a write reaches, and with which indices. */
  datatype Target = Nothing | Data | Value(chr: nat) | Subscription(chr: nat) | Descriptor(meta: DescMeta)

  /** First characteristic from `from` that a handle belongs to, as value or as configuration descriptor. */
  function FirstHit(chars: seq<Chr>, h: nat, from: nat): (k: nat)
    requires from <= |chars|
    ensures from <= k <= |chars| && (k < |chars| ==> chars[k].handle == h || chars[k].cccd == Some(h))
    ensures forall j :: from <= j < k ==> chars[j].handle != h && chars[j].cccd != Some(h)
    decreases |chars| - from
  {
    if from == |chars| || chars[from].handle == h || chars[from].cccd == Some(h) then from
    else FirstHit(chars, h, from + 1)
  }

  function FirstDesc(descs: seq<DescMeta>, h: nat, from: nat): (k: nat)
    requires from <= |descs|
    ensures from <= k <= |descs| && (k < |descs| ==> descs[k].handle == h)
    ensures forall j :: from <= j < k ==> descs[j].handle != h
    decreases |descs| - from
  {
    if from == |descs| || descs[from].handle == h then from else FirstDesc(descs, h, from + 1)
  }

  function Route(g: Built, h: nat): Target {
    var k := FirstHit(g.chars, h, 0);
    if k < |g.chars| then
      if g.chars[k].handle != h then Subscription(k)
      else if g.nusRx == Some(k) then Data else Value(k)
    else
      var d := FirstDesc(g.descriptors, h, 0);
      if d < |g.descriptors| then Descriptor(g.descriptors[d]) else Nothing
  }

  /** The write branch of the event loop: scan the characteristics, then the descriptors. */
  method Dispatch(g: Built, h: nat) returns (t: Target)
    ensures t == Route(g, h)
  {
    for i := 0 to |g.chars|
      invariant FirstHit(g.chars, h, 0) == FirstHit(g.chars, h, i)
    {
      if g.chars[i].handle == h {
        return if g.nusRx == Some(i) then Data else Value(i);
      } else if g.chars[i].cccd == Some(h) {
        return Subscription(i);
      }
    }
    for k := 0 to |g.descriptors|
      invariant FirstDesc(g.descriptors, h, 0) == FirstDesc(g.descriptors, h, k)
    {
      if g.descriptors[k].handle == h { return Descriptor(g.descriptors[k]); }
    }
    t := Nothing;
  }

  /**
   Dispatch undoes building: every handle of a faithful GATT leads back to exactly the position it
   was built for.
   */
  lemma {:induction false} DispatchInvertsBuild(g: Built, services: Services, h: nat)
    requires Faithful(g, services)
    ensures forall i :: 0 <= i < |g.chars| && g.chars[i].handle == h ==>
              Route(g, h) == if services == [] && i == 0 then Data else Value(i)
    ensures forall i :: 0 <= i < |g.chars| && g.chars[i].cccd == Some(h) ==> Route(g, h) == Subscription(i)
    ensures forall k :: 0 <= k < |g.descriptors| && g.descriptors[k].handle == h ==>
              && Route(g, h) == Descriptor(g.descriptors[k])
              && (g.descriptors[k].chr, g.descriptors[k].desc) == DescRefs(Effective(services))[k]
  {
    forall i | 0 <= i < |g.chars| && (g.chars[i].handle == h || g.chars[i].cccd == Some(h))
      ensures FirstHit(g.chars, h, 0) == i
    {
      HitIsUnique(g, h, i);
    }
    forall k | 0 <= k < |g.descriptors| && g.descriptors[k].handle == h
      ensures FirstHit(g.chars, h, 0) == |g.chars| && FirstDesc(g.descriptors, h, 0) == k
    {
      DescIsUnique(g, h, k);
    }
    assert |Effective(services)| == |g.chars|;
  }

  lemma {:induction false} HitIsUnique(g: Built, h: nat, i: nat)
    requires DistinctHandles(g.chars, g.descriptors)
    requires i < |g.chars| && (g.chars[i].handle == h || g.chars[i].cccd == Some(h))
    ensures FirstHit(g.chars, h, 0) == i
  {
  }

  lemma {:induction false} DescIsUnique(g: Built, h: nat, k: nat)
    requires DistinctHandles(g.chars, g.descriptors) && k < |g.descriptors| && g.descriptors[k].handle == h
    ensures FirstHit(g.chars, h, 0) == |g.chars| && FirstDesc(g.descriptors, h, 0) == k
  {
  }

  /** A handle that was not built leads nowhere, and only the built-in RX reaches the data callback. */
  lemma {:induction false} DispatchElsewhere(g: Built, services: Services, h: nat)
    requires Faithful(g, services)
    ensures Route(g, h) == Nothing <==>
              && (forall i :: 0 <= i < |g.chars| ==> g.chars[i].handle != h && g.chars[i].cccd != Some(h))
              && (forall k :: 0 <= k < |g.descriptors| ==> g.descriptors[k].handle != h)
    ensures Route(g, h) == Data ==> services == [] && g.chars[0].handle == h && g.chars[0].uuid == Long(NUS_RX)
  {
    assert Route(g, h) == Data ==> CharMirrors(g.chars[0], Effective(services)[0]);
  }
}
