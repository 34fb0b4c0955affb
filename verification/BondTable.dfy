/**
 The runtime's bond slot table and the application storage behind it: `restore_bonds`,
 `store_bond`, `delete_bond_slot` and the delete-all command of `bond_admin_loop`.

 The storage callbacks are a faithful map from slot to blob; the stack's fallible calls
 (`add_bond_information`, `remove_bond_information`) are outcomes passed in.
 */
module BondTable {
  import opened Common
  import opened BondCodec

  const SLOT_CAP := 4

  datatype Entry = Entry(id: Identity, slot: nat)

  /** The in-memory table and the application's non-empty storage slots. */
  datatype State = State(table: seq<Entry>, storage: map<nat, seq<Byte>>)

  /** The configured number of slots if the table can hold it, else the table's capacity. */
  function SlotCount(configured: Byte): (n: nat)
    ensures 1 <= n <= SLOT_CAP
    ensures 1 <= configured <= 4 ==> n == configured
    ensures configured == 0 || configured > 4 ==> n == 4
  {
    if configured == 0 then SLOT_CAP else Min(configured, SLOT_CAP)
  }

  /** One result per slot for a fallible stack call; a slot without one fails. */
  type Outcomes = seq<bool>

  predicate Succeeds(o: Outcomes, slot: nat) { slot < |o| && o[slot] }

  ghost predicate AllSucceed(o: Outcomes, count: nat) {
    forall i :: 0 <= i < count ==> Succeeds(o, i)
  }

  /** A push into the fixed-capacity vector whose result the code ignores. */
  function Push(t: seq<Entry>, e: Entry): seq<Entry> {
    if |t| < SLOT_CAP then t + [e] else t
  }

  /** What the table is searched by. */
  datatype Key = ById(id: Identity) | BySlot(slot: nat)

  predicate Has(e: Entry, key: Key) {
    match key
    case ById(id) => e.id == id
    case BySlot(slot) => e.slot == slot
  }

  /** Position of the first entry with a key from `from` on; `|t|` when there is none. */
  function FindFrom(t: seq<Entry>, key: Key, from: nat): (k: nat)
    requires from <= |t|
    ensures from <= k <= |t| && (k < |t| ==> Has(t[k], key))
    ensures forall j :: from <= j < k ==> !Has(t[j], key)
    decreases |t| - from
  {
    if from == |t| || Has(t[from], key) then from else FindFrom(t, key, from + 1)
  }

  function Find(t: seq<Entry>, id: Identity): nat { FindFrom(t, ById(id), 0) }

  function FindSlot(t: seq<Entry>, slot: nat): nat { FindFrom(t, BySlot(slot), 0) }

  /** `retain(|(_, s)| *s != slot)`. */
  function Without(t: seq<Entry>, slot: nat): seq<Entry> { WithoutUpTo(t, slot, |t|) }

  function WithoutUpTo(t: seq<Entry>, slot: nat, n: nat): seq<Entry>
    requires n <= |t|
  {
    if n == 0 then []
    else WithoutUpTo(t, slot, n - 1) + (if t[n - 1].slot == slot then [] else [t[n - 1]])
  }

  lemma {:induction false} WithoutMembers(t: seq<Entry>, slot: nat, n: nat)
    requires n <= |t|
    ensures |WithoutUpTo(t, slot, n)| <= n
    ensures forall e :: e in WithoutUpTo(t, slot, n) ==> e.slot != slot && exists k :: 0 <= k < n && t[k] == e
  {
    if n > 0 {
      WithoutMembers(t, slot, n - 1);
    }
  }

  /** What the load callback hands back for a slot: at most one buffer's worth. */
  function LoadSlot(storage: map<nat, seq<Byte>>, slot: nat): seq<Byte> {
    if slot in storage then storage[slot][..Min(|storage[slot]|, BLOB_LEN)] else []
  }

  /** The table after restoring slots `0..n`. */
  function Restore(storage: map<nat, seq<Byte>>, n: nat, d: LegacyDefaults, addOk: Outcomes): seq<Entry> {
    if n == 0 then []
    else
      var t := Restore(storage, n - 1, d, addOk);
      var bond := Decode(LoadSlot(storage, n - 1), d);
      if bond.Some? && Succeeds(addOk, n - 1) then Push(t, Entry(bond.value.identity, n - 1)) else t
  }

  /** The slot a bond is written to. */
  function SlotToWrite(t: seq<Entry>, id: Identity, count: nat): nat {
    var k := Find(t, id);
    if k < |t| then t[k].slot else if |t| < count then |t| else 0
  }

  function StoreTable(t: seq<Entry>, id: Identity, count: nat): seq<Entry> {
    if Find(t, id) < |t| then t
    else if |t| < count then Push(t, Entry(id, |t|))
    else if |t| > 0 then t[0 := Entry(id, 0)]
    else t
  }

  function Store(s: State, bond: Bond, count: nat): State {
    State(StoreTable(s.table, bond.identity, count),
          s.storage[SlotToWrite(s.table, bond.identity, count) := Encode(bond)])
  }

  /** Deleting a slot that no entry holds still clears the storage behind it. */
  function Delete(s: State, slot: nat, removeOk: bool): State {
    if FindSlot(s.table, slot) == |s.table| then s.(storage := s.storage - {slot})
    else if removeOk then State(Without(s.table, slot), s.storage - {slot})
    else s
  }

  /** Slots `0..n` deleted in ascending order. */
  function DeleteUpTo(s: State, n: nat, removeOk: Outcomes): State {
    if n == 0 then s else Delete(DeleteUpTo(s, n - 1, removeOk), n - 1, Succeeds(removeOk, n - 1))
  }

  /** The session's bond state, updated in place. */
  class BondManager {
    const count: nat
    const defaults: LegacyDefaults
    const canLoad: bool
    const canStore: bool
    var table: seq<Entry>
    var storage: map<nat, seq<Byte>>
    /** Set if a push was ever dropped because the vector was full. */
    var pushLost: bool

    ghost function Value(): State
      reads this
    {
      State(table, storage)
    }

    ghost predicate Valid()
      reads this
    {
      1 <= count <= SLOT_CAP && Bounded(table, count)
    }

    constructor (configured: Byte, defaults: LegacyDefaults, canLoad: bool, canStore: bool,
                 storage: map<nat, seq<Byte>>)
      ensures Valid() && count == SlotCount(configured) && this.defaults == defaults
      ensures this.canLoad == canLoad && this.canStore == canStore
      ensures Value() == State([], storage) && !pushLost
    {
      this.count := SlotCount(configured);
      this.defaults := defaults;
      this.canLoad, this.canStore := canLoad, canStore;
      this.table, this.storage := [], storage;
      this.pushLost := false;
    }

    method PushEntry(e: Entry)
      modifies this`table, this`pushLost
      ensures table == Push(old(table), e)
      ensures pushLost == (old(pushLost) || old(|table|) >= SLOT_CAP)
    {
      if |table| < SLOT_CAP {
        table := table + [e];
      } else {
        pushLost := true;
      }
    }

    method RestoreBonds(addOk: Outcomes)
      requires Valid() && table == []
      modifies this`table, this`pushLost
      ensures Valid() && pushLost == old(pushLost)
      ensures table == if canLoad then Restore(storage, count, defaults, addOk) else []
    {
      if !canLoad { return; }
      for index := 0 to count
        invariant table == Restore(storage, index, defaults, addOk)
        invariant |table| <= index && pushLost == old(pushLost)
        invariant forall e :: e in table ==> e.slot < index
      {
        var blob := LoadSlot(storage, index);
        if |blob| == 0 { continue; }
        var bond := Decode(blob, defaults);
        if bond.None? { continue; }
        if Succeeds(addOk, index) {
          PushEntry(Entry(bond.value.identity, index));
        }
      }
    }

    method StoreBond(bond: Bond)
      requires Valid()
      modifies this
      ensures Valid() && pushLost == old(pushLost)
      ensures Value() == if canStore then Store(old(Value()), bond, count) else old(Value())
    {
      if !canStore { return; }
      var slot := 0;
      var k := FindEntry(bond.identity);
      if k < |table| {
        slot := table[k].slot;
      } else if |table| < count {
        slot := |table|;
        PushEntry(Entry(bond.identity, slot));
      } else if |table| > 0 {
        table := table[0 := Entry(bond.identity, 0)];
      }
      var blob := new Byte[BLOB_LEN];
      var len := SerializeBond(bond, blob);
      assert blob[..len] == blob[..];
      storage := storage[slot := blob[..len]];
    }

    method FindEntry(id: Identity) returns (k: nat)
      ensures k == Find(table, id)
    {
      k := 0;
      while k < |table| && table[k].id != id
        invariant k <= |table| && Find(table, id) == FindFrom(table, ById(id), k)
      {
        k := k + 1;
      }
    }

    /** `bond_slot_for`: the slot reported with an enumerated bond, 0xff when unknown. */
    method SlotFor(id: Identity) returns (slot: nat)
      ensures slot == if Find(table, id) < |table| then table[Find(table, id)].slot else 0xff
    {
      var k := FindEntry(id);
      slot := if k < |table| then table[k].slot else 0xff;
    }

    /** `clear_bond_slot`: ask the application, if it listens, to forget a slot. */
    method ClearSlot(slot: nat)
      modifies this`storage
      ensures storage == if canStore then old(storage) - {slot} else old(storage)
    {
      if canStore {
        storage := storage - {slot};
      }
    }

    method DeleteBondSlot(slot: nat, removeOk: bool) returns (ok: bool)
      requires Valid()
      modifies this`table, this`storage
      ensures Valid() && table == Delete(old(Value()), slot, removeOk).table
      ensures storage == if canStore then Delete(old(Value()), slot, removeOk).storage else old(storage)
      ensures ok == (removeOk && old(FindSlot(table, slot) < |table|))
    {
      if FindSlot(table, slot) == |table| {
        ClearSlot(slot);
        return false;
      }
      ok := removeOk;
      if ok {
        WithoutMembers(table, slot, |table|);
        table := Without(table, slot);
        ClearSlot(slot);
      }
    }

    method DeleteAllBonds(removeOk: Outcomes)
      requires Valid()
      modifies this`table, this`storage
      ensures Valid() && table == DeleteUpTo(old(Value()), count, removeOk).table
      ensures storage == if canStore then DeleteUpTo(old(Value()), count, removeOk).storage else old(storage)
    {
      for index := 0 to count
        invariant Valid() && table == DeleteUpTo(old(Value()), index, removeOk).table
        invariant storage == if canStore then DeleteUpTo(old(Value()), index, removeOk).storage else old(storage)
      {
        var _ := DeleteBondSlot(index, Succeeds(removeOk, index));
      }
    }
  }

  // ---------------------------------------------------------------------------
  // Every run: bounds, and identities.
  // ---------------------------------------------------------------------------

  ghost predicate Bounded(t: seq<Entry>, count: nat) {
    |t| <= count && forall e :: e in t ==> e.slot < count
  }

  ghost predicate DistinctIds(t: seq<Entry>) {
    forall i, j :: 0 <= i < j < |t| ==> t[i].id != t[j].id
  }

  ghost predicate DistinctSlots(t: seq<Entry>) {
    forall i, j :: 0 <= i < j < |t| ==> t[i].slot != t[j].slot
  }

  datatype Op =
    | StoreOp(bond: Bond)
    | DeleteOp(slot: nat, removeOk: bool)
    | DeleteAllOp(removeAllOk: Outcomes)
    | ReloadOp(addOk: Outcomes)

  function Apply(s: State, op: Op, count: nat, d: LegacyDefaults): State {
    match op
    case StoreOp(bond) => Store(s, bond, count)
    case DeleteOp(slot, ok) => Delete(s, slot, ok)
    case DeleteAllOp(ok) => DeleteUpTo(s, count, ok)
    case ReloadOp(ok) => s.(table := Restore(s.storage, count, d, ok))
  }

  function Run(s: State, ops: seq<Op>, count: nat, d: LegacyDefaults): State {
    if ops == [] then s
    else Apply(Run(s, ops[..|ops| - 1], count, d), ops[|ops| - 1], count, d)
  }

  lemma {:induction false} RestoreBounded(storage: map<nat, seq<Byte>>, n: nat, d: LegacyDefaults, addOk: Outcomes)
    ensures Bounded(Restore(storage, n, d, addOk), n)
  {
    if n > 0 {
      RestoreBounded(storage, n - 1, d, addOk);
    }
  }

  lemma {:induction false} WithoutKeepsDistinctIds(t: seq<Entry>, slot: nat, n: nat)
    requires DistinctIds(t) && n <= |t|
    ensures DistinctIds(WithoutUpTo(t, slot, n))
  {
    if n > 0 {
      WithoutKeepsDistinctIds(t, slot, n - 1);
      WithoutMembers(t, slot, n - 1);
      var r := WithoutUpTo(t, slot, n - 1);
      forall j | 0 <= j < |r| ensures r[j].id != t[n - 1].id {
        assert r[j] in r;
      }
    }
  }

  lemma {:induction false} DeleteKeeps(s: State, slot: nat, ok: bool, count: nat)
    requires Bounded(s.table, count)
    ensures Bounded(Delete(s, slot, ok).table, count)
    ensures DistinctIds(s.table) ==> DistinctIds(Delete(s, slot, ok).table)
  {
    WithoutMembers(s.table, slot, |s.table|);
    if DistinctIds(s.table) {
      WithoutKeepsDistinctIds(s.table, slot, |s.table|);
    }
  }

  lemma {:induction false} DeleteUpToKeeps(s: State, n: nat, ok: Outcomes, count: nat)
    requires Bounded(s.table, count)
    ensures Bounded(DeleteUpTo(s, n, ok).table, count)
    ensures DistinctIds(s.table) ==> DistinctIds(DeleteUpTo(s, n, ok).table)
  {
    if n > 0 {
      DeleteUpToKeeps(s, n - 1, ok, count);
      DeleteKeeps(DeleteUpTo(s, n - 1, ok), n - 1, Succeeds(ok, n - 1), count);
    }
  }

  // What is stored, and so what a reload finds.

  /** The identity that a reload finds in a slot. */
  function StoredId(storage: map<nat, seq<Byte>>, slot: nat, d: LegacyDefaults): Option<Identity> {
    var bond := Decode(LoadSlot(storage, slot), d);
    if bond.Some? then Some(bond.value.identity) else None
  }

  /** No two slots hold blobs of one identity. */
  ghost predicate DistinctStored(storage: map<nat, seq<Byte>>, count: nat, d: LegacyDefaults) {
    forall i, j :: 0 <= i < j < count && StoredId(storage, i, d).Some? ==>
      StoredId(storage, i, d) != StoredId(storage, j, d)
  }

  lemma {:induction false} RestoredFrom(storage: map<nat, seq<Byte>>, n: nat, d: LegacyDefaults, addOk: Outcomes)
    ensures forall e :: e in Restore(storage, n, d, addOk) ==> e.slot < n && StoredId(storage, e.slot, d) == Some(e.id)
  {
    if n > 0 {
      RestoredFrom(storage, n - 1, d, addOk);
    }
  }

  /** Whatever the stack accepts, distinct blobs are restored to distinct entries. */
  lemma {:induction false} RestoreDistinct(storage: map<nat, seq<Byte>>, n: nat, d: LegacyDefaults, addOk: Outcomes)
    requires DistinctStored(storage, n, d)
    ensures DistinctIds(Restore(storage, n, d, addOk))
  {
    if n > 0 {
      RestoreDistinct(storage, n - 1, d, addOk);
      RestoredFrom(storage, n - 1, d, addOk);
      var t := Restore(storage, n - 1, d, addOk);
      forall i | 0 <= i < |t| ensures Some(t[i].id) != StoredId(storage, n - 1, d) {
        assert t[i] in t;
      }
    }
  }

  /** A slot other than the one the bond is about to be written to holds a blob of its identity. */
  ghost predicate LeavesOld(s: State, bond: Bond, count: nat, d: LegacyDefaults) {
    exists i :: 0 <= i < count && i != SlotToWrite(s.table, bond.identity, count)
      && StoredId(s.storage, i, d) == Some(bond.identity)
  }

  /** A store keeps what is stored distinct exactly when it leaves no old blob of its identity in another slot. */
  lemma {:induction false} StoreKeepsStoredIff(s: State, bond: Bond, count: nat, d: LegacyDefaults)
    requires 1 <= count && Bounded(s.table, count) && DistinctStored(s.storage, count, d) && WellFormed(bond)
    ensures DistinctStored(Store(s, bond, count).storage, count, d) <==> !LeavesOld(s, bond, count, d)
  {
    var slot, r := SlotToWrite(s.table, bond.identity, count), Store(s, bond, count).storage;
    WrittenReadsBack(s.storage, slot, bond, d);
    assert slot < count;
    assert StoredId(r, slot, d) == Some(bond.identity);
    assert forall i :: i != slot ==> StoredId(r, i, d) == StoredId(s.storage, i, d);
  }

  /** Nothing is stored that was not stored before. */
  ghost predicate Shrinks(from: map<nat, seq<Byte>>, to: map<nat, seq<Byte>>) {
    forall i :: i in to ==> i in from && to[i] == from[i]
  }

  lemma {:induction false} DeleteShrinks(s: State, slot: nat, ok: bool)
    ensures Shrinks(s.storage, Delete(s, slot, ok).storage)
  {
  }

  lemma {:induction false} DeleteUpToShrinks(s: State, n: nat, ok: Outcomes)
    ensures Shrinks(s.storage, DeleteUpTo(s, n, ok).storage)
  {
    if n > 0 {
      DeleteUpToShrinks(s, n - 1, ok);
      DeleteShrinks(DeleteUpTo(s, n - 1, ok), n - 1, Succeeds(ok, n - 1));
    }
  }

  /** So a delete, of one slot or of all, keeps what is stored distinct. */
  lemma {:induction false} ShrinkKeepsStored(from: map<nat, seq<Byte>>, to: map<nat, seq<Byte>>,
                                             count: nat, d: LegacyDefaults)
    requires Shrinks(from, to) && DistinctStored(from, count, d)
    ensures DistinctStored(to, count, d)
  {
    assert forall i :: 0 <= i < count ==> StoredId(to, i, d) == StoredId(from, i, d) || StoredId(to, i, d).None?;
  }

  /** The bonds stored are well formed, and none of them leaves an old blob of its identity behind. */
  ghost predicate Careful(s: State, ops: seq<Op>, count: nat, d: LegacyDefaults) {
    forall k :: 0 <= k < |ops| && ops[k].StoreOp? ==>
      WellFormed(ops[k].bond) && !LeavesOld(Run(s, ops[..k], count, d), ops[k].bond, count, d)
  }

  lemma {:induction false} OpBounded(s: State, op: Op, count: nat, d: LegacyDefaults)
    requires 1 <= count <= SLOT_CAP && Bounded(s.table, count)
    ensures Bounded(Apply(s, op, count, d).table, count)
    ensures DistinctIds(s.table) && !op.ReloadOp? ==> DistinctIds(Apply(s, op, count, d).table)
  {
    match op
    case StoreOp(bond) =>
    case DeleteOp(slot, ok) => DeleteKeeps(s, slot, ok, count);
    case DeleteAllOp(ok) => DeleteUpToKeeps(s, count, ok, count);
    case ReloadOp(ok) => RestoreBounded(s.storage, count, d, ok);
  }

  /** Stored identities stay distinct but for a store that leaves an old blob, and a reload restores them so. */
  lemma {:induction false} OpKeepsStored(s: State, op: Op, count: nat, d: LegacyDefaults)
    requires 1 <= count <= SLOT_CAP && Bounded(s.table, count) && DistinctStored(s.storage, count, d)
    requires op.StoreOp? ==> WellFormed(op.bond) && !LeavesOld(s, op.bond, count, d)
    ensures DistinctStored(Apply(s, op, count, d).storage, count, d)
    ensures op.ReloadOp? ==> DistinctIds(Apply(s, op, count, d).table)
  {
    match op
    case StoreOp(bond) => StoreKeepsStoredIff(s, bond, count, d);
    case DeleteOp(slot, ok) =>
      DeleteShrinks(s, slot, ok);
      ShrinkKeepsStored(s.storage, Delete(s, slot, ok).storage, count, d);
    case DeleteAllOp(ok) =>
      DeleteUpToShrinks(s, count, ok);
      ShrinkKeepsStored(s.storage, DeleteUpTo(s, count, ok).storage, count, d);
    case ReloadOp(ok) => RestoreDistinct(s.storage, count, d, ok);
  }

  /**
   From any storage at all, through any stores, deletes and reloads with any stack
   outcomes: the table fits its slot count, every slot number is below it, and within a
   session identities stay distinct once they are.
   */
  lemma {:induction false} EveryRunBounded(s: State, ops: seq<Op>, count: nat, d: LegacyDefaults)
    requires 1 <= count <= SLOT_CAP && Bounded(s.table, count)
    ensures Bounded(Run(s, ops, count, d).table, count)
    ensures DistinctIds(s.table) && (forall k :: 0 <= k < |ops| ==> !ops[k].ReloadOp?)
            ==> DistinctIds(Run(s, ops, count, d).table)
  {
    if ops != [] {
      EveryRunBounded(s, ops[..|ops| - 1], count, d);
      OpBounded(Run(s, ops[..|ops| - 1], count, d), ops[|ops| - 1], count, d);
    }
  }

  /**
   Identities through reloads: from a table and a storage with distinct ones, both stay distinct over
   every run in which no store leaves an old blob of its identity in another slot.
   */
  lemma {:induction false} CarefulRunsStayDistinct(s: State, ops: seq<Op>, count: nat, d: LegacyDefaults)
    requires 1 <= count <= SLOT_CAP && Bounded(s.table, count)
    requires DistinctIds(s.table) && DistinctStored(s.storage, count, d) && Careful(s, ops, count, d)
    ensures var r := Run(s, ops, count, d);
            DistinctIds(r.table) && DistinctStored(r.storage, count, d)
  {
    if ops != [] {
      var front, op := ops[..|ops| - 1], ops[|ops| - 1];
      assert forall k :: 0 <= k < |front| ==> front[..k] == ops[..k];
      CarefulRunsStayDistinct(s, front, count, d);
      EveryRunBounded(s, front, count, d);
      OpBounded(Run(s, front, count, d), op, count, d);
      OpKeepsStored(Run(s, front, count, d), op, count, d);
    }
  }

  /** Storing a new identity into a full table evicts the entry at the front, whatever slot that had. */
  lemma {:induction false} StoreEvicts(s: State, b: Bond, count: nat)
    requires |s.table| == count > 0 && forall i :: 0 <= i < count ==> s.table[i].id != b.identity
    ensures Store(s, b, count) == State(s.table[0 := Entry(b.identity, 0)], s.storage[0 := Encode(b)])
  {
  }

  lemma {:induction false} StoreAppends(s: State, b: Bond, count: nat)
    requires |s.table| < count <= SLOT_CAP && forall i :: 0 <= i < |s.table| ==> s.table[i].id != b.identity
    ensures Store(s, b, count) == State(s.table + [Entry(b.identity, |s.table|)], s.storage[|s.table| := Encode(b)])
  {
  }

  /** Three bonds stored into an empty table of three, then the first deleted. */
  lemma {:induction false} ThreeStoredOneDeleted(a: Bond, b: Bond, c: Bond)
    requires a.identity != b.identity && a.identity != c.identity && b.identity != c.identity
    ensures var s3 := Store(Store(Store(State([], map[]), a, 3), b, 3), c, 3);
            Delete(s3, 0, true)
            == State([Entry(b.identity, 1), Entry(c.identity, 2)], map[1 := Encode(b), 2 := Encode(c)])
  {
    var s1, s2 := Store(State([], map[]), a, 3), Store(Store(State([], map[]), a, 3), b, 3);
    StoreAppends(State([], map[]), a, 3);
    StoreAppends(s1, b, 3);
    StoreAppends(s2, c, 3);
    var s3 := State([Entry(a.identity, 0), Entry(b.identity, 1), Entry(c.identity, 2)],
                    map[0 := Encode(a), 1 := Encode(b), 2 := Encode(c)]);
    assert Store(s2, c, 3) == s3;
    DeleteFirst(s3, 0);
    assert s3.table[1..] == [Entry(b.identity, 1), Entry(c.identity, 2)];
    assert s3.storage - {0} == map[1 := Encode(b), 2 := Encode(c)];
  }

  /** Three more stores: the second evicts the entry of `b`, the third brings it back in another slot. */
  lemma {:induction false} ThreeMoreStored(b: Bond, c: Bond, d: Bond, e: Bond)
    requires b.identity != c.identity && b.identity != d.identity && b.identity != e.identity
    requires c.identity != d.identity && c.identity != e.identity && d.identity != e.identity
    ensures var s := State([Entry(b.identity, 1), Entry(c.identity, 2)], map[1 := Encode(b), 2 := Encode(c)]);
            Store(Store(Store(s, d, 3), e, 3), b, 3)
            == State([Entry(b.identity, 0), Entry(c.identity, 2), Entry(d.identity, 2)],
                     map[0 := Encode(b), 1 := Encode(b), 2 := Encode(d)])
  {
    var s := State([Entry(b.identity, 1), Entry(c.identity, 2)], map[1 := Encode(b), 2 := Encode(c)]);
    StoreAppends(s, d, 3);
    var s1 := State([Entry(b.identity, 1), Entry(c.identity, 2), Entry(d.identity, 2)],
                    map[1 := Encode(b), 2 := Encode(d)]);
    assert Store(s, d, 3) == s1;
    StoreEvicts(s1, e, 3);
    var s2 := State([Entry(e.identity, 0), Entry(c.identity, 2), Entry(d.identity, 2)],
                    map[0 := Encode(e), 1 := Encode(b), 2 := Encode(d)]);
    assert Store(s1, e, 3) == s2;
    StoreEvicts(s2, b, 3);
    assert s2.storage[0 := Encode(b)] == map[0 := Encode(b), 1 := Encode(b), 2 := Encode(d)];
  }

  lemma {:induction false} RestoreThree(b: Bond, d: Bond, defaults: LegacyDefaults, ok: Outcomes)
    requires WellFormed(b) && WellFormed(d) && AllSucceed(ok, 3)
    ensures Restore(map[0 := Encode(b), 1 := Encode(b), 2 := Encode(d)], 3, defaults, ok)
         == [Entry(b.identity, 0), Entry(b.identity, 1), Entry(d.identity, 2)]
  {
    var storage: map<nat, seq<Byte>> := map[0 := Encode(b), 1 := Encode(b), 2 := Encode(d)];
    ReadsBack(storage, 0, b, defaults);
    ReadsBack(storage, 1, b, defaults);
    ReadsBack(storage, 2, d, defaults);
    RestoreStep(storage, 0, defaults, ok);
    RestoreStep(storage, 1, defaults, ok);
    RestoreStep(storage, 2, defaults, ok);
    assert Restore(storage, 0, defaults, ok) == [];
    assert Restore(storage, 1, defaults, ok) == [Entry(b.identity, 0)];
    assert Restore(storage, 2, defaults, ok) == [Entry(b.identity, 0), Entry(b.identity, 1)];
  }

  lemma {:induction false} ReadsBack(storage: map<nat, seq<Byte>>, slot: nat, b: Bond, d: LegacyDefaults)
    requires WellFormed(b) && slot in storage && storage[slot] == Encode(b)
    ensures Decode(LoadSlot(storage, slot), d) == Some(b)
  {
    WrittenReadsBack(storage, slot, b, d);
    assert storage[slot := Encode(b)] == storage;
  }

  /**
   Care is needed: with every stack call granted and from empty storage, a run of stores and one delete
   evicts the entry of `b` but leaves its blob, stores `b` again elsewhere, and reloads it twice.
   */
  lemma {:induction false} ReloadedTwiceWitness(a: Bond, b: Bond, c: Bond, d: Bond, e: Bond,
                                                defaults: LegacyDefaults, ok: Outcomes)
    requires WellFormed(b) && WellFormed(d) && AllSucceed(ok, 3)
    requires DistinctBonds([a, b, c, d, e])
    ensures Run(State([], map[]), FirstOps(a, b, c) + SecondOps(d, e, b, ok), 3, defaults).table
         == [Entry(b.identity, 0), Entry(b.identity, 1), Entry(d.identity, 2)]
  {
    DistinctFive(a, b, c, d, e);
    var s := State([], map[]);
    var first, second := FirstOps(a, b, c), SecondOps(d, e, b, ok);
    RunFour(s, first[0], first[1], first[2], first[3], 3, defaults);
    ThreeStoredOneDeleted(a, b, c);
    SecondHalf(b, c, d, e, defaults, ok);
    RunConcat(s, first, second, 3, defaults);
  }

  function FirstOps(a: Bond, b: Bond, c: Bond): seq<Op> { [StoreOp(a), StoreOp(b), StoreOp(c), DeleteOp(0, true)] }

  function SecondOps(d: Bond, e: Bond, b: Bond, ok: Outcomes): seq<Op> {
    [StoreOp(d), StoreOp(e), StoreOp(b), ReloadOp(ok)]
  }

  lemma {:induction false} DistinctFive(a: Bond, b: Bond, c: Bond, d: Bond, e: Bond)
    requires DistinctBonds([a, b, c, d, e])
    ensures a.identity != b.identity && a.identity != c.identity && b.identity != c.identity
    ensures b.identity != d.identity && b.identity != e.identity
    ensures c.identity != d.identity && c.identity != e.identity && d.identity != e.identity
  {
    var all := [a, b, c, d, e];
    assert all[0] == a && all[1] == b && all[2] == c && all[3] == d && all[4] == e;
  }

  lemma {:induction false} SecondHalf(b: Bond, c: Bond, d: Bond, e: Bond, defaults: LegacyDefaults, ok: Outcomes)
    requires WellFormed(b) && WellFormed(d) && AllSucceed(ok, 3)
    requires b.identity != c.identity && b.identity != d.identity && b.identity != e.identity
    requires c.identity != d.identity && c.identity != e.identity && d.identity != e.identity
    ensures var m := State([Entry(b.identity, 1), Entry(c.identity, 2)], map[1 := Encode(b), 2 := Encode(c)]);
            Run(m, SecondOps(d, e, b, ok), 3, defaults).table
            == [Entry(b.identity, 0), Entry(b.identity, 1), Entry(d.identity, 2)]
  {
    var m := State([Entry(b.identity, 1), Entry(c.identity, 2)], map[1 := Encode(b), 2 := Encode(c)]);
    RunFour(m, StoreOp(d), StoreOp(e), StoreOp(b), ReloadOp(ok), 3, defaults);
    ThreeMoreStored(b, c, d, e);
    RestoreThree(b, d, defaults, ok);
  }

  lemma {:induction false} RunConcat(s: State, a: seq<Op>, b: seq<Op>, count: nat, d: LegacyDefaults)
    ensures Run(s, a + b, count, d) == Run(Run(s, a, count, d), b, count, d)
  {
    if b == [] {
      assert a + b == a;
    } else {
      var front := b[..|b| - 1];
      RunConcat(s, a, front, count, d);
      assert (a + b)[..|a + b| - 1] == a + front;
    }
  }

  // What single operations do to any table and storage.

  /** A bond already in the table is rewritten in its entry's own slot. */
  lemma {:induction false} StoreReplaces(s: State, b: Bond, k: nat, count: nat)
    requires k < |s.table| && s.table[k].id == b.identity && forall i :: 0 <= i < k ==> s.table[i].id != b.identity
    ensures Store(s, b, count) == State(s.table, s.storage[s.table[k].slot := Encode(b)])
  {
  }

  lemma {:induction false} WithoutKeepsOthers(t: seq<Entry>, slot: nat, n: nat)
    requires n <= |t|
    ensures forall i :: 0 <= i < n && t[i].slot != slot ==> t[i] in WithoutUpTo(t, slot, n)
  {
    if n > 0 {
      WithoutKeepsOthers(t, slot, n - 1);
    }
  }

  /**
   A delete the stack refuses changes nothing; one of a slot that no entry holds only forgets what is
   stored there; one that is granted takes the slot's entries, and no others, and what is stored there.
   */
  lemma {:induction false} DeleteOutcomes(s: State, slot: nat, ok: bool)
    ensures var r, held := Delete(s, slot, ok), exists e :: e in s.table && e.slot == slot;
            && (held && !ok ==> r == s)
            && (!held ==> r.table == s.table)
            && (held && ok ==> forall e :: e in r.table <==> e in s.table && e.slot != slot)
            && (!held || ok ==> r.storage == s.storage - {slot})
  {
    var k := FindSlot(s.table, slot);
    assert k < |s.table| ==> s.table[k] in s.table;
    if k < |s.table| && ok {
      WithoutMembers(s.table, slot, |s.table|);
      WithoutKeepsOthers(s.table, slot, |s.table|);
    }
  }

  /** Exactly the readable slots below `n` that the stack accepts, in ascending order, each as its own entry. */
  ghost predicate Restored(t: seq<Entry>, storage: map<nat, seq<Byte>>, n: nat, d: LegacyDefaults, addOk: Outcomes) {
    && |t| <= n
    && (forall e :: e in t <==> (e.slot < n && StoredId(storage, e.slot, d) == Some(e.id) && Succeeds(addOk, e.slot)))
    && (forall i, j :: 0 <= i < j < |t| ==> t[i].slot < t[j].slot)
  }

  lemma {:induction false} RestoredPush(t: seq<Entry>, storage: map<nat, seq<Byte>>, n: nat, d: LegacyDefaults,
                                        addOk: Outcomes, id: Identity)
    requires Restored(t, storage, n, d, addOk) && StoredId(storage, n, d) == Some(id) && Succeeds(addOk, n)
    ensures Restored(t + [Entry(id, n)], storage, n + 1, d, addOk)
  {
    forall i | 0 <= i < |t| ensures t[i].slot < n {
      assert t[i] in t;
    }
    assert forall e :: e in t + [Entry(id, n)] <==> e in t || e == Entry(id, n);
  }

  lemma {:induction false} RestoredSkip(t: seq<Entry>, storage: map<nat, seq<Byte>>, n: nat, d: LegacyDefaults,
                                        addOk: Outcomes)
    requires Restored(t, storage, n, d, addOk) && (StoredId(storage, n, d).None? || !Succeeds(addOk, n))
    ensures Restored(t, storage, n + 1, d, addOk)
  {
  }

  lemma {:induction false} RestoreExact(storage: map<nat, seq<Byte>>, n: nat, d: LegacyDefaults, addOk: Outcomes)
    requires n <= SLOT_CAP
    ensures Restored(Restore(storage, n, d, addOk), storage, n, d, addOk)
  {
    if n > 0 {
      RestoreExact(storage, n - 1, d, addOk);
      var t, id := Restore(storage, n - 1, d, addOk), StoredId(storage, n - 1, d);
      if id.Some? && Succeeds(addOk, n - 1) {
        RestoredPush(t, storage, n - 1, d, addOk, id.value);
      } else {
        RestoredSkip(t, storage, n - 1, d, addOk);
      }
    }
  }

  /** Some entry of a slot stays although the slot is reached, for the stack refuses to remove it. */
  predicate Refused(t: seq<Entry>, slot: nat, ok: Outcomes) {
    !Succeeds(ok, slot) && exists e :: e in t && e.slot == slot
  }

  /** What is left of `s` once the slots below `n` have been tried. */
  ghost predicate LeftOf(s: State, r: State, n: nat, ok: Outcomes) {
    && (forall e :: e in r.table <==> (e in s.table && (e.slot >= n || !Succeeds(ok, e.slot))))
    && (forall i :: i in r.storage <==> (i in s.storage && (i >= n || Refused(s.table, i, ok))))
  }

  lemma {:induction false} LeftOfStep(s: State, r: State, n: nat, ok: Outcomes)
    requires LeftOf(s, r, n, ok)
    ensures LeftOf(s, Delete(r, n, Succeeds(ok, n)), n + 1, ok)
  {
    DeleteOutcomes(r, n, Succeeds(ok, n));
    var t := Delete(r, n, Succeeds(ok, n));
    assert (exists e :: e in r.table && e.slot == n) <==> (exists e :: e in s.table && e.slot == n);
    assert t.storage == if Refused(s.table, n, ok) then r.storage else r.storage - {n};
  }

  /**
   Deleting all bonds: an entry stays exactly if its slot is not reached or the stack refuses to remove
   it, and what is stored in a slot that is reached stays only behind such an entry.
   */
  lemma {:induction false} DeleteUpToOutcomes(s: State, n: nat, ok: Outcomes)
    ensures LeftOf(s, DeleteUpTo(s, n, ok), n, ok)
  {
    if n > 0 {
      DeleteUpToOutcomes(s, n - 1, ok);
      LeftOfStep(s, DeleteUpTo(s, n - 1, ok), n - 1, ok);
    }
  }

  /** Which slot a store would newly hand out, if it hands one out at all. */
  predicate StoreCollides(t: seq<Entry>, id: Identity, count: nat) {
    && Find(t, id) == |t|
    && if |t| < count then exists e :: e in t && e.slot == |t|
       else exists k :: 0 < k < |t| && t[k].slot == 0
  }

  /** A store keeps slot numbers distinct exactly when the slot it hands out is not in use. */
  lemma {:induction false} StoreKeepsSlotsDistinct(t: seq<Entry>, id: Identity, count: nat)
    requires 1 <= count <= SLOT_CAP && Bounded(t, count) && DistinctSlots(t)
    ensures DistinctSlots(StoreTable(t, id, count)) <==> !StoreCollides(t, id, count)
  {
    var r := StoreTable(t, id, count);
    if Find(t, id) == |t| {
      if |t| < count {
        if StoreCollides(t, id, count) {
          var e :| e in t && e.slot == |t|;
          var k :| 0 <= k < |t| && t[k] == e;
          assert r[k].slot == r[|t|].slot;
        }
      } else if StoreCollides(t, id, count) {
        var k :| 0 < k < |t| && t[k].slot == 0;
        assert r[0].slot == r[k].slot;
      }
    }
  }

  lemma {:induction false} RunFour(s: State, o1: Op, o2: Op, o3: Op, o4: Op, count: nat, d: LegacyDefaults)
    ensures Run(s, [o1, o2, o3, o4], count, d)
         == Apply(Apply(Apply(Apply(s, o1, count, d), o2, count, d), o3, count, d), o4, count, d)
  {
    assert [o1, o2, o3, o4][..3] == [o1, o2, o3] && [o1, o2, o3][..2] == [o1, o2];
    assert [o1, o2][..1] == [o1] && [o1][..0] == [];
    assert Run(s, [o1], count, d) == Apply(s, o1, count, d);
    assert Run(s, [o1, o2], count, d) == Apply(Run(s, [o1], count, d), o2, count, d);
    assert Run(s, [o1, o2, o3], count, d) == Apply(Run(s, [o1, o2], count, d), o3, count, d);
  }

  /** What a full restore finds in a storage that holds one blob, in slot 1. */
  lemma {:induction false} RestoreSlotOne(c: Bond, d: LegacyDefaults, ok: Outcomes)
    requires WellFormed(c) && Succeeds(ok, 1)
    ensures Restore(map[1 := Encode(c)], SLOT_CAP, d, ok) == [Entry(c.identity, 1)]
  {
    var storage: map<nat, seq<Byte>> := map[1 := Encode(c)];
    EncodeLayout(c);
    RoundTrip(c, d);
    assert LoadSlot(storage, 1) == Encode(c);
    assert Restore(storage, 1, d, ok) == [];
    assert Restore(storage, 2, d, ok) == [Entry(c.identity, 1)];
    assert Restore(storage, 3, d, ok) == [Entry(c.identity, 1)];
  }

  /** Two bonds stored into an empty table take slots 0 and 1. */
  lemma {:induction false} StoreTwo(a: Bond, b: Bond)
    requires a.identity != b.identity
    ensures Store(Store(State([], map[]), a, SLOT_CAP), b, SLOT_CAP)
         == State([Entry(a.identity, 0), Entry(b.identity, 1)], map[0 := Encode(a), 1 := Encode(b)])
  {
    assert Store(State([], map[]), a, SLOT_CAP) == State([Entry(a.identity, 0)], map[0 := Encode(a)]);
  }

  /** With slot 0 deleted, the next new bond takes slot 1 a second time. */
  lemma {:induction false} StoreAfterDelete(a: Bond, b: Bond, c: Bond)
    requires b.identity != c.identity
    ensures var s := State([Entry(a.identity, 0), Entry(b.identity, 1)], map[0 := Encode(a), 1 := Encode(b)]);
            Store(Delete(s, 0, true), c, SLOT_CAP)
            == State([Entry(b.identity, 1), Entry(c.identity, 1)], map[1 := Encode(c)])
  {
    var s := State([Entry(a.identity, 0), Entry(b.identity, 1)], map[0 := Encode(a), 1 := Encode(b)]);
    WithoutFirst(s.table, 0, 2);
    assert Delete(s, 0, true) == State([Entry(b.identity, 1)], map[1 := Encode(b)]);
    assert map[1 := Encode(b)][1 := Encode(c)] == map[1 := Encode(c)];
  }

  /**
   Slot numbers do collide: with two bonds stored, deleting slot 0 and storing a third bond
   puts two entries in slot 1, overwrites the second bond's blob, and a reload no longer
   finds that bond.
   */
  lemma {:induction false} SlotCollisionWitness(a: Bond, b: Bond, c: Bond, d: LegacyDefaults)
    requires WellFormed(a) && WellFormed(b) && WellFormed(c)
    requires a.identity != b.identity && a.identity != c.identity && b.identity != c.identity
    ensures var s := Run(State([], map[]), [StoreOp(a), StoreOp(b), DeleteOp(0, true), StoreOp(c)], SLOT_CAP, d);
            && s.table == [Entry(b.identity, 1), Entry(c.identity, 1)]
            && !DistinctSlots(s.table)
            && Restore(s.storage, SLOT_CAP, d, [true, true, true, true]) == [Entry(c.identity, 1)]
  {
    RunFour(State([], map[]), StoreOp(a), StoreOp(b), DeleteOp(0, true), StoreOp(c), SLOT_CAP, d);
    StoreTwo(a, b);
    StoreAfterDelete(a, b, c);
    RestoreSlotOne(c, d, [true, true, true, true]);
    var t := [Entry(b.identity, 1), Entry(c.identity, 1)];
    assert t[0].slot == t[1].slot;
  }

  // ---------------------------------------------------------------------------
  // Disciplined runs: table, storage and reload all present one list of bonds.
  // ---------------------------------------------------------------------------

  ghost predicate Tabled(t: seq<Entry>, bonds: seq<Bond>) {
    |t| == |bonds| && forall i :: 0 <= i < |bonds| ==> t[i] == Entry(bonds[i].identity, i)
  }

  ghost predicate Stored(storage: map<nat, seq<Byte>>, bonds: seq<Bond>, d: LegacyDefaults) {
    && (forall i :: 0 <= i < |bonds| ==> Decode(LoadSlot(storage, i), d) == Some(bonds[i]))
    && (forall i :: i in storage ==> i < |bonds|)
  }

  /** Slot `i` of table and storage holds bond `i`, and nothing else is stored. */
  ghost predicate Represents(s: State, bonds: seq<Bond>, count: nat, d: LegacyDefaults) {
    && |bonds| <= count
    && Tabled(s.table, bonds)
    && Stored(s.storage, bonds, d)
    && DistinctBonds(bonds)
  }

  function Position(bonds: seq<Bond>, id: Identity): (k: nat)
    ensures k <= |bonds| && (k < |bonds| ==> bonds[k].identity == id)
    ensures forall j :: 0 <= j < k ==> bonds[j].identity != id
  {
    if bonds == [] || bonds[0].identity == id then 0 else 1 + Position(bonds[1..], id)
  }

  /** The abstract operations: replace in place, append, or evict the oldest. */
  function StoreBonds(bonds: seq<Bond>, b: Bond, count: nat): seq<Bond> {
    var k := Position(bonds, b.identity);
    if k < |bonds| then bonds[k := b]
    else if |bonds| < count then bonds + [b]
    else if |bonds| > 0 then bonds[0 := b]
    else bonds
  }

  function ApplyBonds(bonds: seq<Bond>, op: Op, count: nat): seq<Bond> {
    match op
    case StoreOp(b) => StoreBonds(bonds, b, count)
    case DeleteOp(slot, _) => if slot + 1 == |bonds| then bonds[..slot] else bonds
    case DeleteAllOp(_) => []
    case ReloadOp(_) => bonds
  }

  function RunBonds(bonds: seq<Bond>, ops: seq<Op>, count: nat): seq<Bond> {
    if ops == [] then bonds
    else ApplyBonds(RunBonds(bonds, ops[..|ops| - 1], count), ops[|ops| - 1], count)
  }

  /** Bonds as the stack makes them, stack calls that succeed, deletes at the top of the table. */
  ghost predicate Disciplined(bonds: seq<Bond>, op: Op, count: nat) {
    match op
    case StoreOp(b) => WellFormed(b)
    case DeleteOp(slot, ok) => ok && slot + 1 >= |bonds|
    case DeleteAllOp(ok) => AllSucceed(ok, count)
    case ReloadOp(ok) => AllSucceed(ok, count)
  }

  ghost predicate DisciplinedRun(bonds: seq<Bond>, ops: seq<Op>, count: nat) {
    forall k :: 0 <= k < |ops| ==> Disciplined(RunBonds(bonds, ops[..k], count), ops[k], count)
  }

  /** A blob just written is read back as its bond, and other slots read as before. */
  lemma {:induction false} WrittenReadsBack(storage: map<nat, seq<Byte>>, slot: nat, b: Bond, d: LegacyDefaults)
    requires WellFormed(b)
    ensures Decode(LoadSlot(storage[slot := Encode(b)], slot), d) == Some(b)
    ensures forall i :: i != slot ==> LoadSlot(storage[slot := Encode(b)], i) == LoadSlot(storage, i)
  {
    EncodeLayout(b);
    assert LoadSlot(storage[slot := Encode(b)], slot) == Encode(b);
    RoundTrip(b, d);
  }

  lemma {:induction false} StoredUpdate(storage: map<nat, seq<Byte>>, bonds: seq<Bond>, k: nat, b: Bond,
                                        d: LegacyDefaults)
    requires Stored(storage, bonds, d) && k <= |bonds| && WellFormed(b)
    ensures Stored(storage[k := Encode(b)], if k < |bonds| then bonds[k := b] else bonds + [b], d)
  {
    WrittenReadsBack(storage, k, b, d);
  }

  lemma {:induction false} FindAligned(t: seq<Entry>, bonds: seq<Bond>, id: Identity)
    requires Tabled(t, bonds)
    ensures Find(t, id) == Position(bonds, id)
  {
    var k, p := Find(t, id), Position(bonds, id);
    assert k < |t| ==> bonds[k].identity == id;
    assert p < |bonds| ==> t[p].id == id;
  }

  lemma {:induction false} TabledStore(t: seq<Entry>, bonds: seq<Bond>, b: Bond, count: nat)
    requires 1 <= count <= SLOT_CAP && Tabled(t, bonds) && |bonds| <= count
    ensures Tabled(StoreTable(t, b.identity, count), StoreBonds(bonds, b, count))
  {
    FindAligned(t, bonds, b.identity);
  }

  ghost predicate DistinctBonds(bonds: seq<Bond>) {
    forall i, j :: 0 <= i < j < |bonds| ==> bonds[i].identity != bonds[j].identity
  }

  lemma {:induction false} DistinctStore(bonds: seq<Bond>, b: Bond, count: nat)
    requires 1 <= count && DistinctBonds(bonds) && |bonds| <= count
    ensures DistinctBonds(StoreBonds(bonds, b, count)) && |StoreBonds(bonds, b, count)| <= count
  {
  }

  lemma {:induction false} StoredStore(s: State, bonds: seq<Bond>, b: Bond, count: nat, d: LegacyDefaults)
    requires 1 <= count && Tabled(s.table, bonds) && Stored(s.storage, bonds, d) && |bonds| <= count && WellFormed(b)
    ensures Stored(Store(s, b, count).storage, StoreBonds(bonds, b, count), d)
  {
    FindAligned(s.table, bonds, b.identity);
    var k := Position(bonds, b.identity);
    StoredUpdate(s.storage, bonds, if k < |bonds| then k else if |bonds| < count then |bonds| else 0, b, d);
  }

  lemma {:induction false} StoreRefines(s: State, bonds: seq<Bond>, b: Bond, count: nat, d: LegacyDefaults)
    requires 1 <= count <= SLOT_CAP && Represents(s, bonds, count, d) && WellFormed(b)
    ensures Represents(Store(s, b, count), StoreBonds(bonds, b, count), count, d)
  {
    TabledStore(s.table, bonds, b, count);
    DistinctStore(bonds, b, count);
    StoredStore(s, bonds, b, count, d);
  }

  /** In an aligned state no store leaves an old blob behind. */
  lemma {:induction false} AlignedLeavesNothing(s: State, bonds: seq<Bond>, b: Bond, count: nat, d: LegacyDefaults)
    requires Represents(s, bonds, count, d) && count <= SLOT_CAP
    ensures DistinctStored(s.storage, count, d) && !LeavesOld(s, b, count, d)
  {
    FindAligned(s.table, bonds, b.identity);
    forall i | 0 <= i < count
      ensures StoredId(s.storage, i, d) == if i < |bonds| then Some(bonds[i].identity) else None
    {
      if i >= |bonds| { EmptySlotDecodes(s.storage, i, d); }
    }
  }

  lemma {:induction false} WithoutAbsent(t: seq<Entry>, slot: nat, n: nat)
    requires n <= |t| && forall i :: 0 <= i < n ==> t[i].slot != slot
    ensures WithoutUpTo(t, slot, n) == t[..n]
  {
    if n > 0 {
      WithoutAbsent(t, slot, n - 1);
    }
  }

  /** In an aligned table the entry for a slot sits at that position. */
  lemma {:induction false} FindSlotAligned(t: seq<Entry>, bonds: seq<Bond>, slot: nat)
    requires Tabled(t, bonds)
    ensures FindSlot(t, slot) == if slot < |bonds| then slot else |bonds|
  {
    if slot < |bonds| {
      assert t[slot].slot == slot;
    }
  }

  lemma {:induction false} StoredWithoutTop(storage: map<nat, seq<Byte>>, bonds: seq<Bond>, d: LegacyDefaults)
    requires Stored(storage, bonds, d) && bonds != []
    ensures Stored(storage - {|bonds| - 1}, bonds[..|bonds| - 1], d)
  {
    assert forall i :: 0 <= i < |bonds| - 1 ==> LoadSlot(storage - {|bonds| - 1}, i) == LoadSlot(storage, i);
  }

  lemma {:induction false} TabledWithoutTop(t: seq<Entry>, bonds: seq<Bond>)
    requires Tabled(t, bonds) && bonds != []
    ensures Tabled(Without(t, |bonds| - 1), bonds[..|bonds| - 1])
  {
    var top := |bonds| - 1;
    WithoutAbsent(t, top, top);
    assert Without(t, top) == t[..top] + [];
  }

  lemma {:induction false} DeleteTopRefines(s: State, bonds: seq<Bond>, slot: nat, count: nat, d: LegacyDefaults)
    requires Represents(s, bonds, count, d) && slot + 1 >= |bonds|
    ensures Represents(Delete(s, slot, true), if slot + 1 == |bonds| then bonds[..slot] else bonds, count, d)
  {
    FindSlotAligned(s.table, bonds, slot);
    if slot + 1 == |bonds| {
      StoredWithoutTop(s.storage, bonds, d);
      TabledWithoutTop(s.table, bonds);
    } else {
      assert slot !in s.storage;
      assert s.storage - {slot} == s.storage;
    }
  }

  /**
   Deleting from an aligned state leaves a state that presents some list of bonds exactly
   when the slot is the topmost one in use or above it.
   */
  lemma {:induction false} DeleteKeepsAlignedIff(s: State, bonds: seq<Bond>, slot: nat, count: nat, d: LegacyDefaults)
    requires Represents(s, bonds, count, d)
    ensures (exists left: seq<Bond> :: Represents(Delete(s, slot, true), left, count, d)) <==> slot + 1 >= |bonds|
  {
    var r := Delete(s, slot, true);
    if slot + 1 >= |bonds| {
      DeleteTopRefines(s, bonds, slot, count, d);
    } else {
      FindSlotAligned(s.table, bonds, slot);
      assert Decode(LoadSlot(s.storage, slot + 1), d).Some?;
      assert slot + 1 in r.storage && slot !in r.storage;
      assert Decode(LoadSlot(r.storage, slot), d).None?;
      forall left: seq<Bond>
        ensures slot < |left| ==> !Represents(r, left, count, d)
        ensures slot >= |left| ==> !Represents(r, left, count, d)
      {
      }
    }
  }

  ghost predicate Numbered(t: seq<Entry>, base: nat) {
    forall i :: 0 <= i < |t| ==> t[i].slot == base + i
  }

  ghost predicate EmptyBelow(storage: map<nat, seq<Byte>>, n: nat) {
    forall i :: 0 <= i < n ==> i !in storage
  }

  function ClearUpTo(storage: map<nat, seq<Byte>>, n: nat): map<nat, seq<Byte>> {
    if n == 0 then storage else ClearUpTo(storage, n - 1) - {n - 1}
  }

  /** What is left once slots `0..n` are gone: the table's tail, and nothing stored below `n`. */
  function Cleared(s: State, n: nat): State {
    State(s.table[Min(n, |s.table|)..], ClearUpTo(s.storage, n))
  }

  lemma {:induction false} ClearedStep(s: State, n: nat)
    requires Numbered(s.table, 0)
    ensures Delete(Cleared(s, n), n, true) == Cleared(s, n + 1)
  {
    DeleteFirst(Cleared(s, n), n);
  }

  lemma {:induction false} DeleteUpToTail(s: State, n: nat, ok: Outcomes)
    requires Numbered(s.table, 0) && AllSucceed(ok, n)
    ensures DeleteUpTo(s, n, ok) == Cleared(s, n)
  {
    if n > 0 {
      DeleteUpToTail(s, n - 1, ok);
      ClearedStep(s, n - 1);
    }
  }

  lemma {:induction false} ClearUpToEmpties(storage: map<nat, seq<Byte>>, n: nat)
    ensures EmptyBelow(ClearUpTo(storage, n), n) && ClearUpTo(storage, n).Keys <= storage.Keys
  {
    if n > 0 {
      ClearUpToEmpties(storage, n - 1);
    }
  }

  /** Deleting the lowest slot of a table numbered upwards from it drops its first entry. */
  lemma {:induction false} DeleteFirst(s: State, slot: nat)
    requires Numbered(s.table, slot)
    ensures Delete(s, slot, true) == State(if s.table == [] then [] else s.table[1..], s.storage - {slot})
  {
    if s.table != [] {
      assert s.table[0].slot == slot;
      WithoutFirst(s.table, slot, |s.table|);
    }
  }

  lemma {:induction false} WithoutFirst(t: seq<Entry>, slot: nat, n: nat)
    requires 1 <= n <= |t| && t[0].slot == slot && forall i :: 0 < i < |t| ==> t[i].slot != slot
    ensures WithoutUpTo(t, slot, n) == t[1..n]
  {
    if n > 1 {
      WithoutFirst(t, slot, n - 1);
    } else {
      assert WithoutUpTo(t, slot, 1) == WithoutUpTo(t, slot, 0) + [];
    }
  }

  lemma {:induction false} RestoreStep(storage: map<nat, seq<Byte>>, n: nat, d: LegacyDefaults, ok: Outcomes)
    requires Succeeds(ok, n)
    ensures var t, bond := Restore(storage, n, d, ok), Decode(LoadSlot(storage, n), d);
            Restore(storage, n + 1, d, ok) == if bond.Some? then Push(t, Entry(bond.value.identity, n)) else t
  {
  }

  lemma {:induction false} EmptySlotDecodes(storage: map<nat, seq<Byte>>, slot: nat, d: LegacyDefaults)
    requires slot !in storage
    ensures Decode(LoadSlot(storage, slot), d).None?
  {
  }

  /** What one more slot of an aligned storage adds to the entries before it. */
  lemma {:induction false} ReadOne(s: State, bonds: seq<Bond>, n: nat, d: LegacyDefaults)
    requires Tabled(s.table, bonds) && Stored(s.storage, bonds, d) && n < SLOT_CAP
    ensures var bond, t := Decode(LoadSlot(s.storage, n), d), s.table[..Min(n, |bonds|)];
            (if bond.Some? then Push(t, Entry(bond.value.identity, n)) else t) == s.table[..Min(n + 1, |bonds|)]
  {
    if n < |bonds| {
      assert s.table[..n + 1] == s.table[..n] + [s.table[n]];
    } else {
      EmptySlotDecodes(s.storage, n, d);
    }
  }

  /** Reading an aligned storage back yields the bonds in order, each at its own slot. */
  lemma {:induction false} RestoreReads(s: State, bonds: seq<Bond>, n: nat, count: nat, d: LegacyDefaults, ok: Outcomes)
    requires Represents(s, bonds, count, d) && n <= count <= SLOT_CAP && AllSucceed(ok, n)
    ensures Restore(s.storage, n, d, ok) == s.table[..Min(n, |bonds|)]
  {
    if n > 0 {
      RestoreReads(s, bonds, n - 1, count, d, ok);
      RestoreStep(s.storage, n - 1, d, ok);
      ReadOne(s, bonds, n - 1, d);
    }
  }

  /** The storage a session may start from: a prefix of valid blobs with distinct identities. */
  ghost predicate ValidPrefix(storage: map<nat, seq<Byte>>, bonds: seq<Bond>, count: nat, d: LegacyDefaults) {
    var table := seq(|bonds|, i requires 0 <= i < |bonds| => Entry(bonds[i].identity, i));
    Represents(State(table, storage), bonds, count, d)
  }

  lemma {:induction false} OpRefines(s: State, bonds: seq<Bond>, op: Op, count: nat, d: LegacyDefaults)
    requires 1 <= count <= SLOT_CAP && Represents(s, bonds, count, d) && Disciplined(bonds, op, count)
    ensures Represents(Apply(s, op, count, d), ApplyBonds(bonds, op, count), count, d)
  {
    match op
    case StoreOp(b) => StoreRefines(s, bonds, b, count, d);
    case DeleteOp(slot, _) => DeleteTopRefines(s, bonds, slot, count, d);
    case DeleteAllOp(ok) =>
      DeleteUpToTail(s, count, ok);
      ClearUpToEmpties(s.storage, count);
    case ReloadOp(ok) => RestoreReads(s, bonds, count, count, d, ok);
  }

  /**
   Reload refinement. From a valid prefix, every disciplined run leaves table and storage
   representing the abstract list of bonds, and a fresh restore rebuilds that same table.
   */
  lemma {:induction false} DisciplinedRunsRefine(storage: map<nat, seq<Byte>>, bonds: seq<Bond>, ops: seq<Op>,
                                                  count: nat, d: LegacyDefaults, ok: Outcomes)
    requires 1 <= count <= SLOT_CAP && ValidPrefix(storage, bonds, count, d)
    requires DisciplinedRun(bonds, ops, count) && AllSucceed(ok, count)
    ensures var s := Run(State(Restore(storage, count, d, ok), storage), ops, count, d);
            && Represents(s, RunBonds(bonds, ops, count), count, d)
            && Restore(s.storage, count, d, ok) == s.table
  {
    var start := State(Restore(storage, count, d, ok), storage);
    if ops == [] {
      var s := State(seq(|bonds|, i requires 0 <= i < |bonds| => Entry(bonds[i].identity, i)), storage);
      RestoreReads(s, bonds, count, count, d, ok);
      assert start == s;
    } else {
      var front, op := ops[..|ops| - 1], ops[|ops| - 1];
      assert DisciplinedRun(bonds, front, count) by {
        forall k | 0 <= k < |front| ensures Disciplined(RunBonds(bonds, front[..k], count), front[k], count) {
          assert front[..k] == ops[..k];
        }
      }
      DisciplinedRunsRefine(storage, bonds, front, count, d, ok);
      OpRefines(Run(start, front, count, d), RunBonds(bonds, front, count), op, count, d);
    }
    var s, bs := Run(start, ops, count, d), RunBonds(bonds, ops, count);
    RestoreReads(s, bs, count, count, d, ok);
  }
}
