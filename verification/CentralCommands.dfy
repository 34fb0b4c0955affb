/**
 The central role's command channel seen from both ends: what each application call stores, and what
 its consumer makes of the words it finds (`runtime_ble_scan_start` to `runtime_ble_client_unsubscribe`,
 against the swaps in `wait_idle_cmd`, `run_scan` and `client_session`).
 */
module CentralCommands {
  import opened Common
  import opened CommandSlot

  const SCAN_START := 1
  const SCAN_STOP := 2
  const CONNECT := 3
  const DISCONNECT := 4
  const DISCOVER := 5
  const READ := 6
  const WRITE := 7
  const SUBSCRIBE := 8
  const WRITE_NO_RSP := 9
  const DISCOVER_DESCRIPTORS := 10
  const SUBSCRIBE_INDICATE := 11
  const READ_BLOB := 12
  const DISCOVER_ALL := 13
  const DISCOVER_SERVICES := 14
  const READ_BY_UUID := 15
  const UNSUBSCRIBE := 16

  const BUF_CAP := 512

  /** The parameter words; the scan settings are always stored together, and so are bytes with their length. */
  datatype Reg = Handle | Addr | UuidBytes | Buf | Scan

  datatype Val =
    | Num(n: nat)
    | Bytes(b: seq<Byte>)
    | Peer(addr: seq<Byte>, kind: Byte)
    | Settings(active: bool, interval: U16, window: U16, timeout: U16, options: Byte, filter: Option<(seq<Byte>, Byte)>)

  datatype Mode = Notifications | Indications | Off

  datatype CentralCall =
    | ScanStart(settings: Val)
    | ScanStop
    | Connect(addr: seq<Byte>, kind: Byte)
    | Disconnect
    | DiscoverServices
    | Discover(uuid: seq<Byte>)
    | DiscoverAll
    | DiscoverDescriptors(start: U16, end: U16)
    | Read(handle: U16)
    | ReadBlob(handle: U16, offset: U16)
    | ReadByUuid(start: U16, end: U16, uuid: seq<Byte>)
    | Write(handle: U16, data: seq<Byte>, response: bool)
    | Subscribe(handle: U16, mode: Mode)

  predicate UuidSized(u: seq<Byte>) { |u| == 2 || |u| == 16 }

  predicate ValidCall(c: CentralCall) {
    match c
    case Connect(addr, _) => |addr| == 6
    case Discover(u) => UuidSized(u)
    case DiscoverDescriptors(s, e) => 0 < s <= e
    case ReadByUuid(s, e, u) => 0 < s <= e && UuidSized(u)
    case Write(_, data, _) => 0 < |data| <= BUF_CAP
    case _ => true
  }

  /** A call is turned down at the entry exactly for an address, UUID, range or size that cannot be. */
  lemma {:induction false} RejectedExactly(c: CentralCall)
    ensures !ValidCall(c) <==>
      || (c.Connect? && |c.addr| != 6)
      || ((c.Discover? || c.ReadByUuid?) && |c.uuid| != 2 && |c.uuid| != 16)
      || ((c.DiscoverDescriptors? || c.ReadByUuid?) && (c.start == 0 || c.end < c.start))
      || (c.Write? && (|c.data| == 0 || |c.data| > 512))
  {
  }

  /** Two handles in one word. */
  function Pack(high: U16, low: U16): nat { high * 0x1_0000 + low }

  function High(packed: nat): U16 { packed / 0x1_0000 % 0x1_0000 }
  function Low(packed: nat): U16 { packed % 0x1_0000 }

  /** `central_cmd` stores the packed word after its test, everything else is stored before. */
  function Command(cmd: nat, early: map<Reg, Val>, packed: nat): Call<Reg, Val> {
    Call(cmd, early, map[Handle := Num(packed)])
  }

  function Encode(c: CentralCall): Call<Reg, Val> {
    match c
    case ScanStart(settings) => Command(SCAN_START, map[Scan := settings], 0)
    case ScanStop => Command(SCAN_STOP, map[], 0)
    case Connect(a, k) => Command(CONNECT, map[Addr := Peer(a, k)], 0)
    case Disconnect => Command(DISCONNECT, map[], 0)
    case DiscoverServices => Command(DISCOVER_SERVICES, map[], 0)
    case Discover(u) => Command(DISCOVER, map[UuidBytes := Bytes(u)], 0)
    case DiscoverAll => Command(DISCOVER_ALL, map[], 0)
    case DiscoverDescriptors(s, e) => Command(DISCOVER_DESCRIPTORS, map[], Pack(s, e))
    case Read(h) => Command(READ, map[], h)
    case ReadBlob(h, o) => Command(READ_BLOB, map[], Pack(o, h))
    case ReadByUuid(s, e, u) => Command(READ_BY_UUID, map[UuidBytes := Bytes(u)], Pack(s, e))
    case Write(h, d, response) => Command(if response then WRITE else WRITE_NO_RSP, map[Buf := Bytes(d)], h)
    case Subscribe(h, Notifications) => Command(SUBSCRIBE, map[], h)
    case Subscribe(h, Indications) => Command(SUBSCRIBE_INDICATE, map[], h)
    case Subscribe(h, Off) => Command(UNSUBSCRIBE, map[], h)
  }

  lemma {:induction false} EncodeReal(c: CentralCall)
    ensures Encode(c).cmd != NONE && Handle in Params(Encode(c))
  {
  }

  // ---------------------------------------------------------------------------
  // The consumer's reading of the words.
  // ---------------------------------------------------------------------------

  /** A client operation with its parameters, as its handler has read them. */
  datatype Plan =
    | ListServices
    | ListAll
    | ListCharacteristics(uuid: Uuid)
    | ListDescriptors(start: U16, end: U16)
    | ReadTyped(start: U16, end: U16, uuid: Uuid)
    | ReadValue(handle: U16)
    | ReadPart(handle: U16, offset: U16)
    | WriteValue(handle: U16, data: seq<Byte>, response: bool)
    | Configure(handle: U16, mode: Mode)

  datatype Action =
    | Dial(addr: seq<Byte>, kind: Byte)
    | StartScan(settings: Val)
    | StopScan
    | HangUp
    | Operate(plan: Plan)

  function PackedOf(regs: map<Reg, Val>): nat {
    if Handle in regs && regs[Handle].Num? then regs[Handle].n else 0
  }

  function BytesOf(regs: map<Reg, Val>, r: Reg): seq<Byte> {
    if r in regs && regs[r].Bytes? then regs[r].b else []
  }

  function UuidOf(regs: map<Reg, Val>): Uuid { UuidFrom(Some(BytesOf(regs, UuidBytes))) }

  /** The bytes a write handler copies out of the send buffer. */
  function WriteBytes(regs: map<Reg, Val>, valueLen: nat): seq<Byte> {
    var b := BytesOf(regs, Buf);
    b[..Min(Min(|b|, valueLen), BUF_CAP)]
  }

  /** What a client command is executed as; `None` for a command that is no client operation. */
  function PlanOf(cmd: nat, regs: map<Reg, Val>, valueLen: nat): Option<Plan> {
    var p := PackedOf(regs);
    if cmd == DISCOVER_SERVICES then Some(ListServices)
    else if cmd == DISCOVER then Some(ListCharacteristics(UuidOf(regs)))
    else if cmd == DISCOVER_ALL then Some(ListAll)
    else if cmd == DISCOVER_DESCRIPTORS then Some(ListDescriptors(High(p), Low(p)))
    else if cmd == READ_BY_UUID then Some(ReadTyped(High(p), Low(p), UuidOf(regs)))
    else if cmd == READ then Some(ReadValue(Low(p)))
    else if cmd == READ_BLOB then Some(ReadPart(Low(p), High(p)))
    else if cmd == WRITE then Some(WriteValue(Low(p), WriteBytes(regs, valueLen), true))
    else if cmd == WRITE_NO_RSP then Some(WriteValue(Low(p), WriteBytes(regs, valueLen), false))
    else if cmd == SUBSCRIBE then Some(Configure(Low(p), Notifications))
    else if cmd == SUBSCRIBE_INDICATE then Some(Configure(Low(p), Indications))
    else if cmd == UNSUBSCRIBE then Some(Configure(Low(p), Off))
    else None
  }

  function PeerOf(regs: map<Reg, Val>): (seq<Byte>, Byte) {
    if Addr in regs && regs[Addr].Peer? then (regs[Addr].addr, regs[Addr].kind) else ([0, 0, 0, 0, 0, 0], 0)
  }

  function SettingsOf(regs: map<Reg, Val>): Val {
    if Scan in regs then regs[Scan] else Settings(false, 0, 0, 0, 0, None)
  }

  /** What an executed command does where it does something. */
  function ActionOf(cmd: nat, regs: map<Reg, Val>, valueLen: nat): Option<Action> {
    if cmd == CONNECT then Some(Dial(PeerOf(regs).0, PeerOf(regs).1))
    else if cmd == SCAN_START then Some(StartScan(SettingsOf(regs)))
    else if cmd == SCAN_STOP then Some(StopScan)
    else if cmd == DISCONNECT then Some(HangUp)
    else
      var plan := PlanOf(cmd, regs, valueLen);
      if plan.Some? then Some(Operate(plan.value)) else None
  }

  /** What the caller asked for; a write is cut to what a value can hold. */
  function Intent(c: CentralCall, valueLen: nat): Action {
    match c
    case ScanStart(settings) => StartScan(settings)
    case ScanStop => StopScan
    case Connect(a, k) => Dial(a, k)
    case Disconnect => HangUp
    case DiscoverServices => Operate(ListServices)
    case Discover(u) => Operate(ListCharacteristics(UuidFrom(Some(u))))
    case DiscoverAll => Operate(ListAll)
    case DiscoverDescriptors(s, e) => Operate(ListDescriptors(s, e))
    case Read(h) => Operate(ReadValue(h))
    case ReadBlob(h, o) => Operate(ReadPart(h, o))
    case ReadByUuid(s, e, u) => Operate(ReadTyped(s, e, UuidFrom(Some(u))))
    case Write(h, d, response) => Operate(WriteValue(h, d[..Min(|d|, valueLen)], response))
    case Subscribe(h, m) => Operate(Configure(h, m))
  }

  lemma {:induction false} PackUnpacks(high: U16, low: U16)
    ensures High(Pack(high, low)) == high && Low(Pack(high, low)) == low
  {
    assert Pack(high, low) / 0x1_0000 == high;
  }

  /** Words that carry a call hold each of its parameters. */
  lemma {:induction false} Carried(c: CentralCall, regs: map<Reg, Val>, r: Reg)
    requires Carries(regs, Encode(c)) && r in Params(Encode(c))
    ensures r in regs && regs[r] == Params(Encode(c))[r]
  {
  }

  /** Words that carry a call's arguments make the consumer do what the caller asked for. */
  lemma {:induction false} CarriedIsIntended(c: CentralCall, regs: map<Reg, Val>, valueLen: nat)
    requires ValidCall(c) && Carries(regs, Encode(c))
    ensures ActionOf(Encode(c).cmd, regs, valueLen) == Some(Intent(c, valueLen))
  {
    EncodeReal(c);
    Carried(c, regs, Handle);
    match c
    case ScanStart(_) => Carried(c, regs, Scan);
    case Connect(_, _) => Carried(c, regs, Addr);
    case Discover(_) => Carried(c, regs, UuidBytes);
    case DiscoverDescriptors(s, e) => PackUnpacks(s, e);
    case ReadBlob(h, o) => PackUnpacks(o, h);
    case ReadByUuid(s, e, _) =>
      PackUnpacks(s, e);
      Carried(c, regs, UuidBytes);
    case Write(_, _, _) => Carried(c, regs, Buf);
    case _ =>
  }

  /** Accepted calls that ask for the same thing are the same call, writes aside that are cut to the same bytes. */
  lemma {:induction false} IntentInjective(a: CentralCall, b: CentralCall, valueLen: nat)
    requires ValidCall(a) && ValidCall(b) && Intent(a, valueLen) == Intent(b, valueLen)
    requires a.Write? && b.Write? ==> |a.data| <= valueLen && |b.data| <= valueLen
    ensures a == b
  {
    match a
    case Discover(u) => SameUuid(u, b.uuid);
    case ReadByUuid(_, _, u) => SameUuid(u, b.uuid);
    case Write(_, d, _) => assert d[..|d|] == d && b.data[..|b.data|] == b.data;
    case _ =>
  }

  lemma {:induction false} SameUuid(a: seq<Byte>, b: seq<Byte>)
    requires (|a| == 2 || |a| == 16) && (|b| == 2 || |b| == 16) && UuidFrom(Some(a)) == UuidFrom(Some(b))
    ensures a == b
  {
    if |a| == 2 {
      assert a == [a[0], a[1]];
      if |b| == 2 {
        assert b == [b[0], b[1]];
      }
    }
  }

  // ---------------------------------------------------------------------------
  // The status each operation reports.
  // ---------------------------------------------------------------------------

  function OpOf(plan: Plan): nat {
    match plan
    case ListServices => 1
    case ListCharacteristics(_) => 2
    case ListAll => 3
    case ListDescriptors(_, _) => 4
    case ReadValue(_) => 5
    case ReadPart(_, _) => 6
    case WriteValue(_, _, response) => if response then 7 else 8
    case Configure(_, Notifications) => 9
    case Configure(_, Indications) => 10
    case ReadTyped(_, _, _) => 11
    case Configure(_, Off) => 12
  }

  /** The handle the status names: the one the operation is about, or where its range starts. */
  function HandleOf(plan: Plan): U16 {
    match plan
    case ListDescriptors(s, _) => s
    case ReadTyped(s, _, _) => s
    case ReadValue(h) => h
    case ReadPart(h, _) => h
    case WriteValue(h, _, _) => h
    case Configure(h, _) => h
    case _ => 0
  }

  /** The handle the caller named, if the operation is about one. */
  function CallerHandle(c: CentralCall): U16 {
    match c
    case DiscoverDescriptors(s, _) => s
    case Read(h) => h
    case ReadBlob(h, _) => h
    case ReadByUuid(s, _, _) => s
    case Write(h, _, _) => h
    case Subscribe(h, _) => h
    case _ => 0
  }

  /** Packed words unpack to what the caller passed, and statuses name the caller's handle. */
  lemma {:induction false} HandlesUnpack(c: CentralCall, regs: map<Reg, Val>, valueLen: nat)
    requires ValidCall(c) && Carries(regs, Encode(c))
    ensures var plan := PlanOf(Encode(c).cmd, regs, valueLen);
            && (plan.Some? ==> HandleOf(plan.value) == CallerHandle(c))
            && (c.ReadBlob? ==> plan == Some(ReadPart(c.handle, c.offset)))
            && (c.DiscoverDescriptors? ==> plan == Some(ListDescriptors(c.start, c.end)))
            && (c.ReadByUuid? ==> plan == Some(ReadTyped(c.start, c.end, UuidFrom(Some(c.uuid)))))
  {
    CarriedIsIntended(c, regs, valueLen);
  }

  // ---------------------------------------------------------------------------
  // The two other writers of a pending write's bytes.
  // ---------------------------------------------------------------------------

  /** What an accepted `queue_tx` stores: it shares the send buffer and never looks at the command word. */
  function TxWords(data: seq<Byte>): map<Reg, Val> { map[Buf := Bytes(data)] }

  /** Queuing a notification behind a pending call is harmless exactly unless that is a write of other bytes. */
  lemma {:induction false} TxHarmlessIff(data: seq<Byte>, c: CentralCall)
    ensures Agrees(TxWords(data), Some(Encode(c))) <==> (c.Write? ==> c.data == data)
  {
    assert Buf in TxWords(data) && TxWords(data)[Buf] == Bytes(data);
    if c.Write? {
      assert Buf in Params(Encode(c)) && Params(Encode(c))[Buf] == Bytes(c.data);
    }
  }

  /** A refused client write behind a pending call is harmless exactly unless that is a write of other bytes. */
  lemma {:induction false} WriteHarmlessIff(w: CentralCall, c: CentralCall)
    requires w.Write?
    ensures Harmless(Encode(w), Some(Encode(c))) <==> (c.Write? ==> c.data == w.data)
  {
    assert Encode(w).early == TxWords(w.data);
    TxHarmlessIff(w.data, c);
  }

  /**
   The condition is needed: a second write refused behind a pending one leaves the pending handle alone
   but replaces its bytes, because only the handle is stored after the test.
   */
  lemma {:induction false} RefusedWriteReplacesData(h: U16, k: U16, valueLen: nat)
    requires valueLen >= 1
    ensures var p, r := Write(h, [1], true), Write(k, [2], true);
            var ch := Issue(Issue(Channel(NONE, map[], []), Encode(p)), Encode(r));
            && ch.log == [Took(Encode(p))]
            && PlanOf(ch.cmd, ch.regs, valueLen) == Some(WriteValue(h, [2], true))
  {
    var p, r := Encode(Write(h, [1], true)), Encode(Write(k, [2], true));
    var ch := Issue(Issue(Channel(NONE, map[], []), p), r);
    assert ch.regs[Buf] == Bytes([2]) && ch.regs[Handle] == Num(h);
    assert WriteBytes(ch.regs, valueLen) == [2] && Low(h) == h;
  }
}
