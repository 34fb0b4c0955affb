/**
 The handlers of the client operations in `client_session` and the functions it calls, from await to
 await: what a handler asks of the peer, which callbacks it makes on the answer, and where it waits
 next. A handler may be dropped at any await, so a run of one is a prefix of its answers.
 */
module ClientOps {
  import opened Common
  import opened CentralCommands

  const STORE_CAP := 32

  datatype Service = Service(start: U16, end: U16, uuid: seq<Byte>)
  datatype Characteristic = Characteristic(handle: U16, cccd: Option<U16>, uuid: seq<Byte>, props: U16)

  /** A remembered value handle, with its configuration handle if it has one. */
  datatype Known = Known(handle: U16, cccd: Option<U16>)
  type Store = seq<Known>

  datatype Request =
    | GetServices
    | GetServicesByUuid(uuid: Uuid)
    | GetCharacteristics(service: Service)
    | FindInformation(start: U16, end: U16)
    | ReadByType(start: U16, end: U16, uuid: Uuid)
    | ReadHandle(handle: U16)
    | ReadHandleBlob(handle: U16, offset: U16)
    | WriteHandle(handle: U16, data: seq<Byte>, response: bool)

  /** `Item` is one element handed to a request's closure, with the request still going on. */
  datatype Reply =
    | Services(services: seq<Service>)
    | Characteristics(chars: seq<Characteristic>)
    | Item(handle: U16, data: seq<Byte>)
    | Value(value: seq<Byte>)
    | Done
    | Failed

  /** A request made, or a callback. */
  datatype Out =
    | Asked(request: Request)
    | OnService(service: Service)
    | OnDiscovered(found: Characteristic)
    | OnDescriptor(handle: U16, uuid: seq<Byte>)
    | OnRead(handle: U16, data: seq<Byte>)
    | OnStatus(op: nat, ok: bool, handle: U16)

  /** The await a handler stands at, with the local variables it still needs. */
  datatype Task =
    | AtServices(all: bool)
    | AtServicesByUuid
    | AtCharacteristics(all: bool, rest: seq<Service>)
    | AtInformation(start: U16)
    | AtByType(start: U16)
    | AtRead(handle: U16, part: bool)
    | AtWrite(handle: U16, response: bool)
    | AtConfigure(handle: U16, mode: Mode)

  /** A handler's output since it last waited, and where it waits now; `None` when it has returned. */
  datatype Progress = Progress(task: Option<Task>, out: seq<Out>, store: Store)

  // ---------------------------------------------------------------------------
  // The handlers.
  // ---------------------------------------------------------------------------

  /** The configuration handle `subscribe` writes: the remembered one, else the one after the value. */
  function CccdFor(store: Store, h: U16): U16 {
    if store == [] then (h + 1) % 0x1_0000
    else if store[0].handle == h then if store[0].cccd.Some? then store[0].cccd.value else (h + 1) % 0x1_0000
    else CccdFor(store[1..], h)
  }

  function ModeBytes(mode: Mode): seq<Byte> {
    match mode
    case Notifications => [0x01, 0x00]
    case Indications => [0x02, 0x00]
    case Off => [0x00, 0x00]
  }

  /** Pushes into the fixed-capacity store, which ignore that it is full. */
  function Remember(store: Store, chars: seq<Characteristic>): Store {
    if chars == [] then store
    else
      var before := Remember(store, chars[..|chars| - 1]);
      var c := chars[|chars| - 1];
      if |before| < STORE_CAP then before + [Known(c.handle, c.cccd)] else before
  }

  function Discovered(chars: seq<Characteristic>): seq<Out> {
    seq(|chars|, i requires 0 <= i < |chars| => OnDiscovered(chars[i]))
  }

  function Reported(services: seq<Service>): seq<Out> {
    seq(|services|, i requires 0 <= i < |services| => OnService(services[i]))
  }

  /** The head of the loop over services in `client_discover_all` and `client_discover`. */
  function NextService(all: bool, rest: seq<Service>, done: seq<Out>, store: Store): Progress {
    if rest == [] then Progress(None, done + [OnStatus(if all then 3 else 2, true, 0)], store)
    else
      var s := rest[0];
      Progress(Some(AtCharacteristics(all, rest[1..])),
               done + (if all then [OnService(s)] else []) + [Asked(GetCharacteristics(s))], store)
  }

  /** A handler from its start to its first await. */
  function Begin(plan: Plan, store: Store): Progress {
    match plan
    case ListServices => Progress(Some(AtServices(false)), [Asked(GetServices)], store)
    case ListAll => Progress(Some(AtServices(true)), [Asked(GetServices)], store)
    case ListCharacteristics(u) => Progress(Some(AtServicesByUuid), [Asked(GetServicesByUuid(u))], store)
    case ListDescriptors(s, e) =>
      if s == 0 || e < s then Progress(None, [OnStatus(4, false, s)], store)
      else Progress(Some(AtInformation(s)), [Asked(FindInformation(s, e))], store)
    case ReadTyped(s, e, u) => Progress(Some(AtByType(s)), [Asked(ReadByType(s, e, u))], store)
    case ReadValue(h) => Progress(Some(AtRead(h, false)), [Asked(ReadHandle(h))], store)
    case ReadPart(h, o) => Progress(Some(AtRead(h, true)), [Asked(ReadHandleBlob(h, o))], store)
    case WriteValue(h, d, response) => Progress(Some(AtWrite(h, response)), [Asked(WriteHandle(h, d, response))], store)
    case Configure(h, m) =>
      Progress(Some(AtConfigure(h, m)), [Asked(WriteHandle(CccdFor(store, h), ModeBytes(m), true))], store)
  }

  /** `services().await` has returned. */
  function ResumeServices(all: bool, r: Reply, store: Store): Progress {
    match r
    case Services(l) =>
      if all then NextService(true, l, [], store)
      else Progress(None, Reported(l) + [OnStatus(1, true, 0)], store)
    case Failed => Progress(None, [OnStatus(if all then 3 else 1, false, 0)], store)
    case _ => Progress(Some(AtServices(all)), [], store)
  }

  /** A streaming request has handed over an item, or returned. */
  function ResumeStream(t: Task, op: nat, start: U16, r: Reply, item: Out, store: Store): Progress {
    match r
    case Item(_, _) => Progress(Some(t), [item], store)
    case Done => Progress(None, [OnStatus(op, true, start)], store)
    case Failed => Progress(None, [OnStatus(op, false, start)], store)
    case _ => Progress(Some(t), [], store)
  }

  function Cut(data: seq<Byte>, n: nat): seq<Byte> { data[..Min(|data|, n)] }

  /** A handler from the await it stands at to the next; an answer to another kind of request changes nothing. */
  function Resume(t: Task, r: Reply, store: Store, valueLen: nat): Progress {
    match t
    case AtServices(all) => ResumeServices(all, r, store)
    case AtServicesByUuid =>
      if r.Services? then NextService(false, r.services, [], store)
      else if r.Failed? then Progress(None, [OnStatus(2, false, 0)], store)
      else Progress(Some(t), [], store)
    case AtCharacteristics(all, rest) =>
      if r.Characteristics? then NextService(all, rest, Discovered(r.chars), Remember(store, r.chars))
      else if r.Failed? then NextService(all, rest, [], store)
      else Progress(Some(t), [], store)
    case AtInformation(s) =>
      ResumeStream(t, 4, s, r, if r.Item? then OnDescriptor(r.handle, r.data) else OnDescriptor(0, []), store)
    case AtByType(s) =>
      ResumeStream(t, 11, s, r, if r.Item? then OnRead(r.handle, Cut(r.data, valueLen)) else OnRead(0, []), store)
    case AtRead(h, part) =>
      var op := if part then 6 else 5;
      if r.Value? then Progress(None, [OnRead(h, Cut(r.value, valueLen)), OnStatus(op, true, h)], store)
      else if r.Failed? then Progress(None, [OnStatus(op, false, h)], store)
      else Progress(Some(t), [], store)
    case AtWrite(h, response) =>
      if r.Done? || r.Failed? then Progress(None, [OnStatus(if response then 7 else 8, r.Done?, h)], store)
      else Progress(Some(t), [], store)
    case AtConfigure(h, m) =>
      var op := match m case Indications => 10 case Off => 12 case Notifications => 9;
      if r.Done? || r.Failed? then Progress(None, [OnStatus(op, r.Done?, h)], store)
      else Progress(Some(t), [], store)
  }

  /** An operation under a sequence of answers; answers after its end are not its own. */
  function Perform(plan: Plan, replies: seq<Reply>, store: Store, valueLen: nat): Progress {
    if replies == [] then Begin(plan, store)
    else
      var p := Perform(plan, replies[..|replies| - 1], store, valueLen);
      if p.task.None? then p
      else
        var q := Resume(p.task.value, replies[|replies| - 1], p.store, valueLen);
        Progress(q.task, p.out + q.out, q.store)
  }

  // ---------------------------------------------------------------------------
  // One status, and it comes last.
  // ---------------------------------------------------------------------------

  /** The operation code and the handle a waiting handler will report under. */
  function OpOfTask(t: Task): nat {
    match t
    case AtServices(all) => if all then 3 else 1
    case AtServicesByUuid => 2
    case AtCharacteristics(all, _) => if all then 3 else 2
    case AtInformation(_) => 4
    case AtByType(_) => 11
    case AtRead(_, part) => if part then 6 else 5
    case AtWrite(_, response) => if response then 7 else 8
    case AtConfigure(_, m) => match m case Indications => 10 case Off => 12 case Notifications => 9
  }

  function HandleOfTask(t: Task): U16 {
    match t
    case AtInformation(s) => s
    case AtByType(s) => s
    case AtRead(h, _) => h
    case AtWrite(h, _) => h
    case AtConfigure(h, _) => h
    case _ => 0
  }

  /** Waiting, no status is out; returned, one is, as the last thing, with this code and handle. */
  ghost predicate OneStatus(op: nat, handle: U16, p: Progress) {
    && (forall i :: 0 <= i < |p.out| && p.out[i].OnStatus? ==> p.task.None? && i == |p.out| - 1)
    && (p.task.None? ==>
          |p.out| > 0 && var last := p.out[|p.out| - 1]; last.OnStatus? && last.op == op && last.handle == handle)
    && (p.task.Some? ==> OpOfTask(p.task.value) == op && HandleOfTask(p.task.value) == handle)
  }

  lemma {:induction false} BeginOneStatus(plan: Plan, store: Store)
    ensures OneStatus(OpOf(plan), HandleOf(plan), Begin(plan, store))
  {
  }

  lemma {:induction false} NextOneStatus(all: bool, rest: seq<Service>, done: seq<Out>, store: Store)
    requires forall i :: 0 <= i < |done| ==> !done[i].OnStatus?
    ensures OneStatus(if all then 3 else 2, 0, NextService(all, rest, done, store))
  {
  }

  lemma {:induction false} ResumeOneStatus(t: Task, r: Reply, store: Store, valueLen: nat)
    ensures OneStatus(OpOfTask(t), HandleOfTask(t), Resume(t, r, store, valueLen))
  {
    match t
    case AtServices(_) => if r.Services? { NextOneStatus(true, r.services, [], store); }
    case AtServicesByUuid => if r.Services? { NextOneStatus(false, r.services, [], store); }
    case AtCharacteristics(all, rest) =>
      if r.Characteristics? {
        NextOneStatus(all, rest, Discovered(r.chars), Remember(store, r.chars));
      } else {
        NextOneStatus(all, rest, [], store);
      }
    case AtInformation(_) =>
    case AtByType(_) =>
    case AtRead(_, _) =>
    case AtWrite(_, _) =>
    case AtConfigure(_, _) =>
  }

  /**
   For every operation and any answers, with any number of services: an operation that has returned
   has reported exactly one status, last of all, under its own code and handle; one cut off has
   reported none.
   */
  lemma {:induction false} PerformOneStatus(plan: Plan, replies: seq<Reply>, store: Store, valueLen: nat)
    ensures OneStatus(OpOf(plan), HandleOf(plan), Perform(plan, replies, store, valueLen))
  {
    if replies == [] {
      BeginOneStatus(plan, store);
    } else {
      var front, r := replies[..|replies| - 1], replies[|replies| - 1];
      PerformOneStatus(plan, front, store, valueLen);
      var p := Perform(plan, front, store, valueLen);
      if p.task.Some? {
        ResumeOneStatus(p.task.value, r, p.store, valueLen);
      }
    }
  }

  // ---------------------------------------------------------------------------
  // What discovery reports.
  // ---------------------------------------------------------------------------

  predicate AnswersChars(r: Reply) { r.Characteristics? || r.Failed? }

  /** Service by service: its report, the request for its characteristics, and theirs if it is answered. */
  function Listing(all: bool, services: seq<Service>, answers: seq<Reply>): seq<Out>
    requires |answers| == |services|
  {
    if services == [] then []
    else
      var n := |services| - 1;
      Listing(all, services[..n], answers[..n])
      + (if all then [OnService(services[n])] else []) + [Asked(GetCharacteristics(services[n]))]
      + (if answers[n].Characteristics? then CharReports(answers[n].chars) else [])
  }

  /** One report for each characteristic answered, in order. */
  function CharReports(chars: seq<Characteristic>): seq<Out> {
    if chars == [] then [] else CharReports(chars[..|chars| - 1]) + [OnDiscovered(chars[|chars| - 1])]
  }

  lemma {:induction false} DiscoveredIsReports(chars: seq<Characteristic>)
    ensures Discovered(chars) == CharReports(chars)
  {
    if chars != [] {
      DiscoveredIsReports(chars[..|chars| - 1]);
    }
  }

  function Remembered(store: Store, answers: seq<Reply>): Store {
    if answers == [] then store
    else
      var r := answers[|answers| - 1];
      var before := Remembered(store, answers[..|answers| - 1]);
      if r.Characteristics? then Remember(before, r.chars) else before
  }

  /** What the loop has put out when it comes to service `k`, and what it puts out there. */
  ghost predicate InLoop(p: Progress, all: bool, services: seq<Service>, answers: seq<Reply>, first: Out, store: Store)
    requires |answers| <= |services|
  {
    var k := |answers|;
    p == NextService(all, services[k..], [first] + Listing(all, services[..k], answers), Remembered(store, answers))
  }

  lemma {:induction false} ListingStep(all: bool, services: seq<Service>, answers: seq<Reply>)
    requires 0 < |answers| <= |services|
    ensures var k := |answers| - 1;
            Listing(all, services[..k + 1], answers)
            == Listing(all, services[..k], answers[..k])
               + (if all then [OnService(services[k])] else []) + [Asked(GetCharacteristics(services[k]))]
               + (if answers[k].Characteristics? then CharReports(answers[k].chars) else [])
  {
    assert services[..|answers|][..|answers| - 1] == services[..|answers| - 1];
  }

  /** The loop's output only grows at its end. */
  lemma {:induction false} NextAfter(all: bool, rest: seq<Service>, before: seq<Out>, done: seq<Out>, store: Store)
    ensures var q := NextService(all, rest, done, store);
            Progress(q.task, before + q.out, q.store) == NextService(all, rest, before + done, store)
  {
  }

  /** One turn of the loop: the characteristics of one service are answered. */
  lemma {:induction false} LoopTurn(all: bool, rest: seq<Service>, done: seq<Out>, r: Reply, store: Store,
                                    valueLen: nat)
    requires rest != [] && AnswersChars(r)
    ensures var p := NextService(all, rest, done, store);
            && p.task.Some?
            && var q := Resume(p.task.value, r, p.store, valueLen);
               Progress(q.task, p.out + q.out, q.store)
               == NextService(all, rest[1..],
                              done + (if all then [OnService(rest[0])] else []) + [Asked(GetCharacteristics(rest[0]))]
                              + (if r.Characteristics? then Discovered(r.chars) else []),
                              if r.Characteristics? then Remember(store, r.chars) else store)
  {
    var p := NextService(all, rest, done, store);
    NextAfter(all, rest[1..], p.out, if r.Characteristics? then Discovered(r.chars) else [],
              if r.Characteristics? then Remember(store, r.chars) else store);
  }

  lemma {:induction false} LoopStep(p: Progress, all: bool, services: seq<Service>, answers: seq<Reply>, first: Out,
                                    store: Store, valueLen: nat)
    requires 0 < |answers| <= |services| && AnswersChars(answers[|answers| - 1])
    requires InLoop(p, all, services, answers[..|answers| - 1], first, store)
    ensures p.task.Some?
    ensures var q := Resume(p.task.value, answers[|answers| - 1], p.store, valueLen);
            InLoop(Progress(q.task, p.out + q.out, q.store), all, services, answers, first, store)
  {
    var k := |answers| - 1;
    var rest, front := services[k..], answers[..k];
    assert rest[0] == services[k] && rest[1..] == services[k + 1..];
    LoopTurn(all, rest, [first] + Listing(all, services[..k], front), answers[k], Remembered(store, front), valueLen);
    ListingStep(all, services, answers);
    if answers[k].Characteristics? { DiscoveredIsReports(answers[k].chars); }
    ConcatAssoc([first], Listing(all, services[..k], front), if all then [OnService(rest[0])] else [],
                [Asked(GetCharacteristics(rest[0]))],
                if answers[k].Characteristics? then Discovered(answers[k].chars) else []);
  }

  lemma {:induction false} ConcatAssoc(a: seq<Out>, b: seq<Out>, c: seq<Out>, d: seq<Out>, e: seq<Out>)
    ensures (a + b) + c + d + e == a + (b + c + d + e)
  {
  }

  lemma {:induction false} LoopRuns(plan: Plan, services: seq<Service>, answers: seq<Reply>, store: Store,
                                    valueLen: nat)
    requires plan.ListAll? || plan.ListCharacteristics?
    requires |answers| <= |services| && forall i :: 0 <= i < |answers| ==> AnswersChars(answers[i])
    ensures InLoop(Perform(plan, [Services(services)] + answers, store, valueLen),
                   plan.ListAll?, services, answers, Begin(plan, store).out[0], store)
  {
    var first := Begin(plan, store).out[0];
    if answers == [] {
      assert [Services(services)] + [] == [Services(services)];
      PerformOne(plan, Services(services), store, valueLen);
      assert services[0..] == services && [first] + [] == [first];
      FirstTurn(plan, services, store, valueLen);
    } else {
      var front, last := answers[..|answers| - 1], answers[|answers| - 1];
      LoopRuns(plan, services, front, store, valueLen);
      OneMoreAnswer([Services(services)], answers);
      var p := Perform(plan, [Services(services)] + front, store, valueLen);
      LoopStep(p, plan.ListAll?, services, answers, first, store, valueLen);
      PerformMore(plan, [Services(services)] + front, last, store, valueLen);
    }
  }

  lemma {:induction false} OneMoreAnswer(first: seq<Reply>, answers: seq<Reply>)
    requires answers != []
    ensures first + answers == first + answers[..|answers| - 1] + [answers[|answers| - 1]]
  {
  }

  lemma {:induction false} PerformMore(plan: Plan, replies: seq<Reply>, r: Reply, store: Store, valueLen: nat)
    ensures var p := Perform(plan, replies, store, valueLen);
            p.task.Some? ==>
              var q := Resume(p.task.value, r, p.store, valueLen);
              Perform(plan, replies + [r], store, valueLen) == Progress(q.task, p.out + q.out, q.store)
  {
    assert (replies + [r])[..|replies|] == replies;
  }

  lemma {:induction false} PerformOne(plan: Plan, r: Reply, store: Store, valueLen: nat)
    ensures var p := Begin(plan, store);
            p.task.Some? ==>
              var q := Resume(p.task.value, r, p.store, valueLen);
              Perform(plan, [r], store, valueLen) == Progress(q.task, p.out + q.out, q.store)
  {
    assert [] + [r] == [r];
    PerformMore(plan, [], r, store, valueLen);
  }

  lemma {:induction false} FirstTurn(plan: Plan, services: seq<Service>, store: Store, valueLen: nat)
    requires plan.ListAll? || plan.ListCharacteristics?
    ensures var p := Begin(plan, store);
            && |p.out| == 1 && p.task.Some? && p.store == store
            && var q := Resume(p.task.value, Services(services), store, valueLen);
               Progress(q.task, p.out + q.out, q.store) == NextService(plan.ListAll?, services, p.out, store)
  {
  }

  /**
   Discovery over any number of services, whichever of the later requests fail: every service is
   gone through in order, what is reported and remembered is exactly what was answered, and the
   status is OK. So a status OK does not say that the characteristics were found.
   */
  lemma {:induction false} DiscoveryReports(plan: Plan, services: seq<Service>, answers: seq<Reply>, store: Store,
                                            valueLen: nat)
    requires plan.ListAll? || plan.ListCharacteristics?
    requires |answers| == |services| && forall i :: 0 <= i < |answers| ==> AnswersChars(answers[i])
    ensures Perform(plan, [Services(services)] + answers, store, valueLen)
         == Progress(None,
                     [Asked(if plan.ListAll? then GetServices else GetServicesByUuid(plan.uuid))]
                     + Listing(plan.ListAll?, services, answers)
                     + [OnStatus(if plan.ListAll? then 3 else 2, true, 0)],
                     Remembered(store, answers))
  {
    LoopRuns(plan, services, answers, store, valueLen);
    assert services[|services|..] == [] && services[..|services|] == services;
  }

  // ---------------------------------------------------------------------------
  // What a streaming request reports.
  // ---------------------------------------------------------------------------

  predicate Streams(plan: Plan) { plan.ReadTyped? || (plan.ListDescriptors? && 0 < plan.start <= plan.end) }

  function ItemOut(plan: Plan, r: Reply, valueLen: nat): Out
    requires r.Item?
  {
    if plan.ReadTyped? then OnRead(r.handle, r.data[..Min(|r.data|, valueLen)]) else OnDescriptor(r.handle, r.data)
  }

  function ItemsOut(plan: Plan, items: seq<Reply>, valueLen: nat): seq<Out>
    requires forall i :: 0 <= i < |items| ==> items[i].Item?
  {
    seq(|items|, i requires 0 <= i < |items| => ItemOut(plan, items[i], valueLen))
  }

  lemma {:induction false} StreamRuns(plan: Plan, items: seq<Reply>, store: Store, valueLen: nat)
    requires Streams(plan) && forall i :: 0 <= i < |items| ==> items[i].Item?
    ensures Perform(plan, items, store, valueLen)
         == Progress(Begin(plan, store).task, Begin(plan, store).out + ItemsOut(plan, items, valueLen), store)
    ensures Begin(plan, store).task
         == Some(if plan.ReadTyped? then AtByType(plan.start) else AtInformation(plan.start))
  {
    if items == [] {
      assert Begin(plan, store).out + ItemsOut(plan, items, valueLen) == Begin(plan, store).out;
    } else {
      var front, last := items[..|items| - 1], items[|items| - 1];
      StreamRuns(plan, front, store, valueLen);
      assert ItemsOut(plan, items, valueLen) == ItemsOut(plan, front, valueLen) + [ItemOut(plan, last, valueLen)];
    }
  }

  /** Every item handed over is reported, in order, and the status says whether the request succeeded. */
  lemma {:induction false} StreamReports(plan: Plan, items: seq<Reply>, end: Reply, store: Store, valueLen: nat)
    requires Streams(plan) && (end.Done? || end.Failed?) && forall i :: 0 <= i < |items| ==> items[i].Item?
    ensures Perform(plan, items + [end], store, valueLen)
         == Progress(None,
                     [Asked(if plan.ReadTyped? then ReadByType(plan.start, plan.end, plan.uuid)
                            else FindInformation(plan.start, plan.end))]
                     + ItemsOut(plan, items, valueLen)
                     + [OnStatus(if plan.ReadTyped? then 11 else 4, end.Done?, plan.start)],
                     store)
  {
    assert (items + [end])[..|items|] == items;
    StreamRuns(plan, items, store, valueLen);
  }

  // ---------------------------------------------------------------------------
  // The whole output of the operations with a single answer.
  // ---------------------------------------------------------------------------

  /** A read hands over the bytes, up to the value length, and then says so; a failed one hands over nothing. */
  lemma {:induction false} ReadReports(h: U16, offset: U16, v: seq<Byte>, store: Store, valueLen: nat)
    ensures var data := v[..Min(|v|, valueLen)];
            && Perform(ReadValue(h), [Value(v)], store, valueLen)
               == Progress(None, [Asked(ReadHandle(h)), OnRead(h, data), OnStatus(5, true, h)], store)
            && Perform(ReadPart(h, offset), [Value(v)], store, valueLen)
               == Progress(None, [Asked(ReadHandleBlob(h, offset)), OnRead(h, data), OnStatus(6, true, h)], store)
    ensures Perform(ReadValue(h), [Failed], store, valueLen)
         == Progress(None, [Asked(ReadHandle(h)), OnStatus(5, false, h)], store)
    ensures Perform(ReadPart(h, offset), [Failed], store, valueLen)
         == Progress(None, [Asked(ReadHandleBlob(h, offset)), OnStatus(6, false, h)], store)
  {
    PerformOne(ReadValue(h), Value(v), store, valueLen);
    PerformOne(ReadPart(h, offset), Value(v), store, valueLen);
    PerformOne(ReadValue(h), Failed, store, valueLen);
    PerformOne(ReadPart(h, offset), Failed, store, valueLen);
  }

  lemma {:induction false} WriteReports(h: U16, data: seq<Byte>, end: Reply, store: Store, valueLen: nat)
    requires end.Done? || end.Failed?
    ensures Perform(WriteValue(h, data, true), [end], store, valueLen)
         == Progress(None, [Asked(WriteHandle(h, data, true)), OnStatus(7, end == Done, h)], store)
    ensures Perform(WriteValue(h, data, false), [end], store, valueLen)
         == Progress(None, [Asked(WriteHandle(h, data, false)), OnStatus(8, end == Done, h)], store)
  {
    PerformOne(WriteValue(h, data, true), end, store, valueLen);
    PerformOne(WriteValue(h, data, false), end, store, valueLen);
  }

  /** Subscribing writes 1, 2 or 0, low byte first, to the configuration handle, and reports under the value's. */
  lemma {:induction false} SubscribeReports(h: U16, end: Reply, store: Store, valueLen: nat)
    requires end.Done? || end.Failed?
    ensures var x := CccdFor(store, h);
            && Perform(Configure(h, Notifications), [end], store, valueLen)
               == Progress(None, [Asked(WriteHandle(x, [1, 0], true)), OnStatus(9, end == Done, h)], store)
            && Perform(Configure(h, Indications), [end], store, valueLen)
               == Progress(None, [Asked(WriteHandle(x, [2, 0], true)), OnStatus(10, end == Done, h)], store)
            && Perform(Configure(h, Off), [end], store, valueLen)
               == Progress(None, [Asked(WriteHandle(x, [0, 0], true)), OnStatus(12, end == Done, h)], store)
  {
    PerformOne(Configure(h, Notifications), end, store, valueLen);
    PerformOne(Configure(h, Indications), end, store, valueLen);
    PerformOne(Configure(h, Off), end, store, valueLen);
  }

  /** Listing services reports each of them, in order, and nothing else. */
  lemma {:induction false} ServicesReports(services: seq<Service>, store: Store, valueLen: nat)
    ensures var p := Perform(ListServices, [Services(services)], store, valueLen);
            && p.task.None? && p.store == store && |p.out| == |services| + 2
            && p.out[0] == Asked(GetServices)
            && (forall i :: 0 <= i < |services| ==> p.out[i + 1] == OnService(services[i]))
            && p.out[|services| + 1] == OnStatus(1, true, 0)
  {
    PerformOne(ListServices, Services(services), store, valueLen);
  }

  /** If the first request of a discovery fails, that is all there is; the same for an empty range, unasked. */
  lemma {:induction false} DiscoveryFails(u: Uuid, s: U16, e: U16, store: Store, valueLen: nat)
    ensures Perform(ListServices, [Failed], store, valueLen)
         == Progress(None, [Asked(GetServices), OnStatus(1, false, 0)], store)
    ensures Perform(ListCharacteristics(u), [Failed], store, valueLen)
         == Progress(None, [Asked(GetServicesByUuid(u)), OnStatus(2, false, 0)], store)
    ensures Perform(ListAll, [Failed], store, valueLen)
         == Progress(None, [Asked(GetServices), OnStatus(3, false, 0)], store)
    ensures s == 0 || e < s ==> Perform(ListDescriptors(s, e), [], store, valueLen)
                                == Progress(None, [OnStatus(4, false, s)], store)
  {
    PerformOne(ListServices, Failed, store, valueLen);
    PerformOne(ListCharacteristics(u), Failed, store, valueLen);
    PerformOne(ListAll, Failed, store, valueLen);
  }

  /** Discovering a 16-bit UUID asks the peer for that UUID, whose bytes the caller gave low byte first. */
  lemma {:induction false} DiscoverAsksFor(x: U16, store: Store, valueLen: nat)
    ensures var act := Intent(Discover([x % 0x100, x / 0x100]), valueLen);
            act.Operate? && Begin(act.plan, store).out == [Asked(GetServicesByUuid(Short(x)))]
  {
    ShortUuidIsLittleEndian(x, []);
  }

  /** No accepted call is turned down by its handler: each asks the peer for something. */
  lemma {:induction false} AcceptedCallsAsk(c: CentralCall, store: Store, valueLen: nat)
    requires ValidCall(c) && Intent(c, valueLen).Operate?
    ensures var p := Begin(Intent(c, valueLen).plan, store);
            p.task.Some? && |p.out| == 1 && p.out[0].Asked?
  {
  }

  // ---------------------------------------------------------------------------
  // What a subscription writes.
  // ---------------------------------------------------------------------------

  function Knowns(chars: seq<Characteristic>): Store {
    seq(|chars|, i requires 0 <= i < |chars| => Known(chars[i].handle, chars[i].cccd))
  }

  /** The characteristics that answers bring, over all services and any number of discoveries. */
  function Found(answers: seq<Reply>): seq<Characteristic> {
    if answers == [] then []
    else
      var r := answers[|answers| - 1];
      Found(answers[..|answers| - 1]) + (if r.Characteristics? then r.chars else [])
  }

  function Capped(all: Store): Store { all[..Min(|all|, STORE_CAP)] }

  lemma {:induction false} RememberCaps(store: Store, chars: seq<Characteristic>)
    requires |store| <= STORE_CAP
    ensures Remember(store, chars) == Capped(store + Knowns(chars))
  {
    if chars == [] {
      assert store + Knowns(chars) == store;
    } else {
      var front, c := chars[..|chars| - 1], chars[|chars| - 1];
      RememberCaps(store, front);
      assert store + Knowns(chars) == store + Knowns(front) + [Known(c.handle, c.cccd)];
    }
  }

  /** What is remembered is what was found, up to the capacity: the later ones are forgotten. */
  lemma {:induction false} RememberedCaps(store: Store, answers: seq<Reply>)
    requires |store| <= STORE_CAP
    ensures Remembered(store, answers) == Capped(store + Knowns(Found(answers)))
  {
    if answers == [] {
      assert store + Knowns([]) == store;
    } else {
      var front, r := answers[..|answers| - 1], answers[|answers| - 1];
      RememberedCaps(store, front);
      if r.Characteristics? {
        RememberCaps(Capped(store + Knowns(Found(front))), r.chars);
        CapTwice(store + Knowns(Found(front)), Knowns(r.chars));
        assert Knowns(Found(answers)) == Knowns(Found(front)) + Knowns(r.chars);
        assert store + Knowns(Found(answers)) == store + Knowns(Found(front)) + Knowns(r.chars);
      } else {
        assert Found(answers) == Found(front);
      }
    }
  }

  /** No handler remembers more than the capacity. */
  lemma {:induction false} ResumeFits(t: Task, r: Reply, store: Store, valueLen: nat)
    requires |store| <= STORE_CAP
    ensures |Resume(t, r, store, valueLen).store| <= STORE_CAP
  {
    if r.Characteristics? { RememberCaps(store, r.chars); }
  }

  lemma {:induction false} CapTwice(a: Store, b: Store)
    ensures Capped(Capped(a) + b) == Capped(a + b)
  {
  }

  lemma {:induction false} CccdForFirst(store: Store, k: nat)
    requires k < |store| && forall i :: 0 <= i < k ==> store[i].handle != store[k].handle
    ensures CccdFor(store, store[k].handle)
         == if store[k].cccd.Some? then store[k].cccd.value else (store[k].handle + 1) % 0x1_0000
  {
    if k > 0 {
      assert store[1..][k - 1] == store[k];
      CccdForFirst(store[1..], k - 1);
    }
  }

  lemma {:induction false} CccdForUnknown(store: Store, h: U16)
    requires forall i :: 0 <= i < |store| ==> store[i].handle != h
    ensures CccdFor(store, h) == (h + 1) % 0x1_0000
  {
    if store != [] {
      CccdForUnknown(store[1..], h);
    }
  }

  /**
   After any discoveries, over any number of services and from whatever was remembered before: a
   subscription to a characteristic, at its first place `k` among all that were found, writes the
   configuration handle that came with it if `k` is below the capacity, and else, or when none came
   with it, the handle after the value.
   */
  lemma {:induction false} SubscribeWrites(store: Store, answers: seq<Reply>, k: nat, mode: Mode)
    requires |store| <= STORE_CAP && k < |store + Knowns(Found(answers))|
    requires var all := store + Knowns(Found(answers)); forall i :: 0 <= i < k ==> all[i].handle != all[k].handle
    ensures var c := (store + Knowns(Found(answers)))[k];
            var target := if k < STORE_CAP && c.cccd.Some? then c.cccd.value else (c.handle + 1) % 0x1_0000;
            Begin(Configure(c.handle, mode), Remembered(store, answers)).out
            == [Asked(WriteHandle(target, ModeBytes(mode), true))]
  {
    var all := store + Knowns(Found(answers));
    RememberedCaps(store, answers);
    if k < STORE_CAP {
      CccdForFirst(Capped(all), k);
    } else {
      CccdForUnknown(Capped(all), all[k].handle);
    }
  }

  /**
   So the configuration handle that came with a characteristic is the one written exactly if the
   characteristic is among the first 32 found, or that handle happens to follow the value.
   */
  lemma {:induction false} SubscribeAfterDiscovery(store: Store, answers: seq<Reply>, k: nat, mode: Mode)
    requires |store| <= STORE_CAP && k < |store + Knowns(Found(answers))|
    requires var all := store + Knowns(Found(answers));
             all[k].cccd.Some? && forall i :: 0 <= i < k ==> all[i].handle != all[k].handle
    ensures var c := (store + Knowns(Found(answers)))[k];
            Begin(Configure(c.handle, mode), Remembered(store, answers)).out
            == [Asked(WriteHandle(c.cccd.value, ModeBytes(mode), true))]
            <==> k < 32 || c.cccd.value == (c.handle + 1) % 0x1_0000
  {
    SubscribeWrites(store, answers, k, mode);
  }

  /** Characteristics of two attributes and a descriptor each, the configuration handle last. */
  function Spread(n: nat): seq<Characteristic>
    requires n <= 0x4000
  {
    seq(n, i requires 0 <= i < n => Characteristic(3 * i + 1, Some(3 * i + 3), [0, 0], 0x10))
  }

  /** The 33rd characteristic found is forgotten: two services are enough, and the write goes to the wrong handle. */
  lemma {:induction false} ForgottenCccdWitness()
    ensures var answers := [Characteristics(Spread(33)[..20]), Characteristics(Spread(33)[20..])];
            && Found(answers)[32] == Characteristic(97, Some(99), [0, 0], 0x10)
            && Begin(Configure(97, Notifications), Remembered([], answers)).out
               == [Asked(WriteHandle(98, [0x01, 0x00], true))]
  {
    var all := Spread(33);
    FoundTwice(all[..20], all[20..]);
    assert all[..20] + all[20..] == all;
    assert [] + Knowns(all) == Knowns(all);
    SubscribeWrites([], [Characteristics(all[..20]), Characteristics(all[20..])], 32, Notifications);
  }

  lemma {:induction false} FoundTwice(a: seq<Characteristic>, b: seq<Characteristic>)
    ensures Found([Characteristics(a), Characteristics(b)]) == a + b
  {
    var answers := [Characteristics(a), Characteristics(b)];
    assert answers[..1] == [Characteristics(a)] && [Characteristics(a)][..0] == [];
    assert Found([Characteristics(a)]) == [] + a;
  }
}
