/**
 The two payload slots between application threads and the BLE thread, as interleaved
 single loads, stores and byte copies: the TX slot (`queue_tx` against the tx pump of
 `connection_task`) and the L2CAP slot (`runtime_ble_l2cap_send` against the send pump of
 `l2cap_serve`). Both copy the payload out before they lower the request flag.

 The model is sequentially consistent; the Acquire/Release pairs on the request flag order
 everything the other side reads.
 */
module Mailbox {
  import opened Common

  const BUF_CAP := 512

  /** Which slot. The L2CAP slot has no target or kind, and a disconnect flag the TX slot lacks. */
  datatype Wiring = Tx | L2cap

  datatype Request = Request(chr: nat, kind: nat, data: seq<Byte>)

  /** A producer inside `queue_tx`/`l2cap_send`, or inside `central_write`, which shares the TX buffer. */
  datatype Producer =
    | Ready
    | Copying(r: Request, done: nat)
    | PutChr(r: Request)
    | PutKind(r: Request)
    | PutLen(r: Request)
    | Raise(r: Request)
    | ClientCopying(data: seq<Byte>, done: nat)
    | ClientLen(data: seq<Byte>)

  /** The BLE thread: `Resting` is also every await, a cancelled pump and an unloaded runtime. */
  datatype Pump =
    | Resting
    | Restarting
    | Closing
    | Polling
    | GetChr
    | GetKind(chr: nat)
    | GetLen(chr: nat, kind: nat)
    | Fetching(chr: nat, kind: nat, len: nat, got: seq<Byte>)

  /** What happened, in order. `Wipe` is a flag lowered without reading the request. */
  datatype Event = Accept(r: Request) | Take(r: Request) | Wipe | SawDisconnect

  datatype State = State(
    wiring: Wiring,
    valueLen: nat,
    req: bool, disconnect: bool,
    chr: nat, kind: nat, len: nat, buf: seq<Byte>,
    producers: seq<Producer>,
    pump: Pump,
    log: seq<Event>)

  /** `Run` is one step of the BLE thread; `Restart` is a session or channel starting. */
  datatype Step =
    | Call(p: nat, r: Request)
    | ClientWrite(p: nat, data: seq<Byte>)
    | Advance(p: nat)
    | Disconnect
    | Restart
    | Run

  function Init(wiring: Wiring, valueLen: nat, producers: nat): State {
    State(wiring, valueLen, false, false, 0, 0, 0, seq(BUF_CAP, _ => 0),
          seq(producers, _ => Ready), Resting, [])
  }

  /** The arguments the entry points accept. */
  predicate Valid(w: Wiring, r: Request) {
    0 < |r.data| <= BUF_CAP && (w.L2cap? ==> r.chr == 0 && r.kind == 0)
  }

  /** The part of a request the pump sends on. */
  function Image(r: Request, valueLen: nat): Request {
    r.(data := r.data[..Min(|r.data|, valueLen)])
  }

  function SetProducer(s: State, p: nat, pc: Producer): State
    requires p < |s.producers|
  {
    s.(producers := s.producers[p := pc])
  }

  function AdvanceProducer(s: State, p: nat): State
    requires p < |s.producers| && |s.buf| == BUF_CAP
  {
    match s.producers[p]
    case Ready => s
    case Copying(r, i) =>
      if i < |r.data| && i < BUF_CAP then
        SetProducer(s.(buf := s.buf[i := r.data[i]]), p, Copying(r, i + 1))
      else SetProducer(s, p, if s.wiring.Tx? then PutChr(r) else PutLen(r))
    case PutChr(r) => SetProducer(s.(chr := r.chr), p, PutKind(r))
    case PutKind(r) => SetProducer(s.(kind := r.kind), p, PutLen(r))
    case PutLen(r) => SetProducer(s.(len := |r.data|), p, Raise(r))
    case Raise(r) => SetProducer(s.(req := true, log := s.log + [Accept(r)]), p, Ready)
    case ClientCopying(d, i) =>
      if i < |d| && i < BUF_CAP then
        SetProducer(s.(buf := s.buf[i := d[i]]), p, ClientCopying(d, i + 1))
      else SetProducer(s, p, ClientLen(d))
    case ClientLen(d) => SetProducer(s.(len := |d|), p, Ready)
  }

  /** The flag test both pumps start a transfer with. */
  function Poll(s: State): State {
    if !s.req then s.(pump := Resting)
    else s.(pump := if s.wiring.Tx? then GetChr else GetLen(0, 0))
  }

  function AdvancePump(s: State): State
    requires |s.buf| == BUF_CAP
  {
    match s.pump
    case Resting =>
      if s.wiring.Tx? then Poll(s)
      else if s.disconnect then s.(disconnect := false, pump := Closing, log := s.log + [SawDisconnect])
      else s.(pump := Polling)
    case Restarting => s.(disconnect := false, pump := Resting)
    case Closing => s.(req := false, pump := Polling, log := s.log + [Wipe])
    case Polling => Poll(s)
    case GetChr => s.(pump := GetKind(s.chr))
    case GetKind(c) => s.(pump := GetLen(c, s.kind))
    case GetLen(c, k) => s.(pump := Fetching(c, k, Min(Min(s.len, s.valueLen), BUF_CAP), []))
    case Fetching(c, k, n, got) =>
      if |got| < n && |got| < BUF_CAP then s.(pump := Fetching(c, k, n, got + [s.buf[|got|]]))
      else s.(req := false, pump := Resting, log := s.log + [Take(Request(c, k, got))])
  }

  function Apply(s: State, step: Step): (t: State)
    requires |s.buf| == BUF_CAP
    ensures |t.buf| == BUF_CAP && |t.producers| == |s.producers|
    ensures t.wiring == s.wiring && t.valueLen == s.valueLen
  {
    match step
    case Call(p, r) =>
      if p < |s.producers| && s.producers[p].Ready? && Valid(s.wiring, r) && !s.req
      then SetProducer(s, p, Copying(r, 0)) else s
    case ClientWrite(p, d) =>
      if p < |s.producers| && s.producers[p].Ready? && 0 < |d| <= BUF_CAP && s.wiring.Tx?
      then SetProducer(s, p, ClientCopying(d, 0)) else s
    case Advance(p) => if p < |s.producers| then AdvanceProducer(s, p) else s
    case Disconnect => if s.wiring.L2cap? then s.(disconnect := true) else s
    case Restart =>
      if s.pump.Resting?
      then s.(req := false, pump := if s.wiring.Tx? then Resting else Restarting, log := s.log + [Wipe])
      else s
    case Run => AdvancePump(s)
  }

  function RunAll(s: State, steps: seq<Step>): (t: State)
    requires |s.buf| == BUF_CAP
    ensures |t.buf| == BUF_CAP && |t.producers| == |s.producers|
    ensures t.wiring == s.wiring && t.valueLen == s.valueLen
  {
    if steps == [] then s
    else Apply(RunAll(s, steps[..|steps| - 1]), steps[|steps| - 1])
  }

  // ---------------------------------------------------------------------------
  // The simple object: a one-place slot with atomic operations.
  // ---------------------------------------------------------------------------

  datatype Slot = Slot(pending: Option<Request>, closing: bool)

  /** One atomic operation; `None` where the slot does not allow it. */
  function Next(slot: Slot, e: Event, valueLen: nat): Option<Slot> {
    match e
    case Accept(r) => if slot.pending.None? then Some(slot.(pending := Some(r))) else None
    case Take(r) =>
      if slot.pending.Some? && !slot.closing && r == Image(slot.pending.value, valueLen)
      then Some(slot.(pending := None)) else None
    case Wipe => Some(Slot(None, false))
    case SawDisconnect => Some(slot.(closing := true))
  }

  /** The slot after a log, if every operation in it was allowed. */
  function Replay(log: seq<Event>, valueLen: nat): Option<Slot> {
    if log == [] then Some(Slot(None, false))
    else
      var before := Replay(log[..|log| - 1], valueLen);
      if before.None? then None else Next(before.value, log[|log| - 1], valueLen)
  }

  lemma {:induction false} ReplayAppend(log: seq<Event>, e: Event, valueLen: nat)
    requires Replay(log, valueLen).Some?
    ensures Replay(log + [e], valueLen) == Next(Replay(log, valueLen).value, e, valueLen)
  {
    assert (log + [e])[..|log|] == log;
  }

  /** What a producer has established at each point of a call. */
  ghost predicate ProducerOk(s: State, pc: Producer)
    requires |s.buf| == BUF_CAP
  {
    match pc
    case Ready => true
    case Copying(r, i) => Valid(s.wiring, r) && !s.req && i <= |r.data| && s.buf[..i] == r.data[..i]
    case PutChr(r) => s.wiring.Tx? && Valid(s.wiring, r) && !s.req && s.buf[..|r.data|] == r.data
    case PutKind(r) => s.wiring.Tx? && Valid(s.wiring, r) && !s.req && s.buf[..|r.data|] == r.data && s.chr == r.chr
    case PutLen(r) =>
      && Valid(s.wiring, r) && !s.req && s.buf[..|r.data|] == r.data
      && (s.wiring.Tx? ==> s.chr == r.chr && s.kind == r.kind)
    case Raise(r) =>
      && Valid(s.wiring, r) && !s.req && s.buf[..|r.data|] == r.data && s.len == |r.data|
      && (s.wiring.Tx? ==> s.chr == r.chr && s.kind == r.kind)
    case ClientCopying(_, _) => !s.req
    case ClientLen(_) => !s.req
  }

  /** What the shared words say about a pending request. */
  ghost predicate Published(s: State, r: Request)
    requires |s.buf| == BUF_CAP
  {
    && Valid(s.wiring, r) && s.len == |r.data| && s.buf[..|r.data|] == r.data
    && (s.wiring.Tx? ==> s.chr == r.chr && s.kind == r.kind)
  }

  /** What the pump has read so far of the pending request. */
  ghost predicate PumpOk(s: State, r: Request) {
    match s.pump
    case Resting => true
    case Restarting => true
    case Closing => true
    case Polling => true
    case GetChr => s.wiring.Tx?
    case GetKind(c) => s.wiring.Tx? && c == r.chr
    case GetLen(c, k) => c == r.chr && k == r.kind
    case Fetching(c, k, n, got) =>
      && c == r.chr && k == r.kind && n == Min(|r.data|, s.valueLen)
      && |got| <= n && got == r.data[..|got|]
  }

  predicate Reading(pump: Pump) {
    pump.GetChr? || pump.GetKind? || pump.GetLen? || pump.Fetching?
  }

  /** No producer but this one is inside a call. */
  ghost predicate Alone(s: State, p: nat) {
    forall q :: 0 <= q < |s.producers| && q != p ==> s.producers[q].Ready?
  }

  /** At most one producer is inside a call, and what it has established there holds. */
  ghost predicate OneBusy(s: State)
    requires |s.buf| == BUF_CAP
  {
    forall p :: 0 <= p < |s.producers| && !s.producers[p].Ready? ==> Alone(s, p) && ProducerOk(s, s.producers[p])
  }

  /** The shared words, the producers and the pump agree with the state of the simple slot. */
  ghost predicate Sync(s: State, slot: Slot) {
    && |s.buf| == BUF_CAP
    && OneBusy(s)
    && slot.closing == s.pump.Closing?
    && s.req == slot.pending.Some?
    && (slot.pending.Some? ==> Published(s, slot.pending.value) && PumpOk(s, slot.pending.value))
    && (Reading(s.pump) ==> s.req)
  }

  /** A step logs nothing and keeps the slot, or logs one operation that the slot allows. */
  ghost predicate Simulates(s: State, slot: Slot, t: State) {
    || (t.log == s.log && Sync(t, slot))
    || (t.log != [] && t.log == s.log + [t.log[|t.log| - 1]]
        && Next(slot, t.log[|t.log| - 1], s.valueLen).Some?
        && Sync(t, Next(slot, t.log[|t.log| - 1], s.valueLen).value))
  }

  /** A step of the one producer inside a call leaves the others where they are. */
  lemma {:induction false} OneBusyKept(s: State, t: State, p: nat)
    requires |s.buf| == BUF_CAP && |t.buf| == BUF_CAP && p < |s.producers| && Alone(s, p)
    requires |t.producers| == |s.producers| && t.producers == s.producers[p := t.producers[p]]
    requires ProducerOk(t, t.producers[p])
    ensures OneBusy(t)
  {
    assert forall q :: 0 <= q < |t.producers| && q != p ==> t.producers[q] == s.producers[q];
  }

  /** What the producer establishes by a step, and the operation the step amounts to. */
  lemma {:induction false} ProducerStep(s: State, slot: Slot, p: nat)
    requires Sync(s, slot) && p < |s.producers| && !s.producers[p].Ready?
    ensures var t := AdvanceProducer(s, p);
            && t.producers == s.producers[p := t.producers[p]] && ProducerOk(t, t.producers[p])
            && t == s.(chr := t.chr, kind := t.kind, len := t.len, buf := t.buf, req := t.req,
                       producers := t.producers, log := t.log)
            && (t.log == s.log || (s.producers[p].Raise? && t.log == s.log + [Accept(s.producers[p].r)]))
            && (t.req <==> t.log != s.log)
            && (t.req ==> Published(t, s.producers[p].r))
  {
    match s.producers[p]
    case Copying(r, i) =>
      if i < |r.data| {
        assert s.buf[i := r.data[i]][..i + 1] == r.data[..i + 1];
      } else {
        assert r.data[..i] == r.data;
      }
    case _ =>
  }

  lemma {:induction false} ProducerSimulates(s: State, slot: Slot, p: nat)
    requires Sync(s, slot) && p < |s.producers|
    ensures Simulates(s, slot, AdvanceProducer(s, p))
  {
    if !s.producers[p].Ready? {
      ProducerStep(s, slot, p);
      OneBusyKept(s, AdvanceProducer(s, p), p);
    }
  }

  /** The pump away from a transfer: reset, disconnect and poll. */
  lemma {:induction false} PumpIdleSimulates(s: State, slot: Slot)
    requires Sync(s, slot) && !Reading(s.pump)
    ensures Simulates(s, slot, AdvancePump(s))
  {
    var t := AdvancePump(s);
    if t.log != s.log {
      assert t.log[|t.log| - 1] == if s.pump.Closing? then Wipe else SawDisconnect;
    }
  }

  /** The pump in a transfer reads the pending request, and only that. */
  lemma {:induction false} PumpReadSimulates(s: State, slot: Slot)
    requires Sync(s, slot) && Reading(s.pump)
    ensures Simulates(s, slot, AdvancePump(s))
  {
    var r, t := slot.pending.value, AdvancePump(s);
    if s.pump.Fetching? {
      var n, got := s.pump.len, s.pump.got;
      if |got| < n {
        assert s.buf[|got|] == s.buf[..|r.data|][|got|];
        assert got + [s.buf[|got|]] == r.data[..|got| + 1];
      } else {
        assert Image(r, s.valueLen) == Request(s.pump.chr, s.pump.kind, got);
        assert t.log[|t.log| - 1] == Take(Image(r, s.valueLen));
      }
    }
  }

  /**
   The discipline of callers who take turns: no call begins inside another one, and no client write
   begins while a request is pending. A call that finds a request pending is refused at once.
   */
  ghost predicate TakesTurn(s: State, step: Step) {
    match step
    case Call(p, _) => s.req || p >= |s.producers| || Alone(s, p)
    case ClientWrite(p, _) => !s.req && Alone(s, p)
    case _ => true
  }

  lemma {:induction false} CallSimulates(s: State, slot: Slot, step: Step)
    requires Sync(s, slot) && TakesTurn(s, step) && (step.Call? || step.ClientWrite?)
    ensures Simulates(s, slot, Apply(s, step))
  {
    var t := Apply(s, step);
    if t != s {
      assert forall q :: 0 <= q < |t.producers| && q != step.p ==> t.producers[q] == s.producers[q];
    }
  }

  lemma {:induction false} ApplySimulates(s: State, slot: Slot, step: Step)
    requires Sync(s, slot) && TakesTurn(s, step)
    ensures Simulates(s, slot, Apply(s, step))
  {
    match step
    case Call(_, _) => CallSimulates(s, slot, step);
    case ClientWrite(_, _) => CallSimulates(s, slot, step);
    case Advance(p) => if p < |s.producers| { ProducerSimulates(s, slot, p); }
    case Disconnect =>
    case Restart => assert s.pump.Resting? ==> Apply(s, step).log[|s.log|] == Wipe;
    case Run => if Reading(s.pump) { PumpReadSimulates(s, slot); } else { PumpIdleSimulates(s, slot); }
  }

  ghost predicate Inv(s: State) {
    Replay(s.log, s.valueLen).Some? && Sync(s, Replay(s.log, s.valueLen).value)
  }

  ghost predicate TakingTurns(init: State, steps: seq<Step>)
    requires |init.buf| == BUF_CAP
  {
    forall k :: 0 <= k < |steps| ==> TakesTurn(RunAll(init, steps[..k]), steps[k])
  }

  lemma {:induction false} TurnsKeepInv(s: State, steps: seq<Step>)
    requires |s.buf| == BUF_CAP && Inv(s) && TakingTurns(s, steps)
    ensures Inv(RunAll(s, steps))
  {
    if steps != [] {
      var front := steps[..|steps| - 1];
      assert forall k :: 0 <= k < |front| ==> front[..k] == steps[..k];
      TurnsKeepInv(s, front);
      var m := RunAll(s, front);
      var t := Apply(m, steps[|steps| - 1]);
      ApplySimulates(m, Replay(m.log, s.valueLen).value, steps[|steps| - 1]);
      if t.log != m.log {
        ReplayAppend(m.log, t.log[|t.log| - 1], s.valueLen);
      }
    }
  }

  lemma {:induction false} RunKeepsInv(w: Wiring, valueLen: nat, n: nat, steps: seq<Step>)
    requires TakingTurns(Init(w, valueLen, n), steps)
    ensures Inv(RunAll(Init(w, valueLen, n), steps))
  {
    TurnsKeepInv(Init(w, valueLen, n), steps);
  }

  /**
   Any number of producers taking turns: whatever the interleaving of their loads, stores and byte
   copies with the pump's, the log is a log of the atomic one-place slot.
   */
  lemma {:induction false} Linearizable(w: Wiring, valueLen: nat, n: nat, steps: seq<Step>)
    requires TakingTurns(Init(w, valueLen, n), steps)
    ensures Replay(RunAll(Init(w, valueLen, n), steps).log, valueLen).Some?
  {
    RunKeepsInv(w, valueLen, n, steps);
  }

  // ---------------------------------------------------------------------------
  // What an atomic log guarantees.
  // ---------------------------------------------------------------------------

  function Accepts(log: seq<Event>): seq<Request> {
    if log == [] then []
    else Accepts(log[..|log| - 1]) + (if log[|log| - 1].Accept? then [log[|log| - 1].r] else [])
  }

  function Takes(log: seq<Event>): seq<Request> {
    if log == [] then []
    else Takes(log[..|log| - 1]) + (if log[|log| - 1].Take? then [log[|log| - 1].r] else [])
  }

  /** Pending requests removed by a reset or a disconnect. */
  function Wiped(log: seq<Event>, valueLen: nat): nat {
    if log == [] then 0
    else
      var front := log[..|log| - 1];
      var slot := Replay(front, valueLen);
      Wiped(front, valueLen)
      + (if log[|log| - 1].Wipe? && slot.Some? && slot.value.pending.Some? then 1 else 0)
  }

  /** `keep` picks, in order and without repeats, the accepted request behind each delivery. */
  ghost predicate Selects(keep: seq<nat>, accepts: seq<Request>, takes: seq<Request>, valueLen: nat) {
    && |keep| == |takes|
    && (forall k :: 0 <= k < |keep| ==> keep[k] < |accepts| && takes[k] == Image(accepts[keep[k]], valueLen))
    && (forall j, k :: 0 <= j < k < |keep| ==> keep[j] < keep[k])
  }

  /** Every accepted request is delivered, wiped or still pending, and the pending one is the latest. */
  lemma {:induction false} AcceptsAccountedFor(log: seq<Event>, valueLen: nat)
    requires Replay(log, valueLen).Some?
    ensures |Accepts(log)| == |Takes(log)| + Wiped(log, valueLen)
                              + (if Replay(log, valueLen).value.pending.Some? then 1 else 0)
    ensures var slot := Replay(log, valueLen).value;
            slot.pending.Some? ==> |Accepts(log)| > 0 && Accepts(log)[|Accepts(log)| - 1] == slot.pending.value
  {
    if log != [] {
      AcceptsAccountedFor(log[..|log| - 1], valueLen);
    }
  }

  lemma {:induction false} SelectsMore(keep: seq<nat>, accepts: seq<Request>, takes: seq<Request>, r: Request,
                                       valueLen: nat)
    requires Selects(keep, accepts, takes, valueLen)
    ensures Selects(keep, accepts + [r], takes, valueLen)
  {
  }

  lemma {:induction false} SelectsLast(keep: seq<nat>, accepts: seq<Request>, takes: seq<Request>, r: Request,
                                       valueLen: nat)
    requires Selects(keep, accepts, takes, valueLen) && |accepts| > 0 && r == Image(accepts[|accepts| - 1], valueLen)
    requires |keep| > 0 ==> keep[|keep| - 1] < |accepts| - 1
    ensures Selects(keep + [|accepts| - 1], accepts, takes + [r], valueLen)
  {
    assert forall j :: 0 <= j < |keep| ==> keep[j] <= keep[|keep| - 1];
  }

  /** A selection made so far, together with where the pending request stands: last, and not yet selected. */
  ghost predicate SelectsUpTo(keep: seq<nat>, accepts: seq<Request>, takes: seq<Request>, slot: Slot, valueLen: nat) {
    && Selects(keep, accepts, takes, valueLen)
    && (slot.pending.Some? ==>
          && |accepts| > 0 && accepts[|accepts| - 1] == slot.pending.value
          && (|keep| > 0 ==> keep[|keep| - 1] < |accepts| - 1))
  }

  /** One more event: an acceptance extends what is selected from, a delivery extends the selection. */
  lemma {:induction false} SelectStep(keep: seq<nat>, accepts: seq<Request>, takes: seq<Request>, slot: Slot,
                                      e: Event, valueLen: nat)
    returns (keep': seq<nat>)
    requires SelectsUpTo(keep, accepts, takes, slot, valueLen) && Next(slot, e, valueLen).Some?
    ensures SelectsUpTo(keep', accepts + (if e.Accept? then [e.r] else []), takes + (if e.Take? then [e.r] else []),
                        Next(slot, e, valueLen).value, valueLen)
  {
    keep' := keep;
    match e
    case Accept(r) => SelectsMore(keep, accepts, takes, r, valueLen);
    case Take(r) =>
      SelectsLast(keep, accepts, takes, r, valueLen);
      keep' := keep + [|accepts| - 1];
      assert accepts + [] == accepts;
    case _ => assert accepts + [] == accepts && takes + [] == takes;
  }

  /**
   Deliveries are an in-order, duplicate-free selection of the accepted requests, each with
   its own target and kind and its payload whole up to the value length.
   */
  lemma {:induction false} TakesSelectAccepts(log: seq<Event>, valueLen: nat) returns (keep: seq<nat>)
    requires Replay(log, valueLen).Some?
    ensures SelectsUpTo(keep, Accepts(log), Takes(log), Replay(log, valueLen).value, valueLen)
  {
    if log == [] {
      keep := [];
    } else {
      var front := log[..|log| - 1];
      keep := TakesSelectAccepts(front, valueLen);
      keep := SelectStep(keep, Accepts(front), Takes(front), Replay(front, valueLen).value, log[|log| - 1], valueLen);
    }
  }

  /**
   A delivery directly follows its own acceptance in the order of events: no other transfer, no
   reset and no consumed disconnect request lies between. So a request that was accepted before
   a disconnect request was consumed, and not taken by then, is never sent.
   */
  lemma {:induction false} TakeFollowsAccept(log: seq<Event>, k: nat, valueLen: nat)
    requires Replay(log, valueLen).Some? && k < |log| && log[k].Take?
    ensures k > 0 && log[k - 1].Accept? && log[k].r == Image(log[k - 1].r, valueLen)
    decreases |log|
  {
    var front := log[..|log| - 1];
    if k + 1 < |log| {
      TakeFollowsAccept(front, k, valueLen);
    } else {
      PendingIsLast(front, valueLen);
    }
  }

  /** A request that may still be taken was accepted by the very last event. */
  lemma {:induction false} PendingIsLast(log: seq<Event>, valueLen: nat)
    requires Replay(log, valueLen).Some?
    requires Replay(log, valueLen).value.pending.Some? && !Replay(log, valueLen).value.closing
    ensures log != [] && log[|log| - 1] == Accept(Replay(log, valueLen).value.pending.value)
  {
  }

  /**
   The whole guarantee for producers taking turns, over every run: deliveries select the accepted
   requests in order, each delivery directly follows its acceptance, and an accepted request is
   missing only if it was wiped or still waits in the slot.
   */
  lemma {:induction false} TurnsDeliver(w: Wiring, valueLen: nat, n: nat, steps: seq<Step>) returns (keep: seq<nat>)
    requires TakingTurns(Init(w, valueLen, n), steps)
    ensures var s := RunAll(Init(w, valueLen, n), steps);
            && Selects(keep, Accepts(s.log), Takes(s.log), valueLen)
            && |Accepts(s.log)| == |Takes(s.log)| + Wiped(s.log, valueLen) + (if s.req then 1 else 0)
            && forall k :: 0 <= k < |s.log| && s.log[k].Take? ==>
                 k > 0 && s.log[k - 1].Accept? && s.log[k].r == Image(s.log[k - 1].r, valueLen)
  {
    var s := RunAll(Init(w, valueLen, n), steps);
    RunKeepsInv(w, valueLen, n, steps);
    keep := TakesSelectAccepts(s.log, valueLen);
    AcceptsAccountedFor(s.log, valueLen);
    forall k | 0 <= k < |s.log| && s.log[k].Take?
      ensures k > 0 && s.log[k - 1].Accept? && s.log[k].r == Image(s.log[k - 1].r, valueLen)
    {
      TakeFollowsAccept(s.log, k, valueLen);
    }
  }

  /** A single producer that makes no client writes takes turns by itself, in every interleaving with the pump. */
  lemma {:induction false} OneProducerDelivers(w: Wiring, valueLen: nat, steps: seq<Step>) returns (keep: seq<nat>)
    requires forall st :: st in steps ==> !st.ClientWrite?
    ensures var s := RunAll(Init(w, valueLen, 1), steps);
            && Selects(keep, Accepts(s.log), Takes(s.log), valueLen)
            && |Accepts(s.log)| == |Takes(s.log)| + Wiped(s.log, valueLen) + (if s.req then 1 else 0)
            && forall k :: 0 <= k < |s.log| && s.log[k].Take? ==>
                 k > 0 && s.log[k - 1].Accept? && s.log[k].r == Image(s.log[k - 1].r, valueLen)
  {
    var init := Init(w, valueLen, 1);
    forall k | 0 <= k < |steps| ensures TakesTurn(RunAll(init, steps[..k]), steps[k]) {
      assert steps[k] in steps;
      assert |RunAll(init, steps[..k]).producers| == 1;
    }
    keep := TurnsDeliver(w, valueLen, 1, steps);
  }

  // ---------------------------------------------------------------------------
  // A fresh start, and progress.
  // ---------------------------------------------------------------------------

  lemma {:induction false} StepLogGrows(s: State, step: Step)
    requires |s.buf| == BUF_CAP
    ensures s.log <= Apply(s, step).log
  {
  }

  lemma {:induction false} LogGrows(s: State, steps: seq<Step>)
    requires |s.buf| == BUF_CAP
    ensures s.log <= RunAll(s, steps).log
  {
    if steps != [] {
      LogGrows(s, steps[..|steps| - 1]);
      StepLogGrows(RunAll(s, steps[..|steps| - 1]), steps[|steps| - 1]);
    }
  }

  /**
   A session or channel starts afresh: nothing is pending right after the start, and whatever is
   delivered later was accepted later, too.
   */
  lemma {:induction false} RestartForgets(w: Wiring, valueLen: nat, n: nat, before: seq<Step>, after: seq<Step>)
    requires TakingTurns(Init(w, valueLen, n), before + [Restart] + after)
    requires RunAll(Init(w, valueLen, n), before).pump.Resting?
    ensures var init := Init(w, valueLen, n);
            var start := |RunAll(init, before).log|;
            var log := RunAll(init, before + [Restart] + after).log;
            && !RunAll(init, before + [Restart]).req
            && forall k :: start <= k < |log| && log[k].Take? ==>
                 k > start && log[k - 1].Accept? && log[k].r == Image(log[k - 1].r, valueLen)
  {
    var init := Init(w, valueLen, n);
    RunStep(init, before, Restart);
    RunJoin(init, before + [Restart], after);
    LogGrows(RunAll(init, before + [Restart]), after);
    var s, t := RunAll(init, before), RunAll(init, before + [Restart] + after);
    assert t.log[|s.log|] == Wipe;
    var _ := TurnsDeliver(w, valueLen, n, before + [Restart] + after);
  }

  /** No disconnect request has been seen since place `start`, and none is waiting to be. */
  ghost predicate Undisturbed(s: State, start: nat) {
    && start <= |s.log| && (forall k :: start <= k < |s.log| ==> !s.log[k].SawDisconnect?)
    && !s.pump.Closing? && (s.disconnect ==> s.pump.Restarting?)
  }

  lemma {:induction false} PumpUndisturbed(s: State, start: nat)
    requires |s.buf| == BUF_CAP && Undisturbed(s, start)
    ensures Undisturbed(AdvancePump(s), start)
  {
  }

  lemma {:induction false} ProducerUndisturbed(s: State, p: nat, start: nat)
    requires |s.buf| == BUF_CAP && Undisturbed(s, start) && p < |s.producers|
    ensures Undisturbed(AdvanceProducer(s, p), start)
  {
  }

  lemma {:induction false} StepUndisturbed(s: State, step: Step, start: nat)
    requires |s.buf| == BUF_CAP && Undisturbed(s, start) && !step.Disconnect?
    ensures Undisturbed(Apply(s, step), start)
  {
    match step
    case Advance(p) => if p < |s.producers| { ProducerUndisturbed(s, p, start); }
    case Run => PumpUndisturbed(s, start);
    case _ =>
  }

  /** A disconnect request raised before a channel starts is not seen in it: what is seen was raised since. */
  lemma {:induction false} RestartForgetsDisconnect(s: State, after: seq<Step>)
    requires |s.buf| == BUF_CAP && s.wiring.L2cap? && s.pump.Resting?
    requires forall st :: st in after ==> !st.Disconnect?
    ensures var t := RunAll(Apply(s, Restart), after);
            && Undisturbed(t, |s.log|)
            && forall k :: |s.log| <= k < |t.log| ==> !t.log[k].SawDisconnect?
  {
    if after != [] {
      var front := after[..|after| - 1];
      RestartForgetsDisconnect(s, front);
      StepUndisturbed(RunAll(Apply(s, Restart), front), after[|after| - 1], |s.log|);
    }
  }

  /** A disconnect request is seen at the pump's next look, and removes what is pending. */
  lemma {:induction false} DisconnectIsSeen(s: State)
    requires |s.buf| == BUF_CAP && s.wiring.L2cap? && s.pump.Resting?
    ensures var t := RunAll(s, [Disconnect, Run, Run]);
            t == s.(disconnect := false, req := false, pump := Polling, log := s.log + [SawDisconnect, Wipe])
  {
    assert [Disconnect, Run, Run] == [] + [Disconnect] + [Run] + [Run] && RunAll(s, []) == s;
    RunStep(s, [], Disconnect);
    RunStep(s, [] + [Disconnect], Run);
    RunStep(s, [] + [Disconnect] + [Run], Run);
    assert s.log + [SawDisconnect] + [Wipe] == s.log + [SawDisconnect, Wipe];
  }

  /** One byte of a client write. */
  lemma {:induction false} ClientCopyStep(s: State, p: nat, data: seq<Byte>, done: nat)
    requires |s.buf| == BUF_CAP && p < |s.producers| && s.producers[p] == ClientCopying(data, done)
    requires done < |data| <= BUF_CAP && s.buf[..done] == data[..done]
    ensures var t := Apply(s, Advance(p));
            && t == s.(buf := t.buf, producers := s.producers[p := ClientCopying(data, done + 1)])
            && t.buf[..done + 1] == data[..done + 1] && t.buf[|data|..] == s.buf[|data|..]
  {
    assert s.buf[done := data[done]][..done + 1] == data[..done + 1];
  }

  /** Its end: the length is stored. */
  lemma {:induction false} ClientLengthSteps(s: State, p: nat, data: seq<Byte>)
    requires |s.buf| == BUF_CAP && p < |s.producers| && s.producers[p] == ClientCopying(data, |data|)
    ensures Apply(Apply(s, Advance(p)), Advance(p)) == s.(len := |data|, producers := s.producers[p := Ready])
  {
    assert s.producers[p := ClientLen(data)][p := Ready] == s.producers[p := Ready];
  }

  /** The client write that `s` was in the middle of is done in `t`. */
  ghost predicate ClientDone(s: State, t: State, p: nat, data: seq<Byte>)
    requires |s.buf| == BUF_CAP && p < |s.producers|
  {
    && |t.buf| == BUF_CAP && |data| <= BUF_CAP
    && t == s.(buf := t.buf, len := |data|, producers := s.producers[p := Ready])
    && t.buf[..|data|] == data && t.buf[|data|..] == s.buf[|data|..]
  }

  lemma {:induction false} ClientDoneLater(s: State, next: State, t: State, p: nat, data: seq<Byte>, pc: Producer)
    requires |s.buf| == BUF_CAP && |next.buf| == BUF_CAP && p < |s.producers|
    requires next == s.(buf := next.buf, producers := s.producers[p := pc])
    requires |data| <= BUF_CAP && next.buf[|data|..] == s.buf[|data|..] && ClientDone(next, t, p, data)
    ensures ClientDone(s, t, p, data)
  {
    assert s.producers[p := pc][p := Ready] == s.producers[p := Ready];
  }

  lemma {:induction false} RunFirst(s: State, step: Step, rest: seq<Step>)
    requires |s.buf| == BUF_CAP
    ensures RunAll(s, [step] + rest) == RunAll(Apply(s, step), rest)
  {
    assert RunAll(s, []) == s && [] + [step] == [step];
    RunStep(s, [], step);
    RunJoin(s, [step], rest);
  }

  /** A client write, left alone, leaves its bytes and length in the shared buffer, and flag and log as they were. */
  lemma {:induction false} ClientWriteStores(s: State, p: nat, data: seq<Byte>, done: nat) returns (steps: seq<Step>)
    requires |s.buf| == BUF_CAP && p < |s.producers| && s.producers[p] == ClientCopying(data, done)
    requires done <= |data| <= BUF_CAP && s.buf[..done] == data[..done]
    ensures forall st :: st in steps ==> st == Advance(p)
    ensures ClientDone(s, RunAll(s, steps), p, data)
    decreases |data| - done
  {
    var next := Apply(s, Advance(p));
    if done < |data| {
      ClientCopyStep(s, p, data, done);
      var rest := ClientWriteStores(next, p, data, done + 1);
      steps := [Advance(p)] + rest;
      RunFirst(s, Advance(p), rest);
      ClientDoneLater(s, next, RunAll(next, rest), p, data, ClientCopying(data, done + 1));
    } else {
      ClientLengthSteps(s, p, data);
      steps := [Advance(p)] + [Advance(p)];
      RunFirst(s, Advance(p), [Advance(p)]);
      RunFirst(next, Advance(p), []);
      assert [Advance(p)] + [] == [Advance(p)];
      assert data[..done] == data;
    }
  }

  /** Pump steps that remain until the pending request is taken. */
  function PumpLeft(s: State, r: Request): nat {
    var n := Min(|r.data|, s.valueLen);
    match s.pump
    case Fetching(_, _, _, got) => if |got| <= n then n - |got| else 0
    case GetLen(_, _) => n + 1
    case GetKind(_) => n + 2
    case GetChr => n + 3
    case Polling => n + 4
    case _ => n + 5
  }

  lemma {:induction false} PumpStep(s: State, slot: Slot)
    requires Sync(s, slot) && s.req && !s.disconnect && !s.pump.Restarting? && !s.pump.Closing?
    ensures var t, r := Apply(s, Run), slot.pending.value;
            && t == s.(req := t.req, pump := t.pump, log := t.log)
            && (if t.log == s.log then
                  t.req && !t.pump.Restarting? && !t.pump.Closing? && PumpLeft(t, r) < PumpLeft(s, r) && Sync(t, slot)
                else
                  t == s.(req := false, pump := Resting,
                          log := s.log + [Take(Request(r.chr, r.kind, r.data[..Min(|r.data|, s.valueLen)]))]))
  {
    if Reading(s.pump) {
      PumpReadSimulates(s, slot);
      var r := slot.pending.value;
      if s.pump.Fetching? && |s.pump.got| >= s.pump.len {
        assert s.pump.got == r.data[..Min(|r.data|, s.valueLen)];
      }
    } else {
      PumpIdleSimulates(s, slot);
    }
  }

  /** The pump, left alone with a pending request, takes it, whole up to the value length. */
  lemma {:induction false} PumpDelivers(s: State, slot: Slot) returns (steps: seq<Step>)
    requires Sync(s, slot) && s.req && !s.disconnect && !s.pump.Restarting? && !s.pump.Closing?
    ensures forall st :: st in steps ==> st == Run
    ensures var r := slot.pending.value;
            RunAll(s, steps)
            == s.(req := false, pump := Resting,
                  log := s.log + [Take(Request(r.chr, r.kind, r.data[..Min(|r.data|, s.valueLen)]))])
    decreases PumpLeft(s, slot.pending.value)
  {
    var t := Apply(s, Run);
    PumpStep(s, slot);
    assert RunAll(s, []) == s && [] + [Run] == [Run];
    RunStep(s, [], Run);
    if t.log != s.log {
      steps := [Run];
    } else {
      var rest := PumpDelivers(t, slot);
      RunJoin(s, [Run], rest);
      steps := [Run] + rest;
    }
  }

  /**
   A call gets past the entry exactly if its producer is not inside another, the flag is down and it has
   1 to 512 bytes; a client write does not look at the flag.
   */
  lemma {:induction false} CallIsRefused(s: State, p: nat, r: Request)
    requires |s.buf| == BUF_CAP && p < |s.producers| && (s.wiring.L2cap? ==> r.chr == 0 && r.kind == 0)
    ensures var fits := s.producers[p].Ready? && !s.req && 1 <= |r.data| <= 512;
            Apply(s, Call(p, r)) == if fits then s.(producers := s.producers[p := Copying(r, 0)]) else s
    ensures var d := r.data;
            var fits := s.producers[p].Ready? && s.wiring.Tx? && 1 <= |d| <= 512;
            Apply(s, ClientWrite(p, d)) == if fits then s.(producers := s.producers[p := ClientCopying(d, 0)]) else s
  {
  }

  /**
   And it arrives: in any consistent state with nothing pending and nobody inside a call, a call with 1
   to 512 bytes is accepted, and then delivered, if the pump is left alone after it.
   */
  lemma {:induction false} CallDelivered(s: State, p: nat, r: Request) returns (steps: seq<Step>)
    requires |s.buf| == BUF_CAP && Inv(s) && p < |s.producers| && s.producers[p].Ready? && Alone(s, p)
    requires !s.req && !s.disconnect && s.pump.Resting?
    requires 1 <= |r.data| <= 512 && (s.wiring.L2cap? ==> r.chr == 0 && r.kind == 0)
    ensures |steps| > 0 && steps[0] == Call(p, r)
    ensures RunAll(s, steps).log
         == s.log + [Accept(r), Take(Request(r.chr, r.kind, r.data[..Min(|r.data|, s.valueLen)]))]
  {
    var called := Apply(s, Call(p, r));
    assert RunAll(s, []) == s && [] + [Call(p, r)] == [Call(p, r)];
    RunStep(s, [], Call(p, r));
    CallSimulates(s, Replay(s.log, s.valueLen).value, Call(p, r));
    var calling := CallEnds(called, p);
    var accepted := RunAll(called, calling);
    assert TakingTurns(called, calling) by {
      forall k | 0 <= k < |calling| ensures TakesTurn(RunAll(called, calling[..k]), calling[k]) {
        assert calling[k] in calling;
      }
    }
    TurnsKeepInv(called, calling);
    ReplayAppend(s.log, Accept(r), s.valueLen);
    var taking := PumpDelivers(accepted, Replay(accepted.log, s.valueLen).value);
    RunJoin(called, calling, taking);
    RunJoin(s, [Call(p, r)], calling + taking);
    steps := [Call(p, r)] + (calling + taking);
  }

  // ---------------------------------------------------------------------------
  // Both conditions are needed.
  // ---------------------------------------------------------------------------

  /** Extend a run by one step. */
  lemma {:induction false} Go(init: State, steps: seq<Step>, s: State, step: Step)
    returns (steps': seq<Step>, s': State)
    requires |init.buf| == BUF_CAP && RunAll(init, steps) == s
    ensures steps' == steps + [step] && s' == Apply(s, step) && RunAll(init, steps') == s'
  {
    steps', s' := steps + [step], Apply(s, step);
    assert steps'[..|steps'| - 1] == steps;
  }

  /** Everything but the producers is as in `t`, and the first producer is at `pc`. */
  ghost predicate Like(s: State, t: State, pc: Producer) {
    |s.producers| > 0 && s.producers[0] == pc && s == t.(producers := s.producers)
  }

  /** A producer done copying, left alone, stores its four words and raises the flag. */
  lemma {:induction false} FinishCall(init: State, steps: seq<Step>, s: State, r: Request)
    returns (steps': seq<Step>, s': State)
    requires |init.buf| == BUF_CAP && RunAll(init, steps) == s
    requires s.wiring.Tx? && |s.producers| > 0 && s.producers[0] == Copying(r, |r.data|)
    ensures RunAll(init, steps') == s'
    ensures forall st :: st in steps' ==> st in steps || st == Advance(0)
    ensures Like(s', s.(chr := r.chr, kind := r.kind, len := |r.data|, req := true, log := s.log + [Accept(r)]), Ready)
  {
    var s1 := Apply(s, Advance(0));
    assert Like(s1, s, PutChr(r));
    var s2 := Apply(s1, Advance(0));
    assert Like(s2, s.(chr := r.chr), PutKind(r));
    var s3 := Apply(s2, Advance(0));
    assert Like(s3, s.(chr := r.chr, kind := r.kind), PutLen(r));
    var s4 := Apply(s3, Advance(0));
    assert Like(s4, s.(chr := r.chr, kind := r.kind, len := |r.data|), Raise(r));
    s' := Apply(s4, Advance(0));
    steps' := RunFive(init, steps, s, Advance(0));
  }

  lemma {:induction false} RunFive(init: State, steps: seq<Step>, s: State, a: Step) returns (steps': seq<Step>)
    requires |init.buf| == BUF_CAP && RunAll(init, steps) == s
    ensures RunAll(init, steps') == Apply(Apply(Apply(Apply(Apply(s, a), a), a), a), a)
    ensures forall st :: st in steps' ==> st in steps || st == a
  {
    var t;
    steps', t := Go(init, steps, s, a);
    steps', t := Go(init, steps', t, a);
    steps', t := Go(init, steps', t, a);
    steps', t := Go(init, steps', t, a);
    steps', t := Go(init, steps', t, a);
  }

  /** The pump, left alone with a pending one-byte request, takes what the shared words hold. */
  lemma {:induction false} PumpOneByte(init: State, steps: seq<Step>, s: State) returns (steps': seq<Step>, s': State)
    requires |init.buf| == BUF_CAP && RunAll(init, steps) == s
    requires s.wiring.Tx? && s.pump.Resting? && s.req && s.len == 1 && s.valueLen >= 1
    ensures RunAll(init, steps') == s'
    ensures forall st :: st in steps' ==> st in steps || st == Run
    ensures s' == s.(req := false, log := s.log + [Take(Request(s.chr, s.kind, [s.buf[0]]))])
  {
    var s3 := AdvancePump(AdvancePump(AdvancePump(s)));
    assert s3 == s.(pump := GetLen(s.chr, s.kind));
    var s4 := AdvancePump(s3);
    assert s4 == s.(pump := Fetching(s.chr, s.kind, 1, []));
    var s5 := AdvancePump(s4);
    assert [] + [s.buf[0]] == [s.buf[0]];
    assert s5 == s.(pump := Fetching(s.chr, s.kind, 1, [s.buf[0]]));
    steps' := RunFive(init, steps, s, Run);
    steps', s' := Go(init, steps', s5, Run);
  }

  /** Two producers: the second passes the flag test too, and its bytes go out under the first one's target. */
  lemma {:induction false} TwoProducersTear(valueLen: nat) returns (steps: seq<Step>)
    requires valueLen >= 1
    ensures forall st :: st in steps ==> !st.ClientWrite?
    ensures RunAll(Init(Tx, valueLen, 2), steps).log == [Accept(Request(3, 0, [1])), Take(Request(3, 0, [2]))]
  {
    var init := Init(Tx, valueLen, 2);
    var a, b := Request(3, 0, [1]), Request(4, 1, [2]);
    var s;
    steps, s := Go(init, [], init, Call(0, a));
    steps, s := Go(init, steps, s, Call(1, b));
    assert s == init.(producers := [Copying(a, 0), Copying(b, 0)]);
    steps, s := Go(init, steps, s, Advance(0));
    assert s.producers == [Copying(a, 1), Copying(b, 0)];
    steps, s := Go(init, steps, s, Advance(1));
    assert s.producers[0] == Copying(a, |a.data|) && s.buf[0] == 2;
    steps, s := FinishCall(init, steps, s, a);
    steps, s := PumpOneByte(init, steps, s);
  }

  /** One producer: a client write reuses the buffer of an accepted request, which goes out with its bytes. */
  lemma {:induction false} ClientWriteTears(valueLen: nat) returns (steps: seq<Step>)
    requires valueLen >= 1
    ensures RunAll(Init(Tx, valueLen, 1), steps).log == [Accept(Request(3, 0, [1])), Take(Request(3, 0, [2]))]
  {
    var init := Init(Tx, valueLen, 1);
    var a := Request(3, 0, [1]);
    var s;
    steps, s := Go(init, [], init, Call(0, a));
    assert s == init.(producers := [Copying(a, 0)]);
    steps, s := Go(init, steps, s, Advance(0));
    assert s.producers == [Copying(a, |a.data|)];
    steps, s := FinishCall(init, steps, s, a);
    assert s.producers == [Ready];
    steps, s := Go(init, steps, s, ClientWrite(0, [2]));
    steps, s := Go(init, steps, s, Advance(0));
    assert s.buf[0] == 2 && s.req && s.len == 1;
    steps, s := PumpOneByte(init, steps, s);
  }

  /** Inside `queue_tx` or `l2cap_send`, past the test of the flag. */
  predicate InCall(pc: Producer) { !pc.Ready? && !pc.ClientCopying? && !pc.ClientLen? }

  /** Steps that remain until the flag is raised. */
  function Remaining(pc: Producer): nat
    requires InCall(pc)
  {
    match pc
    case Copying(r, i) => 4 + (if i < |r.data| && i < BUF_CAP then Min(|r.data|, BUF_CAP) - i else 0)
    case PutChr(_) => 3
    case PutKind(_) => 2
    case PutLen(_) => 1
    case Raise(_) => 0
  }

  lemma {:induction false} RunStep(s: State, steps: seq<Step>, step: Step)
    requires |s.buf| == BUF_CAP
    ensures RunAll(s, steps + [step]) == Apply(RunAll(s, steps), step)
  {
    assert (steps + [step])[..|steps|] == steps;
  }

  lemma {:induction false} RunJoin(s: State, a: seq<Step>, b: seq<Step>)
    requires |s.buf| == BUF_CAP
    ensures RunAll(s, a + b) == RunAll(RunAll(s, a), b)
  {
    if b == [] {
      assert a + b == a;
    } else {
      var front := b[..|b| - 1];
      RunJoin(s, a, front);
      assert (a + b)[..|a + b| - 1] == a + front;
    }
  }

  /** One producer moving on, with all others where they are. */
  lemma {:induction false} AdvanceInCall(s: State, p: nat)
    requires |s.buf| == BUF_CAP && p < |s.producers| && InCall(s.producers[p])
    ensures var t := Apply(s, Advance(p));
            && t.producers == s.producers[p := t.producers[p]] && t.pump == s.pump && t.disconnect == s.disconnect
            && if s.producers[p].Raise?
               then t.producers[p] == Ready && t.log == s.log + [Accept(s.producers[p].r)]
               else t.log == s.log && InCall(t.producers[p]) && t.producers[p].r == s.producers[p].r
                    && Remaining(t.producers[p]) < Remaining(s.producers[p])
  {
  }

  /** A producer inside a call, left alone with the slot, gets its request accepted. */
  lemma {:induction false} CallEnds(s: State, p: nat) returns (steps: seq<Step>)
    requires |s.buf| == BUF_CAP && p < |s.producers| && InCall(s.producers[p])
    ensures forall st :: st in steps ==> st == Advance(p)
    ensures var t := RunAll(s, steps);
            && t.producers == s.producers[p := Ready]
            && t.log == s.log + [Accept(s.producers[p].r)]
            && t.pump == s.pump && t.disconnect == s.disconnect
    decreases Remaining(s.producers[p])
  {
    var next := Apply(s, Advance(p));
    AdvanceInCall(s, p);
    assert RunAll(s, []) == s;
    RunStep(s, [], Advance(p));
    assert [] + [Advance(p)] == [Advance(p)];
    if s.producers[p].Raise? {
      steps := [Advance(p)];
    } else {
      var rest := CallEnds(next, p);
      RunJoin(s, [Advance(p)], rest);
      steps := [Advance(p)] + rest;
      assert s.producers[p := Ready] == next.producers[p := Ready];
    }
  }

  lemma {:induction false} SecondAcceptRejected(log: seq<Event>, a: Request, b: Request, valueLen: nat)
    ensures Replay(log + [Accept(a)] + [Accept(b)], valueLen).None?
  {
    assert (log + [Accept(a)])[..|log|] == log;
    assert (log + [Accept(a)] + [Accept(b)])[..|log| + 1] == log + [Accept(a)];
  }

  /**
   Taking turns is needed, in any state whatever and so in every reachable one: with the flag down and
   one producer inside a call, a call of another that is ready has a continuation, without client
   writes, after which no history of the atomic slot explains the log.
   */
  lemma {:induction false} OverlapBreaks(s: State, p: nat, q: nat, r: Request) returns (steps: seq<Step>)
    requires |s.buf| == BUF_CAP && p < |s.producers| && q < |s.producers| && p != q
    requires !s.req && InCall(s.producers[p]) && s.producers[q].Ready? && Valid(s.wiring, r)
    ensures |steps| > 0 && steps[0] == Call(q, r)
    ensures forall st :: st in steps[1..] ==> st == Advance(p) || st == Advance(q)
    ensures Replay(RunAll(s, steps).log, s.valueLen).None?
  {
    var called := Apply(s, Call(q, r));
    assert RunAll(s, []) == s;
    RunStep(s, [], Call(q, r));
    assert [] + [Call(q, r)] == [Call(q, r)];
    var first := CallEnds(called, p);
    var s1 := RunAll(called, first);
    assert s1.producers[q] == Copying(r, 0);
    var second := CallEnds(s1, q);
    RunJoin(called, first, second);
    RunJoin(s, [Call(q, r)], first + second);
    steps := [Call(q, r)] + (first + second);
    SecondAcceptRejected(s.log, s.producers[p].r, r, s.valueLen);
  }
}
