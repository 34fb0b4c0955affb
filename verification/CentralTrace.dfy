/**
 The central role over its phases: the idle pump (`wait_idle_cmd`), the scan pump (`run_scan`) and the
 client pump (`client_session`) take turns at one command word, and the client pump runs one handler at
 a time. A consumer's swap and parameter read are one step; so is a handler's way from one await to the
 next, and it may be cut off at any of them. The send buffer of a client write is shared with `queue_tx`.
 */
module CentralTrace {
  import opened Common
  import opened CommandSlot
  import opened CentralCommands
  import opened ClientOps

  datatype Phase = Idle | Scanning | Connecting | Client | Stopped

  /** An operation and its history: the event that started it, what was remembered then, and the answers since. */
  datatype Operation = Operation(plan: Plan, from: nat, start: Store, replies: seq<Reply>)

  /** The handler at work, and the await it stands at. */
  datatype Running = Running(op: Operation, task: Task)

  /** `Did` is the effect of the command at place `at` of the channel's log. */
  datatype Event = Did(at: nat, act: Action) | Emit(out: Out) | Cancelled

  /** `met` records, for each entry of the channel's log, the phase in which it was made. */
  datatype State = State(
    ch: Channel<Reg, Val>, met: seq<Phase>,
    sendReq: bool, phase: Phase,
    running: Option<Running>, store: Store,
    events: seq<Event>)

  /** `Queue` is `queue_tx`, `Drained` the tx pump taking its request or a reset, `Answer` an await that returns. */
  datatype Step =
    | Ask(call: CentralCall)
    | Queue(data: seq<Byte>)
    | Drained
    | Poll
    | Linked(ok: bool)
    | ScanEnds
    | Answer(reply: Reply)
    | LinkDown
    | Unload

  /** With a configured peer the first thing done is to connect to it. */
  function Init(auto: bool): State {
    State(Channel(NONE, map[], []), [], false, if auto then Connecting else Idle, None, [], [])
  }

  function Emits(out: seq<Out>): seq<Event> {
    seq(|out|, i requires 0 <= i < |out| => Emit(out[i]))
  }

  /** A handler moves on by `p`. */
  function Advance(s: State, op: Operation, p: Progress): State {
    s.(running := if p.task.Some? then Some(Running(op, p.task.value)) else None,
       store := p.store, events := s.events + Emits(p.out))
  }

  /** The channel moves on; a new entry of its log is met in the current phase. */
  function Move(s: State, ch: Channel<Reg, Val>): State {
    s.(ch := ch, met := if |ch.log| > |s.ch.log| then s.met + [s.phase] else s.met)
  }

  function IdlePoll(s: State): State {
    var t := Move(s, Consume(s.ch));
    if s.ch.cmd == CONNECT then
      t.(phase := Connecting, events := s.events + [Did(|s.ch.log|, Dial(PeerOf(s.ch.regs).0, PeerOf(s.ch.regs).1))])
    else if s.ch.cmd == SCAN_START then
      t.(phase := Scanning, events := s.events + [Did(|s.ch.log|, StartScan(SettingsOf(s.ch.regs)))])
    else t
  }

  function ScanPoll(s: State): State {
    var t := Move(s, Consume(s.ch));
    if s.ch.cmd == SCAN_STOP then t.(phase := Idle, events := s.events + [Did(|s.ch.log|, StopScan)])
    else if s.ch.cmd == CONNECT then
      t.(phase := Connecting, events := s.events + [Did(|s.ch.log|, Dial(PeerOf(s.ch.regs).0, PeerOf(s.ch.regs).1))])
    else t
  }

  function ClientPoll(s: State, valueLen: nat): State {
    var t := Move(s, Consume(s.ch));
    if s.ch.cmd == DISCONNECT then t.(events := s.events + [Did(|s.ch.log|, HangUp)])
    else
      var plan := PlanOf(s.ch.cmd, s.ch.regs, valueLen);
      if plan.None? then t
      else
        Advance(t.(events := s.events + [Did(|s.ch.log|, Operate(plan.value))]),
                Operation(plan.value, |s.events|, s.store, []), Begin(plan.value, s.store))
  }

  /** The pump of the current phase looks at the command word; the client pump only between handlers. */
  function PollStep(s: State, valueLen: nat): State {
    match s.phase
    case Idle => IdlePoll(s)
    case Scanning => ScanPoll(s)
    case Client => if s.running.None? then ClientPoll(s, valueLen) else s
    case _ => s
  }

  /** A handler whose future is dropped does nothing more. */
  function CutOff(s: State, phase: Phase): State {
    if s.running.None? then s.(phase := phase)
    else s.(phase := phase, running := None, events := s.events + [Cancelled])
  }

  predicate Queues(s: State, data: seq<Byte>) { !s.sendReq && 0 < |data| <= BUF_CAP }

  function Apply(s: State, step: Step, valueLen: nat): State {
    match step
    case Ask(c) => if ValidCall(c) then Move(s, Issue(s.ch, Encode(c))) else s
    case Queue(d) => if Queues(s, d) then s.(ch := Touch(s.ch, TxWords(d)), sendReq := true) else s
    case Drained => s.(sendReq := false)
    case Poll => PollStep(s, valueLen)
    case Linked(ok) =>
      if s.phase.Connecting? then s.(phase := if ok then Client else Idle, store := []) else s
    case ScanEnds => if s.phase.Scanning? then s.(phase := Idle) else s
    case Answer(r) =>
      if s.running.None? then s
      else
        var op := s.running.value.op;
        Advance(s, op.(replies := op.replies + [r]), Resume(s.running.value.task, r, s.store, valueLen))
    case LinkDown => if s.phase.Client? then CutOff(s, Idle) else s
    case Unload => CutOff(s, Stopped)
  }

  function Run(s: State, steps: seq<Step>, valueLen: nat): State {
    if steps == [] then s else Apply(Run(s, steps[..|steps| - 1], valueLen), steps[|steps| - 1], valueLen)
  }

  // ---------------------------------------------------------------------------
  // One status for each operation.
  // ---------------------------------------------------------------------------

  /**
   Reading the events in order, with at most one operation open: nothing is emitted and nothing else
   is done outside one, its status ends it, and so does its cut-off. The result is the operation still
   open at the end, or `None` for a sequence that breaks these rules.
   */
  function Open(events: seq<Event>): Option<Option<Plan>> {
    if events == [] then Some(None)
    else
      var before := Open(events[..|events| - 1]);
      if before.None? then None else OpenNext(before.value, events[|events| - 1])
  }

  function OpenNext(open: Option<Plan>, e: Event): Option<Option<Plan>> {
    match e
    case Did(_, act) => if open.Some? then None else Some(if act.Operate? then Some(act.plan) else None)
    case Emit(OnStatus(op, _, handle)) =>
      if open.Some? && op == OpOf(open.value) && handle == HandleOf(open.value) then Some(None) else None
    case Emit(_) => if open.Some? then Some(open) else None
    case Cancelled => if open.Some? then Some(None) else None
  }

  lemma {:induction false} OpenAppend(events: seq<Event>, e: Event)
    requires Open(events).Some?
    ensures Open(events + [e]) == OpenNext(Open(events).value, e)
  {
    assert (events + [e])[..|events|] == events;
  }

  lemma {:induction false} OpenStays(events: seq<Event>, out: seq<Out>, plan: Plan)
    requires Open(events) == Some(Some(plan)) && forall i :: 0 <= i < |out| ==> !out[i].OnStatus?
    ensures Open(events + Emits(out)) == Some(Some(plan))
  {
    if out == [] {
      assert events + Emits(out) == events;
    } else {
      var front := out[..|out| - 1];
      OpenStays(events, front, plan);
      OpenAppend(events + Emits(front), Emit(out[|out| - 1]));
      assert events + Emits(out) == events + Emits(front) + [Emit(out[|out| - 1])];
    }
  }

  /** A handler's output keeps its operation open while it waits, and closes it when it has returned. */
  lemma {:induction false} OpenAdvances(events: seq<Event>, p: Progress, plan: Plan)
    requires Open(events) == Some(Some(plan)) && OneStatus(OpOf(plan), HandleOf(plan), p)
    ensures Open(events + Emits(p.out)) == Some(if p.task.Some? then Some(plan) else None)
  {
    if p.task.Some? {
      OpenStays(events, p.out, plan);
    } else {
      var front, last := p.out[..|p.out| - 1], p.out[|p.out| - 1];
      OpenStays(events, front, plan);
      OpenAppend(events + Emits(front), Emit(last));
      assert events + Emits(p.out) == events + Emits(front) + [Emit(last)];
    }
  }

  /** The open operation is the one at work, and only in a client session; it will report as its plan says. */
  ghost predicate Answered(s: State) {
    && Open(s.events) == Some(if s.running.Some? then Some(s.running.value.op.plan) else None)
    && (s.running.Some? ==>
          && s.phase.Client?
          && OpOfTask(s.running.value.task) == OpOf(s.running.value.op.plan)
          && HandleOfTask(s.running.value.task) == HandleOf(s.running.value.op.plan))
  }

  lemma {:induction false} AdvanceAnswered(s: State, op: Operation, p: Progress)
    requires Open(s.events) == Some(Some(op.plan)) && s.phase.Client? && OneStatus(OpOf(op.plan), HandleOf(op.plan), p)
    ensures Answered(Advance(s, op, p))
  {
    OpenAdvances(s.events, p, op.plan);
  }

  lemma {:induction false} PollAnswered(s: State, valueLen: nat)
    requires Answered(s)
    ensures Answered(PollStep(s, valueLen))
  {
    var cmd := s.ch.cmd;
    if s.phase.Idle? && (cmd == CONNECT || cmd == SCAN_START) {
      OpenAppend(s.events, IdlePoll(s).events[|s.events|]);
    } else if s.phase.Scanning? && (cmd == SCAN_STOP || cmd == CONNECT) {
      OpenAppend(s.events, ScanPoll(s).events[|s.events|]);
    } else if s.phase.Client? && s.running.None? {
      ClientPollAnswered(s, valueLen);
    }
  }

  lemma {:induction false} ClientPollAnswered(s: State, valueLen: nat)
    requires Answered(s) && s.phase.Client? && s.running.None?
    ensures Answered(ClientPoll(s, valueLen))
  {
    var plan := PlanOf(s.ch.cmd, s.ch.regs, valueLen);
    if s.ch.cmd == DISCONNECT {
      OpenAppend(s.events, Did(|s.ch.log|, HangUp));
    } else if plan.Some? {
      var started := Did(|s.ch.log|, Operate(plan.value));
      OpenAppend(s.events, started);
      BeginOneStatus(plan.value, s.store);
      AdvanceAnswered(Move(s, Consume(s.ch)).(events := s.events + [started]),
                      Operation(plan.value, |s.events|, s.store, []), Begin(plan.value, s.store));
    }
  }

  lemma {:induction false} ReplyAnswered(s: State, r: Reply, valueLen: nat)
    requires Answered(s) && s.running.Some?
    ensures Answered(Apply(s, Answer(r), valueLen))
  {
    ResumeOneStatus(s.running.value.task, r, s.store, valueLen);
    var op := s.running.value.op;
    AdvanceAnswered(s, op.(replies := op.replies + [r]), Resume(s.running.value.task, r, s.store, valueLen));
  }

  lemma {:induction false} CutAnswered(s: State, phase: Phase)
    requires Answered(s)
    ensures Answered(CutOff(s, phase))
  {
    if s.running.Some? {
      OpenAppend(s.events, Cancelled);
    }
  }

  lemma {:induction false} ApplyAnswered(s: State, step: Step, valueLen: nat)
    requires Answered(s)
    ensures Answered(Apply(s, step, valueLen))
  {
    match step
    case Poll => PollAnswered(s, valueLen);
    case Answer(r) => if s.running.Some? { ReplyAnswered(s, r, valueLen); }
    case LinkDown => CutAnswered(s, Idle);
    case Unload => CutAnswered(s, Stopped);
    case _ =>
  }

  // ---------------------------------------------------------------------------
  // The effects of executed commands.
  // ---------------------------------------------------------------------------

  /** The phases in which a command means something. */
  predicate ActsIn(cmd: nat, phase: Phase) {
    match phase
    case Idle => cmd == CONNECT || cmd == SCAN_START
    case Scanning => cmd == CONNECT || cmd == SCAN_STOP
    case Client => DISCONNECT == cmd || (DISCOVER <= cmd <= UNSUBSCRIBE)
    case _ => false
  }

  ghost predicate DidAt(events: seq<Event>, i: nat) {
    exists k :: 0 <= k < |events| && events[k].Did? && events[k].at == i
  }

  /** An effect is that of an execution, in a phase where its command means something. */
  ghost predicate Caused(e: Event, log: seq<Entry<Reg, Val>>, met: seq<Phase>, valueLen: nat)
    requires |met| == |log|
  {
    e.Did? ==>
      && e.at < |log| && log[e.at].Ran?
      && ActsIn(log[e.at].cmd, met[e.at])
      && ActionOf(log[e.at].cmd, log[e.at].regs, valueLen) == Some(e.act)
  }

  /** Effects and the executions that mean something, in the same order, one to one. */
  ghost predicate Effects(events: seq<Event>, log: seq<Entry<Reg, Val>>, met: seq<Phase>, valueLen: nat) {
    && |met| == |log|
    && (forall k :: 0 <= k < |events| ==> Caused(events[k], log, met, valueLen))
    && (forall j, k :: 0 <= j < k < |events| && events[j].Did? && events[k].Did? ==> events[j].at < events[k].at)
    && (forall i :: 0 <= i < |log| && log[i].Ran? && ActsIn(log[i].cmd, met[i]) ==> DidAt(events, i))
  }

  /** Events without effects change nothing. */
  lemma {:induction false} EffectsQuiet(events: seq<Event>, more: seq<Event>, log: seq<Entry<Reg, Val>>,
                                        met: seq<Phase>, valueLen: nat)
    requires Effects(events, log, met, valueLen) && forall k :: 0 <= k < |more| ==> !more[k].Did?
    ensures Effects(events + more, log, met, valueLen)
  {
    forall i | 0 <= i < |log| && log[i].Ran? && ActsIn(log[i].cmd, met[i]) ensures DidAt(events + more, i) {
      var k :| 0 <= k < |events| && events[k].Did? && events[k].at == i;
      assert (events + more)[k] == events[k];
    }
  }

  /** One more entry of the log, and its effect exactly if it is an execution that means something. */
  lemma {:induction false} EffectsGrow(events: seq<Event>, more: seq<Event>, log: seq<Entry<Reg, Val>>, met: seq<Phase>,
                    e: Entry<Reg, Val>, phase: Phase, valueLen: nat)
    requires Effects(events, log, met, valueLen)
    requires if e.Ran? && ActsIn(e.cmd, phase)
             then ActionOf(e.cmd, e.regs, valueLen).Some?
                  && more == [Did(|log|, ActionOf(e.cmd, e.regs, valueLen).value)]
             else more == []
    ensures Effects(events + more, log + [e], met + [phase], valueLen)
  {
    var all, log', met' := events + more, log + [e], met + [phase];
    forall k | 0 <= k < |all| ensures Caused(all[k], log', met', valueLen) {
      if k < |events| { assert Caused(events[k], log, met, valueLen); }
    }
    forall i | 0 <= i < |log'| && log'[i].Ran? && ActsIn(log'[i].cmd, met'[i]) ensures DidAt(all, i) {
      if i < |log| {
        assert DidAt(events, i);
        var k :| 0 <= k < |events| && events[k].Did? && events[k].at == i;
        assert all[k] == events[k];
      } else {
        assert all[|events|].Did?;
      }
    }
    assert forall k :: 0 <= k < |events| && events[k].Did? ==> Caused(events[k], log, met, valueLen);
  }

  /** The effect the pump of a phase records for a command. */
  function EffectOf(s: State, valueLen: nat): seq<Event> {
    if s.ch.cmd != NONE && ActsIn(s.ch.cmd, s.phase) && ActionOf(s.ch.cmd, s.ch.regs, valueLen).Some?
    then [Did(|s.ch.log|, ActionOf(s.ch.cmd, s.ch.regs, valueLen).value)] else []
  }

  lemma {:induction false} ActsHasAction(cmd: nat, phase: Phase, regs: map<Reg, Val>, valueLen: nat)
    ensures ActsIn(cmd, phase) ==> cmd != NONE && ActionOf(cmd, regs, valueLen).Some?
    ensures phase.Client? && ActionOf(cmd, regs, valueLen).Some? && !ActsIn(cmd, phase)
            ==> cmd == CONNECT || cmd == SCAN_START || cmd == SCAN_STOP
  {
  }

  /** Each pump consumes the command, and records its effect if it has one in that phase; a handler's output follows. */
  lemma {:induction false} PollRecords(s: State, valueLen: nat)
    requires s.phase.Idle? || s.phase.Scanning? || (s.phase.Client? && s.running.None?)
    ensures var t := PollStep(s, valueLen);
            && t.ch == Consume(s.ch) && t.met == Move(s, t.ch).met
            && exists out: seq<Out> :: t.events == s.events + EffectOf(s, valueLen) + Emits(out)
  {
    ActsHasAction(s.ch.cmd, s.phase, s.ch.regs, valueLen);
    var t := PollStep(s, valueLen);
    assert Emits([]) == [];
    if s.phase.Client? && s.ch.cmd != DISCONNECT && PlanOf(s.ch.cmd, s.ch.regs, valueLen).Some? {
      var plan := PlanOf(s.ch.cmd, s.ch.regs, valueLen).value;
      assert t.events == s.events + EffectOf(s, valueLen) + Emits(Begin(plan, s.store).out);
    } else {
      assert t.events == s.events + EffectOf(s, valueLen) + Emits([]);
    }
  }

  lemma {:induction false} PollEffects(s: State, valueLen: nat)
    requires Effects(s.events, s.ch.log, s.met, valueLen)
    ensures var t := PollStep(s, valueLen); Effects(t.events, t.ch.log, t.met, valueLen)
  {
    var t := PollStep(s, valueLen);
    if s.phase.Idle? || s.phase.Scanning? || (s.phase.Client? && s.running.None?) {
      PollRecords(s, valueLen);
      ActsHasAction(s.ch.cmd, s.phase, s.ch.regs, valueLen);
      var more := EffectOf(s, valueLen);
      var out: seq<Out> :| t.events == s.events + more + Emits(out);
      if s.ch.cmd == NONE {
        assert s.events + more == s.events;
      } else {
        EffectsGrow(s.events, more, s.ch.log, s.met, Ran(s.ch.cmd, s.ch.regs), s.phase, valueLen);
      }
      EffectsQuiet(s.events + more, Emits(out), t.ch.log, t.met, valueLen);
    }
  }

  lemma {:induction false} ApplyEffects(s: State, step: Step, valueLen: nat)
    requires Effects(s.events, s.ch.log, s.met, valueLen)
    ensures var t := Apply(s, step, valueLen); Effects(t.events, t.ch.log, t.met, valueLen)
  {
    match step
    case Ask(c) =>
      if ValidCall(c) && s.ch.cmd == NONE {
        EffectsGrow(s.events, [], s.ch.log, s.met, Took(Encode(c)), s.phase, valueLen);
        assert s.events + [] == s.events;
      }
    case Poll => PollEffects(s, valueLen);
    case Answer(r) =>
      if s.running.Some? {
        var p := Resume(s.running.value.task, r, s.store, valueLen);
        EffectsQuiet(s.events, Emits(p.out), s.ch.log, s.met, valueLen);
      }
    case LinkDown => EffectsQuiet(s.events, [Cancelled], s.ch.log, s.met, valueLen);
    case Unload => EffectsQuiet(s.events, [Cancelled], s.ch.log, s.met, valueLen);
    case _ =>
  }

  lemma {:induction false} ApplyPaired(s: State, step: Step, valueLen: nat)
    requires PairedInv(s.ch)
    ensures PairedInv(Apply(s, step, valueLen).ch)
  {
    match step
    case Ask(c) =>
      if ValidCall(c) {
        EncodeReal(c);
        IssueKeepsPaired(s.ch, Encode(c));
      }
    case Queue(d) => TouchKeepsPaired(s.ch, TxWords(d));
    case Poll => ConsumeKeepsPaired(s.ch);
    case _ =>
  }

  /**
   Over every run, whatever the order of calls, polite or not: accepted commands are executed at most
   once each and in order; the effects are one to one, and in order, with the executions of commands
   that mean something in the phase that consumed them; and each operation reports exactly one status
   as its last callback, under its own code and handle, unless it is cut off, when it reports none.
   */
  lemma {:induction false} EveryRunAnswers(auto: bool, steps: seq<Step>, valueLen: nat)
    ensures var s := Run(Init(auto), steps, valueLen);
            && Paired(s.ch.log) && PairedInv(s.ch)
            && Effects(s.events, s.ch.log, s.met, valueLen)
            && Answered(s)
  {
    if steps != [] {
      var front := steps[..|steps| - 1];
      EveryRunAnswers(auto, front, valueLen);
      ApplyPaired(Run(Init(auto), front, valueLen), steps[|steps| - 1], valueLen);
      ApplyEffects(Run(Init(auto), front, valueLen), steps[|steps| - 1], valueLen);
      ApplyAnswered(Run(Init(auto), front, valueLen), steps[|steps| - 1], valueLen);
    }
  }

  /**
   Over every run: an executed command that needs a link has its effect, once, exactly if the client
   pump consumed it; consumed while idle or scanning it is dropped without any.
   */
  lemma {:induction false} LinkCommandDropped(auto: bool, steps: seq<Step>, valueLen: nat, i: nat)
    requires var s := Run(Init(auto), steps, valueLen);
             && i < |s.ch.log| && s.ch.log[i].Ran?
             && (s.ch.log[i].cmd == DISCONNECT || DISCOVER <= s.ch.log[i].cmd <= UNSUBSCRIBE)
    ensures var s := Run(Init(auto), steps, valueLen);
            && i < |s.met|
            && (s.met[i].Client? <==> DidAt(s.events, i))
            && forall j, k :: 0 <= j < k < |s.events| && s.events[j].Did? && s.events[k].Did? ==>
                 s.events[j].at != i || s.events[k].at != i
  {
    EveryRunAnswers(auto, steps, valueLen);
    var s := Run(Init(auto), steps, valueLen);
    if DidAt(s.events, i) {
      var k :| 0 <= k < |s.events| && s.events[k].Did? && s.events[k].at == i;
      assert Caused(s.events[k], s.ch.log, s.met, valueLen);
    }
  }

  // ---------------------------------------------------------------------------
  // Every operation of a run is its handler's.
  // ---------------------------------------------------------------------------

  /** These callbacks and requests stand in the events from a place on. */
  ghost predicate OutAt(events: seq<Event>, from: nat, out: seq<Out>) {
    from + |out| <= |events| && forall i :: 0 <= i < |out| ==> events[from + i] == Emit(out[i])
  }

  lemma {:induction false} OutAtMore(events: seq<Event>, from: nat, a: seq<Out>, b: seq<Out>)
    requires OutAt(events, from, a) && |events| == from + |a|
    ensures OutAt(events + Emits(b), from, a + b)
  {
  }

  lemma {:induction false} OutAtStays(events: seq<Event>, more: seq<Event>, from: nat, out: seq<Out>)
    requires OutAt(events, from, out)
    ensures OutAt(events + more, from, out)
  {
  }

  /** From event `k` on, the handler's output under these answers; it has returned, or is cut off there. */
  ghost predicate PlaysOut(events: seq<Event>, k: nat, plan: Plan, start: Store, replies: seq<Reply>, valueLen: nat) {
    var p := Perform(plan, replies, start, valueLen);
    var end := k + 1 + |p.out|;
    && OutAt(events, k + 1, p.out)
    && (p.task.None? || (end < |events| && events[end].Cancelled?))
  }

  ghost predicate Finished(events: seq<Event>, k: nat, plan: Plan, valueLen: nat) {
    exists start: Store, replies: seq<Reply> :: PlaysOut(events, k, plan, start, replies, valueLen)
  }

  /** The operation at work is at the end of the events, with its handler where its answers have brought it. */
  ghost predicate Playing(events: seq<Event>, running: Running, store: Store, valueLen: nat) {
    var op := running.op;
    var p := Perform(op.plan, op.replies, op.start, valueLen);
    && p.task == Some(running.task) && p.store == store
    && |events| == op.from + 1 + |p.out|
    && events[op.from].Did? && events[op.from].act == Operate(op.plan)
    && OutAt(events, op.from + 1, p.out)
  }

  ghost predicate IsOperation(e: Event) { e.Did? && e.act.Operate? }

  ghost predicate Played(s: State, valueLen: nat) {
    && (s.running.Some? ==> Playing(s.events, s.running.value, s.store, valueLen))
    && (forall k :: 0 <= k < |s.events| && IsOperation(s.events[k]) ==>
          || Finished(s.events, k, s.events[k].act.plan, valueLen)
          || (s.running.Some? && s.running.value.op.from == k))
  }

  lemma {:induction false} FinishedStays(events: seq<Event>, more: seq<Event>, k: nat, plan: Plan, valueLen: nat)
    requires Finished(events, k, plan, valueLen)
    ensures Finished(events + more, k, plan, valueLen)
  {
    var start: Store, replies: seq<Reply> :| PlaysOut(events, k, plan, start, replies, valueLen);
    OutAtStays(events, more, k + 1, Perform(plan, replies, start, valueLen).out);
    assert PlaysOut(events + more, k, plan, start, replies, valueLen);
  }

  /** With nothing at work, further events that start no operation leave all of them finished. */
  lemma {:induction false} AllFinishedStay(s: State, t: State, more: seq<Event>, valueLen: nat)
    requires Played(s, valueLen) && s.running.None? && t.running.None? && t.events == s.events + more
    requires forall i :: 0 <= i < |more| ==> !IsOperation(more[i])
    ensures Played(t, valueLen)
  {
    forall k | 0 <= k < |t.events| && IsOperation(t.events[k])
      ensures Finished(t.events, k, t.events[k].act.plan, valueLen)
    {
      FinishedStays(s.events, more, k, s.events[k].act.plan, valueLen);
    }
  }

  /** An operation under way puts out `more`, and waits again, returns or is cut off. */
  lemma {:induction false} GoesOn(s: State, t: State, from: nat, plan: Plan, more: seq<Event>, valueLen: nat)
    requires t.events == s.events + more && from < |s.events| && s.events[from].Did?
    requires s.events[from].act == Operate(plan)
    requires forall i :: 0 <= i < |more| ==> !IsOperation(more[i])
    requires forall k :: 0 <= k < |s.events| && k != from && IsOperation(s.events[k]) ==>
               Finished(s.events, k, s.events[k].act.plan, valueLen)
    requires if t.running.Some?
             then t.running.value.op.from == from && Playing(t.events, t.running.value, t.store, valueLen)
             else Finished(t.events, from, plan, valueLen)
    ensures Played(t, valueLen)
  {
    forall k | 0 <= k < |t.events| && IsOperation(t.events[k]) && k != from
      ensures Finished(t.events, k, t.events[k].act.plan, valueLen)
    {
      FinishedStays(s.events, more, k, s.events[k].act.plan, valueLen);
    }
  }

  lemma {:induction false} StartPlays(s: State, plan: Plan, valueLen: nat)
    requires Played(s, valueLen) && s.running.None?
    ensures var op := Operation(plan, |s.events|, s.store, []);
            var t := s.(events := s.events + [Did(|s.ch.log|, Operate(plan))]);
            Played(Advance(t, op, Begin(plan, s.store)), valueLen)
  {
    var did := Did(|s.ch.log|, Operate(plan));
    var started := s.(events := s.events + [did]);
    var p := Begin(plan, s.store);
    var t := Advance(started, Operation(plan, |s.events|, s.store, []), p);
    StartsOut(s.events, did, plan, s.store, valueLen);
    forall k | 0 <= k < |s.events| && IsOperation(s.events[k])
      ensures Finished(started.events, k, s.events[k].act.plan, valueLen)
    {
      FinishedStays(s.events, [did], k, s.events[k].act.plan, valueLen);
    }
    GoesOn(started, t, |s.events|, plan, Emits(p.out), valueLen);
  }

  /** The start of an operation: its handler is at its first await, or has returned. */
  lemma {:induction false} StartsOut(events: seq<Event>, did: Event, plan: Plan, store: Store, valueLen: nat)
    requires did.Did? && did.act == Operate(plan)
    ensures var p, op := Begin(plan, store), Operation(plan, |events|, store, []);
            var more := events + [did] + Emits(p.out);
            && (p.task.Some? ==> Playing(more, Running(op, p.task.value), p.store, valueLen))
            && (p.task.None? ==> Finished(more, op.from, plan, valueLen))
  {
    var p := Begin(plan, store);
    var more := events + [did] + Emits(p.out);
    assert p == Perform(plan, [], store, valueLen);
    OutAtMore(events + [did], |events| + 1, [], p.out);
    assert [] + p.out == p.out;
    if p.task.None? {
      assert PlaysOut(more, |events|, plan, store, [], valueLen);
    }
  }

  lemma {:induction false} ReplyPlays(s: State, r: Reply, valueLen: nat)
    requires Played(s, valueLen) && s.running.Some?
    ensures Played(Apply(s, Answer(r), valueLen), valueLen)
  {
    var run, t := s.running.value, Apply(s, Answer(r), valueLen);
    var q := Resume(run.task, r, s.store, valueLen);
    ReplyExtends(s.events, run, r, s.store, valueLen);
    GoesOn(s, t, run.op.from, run.op.plan, Emits(q.out), valueLen);
  }

  /** One more answer: the handler is where its answers have brought it, or has returned with all it has put out. */
  lemma {:induction false} ReplyExtends(events: seq<Event>, run: Running, r: Reply, store: Store, valueLen: nat)
    requires Playing(events, run, store, valueLen)
    ensures var q, op := Resume(run.task, r, store, valueLen), run.op.(replies := run.op.replies + [r]);
            var more := events + Emits(q.out);
            && (q.task.Some? ==> Playing(more, Running(op, q.task.value), q.store, valueLen))
            && (q.task.None? ==> Finished(more, op.from, op.plan, valueLen))
  {
    var op, q := run.op, Resume(run.task, r, store, valueLen);
    var more := events + Emits(q.out);
    PerformMore(op.plan, op.replies, r, op.start, valueLen);
    OutAtMore(events, op.from + 1, Perform(op.plan, op.replies, op.start, valueLen).out, q.out);
    if q.task.None? {
      assert PlaysOut(more, op.from, op.plan, op.start, op.replies + [r], valueLen);
    }
  }

  lemma {:induction false} CutPlays(s: State, phase: Phase, valueLen: nat)
    requires Played(s, valueLen)
    ensures Played(CutOff(s, phase), valueLen)
  {
    if s.running.Some? {
      var op, t := s.running.value.op, CutOff(s, phase);
      OutAtStays(s.events, [Cancelled], op.from + 1, Perform(op.plan, op.replies, op.start, valueLen).out);
      assert PlaysOut(t.events, op.from, op.plan, op.start, op.replies, valueLen);
      GoesOn(s, t, op.from, op.plan, [Cancelled], valueLen);
    }
  }

  lemma {:induction false} PollPlays(s: State, valueLen: nat)
    requires Played(s, valueLen) && (s.running.Some? ==> s.phase.Client?)
    ensures Played(PollStep(s, valueLen), valueLen)
  {
    var t := PollStep(s, valueLen);
    if s.running.None? {
      if s.phase.Client? && s.ch.cmd != DISCONNECT && PlanOf(s.ch.cmd, s.ch.regs, valueLen).Some? {
        StartPlays(s, PlanOf(s.ch.cmd, s.ch.regs, valueLen).value, valueLen);
      } else {
        AllFinishedStay(s, t, t.events[|s.events|..], valueLen);
      }
    }
  }

  lemma {:induction false} ApplyPlays(s: State, step: Step, valueLen: nat)
    requires Played(s, valueLen) && (s.running.Some? ==> s.phase.Client?)
    ensures Played(Apply(s, step, valueLen), valueLen)
  {
    match step
    case Poll => PollPlays(s, valueLen);
    case Answer(r) => if s.running.Some? { ReplyPlays(s, r, valueLen); }
    case LinkDown => CutPlays(s, Idle, valueLen);
    case Unload => CutPlays(s, Stopped, valueLen);
    case _ =>
  }

  /**
   Over every run: what an operation asks of the peer and calls back with, from its start on, is its
   handler's output under some answers, up to its return, its cut-off or the present.
   */
  lemma {:induction false} EveryRunPlays(auto: bool, steps: seq<Step>, valueLen: nat)
    ensures Played(Run(Init(auto), steps, valueLen), valueLen)
  {
    if steps != [] {
      var front := steps[..|steps| - 1];
      EveryRunPlays(auto, front, valueLen);
      EveryRunAnswers(auto, front, valueLen);
      ApplyPlays(Run(Init(auto), front, valueLen), steps[|steps| - 1], valueLen);
    }
  }

  /** Over every run the store stays within its capacity, as the subscription results require. */
  lemma {:induction false} EveryStoreFits(auto: bool, steps: seq<Step>, valueLen: nat)
    ensures |Run(Init(auto), steps, valueLen).store| <= STORE_CAP
  {
    if steps != [] {
      var front, step := steps[..|steps| - 1], steps[|steps| - 1];
      EveryStoreFits(auto, front, valueLen);
      var s := Run(Init(auto), front, valueLen);
      if step.Answer? && s.running.Some? {
        ResumeFits(s.running.value.task, step.reply, s.store, valueLen);
      }
    }
  }

  // ---------------------------------------------------------------------------
  // Polite runs: every effect is what its caller asked for.
  // ---------------------------------------------------------------------------

  /** What a step stores without looking at the command word agrees with what a pending command still needs. */
  ghost predicate PoliteStep(s: State, step: Step) {
    match step
    case Ask(c) => ValidCall(c) ==> Harmless(Encode(c), Pending(s.ch))
    case Queue(d) => Queues(s, d) ==> Agrees(TxWords(d), Pending(s.ch))
    case _ => true
  }

  ghost predicate Polite(auto: bool, steps: seq<Step>, valueLen: nat) {
    forall k :: 0 <= k < |steps| ==> PoliteStep(Run(Init(auto), steps[..k], valueLen), steps[k])
  }

  ghost predicate FromCalls(log: seq<Entry<Reg, Val>>) {
    forall k :: 0 <= k < |log| && log[k].Took? ==> exists c: CentralCall :: ValidCall(c) && log[k].call == Encode(c)
  }

  ghost predicate ChannelOk(ch: Channel<Reg, Val>) { CommandSlot.Inv(ch) && FromCalls(ch.log) }

  lemma {:induction false} IssueChannelOk(ch: Channel<Reg, Val>, c: CentralCall)
    requires ChannelOk(ch) && ValidCall(c) && Harmless(Encode(c), Pending(ch))
    ensures ChannelOk(Issue(ch, Encode(c)))
  {
    EncodeReal(c);
    IssueKeepsInv(ch, Encode(c));
  }

  lemma {:induction false} ConsumeChannelOk(ch: Channel<Reg, Val>)
    requires ChannelOk(ch)
    ensures ChannelOk(Consume(ch))
  {
    ConsumeKeepsInv(ch);
  }

  lemma {:induction false} TouchChannelOk(ch: Channel<Reg, Val>, words: map<Reg, Val>)
    requires ChannelOk(ch) && Agrees(words, Pending(ch))
    ensures ChannelOk(Touch(ch, words))
  {
    TouchKeepsInv(ch, words);
  }

  lemma {:induction false} ApplyChannelOk(s: State, step: Step, valueLen: nat)
    requires ChannelOk(s.ch) && PoliteStep(s, step)
    ensures ChannelOk(Apply(s, step, valueLen).ch)
  {
    match step
    case Ask(c) => if ValidCall(c) { IssueChannelOk(s.ch, c); }
    case Queue(d) => if Queues(s, d) { TouchChannelOk(s.ch, TxWords(d)); }
    case Poll => ConsumeChannelOk(s.ch);
    case _ =>
  }

  /** An effect is what some call, accepted just before the execution that caused it, asked for. */
  ghost predicate AsAsked(e: Event, log: seq<Entry<Reg, Val>>, valueLen: nat) {
    e.Did? ==>
      && 0 < e.at < |log| && log[e.at - 1].Took?
      && exists c: CentralCall :: ValidCall(c) && log[e.at - 1].call == Encode(c) && e.act == Intent(c, valueLen)
  }

  lemma {:induction false} CausedAsAsked(e: Event, ch: Channel<Reg, Val>, met: seq<Phase>, valueLen: nat)
    requires ChannelOk(ch) && |met| == |ch.log| && Caused(e, ch.log, met, valueLen)
    ensures AsAsked(e, ch.log, valueLen)
  {
    if e.Did? {
      assert e.at % 2 == 1;
      assert ch.log[e.at - 1].Took?;
      var c: CentralCall :| ValidCall(c) && ch.log[e.at - 1].call == Encode(c);
      CarriedIsIntended(c, ch.log[e.at].regs, valueLen);
    }
  }

  lemma {:induction false} PoliteChannelOk(auto: bool, steps: seq<Step>, valueLen: nat)
    requires Polite(auto, steps, valueLen)
    ensures ChannelOk(Run(Init(auto), steps, valueLen).ch)
  {
    if steps != [] {
      var front := steps[..|steps| - 1];
      assert forall k :: 0 <= k < |front| ==> front[..k] == steps[..k];
      PoliteChannelOk(auto, front, valueLen);
      ApplyChannelOk(Run(Init(auto), front, valueLen), steps[|steps| - 1], valueLen);
    }
  }

  /**
   Over every polite run: accepted commands are executed at most once, in order and with their own
   parameters; every effect is what the call executed asked for; every executed command that means
   something in its phase has one; and every operation is answered as in `EveryRunAnswers`.
   */
  lemma {:induction false} CentralTraceHolds(auto: bool, steps: seq<Step>, valueLen: nat)
    requires Polite(auto, steps, valueLen)
    ensures var s := Run(Init(auto), steps, valueLen);
            && Transparent(s.ch.log)
            && Effects(s.events, s.ch.log, s.met, valueLen)
            && (forall k :: 0 <= k < |s.events| ==> AsAsked(s.events[k], s.ch.log, valueLen))
            && Answered(s)
  {
    EveryRunAnswers(auto, steps, valueLen);
    PoliteChannelOk(auto, steps, valueLen);
    var s := Run(Init(auto), steps, valueLen);
    forall k | 0 <= k < |s.events| ensures AsAsked(s.events[k], s.ch.log, valueLen) {
      assert Caused(s.events[k], s.ch.log, s.met, valueLen);
      CausedAsAsked(s.events[k], s.ch, s.met, valueLen);
    }
  }

  // ---------------------------------------------------------------------------
  // The shared send buffer.
  // ---------------------------------------------------------------------------

  lemma {:induction false} Go(steps: seq<Step>, s: State, step: Step, valueLen: nat)
    returns (steps': seq<Step>, s': State)
    requires Run(Init(true), steps, valueLen) == s
    ensures steps' == steps + [step] && s' == Apply(s, step, valueLen) && Run(Init(true), steps', valueLen) == s'
  {
    steps', s' := steps + [step], Apply(s, step, valueLen);
    assert steps'[..|steps'| - 1] == steps;
  }

  /** What the client pump does with a write that is pending with these bytes in the buffer. */
  lemma {:induction false} PollWrites(s: State, h: U16, data: seq<Byte>, valueLen: nat)
    requires s.phase.Client? && s.running.None? && s.ch.cmd == WRITE && 0 < |data| <= valueLen && |data| <= BUF_CAP
    requires Handle in s.ch.regs && s.ch.regs[Handle] == Num(h) && Buf in s.ch.regs && s.ch.regs[Buf] == Bytes(data)
    ensures PollStep(s, valueLen).events
         == s.events + [Did(|s.ch.log|, Operate(WriteValue(h, data, true))), Emit(Asked(WriteHandle(h, data, true)))]
  {
    assert WriteBytes(s.ch.regs, valueLen) == data && Low(h) == h;
    assert PlanOf(s.ch.cmd, s.ch.regs, valueLen) == Some(WriteValue(h, data, true));
    assert Emits([Asked(WriteHandle(h, data, true))]) == [Emit(Asked(WriteHandle(h, data, true)))];
  }

  /** A notification queued between the acceptance of a client write and its execution goes out in its place. */
  lemma {:induction false} QueuedTxReplacesWrite(h: U16, valueLen: nat) returns (steps: seq<Step>)
    requires valueLen >= 1
    ensures steps == [Linked(true), Ask(Write(h, [1], true)), Queue([2]), Poll]
    ensures Run(Init(true), steps, valueLen).events
         == [Did(1, Operate(WriteValue(h, [2], true))), Emit(Asked(WriteHandle(h, [2], true)))]
  {
    var s;
    steps, s := Go([], Init(true), Linked(true), valueLen);
    var linked := s;
    steps, s := Go(steps, s, Ask(Write(h, [1], true)), valueLen);
    steps, s := Go(steps, s, Queue([2]), valueLen);
    QueueBehindWrite(linked, h, valueLen);
    PollWrites(s, h, [2], valueLen);
    steps, s := Go(steps, s, Poll, valueLen);
  }

  lemma {:induction false} QueueBehindWrite(s: State, h: U16, valueLen: nat)
    requires s.ch == Channel(NONE, map[], []) && !s.sendReq
    ensures var t := Apply(Apply(s, Ask(Write(h, [1], true)), valueLen), Queue([2]), valueLen);
            && t.phase == s.phase && t.running == s.running && t.events == s.events
            && t.ch.cmd == WRITE && |t.ch.log| == 1
            && Handle in t.ch.regs && t.ch.regs[Handle] == Num(h) && Buf in t.ch.regs && t.ch.regs[Buf] == Bytes([2])
  {
  }

  /** A queued notification is in the way of the next until it is drained; one of 0 or over 512 bytes is refused. */
  lemma {:induction false} QueuedUntilDrained(s: State, d: seq<Byte>, e: seq<Byte>, valueLen: nat)
    requires 1 <= |d| <= 512 && !s.sendReq
    ensures var t := Apply(s, Queue(d), valueLen);
            && t == s.(ch := Touch(s.ch, TxWords(d)), sendReq := true)
            && Apply(t, Queue(e), valueLen) == t
            && Apply(t, Drained, valueLen) == t.(sendReq := false)
    ensures |e| == 0 || |e| > 512 ==> Apply(s, Queue(e), valueLen) == s
  {
  }

  // ---------------------------------------------------------------------------
  // No operation without a connection that was asked for.
  // ---------------------------------------------------------------------------

  /** A connect command has been executed. */
  ghost predicate Connects(log: seq<Entry<Reg, Val>>) {
    exists k :: 0 <= k < |log| && log[k].Ran? && log[k].cmd == CONNECT
  }

  /** No link, and nothing done that needs one. */
  ghost predicate Unlinked(s: State) {
    && !s.phase.Connecting? && !s.phase.Client? && s.running.None?
    && forall k :: 0 <= k < |s.events| ==> s.events[k].Did? && (s.events[k].act.StartScan? || s.events[k].act.StopScan?)
  }

  lemma {:induction false} StepUnlinked(s: State, step: Step, valueLen: nat)
    requires Connects(s.ch.log) || Unlinked(s)
    ensures var t := Apply(s, step, valueLen); Connects(t.ch.log) || Unlinked(t)
  {
    var t := Apply(s, step, valueLen);
    if Connects(s.ch.log) {
      var k :| 0 <= k < |s.ch.log| && s.ch.log[k].Ran? && s.ch.log[k].cmd == CONNECT;
      LogGrows(s, step, valueLen);
      assert t.ch.log[k] == s.ch.log[k];
    } else if step.Poll? && s.ch.cmd == CONNECT && !s.phase.Stopped? {
      assert t.ch.log[|s.ch.log|] == Ran(CONNECT, s.ch.regs);
    }
  }

  lemma {:induction false} LogGrows(s: State, step: Step, valueLen: nat)
    ensures s.ch.log <= Apply(s, step, valueLen).ch.log
  {
  }

  /**
   Without a configured peer, the role dials, asks anything of a peer and makes client callbacks only
   after executing a connect command, whatever the order of calls, polite or not.
   */
  lemma {:induction false} NoOperationWithoutConnect(steps: seq<Step>, valueLen: nat)
    ensures var s := Run(Init(false), steps, valueLen); Connects(s.ch.log) || Unlinked(s)
  {
    if steps != [] {
      var front := steps[..|steps| - 1];
      NoOperationWithoutConnect(front, valueLen);
      StepUnlinked(Run(Init(false), front, valueLen), steps[|steps| - 1], valueLen);
    }
  }

  // ---------------------------------------------------------------------------
  // Links: what goes on without one, and what is remembered across them.
  // ---------------------------------------------------------------------------

  /** Something asked of a peer or done to a link, or a client callback. */
  predicate NeedsLink(e: Event) { e.Emit? || (e.Did? && (e.act.Operate? || e.act.HangUp?)) }

  ghost predicate QuietSince(s: State, start: nat) {
    && !s.phase.Client? && s.running.None?
    && start <= |s.events| && forall k :: start <= k < |s.events| ==> !NeedsLink(s.events[k])
  }

  lemma {:induction false} StepQuiet(s: State, step: Step, start: nat, valueLen: nat)
    requires QuietSince(s, start) && step != Linked(true)
    ensures QuietSince(Apply(s, step, valueLen), start)
  {
  }

  /** Without a link coming up, nothing is asked of a peer and no client callback is made. */
  lemma {:induction false} QuietWithoutLink(s: State, steps: seq<Step>, valueLen: nat)
    requires !s.phase.Client? && s.running.None? && forall k :: 0 <= k < |steps| ==> steps[k] != Linked(true)
    ensures QuietSince(Run(s, steps, valueLen), |s.events|)
  {
    if steps != [] {
      QuietWithoutLink(s, steps[..|steps| - 1], valueLen);
      StepQuiet(Run(s, steps[..|steps| - 1], valueLen), steps[|steps| - 1], |s.events|, valueLen);
    }
  }

  lemma {:induction false} RunSplits(s: State, a: seq<Step>, b: seq<Step>, valueLen: nat)
    ensures Run(s, a + b, valueLen) == Run(Run(s, a, valueLen), b, valueLen)
  {
    if b == [] {
      assert a + b == a;
    } else {
      RunSplits(s, a, b[..|b| - 1], valueLen);
      assert (a + b)[..|a + b| - 1] == a + b[..|b| - 1];
    }
  }

  /**
   Over every run: after the link goes down, a connection attempt fails or unload comes, and from the
   start, nothing is asked of a peer and no client callback is made until a link comes up again.
   */
  lemma {:induction false} QuietBetweenLinks(auto: bool, before: seq<Step>, end: Step, after: seq<Step>, valueLen: nat)
    requires end == LinkDown || end == Linked(false) || end == Unload
    requires end == Linked(false) ==> Run(Init(auto), before, valueLen).phase.Connecting?
    requires forall k :: 0 <= k < |after| ==> after[k] != Linked(true)
    ensures QuietSince(Run(Init(auto), after, valueLen), 0)
    ensures var s := Run(Init(auto), before + [end], valueLen);
            QuietSince(Run(Init(auto), before + [end] + after, valueLen), |s.events|)
  {
    QuietWithoutLink(Init(auto), after, valueLen);
    var s := Run(Init(auto), before + [end], valueLen);
    EveryRunAnswers(auto, before, valueLen);
    EveryRunAnswers(auto, before + [end], valueLen);
    assert (before + [end])[..|before|] == before;
    assert !s.phase.Client?;
    QuietWithoutLink(s, after, valueLen);
    RunSplits(Init(auto), before + [end], after, valueLen);
  }

  /** After unload nothing more happens at all. */
  lemma {:induction false} UnloadSilences(s: State, steps: seq<Step>, valueLen: nat)
    ensures var t := Run(Apply(s, Unload, valueLen), steps, valueLen);
            t.phase.Stopped? && t.running.None? && t.events == Apply(s, Unload, valueLen).events
  {
    if steps != [] {
      UnloadSilences(s, steps[..|steps| - 1], valueLen);
    }
  }

  /** A remembered handle was answered by the peer in one of these steps. */
  ghost predicate AnsweredIn(e: Known, steps: seq<Step>) {
    exists k, i :: 0 <= k < |steps| && steps[k].Answer? && steps[k].reply.Characteristics?
      && 0 <= i < |steps[k].reply.chars|
      && e == Known(steps[k].reply.chars[i].handle, steps[k].reply.chars[i].cccd)
  }

  lemma {:induction false} AnsweredInMore(e: Known, steps: seq<Step>, step: Step)
    requires AnsweredIn(e, steps)
    ensures AnsweredIn(e, steps + [step])
  {
    var k, i :| 0 <= k < |steps| && steps[k].Answer? && steps[k].reply.Characteristics?
      && 0 <= i < |steps[k].reply.chars|
      && e == Known(steps[k].reply.chars[i].handle, steps[k].reply.chars[i].cccd);
    assert (steps + [step])[k] == steps[k];
  }

  lemma {:induction false} RememberFrom(store: Store, chars: seq<Characteristic>)
    ensures forall e :: e in Remember(store, chars) ==>
      e in store || exists i :: 0 <= i < |chars| && e == Known(chars[i].handle, chars[i].cccd)
  {
    if chars != [] {
      RememberFrom(store, chars[..|chars| - 1]);
    }
  }

  /** A session remembers nothing from before: what it knows, its own peer has answered since the link came up. */
  lemma {:induction false} StoreIsFromThisLink(s: State, steps: seq<Step>, valueLen: nat)
    requires s.phase.Connecting? && forall k :: 0 <= k < |steps| ==> !steps[k].Linked?
    ensures var t := Run(Apply(s, Linked(true), valueLen), steps, valueLen);
            forall e :: e in t.store ==> AnsweredIn(e, steps)
  {
    if steps != [] {
      var front, step := steps[..|steps| - 1], steps[|steps| - 1];
      StoreIsFromThisLink(s, front, valueLen);
      var m := Run(Apply(s, Linked(true), valueLen), front, valueLen);
      var t := Apply(m, step, valueLen);
      assert steps == front + [step];
      forall e | e in t.store ensures AnsweredIn(e, steps) {
        if e in m.store {
          AnsweredInMore(e, front, step);
        } else {
          StoreGains(m, step, e, valueLen);
          assert steps[|front|] == step;
        }
      }
    }
  }

  lemma {:induction false} StoreGains(s: State, step: Step, e: Known, valueLen: nat)
    requires e in Apply(s, step, valueLen).store && e !in s.store
    ensures step.Answer? && step.reply.Characteristics?
    ensures exists i :: 0 <= i < |step.reply.chars|
              && e == Known(step.reply.chars[i].handle, step.reply.chars[i].cccd)
  {
    if step.Answer? && step.reply.Characteristics? {
      RememberFrom(s.store, step.reply.chars);
    }
  }

  // ---------------------------------------------------------------------------
  // The ordinary course.
  // ---------------------------------------------------------------------------

  /** A call made while nothing is pending, and consumed at once. */
  lemma {:induction false} AskAndPoll(s: State, c: CentralCall, valueLen: nat)
    requires s.ch.cmd == NONE && ValidCall(c)
    ensures var t := Apply(s, Ask(c), valueLen);
            && t.ch.cmd == Encode(c).cmd && Carries(t.ch.regs, Encode(c)) && |t.ch.log| == |s.ch.log| + 1
            && t == s.(ch := t.ch, met := t.met)
            && ActionOf(t.ch.cmd, t.ch.regs, valueLen) == Some(Intent(c, valueLen))
  {
    EncodeReal(c);
    CarriedIsIntended(c, Apply(s, Ask(c), valueLen).ch.regs, valueLen);
  }

  /** From idle a scan is started with the caller's settings; it ends by itself back in idle. */
  lemma {:induction false} ScanFromIdle(s: State, settings: Val, valueLen: nat)
    requires s.phase.Idle? && s.ch.cmd == NONE
    ensures var t := Run(s, [Ask(ScanStart(settings)), Poll], valueLen);
            && t.phase.Scanning? && t.ch.cmd == NONE && Apply(t, ScanEnds, valueLen).phase.Idle?
            && t.events == s.events + [Did(|s.ch.log| + 1, StartScan(settings))]
  {
    RunTwo(s, Ask(ScanStart(settings)), Poll, valueLen);
    AskAndPoll(s, ScanStart(settings), valueLen);
  }

  lemma {:induction false} StopWhileScanning(s: State, valueLen: nat)
    requires s.phase.Scanning? && s.ch.cmd == NONE
    ensures var t := Run(s, [Ask(ScanStop), Poll], valueLen);
            && t.phase.Idle? && t.ch.cmd == NONE && t.events == s.events + [Did(|s.ch.log| + 1, StopScan)]
  {
    RunTwo(s, Ask(ScanStop), Poll, valueLen);
    AskAndPoll(s, ScanStop, valueLen);
  }

  /** From idle, or breaking off a scan, the role dials the caller's address; it is back to idle if that fails. */
  lemma {:induction false} ConnectWithoutLink(s: State, addr: seq<Byte>, kind: Byte, valueLen: nat)
    requires (s.phase.Idle? || s.phase.Scanning?) && s.ch.cmd == NONE && |addr| == 6
    ensures var t := Run(s, [Ask(Connect(addr, kind)), Poll], valueLen);
            && t.phase.Connecting? && t.ch.cmd == NONE
            && t.events == s.events + [Did(|s.ch.log| + 1, Dial(addr, kind))]
            && Apply(t, Linked(true), valueLen).phase.Client?
            && Apply(t, Linked(false), valueLen).phase.Idle?
  {
    RunTwo(s, Ask(Connect(addr, kind)), Poll, valueLen);
    AskAndPoll(s, Connect(addr, kind), valueLen);
  }

  /** In a client session a read asks for the caller's handle, hands over what comes, and leaves the pump free. */
  lemma {:induction false} ReadInSession(s: State, h: U16, v: seq<Byte>, valueLen: nat)
    requires s.phase.Client? && s.running.None? && s.ch.cmd == NONE
    ensures var t := Run(Run(s, [Ask(Read(h)), Poll], valueLen), [Answer(Value(v))], valueLen);
            && t.phase.Client? && t.running.None? && t.ch.cmd == NONE
            && t.events == s.events
               + [Did(|s.ch.log| + 1, Operate(ReadValue(h))), Emit(Asked(ReadHandle(h)))]
               + [Emit(OnRead(h, v[..Min(|v|, valueLen)])), Emit(OnStatus(5, true, h))]
  {
    RunTwo(s, Ask(Read(h)), Poll, valueLen);
    AskAndPoll(s, Read(h), valueLen);
    var m := Run(s, [Ask(Read(h)), Poll], valueLen);
    assert Emits([Asked(ReadHandle(h))]) == [Emit(Asked(ReadHandle(h)))];
    assert m.events == s.events + [Did(|s.ch.log| + 1, Operate(ReadValue(h))), Emit(Asked(ReadHandle(h)))];
    assert [Answer(Value(v))][..0] == [];
    var out := [OnRead(h, v[..Min(|v|, valueLen)]), OnStatus(5, true, h)];
    assert Emits(out) == [Emit(out[0]), Emit(out[1])];
  }

  lemma {:induction false} RunTwo(s: State, a: Step, b: Step, valueLen: nat)
    ensures Run(s, [a, b], valueLen) == Apply(Apply(s, a, valueLen), b, valueLen)
  {
    assert [a, b][..1] == [a] && [a][..0] == [];
    assert Run(s, [a], valueLen) == Apply(s, a, valueLen);
  }
}
