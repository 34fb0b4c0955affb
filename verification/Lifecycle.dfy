/**
 The load/unload handshake between the controlling thread (`runtime_ble_load`,
 `runtime_ble_unload` in the glue) and the runtime threads it creates (`runtime_ble_run`
 and `chip::run`, which is the same protocol on both chip families).

 Every load, store, semaphore operation, thread creation, join and free is one step. A timed
 join that gives up leaves a runtime thread behind, so several may be alive at once.
 */
module Lifecycle {
  import opened Common

  /** `Timeout` is the glue's own answer; the others are published by a runtime thread. */
  datatype Status = Ok | Invalid | Mpsl | Sdc | Pending | Timeout

  datatype Phase =
    | ResetUnload
    | ResetSend
    | MarkPending
    | BringUp
    | Publish(status: Status)
    | Give(status: Status)
    | Serving
    | Returning
    | Exited

  /**
   A runtime thread, by the statement it executes next; `Returning` is its way out after its last one.
   `published` is what it has put in the status word, once it has.
   */
  datatype Thread = Thread(phase: Phase, published: Option<Status>)

  /** The words and semaphores both sides touch. */
  datatype Words = Words(unloadReq: bool, status: Status, wakeSem: bool, loadSem: bool)

  /** Why a session is being closed: an unload, or a load that failed. */
  datatype Why = Unloading | Failed(status: Status)

  datatype Tail = Signal | Wake | Join | Free(joined: bool)

  /** The controlling thread, by the statement it executes next. */
  datatype Ctrl = Idle | ResetWake | ResetLoad | Create | TakeLoad | ReadStatus | Closing(at: Tail, why: Why)

  /**
   How a load that created a thread came back. `thread` counts the threads created so far, its own
   last; `clean` says that no earlier thread was alive when the load began.
   */
  datatype Result = Result(status: Status, thread: nat, clean: bool)

  /** A stack released: by an unload, after a successful join, with its thread exited. */
  datatype Release = Release(byUnload: bool, joined: bool, exited: bool)

  datatype State = State(
    words: Words,
    threads: seq<Thread>,
    ctrl: Ctrl,
    loaded: bool,
    stack: Option<nat>,
    clean: bool,
    results: seq<Result>,
    releases: seq<Release>)

  /**
   `Control` is the controller's next statement and `GiveUp` an expiring wait; `Work` is a runtime
   thread's next statement, `Outcome` the end of its bring-up, `Leave` the end of its session.
   */
  datatype Step =
    | Load(stackOk: bool)
    | Unload
    | Control
    | GiveUp
    | Work(t: nat)
    | Outcome(t: nat, status: Status)
    | Leave(t: nat)

  function Init(): State {
    State(Words(false, Pending, false, false), [], Idle, false, None, false, [], [])
  }

  predicate AllExited(threads: seq<Thread>) {
    forall i :: 0 <= i < |threads| ==> threads[i].phase.Exited?
  }

  predicate HasExited(threads: seq<Thread>, t: Option<nat>) {
    t.Some? && t.value < |threads| && threads[t.value].phase.Exited?
  }

  /** The thread the glue's single thread object refers to. */
  function Latest(threads: seq<Thread>): Option<nat> {
    if threads == [] then None else Some(|threads| - 1)
  }

  /** The shared tail of a failed load and of an unload. Only the failed load's join has a deadline. */
  function CloseStep(s: State, at: Tail, why: Why): State {
    match at
    case Signal => s.(words := s.words.(unloadReq := true), ctrl := Closing(Wake, why))
    case Wake => s.(words := s.words.(wakeSem := true), ctrl := Closing(Join, why))
    case Join => if HasExited(s.threads, Latest(s.threads)) then s.(ctrl := Closing(Free(true), why)) else s
    case Free(joined) =>
      s.(stack := None, loaded := false, ctrl := Idle,
         results := if why.Failed? then s.results + [Result(why.status, |s.threads|, s.clean)] else s.results,
         releases := s.releases + [Release(why.Unloading?, joined, HasExited(s.threads, s.stack))])
  }

  /** One statement of load or unload; blocking statements wait by stuttering. */
  function ControlStep(s: State): State {
    match s.ctrl
    case Idle => s
    case ResetWake => s.(words := s.words.(wakeSem := false), ctrl := ResetLoad)
    case ResetLoad => s.(words := s.words.(loadSem := false), ctrl := Create)
    case Create =>
      s.(threads := s.threads + [Thread(ResetUnload, None)], stack := Some(|s.threads|), ctrl := TakeLoad)
    case TakeLoad => if s.words.loadSem then s.(words := s.words.(loadSem := false), ctrl := ReadStatus) else s
    case ReadStatus =>
      if s.words.status == Ok
      then s.(loaded := true, ctrl := Idle, results := s.results + [Result(Ok, |s.threads|, s.clean)])
      else s.(ctrl := Closing(Signal, Failed(s.words.status)))
    case Closing(at, why) => CloseStep(s, at, why)
  }

  /** A wait with a deadline expires only while what it waits for has not happened. */
  function GiveUpStep(s: State): State {
    if s.ctrl.TakeLoad? && !s.words.loadSem then s.(ctrl := Closing(Signal, Failed(Timeout)))
    else if s.ctrl.Closing? && s.ctrl.at.Join? && s.ctrl.why.Failed? && !HasExited(s.threads, Latest(s.threads))
    then s.(ctrl := Closing(Free(false), s.ctrl.why))
    else s
  }

  /** One statement of a runtime thread, seen from the thread. */
  function NextThread(th: Thread): Thread {
    match th.phase
    case ResetUnload => th.(phase := ResetSend)
    case ResetSend => th.(phase := MarkPending)
    case MarkPending => th.(phase := BringUp)
    case Publish(st) => Thread(Give(st), Some(st))
    case Give(st) => th.(phase := if st == Ok then Serving else Returning)
    case Returning => th.(phase := Exited)
    case _ => th
  }

  /** The same statement, seen from the shared words. */
  function NextWords(w: Words, phase: Phase): Words {
    match phase
    case ResetUnload => w.(unloadReq := false)
    case MarkPending => w.(status := Pending)
    case Publish(st) => w.(status := st)
    case Give(_) => w.(loadSem := true)
    case _ => w
  }

  /** The outcomes `chip::run` can publish: no configuration, MPSL failure, SDC failure, success. */
  predicate CanPublish(st: Status) { st.Ok? || st.Invalid? || st.Mpsl? || st.Sdc? }

  /**
   A session ends on seeing the unload request, at once when the GATT cannot be built, or when a
   stack task returns; the model lets it end at any time.
   */
  function MovedThread(th: Thread, step: Step): Thread {
    match step
    case Work(_) => NextThread(th)
    case Outcome(_, st) => if th.phase.BringUp? && CanPublish(st) then th.(phase := Publish(st)) else th
    case Leave(_) => if th.phase.Serving? then th.(phase := Returning) else th
    case _ => th
  }

  predicate ByThread(step: Step) { step.Work? || step.Outcome? || step.Leave? }

  function ThreadStep(s: State, step: Step): State
    requires ByThread(step)
  {
    if step.t >= |s.threads| then s
    else
      var th := s.threads[step.t];
      s.(words := if step.Work? then NextWords(s.words, th.phase) else s.words,
         threads := s.threads[step.t := MovedThread(th, step)])
  }

  function Apply(s: State, step: Step): State {
    match step
    case Load(stackOk) =>
      if s.ctrl.Idle? && !s.loaded && stackOk then s.(ctrl := ResetWake, clean := AllExited(s.threads)) else s
    case Unload => if s.ctrl.Idle? && s.loaded then s.(ctrl := Closing(Signal, Unloading)) else s
    case Control => ControlStep(s)
    case GiveUp => GiveUpStep(s)
    case _ => ThreadStep(s, step)
  }

  function Run(s: State, steps: seq<Step>): State {
    if steps == [] then s else Apply(Run(s, steps[..|steps| - 1]), steps[|steps| - 1])
  }

  // ---------------------------------------------------------------------------
  // Invariants.
  // ---------------------------------------------------------------------------

  predicate Done(th: Thread) { th.phase.Serving? || th.phase.Returning? || th.phase.Exited? }

  /** Past its publication, a thread remembers what it published. */
  ghost predicate PhaseOk(th: Thread) {
    match th.phase
    case Publish(st) => th.published.None? && st != Timeout
    case Give(st) => th.published == Some(st) && st != Timeout
    case Serving => th.published == Some(Ok)
    case Returning => th.published.Some? && th.published != Some(Timeout)
    case Exited => th.published.Some? && th.published != Some(Timeout)
    case _ => th.published.None?
  }

  ghost predicate ThreadsOk(threads: seq<Thread>) {
    forall i :: 0 <= i < |threads| ==> PhaseOk(threads[i])
  }

  /** The session's thread exists: from its creation to the end of the call that releases it. */
  predicate HasThread(s: State) { s.loaded || s.ctrl.TakeLoad? || s.ctrl.ReadStatus? || s.ctrl.Closing? }

  /** Control flow: which thread and stack the controller is dealing with. */
  ghost predicate ControlOk(s: State) {
    && (HasThread(s) ==> s.threads != [] && s.stack == Latest(s.threads))
    && (s.loaded ==> s.ctrl.Idle? || (s.ctrl.Closing? && s.ctrl.why.Unloading?))
    && (s.ctrl.Closing? && s.ctrl.why.Unloading? ==> s.loaded && s.ctrl.at != Free(false))
    && (s.ctrl.Closing? && s.ctrl.at == Free(true) ==> HasExited(s.threads, Latest(s.threads)))
  }

  predicate OthersExited(threads: seq<Thread>) {
    forall i :: 0 <= i < |threads| - 1 ==> threads[i].phase.Exited?
  }

  /** Token, status word and unload flag are the session's own. */
  ghost predicate SessionOk(s: State, th: Thread) {
    && (th.published.Some? ==> s.words.status == th.published.value)
    && (s.words.loadSem || s.ctrl.ReadStatus? || s.loaded ==> Done(th))
    && (s.ctrl.Closing? && s.ctrl.why.Failed? && s.ctrl.why.status != Timeout ==>
          th.published == Some(s.ctrl.why.status))
    && (s.loaded ==> th.published == Some(Ok))
    && (s.ctrl.Closing? && s.ctrl.why.Unloading? && s.ctrl.at != Signal ==> s.words.unloadReq)
    && (!th.phase.ResetUnload? && !(s.ctrl.Closing? && s.ctrl.at != Signal) ==> !s.words.unloadReq)
    && (th.phase.BringUp? || th.phase.Publish? ==> s.words.status == Pending)
  }

  /** A session that began with every earlier thread gone. */
  ghost predicate CleanOk(s: State) {
    if HasThread(s) then s.threads != [] && OthersExited(s.threads) && SessionOk(s, s.threads[|s.threads| - 1])
    else (!s.ctrl.Idle? ==> AllExited(s.threads)) && (s.ctrl.Create? ==> !s.words.loadSem)
  }

  /** The status a clean load returned is the one its own thread published. */
  ghost predicate Fresh(r: Result, threads: seq<Thread>) {
    && 0 < r.thread <= |threads|
    && (r.clean && r.status != Timeout ==> threads[r.thread - 1].published == Some(r.status))
  }

  ghost predicate LogsOk(s: State) {
    && (forall i :: 0 <= i < |s.results| ==> Fresh(s.results[i], s.threads))
    && (forall i :: 0 <= i < |s.releases| ==>
          (s.releases[i].byUnload ==> s.releases[i].joined) && (s.releases[i].joined ==> s.releases[i].exited))
  }

  ghost predicate Inv(s: State) {
    ThreadsOk(s.threads) && ControlOk(s) && (s.clean ==> CleanOk(s)) && LogsOk(s)
  }

  lemma {:induction false} MovedThreadOk(th: Thread, step: Step)
    requires PhaseOk(th)
    ensures PhaseOk(MovedThread(th, step))
    ensures th.phase.Exited? ==> MovedThread(th, step) == th
    ensures th.published.Some? ==> MovedThread(th, step).published == th.published
  {
  }

  lemma {:induction false} ThreadKeepsRest(s: State, step: Step)
    requires ThreadsOk(s.threads) && ControlOk(s) && LogsOk(s) && ByThread(step)
    ensures ThreadsOk(ThreadStep(s, step).threads) && ControlOk(ThreadStep(s, step)) && LogsOk(ThreadStep(s, step))
  {
    if step.t < |s.threads| {
      MovedThreadOk(s.threads[step.t], step);
      var t := ThreadStep(s, step);
      assert forall i :: 0 <= i < |t.threads| && i != step.t ==> t.threads[i] == s.threads[i];
      forall i | 0 <= i < |t.results| ensures Fresh(t.results[i], t.threads) {
        assert Fresh(s.results[i], s.threads);
      }
    }
  }

  lemma {:induction false} SessionThreadKeeps(s: State, th: Thread, step: Step)
    requires PhaseOk(th) && ControlOk(s) && SessionOk(s, th) && ByThread(step)
    ensures SessionOk(s.(words := if step.Work? then NextWords(s.words, th.phase) else s.words), MovedThread(th, step))
  {
  }

  /** In a clean session only the session's own thread moves. */
  lemma {:induction false} ThreadKeepsClean(s: State, step: Step)
    requires ThreadsOk(s.threads) && ControlOk(s) && CleanOk(s) && ByThread(step)
    ensures CleanOk(ThreadStep(s, step))
  {
    if step.t < |s.threads| {
      var th := s.threads[step.t];
      if th.phase.Exited? {
        assert s.threads[step.t := th] == s.threads;
      } else if HasThread(s) {
        assert step.t == |s.threads| - 1;
        SessionThreadKeeps(s, th, step);
      }
    }
  }

  /** The statements of the tail before the free leave threads and logs alone. */
  lemma {:induction false} TailKeepsInv(s: State)
    requires Inv(s) && s.ctrl.Closing? && !s.ctrl.at.Free?
    ensures Inv(ControlStep(s))
  {
    match s.ctrl.at
    case Signal =>
    case Wake =>
    case Join =>
  }

  lemma {:induction false} FreeKeepsInv(s: State)
    requires Inv(s) && s.ctrl.Closing? && s.ctrl.at.Free?
    ensures Inv(ControlStep(s))
  {
    if s.clean && s.ctrl.at.joined {
      assert AllExited(s.threads);
    }
  }

  lemma {:induction false} CloseKeepsInv(s: State)
    requires Inv(s) && s.ctrl.Closing?
    ensures Inv(ControlStep(s))
  {
    if s.ctrl.at.Free? { FreeKeepsInv(s); } else { TailKeepsInv(s); }
  }

  /** Between sessions and at the start of one. */
  lemma {:induction false} OpenKeepsInv(s: State)
    requires Inv(s) && !s.ctrl.Closing?
    ensures Inv(ControlStep(s))
  {
    var t := ControlStep(s);
    match s.ctrl
    case Create =>
      forall i | 0 <= i < |t.results| ensures Fresh(t.results[i], t.threads) {
        assert Fresh(s.results[i], s.threads);
      }
    case _ =>
  }

  lemma {:induction false} ApplyKeepsInv(s: State, step: Step)
    requires Inv(s)
    ensures Inv(Apply(s, step))
  {
    if ByThread(step) {
      ThreadKeepsRest(s, step);
      if s.clean { ThreadKeepsClean(s, step); }
    } else if step.Control? {
      if s.ctrl.Closing? { CloseKeepsInv(s); } else { OpenKeepsInv(s); }
    }
  }

  lemma {:induction false} RunKeepsInv(steps: seq<Step>)
    ensures Inv(Run(Init(), steps))
  {
    if steps != [] {
      RunKeepsInv(steps[..|steps| - 1]);
      ApplyKeepsInv(Run(Init(), steps[..|steps| - 1]), steps[|steps| - 1]);
    }
  }

  // ---------------------------------------------------------------------------
  // What every run guarantees.
  // ---------------------------------------------------------------------------

  /**
   Status freshness: a load that began with no earlier thread alive, and did not time out,
   returned the status its own thread published.
   */
  lemma {:induction false} StatusFreshness(steps: seq<Step>)
    ensures var s := Run(Init(), steps);
            forall i :: 0 <= i < |s.results| && s.results[i].clean && s.results[i].status != Timeout ==>
              && 0 < s.results[i].thread <= |s.threads|
              && s.threads[s.results[i].thread - 1].published == Some(s.results[i].status)
  {
    RunKeepsInv(steps);
    var s := Run(Init(), steps);
    assert forall i :: 0 <= i < |s.results| ==> Fresh(s.results[i], s.threads);
  }

  /**
   No lost unload, in a clean session: once load has returned OK the thread's own reset of the
   unload flag is behind it; the flag an unload then raises is lowered by no step, and is up from
   there until the thread has exited.
   */
  lemma {:induction false} NoLostUnload(steps: seq<Step>)
    ensures var s := Run(Init(), steps);
            s.clean && s.loaded ==>
              && s.threads != [] && Done(s.threads[|s.threads| - 1])
              && (s.words.unloadReq ==> forall step :: Apply(s, step).words.unloadReq)
              && (s.ctrl.Closing? && s.ctrl.at != Signal ==> s.words.unloadReq)
              && (s.ctrl.Closing? && s.ctrl.at.Free? ==> s.threads[|s.threads| - 1].phase.Exited?)
  {
    RunKeepsInv(steps);
    var s := Run(Init(), steps);
    if s.clean && s.loaded && s.words.unloadReq {
      forall step ensures Apply(s, step).words.unloadReq {
        if ByThread(step) && step.t < |s.threads| {
          assert Done(s.threads[step.t]);
        }
      }
    }
  }

  /**
   No stale unload request, and no stale status: in a clean session, once its thread is past its first
   statement and until somebody asks for the end, the unload flag is down; and while the thread brings
   the stack up the status reads as pending.
   */
  lemma {:induction false} NothingStale(steps: seq<Step>)
    ensures var s := Run(Init(), steps);
            s.clean && HasThread(s) ==>
              && s.threads != []
              && var phase := s.threads[|s.threads| - 1].phase;
                 && (!phase.ResetUnload? && !(s.ctrl.Closing? && s.ctrl.at != Signal) ==> !s.words.unloadReq)
                 && (phase.BringUp? || phase.Publish? ==> s.words.status == Pending)
  {
    RunKeepsInv(steps);
  }

  ghost predicate Woken(s: State) {
    && (s.ctrl.Closing? && (s.ctrl.at.Join? || s.ctrl.at.Free?) ==> s.words.wakeSem)
    && (s.ctrl.ResetLoad? || s.ctrl.Create? || s.ctrl.TakeLoad? || s.ctrl.ReadStatus? ==> !s.words.wakeSem)
  }

  lemma {:induction false} ApplyWoken(s: State, step: Step)
    requires Woken(s)
    ensures Woken(Apply(s, step))
  {
    if step.Control? && s.ctrl.Closing? {
      match s.ctrl.at
      case Signal =>
      case Wake =>
      case Join =>
      case Free(_) =>
    }
  }

  /** Over every run: a wake left from before is gone when the thread is created, and every join comes after a wake. */
  lemma {:induction false} JoinsAfterWake(steps: seq<Step>)
    ensures Woken(Run(Init(), steps))
  {
    if steps != [] {
      JoinsAfterWake(steps[..|steps| - 1]);
      ApplyWoken(Run(Init(), steps[..|steps| - 1]), steps[|steps| - 1]);
    }
  }

  /** Without a stack a load does nothing; nor does a load of what is loaded, or an unload of what is not. */
  lemma {:induction false} NothingToDo(s: State, stackOk: bool)
    ensures Apply(s, Load(false)) == s
    ensures s.loaded ==> Apply(s, Load(stackOk)) == s
    ensures !s.loaded ==> Apply(s, Unload) == s
  {
  }

  /** A stack is released under an exited thread by every unload, and by a failed load whose join succeeded. */
  lemma {:induction false} ReleasesAreSafe(steps: seq<Step>)
    ensures var s := Run(Init(), steps);
            forall i :: 0 <= i < |s.releases| && (s.releases[i].byUnload || s.releases[i].joined) ==>
              s.releases[i].exited
  {
    RunKeepsInv(steps);
  }

  /** No join has been given up on. */
  predicate AlwaysJoined(s: State) {
    && (forall i :: 0 <= i < |s.releases| ==> s.releases[i].joined)
    && !(s.ctrl.Closing? && s.ctrl.at == Free(false))
  }

  ghost predicate Tidy(s: State) {
    && (if HasThread(s) then OthersExited(s.threads) else AllExited(s.threads))
    && (HasThread(s) || !s.ctrl.Idle? ==> s.clean)
    && (forall i :: 0 <= i < |s.results| ==> s.results[i].clean)
  }

  lemma {:induction false} JoinedBefore(s: State, step: Step)
    requires AlwaysJoined(Apply(s, step))
    ensures AlwaysJoined(s)
  {
    var t := Apply(s, step);
    assert |s.releases| <= |t.releases| && forall i :: 0 <= i < |s.releases| ==> t.releases[i] == s.releases[i];
    if s.ctrl.Closing? && s.ctrl.at.Free? && step.Control? {
      assert t.releases[|s.releases|].joined == s.ctrl.at.joined;
    }
  }

  lemma {:induction false} ApplyKeepsTidy(s: State, step: Step)
    requires Inv(s) && Tidy(s) && AlwaysJoined(s) && AlwaysJoined(Apply(s, step))
    ensures Tidy(Apply(s, step))
  {
    if ByThread(step) {
      if step.t < |s.threads| {
        MovedThreadOk(s.threads[step.t], step);
      }
    } else if step.Control? {
      match s.ctrl
      case Closing(at, _) =>
      case _ =>
    }
  }

  /** Where every join succeeded, every session was clean, so both guarantees above are unconditional. */
  lemma {:induction false} JoinedRunsAreClean(steps: seq<Step>)
    ensures var s := Run(Init(), steps);
            AlwaysJoined(s) ==>
              && (HasThread(s) ==> s.clean)
              && (forall i :: 0 <= i < |s.results| ==> s.results[i].clean)
              && Tidy(s)
  {
    if steps != [] {
      JoinedRunsAreClean(steps[..|steps| - 1]);
      RunKeepsInv(steps[..|steps| - 1]);
      var s, step := Run(Init(), steps[..|steps| - 1]), steps[|steps| - 1];
      if AlwaysJoined(Apply(s, step)) {
        JoinedBefore(s, step);
        ApplyKeepsTidy(s, step);
      }
    }
  }

  predicate AllOk(results: seq<Result>) {
    forall i :: 0 <= i < |results| ==> results[i].status == Ok
  }

  /** A load is closing only for a failure, and its session was clean if every load before it returned OK. */
  ghost predicate CleanAfterOk(s: State) {
    && (s.ctrl.Closing? && s.ctrl.why.Failed? ==> s.ctrl.why.status != Ok)
    && (AllOk(s.results) ==> (if HasThread(s) then OthersExited(s.threads) else AllExited(s.threads))
                             && (HasThread(s) || !s.ctrl.Idle? ==> s.clean))
    && (forall i :: 0 <= i < |s.results| && AllOk(s.results[..i]) ==> s.results[i].clean)
  }

  /** A further result: clean if all before it were OK. */
  lemma {:induction false} ResultsGrow(results: seq<Result>, r: Result)
    requires forall i :: 0 <= i < |results| && AllOk(results[..i]) ==> results[i].clean
    requires AllOk(results) ==> r.clean
    ensures var more := results + [r];
            && (AllOk(more) <==> AllOk(results) && r.status == Ok)
            && forall i :: 0 <= i < |more| && AllOk(more[..i]) ==> more[i].clean
  {
    var more := results + [r];
    assert more[|results|] == r;
    assert AllOk(more) ==> AllOk(results) by {
      forall i | 0 <= i < |results| && AllOk(more) ensures results[i].status == Ok { assert more[i] == results[i]; }
    }
    forall i | 0 <= i < |more| && AllOk(more[..i]) ensures more[i].clean {
      if i < |results| { assert more[..i] == results[..i]; } else { assert more[..i] == results; }
    }
  }

  lemma {:induction false} ThreadCleanAfterOk(s: State, step: Step)
    requires Inv(s) && CleanAfterOk(s) && ByThread(step)
    ensures CleanAfterOk(ThreadStep(s, step))
  {
    if step.t < |s.threads| {
      MovedThreadOk(s.threads[step.t], step);
    }
  }

  lemma {:induction false} ControlCleanAfterOk(s: State)
    requires Inv(s) && CleanAfterOk(s)
    ensures CleanAfterOk(ControlStep(s))
  {
    match s.ctrl
    case ReadStatus => if s.words.status == Ok { ResultsGrow(s.results, Result(Ok, |s.threads|, s.clean)); }
    case Closing(at, why) =>
      if at.Free? && why.Failed? { ResultsGrow(s.results, Result(why.status, |s.threads|, s.clean)); }
    case _ =>
  }

  lemma {:induction false} ApplyCleanAfterOk(s: State, step: Step)
    requires Inv(s) && CleanAfterOk(s)
    ensures CleanAfterOk(Apply(s, step))
  {
    if ByThread(step) {
      ThreadCleanAfterOk(s, step);
    } else if step.Control? {
      ControlCleanAfterOk(s);
    }
  }

  /**
   What a caller can check: a load is clean if every load before it returned OK. So its status is
   its own thread's, and the session it opens loses no unload.
   */
  lemma {:induction false} OkLoadsAreClean(steps: seq<Step>)
    ensures var s := Run(Init(), steps);
            && (AllOk(s.results) && HasThread(s) ==> s.clean)
            && (forall i :: 0 <= i < |s.results| && AllOk(s.results[..i]) ==> s.results[i].clean)
            && CleanAfterOk(s)
  {
    if steps != [] {
      OkLoadsAreClean(steps[..|steps| - 1]);
      RunKeepsInv(steps[..|steps| - 1]);
      ApplyCleanAfterOk(Run(Init(), steps[..|steps| - 1]), steps[|steps| - 1]);
    }
  }

  // ---------------------------------------------------------------------------
  // What goes wrong after a join that gave up.
  // ---------------------------------------------------------------------------

  lemma {:induction false} Go(steps: seq<Step>, s: State, step: Step) returns (steps': seq<Step>, s': State)
    requires Run(Init(), steps) == s
    ensures steps' == steps + [step] && s' == Apply(s, step) && Run(Init(), steps') == s'
  {
    steps', s' := steps + [step], Apply(s, step);
    assert steps'[..|steps'| - 1] == steps;
  }

  /** A load up to and including the creation of its thread. */
  lemma {:induction false} StartLoad(steps: seq<Step>, s: State) returns (steps': seq<Step>, s': State)
    requires Run(Init(), steps) == s && s.ctrl.Idle? && !s.loaded
    ensures Run(Init(), steps') == s'
    ensures s' == s.(words := s.words.(wakeSem := false, loadSem := false), ctrl := TakeLoad,
                     threads := s.threads + [Thread(ResetUnload, None)], stack := Some(|s.threads|),
                     clean := AllExited(s.threads))
  {
    steps', s' := Go(steps, s, Load(true));
    steps', s' := Go(steps', s', Control);
    steps', s' := Go(steps', s', Control);
    steps', s' := Go(steps', s', Control);
  }

  /** The load gives up on its thread, then on joining it, and frees the stack anyway. */
  lemma {:induction false} AbandonLoad(steps: seq<Step>, s: State) returns (steps': seq<Step>, s': State)
    requires Run(Init(), steps) == s && s.ctrl.TakeLoad? && !s.words.loadSem && !s.loaded
    requires s.threads != [] && !s.threads[|s.threads| - 1].phase.Exited? && s.stack == Some(|s.threads| - 1)
    ensures Run(Init(), steps') == s'
    ensures s' == s.(words := s.words.(unloadReq := true, wakeSem := true), ctrl := Idle, stack := None,
                     results := s.results + [Result(Timeout, |s.threads|, s.clean)],
                     releases := s.releases + [Release(false, false, false)])
  {
    steps', s' := Go(steps, s, GiveUp);
    steps', s' := Go(steps', s', Control);
    steps', s' := Go(steps', s', Control);
    assert s' == s.(words := s.words.(unloadReq := true, wakeSem := true), ctrl := Closing(Join, Failed(Timeout)));
    steps', s' := FreeAnyway(steps', s');
  }

  lemma {:induction false} FreeAnyway(steps: seq<Step>, s: State) returns (steps': seq<Step>, s': State)
    requires Run(Init(), steps) == s && s.ctrl.Closing? && s.ctrl.at == Join && s.ctrl.why.Failed? && !s.loaded
    requires s.threads != [] && !s.threads[|s.threads| - 1].phase.Exited? && s.stack == Some(|s.threads| - 1)
    ensures Run(Init(), steps') == s'
    ensures s' == s.(ctrl := Idle, stack := None,
                     results := s.results + [Result(s.ctrl.why.status, |s.threads|, s.clean)],
                     releases := s.releases + [Release(false, false, false)])
  {
    steps', s' := Go(steps, s, GiveUp);
    steps', s' := Go(steps', s', Control);
  }

  /** The free after a join that gave up can happen under a live thread. */
  lemma {:induction false} UnsafeReleaseWitness() returns (steps: seq<Step>)
    ensures Run(Init(), steps).releases == [Release(false, false, false)]
  {
    var s;
    steps, s := StartLoad([], Init());
    steps, s := AbandonLoad(steps, s);
  }

  /** A thread left alone runs from its first statement to the end of its bring-up. */
  lemma {:induction false} ReachBringUp(steps: seq<Step>, s: State, t: nat) returns (steps': seq<Step>, s': State)
    requires Run(Init(), steps) == s && t < |s.threads| && s.threads[t] == Thread(ResetUnload, None)
    ensures Run(Init(), steps') == s'
    ensures s' == s.(words := s.words.(unloadReq := false, status := Pending),
                     threads := s.threads[t := Thread(BringUp, None)])
  {
    steps', s' := Go(steps, s, Work(t));
    steps', s' := Go(steps', s', Work(t));
    steps', s' := Go(steps', s', Work(t));
    assert s'.threads == s.threads[t := Thread(BringUp, None)];
  }

  /** A successful bring-up: publish OK and give the token. */
  lemma {:induction false} Succeed(steps: seq<Step>, s: State, t: nat) returns (steps': seq<Step>, s': State)
    requires Run(Init(), steps) == s && t < |s.threads| && s.threads[t] == Thread(BringUp, None)
    ensures Run(Init(), steps') == s'
    ensures s' == s.(words := s.words.(status := Ok, loadSem := true),
                     threads := s.threads[t := Thread(Serving, Some(Ok))])
  {
    steps', s' := Go(steps, s, Outcome(t, Ok));
    steps', s' := Go(steps', s', Work(t));
    steps', s' := Go(steps', s', Work(t));
    assert s'.threads == s.threads[t := Thread(Serving, Some(Ok))];
  }

  /** A bring-up that fails: the status is published and the token given, and the thread is on its way out. */
  lemma {:induction false} Fail(steps: seq<Step>, s: State, t: nat, st: Status) returns (steps': seq<Step>, s': State)
    requires Run(Init(), steps) == s && t < |s.threads| && s.threads[t] == Thread(BringUp, None)
    requires CanPublish(st) && st != Ok
    ensures Run(Init(), steps') == s'
    ensures s' == s.(words := s.words.(status := st, loadSem := true),
                     threads := s.threads[t := Thread(Returning, Some(st))])
  {
    steps', s' := Go(steps, s, Outcome(t, st));
    steps', s' := Go(steps', s', Work(t));
    steps', s' := Go(steps', s', Work(t));
    assert s'.threads == s.threads[t := Thread(Returning, Some(st))];
  }

  /** The load finds the token and a failure, and goes up to its join. */
  lemma {:induction false} FindFailure(steps: seq<Step>, s: State) returns (steps': seq<Step>, s': State)
    requires Run(Init(), steps) == s && s.ctrl.TakeLoad? && s.words.loadSem && s.words.status != Ok
    ensures Run(Init(), steps') == s'
    ensures s' == s.(words := s.words.(loadSem := false, unloadReq := true, wakeSem := true),
                     ctrl := Closing(Join, Failed(s.words.status)))
  {
    var taken := s.words.(loadSem := false);
    steps', s' := Go(steps, s, Control);
    assert s' == s.(words := taken, ctrl := ReadStatus);
    steps', s' := Go(steps', s', Control);
    assert s' == s.(words := taken, ctrl := Closing(Signal, Failed(s.words.status)));
    steps', s' := Go(steps', s', Control);
    assert s' == s.(words := taken.(unloadReq := true), ctrl := Closing(Wake, Failed(s.words.status)));
    steps', s' := Go(steps', s', Control);
  }

  /**
   A failure that was published in time does not help: its thread may still be on its way out when the
   join expires, and the stack is freed under it.
   */
  lemma {:induction false} PublishedFailureWitness(st: Status) returns (steps: seq<Step>)
    requires CanPublish(st) && st != Ok
    ensures var s := Run(Init(), steps);
            && s.results == [Result(st, 1, true)] && s.releases == [Release(false, false, false)]
            && s.threads == [Thread(Returning, Some(st))] && s.ctrl.Idle? && s.stack == None
  {
    var s;
    steps, s := StartLoad([], Init());
    steps, s := ReachBringUp(steps, s, 0);
    assert s.threads == [Thread(BringUp, None)];
    steps, s := Fail(steps, s, 0, st);
    assert s.threads == [Thread(Returning, Some(st))];
    steps, s := FindFailure(steps, s);
    steps, s := FreeAnyway(steps, s);
  }

  /** The load finds the token and the status OK. */
  lemma {:induction false} ReturnOk(steps: seq<Step>, s: State) returns (steps': seq<Step>, s': State)
    requires Run(Init(), steps) == s && s.ctrl.TakeLoad? && s.words.loadSem && s.words.status == Ok
    ensures Run(Init(), steps') == s'
    ensures s' == s.(words := s.words.(loadSem := false), ctrl := Idle, loaded := true,
                     results := s.results + [Result(Ok, |s.threads|, s.clean)])
  {
    steps', s' := Go(steps, s, Control);
    steps', s' := Go(steps', s', Control);
  }

  /** A thread left behind by one load can answer the next: OK is returned before its own thread has run. */
  lemma {:induction false} StaleStatusWitness() returns (steps: seq<Step>)
    ensures var s := Run(Init(), steps);
            && s.loaded && s.results == [Result(Timeout, 1, true), Result(Ok, 2, false)]
            && s.threads == [Thread(Serving, Some(Ok)), Thread(ResetUnload, None)]
  {
    var s;
    steps, s := StartLoad([], Init());
    steps, s := ReachBringUp(steps, s, 0);
    steps, s := AbandonLoad(steps, s);
    assert s.threads == [Thread(BringUp, None)];
    steps, s := StartLoad(steps, s);
    assert s.threads == [Thread(BringUp, None), Thread(ResetUnload, None)];
    steps, s := Succeed(steps, s, 0);
    steps, s := ReturnOk(steps, s);
  }

  /** An unload up to its join. */
  lemma {:induction false} StartUnload(steps: seq<Step>, s: State) returns (steps': seq<Step>, s': State)
    requires Run(Init(), steps) == s && s.ctrl.Idle? && s.loaded
    ensures Run(Init(), steps') == s'
    ensures s' == s.(words := s.words.(unloadReq := true, wakeSem := true), ctrl := Closing(Join, Unloading))
  {
    steps', s' := Go(steps, s, Unload);
    steps', s' := Go(steps', s', Control);
    steps', s' := Go(steps', s', Control);
  }

  /** With the thread gone, a close that waits to join it comes to its end. */
  lemma {:induction false} EndUnload(steps: seq<Step>, s: State) returns (steps': seq<Step>, s': State)
    requires Run(Init(), steps) == s && s.ctrl == Closing(Join, Unloading)
    requires s.threads != [] && s.threads[|s.threads| - 1].phase.Exited? && s.stack == Some(|s.threads| - 1)
    ensures Run(Init(), steps') == s'
    ensures s' == s.(ctrl := Idle, stack := None, loaded := false, releases := s.releases + [Release(true, true, true)])
  {
    steps', s' := Go(steps, s, Control);
    assert s' == s.(ctrl := Closing(Free(true), Unloading));
    steps', s' := Go(steps', s', Control);
  }

  /** A thread that serves ends its session and returns. */
  lemma {:induction false} EndThread(steps: seq<Step>, s: State, t: nat) returns (steps': seq<Step>, s': State)
    requires Run(Init(), steps) == s && t < |s.threads| && s.threads[t] == Thread(Serving, Some(Ok))
    ensures Run(Init(), steps') == s'
    ensures s' == s.(threads := s.threads[t := Thread(Exited, Some(Ok))])
  {
    steps', s' := Go(steps, s, Leave(t));
    steps', s' := Go(steps', s', Work(t));
    assert s'.threads == s.threads[t := Thread(Exited, Some(Ok))];
  }

  /**
   The ordinary course: from any reachable idle state with all threads gone there is a session that
   loads with OK under its own thread, unloads, and leaves such a state behind.
   */
  lemma {:induction false} FullSession(steps: seq<Step>, s: State) returns (steps': seq<Step>, s': State)
    requires Run(Init(), steps) == s && s.ctrl.Idle? && !s.loaded && AllExited(s.threads)
    ensures Run(Init(), steps') == s' && s'.ctrl.Idle? && !s'.loaded && AllExited(s'.threads) && s'.stack == None
    ensures s'.threads == s.threads + [Thread(Exited, Some(Ok))]
    ensures s'.results == s.results + [Result(Ok, |s.threads| + 1, true)]
    ensures s'.releases == s.releases + [Release(true, true, true)]
  {
    var n := |s.threads|;
    steps', s' := StartLoad(steps, s);
    assert s'.threads[n] == Thread(ResetUnload, None);
    steps', s' := ReachBringUp(steps', s', n);
    steps', s' := Succeed(steps', s', n);
    steps', s' := ReturnOk(steps', s');
    steps', s' := StartUnload(steps', s');
    steps', s' := EndThread(steps', s', n);
    assert s'.threads == s.threads + [Thread(Exited, Some(Ok))];
    steps', s' := EndUnload(steps', s');
  }

  /** A thread left behind before its first statement can lower the unload flag of a later session. */
  lemma {:induction false} LostUnloadWitness() returns (steps: seq<Step>)
    ensures var s := Run(Init(), steps);
            && s.loaded && s.ctrl == Closing(Join, Unloading) && !s.words.unloadReq
            && s.threads == [Thread(ResetSend, None), Thread(Serving, Some(Ok))]
  {
    var s;
    steps, s := StartLoad([], Init());
    steps, s := AbandonLoad(steps, s);
    steps, s := StartLoad(steps, s);
    steps, s := ReachBringUp(steps, s, 1);
    steps, s := Succeed(steps, s, 1);
    assert s.threads == [Thread(ResetUnload, None), Thread(Serving, Some(Ok))];
    steps, s := ReturnOk(steps, s);
    steps, s := StartUnload(steps, s);
    steps, s := Go(steps, s, Work(0));
  }
}
