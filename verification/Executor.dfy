/**
 `block_on`: poll the session future, then park on a binary semaphore that every waker gives.
 Wakes come from other threads and interrupts at any time, also in the middle of a poll.
 */
module Executor {
  datatype Exec = Starting | Polling | Parking | Returned

  /**
   `wakes` counts the wakes so far; `starts` records, for each poll, how many had happened when
   it began.
   */
  datatype State = State(sem: bool, exec: Exec, wakes: nat, starts: seq<nat>)

  datatype Step = Wake | Begin | PollPending | PollReady | Take

  function Init(): State { State(false, Starting, 0, []) }

  function BeginPoll(s: State): State { s.(exec := Polling, starts := s.starts + [s.wakes]) }

  function Apply(s: State, step: Step): State {
    match step
    case Wake => s.(sem := true, wakes := s.wakes + 1)
    case Begin => if s.exec.Starting? then BeginPoll(s) else s
    case PollPending => if s.exec.Polling? then s.(exec := Parking) else s
    case PollReady => if s.exec.Polling? then s.(exec := Returned) else s
    case Take => if s.exec.Parking? && s.sem then BeginPoll(s.(sem := false)) else s
  }

  function Run(s: State, steps: seq<Step>): State {
    if steps == [] then s else Apply(Run(s, steps[..|steps| - 1]), steps[|steps| - 1])
  }

  /** Wakes that happened before the latest poll began. */
  function Seen(s: State): nat { if s.starts == [] then 0 else s.starts[|s.starts| - 1] }

  /** Parked on an empty semaphore: nothing but a further wake gets the executor going. */
  predicate Blocked(s: State) { s.exec.Parking? && !s.sem }

  ghost predicate Inv(s: State) {
    && (s.exec.Starting? <==> s.starts == [])
    && (s.wakes > Seen(s) ==> s.sem)
    && (forall i, j :: 0 <= i <= j < |s.starts| ==> s.starts[i] <= s.starts[j] <= s.wakes)
    && |s.starts| + (if s.sem then 1 else 0) <= s.wakes + (if s.exec.Starting? then 0 else 1)
  }

  lemma {:induction false} RunKeepsInv(steps: seq<Step>)
    ensures Inv(Run(Init(), steps))
  {
    if steps != [] {
      RunKeepsInv(steps[..|steps| - 1]);
    }
  }

  /**
   No lost wake-up: a blocked executor has begun a poll after every wake so far. In any other
   parked state the semaphore is up, and the poll that the next take begins covers all wakes at once.
   */
  lemma {:induction false} NoLostWakeUp(steps: seq<Step>)
    ensures var s := Run(Init(), steps);
            && (Blocked(s) ==> Seen(s) == s.wakes)
            && (s.exec.Parking? && s.wakes > Seen(s) ==>
                  s.sem && Apply(s, Take).exec.Polling? && Seen(Apply(s, Take)) == s.wakes)
  {
    RunKeepsInv(steps);
    var s := Run(Init(), steps);
    if s.starts != [] {
      assert s.starts[|s.starts| - 1] <= s.wakes;
    }
  }

  /** Nor does it spin: apart from the first, every poll is paid for by a wake of its own. */
  lemma {:induction false} PollsPaidByWakes(steps: seq<Step>)
    ensures var s := Run(Init(), steps); |s.starts| <= s.wakes + 1
  {
    RunKeepsInv(steps);
  }

  /** The first poll needs no wake, and once a poll is ready the executor has returned: no poll follows. */
  lemma {:induction false} ReadyIsFinal(before: seq<Step>, after: seq<Step>)
    ensures Run(Init(), [Begin]).exec.Polling? && |Run(Init(), [Begin]).starts| == 1
    ensures var s, t := Run(Init(), before), Run(Init(), before + [PollReady] + after);
            s.exec.Polling? ==> t.exec.Returned? && t.starts == s.starts
  {
    assert [Begin][..0] == [];
    var steps := before + [PollReady];
    assert steps[..|before|] == before;
    if after == [] {
      assert steps + after == steps;
    } else {
      ReadyIsFinal(before, after[..|after| - 1]);
      assert (steps + after)[..|steps + after| - 1] == steps + after[..|after| - 1];
    }
  }

  /** A poll that is pending parks the executor, and the next wake begins another poll. */
  lemma {:induction false} WakePollsAgain(s: State)
    requires s.exec.Polling?
    ensures Apply(s, PollPending).exec.Parking?
    ensures var t := Apply(Apply(Apply(s, PollPending), Wake), Take);
            t.exec.Polling? && !t.sem && t.starts == s.starts + [s.wakes + 1]
  {
  }
}
