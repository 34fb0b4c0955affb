/**
 The order of the connection callbacks of one role: `serve` with `run_connection` and
 `l2cap_peripheral`, or `central_loop` with `run_central_conn` and `l2cap_central`, and `l2cap_serve`
 inside both. Futures run between awaits and may be dropped at any await: the channel's when the
 connection ends, the whole role's on unload.
 */
module CallbackTrace {
  import opened Common

  datatype Role = Peripheral | Central

  /** connected, disconnected, L2CAP connected, L2CAP disconnected. */
  datatype Event = C | D | O | X

  datatype Main = Seeking | Connected | Dropped

  /** The channel task beside a connection: none, waiting for a channel, or pumping one. */
  datatype Channel = NoTask | Waiting | Pumping

  datatype State = State(role: Role, psm: bool, main: Main, channel: Channel, trace: seq<Event>)

  /**
   What an await returns with. `ChannelFails` and `ChannelCloses` carry whether the unload request
   was up, which ends the peripheral's channel task.
   */
  datatype Step =
    | LinkUp
    | ChannelOpens
    | ChannelFails(unload: bool)
    | ChannelCloses(unload: bool)
    | ConnectionEnds
    | Drop

  function Init(role: Role, psm: bool): State { State(role, psm, Seeking, NoTask, []) }

  /** The connection's select returns: the other tasks are dropped where they stand. */
  function Disconnect(s: State): State { s.(main := Seeking, channel := NoTask, trace := s.trace + [D]) }

  /** The channel task is back at its loop, or returns and takes the connection with it. */
  function ChannelTaskGoesOn(s: State, unload: bool): State {
    if s.role.Peripheral? && !unload then s.(channel := Waiting) else Disconnect(s)
  }

  function Apply(s: State, step: Step): State {
    match step
    case LinkUp =>
      if s.main.Seeking?
      then s.(main := Connected, channel := if s.psm then Waiting else NoTask, trace := s.trace + [C]) else s
    case ChannelOpens =>
      if s.main.Connected? && s.channel.Waiting? then s.(channel := Pumping, trace := s.trace + [O]) else s
    case ChannelFails(unload) =>
      if s.main.Connected? && s.channel.Waiting? then ChannelTaskGoesOn(s, unload) else s
    case ChannelCloses(unload) =>
      if s.main.Connected? && s.channel.Pumping?
      then ChannelTaskGoesOn(s.(trace := s.trace + [X]), unload) else s
    case ConnectionEnds => if s.main.Connected? then Disconnect(s) else s
    case Drop => s.(main := Dropped)
  }

  function Run(s: State, steps: seq<Step>): State {
    if steps == [] then s else Apply(Run(s, steps[..|steps| - 1]), steps[|steps| - 1])
  }

  // ---------------------------------------------------------------------------
  // The grammar.
  // ---------------------------------------------------------------------------

  /** The channels of one connection: `pairs` opened and closed, then perhaps one never closed. */
  datatype Span = Span(pairs: nat, cut: bool)

  function Pairs(n: nat): seq<Event> { if n == 0 then [] else Pairs(n - 1) + [O, X] }

  function Inside(sp: Span): seq<Event> { Pairs(sp.pairs) + (if sp.cut then [O] else []) }

  function Whole(sp: Span): seq<Event> { [C] + Inside(sp) + [D] }

  function Wholes(spans: seq<Span>): seq<Event> {
    if spans == [] then [] else Wholes(spans[..|spans| - 1]) + Whole(spans[|spans| - 1])
  }

  /** Complete connections, then perhaps one that has not ended. */
  function Words(spans: seq<Span>, open: Option<Span>): seq<Event> {
    Wholes(spans) + (if open.Some? then [C] + Inside(open.value) else [])
  }

  /** The part of the trace still open is what the tasks are doing. */
  ghost predicate Matches(s: State, open: Option<Span>) {
    match s.main
    case Seeking => open.None?
    case Connected => open.Some? && (s.channel.Pumping? <==> open.value.cut)
    case Dropped => true
  }

  ghost predicate Fits(s: State, spans: seq<Span>, open: Option<Span>) {
    s.trace == Words(spans, open) && Matches(s, open)
  }

  lemma {:induction false} ConnectFits(s: State, spans: seq<Span>)
    requires s.main.Seeking? && Fits(s, spans, None)
    ensures Fits(Apply(s, LinkUp), spans, Some(Span(0, false)))
  {
    assert [C] + Inside(Span(0, false)) == [C];
    assert Wholes(spans) + [] == Wholes(spans);
  }

  lemma {:induction false} DisconnectFits(s: State, spans: seq<Span>, sp: Span)
    requires s.trace == Words(spans, Some(sp))
    ensures Fits(Disconnect(s), spans + [sp], None)
  {
    EndConnection(spans, sp);
  }

  /** What becomes of the trace when the channel task is back at its loop, or ends the connection. */
  lemma {:induction false} GoesOnFits(s: State, spans: seq<Span>, sp: Span, unload: bool)
    returns (spans': seq<Span>, open: Option<Span>)
    requires s.main.Connected? && s.trace == Words(spans, Some(sp)) && !sp.cut
    ensures Fits(ChannelTaskGoesOn(s, unload), spans', open)
  {
    if s.role.Peripheral? && !unload {
      spans', open := spans, Some(sp);
    } else {
      DisconnectFits(s, spans, sp);
      spans', open := spans + [sp], None;
    }
  }

  lemma {:induction false} StepFits(s: State, spans: seq<Span>, open: Option<Span>, step: Step)
    returns (spans': seq<Span>, open': Option<Span>)
    requires Fits(s, spans, open)
    ensures Fits(Apply(s, step), spans', open')
  {
    spans', open' := spans, open;
    match step
    case LinkUp =>
      if s.main.Seeking? {
        ConnectFits(s, spans);
        open' := Some(Span(0, false));
      }
    case ChannelOpens =>
      if s.main.Connected? && s.channel.Waiting? {
        OpenChannel(spans, open.value);
        open' := Some(open.value.(cut := true));
      }
    case ChannelFails(unload) =>
      if s.main.Connected? && s.channel.Waiting? {
        spans', open' := GoesOnFits(s, spans, open.value, unload);
      }
    case ChannelCloses(unload) =>
      if s.main.Connected? && s.channel.Pumping? {
        CloseChannel(spans, open.value);
        spans', open' := GoesOnFits(s.(trace := s.trace + [X]), spans, Span(open.value.pairs + 1, false), unload);
      }
    case ConnectionEnds =>
      if s.main.Connected? {
        DisconnectFits(s, spans, open.value);
        spans', open' := spans + [open.value], None;
      }
    case Drop =>
  }

  lemma {:induction false} NoPsmNoChannels(role: Role, psm: bool, steps: seq<Step>)
    ensures var s := Run(Init(role, psm), steps);
            && s.role == role && s.psm == psm
            && (!psm ==> s.channel.NoTask? && forall e :: e in s.trace ==> e == C || e == D)
  {
    if steps != [] {
      NoPsmNoChannels(role, psm, steps[..|steps| - 1]);
    }
  }

  /**
   In every run of a role the callbacks are connections one after the other, only the last without
   its end; channel opens and closes alternate inside a connection, and only the last open of a
   connection may lack its close. Without a PSM there are no channels at all.
   */
  lemma {:induction false} CallbackGrammar(role: Role, psm: bool, steps: seq<Step>)
    returns (spans: seq<Span>, open: Option<Span>)
    ensures var s := Run(Init(role, psm), steps);
            && s.role == role && s.psm == psm && s.trace == Words(spans, open) && Matches(s, open)
            && (!psm ==> s.channel.NoTask? && forall e :: e in s.trace ==> e == C || e == D)
  {
    NoPsmNoChannels(role, psm, steps);
    if steps == [] {
      spans, open := [], None;
    } else {
      spans, open := CallbackGrammar(role, psm, steps[..|steps| - 1]);
      spans, open := StepFits(Run(Init(role, psm), steps[..|steps| - 1]), spans, open, steps[|steps| - 1]);
    }
  }

  lemma {:induction false} OpenChannel(spans: seq<Span>, sp: Span)
    requires !sp.cut
    ensures Words(spans, Some(sp)) + [O] == Words(spans, Some(sp.(cut := true)))
  {
  }

  lemma {:induction false} CloseChannel(spans: seq<Span>, sp: Span)
    requires sp.cut
    ensures Words(spans, Some(sp)) + [X] == Words(spans, Some(Span(sp.pairs + 1, false)))
  {
    assert Inside(sp) + [X] == Inside(Span(sp.pairs + 1, false));
  }

  lemma {:induction false} EndConnection(spans: seq<Span>, sp: Span)
    ensures Words(spans, Some(sp)) + [D] == Words(spans + [sp], None)
  {
    assert (spans + [sp])[..|spans|] == spans;
    assert Wholes(spans) + Whole(sp) == Wholes(spans) + ([C] + Inside(sp)) + [D];
  }

  lemma {:induction false} RunMore(s: State, steps: seq<Step>, step: Step)
    ensures Run(s, steps + [step]) == Apply(Run(s, steps), step)
  {
    assert (steps + [step])[..|steps|] == steps;
  }

  /** Once the role's future is dropped, no callback is made any more. */
  lemma {:induction false} DropSilences(s: State, after: seq<Step>)
    ensures var t := Run(Apply(s, Drop), after);
            t.main.Dropped? && t.trace == s.trace
  {
    if after != [] {
      DropSilences(s, after[..|after| - 1]);
    }
  }

  /** In the central role an open directly follows the connection, and a close is followed by its end. */
  ghost predicate OneChannel(trace: seq<Event>) {
    && (forall k :: 0 <= k < |trace| && trace[k] == O ==> k > 0 && trace[k - 1] == C)
    && (forall k :: 0 <= k < |trace| - 1 && trace[k] == X ==> trace[k + 1] == D)
  }

  ghost predicate OneChannelInv(s: State) {
    && s.role.Central? && OneChannel(s.trace)
    && (s.main.Connected? && s.channel.Waiting? ==> s.trace != [] && s.trace[|s.trace| - 1] == C)
    && (!s.main.Dropped? ==> s.trace == [] || s.trace[|s.trace| - 1] != X)
  }

  lemma {:induction false} OneChannelMore(trace: seq<Event>, e: Event)
    requires OneChannel(trace)
    requires e == O ==> trace != [] && trace[|trace| - 1] == C
    requires trace != [] && trace[|trace| - 1] == X ==> e == D
    ensures OneChannel(trace + [e])
  {
  }

  lemma {:induction false} StepOneChannel(s: State, step: Step)
    requires OneChannelInv(s) && !s.main.Dropped?
    ensures OneChannelInv(Apply(s, step))
  {
    match step
    case LinkUp => OneChannelMore(s.trace, C);
    case ChannelOpens => if s.main.Connected? && s.channel.Waiting? { OneChannelMore(s.trace, O); }
    case ChannelFails(_) => OneChannelMore(s.trace, D);
    case ChannelCloses(_) =>
      OneChannelMore(s.trace, X);
      OneChannelMore(s.trace + [X], D);
    case ConnectionEnds => OneChannelMore(s.trace, D);
    case Drop =>
  }

  /** The central role opens at most one channel per connection, first of all, and its end is the connection's end. */
  lemma {:induction false} CentralOneChannel(psm: bool, steps: seq<Step>)
    ensures OneChannel(Run(Init(Central, psm), steps).trace) && OneChannelInv(Run(Init(Central, psm), steps))
  {
    if steps != [] {
      var front := steps[..|steps| - 1];
      CentralOneChannel(psm, front);
      var s := Run(Init(Central, psm), front);
      if s.main.Dropped? {
        assert Apply(s, steps[|steps| - 1]).trace == s.trace;
      } else {
        StepOneChannel(s, steps[|steps| - 1]);
      }
    }
  }

  /**
   The peripheral goes on listening after a channel has closed or failed: one connection carries any
   number of channels, until unload ends the task and with it the connection.
   */
  lemma {:induction false} PeripheralReopens(s: State, n: nat) returns (steps: seq<Step>)
    requires s.role.Peripheral? && s.main.Connected? && s.channel.Waiting?
    ensures Run(s, steps) == s.(trace := s.trace + Pairs(n))
    ensures Apply(s, ChannelFails(false)) == s
    ensures Apply(Apply(s, ChannelOpens), ChannelCloses(true))
         == s.(main := Seeking, channel := NoTask, trace := s.trace + [O, X, D])
  {
    assert s.trace + [O] + [X] + [D] == s.trace + [O, X, D];
    if n == 0 {
      steps := [];
      assert s.trace + Pairs(0) == s.trace;
    } else {
      var front := PeripheralReopens(s, n - 1);
      RunMore(s, front, ChannelOpens);
      RunMore(s, front + [ChannelOpens], ChannelCloses(false));
      steps := front + [ChannelOpens] + [ChannelCloses(false)];
      assert s.trace + Pairs(n) == s.trace + Pairs(n - 1) + [O] + [X];
    }
  }

  /** With a PSM configured either role opens a channel on its connection. */
  lemma {:induction false} ChannelOnConnection(role: Role)
    ensures Run(Init(role, true), [LinkUp, ChannelOpens, ConnectionEnds]).trace == [C, O, D]
  {
    var s := Init(role, true);
    RunMore(s, [], LinkUp);
    RunMore(s, [LinkUp], ChannelOpens);
    RunMore(s, [LinkUp, ChannelOpens], ConnectionEnds);
    assert [] + [LinkUp] == [LinkUp] && [LinkUp] + [ChannelOpens] == [LinkUp, ChannelOpens];
    assert [LinkUp, ChannelOpens] + [ConnectionEnds] == [LinkUp, ChannelOpens, ConnectionEnds];
  }
}
