/**
 The link command channel: the setters that store their arguments and then try to queue a command
 (`link_cmd`), against `link_control_once`, which executes it on the active connection.
 */
module LinkCommands {
  import opened Common
  import opened CommandSlot

  type U32 = x: int | 0 <= x < 0x1_0000_0000

  const OK := 0
  const ERR_INVALID := -1
  const ERR_NO_MEM := -2

  const SET_PHY := 1
  const DLE := 2
  const CONN_PARAMS := 3
  const SECURITY_REQUEST := 4
  const PASSKEY_CONFIRM := 5
  const PASSKEY_CANCEL := 6
  const PASSKEY_INPUT := 7
  const READ_RSSI := 8
  const READ_ATT_MTU := 9
  const FRAME_SPACE := 10
  const CONNECTION_RATE := 11
  const READ_PHY := 12
  const READ_SECURITY := 13

  /** The parameter words. Connection parameters and connection rate share four of them. */
  datatype Reg =
    | Phy | DleOctets | DleTime
    | ConnMin | ConnMax | ConnLatency | ConnTimeout
    | SpaceMin | SpaceMax | SpacePhys | SpaceTypes
    | SubrateMin | SubrateMax | Continuation
    | Passkey

  /** What is done on the connection without further arguments. */
  datatype Plain = RequestSecurity | ConfirmPasskey | CancelPasskey | ReadRssi | ReadAttMtu | ReadPhy | ReadSecurity

  /** An application call; the passkey is answered with a yes or no. */
  datatype LinkCall =
    | SetPhy(phy: Byte)
    | UpdateDataLength(octets: U16, time: U16)
    | UpdateConnParams(min: U16, max: U16, latency: U16, timeout: U16)
    | UpdateFrameSpace(minUs: U32, maxUs: U32, phys: Byte, types: Byte)
    | RequestConnectionRate(min: U16, max: U16, subrateMin: U16, subrateMax: U16,
                            latency: U16, continuation: U16, timeout: U16)
    | PasskeyInput(passkey: U32)
    | PasskeyConfirm(accept: Byte)
    | Without(what: Plain)

  /** What the connection is asked to do. */
  datatype Action =
    | Nothing
    | UsePhy(phy: nat)
    | UseDataLength(octets: nat, time: nat)
    | UseConnParams(min: nat, max: nat, latency: nat, timeout: nat)
    | UseFrameSpace(minUs: nat, maxUs: nat, phys: nat, types: nat)
    | UseConnectionRate(min: nat, max: nat, subrateMin: nat, subrateMax: nat,
                        latency: nat, continuation: nat, timeout: nat)
    | UsePasskey(passkey: nat)
    | Do(what: Plain)
    | Refused

  predicate ValidCall(c: LinkCall) {
    match c
    case SetPhy(phy) => phy == 1 || phy == 2 || phy == 3
    case PasskeyInput(n) => n <= 999_999
    case Without(what) => !what.ConfirmPasskey? && !what.CancelPasskey?
    case _ => true
  }

  /** The command queued and the words stored, all of them before the channel is tested. */
  function Encode(c: LinkCall): Call<Reg, nat> {
    match c
    case SetPhy(phy) => Call(SET_PHY, map[Phy := phy], map[])
    case UpdateDataLength(o, t) => Call(DLE, map[DleOctets := o, DleTime := t], map[])
    case UpdateConnParams(mn, mx, l, t) =>
      Call(CONN_PARAMS, map[ConnMin := mn, ConnMax := mx, ConnLatency := l, ConnTimeout := t], map[])
    case UpdateFrameSpace(mn, mx, p, t) =>
      Call(FRAME_SPACE, map[SpaceMin := mn, SpaceMax := mx, SpacePhys := p, SpaceTypes := t], map[])
    case RequestConnectionRate(mn, mx, sn, sx, l, k, t) =>
      Call(CONNECTION_RATE, map[ConnMin := mn, ConnMax := mx, SubrateMin := sn, SubrateMax := sx,
                                ConnLatency := l, Continuation := k, ConnTimeout := t], map[])
    case PasskeyInput(n) => Call(PASSKEY_INPUT, map[Passkey := n], map[])
    case PasskeyConfirm(accept) => Call(if accept == 0 then PASSKEY_CANCEL else PASSKEY_CONFIRM, map[], map[])
    case Without(what) => Call(CommandFor(what), map[], map[])
  }

  function CommandFor(what: Plain): nat {
    match what
    case RequestSecurity => SECURITY_REQUEST
    case ConfirmPasskey => PASSKEY_CONFIRM
    case CancelPasskey => PASSKEY_CANCEL
    case ReadRssi => READ_RSSI
    case ReadAttMtu => READ_ATT_MTU
    case ReadPhy => READ_PHY
    case ReadSecurity => READ_SECURITY
  }

  function Get(regs: map<Reg, nat>, r: Reg): nat { if r in regs then regs[r] else 0 }

  function Or(x: nat, default: nat): nat { if x == 0 then default else x }

  function RateAction(mn: nat, mx: nat, sn: nat, sx: nat, l: nat, k: nat, t: nat): Action {
    if mn <= mx && sn <= sx then UseConnectionRate(mn, mx, sn, sx, l, k, t) else Refused
  }

  function SpaceAction(mn: nat, mx: nat, p: nat, t: nat): Action {
    if mn > mx then Refused else UseFrameSpace(mn, mx, p, t)
  }

  /** `link_control_once` after its swap: defaults for zeros, and words clamped to the width of the request. */
  function ActionOf(cmd: nat, regs: map<Reg, nat>): Action {
    if cmd == SET_PHY then
      UsePhy(if Get(regs, Phy) == 2 then 2 else if Get(regs, Phy) == 3 then 3 else 1)
    else if cmd == DLE then
      UseDataLength(Or(Min(Get(regs, DleOctets), 0xffff), 251), Or(Min(Get(regs, DleTime), 0xffff), 2120))
    else if cmd == CONN_PARAMS then
      UseConnParams(Or(Get(regs, ConnMin), 80), Or(Get(regs, ConnMax), 80),
                    Min(Get(regs, ConnLatency), 0xffff), Or(Get(regs, ConnTimeout), 8000))
    else if cmd == FRAME_SPACE then
      SpaceAction(Or(Get(regs, SpaceMin), 150), Or(Get(regs, SpaceMax), 10_000),
                  Get(regs, SpacePhys) % 256, Get(regs, SpaceTypes) % 256)
    else if cmd == CONNECTION_RATE then
      RateAction(Or(Get(regs, ConnMin), 80), Or(Get(regs, ConnMax), 80),
                 Or(Min(Get(regs, SubrateMin), 0xffff), 1), Or(Min(Get(regs, SubrateMax), 0xffff), 1),
                 Min(Get(regs, ConnLatency), 0xffff), Min(Get(regs, Continuation), 0xffff),
                 Or(Get(regs, ConnTimeout), 8000))
    else if cmd == PASSKEY_INPUT then UsePasskey(Get(regs, Passkey))
    else if cmd == SECURITY_REQUEST then Do(RequestSecurity)
    else if cmd == PASSKEY_CONFIRM then Do(ConfirmPasskey)
    else if cmd == PASSKEY_CANCEL then Do(CancelPasskey)
    else if cmd == READ_RSSI then Do(ReadRssi)
    else if cmd == READ_ATT_MTU then Do(ReadAttMtu)
    else if cmd == READ_PHY then Do(ReadPhy)
    else if cmd == READ_SECURITY then Do(ReadSecurity)
    else Nothing
  }

  /** What the caller asked for. */
  function Intent(c: LinkCall): Action {
    match c
    case SetPhy(phy) => UsePhy(phy)
    case UpdateDataLength(o, t) => UseDataLength(Or(o, 251), Or(t, 2120))
    case UpdateConnParams(mn, mx, l, t) => UseConnParams(Or(mn, 80), Or(mx, 80), l, Or(t, 8000))
    case UpdateFrameSpace(mn, mx, p, t) => SpaceAction(Or(mn, 150), Or(mx, 10_000), p, t)
    case RequestConnectionRate(mn, mx, sn, sx, l, k, t) =>
      RateAction(Or(mn, 80), Or(mx, 80), Or(sn, 1), Or(sx, 1), l, k, Or(t, 8000))
    case PasskeyInput(n) => UsePasskey(n)
    case PasskeyConfirm(accept) => Do(if accept == 0 then CancelPasskey else ConfirmPasskey)
    case Without(what) => Do(what)
  }

  /** The channel's words, updated in place; `log` is the history behind them. */
  class LinkMailbox {
    var cmd: nat
    var regs: map<Reg, nat>
    ghost var log: seq<Entry<Reg, nat>>

    ghost function Value(): Channel<Reg, nat>
      reads this
    {
      Channel(cmd, regs, log)
    }

    constructor ()
      ensures Value() == Channel(NONE, map[], [])
    {
      cmd, regs, log := NONE, map[], [];
    }

    /** The contract of every setter: rejected arguments touch nothing, the rest is `Issue`. */
    twostate predicate Submitted(c: LinkCall, rc: int)
      reads this
    {
      && Value() == (if ValidCall(c) then Issue(old(Value()), Encode(c)) else old(Value()))
      && rc == (if !ValidCall(c) then ERR_INVALID else if old(cmd) != NONE then ERR_NO_MEM else OK)
    }

    /** `link_cmd`; `call` is the call whose arguments have just been stored. */
    method LinkCmd(c: nat, ghost call: Call<Reg, nat>) returns (rc: int)
      modifies this`cmd, this`log
      ensures rc == if old(cmd) != NONE then ERR_NO_MEM else OK
      ensures cmd == (if old(cmd) != NONE then old(cmd) else c)
      ensures log == (if old(cmd) != NONE then old(log) else old(log) + [Took(call)])
    {
      if cmd != NONE { return ERR_NO_MEM; }
      cmd := c;
      log := log + [Took(call)];
      rc := OK;
    }

    method SetPhy(phy: Byte) returns (rc: int)
      modifies this
      ensures Submitted(LinkCall.SetPhy(phy), rc)
    {
      if phy != 1 && phy != 2 && phy != 3 { return ERR_INVALID; }
      regs := regs + map[Phy := phy];
      rc := LinkCmd(SET_PHY, Encode(LinkCall.SetPhy(phy)));
    }

    method UpdateDataLength(octets: U16, time: U16) returns (rc: int)
      modifies this
      ensures Submitted(LinkCall.UpdateDataLength(octets, time), rc)
    {
      regs := regs + map[DleOctets := octets, DleTime := time];
      rc := LinkCmd(DLE, Encode(LinkCall.UpdateDataLength(octets, time)));
    }

    method UpdateConnParams(min: U16, max: U16, latency: U16, timeout: U16) returns (rc: int)
      modifies this
      ensures Submitted(LinkCall.UpdateConnParams(min, max, latency, timeout), rc)
    {
      regs := regs + map[ConnMin := min, ConnMax := max, ConnLatency := latency, ConnTimeout := timeout];
      rc := LinkCmd(CONN_PARAMS, Encode(LinkCall.UpdateConnParams(min, max, latency, timeout)));
    }

    method UpdateFrameSpace(minUs: U32, maxUs: U32, phys: Byte, types: Byte) returns (rc: int)
      modifies this
      ensures Submitted(LinkCall.UpdateFrameSpace(minUs, maxUs, phys, types), rc)
    {
      regs := regs + map[SpaceMin := minUs, SpaceMax := maxUs, SpacePhys := phys, SpaceTypes := types];
      rc := LinkCmd(FRAME_SPACE, Encode(LinkCall.UpdateFrameSpace(minUs, maxUs, phys, types)));
    }

    method RequestConnectionRate(min: U16, max: U16, subrateMin: U16, subrateMax: U16,
                                 latency: U16, continuation: U16, timeout: U16) returns (rc: int)
      modifies this
      ensures Submitted(LinkCall.RequestConnectionRate(min, max, subrateMin, subrateMax,
                                                       latency, continuation, timeout), rc)
    {
      regs := regs + map[ConnMin := min, ConnMax := max, SubrateMin := subrateMin, SubrateMax := subrateMax,
                         ConnLatency := latency, Continuation := continuation, ConnTimeout := timeout];
      ghost var call := LinkCall.RequestConnectionRate(min, max, subrateMin, subrateMax,
                                                       latency, continuation, timeout);
      rc := LinkCmd(CONNECTION_RATE, Encode(call));
    }

    method PasskeyInput(passkey: U32) returns (rc: int)
      modifies this
      ensures Submitted(LinkCall.PasskeyInput(passkey), rc)
    {
      if passkey > 999_999 { return ERR_INVALID; }
      regs := regs + map[Passkey := passkey];
      rc := LinkCmd(PASSKEY_INPUT, Encode(LinkCall.PasskeyInput(passkey)));
    }

    method AnswerPasskey(accept: Byte) returns (rc: int)
      modifies this
      ensures Submitted(PasskeyConfirm(accept), rc)
    {
      rc := LinkCmd(if accept == 0 then PASSKEY_CANCEL else PASSKEY_CONFIRM, Encode(PasskeyConfirm(accept)));
    }

    /** The calls without arguments. */
    method PlainCommand(what: Plain) returns (rc: int)
      requires !what.ConfirmPasskey? && !what.CancelPasskey?
      modifies this
      ensures Submitted(Without(what), rc)
    {
      rc := LinkCmd(CommandFor(what), Encode(Without(what)));
    }

    /** `link_control_once`: swap the command to none, then read its words. */
    method LinkControlOnce() returns (a: Action)
      modifies this`cmd, this`log
      ensures Value() == Consume(old(Value()))
      ensures a == if old(cmd) == NONE then Nothing else ActionOf(old(cmd), regs)
    {
      var c := cmd;
      cmd := NONE;
      if c == NONE { return Nothing; }
      log := log + [Ran(c, regs)];
      a := ActionOf(c, regs);
    }
  }

  lemma {:induction false} CarriesEarly(c: Call<Reg, nat>, regs: map<Reg, nat>, r: Reg)
    requires c.late == map[] && Carries(regs, c) && r in c.early
    ensures Get(regs, r) == c.early[r]
  {
    assert r in Params(c) && Params(c)[r] == c.early[r];
  }

  /** Words that carry a call's arguments make the consumer do what the caller asked for. */
  lemma {:induction false} CarriedIsIntended(c: LinkCall, regs: map<Reg, nat>)
    requires ValidCall(c) && Carries(regs, Encode(c))
    ensures ActionOf(Encode(c).cmd, regs) == Intent(c)
  {
    var call := Encode(c);
    match c
    case SetPhy(_) => CarriesEarly(call, regs, Phy);
    case UpdateDataLength(_, _) =>
      CarriesEarly(call, regs, DleOctets);
      CarriesEarly(call, regs, DleTime);
    case UpdateConnParams(_, _, _, _) => CarriesConn(call, regs);
    case UpdateFrameSpace(_, _, _, _) =>
      CarriesEarly(call, regs, SpaceMin);
      CarriesEarly(call, regs, SpaceMax);
      CarriesEarly(call, regs, SpacePhys);
      CarriesEarly(call, regs, SpaceTypes);
    case RequestConnectionRate(_, _, _, _, _, _, _) => RateIsIntended(c, regs);
    case PasskeyInput(_) => CarriesEarly(call, regs, Passkey);
    case PasskeyConfirm(_) =>
    case Without(_) =>
  }

  lemma {:induction false} RateIsIntended(c: LinkCall, regs: map<Reg, nat>)
    requires c.RequestConnectionRate? && Carries(regs, Encode(c))
    ensures ActionOf(CONNECTION_RATE, regs) == Intent(c)
  {
    var call := Encode(c);
    CarriesConn(call, regs);
    CarriesEarly(call, regs, SubrateMin);
    CarriesEarly(call, regs, SubrateMax);
    CarriesEarly(call, regs, Continuation);
  }

  /** The four words two commands share. */
  lemma {:induction false} CarriesConn(c: Call<Reg, nat>, regs: map<Reg, nat>)
    requires c.late == map[] && Carries(regs, c)
    requires ConnMin in c.early && ConnMax in c.early && ConnLatency in c.early && ConnTimeout in c.early
    ensures Get(regs, ConnMin) == c.early[ConnMin] && Get(regs, ConnMax) == c.early[ConnMax]
    ensures Get(regs, ConnLatency) == c.early[ConnLatency] && Get(regs, ConnTimeout) == c.early[ConnTimeout]
  {
    CarriesEarly(c, regs, ConnMin);
    CarriesEarly(c, regs, ConnMax);
    CarriesEarly(c, regs, ConnLatency);
    CarriesEarly(c, regs, ConnTimeout);
  }

  /**
   What the connection is asked for, field by field: the caller's value, or the default for a zero. A
   connection rate is refused exactly if an effective minimum exceeds its maximum, and so is a frame
   spacing.
   */
  lemma {:induction false} ExecutedFields(c: LinkCall, regs: map<Reg, nat>)
    requires ValidCall(c) && Carries(regs, Encode(c))
    ensures var a := ActionOf(Encode(c).cmd, regs);
            && (c.SetPhy? ==> 1 <= c.phy <= 3 && a == UsePhy(c.phy))
            && (c.PasskeyInput? ==> c.passkey <= 999_999 && a == UsePasskey(c.passkey))
            && (c.Without? ==> a == Do(c.what))
            && (c.PasskeyConfirm? ==> a == if c.accept == 0 then Do(CancelPasskey) else Do(ConfirmPasskey))
            && (c.UpdateDataLength? ==>
                  && a.UseDataLength?
                  && a.octets == (if c.octets == 0 then 251 else c.octets)
                  && a.time == (if c.time == 0 then 2120 else c.time))
            && (c.UpdateConnParams? ==>
                  && a.UseConnParams?
                  && a.min == (if c.min == 0 then 80 else c.min)
                  && a.max == (if c.max == 0 then 80 else c.max)
                  && a.latency == c.latency
                  && a.timeout == (if c.timeout == 0 then 8000 else c.timeout))
  {
    CarriedIsIntended(c, regs);
  }

  lemma {:induction false} SpaceFields(minUs: U32, maxUs: U32, phys: Byte, types: Byte, regs: map<Reg, nat>)
    requires Carries(regs, Encode(UpdateFrameSpace(minUs, maxUs, phys, types)))
    ensures var a := ActionOf(FRAME_SPACE, regs);
            && (a.Refused? || a.UseFrameSpace?)
            && (a.Refused? <==>
                  (minUs == 0 && 0 < maxUs < 150) || (maxUs == 0 && minUs > 10_000) || (minUs > maxUs > 0))
            && (a.UseFrameSpace? ==>
                  && a.minUs == (if minUs == 0 then 150 else minUs)
                  && a.maxUs == (if maxUs == 0 then 10_000 else maxUs)
                  && a.phys == phys && a.types == types)
  {
    CarriedIsIntended(UpdateFrameSpace(minUs, maxUs, phys, types), regs);
  }

  lemma {:induction false} RateFields(mn: U16, mx: U16, sn: U16, sx: U16, l: U16, k: U16, t: U16, regs: map<Reg, nat>)
    requires Carries(regs, Encode(RequestConnectionRate(mn, mx, sn, sx, l, k, t)))
    ensures var a := ActionOf(CONNECTION_RATE, regs);
            && (a.Refused? || a.UseConnectionRate?)
            && (a.Refused? <==>
                  || (mn == 0 && 0 < mx < 80) || (mx == 0 && mn > 80) || (mn > mx > 0)
                  || (sx == 0 && sn > 1) || (sn > sx > 0))
            && (a.UseConnectionRate? ==>
                  && a.min == (if mn == 0 then 80 else mn) && a.max == (if mx == 0 then 80 else mx)
                  && a.subrateMin == (if sn == 0 then 1 else sn) && a.subrateMax == (if sx == 0 then 1 else sx)
                  && a.latency == l && a.continuation == k
                  && a.timeout == (if t == 0 then 8000 else t))
  {
    CarriedIsIntended(RequestConnectionRate(mn, mx, sn, sx, l, k, t), regs);
  }

  /** The channel operations a sequence of calls and consumptions amounts to. */
  datatype Event = Ask(call: LinkCall) | Tick

  function OpOf(e: Event): Op<Reg, nat> {
    match e
    case Ask(c) => Submit(Encode(c))
    case Tick => Pump
  }

  function Ops(es: seq<Event>): seq<Op<Reg, nat>> {
    if es == [] then [] else Ops(es[..|es| - 1]) + [OpOf(es[|es| - 1])]
  }

  lemma {:induction false} OpsAt(es: seq<Event>, k: nat)
    requires k <= |es|
    ensures |Ops(es)| == |es| && Ops(es)[..k] == Ops(es[..k]) && (k < |es| ==> Ops(es)[k] == OpOf(es[k]))
    decreases |es|
  {
    if es != [] {
      var front := es[..|es| - 1];
      if k < |es| {
        OpsAt(front, k);
        assert front[..k] == es[..k];
        assert Ops(es)[..k] == Ops(front)[..k];
      } else {
        OpsAt(front, |front|);
        assert es[..k] == es;
      }
    }
  }

  const EMPTY: Channel<Reg, nat> := Channel(NONE, map[], [])

  ghost predicate AllValid(es: seq<Event>) {
    forall k :: 0 <= k < |es| && es[k].Ask? ==> ValidCall(es[k].call)
  }

  /** No call is made while another one is pending. */
  ghost predicate NeverWhilePending(es: seq<Event>) {
    forall k :: 0 <= k < |es| && es[k].Ask? ==>
      ValidCall(es[k].call) && CommandSlot.Run(EMPTY, Ops(es[..k])).cmd == NONE
  }

  /** Every accepted call in a log is some application call. */
  ghost predicate FromCalls(log: seq<Entry<Reg, nat>>) {
    forall k :: 0 <= k < |log| && log[k].Took? ==> exists c: LinkCall :: ValidCall(c) && log[k].call == Encode(c)
  }

  lemma {:induction false} LogFromCalls(es: seq<Event>)
    requires AllValid(es)
    ensures FromCalls(CommandSlot.Run(EMPTY, Ops(es)).log)
  {
    if es != [] {
      var front, e := es[..|es| - 1], es[|es| - 1];
      LogFromCalls(front);
      assert Ops(es)[..|Ops(es)| - 1] == Ops(front);
    }
  }

  /** A command executed as the call before it asked. */
  ghost predicate DoneAsAsked(took: Entry<Reg, nat>, ran: Entry<Reg, nat>) {
    exists c: LinkCall :: took == Took(Encode(c)) && ran.Ran? && ActionOf(ran.cmd, ran.regs) == Intent(c)
  }

  lemma {:induction false} PairDone(log: seq<Entry<Reg, nat>>, k: nat)
    requires Transparent(log) && FromCalls(log) && 0 < k < |log| && k % 2 == 1
    ensures DoneAsAsked(log[k - 1], log[k])
  {
    assert log[k - 1].Took? && log[k].Ran?;
    var c: LinkCall :| ValidCall(c) && log[k - 1].call == Encode(c);
    CarriedIsIntended(c, log[k].regs);
  }

  lemma {:induction false} PoliteAt(es: seq<Event>, k: nat)
    requires NeverWhilePending(es) && k < |es| && es[k].Ask?
    ensures |Ops(es)| == |es| && Ops(es)[k] == Submit(Encode(es[k].call)) && Encode(es[k].call).cmd != NONE
    ensures Pending(CommandSlot.Run(EMPTY, Ops(es)[..k])).None?
  {
    OpsAt(es, k);
    EncodeReal(es[k].call);
    var front := es[..k];
    assert AllValid(front);
    NothingPending(front);
  }

  lemma {:induction false} EncodeReal(c: LinkCall)
    requires ValidCall(c)
    ensures Encode(c).cmd != NONE
  {
  }

  lemma {:induction false} NeverWhilePendingIsPolite(es: seq<Event>)
    requires NeverWhilePending(es)
    ensures Polite(EMPTY, Ops(es))
  {
    OpsAt(es, |es|);
    forall k | 0 <= k < |es| && Ops(es)[k].Submit?
      ensures Ops(es)[k].call.cmd != NONE && Harmless(Ops(es)[k].call, Pending(CommandSlot.Run(EMPTY, Ops(es)[..k])))
    {
      OpsAt(es, k);
      PoliteAt(es, k);
    }
  }

  /**
   Over every polite run, also with calls refused behind a pending one that they do not harm: accepted
   and executed alternate, and every command executed does exactly what the call accepted just before
   it asked for.
   */
  lemma {:induction false} PoliteExecutedAsIntended(es: seq<Event>)
    requires AllValid(es) && Polite(EMPTY, Ops(es))
    ensures var log := CommandSlot.Run(EMPTY, Ops(es)).log;
            Transparent(log) && forall k :: 0 < k < |log| && k % 2 == 1 ==> DoneAsAsked(log[k - 1], log[k])
  {
    PoliteRunsTransparent(EMPTY, Ops(es));
    LogFromCalls(es);
    var log := CommandSlot.Run(EMPTY, Ops(es)).log;
    forall k | 0 < k < |log| && k % 2 == 1 ensures DoneAsAsked(log[k - 1], log[k]) {
      PairDone(log, k);
    }
  }

  /** In particular where no call is made while one is pending. */
  lemma {:induction false} ExecutedAsIntended(es: seq<Event>)
    requires NeverWhilePending(es)
    ensures var log := CommandSlot.Run(EMPTY, Ops(es)).log;
            Transparent(log) && forall k :: 0 < k < |log| && k % 2 == 1 ==> DoneAsAsked(log[k - 1], log[k])
  {
    NeverWhilePendingIsPolite(es);
    PoliteExecutedAsIntended(es);
  }

  lemma {:induction false} OpsStep(es: seq<Event>)
    requires es != []
    ensures CommandSlot.Run(EMPTY, Ops(es))
         == CommandSlot.Apply(CommandSlot.Run(EMPTY, Ops(es[..|es| - 1])), OpOf(es[|es| - 1]))
  {
    assert Ops(es)[..|Ops(es)| - 1] == Ops(es[..|es| - 1]);
  }

  /** An idle command word means that the last event of the log is an execution. */
  lemma {:induction false} NothingPending(es: seq<Event>)
    requires AllValid(es)
    ensures var ch := CommandSlot.Run(EMPTY, Ops(es));
            ch.cmd == NONE ==> Pending(ch).None?
  {
    if es != [] {
      NothingPending(es[..|es| - 1]);
      OpsStep(es);
      if es[|es| - 1].Ask? { EncodeReal(es[|es| - 1].call); }
    }
  }

  /**
   A connection-rate call refused behind pending connection parameters leaves them alone exactly
   when it names the same interval, latency and timeout.
   */
  lemma {:induction false} RateBehindParamsIff(p: LinkCall, r: LinkCall)
    requires p.UpdateConnParams? && r.RequestConnectionRate?
    ensures Harmless(Encode(r), Some(Encode(p))) <==>
            r.min == p.min && r.max == p.max && r.latency == p.latency && r.timeout == p.timeout
  {
    var e, q := Encode(r).early, Params(Encode(p));
    assert q == Encode(p).early;
    assert forall x :: x in e && x in q <==> x == ConnMin || x == ConnMax || x == ConnLatency || x == ConnTimeout;
    assert e[ConnMin] == r.min && e[ConnMax] == r.max && e[ConnLatency] == r.latency && e[ConnTimeout] == r.timeout;
    assert q[ConnMin] == p.min && q[ConnMax] == p.max && q[ConnLatency] == p.latency && q[ConnTimeout] == p.timeout;
  }

  /** A connection-rate call asks for the intervals, latency and timeout of connection parameters, defaults included. */
  predicate SameInEffect(p: LinkCall, r: LinkCall)
    requires p.UpdateConnParams? && r.RequestConnectionRate?
  {
    Or(r.min, 80) == Or(p.min, 80) && Or(r.max, 80) == Or(p.max, 80) && r.latency == p.latency
    && Or(r.timeout, 8000) == Or(p.timeout, 8000)
  }

  /**
   For what is executed the zeros count as their defaults: behind pending connection parameters, a
   refused connection-rate call leaves the action as it was asked for exactly when it asks for the
   same intervals, latency and timeout in effect.
   */
  lemma {:induction false} RateBehindParamsExecutes(ch: Channel<Reg, nat>, p: LinkCall, r: LinkCall)
    requires CommandSlot.Inv(ch) && ch.cmd != NONE && p.UpdateConnParams? && r.RequestConnectionRate?
    requires Pending(ch) == Some(Encode(p))
    ensures var after := Issue(ch, Encode(r));
            ActionOf(after.cmd, after.regs) == Intent(p) <==> SameInEffect(p, r)
  {
    var regs, e := Issue(ch, Encode(r)).regs, Encode(r).early;
    assert forall x :: x in e ==> regs[x] == e[x];
    assert e[ConnMin] == r.min && e[ConnMax] == r.max && e[ConnLatency] == r.latency && e[ConnTimeout] == r.timeout;
    assert ActionOf(CONN_PARAMS, regs) == UseConnParams(Or(r.min, 80), Or(r.max, 80), r.latency, Or(r.timeout, 8000));
  }

  /** So a refused call can change what is executed: the connection gets the intervals of the refused one. */
  lemma {:induction false} RateOverwritesParams()
    ensures var p, r := UpdateConnParams(10, 20, 0, 100), RequestConnectionRate(30, 40, 1, 1, 5, 0, 600);
            var ch := Issue(Issue(EMPTY, Encode(p)), Encode(r));
            && ch.log == [Took(Encode(p))]
            && ActionOf(ch.cmd, ch.regs) == UseConnParams(30, 40, 5, 600) != Intent(p)
  {
  }
}
