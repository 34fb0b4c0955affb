/**
 The bond command channel: `bond_admin_cmd`, which tests before it stores, against the swap at the
 head of `bond_admin_loop`.
 */
module BondCommands {
  import opened Common
  import opened CommandSlot

  const OK := 0
  const ERR_NO_MEM := -2
  const ENUMERATE := 1
  const DELETE := 2
  const DELETE_ALL := 3
  const SET_IO_CAPABILITY := 4

  datatype Reg = Index | IoCapability

  datatype BondCall = Enumerate | Delete(index: Byte) | DeleteAll | SetIoCapability(capability: Byte)

  datatype Action = Nothing | List | DeleteSlot(index: nat) | DeleteEverySlot | UseIoCapability(capability: nat)

  function Encode(c: BondCall): Call<Reg, nat> {
    match c
    case Enumerate => Call(ENUMERATE, map[], map[])
    case Delete(i) => Call(DELETE, map[], map[Index := i])
    case DeleteAll => Call(DELETE_ALL, map[], map[])
    case SetIoCapability(c) => Call(SET_IO_CAPABILITY, map[], map[IoCapability := c])
  }

  function Get(regs: map<Reg, nat>, r: Reg): nat { if r in regs then regs[r] else 0 }

  function ActionOf(cmd: nat, regs: map<Reg, nat>): Action {
    if cmd == ENUMERATE then List
    else if cmd == DELETE then DeleteSlot(Min(Get(regs, Index), 255))
    else if cmd == DELETE_ALL then DeleteEverySlot
    else if cmd == SET_IO_CAPABILITY then UseIoCapability(Min(Get(regs, IoCapability), 255))
    else Nothing
  }

  function Intent(c: BondCall): Action {
    match c
    case Enumerate => List
    case Delete(i) => DeleteSlot(i)
    case DeleteAll => DeleteEverySlot
    case SetIoCapability(c) => UseIoCapability(c)
  }

  class BondMailbox {
    var cmd: nat
    var regs: map<Reg, nat>
    ghost var log: seq<Entry<Reg, nat>>

    ghost function Value(): Channel<Reg, nat>
      reads this
    {
      Channel(cmd, regs, log)
    }

    constructor ()
      ensures Value() == Channel(NONE, map[], [])
    {
      cmd, regs, log := NONE, map[], [];
    }

    /** `bond_admin_cmd`: a refused call changes nothing at all. */
    method BondAdminCmd(c: BondCall) returns (rc: int)
      modifies this
      ensures Value() == Issue(old(Value()), Encode(c))
      ensures old(cmd) != NONE ==> rc == ERR_NO_MEM && Value() == old(Value())
      ensures old(cmd) == NONE ==> rc == OK
    {
      if cmd != NONE {
        assert regs + map[] == regs;
        return ERR_NO_MEM;
      }
      match c {
        case Delete(i) => regs := regs + map[Index := i];
        case SetIoCapability(k) => regs := regs + map[IoCapability := k];
        case _ =>
      }
      assert old(regs) + map[] == old(regs);
      cmd := Encode(c).cmd;
      log := log + [Took(Encode(c))];
      rc := OK;
    }

    /** The swap and the parameter read of `bond_admin_loop`. */
    method Poll() returns (a: Action)
      modifies this`cmd, this`log
      ensures Value() == Consume(old(Value()))
      ensures a == if old(cmd) == NONE then Nothing else ActionOf(old(cmd), regs)
    {
      var c := cmd;
      cmd := NONE;
      if c == NONE { return Nothing; }
      log := log + [Ran(c, regs)];
      a := ActionOf(c, regs);
    }
  }

  function Ops(es: seq<Option<BondCall>>): seq<Op<Reg, nat>> {
    if es == [] then []
    else
      var e := es[|es| - 1];
      Ops(es[..|es| - 1]) + [if e.Some? then Submit(Encode(e.value)) else Pump]
  }

  ghost predicate DoneAsAsked(took: Entry<Reg, nat>, ran: Entry<Reg, nat>) {
    exists c: BondCall :: took == Took(Encode(c)) && ran.Ran? && ActionOf(ran.cmd, ran.regs) == Intent(c)
  }

  ghost predicate FromCalls(log: seq<Entry<Reg, nat>>) {
    forall k :: 0 <= k < |log| && log[k].Took? ==> exists c: BondCall :: log[k].call == Encode(c)
  }

  lemma {:induction false} OpsTestFirst(es: seq<Option<BondCall>>)
    ensures forall k :: 0 <= k < |Ops(es)| && Ops(es)[k].Submit? ==>
              Ops(es)[k].call.cmd != NONE && Ops(es)[k].call.early == map[]
    ensures FromCalls(Run(Channel(NONE, map[], []), Ops(es)).log)
  {
    if es != [] {
      OpsTestFirst(es[..|es| - 1]);
      assert Ops(es)[..|Ops(es)| - 1] == Ops(es[..|es| - 1]);
    }
  }

  lemma {:induction false} CarriedIsIntended(c: BondCall, regs: map<Reg, nat>)
    requires Carries(regs, Encode(c))
    ensures ActionOf(Encode(c).cmd, regs) == Intent(c)
  {
    match c
    case Delete(i) => assert Index in Params(Encode(c));
    case SetIoCapability(k) => assert IoCapability in Params(Encode(c));
    case _ =>
  }

  /** `None` is a poll of the loop. Whatever the order of calls and polls, each command executed is the accepted one. */
  lemma {:induction false} ExecutedAsIntended(es: seq<Option<BondCall>>)
    ensures var log := Run(Channel(NONE, map[], []), Ops(es)).log;
            Transparent(log) && forall k :: 0 < k < |log| && k % 2 == 1 ==> DoneAsAsked(log[k - 1], log[k])
  {
    var start := Channel(NONE, map[], []);
    OpsTestFirst(es);
    CheckFirstTransparent(start, Ops(es));
    var log := Run(start, Ops(es)).log;
    forall k | 0 < k < |log| && k % 2 == 1 ensures DoneAsAsked(log[k - 1], log[k]) {
      assert log[k - 1].Took?;
      var c: BondCall :| log[k - 1].call == Encode(c);
      CarriedIsIntended(c, log[k].regs);
    }
  }
}
