/**
 A command word with parameter words beside it: the pattern of the link, bond and central command
 channels. A caller that finds a command pending is refused. Some parameters are stored before that
 test (`early`), some after it (`late`); the consumer swaps the command word to none and then reads
 the parameters. Calls and consumptions are atomic steps here.
 */
module CommandSlot {
  import opened Common

  const NONE := 0

  datatype Call<R(==), V> = Call(cmd: nat, early: map<R, V>, late: map<R, V>)

  /** What happened: a call accepted, or a command executed with the parameter words as they were. */
  datatype Entry<R(==), V> = Took(call: Call<R, V>) | Ran(cmd: nat, regs: map<R, V>)

  datatype Channel<R(==), V> = Channel(cmd: nat, regs: map<R, V>, log: seq<Entry<R, V>>)

  function Params<R, V>(c: Call<R, V>): map<R, V> { c.early + c.late }

  function Issue<R, V>(ch: Channel<R, V>, c: Call<R, V>): Channel<R, V> {
    var stored := ch.regs + c.early;
    if ch.cmd != NONE then ch.(regs := stored)
    else Channel(c.cmd, stored + c.late, ch.log + [Took(c)])
  }

  function Consume<R, V>(ch: Channel<R, V>): Channel<R, V> {
    if ch.cmd == NONE then ch else Channel(NONE, ch.regs, ch.log + [Ran(ch.cmd, ch.regs)])
  }

  datatype Op<R(==), V> = Submit(call: Call<R, V>) | Pump

  function Apply<R, V>(ch: Channel<R, V>, op: Op<R, V>): Channel<R, V> {
    match op
    case Submit(c) => Issue(ch, c)
    case Pump => Consume(ch)
  }

  function Run<R, V>(ch: Channel<R, V>, ops: seq<Op<R, V>>): Channel<R, V> {
    if ops == [] then ch else Apply(Run(ch, ops[..|ops| - 1]), ops[|ops| - 1])
  }

  /** The words hold every parameter of a call. */
  predicate Carries<R, V(==)>(regs: map<R, V>, c: Call<R, V>) {
    forall r :: r in Params(c) ==> r in regs && regs[r] == Params(c)[r]
  }

  /** The call that is pending, if any. */
  function Pending<R, V>(ch: Channel<R, V>): Option<Call<R, V>> {
    if ch.log != [] && ch.log[|ch.log| - 1].Took? then Some(ch.log[|ch.log| - 1].call) else None
  }

  /** Words about to be stored agree with the parameters of the pending call. */
  predicate Agrees<R, V(==)>(words: map<R, V>, pending: Option<Call<R, V>>) {
    pending.Some? ==> forall r :: r in words && r in Params(pending.value) ==> words[r] == Params(pending.value)[r]
  }

  /** What a call stores before it looks agrees with the parameters it shares with the pending one. */
  predicate Harmless<R, V(==)>(c: Call<R, V>, pending: Option<Call<R, V>>) { Agrees(c.early, pending) }

  /** Words stored by something that shares them with the channel and does not look at its command. */
  function Touch<R, V>(ch: Channel<R, V>, words: map<R, V>): Channel<R, V> { ch.(regs := ch.regs + words) }

  /** Accepted and executed strictly alternate, and each execution is of the command accepted just before it. */
  ghost predicate Paired<R, V>(log: seq<Entry<R, V>>) {
    && (forall k :: 0 <= k < |log| && k % 2 == 0 ==> log[k].Took? && log[k].call.cmd != NONE)
    && (forall k :: 0 < k < |log| && k % 2 == 1 ==>
          log[k].Ran? && log[k - 1].Took? && log[k].cmd == log[k - 1].call.cmd)
  }

  /** And each execution has all the parameters of the call accepted just before it. */
  ghost predicate Transparent<R, V>(log: seq<Entry<R, V>>) {
    && Paired(log)
    && (forall k :: 0 < k < |log| && k % 2 == 1 ==> Carries(log[k].regs, log[k - 1].call))
  }

  /** The command word is that of the call accepted last, while that is not executed. */
  ghost predicate PairedInv<R, V>(ch: Channel<R, V>) {
    && Paired(ch.log)
    && ((ch.cmd == NONE) <==> |ch.log| % 2 == 0)
    && (ch.cmd != NONE ==> Pending(ch).Some? && Pending(ch).value.cmd == ch.cmd)
  }

  ghost predicate Inv<R, V>(ch: Channel<R, V>) {
    && Transparent(ch.log)
    && PairedInv(ch)
    && (ch.cmd != NONE ==> Carries(ch.regs, Pending(ch).value))
  }

  lemma {:induction false} IssueKeepsPaired<R, V>(ch: Channel<R, V>, c: Call<R, V>)
    requires PairedInv(ch) && c.cmd != NONE
    ensures PairedInv(Issue(ch, c))
  {
  }

  lemma {:induction false} ConsumeKeepsPaired<R, V>(ch: Channel<R, V>)
    requires PairedInv(ch)
    ensures PairedInv(Consume(ch))
  {
    var log := Consume(ch).log;
    assert ch.cmd != NONE ==> |log| % 2 == 0 && log[|log| - 2] == Took(Pending(ch).value);
  }

  lemma {:induction false} TouchKeepsPaired<R, V>(ch: Channel<R, V>, words: map<R, V>)
    requires PairedInv(ch)
    ensures PairedInv(Touch(ch, words))
  {
  }

  /** Over every run of real commands, polite or not: accepted commands are executed at most once each, and in order. */
  lemma {:induction false} EveryRunPaired<R, V>(ch: Channel<R, V>, ops: seq<Op<R, V>>)
    requires PairedInv(ch) && forall k :: 0 <= k < |ops| && ops[k].Submit? ==> ops[k].call.cmd != NONE
    ensures PairedInv(Run(ch, ops)) && Paired(Run(ch, ops).log)
  {
    if ops != [] {
      var front, op := ops[..|ops| - 1], ops[|ops| - 1];
      EveryRunPaired(ch, front);
      match op
      case Submit(c) => IssueKeepsPaired(Run(ch, front), c);
      case Pump => ConsumeKeepsPaired(Run(ch, front));
    }
  }

  /** Storing words behind a pending call leaves its parameters intact exactly when they agree with them. */
  lemma {:induction false} TouchIntactIff<R, V>(ch: Channel<R, V>, words: map<R, V>)
    requires Inv(ch) && ch.cmd != NONE
    ensures Carries(Touch(ch, words).regs, Pending(ch).value) <==> Agrees(words, Pending(ch))
  {
    var p := Params(Pending(ch).value);
    if !Agrees(words, Pending(ch)) {
      var r :| r in words && r in p && words[r] != p[r];
      assert Touch(ch, words).regs[r] == words[r];
    }
  }

  lemma {:induction false} TouchKeepsInv<R, V>(ch: Channel<R, V>, words: map<R, V>)
    requires Inv(ch) && Agrees(words, Pending(ch))
    ensures Inv(Touch(ch, words))
  {
    if ch.cmd != NONE {
      TouchIntactIff(ch, words);
    }
  }

  /** A refused call leaves the pending parameters intact exactly when it is harmless. */
  lemma {:induction false} RefusedIntactIff<R, V>(ch: Channel<R, V>, c: Call<R, V>)
    requires Inv(ch) && ch.cmd != NONE
    ensures Issue(ch, c).cmd == ch.cmd && Issue(ch, c).log == ch.log
    ensures Carries(Issue(ch, c).regs, Pending(ch).value) <==> Harmless(c, Pending(ch))
  {
    TouchIntactIff(ch, c.early);
  }

  lemma {:induction false} IssueKeepsInv<R, V>(ch: Channel<R, V>, c: Call<R, V>)
    requires Inv(ch) && c.cmd != NONE && Harmless(c, Pending(ch))
    ensures Inv(Issue(ch, c))
  {
    if ch.cmd != NONE {
      RefusedIntactIff(ch, c);
    }
  }

  lemma {:induction false} ConsumeKeepsInv<R, V>(ch: Channel<R, V>)
    requires Inv(ch)
    ensures Inv(Consume(ch))
  {
  }

  /** Every call is of a real command, and harmless to whatever is pending when it is made. */
  ghost predicate Polite<R, V>(ch: Channel<R, V>, ops: seq<Op<R, V>>) {
    forall k :: 0 <= k < |ops| && ops[k].Submit? ==>
      ops[k].call.cmd != NONE && Harmless(ops[k].call, Pending(Run(ch, ops[..k])))
  }

  /** Over every polite run, accepted calls are executed once each, in order, with their own parameters. */
  lemma {:induction false} PoliteRunsTransparent<R, V>(ch: Channel<R, V>, ops: seq<Op<R, V>>)
    requires Inv(ch) && Polite(ch, ops)
    ensures Inv(Run(ch, ops)) && Transparent(Run(ch, ops).log)
  {
    if ops != [] {
      var front, op := ops[..|ops| - 1], ops[|ops| - 1];
      assert forall k :: 0 <= k < |front| ==> front[..k] == ops[..k];
      PoliteRunsTransparent(ch, front);
      match op
      case Submit(c) => IssueKeepsInv(Run(ch, front), c);
      case Pump => ConsumeKeepsInv(Run(ch, front));
    }
  }

  /**
   A channel that tests before it stores anything needs no politeness: a refused call leaves the
   words as they are, so every run is transparent.
   */
  lemma {:induction false} CheckFirstTransparent<R, V>(ch: Channel<R, V>, ops: seq<Op<R, V>>)
    requires Inv(ch)
    requires forall k :: 0 <= k < |ops| && ops[k].Submit? ==> ops[k].call.cmd != NONE && ops[k].call.early == map[]
    ensures Transparent(Run(ch, ops).log)
    ensures forall c: Call<R, V> :: ch.cmd != NONE && c.early == map[] ==> Issue(ch, c) == ch
  {
    PoliteRunsTransparent(ch, ops);
    forall c: Call<R, V> | ch.cmd != NONE && c.early == map[]
      ensures Issue(ch, c) == ch
    {
      assert ch.regs + c.early == ch.regs;
    }
  }
}
