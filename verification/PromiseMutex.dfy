// The in-process mutex (src/wallet-engine/mutex.ts): a chain of promises. A call chains its
// section on the current tail, and a promise that swallows the section's outcome becomes the
// new tail. The event loop runs reactions and sections finish at any time, in any order the
// chain allows.
module PromiseMutex {
  import opened Options

  datatype Outcome = Resolves(value: int) | Rejects(error: int)

  datatype Status = Unsettled | Settled(outcome: Outcome)

  // How a promise came about: already resolved, `parent.then(section)`, or
  // `parent.then(swallow, swallow)`.
  datatype Origin = Initial | ThenRun(parent: nat, call: nat) | ThenSwallow(parent: nat)

  datatype Promise = Promise(status: Status, origin: Origin)

  datatype Section = NotStarted | Running | Ended(outcome: Outcome)

  // Every promise chained so far, the current tail, the section of every call and the order
  // in which sections started.
  datatype Chain = Chain(promises: seq<Promise>, tail: nat, sections: seq<Section>, starts: seq<nat>)

  const UNDEFINED: Outcome := Resolves(0)

  const NEW_CHAIN: Chain := Chain([Promise(Settled(UNDEFINED), Initial)], 0, [], [])

  // ----- the mutex object --------------------------------------------------------------------------

  class Mutex {
    var promises: seq<Promise>
    var tail: nat
    var calls: nat

    ghost predicate Valid()
      reads this
    {
      tail < |promises|
    }

    constructor ()
      ensures Valid() && promises == NEW_CHAIN.promises && tail == NEW_CHAIN.tail && calls == 0
    {
      promises, tail, calls := [Promise(Settled(UNDEFINED), Initial)], 0, 0;
    }

    // Queues a section behind every earlier one and returns the promise of its outcome.
    method RunExclusive() returns (result: nat)
      requires Valid()
      modifies this
      ensures Valid() && calls == old(calls) + 1
      ensures forall sections, starts | |sections| == old(calls) ::
        Chain(promises, tail, sections + [NotStarted], starts) == Enqueue(Chain(old(promises), old(tail), sections, starts))
      ensures result == |old(promises)| && |promises| == result + 2 && promises[result] == Promise(Unsettled, ThenRun(old(tail), old(calls)))
    {
      result := |promises|;
      promises := promises + [Promise(Unsettled, ThenRun(tail, calls))];
      tail := |promises|;
      promises := promises + [Promise(Unsettled, ThenSwallow(result))];
      calls := calls + 1;
    }
  }

  // ----- the event loop ------------------------------------------------------------------------------

  datatype Action = Call | React(p: nat) | Finish(call: nat, outcome: Outcome)

  // What one call adds to the chain.
  function Enqueue(c: Chain): Chain {
    var result := |c.promises|;
    Chain(
      c.promises + [Promise(Unsettled, ThenRun(c.tail, |c.sections|)), Promise(Unsettled, ThenSwallow(result))],
      result + 1, c.sections + [NotStarted], c.starts)
  }

  // The reaction of promise p is ready: p is unsettled and what it waits for is settled.
  predicate CanReact(c: Chain, p: nat) {
    && p < |c.promises| && c.promises[p].status.Unsettled?
    && match c.promises[p].origin
       case Initial => false
       case ThenRun(parent, call) =>
         parent < |c.promises| && c.promises[parent].status.Settled? && call < |c.sections| && c.sections[call].NotStarted?
       case ThenSwallow(parent) => parent < |c.promises| && c.promises[parent].status.Settled?
  }

  // A rejected parent passes its rejection on without running the section; only the swallowing
  // promises have a handler for rejections.
  function Reacted(c: Chain, p: nat): Chain
    requires CanReact(c, p)
  {
    match c.promises[p].origin
    case Initial => c
    case ThenRun(parent, call) =>
      if c.promises[parent].status.outcome.Resolves? then c.(sections := c.sections[call := Running], starts := c.starts + [call])
      else c.(promises := c.promises[p := c.promises[p].(status := c.promises[parent].status)])
    case ThenSwallow(parent) => c.(promises := c.promises[p := c.promises[p].(status := Settled(UNDEFINED))])
  }

  function ResultOf(call: nat): nat { 2 * call + 1 }

  function TailAfter(call: nat): nat { 2 * call + 2 }

  predicate CanAct(c: Chain, a: Action) {
    match a
    case Call => true
    case React(p) => CanReact(c, p)
    case Finish(call, _) => call < |c.sections| && c.sections[call].Running? && ResultOf(call) < |c.promises|
  }

  function Act(c: Chain, a: Action): Chain
    requires CanAct(c, a)
  {
    match a
    case Call => Enqueue(c)
    case React(p) => Reacted(c, p)
    case Finish(call, outcome) =>
      c.(sections := c.sections[call := Ended(outcome)],
         promises := c.promises[ResultOf(call) := c.promises[ResultOf(call)].(status := Settled(outcome))])
  }

  // ----- a FIFO lock -------------------------------------------------------------------------------

  // Callers in the order of their calls: those done with their outcomes, the holder, the rest
  // in the queue.
  datatype Lock = Lock(done: seq<Outcome>, holder: Option<nat>, queue: seq<nat>)

  ghost predicate LockStep(l: Lock, l': Lock) {
    || (exists caller :: l' == l.(queue := l.queue + [caller]))                                         // a call queues
    || (l.holder.None? && l.queue != [] && l' == l.(holder := Some(l.queue[0]), queue := l.queue[1..]))   // the first in the queue enters
    || (l.holder.Some? && exists outcome :: l' == l.(done := l.done + [outcome], holder := None))         // the holder leaves
  }

  function OutcomeOf(s: Section): Outcome { if s.Ended? then s.outcome else UNDEFINED }

  // The lock a chain stands for.
  ghost function Abstract(c: Chain): Lock
    requires Inv(c)
  {
    var n := |c.starts|;
    var running := n > 0 && c.sections[n-1].Running?;
    Lock(seq(if running then n - 1 else n, i requires 0 <= i < |c.sections| => OutcomeOf(c.sections[i])),
         if running then Some(n - 1) else None,
         seq(|c.sections| - n, i => n + i))
  }

  // ----- the chain is that lock ----------------------------------------------------------------------

  ghost predicate CallOk(c: Chain, k: nat)
    requires k < |c.sections| && |c.promises| == 1 + 2 * |c.sections|
  {
    var result, after := c.promises[ResultOf(k)], c.promises[TailAfter(k)];
    && result.origin == ThenRun(2 * k, k) && after.origin == ThenSwallow(ResultOf(k))
    && (result.status.Settled? <==> c.sections[k].Ended?)
    && (c.sections[k].Ended? ==> result.status == Settled(c.sections[k].outcome))
    && (after.status.Settled? ==> after.status == Settled(UNDEFINED) && result.status.Settled?)
    && (c.sections[k].NotStarted? <==> k >= |c.starts|)
    && (k + 1 < |c.starts| ==> c.sections[k].Ended?)
    && (!c.sections[k].NotStarted? ==> c.promises[2 * k].status.Settled?)
  }

  ghost predicate Inv(c: Chain) {
    && |c.promises| == 1 + 2 * |c.sections| && c.tail == 2 * |c.sections|
    && c.promises[0] == Promise(Settled(UNDEFINED), Initial)
    && |c.starts| <= |c.sections|
    && (forall i :: 0 <= i < |c.starts| ==> c.starts[i] == i)
    && (forall k: nat :: k < |c.sections| ==> CallOk(c, k))
  }

  // Every promise is the initial one, a call's result or the tail after a call.
  lemma PromiseKinds(c: Chain, p: nat)
    requires Inv(c) && p < |c.promises|
    ensures p == 0 || (p % 2 == 1 && (p - 1) / 2 < |c.sections| && p == ResultOf((p - 1) / 2))
                   || (p % 2 == 0 && p > 0 && (p - 2) / 2 < |c.sections| && p == TailAfter((p - 2) / 2))
  {
  }

  // The tail a call waits on is settled only once every section before it ended.
  lemma TailMeansAllEnded(c: Chain, k: nat)
    requires Inv(c) && k < |c.sections| && c.promises[2 * k].status.Settled?
    ensures c.promises[2 * k].status.outcome.Resolves?
    ensures forall i: nat :: i < k ==> c.sections[i].Ended?
    ensures k <= |c.starts|
  {
    if k > 0 {
      assert CallOk(c, k - 1) && TailAfter(k - 1) == 2 * k;
      forall i: nat | i < k ensures c.sections[i].Ended? { assert CallOk(c, i); }
    }
  }

  lemma RunKeeps(c: Chain, k: nat)
    requires Inv(c) && k < |c.sections| && CanReact(c, ResultOf(k))
    ensures |c.starts| == k && (k > 0 ==> c.sections[k-1].Ended?)
    ensures Reacted(c, ResultOf(k)) == c.(sections := c.sections[k := Running], starts := c.starts + [k])
    ensures Inv(Reacted(c, ResultOf(k)))
  {
    assert CallOk(c, k);
    TailMeansAllEnded(c, k);
    var c' := Reacted(c, ResultOf(k));
    forall j: nat | j < |c'.sections| ensures CallOk(c', j) { assert CallOk(c, j); }
  }

  lemma SwallowKeeps(c: Chain, k: nat)
    requires Inv(c) && k < |c.sections| && CanReact(c, TailAfter(k))
    ensures Inv(Reacted(c, TailAfter(k)))
    ensures Reacted(c, TailAfter(k)).sections == c.sections && Reacted(c, TailAfter(k)).starts == c.starts
  {
    assert CallOk(c, k);
    var c' := Reacted(c, TailAfter(k));
    forall j: nat | j < |c'.sections| ensures CallOk(c', j) { assert CallOk(c, j); }
  }

  lemma FinishKeeps(c: Chain, k: nat, outcome: Outcome)
    requires Inv(c) && CanAct(c, Finish(k, outcome))
    ensures Inv(Act(c, Finish(k, outcome))) && k == |c.starts| - 1
  {
    assert CallOk(c, k);
    var c' := Act(c, Finish(k, outcome));
    forall j: nat | j < |c'.sections| ensures CallOk(c', j) { assert CallOk(c, j); }
  }

  lemma CallKeeps(c: Chain)
    requires Inv(c)
    ensures Inv(Enqueue(c))
  {
    var c' := Enqueue(c);
    forall j: nat | j < |c'.sections| ensures CallOk(c', j) {
      if j < |c.sections| { assert CallOk(c, j); }
    }
  }

  // Every action of the event loop is a step of the FIFO lock or leaves it as it is.
  lemma ChainRefinesLock(c: Chain, a: Action)
    requires Inv(c) && CanAct(c, a)
    ensures Inv(Act(c, a))
    ensures Abstract(Act(c, a)) == Abstract(c) || LockStep(Abstract(c), Abstract(Act(c, a)))
  {
    var c' := Act(c, a);
    match a
    case Call =>
      CallKeeps(c);
      CallRefines(c);
    case Finish(k, outcome) =>
      FinishKeeps(c, k, outcome);
      FinishRefines(c, k, outcome);
    case React(p) =>
      PromiseKinds(c, p);
      if p % 2 == 1 {
        RunKeeps(c, (p - 1) / 2);
        RunRefines(c, (p - 1) / 2);
      } else {
        SwallowKeeps(c, (p - 2) / 2);
      }
  }

  lemma CallRefines(c: Chain)
    requires Inv(c) && Inv(Enqueue(c))
    ensures Abstract(Enqueue(c)) == Abstract(c).(queue := Abstract(c).queue + [|c.sections|])
  {
    var c' := Enqueue(c);
    if |c.starts| > 0 { assert c'.sections[|c.starts|-1] == c.sections[|c.starts|-1]; }
    assert forall i :: 0 <= i < |c.sections| ==> c'.sections[i] == c.sections[i];
  }

  lemma RunRefines(c: Chain, k: nat)
    requires Inv(c) && k == |c.starts| < |c.sections| && (k > 0 ==> c.sections[k-1].Ended?)
    requires Inv(c.(sections := c.sections[k := Running], starts := c.starts + [k]))
    ensures LockStep(Abstract(c), Abstract(c.(sections := c.sections[k := Running], starts := c.starts + [k])))
  {
    var l, l' := Abstract(c), Abstract(c.(sections := c.sections[k := Running], starts := c.starts + [k]));
    assert l'.done == l.done && l'.queue == l.queue[1..];
  }

  lemma FinishRefines(c: Chain, k: nat, outcome: Outcome)
    requires Inv(c) && CanAct(c, Finish(k, outcome)) && Inv(Act(c, Finish(k, outcome))) && k == |c.starts| - 1
    ensures Abstract(Act(c, Finish(k, outcome))) == Abstract(c).(done := Abstract(c).done + [outcome], holder := None)
  {
    var l, l' := Abstract(c), Abstract(Act(c, Finish(k, outcome)));
    assert l'.done == l.done + [outcome];
  }

  // ----- runs ------------------------------------------------------------------------------------------

  ghost predicate IsTrace(states: seq<Chain>, actions: seq<Action>) {
    && |states| == |actions| + 1
    && states[0] == NEW_CHAIN
    && forall i :: 0 <= i < |actions| ==> CanAct(states[i], actions[i]) && states[i+1] == Act(states[i], actions[i])
  }

  lemma {:induction false} EveryStateIsInvariant(states: seq<Chain>, actions: seq<Action>, k: nat)
    requires IsTrace(states, actions) && k < |states|
    ensures Inv(states[k])
  {
    if k > 0 {
      EveryStateIsInvariant(states, actions, k - 1);
      ChainRefinesLock(states[k-1], actions[k-1]);
    }
  }

  // Sections start in call order, each once; two sections never run at once; a caller's
  // promise settles exactly when its own section ended, with that section's outcome.
  lemma SectionsAreExclusive(states: seq<Chain>, actions: seq<Action>, k: nat)
    requires IsTrace(states, actions) && k < |states|
    ensures
      var c := states[k];
      && |c.promises| == 1 + 2 * |c.sections| && |c.starts| <= |c.sections|
      && (forall i :: 0 <= i < |c.starts| ==> c.starts[i] == i)
      && (forall i :: 0 <= i < |c.sections| && c.sections[i].Running? ==> i == |c.starts| - 1)
      && (forall i, outcome :: 0 <= i < |c.sections| ==>
            (c.promises[ResultOf(i)].status == Settled(outcome) <==> c.sections[i] == Ended(outcome)))
  {
    EveryStateIsInvariant(states, actions, k);
    var c := states[k];
    forall i: nat | i < |c.sections|
      ensures c.sections[i].Running? ==> i == |c.starts| - 1
      ensures forall outcome :: c.promises[ResultOf(i)].status == Settled(outcome) <==> c.sections[i] == Ended(outcome)
    {
      assert CallOk(c, i);
    }
  }

  // A section that ended, either way, never blocks the next: as long as no section runs and
  // one is queued, the first in the queue can start, at most one reaction from now.
  lemma QueueNeverWedges(states: seq<Chain>, actions: seq<Action>, k: nat)
    requires IsTrace(states, actions) && k < |states|
    requires |states[k].starts| < |states[k].sections| && forall i :: 0 <= i < |states[k].sections| ==> !states[k].sections[i].Running?
    ensures
      var c := states[k];
      var next := |c.starts|;
      || (CanReact(c, ResultOf(next)) && Reacted(c, ResultOf(next)).sections == c.sections[next := Running])
      || (next > 0 && CanReact(c, TailAfter(next - 1))
          && var c' := Reacted(c, TailAfter(next - 1));
             CanReact(c', ResultOf(next)) && Reacted(c', ResultOf(next)).sections == c.sections[next := Running])
  {
    EveryStateIsInvariant(states, actions, k);
    var c := states[k];
    var next := |c.starts|;
    assert CallOk(c, next);
    if c.promises[2 * next].status.Settled? {
      RunKeeps(c, next);
    } else {
      assert CallOk(c, next - 1) && TailAfter(next - 1) == 2 * next;
      assert c.sections[next-1].Ended?;
      SwallowKeeps(c, next - 1);
      RunKeeps(Reacted(c, TailAfter(next - 1)), next);
    }
  }
}
