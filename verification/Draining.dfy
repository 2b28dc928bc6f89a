/** Handlers settle what is pending: they cannot run for ever, and can always
    go on until nothing is left. */
module Draining {
  import opened Domain
  import opened Emission
  import opened Tables
  import opened Lifecycle
  import opened Pipeline
  import opened Effects
  import opened Pricing
  import opened Runs

  predicate OnlyHandlers(steps: seq<Step>) {
    forall i :: 0 <= i < |steps| ==> !IsServiceCall(steps[i])
  }

  /** A pending price may still ask for a recompute. */
  function PendingWork(s: State): nat {
    2 * |s.ingested| + |s.calculated| + |s.notices|
  }

  predicate AllHandled(s: State) {
    Quiescent(s) && s.notices == multiset{}
  }

  lemma SettlingWork(s: State, p: Payload, quote: Quote)
    ensures var s' := Settle(s, p, quote);
      s'.ingested == s.ingested && s'.notices == s.notices && |s'.calculated| <= |s.calculated| + 1
  {
    hide SetStatus;
  }

  lemma HandlerUsesUpWork(env: Env, s: State, step: Step)
    requires Enabled(s, step) && !IsServiceCall(step)
    ensures PendingWork(Apply(env, s, step)) < PendingWork(s)
  {
    hide QuoteOf;
    if step.HandlingIngested? {
      var rest := s.(ingested := Without(s.ingested, step.k));
      SettlingWork(rest, s.ingested[step.k], QuoteOf(env, s.ingested[step.k]));
    }
  }

  lemma {:induction false} HandlersUseUpWork(env: Env, s: State, steps: seq<Step>)
    requires Runnable(env, s, steps) && OnlyHandlers(steps)
    ensures PendingWork(Run(env, s, steps)) + |steps| <= PendingWork(s)
    decreases |steps|
  {
    hide Apply, PendingWork;
    if steps == [] {
    } else {
      HandlerUsesUpWork(env, s, steps[0]);
      HandlersUseUpWork(env, Apply(env, s, steps[0]), steps[1..]);
    }
  }

  /** While an event is pending some handler can run, on the oldest payload if there is one. */
  lemma NextHandler(s: State) returns (step: Step)
    requires !AllHandled(s)
    ensures Enabled(s, step) && !IsServiceCall(step) && InOrder(s, step)
  {
    if s.ingested != [] {
      step := HandlingIngested(0);
    } else if s.calculated != multiset{} {
      var key :| key in s.calculated;
      step := HandlingCalculated(key);
    } else {
      var notice :| notice in s.notices;
      step := HandlingNotice(notice);
    }
  }

  /** From any state, in any order, handlers alone run for at most two steps per
      pending payload and one per other event, and until everything is handled
      some handler can go on. */
  lemma HandlersDrain(env: Env, s: State, steps: seq<Step>)
    requires Runnable(env, s, steps) && OnlyHandlers(steps)
    ensures |steps| <= 2 * |s.ingested| + |s.calculated| + |s.notices|
    ensures !AllHandled(Run(env, s, steps)) ==>
      exists step :: Enabled(Run(env, s, steps), step) && !IsServiceCall(step)
  {
    HandlersUseUpWork(env, s, steps);
    if !AllHandled(Run(env, s, steps)) {
      var step := NextHandler(Run(env, s, steps));
    }
  }

  /** So from any state a run of handlers alone, taking each activity's payloads
      in publish order, leads to a state with nothing pending. */
  lemma {:induction false} QuiescenceIsReached(env: Env, s: State) returns (steps: seq<Step>)
    ensures Runnable(env, s, steps) && OnlyHandlers(steps) && Keeps(Ordered, env, s, steps)
    ensures AllHandled(Run(env, s, steps))
    decreases PendingWork(s)
  {
    hide Apply, AllHandled, PendingWork, IsServiceCall;
    if AllHandled(s) {
      steps := [];
    } else {
      var step := NextHandler(s);
      HandlerUsesUpWork(env, s, step);
      var rest := QuiescenceIsReached(env, Apply(env, s, step));
      steps := [step] + rest;
      assert steps[1..] == rest;
    }
  }

  /** After any run that took payloads in publish order, handlers alone can bring
      every activity to the price of its current columns. */
  lemma PricesBecomeCurrent(env: Env, steps: seq<Step>) returns (more: seq<Step>)
    requires Runnable(env, INITIAL, steps) && Keeps(Ordered, env, INITIAL, steps)
    ensures Runnable(env, Run(env, INITIAL, steps), more) && OnlyHandlers(more)
    ensures var s := Run(env, Run(env, INITIAL, steps), more);
      && AllHandled(s)
      && forall i :: 0 <= i < |s.activities| ==>
           var a := s.activities[i];
           a.id in s.published && PricedAs(s, a, QuoteOf(env, PayloadOf(a, s.published[a.id].fuel)))
  {
    hide QuoteOf, PricedAs, Apply;
    var before, handled := Run(env, INITIAL, steps), LastHandled(env, INITIAL, steps, map[]);
    RunKeepsPricing(env, INITIAL, map[], true, steps);
    more := QuiescenceIsReached(env, before);
    RunKeepsPricing(env, before, handled, true, more);
    var s := Run(env, before, more);
    forall i | 0 <= i < |s.activities|
      ensures s.activities[i].id in s.published
      ensures PricedAs(s, s.activities[i],
        QuoteOf(env, PayloadOf(s.activities[i], s.published[s.activities[i].id].fuel)))
    {
      assert RowInv(env, s, LastHandled(env, before, more, handled), true, s.activities[i]);
      CurrentIff(env, s, LastHandled(env, before, more, handled), s.activities[i]);
    }
  }
}
