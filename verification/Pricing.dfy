/** What an activity's status and emission are worth: always the payload handled
    last for it, and the one published last when payloads are handled in order. */
module Pricing {
  import opened Domain
  import opened Emission
  import opened Tables
  import opened Lifecycle
  import opened Pipeline
  import opened Effects
  import opened Freshness

  /** The payload handled last for each activity. */
  type History = map<ActivityId, Payload>

  function Remember(s: State, step: Step, handled: History): History
    requires Enabled(s, step)
  {
    if step.HandlingIngested? then handled[s.ingested[step.k].activity := s.ingested[step.k]] else handled
  }

  /** The payload published last carries the row's current columns. */
  ghost predicate PublishedCurrent(s: State, a: Activity) {
    a.id in s.published && s.published[a.id] == PayloadOf(a, s.published[a.id].fuel)
  }

  /** Status and emission are what a quote says. */
  ghost predicate PricedAs(s: State, a: Activity, quote: Quote) {
    a.status == StatusAfter(quote) && (quote.Priced? ==> a.id in s.emissions && s.emissions[a.id] == quote.microKg)
  }

  /** A row carries the price of the payload handled last for it, or waits for its first one. */
  ghost predicate OnTrack(env: Env, s: State, handled: History, a: Activity) {
    && PublishedCurrent(s, a)
    && if a.id in handled then PricedAs(s, a, QuoteOf(env, handled[a.id])) else LastFor(s.ingested, a.id).Some?
  }

  /** The payload published last for a row is the last one pending, or has been handled last. */
  ghost predicate InStep(s: State, handled: History, a: Activity) {
    && a.id in s.published
    && match LastFor(s.ingested, a.id)
       case Some(last) => last == s.published[a.id]
       case None => a.id in handled && handled[a.id] == s.published[a.id]
  }

  ghost predicate RowInv(env: Env, s: State, handled: History, ordered: bool, a: Activity) {
    OnTrack(env, s, handled, a) && (ordered ==> InStep(s, handled, a))
  }

  ghost predicate PricingInv(env: Env, s: State, handled: History, ordered: bool) {
    && WellFormed(s)
    && (forall id :: id in handled ==> id < s.nextId)
    && forall i :: 0 <= i < |s.activities| ==> RowInv(env, s, handled, ordered, s.activities[i])
  }

  // ----- service calls -----

  /** Nothing that matters to a row's price changed. */
  lemma KeptRow(env: Env, s: State, handled: History, s': State, handled': History, ordered: bool, a: Activity,
                a': Activity)
    requires RowInv(env, s, handled, ordered, a) && a'.id == a.id && a'.status == a.status
    requires PayloadOf(a', None) == PayloadOf(a, None)
    requires LastFor(s'.ingested, a.id) == LastFor(s.ingested, a.id)
    requires a.id in s'.published && s'.published[a.id] == s.published[a.id]
    requires a.id in s.emissions ==> a.id in s'.emissions && s'.emissions[a.id] == s.emissions[a.id]
    requires if a.id in handled then a.id in handled' && handled'[a.id] == handled[a.id] else a.id !in handled'
    ensures RowInv(env, s', handled', ordered, a')
  {
    hide QuoteOf, LastFor;
    assert PayloadOf(a', s.published[a.id].fuel) == PayloadOf(a, s.published[a.id].fuel);
  }

  /** A publishing effect: row a is new or changed, the others are as before. */
  lemma PublishingKeepsRow(env: Env, s: State, handled: History, s': State, ordered: bool,
                           a: Activity, fuel: Option<string>, row: Activity)
    requires s'.ingested == s.ingested + [PayloadOf(a, fuel)] && s'.emissions == s.emissions
    requires s'.published == s.published[a.id := PayloadOf(a, fuel)]
    requires if row == a then a.id in handled ==> PricedAs(s, a, QuoteOf(env, handled[a.id]))
             else row.id != a.id && RowInv(env, s, handled, ordered, row)
    ensures RowInv(env, s', handled, ordered, row)
  {
    hide QuoteOf;
    LastForAppended(s.ingested, PayloadOf(a, fuel), row.id);
    if row != a {
      KeptRow(env, s, handled, s', handled, ordered, row, row);
    }
  }

  lemma AppendKeepsRow(env: Env, s: State, handled: History, ordered: bool, e: Effect, i: nat)
    requires e.Append? && Allowed(s, e) && PricingInv(env, s, handled, ordered) && i <= |s.activities|
    ensures RowInv(env, Perform(s, e), handled, ordered, Perform(s, e).activities[i])
  {
    hide QuoteOf, OnTrack, InStep, LastFor;
    PublishingKeepsRow(env, s, handled, Perform(s, e), ordered, e.row, e.fuel, (s.activities + [e.row])[i]);
  }

  lemma ReplaceKeepsRow(env: Env, s: State, handled: History, ordered: bool, e: Effect, i: nat)
    requires e.Replace? && Allowed(s, e) && PricingInv(env, s, handled, ordered) && i < |s.activities|
    ensures RowInv(env, Perform(s, e), handled, ordered, Perform(s, e).activities[i])
  {
    hide QuoteOf, LastFor;
    assert RowInv(env, s, handled, ordered, s.activities[i]);
    PublishingKeepsRow(env, s, handled, Perform(s, e), ordered, e.row, e.fuel, s.activities[e.i := e.row][i]);
  }

  lemma TouchKeepsRow(env: Env, s: State, handled: History, ordered: bool, e: Effect, i: nat)
    requires e.Touch? && Allowed(s, e) && PricingInv(env, s, handled, ordered) && i < |s.activities|
    ensures RowInv(env, Perform(s, e), handled, ordered, Perform(s, e).activities[i])
  {
    hide QuoteOf, LastFor;
    KeptRow(env, s, handled, Perform(s, e), handled, ordered, s.activities[i], s.activities[e.i := e.row][i]);
  }

  lemma RemoveKeepsRow(env: Env, s: State, handled: History, ordered: bool, e: Effect, i: nat)
    requires e.Remove? && Allowed(s, e) && PricingInv(env, s, handled, ordered) && i < |s.activities| - 1
    ensures RowInv(env, Perform(s, e), handled, ordered, Perform(s, e).activities[i])
  {
    hide QuoteOf, LastFor, RowInv, PayloadOf, OwnersMatch;
    RemovalKeepsShape(s.activities, s.ingested, e.i);
    RowKeptByRemoval(env, s, handled, ordered, e, if i < e.i then i else i + 1);
  }

  lemma RowKeptByRemoval(env: Env, s: State, handled: History, ordered: bool, e: Effect, j: nat)
    requires e.Remove? && Allowed(s, e) && PricingInv(env, s, handled, ordered) && j < |s.activities| && j != e.i
    ensures RowInv(env, Perform(s, e), handled, ordered, s.activities[j])
  {
    hide QuoteOf, LastFor, PayloadOf, OwnersMatch, Without;
    var a := s.activities[j];
    assert RowInv(env, s, handled, ordered, a) && a.id != s.activities[e.i].id;
    KeptRow(env, s, handled, Perform(s, e), handled, ordered, a, a);
  }

  lemma EffectKeepsPricing(env: Env, s: State, handled: History, ordered: bool, e: Effect)
    requires Allowed(s, e) && PricingInv(env, s, handled, ordered)
    ensures PricingInv(env, Perform(s, e), handled, ordered)
  {
    hide QuoteOf, LastFor, RowInv;
    EffectKeepsWellFormed(s, e);
    var s' := Perform(s, e);
    forall i | 0 <= i < |s'.activities| ensures RowInv(env, s', handled, ordered, s'.activities[i]) {
      match e {
        case Nothing =>
        case Append(_, _, _) => AppendKeepsRow(env, s, handled, ordered, e, i);
        case Replace(_, _, _) => ReplaceKeepsRow(env, s, handled, ordered, e, i);
        case Touch(_, _) => TouchKeepsRow(env, s, handled, ordered, e, i);
        case Remove(_) => RemoveKeepsRow(env, s, handled, ordered, e, i);
      }
    }
  }

  // ----- handlers -----

  /** The first pending payload of an activity is handled before its later ones. */
  ghost predicate InOrder(s: State, step: Step)
    requires Enabled(s, step)
  {
    step.HandlingIngested? ==> IsFirstFor(s.ingested, step.k)
  }

  lemma HandledRow(env: Env, s: State, handled: History, ordered: bool, k: nat, s': State, i: nat)
    requires k < |s.ingested| && (ordered ==> IsFirstFor(s.ingested, k))
    requires Handled(s, k, QuoteOf(env, s.ingested[k]), s')
    requires PricingInv(env, s, handled, ordered) && i < |s'.activities|
    ensures RowInv(env, s', Remember(s, HandlingIngested(k), handled), ordered, s'.activities[i])
  {
    hide QuoteOf, LastFor;
    var a, a', p := s.activities[i], s'.activities[i], s.ingested[k];
    assert RowInv(env, s, handled, ordered, a) && a' == a.(status := a'.status);
    assert a'.status == if a.id == p.activity then StatusAfter(QuoteOf(env, p)) else a.status;
    LastForAfterHandling(s.ingested, k, a.id);
    if a.id != p.activity {
      KeptRow(env, s, handled, s', Remember(s, HandlingIngested(k), handled), ordered, a, a');
    } else {
      assert IndexOf(s.activities, p.activity).Some?;
      LastForIsPending(s.ingested, a.id);
    }
  }

  lemma HandlingKeepsPricing(env: Env, s: State, handled: History, ordered: bool, k: nat)
    requires k < |s.ingested| && (ordered ==> IsFirstFor(s.ingested, k)) && PricingInv(env, s, handled, ordered)
    ensures PricingInv(env, Apply(env, s, HandlingIngested(k)), Remember(s, HandlingIngested(k), handled), ordered)
  {
    hide RowInv;
    var s', quote := Apply(env, s, HandlingIngested(k)), QuoteOf(env, s.ingested[k]);
    HandlingEffect(s, k, quote);
    HandlingKeepsWellFormed(s, k, quote, s');
    forall i | 0 <= i < |s'.activities|
      ensures RowInv(env, s', Remember(s, HandlingIngested(k), handled), ordered, s'.activities[i])
    {
      HandledRow(env, s, handled, ordered, k, s', i);
    }
  }

  lemma StepKeepsPricing(env: Env, s: State, handled: History, ordered: bool, step: Step)
    requires Enabled(s, step) && (ordered ==> InOrder(s, step)) && PricingInv(env, s, handled, ordered)
    ensures PricingInv(env, Apply(env, s, step), Remember(s, step, handled), ordered)
  {
    hide QuoteOf, LastFor, RowInv;
    var s' := Apply(env, s, step);
    match step {
      case HandlingIngested(k) => HandlingKeepsPricing(env, s, handled, ordered, k);
      case HandlingCalculated(key) => UntouchedPricing(env, s, handled, ordered, s');
      case HandlingNotice(_) => UntouchedPricing(env, s, handled, ordered, s');
      case _ =>
        var e := ServiceEffect(env, s, step);
        EffectKeepsPricing(env, s, handled, ordered, e);
    }
  }

  lemma UntouchedPricing(env: Env, s: State, handled: History, ordered: bool, s': State)
    requires PricingInv(env, s, handled, ordered) && s'.activities == s.activities && s'.nextId == s.nextId
    requires s'.ingested == s.ingested && s'.published == s.published && s'.emissions == s.emissions
    ensures PricingInv(env, s', handled, ordered)
  {
    hide QuoteOf, LastFor, RowInv;
    forall i | 0 <= i < |s'.activities| ensures RowInv(env, s', handled, ordered, s'.activities[i]) {
      assert RowInv(env, s, handled, ordered, s.activities[i]);
      KeptRowUntouched(env, s, handled, ordered, s', s.activities[i]);
    }
  }

  lemma KeptRowUntouched(env: Env, s: State, handled: History, ordered: bool, s': State, a: Activity)
    requires RowInv(env, s, handled, ordered, a)
    requires s'.ingested == s.ingested && s'.published == s.published && s'.emissions == s.emissions
    ensures RowInv(env, s', handled, ordered, a)
  {
    hide QuoteOf, LastFor;
  }

  // ----- whether the price is current -----

  /** A row that waits for nothing carries the price its columns are worth now
      exactly when the payload handled last was worth what the one published
      last is worth. */
  lemma CurrentIff(env: Env, s: State, handled: History, a: Activity)
    requires OnTrack(env, s, handled, a) && LastFor(s.ingested, a.id).None?
    ensures a.id in handled && PricedAs(s, a, QuoteOf(env, handled[a.id]))
    ensures a.id in s.published
    ensures PricedAs(s, a, QuoteOf(env, PayloadOf(a, s.published[a.id].fuel))) <==>
            QuoteOf(env, handled[a.id]) == QuoteOf(env, s.published[a.id])
  {
    hide QuoteOf, LastFor;
  }
}
