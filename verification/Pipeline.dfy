/** The whole pipeline as a transition system: service calls and event handlers
    interleave freely, each of them one atomic step. */
module Pipeline {
  import opened Domain
  import opened Tables
  import opened Ingestion
  import opened Lifecycle

  datatype Step =
    | Ingesting(input: IngestInput)
    | IngestingReceipt(input: IngestInput)
    | Updating(id: ActivityId, user: UserId, change: UpdateInput)
    | Deleting(id: ActivityId, user: UserId)
    | BackfillingLabels(id: ActivityId, origin: string, destination: string)
    | BackfillingDisplay(id: ActivityId, displayOrigin: Option<string>, displayDestination: Option<string>)
    | HandlingIngested(k: nat)
    | HandlingCalculated(key: DayKey)
    | HandlingNotice(notice: Notice)

  /** A service call may happen at any time, a handler only for an event that is pending. */
  predicate Enabled(s: State, step: Step) {
    match step
    case HandlingIngested(k) => k < |s.ingested|
    case HandlingCalculated(key) => key in s.calculated
    case HandlingNotice(notice) => notice in s.notices
    case _ => true
  }

  function Backfilled(s: State, id: ActivityId, step: Step): State
    requires step.BackfillingLabels? || step.BackfillingDisplay?
  {
    match IndexOf(s.activities, id)
    case None => s
    case Some(i) =>
      var a := s.activities[i];
      s.(activities := s.activities[i :=
        if step.BackfillingLabels? then BackfillLabels(a, step.origin, step.destination)
        else BackfillDisplay(a, step.displayOrigin, step.displayDestination)])
  }

  function Apply(env: Env, s: State, step: Step): State
    requires Enabled(s, step)
  {
    match step
    case Ingesting(input) => Ingest(env.dist, s, input).state
    case IngestingReceipt(input) => IngestWithDedup(env.dist, s, input).state
    case Updating(id, user, change) => UpdateActivity(s, id, user, change).state
    case Deleting(id, user) => DeleteActivity(s, id, user).state
    case BackfillingLabels(id, _, _) => Backfilled(s, id, step)
    case BackfillingDisplay(id, _, _) => Backfilled(s, id, step)
    case HandlingIngested(k) => HandleIngested(env, s.(ingested := Without(s.ingested, k)), s.ingested[k])
    case HandlingCalculated(key) => RecomputeDay(s.(calculated := s.calculated - multiset{key}), key)
    case HandlingNotice(notice) => s.(notices := s.notices - multiset{notice})
  }

  // ----- pending events -----

  /** The last pending payload of an activity. */
  function LastFor(pending: seq<Payload>, id: ActivityId): Option<Payload> {
    if pending == [] then None
    else if pending[|pending| - 1].activity == id then Some(pending[|pending| - 1])
    else LastFor(pending[..|pending| - 1], id)
  }

  /** No earlier pending payload is about the same activity. */
  predicate IsFirstFor(pending: seq<Payload>, k: nat)
    requires k < |pending|
  {
    forall j :: 0 <= j < k ==> pending[j].activity != pending[k].activity
  }

  lemma LastForAppended(pending: seq<Payload>, p: Payload, id: ActivityId)
    ensures LastFor(pending + [p], id) == if p.activity == id then Some(p) else LastFor(pending, id)
  {
    assert (pending + [p])[..|pending|] == pending;
  }

  lemma {:induction false} LastForIsPending(pending: seq<Payload>, id: ActivityId)
    ensures LastFor(pending, id).None? <==> forall j :: 0 <= j < |pending| ==> pending[j].activity != id
    ensures LastFor(pending, id).Some? ==>
      LastFor(pending, id).value in pending && LastFor(pending, id).value.activity == id
  {
    if pending == [] {
    } else {
      LastForIsPending(pending[..|pending| - 1], id);
    }
  }

  /** Handling a payload leaves the last pending ones of other activities alone,
      and handling the first one of an activity leaves its last one alone, unless it was the only one. */
  lemma {:induction false} LastForAfterHandling(pending: seq<Payload>, k: nat, id: ActivityId)
    requires k < |pending|
    ensures id != pending[k].activity ==> LastFor(Without(pending, k), id) == LastFor(pending, id)
    ensures id == pending[k].activity && IsFirstFor(pending, k) ==>
      LastFor(Without(pending, k), id) == LastFor(pending, id)
      || (LastFor(Without(pending, k), id).None? && LastFor(pending, id) == Some(pending[k]))
  {
    var last := |pending| - 1;
    if k == last {
      assert Without(pending, k) == pending[..last];
      LastForIsPending(pending[..last], id);
    } else {
      var before := pending[..last];
      LastForAfterHandling(before, k, id);
      assert IsFirstFor(pending, k) ==> IsFirstFor(before, k);
      assert Without(pending, k) == Without(before, k) + [pending[last]];
      LastForAppended(Without(before, k), pending[last], id);
    }
  }
}
