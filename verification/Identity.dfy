/** Keys and receipt ids over whole runs. */
module Identity {
  import opened Domain
  import opened Tables
  import opened Ingestion
  import opened Dedup
  import opened Lifecycle
  import opened Pipeline
  import opened Effects
  import opened Freshness

  /** No two rows share a key or a receipt id, and GPS rows carry no receipt. */
  ghost predicate IdentityInv(s: State) {
    && WellFormed(s)
    && (forall i, j :: 0 <= i < j < |s.activities| ==> s.activities[i].key != s.activities[j].key)
    && (forall i, j :: 0 <= i < j < |s.activities| && s.activities[i].receiptId.Some? ==>
          s.activities[i].receiptId != s.activities[j].receiptId)
    && (forall i :: 0 <= i < |s.activities| && s.activities[i].source == Gps ==> s.activities[i].receiptId.None?)
  }

  /** GPS inputs bring no receipt id; the HTTP request has no such field. */
  predicate GpsWithoutReceipt(step: Step) {
    (step.Ingesting? || step.IngestingReceipt?) && step.input.source == Gps ==> step.input.receiptId.None?
  }

  /** What a row keeps for as long as it exists. */
  predicate Persists(a: Activity, a': Activity) {
    && a'.id == a.id && a'.user == a.user && a'.key == a.key
    && (a.receiptId.Some? ==> a'.receiptId == a.receiptId)
    && (a.source == GpsReceipt ==> a'.source == GpsReceipt)
    && (a'.source == a.source || a'.source == GpsReceipt)
  }

  /** Rows persist from s to s', and ids that appear are new. */
  ghost predicate Evolves(s: State, s': State) {
    && s.nextId <= s'.nextId
    && forall j :: 0 <= j < |s'.activities| ==>
         s'.activities[j].id >= s.nextId
         || exists i :: 0 <= i < |s.activities| && Persists(s.activities[i], s'.activities[j])
  }

  // ----- one effect -----

  lemma ReplacingKeepsIdentity(s: State, i: nat, a: Activity, s': State)
    requires IdentityInv(s) && KeepsIdentity(s.activities, i, a)
    requires s'.activities == s.activities[i := a] && s'.nextId == s.nextId && WellFormed(s')
    ensures IdentityInv(s') && Evolves(s, s')
  {
    assert Persists(s.activities[i], a);
    forall j | 0 <= j < |s'.activities| && j != i ensures Persists(s.activities[j], s'.activities[j]) {
    }
  }

  lemma AppendingKeepsIdentity(s: State, a: Activity, s': State)
    requires IdentityInv(s) && UniquenessAllows(s.activities, a) && a.id == s.nextId
    requires a.source == Gps ==> a.receiptId.None?
    requires s'.activities == s.activities + [a] && s'.nextId == s.nextId + 1 && WellFormed(s')
    ensures IdentityInv(s') && Evolves(s, s')
  {
    forall j | 0 <= j < |s.activities| ensures Persists(s.activities[j], s'.activities[j]) {
    }
  }

  lemma RemovingKeepsIdentity(s: State, i: nat, s': State)
    requires IdentityInv(s) && i < |s.activities|
    requires s'.activities == Without(s.activities, i) && s'.nextId == s.nextId && WellFormed(s')
    ensures IdentityInv(s') && Evolves(s, s')
  {
    RemovalKeepsShape(s.activities, s.ingested, i);
    forall j | 0 <= j < |s'.activities| ensures Persists(s.activities[if j < i then j else j + 1], s'.activities[j]) {
    }
  }

  lemma EffectKeepsIdentity(s: State, e: Effect)
    requires Allowed(s, e) && IdentityInv(s)
    requires e.Append? && e.row.source == Gps ==> e.row.receiptId.None?
    ensures IdentityInv(Perform(s, e)) && Evolves(s, Perform(s, e))
  {
    EffectKeepsWellFormed(s, e);
    match e {
      case Nothing => SameRowsKeepIdentity(s, s);
      case Append(a, _, _) => AppendingKeepsIdentity(s, a, Perform(s, e));
      case Replace(i, a, _) => ReplacingKeepsIdentity(s, i, a, Perform(s, e));
      case Touch(i, a) => ReplacingKeepsIdentity(s, i, a, Perform(s, e));
      case Remove(i) => RemovingKeepsIdentity(s, i, Perform(s, e));
    }
  }

  lemma SameRowsKeepIdentity(s: State, s': State)
    requires IdentityInv(s) && SameTrips(s.activities, s'.activities) && s'.nextId == s.nextId && WellFormed(s')
    ensures IdentityInv(s') && Evolves(s, s')
  {
    forall j | 0 <= j < |s'.activities| ensures Persists(s.activities[j], s'.activities[j]) {
      assert s'.activities[j] == s.activities[j].(status := s'.activities[j].status);
    }
  }

  // ----- one step -----

  lemma StepKeepsIdentity(env: Env, s: State, step: Step)
    requires Enabled(s, step) && IdentityInv(s) && GpsWithoutReceipt(step)
    ensures IdentityInv(Apply(env, s, step)) && Evolves(s, Apply(env, s, step))
  {
    hide QuoteOf, OwnersMatch, Evolves;
    match step {
      case HandlingIngested(k) =>
        var quote := QuoteOf(env, s.ingested[k]);
        HandlingEffect(s, k, quote);
        HandlingKeepsWellFormed(s, k, quote, Apply(env, s, step));
        SameRowsKeepIdentity(s, Apply(env, s, step));
      case HandlingCalculated(_) => SameRowsKeepIdentity(s, Apply(env, s, step));
      case HandlingNotice(_) => SameRowsKeepIdentity(s, Apply(env, s, step));
      case _ =>
        var e := ServiceEffect(env, s, step);
        EffectKeepsIdentity(s, e);
    }
  }

  lemma EvolvesTransitively(s: State, s': State, s'': State)
    requires Evolves(s, s') && Evolves(s', s'')
    ensures Evolves(s, s'')
  {
    forall k | 0 <= k < |s''.activities| && s''.activities[k].id < s.nextId
      ensures exists i :: 0 <= i < |s.activities| && Persists(s.activities[i], s''.activities[k])
    {
      var j :| 0 <= j < |s'.activities| && Persists(s'.activities[j], s''.activities[k]);
      var i :| 0 <= i < |s.activities| && Persists(s.activities[i], s'.activities[j]);
      assert Persists(s.activities[i], s''.activities[k]);
    }
  }

  // ----- re-ingesting -----

  /** A receipt that is stored is a duplicate forever: ingesting it again creates
      nothing, publishes nothing, and changes at most the route labels of its
      row when that row had neither. */
  lemma StoredReceiptIsDuplicate(env: Env, s: State, input: IngestInput, i: nat)
    requires IdentityInv(s) && i < |s.activities|
    requires input.receiptId.Some? && s.activities[i].receiptId == input.receiptId
    ensures var r, a := IngestWithDedup(env.dist, s, input), s.activities[i];
      && r.outcome == Duplicate
      && r.state == s.(activities := s.activities[i := r.state.activities[i]])
      && r.state.activities[i] ==
        a.(origin := r.state.activities[i].origin, destination := r.state.activities[i].destination)
      && (a.origin.Some? || a.destination.Some? ==> r.state == s)
  {
    var found := FindByReceiptId(s.activities, input.receiptId.value).value;
    assert found == i;
    assert s.activities[i := s.activities[i]] == s.activities;
  }
}
