/** The second attempt at messages that no parser recognised: each listed log
    entry is fetched, parsed and ingested, and its status moved accordingly. */
module Enrichment {
  import opened Domain
  import opened MailLog

  datatype LogEntry = LogEntry(message: MessageId, status: LogStatus, activity: Option<ActivityId>)

  /** What fetching, parsing and ingesting one message comes to. */
  datatype Verdict =
    | FetchFailed
    | NotAReceipt
    | ParseFailed
    | AlreadyIngested
    | IngestFailed
    | Ingested(activity: ActivityId)

  /** What the world says about a message: the verdict, and whether the log can be written. */
  datatype Answer = Answer(verdict: Verdict, written: bool)

  type World = MessageId -> Answer

  /** Errors that may go away by themselves leave the entry for the next run. */
  predicate IsTransient(v: Verdict) {
    v == FetchFailed || v == ParseFailed
  }

  function Resolved(e: LogEntry, a: Answer): LogEntry {
    if !a.written then e
    else
      match a.verdict
      case NotAReceipt => e.(status := LogStatus.Skipped)
      case AlreadyIngested => e.(status := LogStatus.Skipped)
      case IngestFailed => e.(status := LogStatus.Failed)
      case Ingested(activity) => e.(status := Parsed, activity := Some(activity))
      case _ => e
  }

  const BATCH := 50

  /** Positions of the first `limit` unrecognised entries, oldest first. */
  function ListUnrecognised(logs: seq<LogEntry>, limit: nat): (p: seq<nat>)
    ensures |p| <= limit
    ensures forall k :: 0 <= k < |p| ==> p[k] < |logs| && logs[p[k]].status == Unrecognised
    ensures forall k, l :: 0 <= k < l < |p| ==> p[k] < p[l]
    ensures |p| < limit ==> forall i :: 0 <= i < |logs| && logs[i].status == Unrecognised ==> i in p
  {
    if logs == [] then []
    else
      var p := ListUnrecognised(logs[..|logs| - 1], limit);
      if logs[|logs| - 1].status == Unrecognised && |p| < limit then p + [|logs| - 1] else p
  }

  class LogTable {
    var logs: seq<LogEntry>

    /** Writes a status, and the activity if there is one; a failed write is only logged. */
    method UpdateStatus(i: nat, status: LogStatus, activity: Option<ActivityId>, written: bool)
      requires i < |logs|
      modifies this
      ensures var e := old(logs)[i];
        logs == if written then old(logs)[i := e.(status := status, activity := activity.Or(e.activity))] else old(logs)
    {
      if written {
        logs := logs[i := logs[i].(status := status)];
        if activity.Some? {
          logs := logs[i := logs[i].(activity := activity)];
        }
      }
    }
  }

  /** How a verdict is counted. */
  datatype Bucket = Enriched | SkippedOne | FailedOne

  /** Moves one entry as its verdict says. */
  method Process(table: LogTable, i: nat, answer: Answer) returns (bucket: Bucket)
    requires i < |table.logs|
    modifies table
    ensures table.logs == old(table.logs)[i := Resolved(old(table.logs)[i], answer)]
    ensures bucket == Enriched <==> answer.verdict.Ingested?
    ensures bucket == SkippedOne <==> answer.verdict == NotAReceipt || answer.verdict == AlreadyIngested
  {
    match answer.verdict {
      case FetchFailed =>
        bucket := FailedOne;
      case ParseFailed =>
        bucket := FailedOne;
      case NotAReceipt =>
        table.UpdateStatus(i, LogStatus.Skipped, None, answer.written);
        bucket := SkippedOne;
      case AlreadyIngested =>
        table.UpdateStatus(i, LogStatus.Skipped, None, answer.written);
        bucket := SkippedOne;
      case IngestFailed =>
        table.UpdateStatus(i, LogStatus.Failed, None, answer.written);
        bucket := FailedOne;
      case Ingested(activity) =>
        table.UpdateStatus(i, Parsed, Some(activity), answer.written);
        bucket := Enriched;
    }
  }

  /** The table after a run: the listed entries moved, the others untouched. */
  function After(logs: seq<LogEntry>, world: World): (r: seq<LogEntry>)
    ensures |r| == |logs|
    ensures forall i :: 0 <= i < |logs| ==>
      r[i] == if i in ListUnrecognised(logs, BATCH) then Resolved(logs[i], world(logs[i].message)) else logs[i]
  {
    seq(|logs|, i requires 0 <= i < |logs| =>
      if i in ListUnrecognised(logs, BATCH) then Resolved(logs[i], world(logs[i].message)) else logs[i])
  }

  /** The table once the given positions have been processed. */
  predicate Progress(loaded: seq<LogEntry>, done: seq<nat>, world: World, logs: seq<LogEntry>) {
    && |logs| == |loaded|
    && forall i :: 0 <= i < |logs| ==>
         logs[i] == if i in done then Resolved(loaded[i], world(loaded[i].message)) else loaded[i]
  }

  lemma NextListed(loaded: seq<LogEntry>, done: seq<nat>, world: World, logs: seq<LogEntry>, i: nat)
    requires Progress(loaded, done, world, logs) && i < |loaded| && i !in done
    ensures |logs| == |loaded| && logs[i] == loaded[i]
    ensures Progress(loaded, done + [i], world, logs[i := Resolved(loaded[i], world(loaded[i].message))])
  {
    hide Resolved;
  }

  lemma NothingProcessed(loaded: seq<LogEntry>, world: World)
    ensures Progress(loaded, [], world, loaded)
  {
  }

  lemma AllProcessed(loaded: seq<LogEntry>, world: World, logs: seq<LogEntry>)
    requires Progress(loaded, ListUnrecognised(loaded, BATCH), world, logs)
    ensures logs == After(loaded, world)
  {
    hide Resolved;
  }

  predicate Ingests(v: Verdict) {
    v.Ingested?
  }

  predicate Skips(v: Verdict) {
    v == NotAReceipt || v == AlreadyIngested
  }

  function Verdicts(logs: seq<LogEntry>, positions: seq<nat>, world: World): (r: seq<Verdict>)
    requires forall k :: 0 <= k < |positions| ==> positions[k] < |logs|
    ensures |r| == |positions|
    ensures forall k :: 0 <= k < |r| ==> r[k] == world(logs[positions[k]].message).verdict
  {
    seq(|positions|, k requires 0 <= k < |positions| => world(logs[positions[k]].message).verdict)
  }

  function Number(verdicts: seq<Verdict>, kind: Verdict -> bool): nat {
    if verdicts == [] then 0
    else
      var n := |verdicts| - 1;
      Number(verdicts[..n], kind) + if kind(verdicts[n]) then 1 else 0
  }

  lemma NumberNext(verdicts: seq<Verdict>, k: nat, kind: Verdict -> bool)
    requires k < |verdicts|
    ensures Number(verdicts[..k + 1], kind) == Number(verdicts[..k], kind) + if kind(verdicts[k]) then 1 else 0
  {
    assert verdicts[..k + 1][..k] == verdicts[..k];
  }

  /** One run for one user.  Every listed entry is counted once, under its
      verdict, whether or not its new status could be written. */
  method EnrichUser(table: LogTable, world: World) returns (total: nat, enriched: nat, skipped: nat, failed: nat)
    modifies table
    ensures var listed := ListUnrecognised(old(table.logs), BATCH);
      var verdicts := Verdicts(old(table.logs), listed, world);
      && total == |listed| == enriched + skipped + failed
      && enriched == Number(verdicts, Ingests) && skipped == Number(verdicts, Skips)
    ensures table.logs == After(old(table.logs), world)
  {
    hide Resolved, Number, Progress, ListUnrecognised, After;
    var loaded := table.logs;
    var listed := ListUnrecognised(loaded, BATCH);
    ghost var verdicts := Verdicts(loaded, listed, world);
    total, enriched, skipped, failed := |listed|, 0, 0, 0;
    NothingProcessed(loaded, world);
    NoVerdicts(verdicts);
    for k := 0 to |listed|
      invariant enriched + skipped + failed == k
      invariant enriched == Number(verdicts[..k], Ingests) && skipped == Number(verdicts[..k], Skips)
      invariant Progress(loaded, listed[..k], world, table.logs)
    {
      assert listed[..k + 1] == listed[..k] + [listed[k]];
      NumberNext(verdicts, k, Ingests);
      NumberNext(verdicts, k, Skips);
      NextListed(loaded, listed[..k], world, table.logs, listed[k]);
      var bucket := Process(table, listed[k], world(loaded[listed[k]].message));
      match bucket {
        case Enriched => enriched := enriched + 1;
        case SkippedOne => skipped := skipped + 1;
        case FailedOne => failed := failed + 1;
      }
    }
    assert listed[..|listed|] == listed && verdicts[..|verdicts|] == verdicts;
    AllProcessed(loaded, world, table.logs);
  }

  lemma NoVerdicts(verdicts: seq<Verdict>)
    ensures Number(verdicts[..0], Ingests) == Number(verdicts[..0], Skips) == 0
  {
  }

  /** Over any number of runs, whatever each run's verdicts are, an entry that
      has left the unrecognised status never changes again; and one run moves an
      entry exactly when it is listed, its verdict is not transient, and the log
      could be written. */
  function Runs(logs: seq<LogEntry>, runs: seq<World>): (r: seq<LogEntry>)
    ensures |r| == |logs|
    ensures forall i :: 0 <= i < |logs| && logs[i].status != Unrecognised ==> r[i] == logs[i]
    decreases |runs|
  {
    if runs == [] then logs else Runs(After(logs, runs[0]), runs[1..])
  }

  lemma ResolvedMoves(e: LogEntry, a: Answer)
    requires e.status == Unrecognised
    ensures Resolved(e, a) != e <==> !IsTransient(a.verdict) && a.written
    ensures Resolved(e, a) != e ==> Resolved(e, a).status != Unrecognised
  {
  }

  lemma MovesIff(logs: seq<LogEntry>, world: World, i: nat)
    requires i < |logs|
    ensures After(logs, world)[i] != logs[i] <==>
      i in ListUnrecognised(logs, BATCH)
      && !IsTransient(world(logs[i].message).verdict) && world(logs[i].message).written
    ensures After(logs, world)[i] != logs[i] ==> After(logs, world)[i].status != Unrecognised
  {
    hide Resolved, IsTransient;
    if i in ListUnrecognised(logs, BATCH) {
      ResolvedMoves(logs[i], world(logs[i].message));
    }
  }

  /** Where each verdict leaves a listed entry, if the log can be written: a new
      activity makes it parsed, no receipt or a known one skipped, a failed
      ingest failed; and what a run lists are the oldest 50. */
  lemma VerdictLaw(logs: seq<LogEntry>, world: World, i: nat)
    requires i < |logs| && i in ListUnrecognised(logs, BATCH) && world(logs[i].message).written
    ensures var e, verdict := logs[i], world(logs[i].message).verdict;
      After(logs, world)[i] ==
        match verdict
        case Ingested(activity) => LogEntry(e.message, Parsed, Some(activity))
        case NotAReceipt => LogEntry(e.message, LogStatus.Skipped, e.activity)
        case AlreadyIngested => LogEntry(e.message, LogStatus.Skipped, e.activity)
        case IngestFailed => LogEntry(e.message, LogStatus.Failed, e.activity)
        case FetchFailed => e
        case ParseFailed => e
  {
    hide ListUnrecognised;
  }

  /** An entry is listed when it is unrecognised and fewer than 50 before it are. */
  lemma {:induction false} ListedIff(logs: seq<LogEntry>, i: nat)
    requires i < |logs|
    ensures i in ListUnrecognised(logs, BATCH) <==>
      logs[i].status == Unrecognised && |set j | 0 <= j < i && logs[j].status == Unrecognised| < 50
    decreases |logs|
  {
    var before := logs[..|logs| - 1];
    if i == |logs| - 1 {
      ListedCount(before, BATCH);
      assert (set j | 0 <= j < i && logs[j].status == Unrecognised) == UnrecognisedAt(before);
    } else {
      ListedIff(before, i);
      assert (set j | 0 <= j < i && logs[j].status == Unrecognised) == UnrecognisedAt(logs[..i]);
      assert (set j | 0 <= j < i && before[j].status == Unrecognised) == UnrecognisedAt(before[..i]);
      assert logs[..i] == before[..i];
    }
  }

  ghost function UnrecognisedAt(logs: seq<LogEntry>): set<int> {
    set j | 0 <= j < |logs| && logs[j].status == Unrecognised
  }

  lemma UnrecognisedSnoc(logs: seq<LogEntry>)
    requires logs != []
    ensures var n := |logs| - 1;
      |UnrecognisedAt(logs)| == |UnrecognisedAt(logs[..n])| + if logs[n].status == Unrecognised then 1 else 0
  {
    var n := |logs| - 1;
    if logs[n].status == Unrecognised {
      assert UnrecognisedAt(logs) == UnrecognisedAt(logs[..n]) + {n};
    } else {
      assert UnrecognisedAt(logs) == UnrecognisedAt(logs[..n]);
    }
  }

  lemma {:induction false} ListedCount(logs: seq<LogEntry>, limit: nat)
    ensures |ListUnrecognised(logs, limit)| == Min(limit, |UnrecognisedAt(logs)|)
  {
    if logs == [] {
      assert UnrecognisedAt(logs) == {};
    } else {
      var n := |logs| - 1;
      hide UnrecognisedAt;
      ListedCount(logs[..n], limit);
      UnrecognisedSnoc(logs);
    }
  }
}
