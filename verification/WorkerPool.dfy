/** The pool that processes a batch of mail messages: five workers, two buffered
    channels, a goroutine that closes the second one, and a collector.  Each
    step is one channel operation, one handled message or one bookkeeping move;
    steps of different goroutines interleave freely. */
module WorkerPool {

  import opened MailLog

  /** What handling a message yields: a log entry to store, or nothing. */
  datatype Log = NoLog | Entry(status: LogStatus)

  datatype Outcome = Outcome(message: MessageId, log: Log)

  datatype Worker = Idle | Handling(message: MessageId) | Sending(outcome: Outcome) | Exited

  datatype Main = Spawning | Feeding(next: nat) | StartingCloser | Collecting | Returned

  datatype Closer = NotStarted | Waiting | ClosingOutcomes | Finished

  datatype Counts = Counts(parsed: nat, failed: nat, unrecognised: nat, skipped: nat)

  datatype Pool = Pool(
    ids: seq<MessageId>,
    main: Main,
    workers: seq<Worker>,
    waitGroup: int,
    jobs: seq<MessageId>,
    jobsClosed: bool,
    outcomes: seq<Outcome>,
    outcomesClosed: bool,
    closer: Closer,
    counts: Counts,
    logs: map<MessageId, LogStatus>,
    // history: what the collector has received
    collected: seq<Outcome>
  )

  const WORKER_COUNT := 5

  function Start(ids: seq<MessageId>, logs: map<MessageId, LogStatus>): Pool {
    Pool(ids, Spawning, [], 0, [], false, [], false, NotStarted, Counts(0, 0, 0, 0), logs, [])
  }

  // ----- steps -----

  datatype Step =
    | SpawnWorker | Feed | CloseJobs | StartCloser
    | Receive(w: nat) | Handle(w: nat, log: Log) | Send(w: nat) | Exit(w: nat)
    | WaitDone | CloseOutcomes
    | Collect | Return

  /** A goroutine is at this step and the step does not block. */
  predicate Enabled(s: Pool, step: Step) {
    match step
    case SpawnWorker => s.main == Spawning
    case Feed => s.main.Feeding? && s.main.next < |s.ids| && |s.jobs| < |s.ids|
    case CloseJobs => s.main.Feeding? && s.main.next >= |s.ids|
    case StartCloser => s.main == StartingCloser
    case Receive(w) => w < |s.workers| && s.workers[w] == Idle && s.jobs != []
    case Handle(w, log) =>
      // a message that already has a log entry is not processed again
      w < |s.workers| && s.workers[w].Handling? && (s.workers[w].message in s.logs ==> log == NoLog)
    case Send(w) => w < |s.workers| && s.workers[w].Sending? && |s.outcomes| < |s.ids|
    case Exit(w) => w < |s.workers| && s.workers[w] == Idle && s.jobs == [] && s.jobsClosed
    case WaitDone => s.closer == Waiting && s.waitGroup == 0
    case CloseOutcomes => s.closer == ClosingOutcomes
    case Collect => s.main == Collecting && s.outcomes != []
    case Return => s.main == Collecting && s.outcomes == [] && s.outcomesClosed
  }

  /** Sends on and closes of a closed channel, and a wait group driven below zero. */
  predicate Panics(s: Pool, step: Step) {
    match step
    case Feed => s.jobsClosed
    case CloseJobs => s.jobsClosed
    case Send(_) => s.outcomesClosed
    case CloseOutcomes => s.outcomesClosed
    case Exit(_) => s.waitGroup <= 0
    case _ => false
  }

  function Count(c: Counts, log: Log): Counts {
    match log
    case Entry(Parsed) => c.(parsed := c.parsed + 1)
    case Entry(Failed) => c.(failed := c.failed + 1)
    case Entry(Unrecognised) => c.(unrecognised := c.unrecognised + 1)
    case _ => c.(skipped := c.skipped + 1)
  }

  /** The log table keeps one entry per message; a second insert is refused. */
  function SaveLog(logs: map<MessageId, LogStatus>, o: Outcome): map<MessageId, LogStatus> {
    if o.log.NoLog? || o.message in logs then logs else logs[o.message := o.log.status]
  }

  function Apply(s: Pool, step: Step): Pool
    requires Enabled(s, step)
  {
    match step
    case SpawnWorker =>
      s.(workers := s.workers + [Idle], waitGroup := s.waitGroup + 1,
         main := if |s.workers| + 1 < WORKER_COUNT then Spawning else Feeding(0))
    case Feed => s.(jobs := s.jobs + [s.ids[s.main.next]], main := Feeding(s.main.next + 1))
    case CloseJobs => s.(jobsClosed := true, main := StartingCloser)
    case StartCloser => s.(closer := Waiting, main := Collecting)
    case Receive(w) => s.(workers := s.workers[w := Handling(s.jobs[0])], jobs := s.jobs[1..])
    case Handle(w, log) => s.(workers := s.workers[w := Sending(Outcome(s.workers[w].message, log))])
    case Send(w) => s.(outcomes := s.outcomes + [s.workers[w].outcome], workers := s.workers[w := Idle])
    case Exit(w) => s.(workers := s.workers[w := Exited], waitGroup := s.waitGroup - 1)
    case WaitDone => s.(closer := ClosingOutcomes)
    case CloseOutcomes => s.(outcomesClosed := true, closer := Finished)
    case Collect =>
      var o := s.outcomes[0];
      s.(outcomes := s.outcomes[1..], collected := s.collected + [o],
         counts := Count(s.counts, o.log), logs := SaveLog(s.logs, o))
    case Return => s.(main := Returned)
  }

  // ----- what is in flight -----

  predicate Busy(w: Worker) {
    w.Handling? || w.Sending?
  }

  function MessageOf(w: Worker): MessageId
    requires Busy(w)
  {
    if w.Handling? then w.message else w.outcome.message
  }

  /** How many workers hold a given message. */
  function HeldBy(workers: seq<Worker>, m: MessageId): nat {
    if workers == [] then 0
    else (if Busy(workers[0]) && MessageOf(workers[0]) == m then 1 else 0) + HeldBy(workers[1..], m)
  }

  function BusyCount(workers: seq<Worker>): nat {
    if workers == [] then 0 else (if Busy(workers[0]) then 1 else 0) + BusyCount(workers[1..])
  }

  function Messages(outcomes: seq<Outcome>): seq<MessageId> {
    seq(|outcomes|, i requires 0 <= i < |outcomes| => outcomes[i].message)
  }

  function Alive(workers: seq<Worker>): nat {
    if workers == [] then 0 else (if workers[0].Exited? then 0 else 1) + Alive(workers[1..])
  }

  function Weight(w: Worker): nat {
    match w
    case Idle => 1
    case Handling(_) => 4
    case Sending(_) => 3
    case Exited => 0
  }

  function Weights(workers: seq<Worker>): nat {
    if workers == [] then 0 else Weight(workers[0]) + Weights(workers[1..])
  }

  function Tally(collected: seq<Outcome>): Counts {
    if collected == [] then Counts(0, 0, 0, 0)
    else Count(Tally(collected[..|collected| - 1]), collected[|collected| - 1].log)
  }

  function Fed(s: Pool): nat {
    match s.main
    case Spawning => 0
    case Feeding(n) => if n <= |s.ids| then n else |s.ids|
    case _ => |s.ids|
  }

  function MainRank(m: Main): nat {
    match m
    case Spawning => 3
    case Feeding(_) => 3
    case StartingCloser => 2
    case Collecting => 1
    case Returned => 0
  }

  function CloserRank(c: Closer): nat {
    match c
    case NotStarted => 3
    case Waiting => 2
    case ClosingOutcomes => 1
    case Finished => 0
  }

  /** What is left to do: six moves for an unfed message, one fewer at each place it passes. */
  function Work(s: Pool): int {
    2 * (WORKER_COUNT - |s.workers|) + 6 * (|s.ids| - Fed(s)) + 5 * |s.jobs| + Weights(s.workers) + |s.outcomes|
    + MainRank(s.main) + CloserRank(s.closer)
  }

  // ----- the invariant -----

  /** Where a message is: the job channel, a worker's hands, the outcome channel, or the collector. */
  function Places(s: Pool, m: MessageId): nat {
    multiset(s.jobs)[m] + HeldBy(s.workers, m) + multiset(Messages(s.outcomes))[m] + multiset(Messages(s.collected))[m]
  }

  /** Every message is in as many places as it was fed. */
  ghost predicate Conserved(s: Pool) {
    && (forall m :: multiset(s.ids[..Fed(s)])[m] == Places(s, m))
    && |s.jobs| + BusyCount(s.workers) + |s.outcomes| + |s.collected| == Fed(s)
  }

  ghost predicate Phases(s: Pool) {
    && |s.workers| <= WORKER_COUNT
    && (s.main == Spawning <==> |s.workers| < WORKER_COUNT)
    && (s.main.Feeding? ==> s.main.next <= |s.ids|)
    && (s.jobsClosed <==> s.main.StartingCloser? || s.main.Collecting? || s.main.Returned?)
    && (s.closer == NotStarted <==> s.main.Spawning? || s.main.Feeding? || s.main.StartingCloser?)
    && s.waitGroup == Alive(s.workers)
    && (forall w :: 0 <= w < |s.workers| && s.workers[w].Exited? ==> s.jobsClosed && s.jobs == [])
    && (s.closer == ClosingOutcomes || s.closer == Finished ==> s.waitGroup == 0)
    && (s.outcomesClosed <==> s.closer == Finished)
    && (s.main == Returned ==> s.outcomesClosed && s.outcomes == [])
  }

  ghost predicate Inv(s: Pool) {
    Phases(s) && Conserved(s) && s.counts == Tally(s.collected)
  }

  // ----- lemmas about the workers -----

  function One(b: bool): nat {
    if b then 1 else 0
  }

  lemma {:induction false} WorkerChanged(workers: seq<Worker>, w: nat, x: Worker)
    requires w < |workers|
    ensures Alive(workers[w := x]) == Alive(workers) - One(!workers[w].Exited?) + One(!x.Exited?)
    ensures BusyCount(workers[w := x]) == BusyCount(workers) - One(Busy(workers[w])) + One(Busy(x))
    ensures Weights(workers[w := x]) == Weights(workers) - Weight(workers[w]) + Weight(x)
  {
    if w > 0 {
      WorkerChanged(workers[1..], w - 1, x);
      assert workers[w := x][1..] == workers[1..][w - 1 := x];
    } else {
      assert workers[0 := x][1..] == workers[1..];
    }
  }

  lemma {:induction false} HeldChanged(workers: seq<Worker>, w: nat, x: Worker, m: MessageId)
    requires w < |workers|
    ensures HeldBy(workers[w := x], m) ==
      HeldBy(workers, m) - One(Busy(workers[w]) && MessageOf(workers[w]) == m) + One(Busy(x) && MessageOf(x) == m)
  {
    if w > 0 {
      HeldChanged(workers[1..], w - 1, x, m);
      assert workers[w := x][1..] == workers[1..][w - 1 := x];
    } else {
      assert workers[0 := x][1..] == workers[1..];
    }
  }

  lemma {:induction false} WorkerAdded(workers: seq<Worker>, m: MessageId)
    ensures HeldBy(workers + [Idle], m) == HeldBy(workers, m) && BusyCount(workers + [Idle]) == BusyCount(workers)
    ensures Alive(workers + [Idle]) == Alive(workers) + 1 && Weights(workers + [Idle]) == Weights(workers) + 1
  {
    if workers == [] {
    } else {
      WorkerAdded(workers[1..], m);
      assert (workers + [Idle])[1..] == workers[1..] + [Idle];
    }
  }

  lemma {:induction false} SomeAlive(workers: seq<Worker>) returns (w: nat)
    ensures Alive(workers) > 0 ==> w < |workers| && !workers[w].Exited?
    ensures Alive(workers) == 0 ==> BusyCount(workers) == 0 && forall i :: 0 <= i < |workers| ==> workers[i].Exited?
  {
    w := 0;
    if workers != [] && workers[0].Exited? {
      var v := SomeAlive(workers[1..]);
      w := v + 1;
      assert Alive(workers) == 0 ==> forall i :: 1 <= i < |workers| ==> workers[i] == workers[1..][i - 1];
    }
  }

  lemma {:induction false} SomeBusy(workers: seq<Worker>, w: nat)
    requires w < |workers|
    ensures Busy(workers[w]) ==> BusyCount(workers) >= 1
    ensures !workers[w].Exited? ==> Alive(workers) >= 1
  {
    if w == 0 {
    } else {
      SomeBusy(workers[1..], w - 1);
    }
  }

  lemma {:induction false} NoneHeld(workers: seq<Worker>, m: MessageId)
    requires BusyCount(workers) == 0
    ensures HeldBy(workers, m) == 0
  {
    if workers == [] {
    } else {
      NoneHeld(workers[1..], m);
    }
  }

  lemma MessagesAppended(outcomes: seq<Outcome>, o: Outcome, m: MessageId)
    ensures multiset(Messages(outcomes + [o]))[m] == multiset(Messages(outcomes))[m] + One(o.message == m)
  {
    assert Messages(outcomes + [o]) == Messages(outcomes) + [o.message];
  }

  lemma HeadRemoved(outcomes: seq<Outcome>, m: MessageId)
    requires outcomes != []
    ensures multiset(Messages(outcomes))[m] == One(outcomes[0].message == m) + multiset(Messages(outcomes[1..]))[m]
  {
    assert Messages(outcomes) == [outcomes[0].message] + Messages(outcomes[1..]);
  }

  lemma JobTaken(jobs: seq<MessageId>, m: MessageId)
    requires jobs != []
    ensures multiset(jobs)[m] == One(jobs[0] == m) + multiset(jobs[1..])[m]
  {
    assert jobs == [jobs[0]] + jobs[1..];
  }

  // ----- every step keeps the invariant and uses up work -----

  lemma StartHolds(ids: seq<MessageId>, logs: map<MessageId, LogStatus>)
    ensures Inv(Start(ids, logs))
  {
    assert ids[..0] == [];
  }

  ghost predicate Progress(s: Pool, s': Pool) {
    Inv(s') && Work(s') < Work(s)
  }

  lemma ReceiveProgress(s: Pool, w: nat)
    requires Enabled(s, Receive(w)) && Inv(s)
    ensures Progress(s, Apply(s, Receive(w)))
  {
    var x := Handling(s.jobs[0]);
    WorkerChanged(s.workers, w, x);
    forall m ensures Places(Apply(s, Receive(w)), m) == Places(s, m) {
      HeldChanged(s.workers, w, x, m);
      JobTaken(s.jobs, m);
    }
  }

  lemma HandleProgress(s: Pool, w: nat, log: Log)
    requires Enabled(s, Handle(w, log)) && Inv(s)
    ensures Progress(s, Apply(s, Handle(w, log)))
  {
    hide Tally, Messages;
    var x := Sending(Outcome(s.workers[w].message, log));
    WorkerChanged(s.workers, w, x);
    forall m ensures Places(Apply(s, Handle(w, log)), m) == Places(s, m) {
      HeldChanged(s.workers, w, x, m);
    }
  }

  lemma SendProgress(s: Pool, w: nat)
    requires Enabled(s, Send(w)) && Inv(s)
    ensures Progress(s, Apply(s, Send(w)))
  {
    WorkerChanged(s.workers, w, Idle);
    SomeBusy(s.workers, w);
    forall m ensures Places(Apply(s, Send(w)), m) == Places(s, m) {
      HeldChanged(s.workers, w, Idle, m);
      MessagesAppended(s.outcomes, s.workers[w].outcome, m);
    }
  }

  lemma ExitProgress(s: Pool, w: nat)
    requires Enabled(s, Exit(w)) && Inv(s)
    ensures Progress(s, Apply(s, Exit(w)))
  {
    WorkerChanged(s.workers, w, Exited);
    SomeBusy(s.workers, w);
    forall m ensures Places(Apply(s, Exit(w)), m) == Places(s, m) {
      HeldChanged(s.workers, w, Exited, m);
    }
  }

  lemma SpawnProgress(s: Pool)
    requires Enabled(s, SpawnWorker) && Inv(s)
    ensures Progress(s, Apply(s, SpawnWorker))
  {
    var s' := Apply(s, SpawnWorker);
    forall m ensures Places(s', m) == Places(s, m) {
      WorkerAdded(s.workers, m);
    }
    WorkerAdded(s.workers, "");
    assert s'.ids[..Fed(s')] == s.ids[..Fed(s)] == [];
  }

  lemma FeedProgress(s: Pool)
    requires Enabled(s, Feed) && Inv(s)
    ensures Progress(s, Apply(s, Feed))
  {
    var n := s.main.next;
    assert s.ids[..n + 1] == s.ids[..n] + [s.ids[n]];
  }

  lemma CollectProgress(s: Pool)
    requires Enabled(s, Collect) && Inv(s)
    ensures Progress(s, Apply(s, Collect))
  {
    var s' := Apply(s, Collect);
    forall m ensures Places(s', m) == Places(s, m) {
      HeadRemoved(s.outcomes, m);
      MessagesAppended(s.collected, s.outcomes[0], m);
    }
    assert s'.collected[..|s.collected|] == s.collected;
  }

  predicate OnlyMovesOn(step: Step) {
    step.CloseJobs? || step.StartCloser? || step.WaitDone? || step.CloseOutcomes? || step.Return?
  }

  lemma PhaseProgress(s: Pool, step: Step)
    requires OnlyMovesOn(step) && Enabled(s, step) && Inv(s)
    ensures Progress(s, Apply(s, step))
  {
    assert forall m :: Places(Apply(s, step), m) == Places(s, m);
  }

  /** Every step keeps the invariant and uses up some of the remaining work. */
  lemma StepProgress(s: Pool, step: Step)
    requires Enabled(s, step) && Inv(s)
    ensures Inv(Apply(s, step)) && Work(Apply(s, step)) < Work(s)
  {
    match step {
      case SpawnWorker => SpawnProgress(s);
      case Feed => FeedProgress(s);
      case Receive(w) => ReceiveProgress(s, w);
      case Handle(w, log) => HandleProgress(s, w, log);
      case Send(w) => SendProgress(s, w);
      case Exit(w) => ExitProgress(s, w);
      case Collect => CollectProgress(s);
      case _ => PhaseProgress(s, step);
    }
  }

  // ----- safety -----

  /** No step ever panics, and no send ever finds its channel full. */
  lemma NothingPanicsOrBlocksOnSend(s: Pool, step: Step)
    requires Inv(s)
    ensures Enabled(s, step) ==> !Panics(s, step)
    ensures s.main.Feeding? && s.main.next < |s.ids| ==> Enabled(s, Feed)
    ensures forall w :: 0 <= w < |s.workers| && s.workers[w].Sending? ==> Enabled(s, Send(w))
    ensures s.main.Feeding? ==> !s.jobsClosed && (s.main.next < |s.ids| ==> |s.jobs| < |s.ids|)
    ensures forall w :: 0 <= w < |s.workers| && s.workers[w].Sending? ==> !s.outcomesClosed && |s.outcomes| < |s.ids|
    ensures s.closer == ClosingOutcomes ==> !s.outcomesClosed
    ensures forall w :: 0 <= w < |s.workers| && s.workers[w] == Idle ==> s.waitGroup > 0
  {
    forall w | 0 <= w < |s.workers| && s.workers[w].Sending? ensures |s.outcomes| < |s.ids| && !s.outcomesClosed {
      SomeBusy(s.workers, w);
    }
    forall w | 0 <= w < |s.workers| && s.workers[w] == Idle ensures s.waitGroup > 0 {
      SomeBusy(s.workers, w);
    }
    if (step.Send? || step.Exit?) && Enabled(s, step) {
      SomeBusy(s.workers, step.w);
    }
  }

  /** Until the call returns, some goroutine can move: there is no deadlock. */
  lemma NoDeadlock(s: Pool) returns (step: Step)
    requires Inv(s) && s.main != Returned
    ensures Enabled(s, step)
  {
    NothingPanicsOrBlocksOnSend(s, Return);
    match s.main {
      case Spawning => step := SpawnWorker;
      case Feeding(n) => step := if n < |s.ids| then Feed else CloseJobs;
      case StartingCloser => step := StartCloser;
      case Collecting =>
        if s.outcomes != [] {
          step := Collect;
        } else if s.outcomesClosed {
          step := Return;
        } else if s.closer == ClosingOutcomes {
          step := CloseOutcomes;
        } else {
          var w := SomeAlive(s.workers);
          if s.waitGroup == 0 {
            step := WaitDone;
          } else {
            step := match s.workers[w]
              case Handling(_) => Handle(w, NoLog)
              case Sending(_) => Send(w)
              case _ => if s.jobs != [] then Receive(w) else Exit(w);
          }
        }
    }
  }

  // ----- termination -----

  lemma WorkRemains(s: Pool)
    requires Inv(s)
    ensures Work(s) >= 0
  {
  }

  // ----- whole runs -----

  predicate Runnable(s: Pool, steps: seq<Step>)
    decreases |steps|
  {
    steps == [] || (Enabled(s, steps[0]) && Runnable(Apply(s, steps[0]), steps[1..]))
  }

  function Run(s: Pool, steps: seq<Step>): Pool
    requires Runnable(s, steps)
    decreases |steps|
  {
    if steps == [] then s else Run(Apply(s, steps[0]), steps[1..])
  }

  // ----- what the counts mean -----

  /** Where the collected outcomes have a given log. */
  ghost function At(collected: seq<Outcome>, log: Log): set<int> {
    set i | 0 <= i < |collected| && collected[i].log == log
  }

  /** Each counter is the number of collected outcomes of its kind; what has no
      log entry counts as skipped. */
  ghost predicate CountsHold(c: Counts, collected: seq<Outcome>) {
    && c.parsed == |At(collected, Entry(Parsed))|
    && c.failed == |At(collected, Entry(Failed))|
    && c.unrecognised == |At(collected, Entry(Unrecognised))|
    && c.skipped == |At(collected, Entry(Skipped))| + |At(collected, NoLog)|
  }

  lemma AtSnoc(collected: seq<Outcome>, o: Outcome, log: Log)
    ensures |At(collected + [o], log)| == |At(collected, log)| + One(o.log == log)
  {
    var more := collected + [o];
    if o.log == log {
      assert At(more, log) == At(collected, log) + {|collected|};
    } else {
      assert At(more, log) == At(collected, log);
    }
  }

  lemma {:induction false} TallyLaw(collected: seq<Outcome>)
    ensures CountsHold(Tally(collected), collected)
  {
    if collected == [] {
      assert forall log :: At(collected, log) == {};
    } else {
      hide At;
      var before, o := collected[..|collected| - 1], collected[|collected| - 1];
      TallyLaw(before);
      assert before + [o] == collected;
      AtSnoc(before, o, Entry(Parsed));
      AtSnoc(before, o, Entry(Failed));
      AtSnoc(before, o, Entry(Unrecognised));
      AtSnoc(before, o, Entry(Skipped));
      AtSnoc(before, o, NoLog);
    }
  }

  /** A message that had a log entry before yields none. */
  ghost predicate KnownAreSkipped(before: map<MessageId, LogStatus>, s: Pool) {
    && (forall m :: m in before ==> m in s.logs)
    && (forall w :: 0 <= w < |s.workers| && s.workers[w].Sending? && s.workers[w].outcome.message in before ==>
          s.workers[w].outcome.log == NoLog)
    && (forall i :: 0 <= i < |s.outcomes| && s.outcomes[i].message in before ==> s.outcomes[i].log == NoLog)
    && (forall i :: 0 <= i < |s.collected| && s.collected[i].message in before ==> s.collected[i].log == NoLog)
  }

  lemma StepSkipsKnown(before: map<MessageId, LogStatus>, s: Pool, step: Step)
    requires Enabled(s, step) && KnownAreSkipped(before, s)
    ensures KnownAreSkipped(before, Apply(s, step))
  {
    hide Count;
    match step {
      case Handle(w, log) =>
      case Send(w) =>
      case Collect =>
      case _ =>
    }
  }

  // ----- the log table -----

  /** The first log entry that the given outcomes bring for a message. */
  function FirstEntry(outcomes: seq<Outcome>, m: MessageId): Log {
    if outcomes == [] then NoLog
    else
      var earlier, last := FirstEntry(outcomes[..|outcomes| - 1], m), outcomes[|outcomes| - 1];
      if earlier.Entry? then earlier else if last.message == m then last.log else NoLog
  }

  /** A message keeps the entry it had; any other has the first one collected for it, if any. */
  ghost predicate LogsMatch(before: map<MessageId, LogStatus>, collected: seq<Outcome>,
                            logs: map<MessageId, LogStatus>) {
    && (forall m :: m in before ==> m in logs && logs[m] == before[m])
    && (forall m :: m !in before ==> (m in logs <==> FirstEntry(collected, m).Entry?))
    && (forall m :: m !in before && m in logs ==> FirstEntry(collected, m) == Entry(logs[m]))
  }

  lemma CollectKeepsLogs(before: map<MessageId, LogStatus>, collected: seq<Outcome>,
                         logs: map<MessageId, LogStatus>, o: Outcome)
    requires LogsMatch(before, collected, logs)
    ensures LogsMatch(before, collected + [o], SaveLog(logs, o))
  {
    assert (collected + [o])[..|collected|] == collected;
  }

  lemma StepKeepsLogs(before: map<MessageId, LogStatus>, s: Pool, step: Step)
    requires Enabled(s, step) && LogsMatch(before, s.collected, s.logs)
    ensures Apply(s, step).ids == s.ids && LogsMatch(before, Apply(s, step).collected, Apply(s, step).logs)
  {
    hide LogsMatch;
    if step == Collect {
      CollectKeepsLogs(before, s.collected, s.logs, s.outcomes[0]);
    }
  }

  lemma {:induction false} RunKeepsInv(before: map<MessageId, LogStatus>, s: Pool, steps: seq<Step>)
    requires Runnable(s, steps) && Inv(s) && LogsMatch(before, s.collected, s.logs) && KnownAreSkipped(before, s)
    ensures Inv(Run(s, steps)) && Run(s, steps).ids == s.ids
    ensures 0 <= Work(Run(s, steps)) <= Work(s) - |steps|
    ensures LogsMatch(before, Run(s, steps).collected, Run(s, steps).logs) && KnownAreSkipped(before, Run(s, steps))
    decreases |steps|
  {
    WorkRemains(s);
    if steps == [] {
    } else {
      StepProgress(s, steps[0]);
      StepKeepsLogs(before, s, steps[0]);
      StepSkipsKnown(before, s, steps[0]);
      RunKeepsInv(before, Apply(s, steps[0]), steps[1..]);
    }
  }

  lemma {:induction false} TallyCounts(collected: seq<Outcome>)
    ensures var c := Tally(collected); c.parsed + c.failed + c.unrecognised + c.skipped == |collected|
  {
    if collected == [] {
    } else {
      TallyCounts(collected[..|collected| - 1]);
    }
  }

  /** For any batch and any interleaving: a run takes at most 6n + 16 steps; it
      can always go on until the call has returned; when it has, every message
      id has exactly one outcome, each of the four counts is the number of outcomes
      of its kind, and they add up to the messages checked.  A message that had a
      log entry is skipped.  At every moment the log holds the entries from before, unchanged,
      and for each other message the first entry collected for it, and no more. */
  lemma EveryMessageOnce(ids: seq<MessageId>, logs: map<MessageId, LogStatus>, steps: seq<Step>)
    requires Runnable(Start(ids, logs), steps)
    ensures var s := Run(Start(ids, logs), steps);
      && |steps| <= 6 * |ids| + 16
      && (s.main != Returned ==> exists step :: Enabled(s, step))
      && (s.main == Returned ==>
            && multiset(Messages(s.collected)) == multiset(ids)
            && |s.workers| == 5 && CountsHold(s.counts, s.collected)
            && s.counts.parsed + s.counts.failed + s.counts.unrecognised + s.counts.skipped == |ids|)
      && LogsMatch(logs, s.collected, s.logs)
      && forall i :: 0 <= i < |s.collected| && s.collected[i].message in logs ==> s.collected[i].log == NoLog
  {
    var start := Start(ids, logs);
    StartHolds(ids, logs);
    RunKeepsInv(logs, start, steps);
    var s := Run(start, steps);
    if s.main != Returned {
      var step := NoDeadlock(s);
    } else {
      ReturnedHasAll(s);
      TallyLaw(s.collected);
    }
  }

  lemma ReturnedHasAll(s: Pool)
    requires Inv(s) && s.main == Returned
    ensures multiset(Messages(s.collected)) == multiset(s.ids)
    ensures s.counts.parsed + s.counts.failed + s.counts.unrecognised + s.counts.skipped == |s.ids|
  {
    var w := SomeAlive(s.workers);
    assert s.workers[0].Exited?;
    assert s.ids[..|s.ids|] == s.ids;
    forall m ensures multiset(Messages(s.collected))[m] == multiset(s.ids)[m] {
      NoneHeld(s.workers, m);
    }
    TallyCounts(s.collected);
  }
}
