// What the job protocol promises, over every run: any number of workers, crashes, reaps,
// cancellations, deletions and user retries, in any order.
module QueueTheorems {
  import opened Jobs
  import opened QueueModel
  import opened QueueInvariant
  import opened QueueRuns

  // ---- fencing -------------------------------------------------------------------------------

  ghost predicate LatestClaim(s: State, h: Id)
    requires h in s.holds
  {
    && Current(s, s.holds[h])
    && forall g :: g in s.holds && g != h && s.holds[g].job == s.holds[h].job ==>
        s.holds[g].attempt < s.holds[h].attempt
  }

  // A complete commits exactly when the latest claim on the job issues it, the row still wants a
  // result, and the outcome is one a succeeded job may have. Any other complete only ends the
  // worker's claim.
  lemma CompleteIsFenced(events: seq<Event>, h: Id, outcome: TargetStatus, spawned: seq<Spec>)
    requires Enabled(Run(events), EComplete(h, outcome, spawned))
    ensures var s := Run(events); var hold := s.holds[h];
            CompleteCommits(s, h, outcome) <==>
              && LatestClaim(s, h) && Claimed(s, hold.target) && outcome != TFailed
              && (hold.kind == ConversationText || hold.kind == TtsGeneration || hold.kind == DocumentAnalysis ==>
                    s.targets[hold.target].claimable)
    ensures var s := Run(events);
            !LatestClaim(s, h) ==> SameTables(s, Step(s, EComplete(h, outcome, spawned)))
  {
    var s := Run(events);
    RunKeepsInv(events);
    CompleteNeedsCurrent(s, h, outcome);
    if Current(s, s.holds[h]) {
      CurrentIsLatest(s, h);
    }
  }

  lemma CompleteNeedsCurrent(s: State, h: Id, outcome: TargetStatus)
    requires h in s.holds && HoldFits(s, s.holds[h]) && HoldFenced(s, s.holds[h])
    requires PossibleOutcome(s.holds[h].kind, outcome)
    ensures CompleteCommits(s, h, outcome) <==>
              && Current(s, s.holds[h]) && Claimed(s, s.holds[h].target) && outcome != TFailed
              && (RechecksTarget(s.holds[h].kind) ==> s.targets[s.holds[h].target].claimable)
  {
  }

  ghost predicate SameTables(s: State, r: State) {
    r.jobs == s.jobs && r.targets == s.targets && r.messages == s.messages && r.dead == s.dead
  }

  predicate Claimed(s: State, t: Id) {
    t in s.targets && s.targets[t].status == TProcessing
  }

  lemma CurrentIsLatest(s: State, h: Id)
    requires Inv(s) && h in s.holds && Current(s, s.holds[h])
    ensures LatestClaim(s, h)
  {
    forall g | g in s.holds && g != h && s.holds[g].job == s.holds[h].job
        ensures s.holds[g].attempt < s.holds[h].attempt {
      assert HoldFits(s, s.holds[g]);
    }
  }

  // Where the row carries a token, the adapter itself turns a stale complete away. Only for a session
  // result, which has none, is it the job's status that rolls one back.
  lemma StaleCompleteMeetsToken(events: seq<Event>, h: Id)
    requires h in Run(events).holds && !LatestClaim(Run(events), h)
    ensures var s := Run(events);
            AdapterCompletes(s, s.holds[h]) ==> s.holds[h].kind == SessionResult && !JobRunning(s, s.holds[h].job)
  {
    var s := Run(events);
    RunKeepsInv(events);
    assert HoldFits(s, s.holds[h]) && HoldFenced(s, s.holds[h]);
    if Current(s, s.holds[h]) {
      CurrentIsLatest(s, h);
    }
  }

  // A failure commits exactly when the latest claim on the job reports it and the row still waits.
  lemma FailureIsFenced(events: seq<Event>, h: Id)
    requires h in Run(events).holds
    ensures var s := Run(events); FailCommits(s, h) <==> LatestClaim(s, h) && Claimed(s, s.holds[h].target)
  {
    var s := Run(events);
    RunKeepsInv(events);
    FailureNeedsCurrent(s, h);
    if Current(s, s.holds[h]) {
      CurrentIsLatest(s, h);
    }
  }

  lemma FailureNeedsCurrent(s: State, h: Id)
    requires Inv(s) && h in s.holds
    ensures FailCommits(s, h) <==> Current(s, s.holds[h]) && Claimed(s, s.holds[h].target)
  {
    var hold := s.holds[h];
    assert HoldFits(s, hold) && HoldFenced(s, hold);
  }

  // The retry planner grants a retry only to a claim with time left, so that a stale one, which ran
  // out of time, never changes a job either.
  lemma RetryNeedsCurrent(s: State, h: Id, at: real)
    requires Inv(s) && h in s.holds && s.now < s.holds[h].deadline
    ensures RetryCommits(s, h, at) <==> Current(s, s.holds[h]) && Claimed(s, s.holds[h].target)
  {
    var hold := s.holds[h];
    assert HoldFits(s, hold) && HoldFenced(s, hold);
  }

  // Whatever a worker reports that lost its claim, it changes no job, row, message or dead letter.
  lemma StaleReportChangesNothing(events: seq<Event>, h: Id, e: Event)
    requires h in Run(events).holds && !LatestClaim(Run(events), h)
    requires (e.EComplete? || e.EProviderFailure? || e.EDeadlinePassed?) && e.hold == h
    ensures SameTables(Run(events), Step(Run(events), e))
  {
    var s := Run(events);
    RunKeepsInv(events);
    if Current(s, s.holds[h]) {
      CurrentIsLatest(s, h);
    }
    if Enabled(s, e) {
      if e.EComplete? {
        CompleteIsFenced(events, h, e.outcome, e.spawned);
      } else {
        FailureNeedsCurrent(s, h);
        if e.EProviderFailure? {
          StaleFailure(s, h, e.failure, e.jitter);
        }
      }
    }
  }

  lemma StaleFailure(s: State, h: Id, failure: ProviderFailure, jitter: real)
    requires Inv(s) && h in s.holds && !Current(s, s.holds[h])
    ensures SameTables(s, HandleFailure(s, h, failure, jitter))
  {
    FailureNeedsCurrent(s, h);
    var decision := Decide(s.holds[h].attempt, s.holds[h].deadline, s.now, failure, jitter);
    if decision.Some? {
      RetryNeedsCurrent(s, h, After(s.now, decision.value));
    }
  }

  // The one thing a stale worker may still do is to record a schema repair, on turn feedback whose
  // deadline passed under it: it then spends the repair of the claim that replaced it.
  lemma StaleRepairIsFeedback(events: seq<Event>, h: Id)
    requires h in Run(events).holds && RepairRecorded(Run(events), h)
    ensures var s := Run(events); var hold := s.holds[h];
            !LatestClaim(s, h) ==> hold.kind == TurnFeedback && hold.deadline <= s.now
  {
    var s := Run(events);
    RunKeepsInv(events);
    assert HoldFits(s, s.holds[h]) && HoldFenced(s, s.holds[h]);
    if Current(s, s.holds[h]) {
      CurrentIsLatest(s, h);
    }
  }

  // Only the latest claim is ever sent back to the queue by its worker.
  lemma OnlyLatestClaimRetries(events: seq<Event>, h: Id, failure: ProviderFailure, jitter: real)
    requires h in Run(events).holds && JobRunning(Run(events), Run(events).holds[h].job)
    requires var s := Run(events); Decide(s.holds[h].attempt, s.holds[h].deadline, s.now, failure, jitter).Some?
    ensures LatestClaim(Run(events), h)
  {
    var s := Run(events);
    RunKeepsInv(events);
    assert HoldFenced(s, s.holds[h]) && HoldFits(s, s.holds[h]);
    CurrentIsLatest(s, h);
  }

  // ---- rows and jobs agree -------------------------------------------------------------------

  function ActiveJobs(s: State, t: Id): set<Id> {
    set j | j in s.jobs && s.jobs[j].target == t && Active(s.jobs[j].status)
  }

  lemma ActiveJobsCount(s: State, t: Id)
    requires Inv(s)
    ensures |ActiveJobs(s, t)| == if HasActiveJob(s, t) then 1 else 0
  {
    if HasActiveJob(s, t) {
      var j :| j in s.jobs && s.jobs[j].target == t && Active(s.jobs[j].status);
      assert ActiveJobs(s, t) == {j};
    } else {
      assert ActiveJobs(s, t) == {};
    }
  }

  // In every run no target has two active jobs, and a target is processing exactly when it has one.
  // The exceptions are the two that deletions and replacements of documents make: an analysis row of
  // a document that went may be processing without a job, and an invalidated configuration may have
  // a job without processing.
  lemma RowsAndJobsAgree(events: seq<Event>, t: Id)
    requires t in Run(events).targets
    ensures var s := Run(events); |ActiveJobs(s, t)| <= 1
    ensures var s := Run(events); var row := s.targets[t];
            row.status == TProcessing && (row.kind == DocumentAnalysis ==> row.claimable) ==> |ActiveJobs(s, t)| == 1
    ensures var s := Run(events); var row := s.targets[t];
            |ActiveJobs(s, t)| == 1 ==>
              row.status == TProcessing || (row.kind == ConfigurationGeneration && row.status == TUnavailable)
  {
    RunKeepsInv(events);
    ActiveJobsCount(Run(events), t);
    assert KeepsItsJob(Run(events).targets[t]) && Run(events).targets[t].status == TProcessing ==>
             HasActiveJob(Run(events), t);
  }

  // So the guard of the retry endpoints against an active job never refuses a row they would renew.
  lemma NoRetryMeetsAnActiveJob(events: seq<Event>, t: Id)
    requires t in Run(events).targets && UserRetryable(Run(events).targets[t])
    ensures !HasActiveJob(Run(events), t)
  {
    RunKeepsInv(events);
  }

  // ---- accounting ----------------------------------------------------------------------------

  lemma BudgetsHold(events: seq<Event>, j: Id)
    requires j in Run(events).jobs
    ensures var s := Run(events); var job := s.jobs[j];
            job.attempts <= 3 && job.repairs <= 1 && Runs(s, j) <= job.attempts + job.repairs <= 4
  {
    RunKeepsInv(events);
  }

  lemma ExactlyOneDeadLetter(events: seq<Event>, j: Id, queue: QueueName)
    requires j in Run(events).jobs
    ensures var s := Run(events);
            s.dead[DeadLetter(queue, j)]
              == if s.jobs[j].status == Failed && queue == QueueOf(s.jobs[j].kind) then 1 else 0
  {
    RunKeepsInv(events);
    assert DeadLetter(queue, j).job == j;
  }

  // How one transaction may change one job: along an allowed transition, if at all, and never
  // giving back an attempt, a repair or an execution.
  ghost predicate JobMoves(s: State, r: State, j: Id) {
    j in s.jobs && j in r.jobs ==>
      && (r.jobs[j].status == s.jobs[j].status || AllowedTransition(s.jobs[j].status, r.jobs[j].status))
      && r.jobs[j].kind == s.jobs[j].kind && r.jobs[j].target == s.jobs[j].target
      && s.jobs[j].attempts <= r.jobs[j].attempts <= s.jobs[j].attempts + 1
      && (r.jobs[j].attempts > s.jobs[j].attempts <==> s.jobs[j].status == Queued && r.jobs[j].status == Processing)
      && s.jobs[j].repairs <= r.jobs[j].repairs
      && Runs(s, j) <= Runs(r, j) <= Runs(s, j) + 1
  }

  lemma {:induction false} PublishAllKeepsJobs(s: State, specs: seq<Spec>)
    requires forall i :: i in s.jobs ==> i < s.nextId
    ensures forall i :: i in s.jobs ==> i in PublishAll(s, specs).jobs && PublishAll(s, specs).jobs[i] == s.jobs[i]
    ensures PublishAll(s, specs).runs == s.runs
    decreases |specs|
  {
    if specs != [] {
      PublishAllKeepsJobs(Publish(s, specs[0]), specs[1..]);
    }
  }

  lemma ReapOneMoves(s: State, queue: QueueName, x: Id, j: Id)
    requires j in s.jobs
    ensures var r := ReapOne(s, queue, x); j in r.jobs && JobMoves(s, r, j) && r.runs == s.runs
  {
    if Expired(s, queue, x) {
      if ReaperRequeues(s, x) {
        RequeueMoves(s, x, After(s.now, BackoffSeconds(s.jobs[x].attempts)), j);
      } else {
        SettleMoves(s, x, j);
      }
    }
  }

  lemma RequeueMoves(s: State, x: Id, at: real, j: Id)
    requires j in s.jobs && JobRunning(s, x) && ReaperRequeues(s, x)
    ensures var r := Requeue(s, x, at); j in r.jobs && JobMoves(s, r, j) && r.runs == s.runs
  {
  }

  lemma SettleMoves(s: State, x: Id, j: Id)
    requires j in s.jobs && JobRunning(s, x)
    ensures var r := Settle(s, x, Failed); j in r.jobs && JobMoves(s, r, j) && r.runs == s.runs
  {
  }

  lemma ReapOneOnce(s: State, queue: QueueName, x: Id, j: Id)
    requires j in s.jobs
    ensures j in ReapOne(s, queue, x).jobs
    ensures x != j || s.jobs[j].status != Processing ==> ReapOne(s, queue, x).jobs[j] == s.jobs[j]
    ensures ReapOne(s, queue, x).jobs[j] != s.jobs[j] ==> ReapOne(s, queue, x).jobs[j].status != Processing
  {
  }

  lemma {:induction false} ReapMovesOnce(s: State, queue: QueueName, js: seq<Id>, j: Id)
    requires j in s.jobs
    ensures var r := ReapAll(s, queue, js); j in r.jobs && JobMoves(s, r, j) && r.runs == s.runs
    ensures s.jobs[j].status != Processing ==> ReapAll(s, queue, js).jobs[j] == s.jobs[j]
    decreases |js|
  {
    if js != [] {
      ReapOneMoves(s, queue, js[0], j);
      ReapOneOnce(s, queue, js[0], j);
      ReapMovesOnce(ReapOne(s, queue, js[0]), queue, js[1..], j);
    }
  }

  lemma StepMovesJobs(events: seq<Event>, e: Event, j: Id)
    ensures JobMoves(Run(events), Step(Run(events), e), j)
  {
    RunKeepsInv(events);
    FreshIds(Run(events));
    if Enabled(Run(events), e) && j in Run(events).jobs {
      ApplyMovesJobs(Run(events), e, j);
    }
  }

  lemma ApplyMovesJobs(s: State, e: Event, j: Id)
    requires Enabled(s, e) && j in s.jobs && forall i :: i in s.jobs ==> i < s.nextId
    ensures JobMoves(s, Apply(s, e), j)
  {
    match e
    case EReap(queue, expired) => ReapMovesOnce(s, queue, expired, j);
    case EComplete(h, outcome, spawned) => CompleteMovesJobs(s, h, outcome, spawned, j);
    case EProviderFailure(h, failure, jitter) => FailureMovesJobs(s, h, failure, jitter, j);
    case _ =>
      if WorkerStep(e) {
        WorkerStepsMoveJobs(s, e, j);
      } else {
        OtherStepsMoveJobs(s, e, j);
      }
  }

  lemma FreshIds(s: State)
    requires Inv(s)
    ensures forall i :: i in s.jobs ==> i < s.nextId
  {
  }

  predicate WorkerStep(e: Event) {
    e.ERead? || e.EReadAndClaim? || e.EExecute? || e.EMarkRepair? || e.EExecuteRepair? || e.EDeadlinePassed?
        || e.ECrash?
  }

  lemma WorkerStepsMoveJobs(s: State, e: Event, j: Id)
    requires Enabled(s, e) && WorkerStep(e)
    ensures JobMoves(s, Apply(s, e), j)
  {
    match e
    case EReadAndClaim(m, timeout) => ClaimMovesJobs(s, m, timeout, j);
    case EDeadlinePassed(h) => FailMovesJobs(s, h, j);
    case _ => HoldStepsMoveJobs(s, e, j);
  }

  lemma ClaimMovesJobs(s: State, m: Id, timeout: real, j: Id)
    requires m in s.messages
    ensures JobMoves(s, ReadAndClaim(s, m, timeout), j)
  {
  }

  lemma FailMovesJobs(s: State, h: Id, j: Id)
    requires h in s.holds
    ensures JobMoves(s, Fail(s, h), j)
  {
  }

  lemma HoldStepsMoveJobs(s: State, e: Event, j: Id)
    requires Enabled(s, e) && WorkerStep(e) && !e.EReadAndClaim? && !e.EDeadlinePassed?
    ensures JobMoves(s, Apply(s, e), j)
  {
  }

  lemma OtherStepsMoveJobs(s: State, e: Event, j: Id)
    requires Enabled(s, e) && !WorkerStep(e) && !e.EReap? && !e.EComplete? && !e.EProviderFailure?
    requires forall i :: i in s.jobs ==> i < s.nextId
    ensures JobMoves(s, Apply(s, e), j)
  {
  }

  lemma FailureMovesJobs(s: State, h: Id, failure: ProviderFailure, jitter: real, j: Id)
    requires h in s.holds
    ensures JobMoves(s, HandleFailure(s, h, failure, jitter), j)
  {
  }

  lemma CompleteMovesJobs(s: State, h: Id, outcome: TargetStatus, spawned: seq<Spec>, j: Id)
    requires h in s.holds && forall i :: i in s.jobs ==> i < s.nextId
    ensures JobMoves(s, Complete(s, h, outcome, spawned), j)
  {
    var hold := s.holds[h];
    if CompleteCommits(s, h, outcome) {
      var completed := Drop(Discard(Completed(s, hold, outcome), hold.message), h);
      CompletedMoves(s, h, outcome, j);
      PublishAllKeepsJobs(completed, if hold.kind == ConversationText then spawned else []);
    }
  }

  lemma CompletedMoves(s: State, h: Id, outcome: TargetStatus, j: Id)
    requires CompleteCommits(s, h, outcome)
    ensures var completed := Drop(Discard(Completed(s, s.holds[h], outcome), s.holds[h].message), h);
            completed.jobs.Keys == s.jobs.Keys && completed.runs == s.runs && JobMoves(s, completed, j)
  {
  }
}
