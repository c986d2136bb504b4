// What the API does to rows, jobs and messages, in every run: sending a row back to work, publishing a
// new one, and withdrawing, closing and deleting rows.
module QueueSteps {
  import opened Jobs
  import opened QueueModel
  import opened QueueInvariant
  import opened QueueRuns
  import opened QueueJam
  import opened QueueTheorems
  import opened QueueTurn

  function NewJob(kind: JobType, x: Id, now: real): Job {
    Job(kind, x, Queued, 0, 0, None, now + DeadlineSeconds(kind))
  }

  // Row x has one new job, j, with message m to wake a worker up at once. No other job or message moves.
  ghost predicate SentToWork(s: State, t: State, x: Id, j: Id, m: Id) {
    && x in t.targets && j !in s.jobs && m !in s.messages
    && t.jobs == s.jobs[j := NewJob(t.targets[x].kind, x, s.now)]
    && t.messages == s.messages[m := Message(QueueOf(t.targets[x].kind), j, s.now)]
    && t.dead == s.dead && t.holds == s.holds && t.now == s.now
  }

  predicate TokenNew(s: State, token: nat) {
    && (forall y | y in s.targets :: s.targets[y].token != token)
    && (forall h | h in s.holds :: s.holds[h].token != token)
  }

  lemma TokensAreNew(events: seq<Event>)
    ensures IdsFresh(Run(events)) && TokenNew(Run(events), Run(events).nextToken)
  {
    RunKeepsInv(events);
    var s := Run(events);
    forall h | h in s.holds ensures s.holds[h].token != s.nextToken {
      assert HoldFits(s, s.holds[h]);
    }
  }

  // A new row waits for its first job, under a token of its own.
  lemma PublishedIs(events: seq<Event>, spec: Spec) returns (x: Id, j: Id, m: Id)
    ensures var s := Run(events); var t := Step(s, EPublish(spec));
            && SentToWork(s, t, x, j, m) && x !in s.targets && t.targets == s.targets[x := t.targets[x]]
            && t.targets[x].kind == spec.kind && t.targets[x].status == TProcessing
            && t.targets[x].claimable == spec.claimable && TokenNew(s, t.targets[x].token)
  {
    TokensAreNew(events);
    var s := Run(events);
    x, j, m := s.nextId, s.nextId + 1, s.nextId + 2;
    NewRow(s, spec);
  }

  lemma NewRow(s: State, spec: Spec)
    requires IdsFresh(s)
    ensures var t := Publish(s, spec); var x := s.nextId;
            && SentToWork(s, t, x, x + 1, x + 2) && x !in s.targets
            && t.targets == s.targets[x := Target(spec.kind, TProcessing, s.nextToken, spec.claimable)]
  {
  }

  // What a user can send back to work: what failed, partial feedback, and a configuration that is ready.
  // Analyses and goal evaluations are not sent back, and neither is an audio that is no longer current.
  predicate CanBeSentBack(row: Target) {
    || (row.status == TFailed && row.kind != DocumentAnalysis && row.kind != GoalProgress
        && (row.kind == TtsGeneration ==> row.claimable))
    || (row.status == TPartial && row.kind == TurnFeedback)
    || (row.status == TReady && row.kind == ConfigurationGeneration)
  }

  // A retry is accepted exactly for such a row. It waits again, with one new job, and under a token that no
  // worker holds where it has one; a session result has none.
  lemma SentBackIff(events: seq<Event>, x: Id) returns (j: Id, m: Id)
    requires x in Run(events).targets
    ensures var s := Run(events); var t := Step(s, EUserRetry(x)); var row := s.targets[x];
            if CanBeSentBack(row) then
              && SentToWork(s, t, x, j, m) && t.targets == s.targets[x := t.targets[x]]
              && t.targets[x] == row.(status := TProcessing, token := t.targets[x].token)
              && (if row.kind == SessionResult then t.targets[x].token == row.token
                  else TokenNew(s, t.targets[x].token))
            else t == s
  {
    TokensAreNew(events);
    var s := Run(events);
    assert CanBeSentBack(s.targets[x]) <==> UserRetryable(s.targets[x]);
    j, m := s.nextId, s.nextId + 1;
    if UserRetryable(s.targets[x]) {
      NoRetryMeetsAnActiveJob(events, x);
      SentBack(s, x);
    }
  }

  lemma SentBack(s: State, x: Id)
    requires IdsFresh(s) && x in s.targets && UserRetryable(s.targets[x]) && !HasActiveJob(s, x)
    ensures var t := UserRetry(s, x); var row := s.targets[x];
            && SentToWork(s, t, x, s.nextId, s.nextId + 1)
            && t.targets == s.targets[x := row.(status := TProcessing,
                                                token := if row.kind == SessionResult then row.token else s.nextToken)]
  {
  }

  // The steps that neither a worker's report nor a reaper pass nor a retry takes
  predicate Withdraws(e: Event) {
    e.ECancelAnalysis? || e.EInvalidateConfiguration? || e.EClose? || e.EUseConfiguration? || e.EDelete?
  }

  predicate InForce(row: Target) {
    row.status == TProcessing || row.status == TReady
  }

  function RowAfter(s: State, e: Event, x: Id): Target
    requires x in s.targets
  {
    var row := s.targets[x];
    match e
    case ECancelAnalysis(t, deleted) =>
      if t == x && row.kind == DocumentAnalysis
      then Target(row.kind, if deleted && InForce(row) then TUnavailable else row.status, row.token, false) else row
    case EInvalidateConfiguration(t) =>
      if t == x && row.kind == ConfigurationGeneration
      then Target(row.kind, if InForce(row) then TUnavailable else row.status, row.token, false) else row
    case EClose(t) => if t == x then Target(row.kind, row.status, row.token, false) else row
    case EUseConfiguration(t) =>
      if t == x && row.kind == ConfigurationGeneration && row.status == TReady
      then Target(row.kind, TUnavailable, row.token, row.claimable) else row
    case _ => row
  }

  function JobAfter(s: State, e: Event, j: Id): Job
    requires j in s.jobs
  {
    var job := s.jobs[j];
    if e.ECancelAnalysis? && job.target == e.target && job.kind == DocumentAnalysis
       && (job.status == Queued || job.status == Processing)
    then job.(status := Cancelled) else job
  }

  lemma RowsMove(s: State, e: Event, x: Id)
    requires Withdraws(e)
    ensures var t := Step(s, e);
            && (x in t.targets <==> x in s.targets && e != EDelete(x))
            && (x in t.targets ==> t.targets[x] == RowAfter(s, e, x))
  {
    match e
    case EDelete(_) =>
    case ECancelAnalysis(_, _) => CancelledRow(s, e, x);
    case _ => WithdrawnRow(s, e, x);
  }

  lemma CancelledRow(s: State, e: Event, x: Id)
    requires e.ECancelAnalysis?
    ensures var t := Step(s, e);
            (x in t.targets <==> x in s.targets) && (x in t.targets ==> t.targets[x] == RowAfter(s, e, x))
  {
  }

  lemma WithdrawnRow(s: State, e: Event, x: Id)
    requires e.EInvalidateConfiguration? || e.EClose? || e.EUseConfiguration?
    ensures var t := Step(s, e);
            (x in t.targets <==> x in s.targets) && (x in t.targets ==> t.targets[x] == RowAfter(s, e, x))
  {
  }

  lemma TheRestStays(s: State, e: Event)
    requires Withdraws(e)
    ensures var t := Step(s, e); t.messages == s.messages && t.dead == s.dead && t.holds == s.holds && t.now == s.now
  {
  }

  lemma JobsMove(s: State, e: Event, j: Id)
    requires Withdraws(e)
    requires forall i | i in s.jobs ::
               s.jobs[i].target in s.targets && s.targets[s.jobs[i].target].kind == s.jobs[i].kind
    ensures var t := Step(s, e);
            && (j in t.jobs <==> j in s.jobs && e != EDelete(s.jobs[j].target))
            && (j in t.jobs ==> t.jobs[j] == JobAfter(s, e, j))
  {
  }

  // Withdrawing, closing and using a row moves that row alone, and deleting it takes its jobs with it. Only
  // a document's going ends jobs: those of its analysis that are active. Messages stay for the workers to
  // discard, and claims for them to find out.
  lemma WithdrawnIs(events: seq<Event>, e: Event, x: Id, j: Id)
    requires Withdraws(e)
    ensures var s := Run(events); var t := Step(s, e);
            && t.messages == s.messages && t.dead == s.dead && t.holds == s.holds && t.now == s.now
            && (x in t.targets <==> x in s.targets && e != EDelete(x))
            && (x in t.targets ==> t.targets[x] == RowAfter(s, e, x))
            && (j in t.jobs <==> j in s.jobs && e != EDelete(s.jobs[j].target))
            && (j in t.jobs ==> t.jobs[j] == JobAfter(s, e, j))
  {
    KindsAgree(events);
    TheRestStays(Run(events), e);
    RowsMove(Run(events), e, x);
    JobsMove(Run(events), e, j);
  }

  lemma KindsAgree(events: seq<Event>)
    ensures var s := Run(events);
            forall i | i in s.jobs ::
              s.jobs[i].target in s.targets && s.targets[s.jobs[i].target].kind == s.jobs[i].kind
  {
    RunKeepsInv(events);
  }

  // Reading a message hides it for the timeout and does nothing else; time does nothing at all.
  lemma ReadIs(events: seq<Event>, m: Id, timeout: real, elapsed: real)
    ensures var s := Run(events); var t := Step(s, ERead(m, timeout));
            if m in s.messages && s.messages[m].visibleAt <= s.now && timeout > 0.0
            then t == s.(messages := t.messages)
                 && t.messages == s.messages[m := Message(s.messages[m].queue, s.messages[m].job, s.now + timeout)]
            else t == s
    ensures elapsed >= 0.0 ==> Step(Run(events), ETick(elapsed)) == Run(events).(now := Run(events).now + elapsed)
  {
  }

  predicate PastItsDeadline(s: State, queue: QueueName, j: Id)
    requires j in s.jobs
  {
    s.jobs[j].status == Processing && s.jobs[j].deadline <= s.now && QueueOf(s.jobs[j].kind) == queue
  }

  // In every run a reaper pass leaves a job and, if the job is active, its row alone unless the job is
  // one of those it locked, is being processed, belongs to its queue, and is past its deadline.
  lemma PassTouchesOnlyExpired(events: seq<Event>, queue: QueueName, js: seq<Id>, j: Id)
    requires j in Run(events).jobs && !(j in js && PastItsDeadline(Run(events), queue, j))
    ensures var s := Run(events); var r := Step(s, EReap(queue, js));
            && s.jobs[j].target in s.targets && j in r.jobs && r.jobs[j] == s.jobs[j]
            && (s.jobs[j].status == Queued || s.jobs[j].status == Processing ==> SameJobAndRow(s, r, j))
  {
    JobsStandAlone(events, j);
    PassLeaves(Run(events), queue, js, j);
  }

  lemma JobsStandAlone(events: seq<Event>, j: Id)
    requires j in Run(events).jobs
    ensures var s := Run(events);
            && s.jobs[j].target in s.targets && (Active(s.jobs[j].status) ==> Alone(s, j))
            && forall w | w in s.messages :: w < s.nextId
  {
    RunKeepsInv(events);
    if Active(Run(events).jobs[j].status) {
      ActiveIsAlone(Run(events), j);
    }
  }

  lemma PassLeaves(s: State, queue: QueueName, js: seq<Id>, j: Id)
    requires j in s.jobs && s.jobs[j].target in s.targets && (Active(s.jobs[j].status) ==> Alone(s, j))
    requires forall w | w in s.messages :: w < s.nextId
    requires !(j in js && PastItsDeadline(s, queue, j))
    ensures var r := Reap(s, queue, js);
            && j in r.jobs && r.jobs[j] == s.jobs[j] && (Active(s.jobs[j].status) ==> SameJobAndRow(s, r, j))
  {
    if Active(s.jobs[j].status) {
      ReapAllLeavesOthers(s, queue, js, j);
    } else {
      PassAll(s, queue, js);
    }
  }

  lemma ActiveIsAlone(s: State, j: Id)
    requires OneActiveJob(s) && j in s.jobs && Active(s.jobs[j].status)
    ensures Alone(s, j)
  {
  }

  // ---- claims and executions -----------------------------------------------------------------

  predicate CanBeClaimed(s: State, j: Id) {
    && j in s.jobs && s.jobs[j].status == Queued
    && (s.jobs[j].nextAttempt.Some? ==> s.jobs[j].nextAttempt.value <= s.now)
    && s.jobs[j].target in s.targets
    && s.targets[s.jobs[j].target].status == TProcessing && s.targets[s.jobs[j].target].claimable
  }

  // The worker has claim h on job j, and has hidden the message. No other claim, job or message moved.
  ghost predicate Holding(s: State, t: State, m: Id, j: Id, h: Id, timeout: real)
    requires m in s.messages && CanBeClaimed(s, j)
  {
    && h !in s.holds && h in t.holds && j in t.jobs
    && t.holds == s.holds[h := t.holds[h]] && t.jobs == s.jobs[j := t.jobs[j]]
    && t.holds[h].job == j && t.holds[h].message == m && t.holds[h].phase == Fresh
    && t.holds[h].token == s.targets[s.jobs[j].target].token && t.jobs[j].status == Processing
    && t.messages == s.messages[m := s.messages[m].(visibleAt := s.now + timeout)]
  }

  // In every run a worker that reads a message gets the claim exactly if the job is queued and due, and its
  // row waits and can be worked on. Where it does not, the message is gone and nothing else happened.
  lemma ClaimedIff(events: seq<Event>, m: Id, timeout: real) returns (h: Id)
    requires Visible(Run(events), m, timeout)
    ensures var s := Run(events); var t := Step(s, EReadAndClaim(m, timeout)); var j := s.messages[m].job;
            if CanBeClaimed(s, j) then Holding(s, t, m, j, h, timeout) else t == s.(messages := s.messages - {m})
  {
    RunKeepsInv(events);
    h := Run(events).nextId;
    ReadEnds(Run(events), m, timeout);
  }

  lemma ReadEnds(s: State, m: Id, timeout: real)
    requires WellFormed(s) && m in s.messages
    ensures var t := ReadAndClaim(s, m, timeout); var j := s.messages[m].job;
            if CanBeClaimed(s, j) then Holding(s, t, m, j, s.nextId, timeout)
            else t == s.(messages := s.messages - {m})
  {
    assert Read(s, m, timeout).messages - {m} == s.messages - {m};
  }

  // Whether an event has the provider called for job j
  predicate Executes(s: State, e: Event, j: Id) {
    || (e.EExecute? && e.hold in s.holds && s.holds[e.hold].job == j && s.holds[e.hold].phase == Fresh
        && s.now < s.holds[e.hold].deadline)
    || (e.EExecuteRepair? && e.hold in s.holds && s.holds[e.hold].job == j && s.holds[e.hold].phase == Repairing)
  }

  function Executions(events: seq<Event>, j: Id): nat {
    if events == [] then 0
    else
      var before := events[..|events| - 1];
      Executions(before, j) + (if Executes(Run(before), events[|events| - 1], j) then 1 else 0)
  }

  lemma StepExecutes(s: State, e: Event, j: Id)
    ensures Runs(Step(s, e), j) == Runs(s, j) + if Executes(s, e, j) then 1 else 0
  {
    match e
    case EExecute(_) =>
    case EExecuteRepair(_) =>
    case _ => NothingExecuted(s, e);
  }

  lemma NothingExecuted(s: State, e: Event)
    requires !e.EExecute? && !e.EExecuteRepair?
    ensures Step(s, e).runs == s.runs
  {
    if Enabled(s, e) {
      match e
      case EReap(queue, js) => PassExecutesNothing(s, queue, js);
      case EComplete(h, outcome, spawned) => CompletingExecutesNothing(s, h, outcome, spawned);
      case EProviderFailure(h, failure, jitter) => FailureExecutesNothing(s, h, failure, jitter);
      case EDeadlinePassed(h) => FailExecutesNothing(s, h);
      case _ => OthersExecuteNothing(s, e);
    }
  }

  lemma CompletingExecutesNothing(s: State, h: Id, outcome: TargetStatus, spawned: seq<Spec>)
    requires h in s.holds
    ensures Complete(s, h, outcome, spawned).runs == s.runs
  {
    if CompleteCommits(s, h, outcome) {
      var hold := s.holds[h];
      var completed := Drop(Discard(Completed(s, hold, outcome), hold.message), h);
      PublishExecutesNothing(completed, if hold.kind == ConversationText then spawned else []);
    }
  }

  lemma FailExecutesNothing(s: State, h: Id)
    requires h in s.holds
    ensures Fail(s, h).runs == s.runs
  {
  }

  lemma RetryExecutesNothing(s: State, h: Id, at: real)
    requires h in s.holds
    ensures Retry(s, h, at).runs == s.runs
  {
  }

  lemma FailureExecutesNothing(s: State, h: Id, failure: ProviderFailure, jitter: real)
    requires h in s.holds
    ensures HandleFailure(s, h, failure, jitter).runs == s.runs
  {
    var decision := Decide(s.holds[h].attempt, s.holds[h].deadline, s.now, failure, jitter);
    if decision.Some? {
      RetryExecutesNothing(s, h, After(s.now, decision.value));
    } else {
      FailExecutesNothing(s, h);
    }
  }

  lemma OthersExecuteNothing(s: State, e: Event)
    requires Enabled(s, e) && !e.EExecute? && !e.EExecuteRepair?
    requires !e.EReap? && !e.EComplete? && !e.EProviderFailure? && !e.EDeadlinePassed?
    ensures Apply(s, e).runs == s.runs
  {
  }

  lemma {:induction false} PassExecutesNothing(s: State, queue: QueueName, js: seq<Id>)
    ensures ReapAll(s, queue, js).runs == s.runs
    decreases |js|
  {
    if js != [] {
      PassExecutesNothing(ReapOne(s, queue, js[0]), queue, js[1..]);
    }
  }

  lemma {:induction false} PublishExecutesNothing(s: State, specs: seq<Spec>)
    ensures PublishAll(s, specs).runs == s.runs
    decreases |specs|
  {
    if specs != [] {
      PublishExecutesNothing(Publish(s, specs[0]), specs[1..]);
    }
  }

  // In every run the provider was called for a job as often as the history says, so at most four times:
  // once for each claim, and once more for a repair.
  lemma {:induction false} ExecutionsAreCounted(events: seq<Event>, j: Id)
    ensures Runs(Run(events), j) == Executions(events, j)
    ensures j in Run(events).jobs ==> Executions(events, j) <= 4
  {
    if events != [] {
      ExecutionsAreCounted(events[..|events| - 1], j);
      StepExecutes(Run(events[..|events| - 1]), events[|events| - 1], j);
    }
    if j in Run(events).jobs {
      BudgetsHold(events, j);
    }
  }
}
