// Which queued jobs will run: those a claim accepts, and no others.
module QueueLiveness {
  import opened Jobs
  import opened QueueModel
  import opened QueueInvariant
  import opened QueueRuns
  import opened QueueJam
  import opened QueueTheorems
  import opened QueueTurn

  // ---- no lost job ---------------------------------------------------------------------------

  // The wake-up of a queued, claimable job is in the job's own queue, and a worker that reads it
  // once it is visible is granted the claim.
  lemma QueuedJobCanBeClaimed(events: seq<Event>, j: Id, timeout: real) returns (m: Id, wait: real)
    requires var s := Run(events); j in s.jobs && s.jobs[j].status == Queued && Claimable(s, s.jobs[j].target)
    requires timeout > 0.0
    ensures wait >= 0.0 && m in Run(events).messages && WakesUp(Run(events), m, j)
    ensures var later := Tick(Run(events), wait);
            Visible(later, m, timeout) && JobRunning(ReadAndClaim(later, m, timeout), j)
  {
    var s := Run(events);
    RunKeepsInv(events);
    assert HasWakeUp(s, j);
    m :| m in s.messages && WakesUp(s, m, j);
    wait := VisibleWakeUpIsGranted(s, m, j, timeout);
  }

  lemma VisibleWakeUpIsGranted(s: State, m: Id, j: Id, timeout: real) returns (wait: real)
    requires j in s.jobs && s.jobs[j].status == Queued && Claimable(s, s.jobs[j].target)
    requires m in s.messages && WakesUp(s, m, j) && timeout > 0.0
    ensures wait >= 0.0
    ensures Visible(Tick(s, wait), m, timeout) && JobRunning(ReadAndClaim(Tick(s, wait), m, timeout), j)
  {
    wait := if s.messages[m].visibleAt <= s.now then 0.0 else s.messages[m].visibleAt - s.now;
  }

  // ---- a queued job that cannot be claimed ---------------------------------------------------

  // A job that will never run again: over, gone, or queued for a row no claim accepts.
  predicate Lost(s: State, j: Id) {
    if j in s.jobs then
      s.jobs[j].status in {Succeeded, Failed, Cancelled}
          || (s.jobs[j].status == Queued && !Claimable(s, s.jobs[j].target))
    else j < s.nextId
  }

  lemma {:induction false} PublishingLosesNothing(s: State, specs: seq<Spec>, j: Id)
    requires Lost(s, j) && j < s.nextId && (j in s.jobs ==> s.jobs[j].target < s.nextId)
    ensures Lost(PublishAll(s, specs), j)
    decreases |specs|
  {
    if specs != [] {
      PublishingLosesNothing(Publish(s, specs[0]), specs[1..], j);
    }
  }

  lemma {:induction false} ReapingKeepsLost(s: State, queue: QueueName, js: seq<Id>, j: Id)
    requires Lost(s, j)
    ensures Lost(ReapAll(s, queue, js), j)
    decreases |js|
  {
    if js != [] {
      ReapingKeepsLost(ReapOne(s, queue, js[0]), queue, js[1..], j);
    }
  }

  lemma ReportsKeepLost(s: State, e: Event, j: Id)
    requires Enabled(s, e) && Reports(e) && Lost(s, j) && j < s.nextId && (j in s.jobs ==> s.jobs[j].target < s.nextId)
    ensures Lost(Apply(s, e), j)
  {
    match e
    case EComplete(h, outcome, spawned) => CompleteKeepsLost(s, h, outcome, spawned, j);
    case EProviderFailure(h, failure, jitter) => FailureKeepsLost(s, h, failure, jitter, j);
    case EDeadlinePassed(h) =>
    case EMarkRepair(h) =>
  }

  lemma CompleteKeepsLost(s: State, h: Id, outcome: TargetStatus, spawned: seq<Spec>, j: Id)
    requires h in s.holds && Lost(s, j) && j < s.nextId && (j in s.jobs ==> s.jobs[j].target < s.nextId)
    ensures Lost(Complete(s, h, outcome, spawned), j)
  {
    if CompleteCommits(s, h, outcome) {
      var completed := Drop(Discard(Completed(s, s.holds[h], outcome), s.holds[h].message), h);
      assert Lost(completed, j);
      PublishingLosesNothing(completed, if s.holds[h].kind == ConversationText then spawned else [], j);
    }
  }

  lemma FailureKeepsLost(s: State, h: Id, failure: ProviderFailure, jitter: real, j: Id)
    requires h in s.holds && Lost(s, j)
    ensures Lost(HandleFailure(s, h, failure, jitter), j)
  {
  }

  lemma MovesKeepLost(s: State, e: Event, j: Id)
    requires Enabled(s, e) && Moves(e) && Lost(s, j) && j < s.nextId && (j in s.jobs ==> s.jobs[j].target < s.nextId)
    ensures Lost(Apply(s, e), j)
  {
  }

  lemma EndpointsKeepLost(s: State, e: Event, j: Id)
    requires Enabled(s, e) && !Moves(e) && !Reports(e) && !e.EReap? && Lost(s, j) && j < s.nextId
    ensures Lost(Apply(s, e), j)
  {
    assert j in s.jobs && s.jobs[j].status == Queued ==> HasActiveJob(s, s.jobs[j].target);
  }

  lemma StepKeepsLost(s: State, e: Event, j: Id)
    requires WellFormed(s) && Lost(s, j)
    ensures Lost(Step(s, e), j)
  {
    if Enabled(s, e) {
      if Moves(e) {
        MovesKeepLost(s, e, j);
      } else if Reports(e) {
        ReportsKeepLost(s, e, j);
      } else if e.EReap? {
        ReapingKeepsLost(s, e.queue, e.expired, j);
      } else {
        EndpointsKeepLost(s, e, j);
      }
    }
  }

  lemma {:induction false} LostForGood(events: seq<Event>, more: seq<Event>, j: Id)
    requires Lost(Run(events), j)
    ensures Lost(Run(events + more), j)
  {
    if more == [] {
      assert events + more == events;
    } else {
      var before := events + more[..|more| - 1];
      LostForGood(events, more[..|more| - 1], j);
      assert events + more == before + [more[|more| - 1]];
      StepAfter(before, more[|more| - 1]);
      RunKeepsInv(before);
      StepKeepsLost(Run(before), more[|more| - 1], j);
    }
  }

  // In every run, a queued job has a continuation in which it is processed if and only if its target
  // is claimable now.
  lemma QueuedJobRunsIffClaimable(events: seq<Event>, j: Id)
    requires j in Run(events).jobs && Run(events).jobs[j].status == Queued
    ensures (exists more :: JobRunning(Run(events + more), j)) <==> Claimable(Run(events), Run(events).jobs[j].target)
  {
    if Claimable(Run(events), Run(events).jobs[j].target) {
      var m, wait := QueuedJobCanBeClaimed(events, j, 1.0);
      StepAfter(events, ETick(wait));
      StepAfter(events + [ETick(wait)], EReadAndClaim(m, 1.0));
      assert events + [ETick(wait)] + [EReadAndClaim(m, 1.0)] == events + [ETick(wait), EReadAndClaim(m, 1.0)];
      assert JobRunning(Run(events + [ETick(wait), EReadAndClaim(m, 1.0)]), j);
    } else {
      forall more ensures !JobRunning(Run(events + more), j) {
        LostForGood(events, more, j);
      }
    }
  }

  // ---- what a retry can come to --------------------------------------------------------------

  // An accepted retry leads to a job that can run if and only if the row is still claimable: a reply
  // whose room has ended, or a configuration whose document was replaced, is renewed for nothing.
  lemma RetriedJobRunsIffClaimable(events: seq<Event>, t: Id)
    requires t in Run(events).targets && UserRetryable(Run(events).targets[t])
    ensures var j := Run(events).nextId; var retried := events + [EUserRetry(t)];
            && j in Run(retried).jobs && Run(retried).jobs[j].status == Queued && Run(retried).jobs[j].target == t
            && ((exists more :: JobRunning(Run(retried + more), j)) <==> Run(events).targets[t].claimable)
  {
    NoRetryMeetsAnActiveJob(events, t);
    StepAfter(events, EUserRetry(t));
    assert Run(events + [EUserRetry(t)]) == Enqueue(Renew(Run(events), t), t);
    QueuedJobRunsIffClaimable(events + [EUserRetry(t)], Run(events).nextId);
  }

  // A queued job no claim accepts
  predicate Stuck(s: State, j: Id) {
    j in s.jobs && s.jobs[j].status == Queued && !Claimable(s, s.jobs[j].target)
  }

  predicate EndsJobOf(e: Event, t: Id) {
    e == EDelete(t) || (e.ECancelAnalysis? && e.target == t)
  }

  ghost predicate StillQueued(s: State, r: State, j: Id)
    requires j in s.jobs
  {
    j in r.jobs && r.jobs[j].target == s.jobs[j].target
        && (s.jobs[j].status == Queued ==> r.jobs[j].status != Cancelled)
  }

  lemma {:induction false} PublishingEndsNothing(s: State, specs: seq<Spec>, j: Id)
    requires j in s.jobs && j < s.nextId
    ensures j in PublishAll(s, specs).jobs && PublishAll(s, specs).jobs[j] == s.jobs[j]
    decreases |specs|
  {
    if specs != [] {
      PublishingEndsNothing(Publish(s, specs[0]), specs[1..], j);
    }
  }

  lemma CompleteEndsNothing(s: State, h: Id, outcome: TargetStatus, spawned: seq<Spec>, j: Id)
    requires h in s.holds && j in s.jobs && j < s.nextId
    ensures StillQueued(s, Complete(s, h, outcome, spawned), j)
  {
    if CompleteCommits(s, h, outcome) {
      var completed := Drop(Discard(Completed(s, s.holds[h], outcome), s.holds[h].message), h);
      PublishingEndsNothing(completed, if s.holds[h].kind == ConversationText then spawned else [], j);
    }
  }

  lemma {:induction false} ReapingEndsNothing(s: State, queue: QueueName, js: seq<Id>, j: Id)
    requires j in s.jobs
    ensures j in ReapAll(s, queue, js).jobs && ReapAll(s, queue, js).jobs[j].target == s.jobs[j].target
    ensures s.jobs[j].status != Processing ==> ReapAll(s, queue, js).jobs[j] == s.jobs[j]
    decreases |js|
  {
    if js != [] {
      ReapingEndsNothing(ReapOne(s, queue, js[0]), queue, js[1..], j);
    }
  }

  lemma FailureEndsNothing(s: State, h: Id, failure: ProviderFailure, jitter: real, j: Id)
    requires h in s.holds && j in s.jobs
    ensures StillQueued(s, HandleFailure(s, h, failure, jitter), j)
  {
  }

  lemma OthersEndNothing(s: State, e: Event, j: Id)
    requires Enabled(s, e) && !e.EComplete? && !e.EReap? && !e.EProviderFailure? && j in s.jobs && j < s.nextId
    requires !EndsJobOf(e, s.jobs[j].target)
    ensures StillQueued(s, Apply(s, e), j)
  {
  }

  lemma StepEndsNothing(s: State, e: Event, j: Id)
    requires WellFormed(s) && j in s.jobs && !EndsJobOf(e, s.jobs[j].target)
    ensures StillQueued(s, Step(s, e), j)
  {
    if Enabled(s, e) {
      if e.EComplete? {
        CompleteEndsNothing(s, e.hold, e.outcome, e.spawned, j);
      } else if e.EProviderFailure? {
        FailureEndsNothing(s, e.hold, e.failure, e.jitter, j);
      } else if e.EReap? {
        ReapingEndsNothing(s, e.queue, e.expired, j);
      } else {
        OthersEndNothing(s, e, j);
      }
    }
  }

  // It stays queued for good, and bars every retry of its row, until the row or its document is
  // deleted or replaced.
  lemma {:induction false} StuckForGood(events: seq<Event>, more: seq<Event>, j: Id)
    requires Stuck(Run(events), j)
    requires forall e | e in more :: !EndsJobOf(e, Run(events).jobs[j].target)
    ensures var s := Run(events + more); var t := Run(events).jobs[j].target;
            Stuck(s, j) && s.jobs[j].target == t && (t in s.targets ==> UserRetry(s, t) == s)
  {
    if more == [] {
      assert events + more == events;
    } else {
      var before := events + more[..|more| - 1];
      var e := more[|more| - 1];
      StuckForGood(events, more[..|more| - 1], j);
      assert events + more == before + [e] && e in more;
      StepAfter(before, e);
      RunKeepsInv(before);
      StepKeepsLost(Run(before), e, j);
      StepEndsNothing(Run(before), e, j);
      StepMovesJobs(before, e, j);
    }
    assert HasActiveJob(Run(events + more), Run(events).jobs[j].target);
  }

  // ---- expired feedback ----------------------------------------------------------------------

  // What the reaper leaves of an expired job whose row still waits: failed, unless it is feedback with
  // attempts left. That is queued again with thirty seconds from its next attempt, under a token nobody
  // has, and with a message for that moment.
  ghost predicate ReapedRight(s: State, r: State, j: Id)
    requires j in s.jobs && s.jobs[j].target in s.targets
  {
    var job := s.jobs[j];
    && j in r.jobs && job.target in r.targets
    && if job.kind == TurnFeedback && job.attempts < 3 then
         var at := After(s.now, BackoffSeconds(job.attempts));
         && r.jobs[j] == job.(status := Queued, nextAttempt := Some(at), deadline := After(at, 30.0))
         && (exists token: nat :: token >= s.nextToken
                                  && r.targets[job.target] == s.targets[job.target].(token := token))
         && (exists w :: w in r.messages && r.messages[w] == Message(EvaluationQueue, j, at))
       else
         && r.jobs[j] == job.(status := Failed)
         && r.targets[job.target] == s.targets[job.target].(status := TFailed)
  }

  lemma ReapOneIsRight(s: State, queue: QueueName, j: Id)
    requires Expired(s, queue, j) && Claimed(s, s.jobs[j].target)
    ensures ReapedRight(s, ReapOne(s, queue, j), j)
  {
    var r := ReapOne(s, queue, j);
    if ReaperRequeues(s, j) {
      var at := After(s.now, BackoffSeconds(s.jobs[j].attempts));
      assert s.nextId in r.messages && r.messages[s.nextId] == Message(QueueOf(s.jobs[j].kind), j, at);
      assert r.targets[s.jobs[j].target] == s.targets[s.jobs[j].target].(token := s.nextToken);
    }
  }

  lemma RightStays(s: State, r: State, t: State, j: Id)
    requires j in s.jobs && s.jobs[j].target in s.targets && ReapedRight(s, r, j) && SameJobAndRow(r, t, j)
    requires PassedBy(r, t) && r.jobs[j].target == s.jobs[j].target
    ensures ReapedRight(s, t, j)
  {
  }

  lemma RightBefore(s: State, q: State, r: State, j: Id)
    requires j in s.jobs && s.jobs[j].target in s.targets && SameJobAndRow(s, q, j) && s.nextToken <= q.nextToken
    requires ReapedRight(q, r, j)
    ensures ReapedRight(s, r, j)
  {
  }

  lemma {:induction false} ReapAllIsRight(s: State, queue: QueueName, js: seq<Id>, j: Id)
    requires Expired(s, queue, j) && Claimed(s, s.jobs[j].target) && Alone(s, j) && j in js
    requires forall w | w in s.messages :: w < s.nextId
    ensures ReapedRight(s, ReapAll(s, queue, js), j)
    decreases |js|
  {
    var next := ReapOne(s, queue, js[0]);
    PassOne(s, queue, js[0]);
    if js[0] == j {
      ReapOneIsRight(s, queue, j);
      ReapOneReaps(s, queue, j);
      ReapAllLeavesOthers(next, queue, js[1..], j);
      PassAll(next, queue, js[1..]);
      RightStays(s, next, ReapAll(s, queue, js), j);
    } else {
      ReapOneLeavesOthers(s, queue, js[0], j);
      TokensGrow(s, queue, js[0]);
      ReapAllIsRight(next, queue, js[1..], j);
      RightBefore(s, next, ReapAll(s, queue, js), j);
    }
  }

  lemma TokensGrow(s: State, queue: QueueName, x: Id)
    ensures s.nextToken <= ReapOne(s, queue, x).nextToken
  {
  }

  // In every run, a pass that commits leaves each of its expired jobs whose row waits so.
  lemma ReaperTreatsRight(events: seq<Event>, queue: QueueName, js: seq<Id>, j: Id)
    requires j in js && Expired(Run(events), queue, j) && ReapCommits(Run(events), queue, js)
    requires Claimed(Run(events), Run(events).jobs[j].target)
    ensures ReapedRight(Run(events), Step(Run(events), EReap(queue, js)), j)
  {
    RunKeepsInv(events);
    AloneWhileRunning(Run(events), j);
    ReapAllIsRight(Run(events), queue, js, j);
    StepReaps(Run(events), queue, js);
  }

  // The wait is one second after the first attempt and two after the second.
  lemma WaitIs(events: seq<Event>, j: Id)
    requires JobRunning(Run(events), j) && Run(events).jobs[j].attempts < 3
    ensures BackoffSeconds(Run(events).jobs[j].attempts) == if Run(events).jobs[j].attempts == 1 then 1.0 else 2.0
  {
    RunKeepsInv(events);
    assert Power2(0) == 1.0 && Power2(1) == 2.0;
  }

  // And a claim of the job when it becomes due can be executed: there is time left.
  lemma RequeuedFeedbackRunsInTime(events: seq<Event>, queue: QueueName, js: seq<Id>, j: Id, timeout: real)
    returns (m: Id, wait: real)
    requires j in js && Expired(Run(events), queue, j) && ReapCommits(Run(events), queue, js) && timeout > 0.0
    requires Run(events).jobs[j].kind == TurnFeedback && Run(events).jobs[j].attempts < 3
    requires Claimable(Run(events), Run(events).jobs[j].target)
    ensures var s := Run(events);
            && wait == BackoffSeconds(s.jobs[j].attempts)
            && var due := Run(events + [EReap(queue, js)] + [ETick(wait)]);
               Visible(due, m, timeout) && Servable(due, m) && due.messages[m].job == j
               && Enabled(ReadAndClaim(due, m, timeout), EExecute(due.nextId))
  {
    var s := Run(events);
    var at := After(s.now, BackoffSeconds(s.jobs[j].attempts));
    wait := BackoffSeconds(s.jobs[j].attempts);
    ReaperTreatsRight(events, queue, js, j);
    StepAfter(events, EReap(queue, js));
    var r := Run(events + [EReap(queue, js)]);
    m :| m in r.messages && r.messages[m] == Message(EvaluationQueue, j, at);
    StepAfter(events + [EReap(queue, js)], ETick(wait));
    PowerIsPositive(if s.jobs[j].attempts == 0 then 0 else s.jobs[j].attempts - 1);
    TimeOfPass(s, queue, js);
    DueIsServed(r, m, j, wait, timeout);
  }

  lemma TimeOfPass(s: State, queue: QueueName, js: seq<Id>)
    requires ReapCommits(s, queue, js)
    ensures Step(s, EReap(queue, js)).now == s.now
  {
    KeepsTime(s, queue, js);
  }

  lemma {:induction false} KeepsTime(s: State, queue: QueueName, js: seq<Id>)
    ensures ReapAll(s, queue, js).now == s.now
    decreases |js|
  {
    if js != [] {
      KeepsTime(ReapOne(s, queue, js[0]), queue, js[1..]);
    }
  }

  lemma DueIsServed(r: State, m: Id, j: Id, wait: real, timeout: real)
    requires m in r.messages && r.messages[m] == Message(EvaluationQueue, j, After(r.now, wait))
    requires wait >= 0.0 && timeout > 0.0
    requires j in r.jobs && r.jobs[j].kind == TurnFeedback && r.jobs[j].status == Queued
    requires Claimable(r, r.jobs[j].target)
    requires r.jobs[j].nextAttempt == Some(After(r.now, wait)) && r.jobs[j].deadline == After(After(r.now, wait), 30.0)
    ensures var due := Step(r, ETick(wait));
            Visible(due, m, timeout) && Servable(due, m) && due.messages[m].job == j
            && Enabled(ReadAndClaim(due, m, timeout), EExecute(due.nextId))
  {
    var due := Step(r, ETick(wait));
    assert due.now == After(r.now, wait);
    ClaimWorks(due, m, timeout);
  }
}
