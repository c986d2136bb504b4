// When a reaper pass commits, and what becomes of a queue when it cannot: deleting a document
// invalidates a configuration under its running job, and no pass can settle that job any more.
module QueueJam {
  import opened Jobs
  import opened QueueModel
  import opened QueueInvariant
  import opened QueueRuns

  // An expired job that the reaper could only fail beside a row that is not failed
  predicate Jams(s: State, queue: QueueName, j: Id) {
    && Expired(s, queue, j) && s.jobs[j].target in s.targets
    && s.targets[s.jobs[j].target].status != TProcessing && s.targets[s.jobs[j].target].status != TFailed
  }

  // ---- one pass over many jobs ---------------------------------------------------------------

  ghost predicate Alone(s: State, j: Id)
    requires j in s.jobs
  {
    forall i :: JobRunning(s, i) && i != j ==> s.jobs[i].target != s.jobs[j].target
  }

  ghost predicate SameJobAndRow(s: State, r: State, j: Id)
    requires j in s.jobs && s.jobs[j].target in s.targets
  {
    && j in r.jobs && r.jobs[j] == s.jobs[j]
    && s.jobs[j].target in r.targets && r.targets[s.jobs[j].target] == s.targets[s.jobs[j].target]
    && r.now == s.now
  }

  lemma ReapOneLeavesOthers(s: State, queue: QueueName, x: Id, j: Id)
    requires j in s.jobs && s.jobs[j].target in s.targets && Alone(s, j)
    requires x != j || !Expired(s, queue, j)
    ensures SameJobAndRow(s, ReapOne(s, queue, x), j) && Alone(ReapOne(s, queue, x), j)
  {
  }

  lemma {:induction false} ReapAllLeavesOthers(s: State, queue: QueueName, js: seq<Id>, j: Id)
    requires j in s.jobs && s.jobs[j].target in s.targets && Alone(s, j)
    requires j !in js || !Expired(s, queue, j)
    ensures SameJobAndRow(s, ReapAll(s, queue, js), j)
    decreases |js|
  {
    if js != [] {
      ReapOneLeavesOthers(s, queue, js[0], j);
      ReapAllLeavesOthers(ReapOne(s, queue, js[0]), queue, js[1..], j);
    }
  }

  // What the reaper makes of one job: it leaves processing, and fits its row unless it jams.
  ghost predicate Reaped(s: State, r: State, j: Id)
    requires j in s.jobs
  {
    && j in r.jobs
    && (r.jobs[j].status == Failed || (s.jobs[j].kind == TurnFeedback && r.jobs[j].status == Queued))
    && (RowFits(r, j) <==> !(s.jobs[j].target in s.targets && s.targets[s.jobs[j].target].status != TProcessing
                             && s.targets[s.jobs[j].target].status != TFailed))
  }

  lemma ReapOneReaps(s: State, queue: QueueName, j: Id)
    requires Expired(s, queue, j) && s.jobs[j].target in s.targets && Alone(s, j)
    ensures var r := ReapOne(s, queue, j);
            Reaped(s, r, j) && !JobRunning(r, j) && r.jobs[j].target == s.jobs[j].target
            && s.jobs[j].target in r.targets && Alone(r, j)
  {
  }

  lemma {:induction false} ReapAllReaps(s: State, queue: QueueName, js: seq<Id>, j: Id)
    requires Expired(s, queue, j) && s.jobs[j].target in s.targets && Alone(s, j) && j in js
    ensures Reaped(s, ReapAll(s, queue, js), j)
    decreases |js|
  {
    var next := ReapOne(s, queue, js[0]);
    if js[0] == j {
      ReapOneReaps(s, queue, j);
      ReapAllLeavesOthers(next, queue, js[1..], j);
    } else {
      ReapOneLeavesOthers(s, queue, js[0], j);
      ReapAllReaps(next, queue, js[1..], j);
    }
  }

  lemma AloneWhileRunning(s: State, j: Id)
    requires Inv(s) && JobRunning(s, j)
    ensures s.jobs[j].target in s.targets && Alone(s, j)
  {
  }

  // A pass commits if and only if none of its jobs jams it.
  lemma PassCommits(s: State, queue: QueueName, js: seq<Id>)
    requires Inv(s)
    ensures ReapCommits(s, queue, js) <==> forall j | j in js :: !Jams(s, queue, j)
  {
    forall j | j in js && Expired(s, queue, j)
      ensures Reaped(s, ReapAll(s, queue, js), j) && s.jobs[j].target in s.targets
    {
      AloneWhileRunning(s, j);
      ReapAllReaps(s, queue, js, j);
    }
  }

  predicate Jammed(s: State, queue: QueueName) {
    exists j | j in s.jobs :: Jams(s, queue, j)
  }

  // A pass over all expired jobs commits if and only if the queue is not jammed.
  lemma FullPassCommits(s: State, queue: QueueName, js: seq<Id>)
    requires forall j :: j in js <==> JobRunning(s, j) && s.jobs[j].deadline <= s.now
    ensures Inv(s) ==> (ReapCommits(s, queue, js) <==> !Jammed(s, queue))
  {
    if Inv(s) {
      PassCommits(s, queue, js);
    }
  }

  // In every run, a pass of the reaper over any list of jobs commits if and only if no expired job of
  // its queue in the list has a row that is neither processing nor failed, which only configurations
  // have; and then every expired one leaves processing.
  lemma ReaperCommitsIffNothingJams(events: seq<Event>, queue: QueueName, js: seq<Id>)
    ensures var s := Run(events);
            && (ReapCommits(s, queue, js) <==> forall j | j in js :: !Jams(s, queue, j))
            && (forall j | Jams(s, queue, j) :: s.jobs[j].kind == ConfigurationGeneration)
  {
    RunKeepsInv(events);
    PassCommits(Run(events), queue, js);
  }

  lemma PassReaps(s: State, queue: QueueName, js: seq<Id>, j: Id)
    requires Inv(s) && j in js && Expired(s, queue, j) && forall i | i in js :: !Jams(s, queue, i)
    ensures Reaped(s, Reap(s, queue, js), j)
  {
    PassCommits(s, queue, js);
    AloneWhileRunning(s, j);
    ReapAllReaps(s, queue, js, j);
  }

  // Once its deadline has passed, a pass without a jam takes a job out of processing.
  lemma ExpiredJobIsReaped(events: seq<Event>, queue: QueueName, js: seq<Id>, j: Id)
    requires j in js && Expired(Run(events), queue, j) && forall i | i in js :: !Jams(Run(events), queue, i)
    ensures var s := Run(events); var r := Step(s, EReap(queue, js));
            j in r.jobs
              && (r.jobs[j].status == Failed || (s.jobs[j].kind == TurnFeedback && r.jobs[j].status == Queued))
  {
    RunKeepsInv(events);
    PassReaps(Run(events), queue, js, j);
    StepReaps(Run(events), queue, js);
  }

  lemma StepReaps(s: State, queue: QueueName, js: seq<Id>)
    ensures Step(s, EReap(queue, js)) == Reap(s, queue, js)
  {
  }

  // ---- how a job comes to jam its queue ------------------------------------------------------

  // A job in processing whose row has been invalidated
  predicate Doomed(s: State, j: Id) {
    && JobRunning(s, j) && s.jobs[j].target in s.targets
    && s.targets[s.jobs[j].target].status == TUnavailable
  }

  predicate Reports(e: Event) {
    e.EComplete? || e.EProviderFailure? || e.EDeadlinePassed? || e.EMarkRepair?
  }

  predicate Moves(e: Event) {
    e.EPublish? || e.ERead? || e.EReadAndClaim? || e.EExecute? || e.EExecuteRepair? || e.ECrash? || e.ETick?
  }

  // How one step treats a running job and its row, short of deleting them
  ghost predicate Held(s: State, r: State, j: Id)
    requires j in s.jobs && s.jobs[j].target in s.targets
  {
    && JobRunning(r, j) && r.jobs[j].target == s.jobs[j].target && r.jobs[j].deadline == s.jobs[j].deadline
    && s.jobs[j].target in r.targets && r.targets[s.jobs[j].target].status == s.targets[s.jobs[j].target].status
    && r.jobs[j].kind == s.jobs[j].kind
  }

  ghost predicate Settled(s: State, j: Id)
    requires j in s.jobs
  {
    s.jobs[j].target in s.targets && j < s.nextId && s.jobs[j].target < s.nextId
  }

  lemma MovesHold(s: State, e: Event, j: Id)
    requires Enabled(s, e) && Moves(e) && JobRunning(s, j) && Settled(s, j)
    ensures Held(s, Apply(s, e), j)
  {
  }

  lemma {:induction false} PublishingHolds(s: State, specs: seq<Spec>, j: Id)
    requires JobRunning(s, j) && s.jobs[j].target in s.targets
    requires j < s.nextId && s.jobs[j].target < s.nextId
    ensures Held(s, PublishAll(s, specs), j)
    decreases |specs|
  {
    if specs != [] {
      PublishingHolds(Publish(s, specs[0]), specs[1..], j);
    }
  }

  lemma CompleteHolds(s: State, h: Id, outcome: TargetStatus, spawned: seq<Spec>, j: Id)
    requires h in s.holds && HoldFits(s, s.holds[h]) && Doomed(s, j) && Settled(s, j)
    ensures Held(s, Complete(s, h, outcome, spawned), j)
  {
    if CompleteCommits(s, h, outcome) {
      var hold := s.holds[h];
      var completed := Drop(Discard(Completed(s, hold, outcome), hold.message), h);
      assert Held(s, completed, j);
      PublishingHolds(completed, if hold.kind == ConversationText then spawned else [], j);
    }
  }

  lemma FailHolds(s: State, h: Id, j: Id)
    requires h in s.holds && HoldFits(s, s.holds[h]) && Doomed(s, j)
    ensures Held(s, Fail(s, h), j)
  {
  }

  lemma RetryHolds(s: State, h: Id, at: real, j: Id)
    requires h in s.holds && HoldFits(s, s.holds[h]) && Doomed(s, j)
    ensures Held(s, Retry(s, h, at), j)
  {
  }

  lemma FailureHolds(s: State, h: Id, failure: ProviderFailure, jitter: real, j: Id)
    requires h in s.holds && HoldFits(s, s.holds[h]) && Doomed(s, j)
    ensures Held(s, HandleFailure(s, h, failure, jitter), j)
  {
    var decision := Decide(s.holds[h].attempt, s.holds[h].deadline, s.now, failure, jitter);
    if decision.Some? {
      RetryHolds(s, h, After(s.now, decision.value), j);
    } else {
      FailHolds(s, h, j);
    }
  }

  lemma ReportsHold(s: State, e: Event, j: Id)
    requires Enabled(s, e) && Reports(e) && HoldsFit(s) && Doomed(s, j) && Settled(s, j)
    ensures Held(s, Apply(s, e), j)
  {
    match e
    case EComplete(h, outcome, spawned) => CompleteHolds(s, h, outcome, spawned, j);
    case EProviderFailure(h, failure, jitter) => FailureHolds(s, h, failure, jitter, j);
    case EDeadlinePassed(h) => FailHolds(s, h, j);
    case EMarkRepair(h) =>
  }

  lemma ReapHolds(s: State, queue: QueueName, js: seq<Id>, j: Id)
    requires Inv(s) && Doomed(s, j)
    ensures Held(s, Reap(s, queue, js), j)
  {
    AloneWhileRunning(s, j);
    if j in js && Expired(s, queue, j) {
      ReapAllReaps(s, queue, js, j);
    } else {
      ReapAllLeavesOthers(s, queue, js, j);
    }
  }

  lemma EndpointsHold(s: State, e: Event, j: Id)
    requires Enabled(s, e) && !Moves(e) && !Reports(e) && !e.EReap? && !e.EDelete?
    requires Doomed(s, j) && s.targets[s.jobs[j].target].kind == ConfigurationGeneration && Settled(s, j)
    ensures Held(s, Apply(s, e), j)
  {
    assert HasActiveJob(s, s.jobs[j].target);
  }

  lemma DoomedIsConfiguration(s: State, j: Id)
    requires Inv(s) && Doomed(s, j)
    ensures s.targets[s.jobs[j].target].kind == s.jobs[j].kind == ConfigurationGeneration && Settled(s, j)
  {
  }

  // A doomed job stays in processing, whatever its worker, the reaper or anybody does, until its row
  // is deleted.
  lemma DoomedStays(s: State, e: Event, j: Id)
    requires Inv(s) && Doomed(s, j)
    ensures if e == EDelete(s.jobs[j].target) then j !in Step(s, e).jobs else Held(s, Step(s, e), j)
  {
    DoomedIsConfiguration(s, j);
    if Enabled(s, e) {
      ApplyHolds(s, e, j);
    }
  }

  lemma DeletionHolds(s: State, t: Id, j: Id)
    requires Doomed(s, j)
    ensures if t == s.jobs[j].target then j !in DeleteTarget(s, t).jobs else Held(s, DeleteTarget(s, t), j)
  {
  }

  lemma ApplyHolds(s: State, e: Event, j: Id)
    requires Inv(s) && Enabled(s, e) && Doomed(s, j) && Settled(s, j)
    requires s.targets[s.jobs[j].target].kind == ConfigurationGeneration
    ensures if e == EDelete(s.jobs[j].target) then j !in Apply(s, e).jobs else Held(s, Apply(s, e), j)
  {
    if Moves(e) {
      MovesHold(s, e, j);
    } else if Reports(e) {
      ReportsHold(s, e, j);
    } else if e.EReap? {
      ReapHolds(s, e.queue, e.expired, j);
    } else if e.EDelete? {
      DeletionHolds(s, e.target, j);
    } else {
      EndpointsHold(s, e, j);
    }
  }

  // ---- and nothing else dooms a job ----------------------------------------------------------

  // Where a job runs beside an unavailable row, it did so before.
  ghost predicate NothingDooms(s: State, r: State, j: Id) {
    Doomed(r, j) ==> Doomed(s, j) && r.jobs[j].target == s.jobs[j].target
  }

  lemma MovesDoomNothing(s: State, e: Event, j: Id)
    requires Enabled(s, e) && Moves(e) && Shape(s)
    ensures NothingDooms(s, Apply(s, e), j)
  {
  }

  lemma {:induction false} PublishingDoomsNothing(s: State, specs: seq<Spec>, j: Id)
    requires forall i :: i in s.jobs ==> i < s.nextId && s.jobs[i].target < s.nextId
    ensures NothingDooms(s, PublishAll(s, specs), j)
    decreases |specs|
  {
    if specs != [] {
      PublishingDoomsNothing(Publish(s, specs[0]), specs[1..], j);
    }
  }

  lemma CompleteDoomsNothing(s: State, h: Id, outcome: TargetStatus, spawned: seq<Spec>, j: Id)
    requires h in s.holds && Shape(s)
    ensures NothingDooms(s, Complete(s, h, outcome, spawned), j)
  {
    if CompleteCommits(s, h, outcome) {
      var hold := s.holds[h];
      assert HoldFits(s, hold);
      var completed := Drop(Discard(Completed(s, hold, outcome), hold.message), h);
      assert NothingDooms(s, completed, j);
      PublishingDoomsNothing(completed, if hold.kind == ConversationText then spawned else [], j);
    }
  }

  lemma FailDoomsNothing(s: State, h: Id, j: Id)
    requires h in s.holds
    ensures NothingDooms(s, Fail(s, h), j)
  {
  }

  lemma RetryDoomsNothing(s: State, h: Id, at: real, j: Id)
    requires h in s.holds
    ensures NothingDooms(s, Retry(s, h, at), j)
  {
  }

  lemma FailureDoomsNothing(s: State, h: Id, failure: ProviderFailure, jitter: real, j: Id)
    requires h in s.holds
    ensures NothingDooms(s, HandleFailure(s, h, failure, jitter), j)
  {
    var decision := Decide(s.holds[h].attempt, s.holds[h].deadline, s.now, failure, jitter);
    if decision.Some? {
      RetryDoomsNothing(s, h, After(s.now, decision.value), j);
    } else {
      FailDoomsNothing(s, h, j);
    }
  }

  lemma {:induction false} ReapDoomsNothing(s: State, queue: QueueName, js: seq<Id>, j: Id)
    ensures NothingDooms(s, ReapAll(s, queue, js), j)
    decreases |js|
  {
    if js != [] {
      ReapOneDoomsNothing(s, queue, js[0], j);
      ReapDoomsNothing(ReapOne(s, queue, js[0]), queue, js[1..], j);
    }
  }

  lemma ReapOneDoomsNothing(s: State, queue: QueueName, x: Id, j: Id)
    ensures NothingDooms(s, ReapOne(s, queue, x), j)
  {
  }

  lemma EndpointsDoomNothing(s: State, e: Event, j: Id)
    requires Enabled(s, e) && !Moves(e) && !Reports(e) && !e.EReap? && !e.EInvalidateConfiguration?
    requires WellFormed(s) && ActiveMeansProcessing(s)
    ensures NothingDooms(s, Apply(s, e), j)
  {
    assert JobRunning(s, j) ==> HasActiveJob(s, s.jobs[j].target);
  }

  // Only the invalidation of its configuration dooms a job,
  lemma OnlyInvalidationDooms(s: State, e: Event, j: Id)
    requires Inv(s) && Doomed(Step(s, e), j) && !Doomed(s, j)
    ensures e.EInvalidateConfiguration? && JobRunning(s, j) && s.jobs[j].target == e.target
  {
    if Moves(e) {
      MovesDoomNothing(s, e, j);
    } else if e.EComplete? {
      CompleteDoomsNothing(s, e.hold, e.outcome, e.spawned, j);
    } else if e.EProviderFailure? {
      FailureDoomsNothing(s, e.hold, e.failure, e.jitter, j);
    } else if e.EDeadlinePassed? {
      FailDoomsNothing(s, e.hold, j);
    } else if e.EReap? {
      ReapDoomsNothing(s, e.queue, e.expired, j);
    } else if !e.EMarkRepair? && !e.EInvalidateConfiguration? {
      EndpointsDoomNothing(s, e, j);
    }
  }

  // and it does whenever the job is being processed.
  lemma InvalidationDooms(s: State, t: Id, j: Id)
    requires Inv(s) && OfKind(s, t, ConfigurationGeneration) && JobRunning(s, j) && s.jobs[j].target == t
    ensures Doomed(Step(s, EInvalidateConfiguration(t)), j)
  {
    assert HasActiveJob(s, t);
  }

  // ---- over every run ------------------------------------------------------------------------

  ghost predicate InvalidatedWhileRunning(events: seq<Event>, t: Id, j: Id) {
    exists k: nat | k < |events| :: events[k] == EInvalidateConfiguration(t) && JobRunning(Run(events[..k]), j)
  }

  lemma InvalidatedBefore(events: seq<Event>, t: Id, j: Id)
    requires events != [] && InvalidatedWhileRunning(events[..|events| - 1], t, j)
    ensures InvalidatedWhileRunning(events, t, j)
  {
    var before := events[..|events| - 1];
    var k: nat :| k < |before| && before[k] == EInvalidateConfiguration(t) && JobRunning(Run(before[..k]), j);
    assert events[k] == before[k] && events[..k] == before[..k];
  }

  lemma DoomedByThisStep(s: State, e: Event, j: Id)
    requires Inv(s) && Doomed(Step(s, e), j)
    ensures || (Doomed(s, j) && s.jobs[j].target == Step(s, e).jobs[j].target)
            || (e == EInvalidateConfiguration(Step(s, e).jobs[j].target) && JobRunning(s, j))
  {
    if Doomed(s, j) {
      DoomedStays(s, e, j);
    } else {
      OnlyInvalidationDooms(s, e, j);
    }
  }

  // A job is only ever doomed by the invalidation of its configuration while it was being processed;
  lemma {:induction false} DoomHasItsCause(events: seq<Event>, j: Id)
    requires Doomed(Run(events), j)
    ensures InvalidatedWhileRunning(events, Run(events).jobs[j].target, j)
  {
    var before := events[..|events| - 1];
    RunKeepsInv(before);
    DoomedByThisStep(Run(before), events[|events| - 1], j);
    if Doomed(Run(before), j) {
      DoomHasItsCause(before, j);
      if Run(before).jobs[j].target == Run(events).jobs[j].target {
        InvalidatedBefore(events, Run(events).jobs[j].target, j);
        return;
      }
    }
    assert events[..|before|] == before;
  }

  // so that this is what every jam of a queue goes back to.
  lemma JamHasItsCause(events: seq<Event>, queue: QueueName, j: Id)
    requires Jams(Run(events), queue, j)
    ensures InvalidatedWhileRunning(events, Run(events).jobs[j].target, j)
  {
    RunKeepsInv(events);
    DoomHasItsCause(events, j);
  }

  lemma StepAfter(events: seq<Event>, e: Event)
    ensures Run(events + [e]) == Step(Run(events), e)
  {
    assert (events + [e])[..|events|] == events;
  }

  lemma {:induction false} DoomedForGood(events: seq<Event>, more: seq<Event>, j: Id)
    requires Doomed(Run(events), j) && EDelete(Run(events).jobs[j].target) !in more
    ensures Held(Run(events), Run(events + more), j)
  {
    if more == [] {
      assert events + more == events;
    } else {
      var before := events + more[..|more| - 1];
      DoomedForGood(events, more[..|more| - 1], j);
      assert events + more == before + [more[|more| - 1]];
      StepAfter(before, more[|more| - 1]);
      RunKeepsInv(before);
      DoomedStays(Run(before), more[|more| - 1], j);
    }
  }

  lemma ExpiredAndDoomedJams(s: State, j: Id, js: seq<Id>)
    requires Inv(s) && Doomed(s, j) && s.jobs[j].deadline <= s.now
    ensures Jams(s, DocumentQueue, j)
    ensures j in js ==> Step(s, EReap(DocumentQueue, js)) == s
  {
    DoomedIsConfiguration(s, j);
    PassCommits(s, DocumentQueue, js);
    StepReaps(s, DocumentQueue, js);
  }

  // A document deleted under a configuration job in processing jams the queue of that job: from its
  // deadline on, no pass that includes the job settles anything, in every continuation in which the
  // configuration itself is not deleted.
  lemma InvalidatedUnderItsJobJams(events: seq<Event>, t: Id, j: Id, more: seq<Event>, js: seq<Id>)
    requires OfKind(Run(events), t, ConfigurationGeneration)
    requires JobRunning(Run(events), j) && Run(events).jobs[j].target == t && EDelete(t) !in more
    ensures var s := Run(events + [EInvalidateConfiguration(t)] + more);
            && JobRunning(s, j)
            && (s.jobs[j].deadline <= s.now ==> Jams(s, DocumentQueue, j))
            && (s.jobs[j].deadline <= s.now && j in js ==> Step(s, EReap(DocumentQueue, js)) == s)
  {
    var events' := events + [EInvalidateConfiguration(t)];
    StepAfter(events, EInvalidateConfiguration(t));
    RunKeepsInv(events);
    InvalidationDooms(Run(events), t, j);
    var doomed := Run(events');
    assert doomed.jobs[j].target == t by {
      assert Step(Run(events), EInvalidateConfiguration(t)).jobs == Run(events).jobs;
    }
    DoomedForGood(events', more, j);
    RunKeepsInv(events' + more);
    if Run(events' + more).jobs[j].deadline <= Run(events' + more).now {
      ExpiredAndDoomedJams(Run(events' + more), j, js);
    }
  }

  // ---- a run in which it happens -------------------------------------------------------------

  const PUBLISHED := [EPublish(Spec(ConfigurationGeneration, true))] + [EPublish(Spec(DocumentAnalysis, true))]
  const CLAIMED := PUBLISHED + [EReadAndClaim(2, 600.0)] + [EReadAndClaim(5, 600.0)]
  const JAM := CLAIMED + [EInvalidateConfiguration(0)] + [ETick(180.0)]

  lemma TwoPublished()
    ensures var s := Run(PUBLISHED);
            && s.jobs == map[1 := Job(ConfigurationGeneration, 0, Queued, 0, 0, None, 180.0),
                             4 := Job(DocumentAnalysis, 3, Queued, 0, 0, None, 60.0)]
            && s.targets == map[0 := Target(ConfigurationGeneration, TProcessing, 1, true),
                                3 := Target(DocumentAnalysis, TProcessing, 2, true)]
            && s.messages == map[2 := Message(DocumentQueue, 1, 0.0), 5 := Message(DocumentQueue, 4, 0.0)]
            && s.now == 0.0
  {
    var e := [EPublish(Spec(ConfigurationGeneration, true))];
    assert e[..0] == [];
    var s := Run(e);
    assert s.jobs == map[1 := Job(ConfigurationGeneration, 0, Queued, 0, 0, None, 180.0)];
    assert s.targets == map[0 := Target(ConfigurationGeneration, TProcessing, 1, true)];
    assert s.messages == map[2 := Message(DocumentQueue, 1, 0.0)] && s.nextId == 3;
    StepAfter(e, EPublish(Spec(DocumentAnalysis, true)));
  }

  lemma ClaimedBySomebody(s: State, m: Id, other: Id)
    requires Visible(s, m, 600.0) && ClaimAllowed(s, s.messages[m].queue, s.messages[m].job)
    ensures var r := Step(s, EReadAndClaim(m, 600.0)); var j := s.messages[m].job;
            && j in r.jobs
            && r.jobs[j] == s.jobs[j].(status := Processing, attempts := s.jobs[j].attempts + 1, nextAttempt := None)
            && (forall i | i in s.jobs && i != j :: i in r.jobs && r.jobs[i] == s.jobs[i])
            && r.targets == s.targets && r.now == s.now
            && (other in s.messages && other != m ==> other in r.messages && r.messages[other] == s.messages[other])
  {
  }

  lemma BothClaimed()
    ensures var s := Run(CLAIMED);
            && 1 in s.jobs && s.jobs[1] == Job(ConfigurationGeneration, 0, Processing, 1, 0, None, 180.0)
            && 4 in s.jobs && s.jobs[4] == Job(DocumentAnalysis, 3, Processing, 1, 0, None, 60.0)
            && s.targets == Run(PUBLISHED).targets && s.now == 0.0
  {
    TwoPublished();
    ClaimedBySomebody(Run(PUBLISHED), 2, 5);
    StepAfter(PUBLISHED, EReadAndClaim(2, 600.0));
    var s := Run(PUBLISHED + [EReadAndClaim(2, 600.0)]);
    ClaimedBySomebody(s, 5, 5);
    StepAfter(PUBLISHED + [EReadAndClaim(2, 600.0)], EReadAndClaim(5, 600.0));
  }

  lemma Invalidated(s: State, elapsed: real)
    requires OfKind(s, 0, ConfigurationGeneration) && s.targets[0].status == TProcessing && elapsed >= 0.0
    ensures var r := Step(Step(s, EInvalidateConfiguration(0)), ETick(elapsed));
            && r.jobs == s.jobs && r.now == s.now + elapsed
            && r.targets == s.targets[0 := s.targets[0].(status := TUnavailable, claimable := false)]
  {
  }

  lemma DeadlinesPassed()
    ensures var s := Run(JAM);
            && 1 in s.jobs && s.jobs[1] == Job(ConfigurationGeneration, 0, Processing, 1, 0, None, 180.0)
            && 4 in s.jobs && s.jobs[4] == Job(DocumentAnalysis, 3, Processing, 1, 0, None, 60.0)
            && 0 in s.targets && s.targets[0].status == TUnavailable
            && 3 in s.targets && s.targets[3].status == TProcessing && s.now == 180.0
  {
    TwoPublished();
    BothClaimed();
    Invalidated(Run(CLAIMED), 180.0);
    StepAfter(CLAIMED, EInvalidateConfiguration(0));
    StepAfter(CLAIMED + [EInvalidateConfiguration(0)], ETick(180.0));
  }

  lemma PassWithJam(s: State, queue: QueueName, jam: Id, other: Id)
    requires Inv(s) && Jams(s, queue, jam) && Expired(s, queue, other) && !Jams(s, queue, other)
    ensures Step(s, EReap(queue, [jam, other])) == s
    ensures Reaped(s, Step(s, EReap(queue, [other])), other)
  {
    PassCommits(s, queue, [jam, other]);
    StepReaps(s, queue, [jam, other]);
    assert jam in [jam, other] && other in [other];
    PassReaps(s, queue, [other], other);
    StepReaps(s, queue, [other]);
  }

  // A configuration and a document analysis are claimed, a document of the configuration is deleted,
  // and the deadlines pass. The reaper could settle the analysis, but not in one pass with the
  // configuration job, and its passes take all expired jobs.
  lemma OneJobJamsAnother()
    ensures var s := Run(JAM);
            && Jams(s, DocumentQueue, 1) && Expired(s, DocumentQueue, 4)
            && Step(s, EReap(DocumentQueue, [1, 4])) == s
            && Reaped(s, Step(s, EReap(DocumentQueue, [4])), 4)
  {
    DeadlinesPassed();
    RunKeepsInv(JAM);
    PassWithJam(Run(JAM), DocumentQueue, 1, 4);
  }
}
