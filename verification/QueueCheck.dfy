// The deferred check of jobs against their rows, over every run.
module QueueCheck {
  import opened Jobs
  import opened QueueModel
  import opened QueueInvariant
  import opened QueueRuns
  import opened QueueJam

  // ---- the check at commit -------------------------------------------------------------------

  // Every job that a step of any run inserts or updates fits its row afterwards: nothing the model
  // commits is refused by the deferred check.
  ghost predicate Checked(s: State, r: State, j: Id) {
    j in r.jobs && (j in s.jobs ==> r.jobs[j] != s.jobs[j]) ==> RowFits(r, j)
  }

  lemma MovesAreChecked(s: State, e: Event, j: Id)
    requires Enabled(s, e) && Moves(e) && Shape(s)
    ensures Checked(s, Apply(s, e), j)
  {
  }

  lemma {:induction false} PublishingIsChecked(s: State, specs: seq<Spec>, j: Id)
    requires forall i :: i in s.jobs ==> i < s.nextId && s.jobs[i].target < s.nextId
    ensures forall i :: i in s.jobs ==> i in PublishAll(s, specs).jobs && PublishAll(s, specs).jobs[i] == s.jobs[i]
    ensures forall t :: t in s.targets && t < s.nextId ==>
              t in PublishAll(s, specs).targets && PublishAll(s, specs).targets[t] == s.targets[t]
    ensures Checked(s, PublishAll(s, specs), j)
    decreases |specs|
  {
    if specs != [] {
      PublishingIsChecked(Publish(s, specs[0]), specs[1..], j);
    }
  }

  lemma CompleteIsChecked(s: State, h: Id, outcome: TargetStatus, spawned: seq<Spec>, j: Id)
    requires h in s.holds && Shape(s)
    ensures Checked(s, Complete(s, h, outcome, spawned), j)
  {
    if CompleteCommits(s, h, outcome) {
      var hold := s.holds[h];
      assert HoldFits(s, hold);
      var completed := Drop(Discard(Completed(s, hold, outcome), hold.message), h);
      assert Checked(s, completed, j);
      PublishingIsChecked(completed, if hold.kind == ConversationText then spawned else [], j);
    }
  }

  lemma FailIsChecked(s: State, h: Id, j: Id)
    requires h in s.holds
    ensures Checked(s, Fail(s, h), j)
  {
  }

  lemma RetryIsChecked(s: State, h: Id, at: real, j: Id)
    requires h in s.holds
    ensures Checked(s, Retry(s, h, at), j)
  {
  }

  lemma ReapIsChecked(s: State, queue: QueueName, js: seq<Id>, j: Id)
    requires Inv(s)
    ensures Checked(s, Reap(s, queue, js), j)
  {
    if j in s.jobs && s.jobs[j].target in s.targets && (j !in js || !Expired(s, queue, j)) {
      ReapAllSparesUnexpired(s, queue, js, j);
    }
    if j !in s.jobs {
      ReapAllAddsNothing(s, queue, js);
    }
  }

  lemma {:induction false} ReapAllAddsNothing(s: State, queue: QueueName, js: seq<Id>)
    ensures ReapAll(s, queue, js).jobs.Keys == s.jobs.Keys
    decreases |js|
  {
    if js != [] {
      ReapAllAddsNothing(ReapOne(s, queue, js[0]), queue, js[1..]);
    }
  }

  lemma {:induction false} ReapAllSparesUnexpired(s: State, queue: QueueName, js: seq<Id>, j: Id)
    requires j in s.jobs && (j !in js || !Expired(s, queue, j))
    ensures j in ReapAll(s, queue, js).jobs && ReapAll(s, queue, js).jobs[j] == s.jobs[j]
    decreases |js|
  {
    if js != [] {
      ReapAllSparesUnexpired(ReapOne(s, queue, js[0]), queue, js[1..], j);
    }
  }

  lemma EndpointsAreChecked(s: State, e: Event, j: Id)
    requires Enabled(s, e) && !Moves(e) && !Reports(e) && !e.EReap? && Shape(s)
    ensures Checked(s, Apply(s, e), j)
  {
  }

  lemma ApplyIsChecked(s: State, e: Event, j: Id)
    requires Inv(s) && Enabled(s, e)
    ensures Checked(s, Apply(s, e), j)
  {
    if Moves(e) {
      MovesAreChecked(s, e, j);
    } else if Reports(e) {
      match e
      case EComplete(h, outcome, spawned) => CompleteIsChecked(s, h, outcome, spawned, j);
      case EProviderFailure(h, failure, jitter) =>
        var decision := Decide(s.holds[h].attempt, s.holds[h].deadline, s.now, failure, jitter);
        FailIsChecked(s, h, j);
        if decision.Some? {
          RetryIsChecked(s, h, After(s.now, decision.value), j);
        }
      case EDeadlinePassed(h) => FailIsChecked(s, h, j);
      case EMarkRepair(h) =>
    } else if e.EReap? {
      ReapIsChecked(s, e.queue, e.expired, j);
    } else {
      EndpointsAreChecked(s, e, j);
    }
  }

  lemma EveryCommitIsChecked(events: seq<Event>, e: Event, j: Id)
    ensures Checked(Run(events), Step(Run(events), e), j)
  {
    RunKeepsInv(events);
    if Enabled(Run(events), e) {
      ApplyIsChecked(Run(events), e, j);
    }
  }
}
