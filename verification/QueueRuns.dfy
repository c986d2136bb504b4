// Every run of the job protocol keeps the invariant.
module QueueRuns {
  import opened Jobs
  import opened QueueModel
  import opened QueueInvariant

  lemma DropKeepsInv(s: State, h: Id)
    requires Inv(s)
    ensures Inv(Drop(s, h))
  {
    DropShape(s, h);
    DropLedger(s, h);
    DropRuns(s, h);
    DropFencing(s, h);
    SameTablesProgress(s, Drop(s, h));
  }

  lemma DiscardKeepsInv(s: State, m: Id)
    requires Inv(s)
    requires forall j | j in s.jobs && s.jobs[j].status == Queued && Claimable(s, s.jobs[j].target)
        && m in s.messages ::
               !WakesUp(s, m, j)
    ensures Inv(Discard(s, m))
  {
    MessagesTables(s, Discard(s, m));
    MessagesFencing(s, Discard(s, m));
    DiscardProgress(s, m);
  }

  lemma ReadKeepsInv(s: State, m: Id, timeout: real)
    requires Inv(s) && Visible(s, m, timeout)
    ensures Inv(Read(s, m, timeout))
  {
    MessagesTables(s, Read(s, m, timeout));
    MessagesFencing(s, Read(s, m, timeout));
    ReadProgress(s, m, timeout);
  }

  // A refused claim discards a message, but never the one a claimable queued job is waiting for:
  // had that one been visible, the claim would have been granted.
  lemma ClaimKeepsInv(s: State, m: Id)
    requires Inv(s) && m in s.messages && ClaimAllowed(s, s.messages[m].queue, s.messages[m].job)
    ensures Inv(Claim(s, m))
  {
    ClaimShape(s, m);
    ClaimLedger(s, m);
    ClaimRuns(s, m);
    ClaimFencing(s, m);
    ClaimProgress(s, m);
  }

  lemma ReadAndClaimKeepsInv(s: State, m: Id, timeout: real)
    requires Inv(s) && Visible(s, m, timeout)
    ensures Inv(ReadAndClaim(s, m, timeout))
  {
    var read := Read(s, m, timeout);
    ReadKeepsInv(s, m, timeout);
    if ClaimAllowed(read, s.messages[m].queue, s.messages[m].job) {
      ClaimKeepsInv(read, m);
    } else {
      ReadAndDiscarded(s, m, timeout);
      DiscardKeepsInv(s, m);
    }
  }

  lemma ReadAndDiscarded(s: State, m: Id, timeout: real)
    requires m in s.messages
    ensures Discard(Read(s, m, timeout), m) == Discard(s, m)
  {
    assert Discard(Read(s, m, timeout), m).messages == Discard(s, m).messages;
  }

  lemma ExecuteKeepsInv(s: State, h: Id, phase: Phase)
    requires Inv(s) && h in s.holds && h in Pending(s, s.holds[h].job) && (phase == Ran || phase == Reran)
    ensures Inv(Execute(s, h, phase))
  {
    ExecuteShape(s, h, phase);
    ExecuteLedger(s, h, phase);
    ExecuteRuns(s, h, phase);
    ExecuteFencing(s, h, phase);
    SameTablesProgress(s, Execute(s, h, phase));
  }

  lemma MarkRepairKeepsInv(s: State, h: Id)
    requires Inv(s) && h in s.holds && s.holds[h].phase == Ran
    ensures Inv(MarkRepair(s, h))
  {
    if RepairRecorded(s, h) {
      RecordRepairShape(s, h);
      RecordRepairLedger(s, h);
      RecordRepairRuns(s, h);
      RecordRepairFencing(s, h);
      RecordRepairProgress(s, h);
    } else {
      DropKeepsInv(s, h);
    }
  }

  lemma EnqueueKeepsInv(s: State, t: Id)
    requires Tables(s) && Fencing(s) && Progress(s, {t}) && !HasActiveJob(s, t)
    requires t in s.targets && s.targets[t].status == TProcessing
    ensures Inv(Enqueue(s, t))
  {
    EnqueueShape(s, t);
    EnqueueLedger(s, t);
    EnqueueRuns(s, t);
    EnqueueFencing(s, t);
    EnqueueProgress(s, t);
  }

  lemma PublishKeepsInv(s: State, spec: Spec)
    requires Inv(s)
    ensures Inv(Publish(s, spec))
  {
    AddRowKeeps(s, spec);
    EnqueueKeepsInv(AddRow(s, spec), s.nextId);
  }

  lemma {:induction false} PublishAllKeepsInv(s: State, specs: seq<Spec>)
    requires Inv(s)
    ensures Inv(PublishAll(s, specs))
    decreases |specs|
  {
    if specs != [] {
      PublishKeepsInv(s, specs[0]);
      PublishAllKeepsInv(Publish(s, specs[0]), specs[1..]);
    }
  }

  lemma UserRetryKeepsInv(s: State, t: Id)
    requires Inv(s) && t in s.targets
    ensures Inv(UserRetry(s, t))
  {
    if UserRetryable(s.targets[t]) && !HasActiveJob(s, t) {
      RenewShape(s, t);
      RenewAccounts(s, t);
      RenewFencing(s, t);
      RenewProgress(s, t);
      EnqueueKeepsInv(Renew(s, t), t);
    }
  }

  lemma SettleBothFencing(s: State, j: Id, status: JobStatus, row: TargetStatus)
    requires Inv(s) && JobRunning(s, j) && (status == Succeeded || status == Failed) && row != TProcessing
    ensures Fencing(SetTarget(Settle(s, j, status), s.jobs[j].target, row))
  {
    var t := s.jobs[j].target;
    var edited := Edit(s, t, s.targets[t].(status := row));
    EditFencing(s, t, s.targets[t].(status := row));
    EditTables(s, t, s.targets[t].(status := row));
    SettleFencing(edited, j, status);
  }

  // A job and its row end together.
  lemma SettleKeepsInv(s: State, j: Id, status: JobStatus, row: TargetStatus)
    requires Inv(s) && JobRunning(s, j) && (status == Succeeded || status == Failed) && row != TProcessing
    ensures Inv(SetTarget(Settle(s, j, status), s.jobs[j].target, row))
  {
    var settled := Settle(s, j, status);
    var t := s.jobs[j].target;
    SettleShape(s, j, status);
    SettleLedger(s, j, status);
    SettleRuns(s, j, status);
    SettleProgress(s, j, status);
    EditTables(settled, t, settled.targets[t].(status := row));
    SettleBothFencing(s, j, status, row);
    EditProgress(settled, t, settled.targets[t].(status := row), {t});
  }

  // A job ends alone: its row has already left processing.
  lemma SettleAloneKeepsInv(s: State, j: Id, status: JobStatus)
    requires Inv(s) && JobRunning(s, j) && (status == Succeeded || status == Failed)
    requires s.targets[s.jobs[j].target].status != TProcessing
    ensures Inv(Settle(s, j, status))
  {
    var settled := Settle(s, j, status);
    var t := s.jobs[j].target;
    SettleShape(s, j, status);
    SettleLedger(s, j, status);
    SettleRuns(s, j, status);
    SettleFencing(s, j, status);
    SettleProgress(s, j, status);
    LiftExemption(settled, t);
  }

  lemma CompletedKeepsInv(s: State, hold: Hold, outcome: TargetStatus)
    requires Inv(s) && HoldFits(s, hold) && JobRunning(s, hold.job) && hold.target in s.targets
    requires RowFits(Completed(s, hold, outcome), hold.job)
    ensures Inv(Completed(s, hold, outcome))
  {
    assert Completed(s, hold, outcome) == SetTarget(Settle(s, hold.job, Succeeded), hold.target, outcome);
    SettleKeepsInv(s, hold.job, Succeeded, outcome);
  }

  lemma CompleteKeepsInv(s: State, h: Id, outcome: TargetStatus, spawned: seq<Spec>)
    requires Inv(s) && h in s.holds
    ensures Inv(Complete(s, h, outcome, spawned))
  {
    var hold := s.holds[h];
    if CompleteCommits(s, h, outcome) {
      var completed := Completed(s, hold, outcome);
      assert HoldFits(s, hold);
      CompletedKeepsInv(s, hold, outcome);
      DiscardKeepsInv(completed, hold.message);
      DropKeepsInv(Discard(completed, hold.message), h);
      PublishAllKeepsInv(Drop(Discard(completed, hold.message), h),
                         if hold.kind == ConversationText then spawned else []);
    } else {
      DropKeepsInv(s, h);
    }
  }

  lemma FailingKeepsInv(s: State, hold: Hold)
    requires Inv(s) && HoldFits(s, hold) && JobRunning(s, hold.job) && RowFits(Failing(s, hold), hold.job)
    ensures Inv(Failing(s, hold))
  {
    if AdapterFails(s, hold) {
      assert Failing(s, hold) == SetTarget(Settle(s, hold.job, Failed), hold.target, TFailed);
      SettleKeepsInv(s, hold.job, Failed, TFailed);
    } else {
      SettleAloneKeepsInv(s, hold.job, Failed);
    }
  }

  lemma FailKeepsInv(s: State, h: Id)
    requires Inv(s) && h in s.holds
    ensures Inv(Fail(s, h))
  {
    var hold := s.holds[h];
    if FailCommits(s, h) {
      assert HoldFits(s, hold);
      FailingKeepsInv(s, hold);
      DiscardKeepsInv(Failing(s, hold), hold.message);
      DropKeepsInv(Discard(Failing(s, hold), hold.message), h);
    } else {
      DropKeepsInv(s, h);
    }
  }

  lemma RetryIsPostpone(s: State, h: Id, at: real)
    requires RetryCommits(s, h, at) && s.holds[h].message != s.nextId
    ensures Retry(s, h, at)
         == Postpone(Discard(Drop(s, h), s.holds[h].message), s.holds[h].job, QueueOf(s.holds[h].kind), at)
  {
    var hold := s.holds[h];
    var sent := Message(QueueOf(hold.kind), hold.job, at);
    assert s.messages[s.nextId := sent] - {hold.message} == (s.messages - {hold.message})[s.nextId := sent];
  }

  lemma CurrentByDeadline(s: State, h: Id)
    requires Inv(s) && h in s.holds && s.now < s.holds[h].deadline && JobRunning(s, s.holds[h].job)
    ensures Current(s, s.holds[h]) && HoldFits(s, s.holds[h])
    ensures forall g :: g in s.holds && g != h && s.holds[g].job == s.holds[h].job ==> !Current(s, s.holds[g])
  {
    assert HoldFenced(s, s.holds[h]);
  }

  // Only the current claim ever has time left to retry.
  lemma RetryKeepsInv(s: State, h: Id, at: real)
    requires Inv(s) && h in s.holds && s.holds[h].attempt < MAXIMUM_ATTEMPTS && s.now < s.holds[h].deadline
    ensures Inv(Retry(s, h, at))
  {
    var hold := s.holds[h];
    if RetryCommits(s, h, at) {
      assert HoldFits(s, hold) && HoldFenced(s, hold);
      RetryIsPostpone(s, h, at);
      CurrentByDeadline(s, h);
      DropKeepsInv(s, h);
      DiscardKeepsInv(Drop(s, h), hold.message);
      PostponeKeepsInv(Discard(Drop(s, h), hold.message), hold.job, QueueOf(hold.kind), at);
    } else {
      DropKeepsInv(s, h);
    }
  }

  lemma PostponeKeepsInv(s: State, j: Id, queue: QueueName, at: real)
    requires Inv(s) && JobRunning(s, j) && s.jobs[j].attempts < MAXIMUM_ATTEMPTS && queue == QueueOf(s.jobs[j].kind)
    requires forall h :: h in s.holds && s.holds[h].job == j ==> !Current(s, s.holds[h])
    ensures Inv(Postpone(s, j, queue, at))
  {
    PostponeKeepsTables(s, j, queue, at);
    PostponeFencing(s, j, queue, at);
  }

  lemma HandleFailureKeepsInv(s: State, h: Id, failure: ProviderFailure, jitter: real)
    requires Inv(s) && h in s.holds
    ensures Inv(HandleFailure(s, h, failure, jitter))
  {
    var decision := Decide(s.holds[h].attempt, s.holds[h].deadline, s.now, failure, jitter);
    if decision.Some? {
      RetryKeepsInv(s, h, After(s.now, decision.value));
    } else {
      FailKeepsInv(s, h);
    }
  }

  lemma RefenceKeepsTables(s: State, j: Id, at: real)
    requires Tables(s) && Progress(s, {}) && JobRunning(s, j)
    ensures Tables(Refence(s, j, at)) && Progress(Refence(s, j, at), {})
  {
    RefenceShape(s, j, at);
    RefenceAccounts(s, j, at);
    RefenceProgress(s, j, at);
  }

  lemma PostponeKeepsTables(s: State, j: Id, queue: QueueName, at: real)
    requires Tables(s) && Progress(s, {})
    requires JobRunning(s, j) && s.jobs[j].attempts < MAXIMUM_ATTEMPTS && queue == QueueOf(s.jobs[j].kind)
    ensures Tables(Postpone(s, j, queue, at)) && Progress(Postpone(s, j, queue, at), {})
  {
    PostponeShape(s, j, queue, at);
    PostponeLedger(s, j, queue, at);
    PostponeRuns(s, j, queue, at);
    PostponeProgress(s, j, queue, at);
  }

  lemma RequeueKeepsInv(s: State, queue: QueueName, j: Id, at: real)
    requires Inv(s) && Expired(s, queue, j) && ReaperRequeues(s, j)
    ensures Inv(Requeue(s, j, at))
  {
    RefenceKeepsTables(s, j, at);
    PostponeKeepsTables(Refence(s, j, at), j, QueueOf(s.jobs[j].kind), at);
    RequeueFencing(s, j, at);
  }

  lemma ReapOneKeepsInv(s: State, queue: QueueName, j: Id)
    requires Inv(s)
    ensures Inv(ReapOne(s, queue, j))
  {
    if Expired(s, queue, j) {
      var t := s.jobs[j].target;
      if ReaperRequeues(s, j) {
        RequeueKeepsInv(s, queue, j, After(s.now, BackoffSeconds(s.jobs[j].attempts)));
      } else if s.targets[t].status == TProcessing {
        assert Settle(SetTarget(s, t, TFailed), j, Failed) == SetTarget(Settle(s, j, Failed), t, TFailed);
        SettleKeepsInv(s, j, Failed, TFailed);
      } else {
        SettleAloneKeepsInv(s, j, Failed);
      }
    }
  }

  lemma {:induction false} ReapAllKeepsInv(s: State, queue: QueueName, js: seq<Id>)
    requires Inv(s)
    ensures Inv(ReapAll(s, queue, js))
    decreases |js|
  {
    if js != [] {
      ReapOneKeepsInv(s, queue, js[0]);
      ReapAllKeepsInv(ReapOne(s, queue, js[0]), queue, js[1..]);
    }
  }

  lemma ReapKeepsInv(s: State, queue: QueueName, js: seq<Id>)
    requires Inv(s)
    ensures Inv(Reap(s, queue, js))
  {
    ReapAllKeepsInv(s, queue, js);
  }

  lemma EditKeepsInv(s: State, t: Id, row: Target)
    requires Inv(s) && Retires(s, t, row)
    ensures Inv(Edit(s, t, row))
  {
    EditTables(s, t, row);
    EditFencing(s, t, row);
    EditProgress(s, t, row, {});
  }

  lemma CancelAnalysisKeepsInv(s: State, t: Id, deleted: bool)
    requires Inv(s) && OfKind(s, t, DocumentAnalysis)
    ensures Inv(CancelAnalysis(s, t, deleted))
  {
    var cancelled := CancelJobs(s, t);
    CancelShape(s, t);
    CancelLedger(s, t);
    CancelRuns(s, t);
    CancelProgress(s, t);
    var row := CancelAnalysis(s, t, deleted).targets[t];
    assert CancelAnalysis(s, t, deleted) == Edit(cancelled, t, row);
    EditTables(cancelled, t, row);
    EditProgress(cancelled, t, row, {t});
    EditTables(s, t, row);
    EditFencing(s, t, row);
    CancelFencing(Edit(s, t, row), t);
    assert CancelJobs(Edit(s, t, row), t) == Edit(cancelled, t, row);
  }

  lemma DeleteKeepsInv(s: State, t: Id)
    requires Inv(s)
    ensures Inv(DeleteTarget(s, t))
  {
    DeleteShape(s, t);
    DeleteLedger(s, t);
    DeleteRuns(s, t);
    DeleteFencing(s, t);
    DeleteProgress(s, t);
  }

  lemma TickKeepsInv(s: State, elapsed: real)
    requires Inv(s) && elapsed >= 0.0
    ensures Inv(Tick(s, elapsed))
  {
    TickTables(s, elapsed);
    TickFencing(s, elapsed);
    SameTablesProgress(s, Tick(s, elapsed));
  }

  lemma RowChangeKeepsInv(s: State, e: Event)
    requires Inv(s) && Enabled(s, e) && (e.EInvalidateConfiguration? || e.EClose? || e.EUseConfiguration?)
    ensures Inv(Apply(s, e))
  {
    var row := Apply(s, e).targets[e.target];
    assert Apply(s, e) == Edit(s, e.target, row) || Apply(s, e) == s;
    if Apply(s, e) != s {
      EditKeepsInv(s, e.target, row);
    }
  }

  lemma StepKeepsInv(s: State, e: Event)
    requires Inv(s)
    ensures Inv(Step(s, e))
  {
    if Enabled(s, e) {
      match e
      case EPublish(spec) => PublishKeepsInv(s, spec);
      case ERead(m, timeout) => ReadKeepsInv(s, m, timeout);
      case EReadAndClaim(m, timeout) => ReadAndClaimKeepsInv(s, m, timeout);
      case EExecute(h) => ExecuteKeepsInv(s, h, Ran);
      case EMarkRepair(h) => MarkRepairKeepsInv(s, h);
      case EExecuteRepair(h) => ExecuteKeepsInv(s, h, Reran);
      case EDeadlinePassed(h) => FailKeepsInv(s, h);
      case EComplete(h, outcome, spawned) => CompleteKeepsInv(s, h, outcome, spawned);
      case EProviderFailure(h, failure, jitter) => HandleFailureKeepsInv(s, h, failure, jitter);
      case ECrash(h) => DropKeepsInv(s, h);
      case EReap(queue, expired) => ReapKeepsInv(s, queue, expired);
      case EUserRetry(t) => UserRetryKeepsInv(s, t);
      case ECancelAnalysis(t, deleted) => CancelAnalysisKeepsInv(s, t, deleted);
      case EInvalidateConfiguration(_) => RowChangeKeepsInv(s, e);
      case EClose(_) => RowChangeKeepsInv(s, e);
      case EUseConfiguration(_) => RowChangeKeepsInv(s, e);
      case EDelete(t) => DeleteKeepsInv(s, t);
      case ETick(elapsed) => TickKeepsInv(s, elapsed);
    }
  }

  lemma {:induction false} RunKeepsInv(events: seq<Event>)
    ensures Inv(Run(events))
  {
    if events == [] {
      assert forall j :: Pending(INIT, j) == {};
    } else {
      RunKeepsInv(events[..|events| - 1]);
      StepKeepsInv(Run(events[..|events| - 1]), events[|events| - 1]);
    }
  }
}
