// What every step of the job protocol keeps.
module QueueInvariant {
  import opened Jobs
  import opened QueueModel

  // ---- the invariant, one relation between tables at a time ---------------------------------

  // Identifiers and tokens are fresh when they are made, and jobs point at rows of their own kind.
  ghost predicate WellFormed(s: State) {
    && (forall j :: j in s.jobs ==>
          j < s.nextId && s.jobs[j].target in s.targets && s.targets[s.jobs[j].target].kind == s.jobs[j].kind)
    && (forall t :: t in s.targets ==> t < s.nextId && s.targets[t].token < s.nextToken)
    && (forall m :: m in s.messages ==> m < s.nextId && s.messages[m].job < s.nextId)
    && (forall m :: m in s.messages && s.messages[m].job in s.jobs ==>
          s.messages[m].queue == QueueOf(s.jobs[s.messages[m].job].kind))
    && (forall h :: h in s.holds ==> h < s.nextId)
    && (forall j :: j in s.runs ==> j < s.nextId)
    && (forall d :: d in s.dead ==> d.job < s.nextId)
  }

  ghost predicate HoldsFit(s: State) {
    forall h :: h in s.holds ==> HoldFits(s, s.holds[h])
  }

  ghost predicate HoldFits(s: State, hold: Hold) {
    && hold.job < s.nextId && hold.target < s.nextId && hold.message < s.nextId
    && (hold.target in s.targets ==> s.targets[hold.target].kind == hold.kind)
    && hold.token < s.nextToken
    && (hold.message in s.messages ==> s.messages[hold.message].job == hold.job)
    && (hold.job in s.jobs ==>
          var job := s.jobs[hold.job];
          && hold.kind == job.kind && hold.target == job.target
          && 1 <= hold.attempt <= job.attempts)
  }

  // No target ever has two active jobs.
  ghost predicate OneActiveJob(s: State) {
    forall i, j | i in s.jobs && j in s.jobs && s.jobs[i].target == s.jobs[j].target
      && Active(s.jobs[i].status) && Active(s.jobs[j].status) :: i == j
  }

  ghost predicate Budgets(s: State) {
    forall j :: j in s.jobs ==>
      && s.jobs[j].attempts <= MAXIMUM_ATTEMPTS
      && s.jobs[j].repairs <= 1
      && (s.jobs[j].status == Queued ==> s.jobs[j].attempts < MAXIMUM_ATTEMPTS)
      && (s.jobs[j].status == Processing ==> s.jobs[j].attempts >= 1)
  }

  // A claim is current while its job is processing that very attempt.
  predicate Current(s: State, hold: Hold) {
    JobRunning(s, hold.job) && s.jobs[hold.job].attempts == hold.attempt
  }

  ghost predicate OneHoldPerAttempt(s: State) {
    forall g, h | g in s.holds && h in s.holds && s.holds[g].job == s.holds[h].job
      && s.holds[g].attempt == s.holds[h].attempt :: g == h
  }

  // The current claim knows the row's token. A claim whose job is active but elsewhere is past
  // its deadline, belongs to turn feedback, and carries a token the row no longer has. Once its
  // job is over, a tokened row that is processing again has moved on to another token.
  ghost predicate Fenced(s: State) {
    forall h :: h in s.holds ==> HoldFenced(s, s.holds[h])
  }

  ghost predicate HoldFenced(s: State, hold: Hold) {
    hold.target in s.targets ==>
      if hold.job in s.jobs && Active(s.jobs[hold.job].status) then
        && (Current(s, hold) ==>
              hold.deadline == s.jobs[hold.job].deadline && s.targets[hold.target].token == hold.token)
        && (!Current(s, hold) ==>
              hold.kind == TurnFeedback && hold.deadline <= s.now && s.targets[hold.target].token != hold.token)
      else
        FencedByToken(s.targets[hold.target]) ==> s.targets[hold.target].token != hold.token
  }

  // A tokened row that is waiting for a result. Analysis rows of replaced documents are left out:
  // they kept the token of a job that is over.
  predicate FencedByToken(row: Target) {
    row.status == TProcessing && Tokened(row.kind) && KeepsItsJob(row)
  }

  // Replacing a document cancels the job of its analysis but leaves the analysis row.
  predicate KeepsItsJob(row: Target) {
    row.kind == DocumentAnalysis ==> row.claimable
  }

  // Deleting a document invalidates configurations under their live jobs.
  ghost predicate ActiveMeansProcessing(s: State) {
    forall j :: j in s.jobs && Active(s.jobs[j].status) && s.jobs[j].target in s.targets ==>
      || s.targets[s.jobs[j].target].status == TProcessing
      || (s.jobs[j].kind == ConfigurationGeneration && s.targets[s.jobs[j].target].status == TUnavailable)
  }

  // `exempt` names rows whose job is about to be inserted in the same transaction.
  ghost predicate ProcessingMeansActive(s: State, exempt: set<Id>) {
    forall t | t in s.targets && t !in exempt && KeepsItsJob(s.targets[t]) && s.targets[t].status == TProcessing ::
      HasActiveJob(s, t)
  }

  ghost predicate DeadLetters(s: State) {
    forall d: DeadLetter :: d.job in s.jobs ==>
      s.dead[d] == if s.jobs[d.job].status == Failed && d.queue == QueueOf(s.jobs[d.job].kind) then 1 else 0
  }

  // The message that will wake a worker up for a queued job, no earlier than the job is due.
  ghost predicate HasWakeUp(s: State, j: Id)
    requires j in s.jobs
  {
    exists m :: m in s.messages && WakesUp(s, m, j)
  }

  predicate WakesUp(s: State, m: Id, j: Id)
    requires m in s.messages && j in s.jobs
  {
    && s.messages[m].job == j
    && s.messages[m].queue == QueueOf(s.jobs[j].kind)
    && Due(s.jobs[j], s.messages[m].visibleAt)
  }

  ghost predicate NoLostJob(s: State) {
    forall j :: j in s.jobs && s.jobs[j].status == Queued && Claimable(s, s.jobs[j].target) ==> HasWakeUp(s, j)
  }

  // Claims that still have a provider execution ahead of them.
  function Pending(s: State, j: Id): set<Id> {
    set h | h in s.holds && s.holds[h].job == j && (s.holds[h].phase == Fresh || s.holds[h].phase == Repairing)
  }

  ghost predicate RunsAccounted(s: State) {
    forall j :: j in s.jobs ==> Runs(s, j) + |Pending(s, j)| <= s.jobs[j].attempts + s.jobs[j].repairs
  }

  ghost predicate Shape(s: State) {
    WellFormed(s) && HoldsFit(s)
  }

  ghost predicate Ledger(s: State) {
    OneActiveJob(s) && Budgets(s) && DeadLetters(s)
  }

  ghost predicate Tables(s: State) {
    Shape(s) && Ledger(s) && RunsAccounted(s)
  }

  ghost predicate Fencing(s: State) {
    OneHoldPerAttempt(s) && Fenced(s)
  }

  ghost predicate Progress(s: State, exempt: set<Id>) {
    ActiveMeansProcessing(s) && ProcessingMeansActive(s, exempt) && NoLostJob(s)
  }

  ghost predicate Inv(s: State) {
    Tables(s) && Fencing(s) && Progress(s, {})
  }

  // ---- frames ------------

  // A message that is still there, seen no earlier than before.
  predicate Delayed(s: State, r: State, m: Id)
    requires m in s.messages
  {
    && m in r.messages && r.messages[m].job == s.messages[m].job && r.messages[m].queue == s.messages[m].queue
    && s.messages[m].visibleAt <= r.messages[m].visibleAt
  }

  // Frame lemmas for the two existential clauses.
  lemma KeepWakeUps(s: State, r: State, news: set<Id>)
    requires NoLostJob(s)
    requires forall m | m in s.messages :: Delayed(s, r, m)
    requires forall j | j in r.jobs && j in news :: HasWakeUp(r, j)
    requires forall j | j in r.jobs && r.jobs[j].status == Queued && Claimable(r, r.jobs[j].target) && j !in news ::
               && j in s.jobs && s.jobs[j].status == Queued && Claimable(s, s.jobs[j].target)
               && s.jobs[j].kind == r.jobs[j].kind && s.jobs[j].nextAttempt == r.jobs[j].nextAttempt
    ensures NoLostJob(r)
  {
    forall j | j in r.jobs && r.jobs[j].status == Queued && Claimable(r, r.jobs[j].target) ensures HasWakeUp(r, j) {
      if j !in news {
        assert HasWakeUp(s, j);
        var m :| m in s.messages && WakesUp(s, m, j);
        assert WakesUp(r, m, j);
      }
    }
  }

  lemma KeepActiveJobs(s: State, r: State, exempt: set<Id>)
    requires ProcessingMeansActive(s, {})
    requires forall t | t in r.targets && t !in exempt && KeepsItsJob(r.targets[t])
        && r.targets[t].status == TProcessing ::
               t in s.targets && KeepsItsJob(s.targets[t]) && s.targets[t].status == TProcessing
    requires forall j | j in s.jobs && Active(s.jobs[j].status) && s.jobs[j].target in r.targets
               && s.jobs[j].target !in exempt && KeepsItsJob(r.targets[s.jobs[j].target])
               && r.targets[s.jobs[j].target].status == TProcessing ::
               j in r.jobs && r.jobs[j].target == s.jobs[j].target && Active(r.jobs[j].status)
    ensures ProcessingMeansActive(r, exempt)
  {
    forall t | t in r.targets && t !in exempt && KeepsItsJob(r.targets[t]) && r.targets[t].status == TProcessing
      ensures HasActiveJob(r, t)
    {
      assert HasActiveJob(s, t);
      var j :| j in s.jobs && s.jobs[j].target == t && Active(s.jobs[j].status);
      assert j in r.jobs && r.jobs[j].target == t && Active(r.jobs[j].status);
    }
  }

  // ---- a worker lets go of its claim; time passes --------------------------------------------

  lemma DropShape(s: State, h: Id)
    requires Shape(s)
    ensures Shape(Drop(s, h))
  {
  }

  lemma DropLedger(s: State, h: Id)
    requires Shape(s) && Ledger(s)
    ensures Ledger(Drop(s, h))
  {
  }

  lemma DropRuns(s: State, h: Id)
    requires Shape(s) && RunsAccounted(s)
    ensures RunsAccounted(Drop(s, h))
  {
    var r := Drop(s, h);
    forall j ensures |Pending(r, j)| <= |Pending(s, j)| {
      assert Pending(r, j) == Pending(s, j) - {h};
    }
  }

  lemma DropFencing(s: State, h: Id)
    requires Tables(s) && Fencing(s)
    ensures Fencing(Drop(s, h))
  {
  }

  lemma SameTablesProgress(s: State, r: State)
    requires Progress(s, {}) && r.jobs == s.jobs && r.targets == s.targets && r.messages == s.messages
    ensures Progress(r, {})
  {
    KeepWakeUps(s, r, {});
    KeepActiveJobs(s, r, {});
  }

  lemma TickTables(s: State, elapsed: real)
    requires Tables(s) && elapsed >= 0.0
    ensures Tables(Tick(s, elapsed))
  {
    assert forall j :: Pending(Tick(s, elapsed), j) == Pending(s, j);
  }

  lemma TickFencing(s: State, elapsed: real)
    requires Tables(s) && Fencing(s) && elapsed >= 0.0
    ensures Fencing(Tick(s, elapsed))
  {
  }

  // ---- messages ------------------------------------------------------------------------------

  lemma MessagesTables(s: State, r: State)
    requires Tables(s) && r == s.(messages := r.messages)
    requires forall m :: m in r.messages ==> m in s.messages && r.messages[m].job == s.messages[m].job
                                              && r.messages[m].queue == s.messages[m].queue
    ensures Tables(r)
  {
    assert forall j :: Pending(r, j) == Pending(s, j);
  }

  lemma MessagesFencing(s: State, r: State)
    requires Fencing(s) && r == s.(messages := r.messages)
    ensures Fencing(r)
  {
  }

  lemma ReadProgress(s: State, m: Id, timeout: real)
    requires Progress(s, {}) && Visible(s, m, timeout)
    ensures Progress(Read(s, m, timeout), {})
  {
    KeepWakeUps(s, Read(s, m, timeout), {});
    KeepActiveJobs(s, Read(s, m, timeout), {});
  }

  lemma DiscardProgress(s: State, m: Id)
    requires Progress(s, {})
    requires forall j | j in s.jobs && s.jobs[j].status == Queued && Claimable(s, s.jobs[j].target)
        && m in s.messages ::
               !WakesUp(s, m, j)
    ensures Progress(Discard(s, m), {})
  {
    var r := Discard(s, m);
    forall j | j in r.jobs && r.jobs[j].status == Queued && Claimable(r, r.jobs[j].target) ensures HasWakeUp(r, j) {
      assert HasWakeUp(s, j);
      var w :| w in s.messages && WakesUp(s, w, j);
      assert WakesUp(r, w, j);
    }
    KeepActiveJobs(s, r, {});
  }

  // ---- claiming ------------------------------------------------------------------------------

  lemma ClaimShape(s: State, m: Id)
    requires Shape(s) && m in s.messages && ClaimAllowed(s, s.messages[m].queue, s.messages[m].job)
    ensures Shape(Claim(s, m))
  {
  }

  lemma ClaimLedger(s: State, m: Id)
    requires Shape(s) && Ledger(s) && m in s.messages && ClaimAllowed(s, s.messages[m].queue, s.messages[m].job)
    ensures Ledger(Claim(s, m))
  {
  }

  lemma ClaimRuns(s: State, m: Id)
    requires Shape(s) && RunsAccounted(s) && m in s.messages && ClaimAllowed(s, s.messages[m].queue, s.messages[m].job)
    ensures RunsAccounted(Claim(s, m))
  {
    ClaimPending(s, m);
  }

  lemma ClaimPending(s: State, m: Id)
    requires m in s.messages && ClaimAllowed(s, s.messages[m].queue, s.messages[m].job)
    requires s.nextId !in s.holds
    ensures Pending(Claim(s, m), s.messages[m].job) == Pending(s, s.messages[m].job) + {s.nextId}
    ensures forall i :: i != s.messages[m].job ==> Pending(Claim(s, m), i) == Pending(s, i)
  {
    var r := Claim(s, m);
    var j := s.messages[m].job;
    assert Pending(r, j) == Pending(s, j) + {s.nextId};
    assert forall i :: i != j ==> Pending(r, i) == Pending(s, i);
  }

  lemma ClaimFencing(s: State, m: Id)
    requires Tables(s) && Fencing(s) && m in s.messages && ClaimAllowed(s, s.messages[m].queue, s.messages[m].job)
    ensures Fencing(Claim(s, m))
  {
  }

  lemma ClaimProgress(s: State, m: Id)
    requires Tables(s) && Progress(s, {}) && m in s.messages && ClaimAllowed(s, s.messages[m].queue, s.messages[m].job)
    ensures Progress(Claim(s, m), {})
  {
    KeepWakeUps(s, Claim(s, m), {});
    KeepActiveJobs(s, Claim(s, m), {});
  }

  // ---- executing and repairing ---------------------------------------------------------------

  lemma ExecuteShape(s: State, h: Id, phase: Phase)
    requires Shape(s) && h in s.holds && h in Pending(s, s.holds[h].job) && (phase == Ran || phase == Reran)
    ensures Shape(Execute(s, h, phase))
  {
  }

  lemma ExecuteLedger(s: State, h: Id, phase: Phase)
    requires Shape(s) && Ledger(s) && h in s.holds && h in Pending(s, s.holds[h].job)
        && (phase == Ran || phase == Reran)
    ensures Ledger(Execute(s, h, phase))
  {
  }

  lemma ExecuteRuns(s: State, h: Id, phase: Phase)
    requires Shape(s) && RunsAccounted(s) && h in s.holds && h in Pending(s, s.holds[h].job)
        && (phase == Ran || phase == Reran)
    ensures RunsAccounted(Execute(s, h, phase))
  {
    var r := Execute(s, h, phase);
    var j := s.holds[h].job;
    assert Pending(r, j) == Pending(s, j) - {h};
    assert forall i :: i != j ==> Pending(r, i) == Pending(s, i);
  }

  lemma ExecuteFencing(s: State, h: Id, phase: Phase)
    requires Tables(s) && Fencing(s) && h in s.holds
    ensures Fencing(Execute(s, h, phase))
  {
    var r := Execute(s, h, phase);
    forall g | g in r.holds ensures HoldFenced(r, r.holds[g]) {
      assert HoldFenced(s, s.holds[g]);
    }
  }

  lemma RecordRepairShape(s: State, h: Id)
    requires Shape(s) && h in s.holds && RepairRecorded(s, h)
    ensures Shape(RecordRepair(s, h))
  {
  }

  lemma RecordRepairLedger(s: State, h: Id)
    requires Shape(s) && Ledger(s) && h in s.holds && RepairRecorded(s, h)
    ensures Ledger(RecordRepair(s, h))
  {
  }

  lemma RecordRepairRuns(s: State, h: Id)
    requires Shape(s) && RunsAccounted(s) && h in s.holds && RepairRecorded(s, h)
    ensures RunsAccounted(RecordRepair(s, h))
  {
    var r := RecordRepair(s, h);
    var j := s.holds[h].job;
    assert Pending(r, j) == Pending(s, j) + {h};
    assert forall i :: i != j ==> Pending(r, i) == Pending(s, i);
  }

  lemma RecordRepairFencing(s: State, h: Id)
    requires Tables(s) && Fencing(s) && h in s.holds && RepairRecorded(s, h)
    ensures Fencing(RecordRepair(s, h))
  {
    var r := RecordRepair(s, h);
    forall g | g in r.holds ensures HoldFenced(r, r.holds[g]) {
      assert HoldFenced(s, s.holds[g]);
    }
  }

  lemma RecordRepairProgress(s: State, h: Id)
    requires Tables(s) && Progress(s, {}) && h in s.holds && RepairRecorded(s, h)
    ensures Progress(RecordRepair(s, h), {})
  {
    KeepWakeUps(s, RecordRepair(s, h), {});
    KeepActiveJobs(s, RecordRepair(s, h), {});
  }

  // ---- a job ends ----------------------------------------------------------------------------

  lemma SettleShape(s: State, j: Id, status: JobStatus)
    requires Shape(s) && JobRunning(s, j) && (status == Succeeded || status == Failed)
    ensures Shape(Settle(s, j, status))
  {
  }

  lemma SettleLedger(s: State, j: Id, status: JobStatus)
    requires Shape(s) && Ledger(s) && JobRunning(s, j) && (status == Succeeded || status == Failed)
    ensures Ledger(Settle(s, j, status))
  {
  }

  lemma SettleRuns(s: State, j: Id, status: JobStatus)
    requires Shape(s) && RunsAccounted(s) && JobRunning(s, j) && (status == Succeeded || status == Failed)
    ensures RunsAccounted(Settle(s, j, status))
  {
    assert forall i :: Pending(Settle(s, j, status), i) == Pending(s, i);
  }

  lemma SettleFencing(s: State, j: Id, status: JobStatus)
    requires Tables(s) && Fencing(s) && JobRunning(s, j) && (status == Succeeded || status == Failed)
    requires !FencedByToken(s.targets[s.jobs[j].target])
    ensures Fencing(Settle(s, j, status))
  {
    var r := Settle(s, j, status);
    forall g | g in r.holds ensures HoldFenced(r, r.holds[g]) {
      assert HoldFenced(s, s.holds[g]) && HoldFits(s, s.holds[g]);
    }
  }

  lemma SettleProgress(s: State, j: Id, status: JobStatus)
    requires Tables(s) && Progress(s, {}) && JobRunning(s, j) && (status == Succeeded || status == Failed)
    ensures Progress(Settle(s, j, status), {s.jobs[j].target})
    ensures !HasActiveJob(Settle(s, j, status), s.jobs[j].target)
  {
    KeepWakeUps(s, Settle(s, j, status), {});
    KeepActiveJobs(s, Settle(s, j, status), {s.jobs[j].target});
  }

  lemma LiftExemption(s: State, t: Id)
    requires Progress(s, {t}) && t in s.targets
    requires s.targets[t].status != TProcessing || !KeepsItsJob(s.targets[t])
    ensures Progress(s, {})
  {
  }

  // ---- a row changes without its job ---------------------------------------------------------

  // A row only ever loses its claimability, and leaves processing without a job to show for it
  // only where that is allowed.
  predicate Retires(s: State, t: Id, row: Target) {
    && t in s.targets
    && row.kind == s.targets[t].kind && row.token == s.targets[t].token
    && (row.claimable ==> s.targets[t].claimable)
    && (row.status == TProcessing ==> s.targets[t].status == TProcessing)
    && (row.status == s.targets[t].status || !HasActiveJob(s, t)
        || (row.kind == ConfigurationGeneration && row.status == TUnavailable))
  }

  function Edit(s: State, t: Id, row: Target): State {
    s.(targets := s.targets[t := row])
  }

  lemma EditTables(s: State, t: Id, row: Target)
    requires Tables(s) && t in s.targets && row.kind == s.targets[t].kind && row.token == s.targets[t].token
    ensures Tables(Edit(s, t, row))
  {
    assert forall i :: Pending(Edit(s, t, row), i) == Pending(s, i);
  }

  lemma EditFencing(s: State, t: Id, row: Target)
    requires Tables(s) && Fencing(s) && t in s.targets
    requires row.kind == s.targets[t].kind && row.token == s.targets[t].token
    requires row.status == TProcessing ==> s.targets[t].status == TProcessing
    requires row.claimable ==> s.targets[t].claimable
    ensures Fencing(Edit(s, t, row))
  {
    var r := Edit(s, t, row);
    forall g | g in r.holds ensures HoldFenced(r, r.holds[g]) {
      assert HoldFenced(s, s.holds[g]);
    }
  }

  lemma EditProgress(s: State, t: Id, row: Target, exempt: set<Id>)
    requires Tables(s) && Progress(s, exempt) && Retires(s, t, row)
    requires exempt <= {t} && (exempt == {} || row.status != TProcessing || !KeepsItsJob(row))
    ensures Progress(Edit(s, t, row), {})
  {
    var r := Edit(s, t, row);
    forall i | i in r.jobs && Active(r.jobs[i].status) && r.jobs[i].target in r.targets
      ensures || r.targets[r.jobs[i].target].status == TProcessing
              || (r.jobs[i].kind == ConfigurationGeneration && r.targets[r.jobs[i].target].status == TUnavailable)
    {
      assert r.jobs[i].target == t ==> HasActiveJob(s, t);
    }
    KeepWakeUps(s, r, {});
    forall u | u in r.targets && KeepsItsJob(r.targets[u]) && r.targets[u].status == TProcessing
      ensures HasActiveJob(r, u)
    {
      assert HasActiveJob(s, u);
    }
  }

  // ---- a job goes back to its queue ----------------------------------------------------------

  lemma PostponeShape(s: State, j: Id, queue: QueueName, at: real)
    requires Shape(s) && JobRunning(s, j) && s.jobs[j].attempts < MAXIMUM_ATTEMPTS && queue == QueueOf(s.jobs[j].kind)
    ensures Shape(Postpone(s, j, queue, at))
  {
  }

  lemma PostponeLedger(s: State, j: Id, queue: QueueName, at: real)
    requires Shape(s) && Ledger(s) && JobRunning(s, j) && s.jobs[j].attempts < MAXIMUM_ATTEMPTS
        && queue == QueueOf(s.jobs[j].kind)
    ensures Ledger(Postpone(s, j, queue, at))
  {
  }

  lemma PostponeRuns(s: State, j: Id, queue: QueueName, at: real)
    requires Shape(s) && RunsAccounted(s) && JobRunning(s, j) && s.jobs[j].attempts < MAXIMUM_ATTEMPTS
        && queue == QueueOf(s.jobs[j].kind)
    ensures RunsAccounted(Postpone(s, j, queue, at))
  {
    assert forall i :: Pending(Postpone(s, j, queue, at), i) == Pending(s, i);
  }

  lemma PostponeFencing(s: State, j: Id, queue: QueueName, at: real)
    requires Tables(s) && Fencing(s) && JobRunning(s, j)
    requires forall h :: h in s.holds && s.holds[h].job == j ==> !Current(s, s.holds[h])
    ensures Fencing(Postpone(s, j, queue, at))
  {
    var r := Postpone(s, j, queue, at);
    forall g | g in r.holds ensures HoldFenced(r, r.holds[g]) {
      assert HoldFenced(s, s.holds[g]);
    }
  }

  lemma PostponeProgress(s: State, j: Id, queue: QueueName, at: real)
    requires Tables(s) && Progress(s, {}) && JobRunning(s, j) && queue == QueueOf(s.jobs[j].kind)
    ensures Progress(Postpone(s, j, queue, at), {})
  {
    var r := Postpone(s, j, queue, at);
    assert WakesUp(r, s.nextId, j);
    KeepWakeUps(s, r, {j});
    KeepActiveJobs(s, r, {});
  }

  lemma RefenceShape(s: State, j: Id, at: real)
    requires Shape(s) && JobRunning(s, j)
    ensures Shape(Refence(s, j, at))
  {
  }

  lemma RefenceAccounts(s: State, j: Id, at: real)
    requires Shape(s) && Ledger(s) && RunsAccounted(s) && JobRunning(s, j)
    ensures Ledger(Refence(s, j, at)) && RunsAccounted(Refence(s, j, at))
  {
    assert forall i :: Pending(Refence(s, j, at), i) == Pending(s, i);
  }

  lemma RefenceProgress(s: State, j: Id, at: real)
    requires Tables(s) && Progress(s, {}) && JobRunning(s, j)
    ensures Progress(Refence(s, j, at), {})
  {
    KeepWakeUps(s, Refence(s, j, at), {});
    KeepActiveJobs(s, Refence(s, j, at), {});
  }

  // The claim that ran out of time becomes stale: its deadline has passed and its token is gone.
  lemma RequeueFencing(s: State, j: Id, at: real)
    requires Tables(s) && Fencing(s) && JobRunning(s, j) && s.jobs[j].deadline <= s.now
        && s.jobs[j].kind == TurnFeedback
    ensures Fencing(Requeue(s, j, at))
  {
    var r := Requeue(s, j, at);
    forall g | g in r.holds ensures HoldFenced(r, r.holds[g]) {
      var hold := s.holds[g];
      assert HoldFenced(s, hold) && HoldFits(s, hold);
      if hold.job in s.jobs && Active(s.jobs[hold.job].status) && hold.target == s.jobs[j].target {
        assert hold.job == j;
      }
    }
  }

  // ---- a new job -----------------------------------------------------------------------------

  lemma AddRowKeeps(s: State, spec: Spec)
    requires Inv(s)
    ensures Tables(AddRow(s, spec)) && Fencing(AddRow(s, spec)) && Progress(AddRow(s, spec), {s.nextId})
    ensures !HasActiveJob(AddRow(s, spec), s.nextId)
  {
    var r := AddRow(s, spec);
    AddRowTables(s, spec);
    AddRowFencing(s, spec);
    KeepWakeUps(s, r, {});
    KeepActiveJobs(s, r, {s.nextId});
  }

  lemma AddRowTables(s: State, spec: Spec)
    requires Tables(s)
    ensures Tables(AddRow(s, spec))
  {
    assert forall i :: Pending(AddRow(s, spec), i) == Pending(s, i);
  }

  lemma AddRowFencing(s: State, spec: Spec)
    requires Tables(s) && Fencing(s)
    ensures Fencing(AddRow(s, spec))
  {
    var r := AddRow(s, spec);
    forall g | g in r.holds ensures HoldFenced(r, r.holds[g]) {
      assert HoldFenced(s, s.holds[g]);
    }
  }

  lemma RenewShape(s: State, t: Id)
    requires Shape(s) && t in s.targets
    ensures Shape(Renew(s, t))
  {
  }

  lemma RenewAccounts(s: State, t: Id)
    requires Shape(s) && Ledger(s) && RunsAccounted(s) && t in s.targets
    ensures Ledger(Renew(s, t)) && RunsAccounted(Renew(s, t))
  {
    assert forall i :: Pending(Renew(s, t), i) == Pending(s, i);
  }

  lemma RenewFencing(s: State, t: Id)
    requires Tables(s) && Fencing(s) && t in s.targets && !HasActiveJob(s, t)
    ensures Fencing(Renew(s, t))
  {
    var r := Renew(s, t);
    forall g | g in r.holds ensures HoldFenced(r, r.holds[g]) {
      assert HoldFenced(s, s.holds[g]) && HoldFits(s, s.holds[g]);
    }
  }

  lemma RenewProgress(s: State, t: Id)
    requires Tables(s) && Progress(s, {}) && t in s.targets && !HasActiveJob(s, t)
    ensures Progress(Renew(s, t), {t})
    ensures !HasActiveJob(Renew(s, t), t)
  {
    assert forall j :: j in s.jobs && s.jobs[j].status == Queued ==> s.jobs[j].target != t;
    KeepWakeUps(s, Renew(s, t), {});
    KeepActiveJobs(s, Renew(s, t), {t});
  }

  lemma EnqueueShape(s: State, t: Id)
    requires Shape(s) && t in s.targets
    ensures Shape(Enqueue(s, t))
  {
  }

  lemma EnqueueLedger(s: State, t: Id)
    requires Shape(s) && Ledger(s) && t in s.targets && !HasActiveJob(s, t)
    ensures Ledger(Enqueue(s, t))
  {
    assert DeadLetter(QueueOf(s.targets[t].kind), s.nextId) !in s.dead;
  }

  lemma EnqueueRuns(s: State, t: Id)
    requires Shape(s) && RunsAccounted(s) && t in s.targets
    ensures RunsAccounted(Enqueue(s, t))
  {
    assert forall i :: Pending(Enqueue(s, t), i) == Pending(s, i);
    assert Pending(s, s.nextId) == {};
  }

  lemma EnqueueFencing(s: State, t: Id)
    requires Tables(s) && Fencing(s) && t in s.targets
    ensures Fencing(Enqueue(s, t))
  {
    var r := Enqueue(s, t);
    forall g | g in r.holds ensures HoldFenced(r, r.holds[g]) {
      assert HoldFenced(s, s.holds[g]) && HoldFits(s, s.holds[g]);
    }
  }

  lemma EnqueueProgress(s: State, t: Id)
    requires Shape(s) && Progress(s, {t}) && t in s.targets && s.targets[t].status == TProcessing
    ensures Progress(Enqueue(s, t), {})
  {
    var r := Enqueue(s, t);
    var j := s.nextId;
    assert WakesUp(r, j + 1, j);
    KeepWakeUps(s, r, {j});
    forall u | u in r.targets && KeepsItsJob(r.targets[u]) && r.targets[u].status == TProcessing
      ensures HasActiveJob(r, u)
    {
      if u == t {
        assert r.jobs[j].target == t;
      } else {
        assert HasActiveJob(s, u);
        var i :| i in s.jobs && s.jobs[i].target == u && Active(s.jobs[i].status);
        assert i in r.jobs && r.jobs[i] == s.jobs[i];
      }
    }
  }

  // ---- cancelling and deleting ---------------------------------------------------------------

  lemma CancelShape(s: State, t: Id)
    requires Shape(s)
    ensures Shape(CancelJobs(s, t))
  {
  }

  lemma CancelLedger(s: State, t: Id)
    requires Shape(s) && Ledger(s)
    ensures Ledger(CancelJobs(s, t))
  {
  }

  lemma CancelRuns(s: State, t: Id)
    requires Shape(s) && RunsAccounted(s)
    ensures RunsAccounted(CancelJobs(s, t))
  {
    assert forall i :: Pending(CancelJobs(s, t), i) == Pending(s, i);
  }

  lemma CancelFencing(s: State, t: Id)
    requires Tables(s) && Fencing(s) && t in s.targets && !FencedByToken(s.targets[t])
    ensures Fencing(CancelJobs(s, t))
  {
    var r := CancelJobs(s, t);
    forall g | g in r.holds ensures HoldFenced(r, r.holds[g]) {
      assert HoldFenced(s, s.holds[g]) && HoldFits(s, s.holds[g]);
    }
  }

  lemma CancelProgress(s: State, t: Id)
    requires Shape(s) && Progress(s, {})
    ensures Progress(CancelJobs(s, t), {t})
    ensures !HasActiveJob(CancelJobs(s, t), t)
  {
    KeepWakeUps(s, CancelJobs(s, t), {});
    KeepActiveJobs(s, CancelJobs(s, t), {t});
  }

  lemma DeleteShape(s: State, t: Id)
    requires Shape(s)
    ensures Shape(DeleteTarget(s, t))
  {
  }

  lemma DeleteLedger(s: State, t: Id)
    requires Shape(s) && Ledger(s)
    ensures Ledger(DeleteTarget(s, t))
  {
  }

  lemma DeleteRuns(s: State, t: Id)
    requires Shape(s) && RunsAccounted(s)
    ensures RunsAccounted(DeleteTarget(s, t))
  {
    assert forall i :: Pending(DeleteTarget(s, t), i) == Pending(s, i);
  }

  lemma DeleteFencing(s: State, t: Id)
    requires Tables(s) && Fencing(s)
    ensures Fencing(DeleteTarget(s, t))
  {
    var r := DeleteTarget(s, t);
    forall g | g in r.holds ensures HoldFenced(r, r.holds[g]) {
      assert HoldFenced(s, s.holds[g]);
    }
  }

  lemma DeleteProgress(s: State, t: Id)
    requires Progress(s, {})
    ensures Progress(DeleteTarget(s, t), {})
  {
    KeepWakeUps(s, DeleteTarget(s, t), {});
    KeepActiveJobs(s, DeleteTarget(s, t), {});
  }
}
