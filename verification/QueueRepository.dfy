// worker/sql_queue.py, statement by statement: each method is one transaction on the tables, and
// a method that returns early has rolled its statements back. So has one whose commit fails because
// a job it touched does not fit its row. Each is proved against the step of the state machine that
// it implements.
module QueueRepository {
  import opened Jobs
  import opened QueueModel

  // How a transaction ends: committed, rolled back by its own code, or refused at commit, which
  // raises an exception.
  datatype Ending = Committed | RolledBack | Raised

  class SqlQueueRepository {
    const queueName: QueueName
    const visibilityTimeout: real

    var now: real
    var jobs: map<Id, Job>
    var targets: map<Id, Target>
    var messages: map<Id, Message>
    var dead: multiset<DeadLetter>
    var holds: map<Id, Hold>
    var runs: map<Id, nat>
    var nextId: nat
    var nextToken: nat

    // The constructor refuses a timeout that is not positive.
    constructor (queueName: QueueName, visibilityTimeout: real)
      requires visibilityTimeout > 0.0
      ensures Snapshot() == INIT && this.queueName == queueName && this.visibilityTimeout == visibilityTimeout
    {
      this.queueName := queueName;
      this.visibilityTimeout := visibilityTimeout;
      now, jobs, targets, messages, dead, holds, runs, nextId, nextToken :=
        0.0, map[], map[], map[], multiset{}, map[], map[], 0, 1;
    }

    function Snapshot(): State
      reads this
    {
      State(now, jobs, targets, messages, dead, holds, runs, nextId, nextToken)
    }

    // One visible message of this worker's queue, hidden from now on; which one is up to PGMQ.
    method ReadOne() returns (message: Option<Id>)
      modifies this`messages
      ensures message.None? ==>
                Snapshot() == old(Snapshot())
                && forall m :: m in messages && messages[m].queue == queueName ==> messages[m].visibleAt > now
      ensures message.Some? ==>
                && message.value in old(messages) && old(messages)[message.value].queue == queueName
                && old(messages)[message.value].visibleAt <= now
                && Snapshot() == Read(old(Snapshot()), message.value, visibilityTimeout)
    {
      var visible := set m | m in messages && messages[m].queue == queueName && messages[m].visibleAt <= now;
      if visible == {} {
        assert forall m :: m in messages && messages[m].queue == queueName && messages[m].visibleAt <= now ==>
            m in visible;
        return None;
      }
      var m :| m in visible;
      messages := messages[m := messages[m].(visibleAt := now + visibilityTimeout)];
      return Some(m);
    }

    method Discard(m: Id)
      modifies this`messages
      ensures Snapshot() == QueueModel.Discard(old(Snapshot()), m)
    {
      messages := messages - {m};
    }

    // The select with its filter, the adapter's claim, and the guarded update.
    method Claim(m: Id) returns (claim: Option<Id>)
      requires m in messages && messages[m].queue == queueName
      modifies this`jobs, this`holds, this`nextId
      ensures claim.Some? == ClaimAllowed(old(Snapshot()), queueName, messages[m].job)
      ensures claim.Some? ==> claim.value == old(nextId) && Snapshot() == QueueModel.Claim(old(Snapshot()), m)
      ensures claim.None? ==> Snapshot() == old(Snapshot())
    {
      var j := messages[m].job;
      if j !in jobs || jobs[j].status != Queued || (jobs[j].nextAttempt.Some? && jobs[j].nextAttempt.value > now) {
        return None;
      }
      var job := jobs[j];
      if QueueOf(job.kind) != queueName {
        return None;
      }
      if job.target !in targets || targets[job.target].status != TProcessing || !targets[job.target].claimable {
        return None;
      }
      var attempt := job.attempts + 1;
      jobs := jobs[j := job.(status := Processing, attempts := attempt, nextAttempt := None)];
      holds := holds[nextId := Hold(j, job.kind, job.target, m, targets[job.target].token, attempt,
                                    job.repairs, job.deadline, Fresh)];
      nextId := nextId + 1;
      return Some(nextId - 1);
    }

    // An adapter's guarded update of its row; false when no row matched.
    method UpdateTarget(hold: Hold, status: TargetStatus, recheck: bool) returns (matched: bool)
      modifies this`targets
      ensures matched == (AdapterFails(old(Snapshot()), hold) && (recheck ==> old(targets)[hold.target].claimable))
      ensures Snapshot() == if matched then SetTarget(old(Snapshot()), hold.target, status) else old(Snapshot())
    {
      if hold.target !in targets {
        return false;
      }
      var row := targets[hold.target];
      if row.status != TProcessing || (Tokened(hold.kind) && row.token != hold.token) || (recheck && !row.claimable) {
        return false;
      }
      targets := targets[hold.target := row.(status := status)];
      return true;
    }

    // _insert_job for a row inserted in the same transaction
    method Insert(spec: Spec)
      modifies this`jobs, this`targets, this`messages, this`dead, this`nextId, this`nextToken
      ensures Snapshot() == Publish(old(Snapshot()), spec)
      ensures nextId >= old(nextId)
    {
      var t := nextId;
      targets := targets[t := Target(spec.kind, TProcessing, nextToken, spec.claimable)];
      var j := t + 1;
      jobs := jobs[j := Job(spec.kind, t, Queued, 0, 0, None, now + DeadlineSeconds(spec.kind))];
      messages := messages[j + 1 := Message(QueueOf(spec.kind), j, now)];
      nextId := j + 2;
      nextToken := nextToken + 1;
    }

    // The deferred check of one job, made when the transaction commits
    function Fits(j: Id): (fits: bool)
      requires j in jobs
      reads this
      ensures fits == RowFits(Snapshot(), j)
    {
      var job := jobs[j];
      job.status == Cancelled || (job.target in targets && StatusFits(job.kind, job.status, targets[job.target].status))
    }

    // The guarded update of the job that every ending of a claim makes
    function JobIsRunning(j: Id): (running: bool)
      reads this
      ensures running == JobRunning(Snapshot(), j)
    {
      j in jobs && jobs[j].status == Processing
    }

    method SaveTargetAndJob(hold: Hold, outcome: TargetStatus) returns (saved: bool)
      modifies this`targets, this`jobs
      ensures saved <==> AdapterCompletes(old(Snapshot()), hold) && JobRunning(old(Snapshot()), hold.job)
      ensures saved ==> Snapshot() == Completed(old(Snapshot()), hold, outcome)
      ensures !saved ==> jobs == old(jobs)
    {
      var matched := UpdateTarget(hold, outcome, RechecksTarget(hold.kind));
      if !matched || !JobIsRunning(hold.job) {
        return false;
      }
      jobs := jobs[hold.job := jobs[hold.job].(status := Succeeded)];
      return true;
    }

    method Complete(h: Id, outcome: TargetStatus, spawned: seq<Spec>) returns (ending: Ending)
      requires h in holds
      modifies this
      ensures ending.Committed? <==> CompleteCommits(old(Snapshot()), h, outcome)
      ensures ending.RolledBack? <==>
          !(AdapterCompletes(old(Snapshot()), old(holds)[h]) && JobRunning(old(Snapshot()), old(holds)[h].job))
      ensures Snapshot() == QueueModel.Complete(old(Snapshot()), h, outcome, spawned)
      ensures holds == old(holds) - {h}
    {
      var hold := holds[h];
      var savedTargets, savedJobs := targets, jobs;
      var saved := SaveTargetAndJob(hold, outcome);
      if !saved {
        targets := savedTargets;
        holds := holds - {h};
        return RolledBack;
      }
      if !Fits(hold.job) {
        targets, jobs := savedTargets, savedJobs;
        holds := holds - {h};
        return Raised;
      }
      messages := messages - {hold.message};
      holds := holds - {h};
      if hold.kind == ConversationText {
        InsertAll(spawned);
      }
      return Committed;
    }

    // _fan_out: the inserted jobs are queued for rows in processing, so that they fit them.
    method InsertAll(spawned: seq<Spec>)
      modifies this`jobs, this`targets, this`messages, this`dead, this`nextId, this`nextToken
      ensures Snapshot() == PublishAll(old(Snapshot()), spawned)
    {
      ghost var before := Snapshot();
      var i := 0;
      while i < |spawned|
        invariant 0 <= i <= |spawned|
        invariant PublishAll(Snapshot(), spawned[i..]) == PublishAll(before, spawned)
      {
        assert spawned[i..][1..] == spawned[i + 1..];
        Insert(spawned[i]);
        i := i + 1;
      }
    }

    method Retry(h: Id, delay: real) returns (ending: Ending)
      requires h in holds
      modifies this
      ensures ending.Committed? <==> RetryCommits(old(Snapshot()), h, After(now, delay))
      ensures ending.RolledBack? <==> !JobRunning(old(Snapshot()), old(holds)[h].job)
      ensures Snapshot() == QueueModel.Retry(old(Snapshot()), h, After(now, delay))
      ensures holds == old(holds) - {h}
    {
      var hold := holds[h];
      if !JobIsRunning(hold.job) {
        holds := holds - {h};
        return RolledBack;
      }
      var savedJobs, savedMessages, savedId := jobs, messages, nextId;
      var at := After(now, delay);
      jobs := jobs[hold.job := jobs[hold.job].(status := Queued, nextAttempt := Some(at))];
      messages := messages[nextId := Message(QueueOf(hold.kind), hold.job, at)];
      nextId := nextId + 1;
      if !Fits(hold.job) {
        jobs, messages, nextId := savedJobs, savedMessages, savedId;
        holds := holds - {h};
        return Raised;
      }
      messages := messages - {hold.message};
      holds := holds - {h};
      return Committed;
    }

    method MarkFailed(j: Id)
      requires j in jobs
      modifies this`jobs, this`dead
      ensures Snapshot() == Settle(old(Snapshot()), j, Failed)
    {
      dead := dead + multiset{DeadLetter(QueueOf(jobs[j].kind), j)};
      jobs := jobs[j := jobs[j].(status := Failed)];
    }

    method FailTargetAndJob(hold: Hold) returns (failed: bool)
      modifies this`targets, this`jobs, this`dead
      ensures failed <==> JobRunning(old(Snapshot()), hold.job)
      ensures failed ==> Snapshot() == Failing(old(Snapshot()), hold)
      ensures !failed ==> jobs == old(jobs) && dead == old(dead)
    {
      var _ := UpdateTarget(hold, TFailed, false);
      if !JobIsRunning(hold.job) {
        return false;
      }
      MarkFailed(hold.job);
      return true;
    }

    method Fail(h: Id) returns (ending: Ending)
      requires h in holds
      modifies this
      ensures ending.Committed? <==> FailCommits(old(Snapshot()), h)
      ensures ending.RolledBack? <==> !JobRunning(old(Snapshot()), old(holds)[h].job)
      ensures Snapshot() == QueueModel.Fail(old(Snapshot()), h)
      ensures holds == old(holds) - {h}
    {
      var hold := holds[h];
      var savedTargets, savedJobs, savedDead := targets, jobs, dead;
      var failed := FailTargetAndJob(hold);
      if !failed {
        targets := savedTargets;
        holds := holds - {h};
        return RolledBack;
      }
      if !Fits(hold.job) {
        targets, jobs, dead := savedTargets, savedJobs, savedDead;
        holds := holds - {h};
        return Raised;
      }
      messages := messages - {hold.message};
      holds := holds - {h};
      return Committed;
    }

    // False stands for an exception that ends the worker's turn: the claim was lost, or the job's row
    // has left processing.
    method MarkSchemaRepair(h: Id) returns (marked: bool)
      requires h in holds
      modifies this`jobs, this`holds
      ensures marked == RepairRecorded(old(Snapshot()), h)
      ensures Snapshot() == MarkRepair(old(Snapshot()), h)
    {
      var j := holds[h].job;
      if j !in jobs || jobs[j].status != Processing || jobs[j].repairs != 0 || !Fits(j) {
        holds := holds - {h};
        return false;
      }
      holds := holds[h := holds[h].(phase := Repairing)];
      jobs := jobs[j := jobs[j].(repairs := 1)];
      return true;
    }

    // The history of provider executions; nothing in the database changes.
    method RecordExecution(h: Id, phase: Phase)
      requires h in holds
      modifies this`holds, this`runs
      ensures Snapshot() == Execute(old(Snapshot()), h, phase)
    {
      var j := holds[h].job;
      holds := holds[h := holds[h].(phase := phase)];
      runs := runs[j := (if j in runs then runs[j] else 0) + 1];
    }

    // The worker dies, or an exception other than a provider error ends its turn.
    method Abandon(h: Id)
      modifies this`holds
      ensures Snapshot() == Drop(old(Snapshot()), h)
    {
      holds := holds - {h};
    }

    method RetryExpiredFeedback(j: Id, delay: real) returns (retried: bool)
      requires j in jobs && jobs[j].status == Processing
      modifies this`jobs, this`targets, this`messages, this`dead, this`nextId, this`nextToken
      ensures retried == (old(jobs)[j].target in old(targets)
          && old(targets)[old(jobs)[j].target].status == TProcessing)
      ensures Snapshot() == if retried then Requeue(old(Snapshot()), j, After(now, delay)) else old(Snapshot())
      ensures nextId >= old(nextId)
    {
      var job := jobs[j];
      if job.target !in targets || targets[job.target].status != TProcessing {
        return false;
      }
      var at := After(now, delay);
      targets := targets[job.target := targets[job.target].(token := nextToken)];
      nextToken := nextToken + 1;
      var renewed := job.(deadline := at + DeadlineSeconds(job.kind));
      jobs := jobs[j := renewed];
      jobs := jobs[j := renewed.(status := Queued, nextAttempt := Some(at))];
      messages := messages[nextId := Message(QueueOf(job.kind), j, at)];
      nextId := nextId + 1;
      return true;
    }

    method RecoverOne(j: Id) returns (recovered: bool)
      modifies this`jobs, this`targets, this`messages, this`dead, this`nextId, this`nextToken
      ensures recovered == Expired(old(Snapshot()), queueName, j)
      ensures Snapshot() == ReapOne(old(Snapshot()), queueName, j)
      ensures nextId >= old(nextId)
    {
      if j !in jobs || jobs[j].status != Processing || jobs[j].deadline > now || QueueOf(jobs[j].kind) != queueName {
        return false;
      }
      var job := jobs[j];
      if job.kind == TurnFeedback && job.attempts < MAXIMUM_ATTEMPTS {
        var retried := RetryExpiredFeedback(j, BackoffSeconds(job.attempts));
        if retried {
          return true;
        }
      }
      if job.target in targets && targets[job.target].status == TProcessing {
        targets := targets[job.target := targets[job.target].(status := TFailed)];
      }
      MarkFailed(j);
      return true;
    }

    // Every job that was processing past its deadline is looked at once; those of other queues are
    // skipped. `expired` is the list the select returned, in whatever order.
    method RecoverAll() returns (updated: set<Id>, ghost expired: seq<Id>)
      modifies this`jobs, this`targets, this`messages, this`dead, this`nextId, this`nextToken
      ensures forall j :: j in expired <==> JobRunning(old(Snapshot()), j) && old(jobs)[j].deadline <= old(now)
      ensures forall j :: j in updated <==> j in expired && Expired(old(Snapshot()), queueName, j)
      ensures Snapshot() == ReapAll(old(Snapshot()), queueName, expired)
      ensures jobs.Keys == old(jobs).Keys && nextId >= old(nextId)
    {
      ghost var before := Snapshot();
      var rest := set j | j in jobs && jobs[j].status == Processing && jobs[j].deadline <= now;
      updated, expired := {}, [];
      while rest != {}
        invariant Snapshot() == ReapAll(before, queueName, expired)
        invariant forall j :: j in expired || j in rest <==>
            JobRunning(before, j) && before.jobs[j].deadline <= before.now
        invariant forall j :: j in rest ==> j !in expired && j in jobs && jobs[j] == before.jobs[j]
        invariant forall j :: j in updated <==> j in expired && Expired(before, queueName, j)
        invariant jobs.Keys == before.jobs.Keys
        invariant nextId >= old(nextId)
        decreases |rest|
      {
        var j :| j in rest;
        rest := rest - {j};
        ReapOneTouches(Snapshot(), queueName, j);
        var done := RecoverOne(j);
        ReapSnoc(before, queueName, expired, j);
        expired := expired + [j];
        if done {
          updated := updated + {j};
        }
      }
    }

    method AllFit(updated: set<Id>) returns (fit: bool)
      requires updated <= jobs.Keys
      ensures fit <==> forall j | j in updated :: RowFits(Snapshot(), j)
    {
      fit := forall j | j in updated :: Fits(j);
    }

    // One job that does not fit its row at commit takes the whole pass back.
    method RecoverExpired() returns (recovered: Option<nat>, ghost expired: seq<Id>)
      modifies this`jobs, this`targets, this`messages, this`dead, this`nextId, this`nextToken
      ensures forall j :: j in expired <==> JobRunning(old(Snapshot()), j) && old(jobs)[j].deadline <= old(now)
      ensures recovered.Some? <==> ReapCommits(old(Snapshot()), queueName, expired)
      ensures Snapshot() == Reap(old(Snapshot()), queueName, expired)
      ensures nextId >= old(nextId)
    {
      var savedJobs, savedTargets, savedMessages := jobs, targets, messages;
      var savedDead, savedId, savedToken := dead, nextId, nextToken;
      var updated: set<Id>;
      updated, expired := RecoverAll();
      CommitsIfAllFit(old(Snapshot()), queueName, expired, updated);
      var fit := AllFit(updated);
      if !fit {
        jobs, targets, messages := savedJobs, savedTargets, savedMessages;
        dead, nextId, nextToken := savedDead, savedId, savedToken;
        return None, expired;
      }
      return Some(|updated|), expired;
    }
  }

  lemma CommitsIfAllFit(s: State, queue: QueueName, js: seq<Id>, updated: set<Id>)
    requires forall j :: j in updated <==> j in js && Expired(s, queue, j)
    requires updated <= ReapAll(s, queue, js).jobs.Keys
    ensures ReapCommits(s, queue, js) <==> forall j | j in updated :: RowFits(ReapAll(s, queue, js), j)
  {
  }

  lemma ReapOneTouches(s: State, queue: QueueName, x: Id)
    ensures ReapOne(s, queue, x).jobs.Keys == s.jobs.Keys && ReapOne(s, queue, x).now == s.now
    ensures forall j | j in s.jobs && j != x :: ReapOne(s, queue, x).jobs[j] == s.jobs[j]
  {
  }

  lemma {:induction false} ReapSnoc(s: State, queue: QueueName, js: seq<Id>, j: Id)
    ensures ReapAll(s, queue, js + [j]) == ReapOne(ReapAll(s, queue, js), queue, j)
    decreases |js|
  {
    if js == [] {
      assert ReapAll(s, queue, [j]) == ReapAll(ReapOne(s, queue, j), queue, []);
    } else {
      assert (js + [j])[1..] == js[1..] + [j];
      ReapSnoc(ReapOne(s, queue, js[0]), queue, js[1..], j);
    }
  }
}
