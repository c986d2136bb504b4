// The endpoints that send a target back to work or take its jobs away, as transactions on the tables
// of the job protocol.
module QueueEndpoints {
  import opened Jobs
  import opened QueueModel
  import opened QueueRepository

  datatype Answer = Accepted(job: Id) | NotFound | NotRetryable | HasActive

  class Endpoints {
    const tables: SqlQueueRepository

    constructor (tables: SqlQueueRepository)
      ensures this.tables == tables
    {
      this.tables := tables;
    }

    // insert_job and enqueue
    method InsertAndEnqueue(t: Id) returns (j: Id)
      requires t in tables.targets
      modifies tables
      ensures tables.Snapshot() == Enqueue(old(tables.Snapshot()), t)
      ensures j == old(tables.nextId) && j in tables.jobs
    {
      var kind := tables.targets[t].kind;
      j := tables.nextId;
      tables.jobs := tables.jobs[j := Job(kind, t, Queued, 0, 0, None, tables.now + DeadlineSeconds(kind))];
      tables.messages := tables.messages[j + 1 := Message(QueueOf(kind), j, tables.now)];
      tables.nextId := j + 2;
    }

    // The row goes back to processing under a fresh token, with a new job of its own.
    method Renewed(t: Id) returns (j: Id)
      requires t in tables.targets
      modifies tables
      ensures tables.Snapshot() == Enqueue(Renew(old(tables.Snapshot()), t), t)
    {
      var row := tables.targets[t];
      var token := if Tokened(row.kind) then tables.nextToken else row.token;
      tables.targets := tables.targets[t := row.(status := TProcessing, token := token)];
      tables.nextToken := tables.nextToken + 1;
      j := InsertAndEnqueue(t);
    }

    // What all the retries have in common: the row is locked and its status checked first, then its
    // jobs. Only a failed or partial row without an active job is sent back, and nothing else moves.
    method Retry(t: Id, kind: JobType, retryable: set<TargetStatus>) returns (answer: Answer)
      requires forall row: Target | row.kind == kind ::
                 UserRetryable(row) <==> row.status in retryable && (kind == TtsGeneration ==> row.claimable)
      modifies tables
      ensures answer.Accepted? <==> OfKind(old(tables.Snapshot()), t, kind) && UserRetryable(old(tables.targets)[t])
                                    && !HasActiveJob(old(tables.Snapshot()), t)
      ensures tables.Snapshot() == if answer.Accepted? then Step(old(tables.Snapshot()), EUserRetry(t))
          else old(tables.Snapshot())
    {
      if t !in tables.targets || tables.targets[t].kind != kind {
        return NotFound;
      }
      if kind == TtsGeneration && !tables.targets[t].claimable {
        return NotFound;
      }
      if tables.targets[t].status !in retryable {
        return NotRetryable;
      }
      if HasActiveJob(tables.Snapshot(), t) {
        return HasActive;
      }
      var j := Renewed(t);
      return Accepted(j);
    }

    method RetryEmotion(t: Id) returns (answer: Answer)
      modifies tables
      ensures answer.Accepted? <==> OfKind(old(tables.Snapshot()), t, EmotionAnalysis)
                                    && old(tables.targets)[t].status == TFailed
                                    && !HasActiveJob(old(tables.Snapshot()), t)
      ensures tables.Snapshot() == if answer.Accepted? then Step(old(tables.Snapshot()), EUserRetry(t))
          else old(tables.Snapshot())
    {
      answer := Retry(t, EmotionAnalysis, {TFailed});
    }

    method RetryFeedback(t: Id) returns (answer: Answer)
      modifies tables
      ensures answer.Accepted? <==> OfKind(old(tables.Snapshot()), t, TurnFeedback)
                                    && old(tables.targets)[t].status in {TFailed, TPartial}
                                    && !HasActiveJob(old(tables.Snapshot()), t)
      ensures tables.Snapshot() == if answer.Accepted? then Step(old(tables.Snapshot()), EUserRetry(t))
          else old(tables.Snapshot())
    {
      answer := Retry(t, TurnFeedback, {TFailed, TPartial});
    }

    // Without a current audio the retry creates one; so does a result's retry without a result.
    method RetryOrCreate(t: Option<Id>, kind: JobType) returns (answer: Answer)
      requires kind == TtsGeneration || kind == SessionResult
      modifies tables
      ensures t.None? ==> answer.Accepted?
                          && tables.Snapshot() == Step(old(tables.Snapshot()), EPublish(Spec(kind, true)))
      ensures t.Some? ==>
                && (answer.Accepted? <==> OfKind(old(tables.Snapshot()), t.value, kind)
                                          && UserRetryable(old(tables.targets)[t.value])
                                          && !HasActiveJob(old(tables.Snapshot()), t.value))
                && tables.Snapshot() == (if answer.Accepted? then Step(old(tables.Snapshot()), EUserRetry(t.value))
                    else old(tables.Snapshot()))
    {
      if t.None? {
        var row := tables.nextId;
        tables.targets := tables.targets[row := Target(kind, TProcessing, tables.nextToken, true)];
        tables.nextId := row + 1;
        tables.nextToken := tables.nextToken + 1;
        var j := InsertAndEnqueue(row);
        return Accepted(j);
      }
      answer := Retry(t.value, kind, {TFailed});
    }

    // A document goes: its analysis' jobs are cancelled one after the other, whoever holds them.
    method CancelAnalysisJobs(t: Id, deleted: bool)
      requires OfKind(tables.Snapshot(), t, DocumentAnalysis)
      modifies tables
      ensures tables.Snapshot() == Step(old(tables.Snapshot()), ECancelAnalysis(t, deleted))
      ensures !HasActiveJob(tables.Snapshot(), t)
    {
      ghost var before := tables.Snapshot();
      var rest := tables.jobs.Keys;
      while rest != {}
        invariant rest <= tables.jobs.Keys == before.jobs.Keys
        invariant tables.Snapshot() == before.(jobs := tables.jobs)
        invariant forall j | j in tables.jobs ::
                    tables.jobs[j] == if j in rest then before.jobs[j] else CancelJobs(before, t).jobs[j]
        decreases |rest|
      {
        var j :| j in rest;
        if tables.jobs[j].target == t && Active(tables.jobs[j].status) {
          tables.jobs := tables.jobs[j := tables.jobs[j].(status := Cancelled)];
        }
        rest := rest - {j};
      }
      assert tables.jobs == CancelJobs(before, t).jobs;
      var row := tables.targets[t];
      var status := if deleted && (row.status == TProcessing || row.status == TReady) then TUnavailable else row.status;
      tables.targets := tables.targets[t := row.(status := status, claimable := false)];
    }
  }
}
