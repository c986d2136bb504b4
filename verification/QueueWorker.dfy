// worker/queue.py: one turn of the worker loop, as a run of the state machine.
module QueueWorker {
  import opened Jobs
  import opened QueueModel
  import opened QueueInvariant
  import opened QueueJam
  import opened QueueRepository
  import opened QueueTurn

  function Steps(s: State, events: seq<Event>): State
    decreases |events|
  {
    if events == [] then s else Steps(Step(s, events[0]), events[1..])
  }

  lemma {:induction false} StepsSnoc(s: State, events: seq<Event>, e: Event)
    ensures Steps(s, events + [e]) == Step(Steps(s, events), e)
    decreases |events|
  {
    if events == [] {
      assert Steps(s, [e]) == Steps(Step(s, e), []);
    } else {
      assert (events + [e])[1..] == events[1..] + [e];
      StepsSnoc(Step(s, events[0]), events[1..], e);
    }
  }

  lemma {:induction false} StepsConcat(s: State, first: seq<Event>, second: seq<Event>)
    ensures Steps(s, first + second) == Steps(Steps(s, first), second)
    decreases |first|
  {
    if first == [] {
      assert first + second == second;
    } else {
      assert (first + second)[1..] == first[1..] + second;
      StepsConcat(Step(s, first[0]), first[1..], second);
    }
  }

  lemma ExecutionSteps(s: State, h: Id)
    ensures Steps(s, [EExecute(h)]) == Step(s, EExecute(h))
    ensures Steps(s, [EExecute(h), EMarkRepair(h)]) == Step(Step(s, EExecute(h)), EMarkRepair(h))
    ensures Steps(s, [EExecute(h), EMarkRepair(h), EExecuteRepair(h)])
         == Step(Step(Step(s, EExecute(h)), EMarkRepair(h)), EExecuteRepair(h))
  {
    StepsSnoc(s, [], EExecute(h));
    StepsSnoc(s, [EExecute(h)], EMarkRepair(h));
    StepsSnoc(s, [EExecute(h), EMarkRepair(h)], EExecuteRepair(h));
    assert [EExecute(h)] + [EMarkRepair(h)] == [EExecute(h), EMarkRepair(h)];
    assert [EExecute(h), EMarkRepair(h)] + [EExecuteRepair(h)] == [EExecute(h), EMarkRepair(h), EExecuteRepair(h)];
  }

  class Worker {
    const repository: SqlQueueRepository

    constructor (repository: SqlQueueRepository)
      ensures this.repository == repository
    {
      this.repository := repository;
    }

    // True if the repository call raised at commit
    method HandleProviderFailure(h: Id, failure: ProviderFailure, jitter: real) returns (raised: bool)
      requires h in repository.holds
      modifies repository
      ensures repository.Snapshot() == HandleFailure(old(repository.Snapshot()), h, failure, jitter)
      ensures repository.holds == old(repository.holds) - {h}
      ensures (if raised then None else Some(true))
           == Answer(old(repository.Snapshot()), EProviderFailure(h, failure, jitter))
    {
      var hold := repository.holds[h];
      var decision := Decide(hold.attempt, hold.deadline, repository.now, failure, jitter);
      var ending;
      if decision.Some? {
        ending := repository.Retry(h, decision.value);
      } else {
        ending := repository.Fail(h);
      }
      return ending.Raised?;
    }

    // What happens to a claim after the executor was called for the last time. None is an exception
    // that reaches the loop: the worker rolls back and goes on without the claim.
    method Finish(h: Id, reply: Reply, script: Script) returns (worked: Option<bool>, ghost event: Event)
      requires HasRun(repository.Snapshot(), h)
      modifies repository
      ensures event == Conclusion(h, old(repository.holds)[h].kind, reply, script)
      ensures Enabled(old(repository.Snapshot()), event)
      ensures Stop(repository.Snapshot(), worked) == StopWith(old(repository.Snapshot()), event)
      ensures repository.holds == old(repository.holds) - {h}
    {
      match reply
      case OtherError =>
        event := ECrash(h);
        repository.Abandon(h);
        return None, event;
      case ProviderError(failure, _) =>
        event := EProviderFailure(h, failure, script.jitter);
        var raised := HandleProviderFailure(h, failure, script.jitter);
        return if raised then None else Some(true), event;
      case Output(outcome, spawned) =>
        if !PossibleOutcome(repository.holds[h].kind, outcome) {
          event := ECrash(h);
          repository.Abandon(h);
          return None, event;
        }
        if script.saving.Some? {
          event := EProviderFailure(h, script.saving.value, script.jitter);
          var raised := HandleProviderFailure(h, script.saving.value, script.jitter);
          return if raised then None else Some(true), event;
        }
        event := EComplete(h, outcome, spawned);
        var ending := repository.Complete(h, outcome, spawned);
        return if ending.Raised? then None else Some(ending.Committed?), event;
    }

    // _execute_with_repair: at most one schema repair, at most two executions; the second reply decides
    // exactly if the first was invalid and a repair was left. None means that the claim was lost when the
    // repair was to be recorded.
    method ExecuteWithRepair(h: Id, script: Script) returns (reply: Option<Reply>, ghost trace: seq<Event>)
      requires h in repository.holds && repository.holds[h].phase == Fresh
      requires repository.now < repository.holds[h].deadline
      modifies repository
      ensures repository.Snapshot() == Steps(old(repository.Snapshot()), trace)
      ensures repository.holds - {h} == old(repository.holds) - {h}
      ensures !NeedsRepair(script.first, old(repository.holds)[h].repairs) ==>
                reply == Some(script.first) && trace == [EExecute(h)]
      ensures NeedsRepair(script.first, old(repository.holds)[h].repairs) ==>
                if reply.None? then h !in repository.holds && trace == [EExecute(h), EMarkRepair(h)]
                else reply == Some(script.second) && trace == [EExecute(h), EMarkRepair(h), EExecuteRepair(h)]
      ensures reply.Some? ==> HasRun(repository.Snapshot(), h)
                              && repository.holds[h].kind == old(repository.holds)[h].kind
    {
      ghost var before := repository.Snapshot();
      StepsSnoc(before, [], EExecute(h));
      trace := [EExecute(h)];
      repository.RecordExecution(h, Ran);
      if !NeedsRepair(script.first, repository.holds[h].repairs) {
        return Some(script.first), trace;
      }
      StepsSnoc(before, trace, EMarkRepair(h));
      trace := trace + [EMarkRepair(h)];
      var marked := repository.MarkSchemaRepair(h);
      if !marked {
        return None, trace;
      }
      StepsSnoc(before, trace, EExecuteRepair(h));
      trace := trace + [EExecuteRepair(h)];
      repository.RecordExecution(h, Reran);
      return Some(script.second), trace;
    }

    // From the claim to the end of the turn.
    method Process(h: Id, script: Script) returns (worked: Option<bool>, ghost trace: seq<Event>)
      requires h in repository.holds && repository.holds[h].phase == Fresh
      modifies repository
      ensures Stop(repository.Snapshot(), worked) == AfterClaim(old(repository.Snapshot()), h, script)
      ensures repository.Snapshot() == Steps(old(repository.Snapshot()), trace)
      ensures repository.holds == old(repository.holds) - {h}
      ensures |trace| <= 4
    {
      ghost var before := repository.Snapshot();
      if repository.now >= repository.holds[h].deadline {
        StepsSnoc(before, [], EDeadlinePassed(h));
        var ending := repository.Fail(h);
        return if ending.Raised? then None else Some(true), [EDeadlinePassed(h)];
      }
      var reply;
      reply, trace := ExecuteWithRepair(h, script);
      ExecutionSteps(before, h);
      if reply.None? {
        return None, trace;
      }
      ghost var event;
      worked, event := Finish(h, reply.value, script);
      StepsSnoc(before, trace, event);
      trace := trace + [event];
    }

    // False if the pass of the reaper raised at commit
    method Recover() returns (passed: bool, ghost expired: seq<Id>)
      modifies repository
      ensures repository.Snapshot() == Reap(old(repository.Snapshot()), repository.queueName, expired)
      ensures repository.Snapshot() == Steps(old(repository.Snapshot()), [EReap(repository.queueName, expired)])
      ensures repository.holds == old(repository.holds) && repository.nextId >= old(repository.nextId)
      ensures Inv(old(repository.Snapshot())) ==>
                (passed <==> !Jammed(old(repository.Snapshot()), repository.queueName))
      ensures !passed ==> repository.Snapshot() == old(repository.Snapshot())
    {
      ghost var before := repository.Snapshot();
      var recovered;
      recovered, expired := repository.RecoverExpired();
      StepsSnoc(before, [], EReap(repository.queueName, expired));
      passed := recovered.Some?;
      FullPassCommits(before, repository.queueName, expired);
    }

    // One message, if there is one, and what its job makes of it
    method Serve(script: Script) returns (worked: Option<bool>, ghost served: Option<Id>, ghost trace: seq<Event>)
      requires repository.visibilityTimeout > 0.0
      requires forall h :: h in repository.holds ==> h < repository.nextId
      modifies repository
      ensures served.None? ==>
                && worked == Some(false) && repository.Snapshot() == old(repository.Snapshot())
                && forall m | m in repository.messages && repository.messages[m].queue == repository.queueName ::
                     repository.messages[m].visibleAt > repository.now
      ensures served.Some? ==>
                && served.value in old(repository.messages)
                && old(repository.messages)[served.value].queue == repository.queueName
                && old(repository.messages)[served.value].visibleAt <= old(repository.now)
                && Stop(repository.Snapshot(), worked)
                     == Turn(old(repository.Snapshot()), served.value, repository.visibilityTimeout, script)
      ensures repository.Snapshot() == Steps(old(repository.Snapshot()), trace)
      ensures repository.holds == old(repository.holds)
      ensures |trace| <= 5
    {
      ghost var before := repository.Snapshot();
      var message := repository.ReadOne();
      if message.None? {
        return Some(false), None, [];
      }
      var m := message.value;
      served := message;
      trace := [EReadAndClaim(m, repository.visibilityTimeout)];
      StepsSnoc(before, [], EReadAndClaim(m, repository.visibilityTimeout));
      var claim := repository.Claim(m);
      if claim.None? {
        repository.Discard(m);
        return Some(true), served, trace;
      }
      ghost var rest;
      worked, rest := Process(claim.value, script);
      StepsConcat(before, trace, rest);
      trace := trace + rest;
    }

    // One turn. It is a run of the state machine, leaves no claim behind, and does nothing on a jammed
    // queue. Otherwise it serves a visible message of the queue, if there is one: the message is
    // discarded where its job cannot be claimed, and job, row and message come out as the executor's
    // replies decide where it can.
    method RunOnce(script: Script) returns (worked: Option<bool>, ghost served: Option<Id>, ghost trace: seq<Event>)
      requires repository.visibilityTimeout > 0.0
      requires forall h :: h in repository.holds ==> h < repository.nextId
      modifies repository
      ensures repository.Snapshot() == Steps(old(repository.Snapshot()), trace)
      ensures repository.holds == old(repository.holds)
      ensures |trace| <= 6
      ensures Inv(old(repository.Snapshot())) && Jammed(old(repository.Snapshot()), repository.queueName) ==>
                worked.None? && repository.Snapshot() == old(repository.Snapshot())
      ensures Inv(old(repository.Snapshot())) && !Jammed(old(repository.Snapshot()), repository.queueName) ==>
                Served(old(repository.Snapshot()), repository.Snapshot(), repository.queueName, served, worked, script)
    {
      ghost var before := repository.Snapshot();
      var passed;
      ghost var expired;
      passed, expired := Recover();
      trace := [EReap(repository.queueName, expired)];
      if !passed {
        return None, None, trace;
      }
      ghost var behind := repository.Snapshot();
      ghost var rest;
      worked, served, rest := Serve(script);
      StepsConcat(before, trace, rest);
      trace := trace + rest;
      if Inv(before) {
        TurnIsServed(before, repository.queueName, expired, served, repository.visibilityTimeout, script,
                     repository.Snapshot(), worked);
      }
    }
  }
}
