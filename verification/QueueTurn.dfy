// What one message comes to in a worker's turn, said about the tables: the job, its row, the message,
// the dead letter and the jobs the result spawns.
module QueueTurn {
  import opened Jobs
  import opened QueueModel
  import opened QueueInvariant
  import opened QueueRuns
  import opened QueueJam

  // What the executor does when it is called: return an output, raise a provider error, or raise
  // anything else.
  datatype Reply =
    | Output(outcome: TargetStatus, spawned: seq<Spec>)
    | ProviderError(failure: ProviderFailure, schemaInvalid: bool)
    | OtherError

  // `first` and `second` are what the executor does on its first and on its repair call, `saving` a
  // provider error raised while the result is being saved.
  datatype Script = Script(first: Reply, second: Reply, saving: Option<ProviderFailure>, jitter: real)

  // ---- the turn as steps ---------------------------------------------------------------------

  predicate NeedsRepair(reply: Reply, repairs: nat) {
    reply.ProviderError? && reply.schemaInvalid && repairs < 1
  }

  // What the worker does after the executor was called for the last time
  function Conclusion(h: Id, kind: JobType, reply: Reply, script: Script): Event {
    match reply
    case OtherError => ECrash(h)
    case ProviderError(failure, _) => EProviderFailure(h, failure, script.jitter)
    case Output(outcome, spawned) =>
      if !PossibleOutcome(kind, outcome) then ECrash(h)
      else if script.saving.Some? then EProviderFailure(h, script.saving.value, script.jitter)
      else EComplete(h, outcome, spawned)
  }

  // What the turn returns; None is an exception that reaches the loop.
  function Answer(s: State, e: Event): Option<bool> {
    match e
    case EComplete(h, outcome, _) =>
      if CompleteCommits(s, h, outcome) then Some(true)
      else if h in s.holds && AdapterCompletes(s, s.holds[h]) && JobRunning(s, s.holds[h].job) then None
      else Some(false)
    case EProviderFailure(h, failure, jitter) =>
      if h !in s.holds || !JobRunning(s, s.holds[h].job) then Some(true)
      else
        var decision := Decide(s.holds[h].attempt, s.holds[h].deadline, s.now, failure, jitter);
        if decision.Some? && RetryCommits(s, h, After(s.now, decision.value)) then Some(true)
        else if decision.None? && FailCommits(s, h) then Some(true)
        else None
    case EDeadlinePassed(h) =>
      if FailCommits(s, h) || h !in s.holds || !JobRunning(s, s.holds[h].job) then Some(true) else None
    case _ => None
  }

  datatype Stop = Stop(state: State, worked: Option<bool>)

  function StopWith(s: State, e: Event): Stop {
    Stop(Step(s, e), Answer(s, e))
  }

  function AfterRun(s: State, h: Id, script: Script): Stop
    requires h in s.holds
  {
    var kind := s.holds[h].kind;
    if NeedsRepair(script.first, s.holds[h].repairs) then
      var marked := Step(s, EMarkRepair(h));
      if h !in marked.holds then Stop(marked, None)
      else StopWith(Step(marked, EExecuteRepair(h)), Conclusion(h, kind, script.second, script))
    else StopWith(s, Conclusion(h, kind, script.first, script))
  }

  // From the claim to the end of the turn
  function AfterClaim(s: State, h: Id, script: Script): Stop
    requires h in s.holds
  {
    if s.holds[h].deadline <= s.now then StopWith(s, EDeadlinePassed(h))
    else
      var ran := Step(s, EExecute(h));
      if h in ran.holds then AfterRun(ran, h, script) else Stop(ran, None)
  }

  function Turn(s: State, m: Id, timeout: real, script: Script): Stop
    requires m in s.messages
  {
    var claimed := ReadAndClaim(s, m, timeout);
    if ClaimAllowed(s, s.messages[m].queue, s.messages[m].job) && s.nextId in claimed.holds
    then AfterClaim(claimed, s.nextId, script) else Stop(claimed, Some(true))
  }

  // ---- what it comes to ----------------------------------------------------------------------

  // The reply that decides: the second one if the first was invalid and a repair is left
  function Decisive(job: Job, script: Script): Reply {
    if script.first.ProviderError? && script.first.schemaInvalid && job.repairs == 0 then script.second
    else script.first
  }

  datatype Fate = Succeeds(outcome: TargetStatus, spawned: seq<Spec>) | IsRetried(delay: real) | Fails | StaysProcessing

  // A provider error is retried after what the provider asked for, or else the jitter, if it is retryable,
  // attempts are left, and the delay ends before the deadline.
  function FateOfError(job: Job, now: real, failure: ProviderFailure, jitter: real): Fate {
    var delay := if failure.retryAfter.Some? then failure.retryAfter.value else jitter;
    if failure.retryable && job.attempts + 1 < 3 && delay >= 0.0 && delay < job.deadline - now
    then IsRetried(delay) else Fails
  }

  // A job that was claimed too late fails without being executed. A result that can be saved is, unless
  // saving it raises a provider error. Any other exception leaves the job to the reaper, and so does a
  // session result that turned out as failed, which the check at commit refuses.
  function FateOf(job: Job, now: real, script: Script): Fate {
    if job.deadline <= now then Fails else FateOfReply(job, now, Decisive(job, script), script)
  }

  function FateOfReply(job: Job, now: real, reply: Reply, script: Script): Fate {
    match reply
    case OtherError => StaysProcessing
    case ProviderError(failure, _) => FateOfError(job, now, failure, script.jitter)
    case Output(outcome, spawned) =>
      if !PossibleOutcome(job.kind, outcome) then StaysProcessing
      else if script.saving.Some? then FateOfError(job, now, script.saving.value, script.jitter)
      else if outcome == TFailed then StaysProcessing
      else Succeeds(outcome, if job.kind == ConversationText then spawned else [])
  }

  function AnswerTo(fate: Fate): Option<bool> {
    if fate.StaysProcessing? then None else Some(true)
  }

  // The repairs recorded on the job after the turn
  function RepairsAfter(job: Job, now: real, script: Script): nat {
    if now < job.deadline && script.first.ProviderError? && script.first.schemaInvalid && job.repairs == 0
    then 1 else job.repairs
  }

  predicate IsSpawned(t: State, now: real, spec: Spec, x: Id) {
    && x in t.targets && t.targets[x].kind == spec.kind && t.targets[x].status == TProcessing
    && t.targets[x].claimable == spec.claimable
    && x + 1 in t.jobs && t.jobs[x + 1] == Job(spec.kind, x, Queued, 0, 0, None, now + DeadlineSeconds(spec.kind))
    && x + 2 in t.messages && t.messages[x + 2] == Message(QueueOf(spec.kind), x + 1, now)
  }

  // The rows, jobs and wake-ups a result spawns, in the order it names them
  predicate AllSpawned(t: State, now: real, specs: seq<Spec>, from: Id) {
    forall k | 0 <= k < |specs| :: IsSpawned(t, now, specs[k], from + 3 * k)
  }

  // How job, row, message and dead letters of the message's job come out
  ghost predicate TurnEnds(s: State, t: State, m: Id, script: Script)
    requires m in s.messages && s.messages[m].job in s.jobs && s.jobs[s.messages[m].job].target in s.targets
  {
    var job := s.jobs[s.messages[m].job];
    EndsAs(s, t, m, RepairsAfter(job, s.now, script), FateOf(job, s.now, script))
  }

  ghost predicate EndsAs(s: State, t: State, m: Id, repairs: nat, fate: Fate)
    requires m in s.messages && s.messages[m].job in s.jobs && s.jobs[s.messages[m].job].target in s.targets
  {
    var j := s.messages[m].job;
    var job := s.jobs[j];
    var row := s.targets[job.target];
    var after := job.(attempts := job.attempts + 1, nextAttempt := None, repairs := repairs);
    var letter := DeadLetter(QueueOf(job.kind), j);
    && j in t.jobs && job.target in t.targets
    && match fate {
         case Succeeds(outcome, spawned) =>
           && t.jobs[j] == after.(status := Succeeded) && t.targets[job.target] == row.(status := outcome)
           && m !in t.messages && t.dead[letter] == s.dead[letter]
           && exists from :: AllSpawned(t, s.now, spawned, from)
         case IsRetried(delay) =>
           && t.jobs[j] == after.(status := Queued, nextAttempt := Some(After(s.now, delay)))
           && t.targets[job.target] == row
           && m !in t.messages && t.dead[letter] == s.dead[letter]
           && exists w :: w in t.messages && t.messages[w] == Message(QueueOf(job.kind), j, After(s.now, delay))
         case Fails =>
           && t.jobs[j] == after.(status := Failed) && t.targets[job.target] == row.(status := TFailed)
           && m !in t.messages && t.dead[letter] == s.dead[letter] + 1
         case StaysProcessing =>
           && t.jobs[j] == after.(status := Processing) && t.targets[job.target] == row
           && m in t.messages && t.dead[letter] == s.dead[letter]
       }
  }

  // Nothing else moves.
  ghost predicate OthersStay(s: State, t: State, m: Id)
    requires m in s.messages && s.messages[m].job in s.jobs
  {
    var j := s.messages[m].job;
    && (forall i | i in s.jobs && i != j :: i in t.jobs && t.jobs[i] == s.jobs[i])
    && (forall x | x in s.targets && x != s.jobs[j].target :: x in t.targets && t.targets[x] == s.targets[x])
    && (forall w | w in s.messages && w != m :: w in t.messages && t.messages[w] == s.messages[w])
    && (forall d: DeadLetter | d.job != j :: t.dead[d] == s.dead[d])
  }

  predicate Servable(s: State, m: Id) {
    && m in s.messages && ClaimAllowed(s, s.messages[m].queue, s.messages[m].job)
  }

  // ---- while the worker has the claim --------------------------------------------------------

  ghost predicate Working(s: State, c: State, m: Id, repairs: nat)
    requires Servable(s, m)
  {
    var j := s.messages[m].job;
    var job := s.jobs[j];
    var h := s.nextId;
    && h in c.holds && c.nextId == h + 1 && c.now == s.now && c.targets == s.targets && c.dead == s.dead
    && c.jobs == s.jobs[j := job.(status := Processing, attempts := job.attempts + 1, nextAttempt := None,
                                  repairs := repairs)]
    && c.messages.Keys == s.messages.Keys
    && (forall w | w in s.messages && w != m :: c.messages[w] == s.messages[w])
    && var hold := c.holds[h];
       hold.job == j && hold.kind == job.kind && hold.target == job.target && hold.message == m
       && hold.token == s.targets[job.target].token && hold.attempt == job.attempts + 1
       && hold.deadline == job.deadline && hold.repairs == job.repairs
  }

  lemma ClaimWorks(s: State, m: Id, timeout: real)
    requires Servable(s, m)
    ensures var c := ReadAndClaim(s, m, timeout);
            Working(s, c, m, s.jobs[s.messages[m].job].repairs) && c.holds[s.nextId].phase == Fresh
  {
    var read := Read(s, m, timeout);
    assert ClaimAllowed(read, s.messages[m].queue, s.messages[m].job);
    var c := Claim(read, m);
    var job := s.jobs[s.messages[m].job];
    assert job.(status := Processing, attempts := job.attempts + 1, nextAttempt := None, repairs := job.repairs)
        == job.(status := Processing, attempts := job.attempts + 1, nextAttempt := None);
  }

  lemma RunWorks(s: State, c: State, m: Id, repairs: nat, phase: Phase)
    requires Servable(s, m) && Working(s, c, m, repairs)
    ensures Working(s, Execute(c, s.nextId, phase), m, repairs)
    ensures Execute(c, s.nextId, phase).holds[s.nextId].phase == phase
  {
  }

  lemma RepairWorks(s: State, c: State, m: Id)
    requires Servable(s, m) && Working(s, c, m, 0)
    ensures RepairRecorded(c, s.nextId)
    ensures Working(s, RecordRepair(c, s.nextId), m, 1)
    ensures RecordRepair(c, s.nextId).holds[s.nextId].phase == Repairing
  {
  }

  // ---- how the turn ends ---------------------------------------------------------------------

  // Before what the result spawns
  ghost predicate Ended(s: State, t: State, m: Id, job: Job, status: TargetStatus, letters: nat)
    requires Servable(s, m)
  {
    var j := s.messages[m].job;
    var x := s.jobs[j].target;
    && t.jobs == s.jobs[j := job] && t.targets == s.targets[x := s.targets[x].(status := status)]
    && (forall w | w in s.messages && w != m :: w in t.messages && t.messages[w] == s.messages[w])
    && var letter := DeadLetter(QueueOf(s.jobs[j].kind), j);
       t.dead == s.dead[letter := s.dead[letter] + letters]
  }

  function Worked(s: State, m: Id, repairs: nat, status: JobStatus): Job
    requires Servable(s, m)
  {
    var job := s.jobs[s.messages[m].job];
    job.(status := status, attempts := job.attempts + 1, nextAttempt := None, repairs := repairs)
  }

  lemma FailEnds(s: State, c: State, m: Id, repairs: nat)
    requires Servable(s, m) && Working(s, c, m, repairs)
    ensures var t := Fail(c, s.nextId);
            Ended(s, t, m, Worked(s, m, repairs, Failed), TFailed, 1) && m !in t.messages && FailCommits(c, s.nextId)
  {
  }

  lemma RetryEnds(s: State, c: State, m: Id, repairs: nat, at: real)
    requires Servable(s, m) && Working(s, c, m, repairs) && forall w | w in s.messages :: w < s.nextId
    ensures RetryCommits(c, s.nextId, at)
    ensures var t := Retry(c, s.nextId, at); var j := s.messages[m].job;
            && Ended(s, t, m, Worked(s, m, repairs, Queued).(nextAttempt := Some(at)), TProcessing, 0)
            && m !in t.messages && s.nextId + 1 in t.messages
            && t.messages[s.nextId + 1] == Message(QueueOf(s.jobs[j].kind), j, at)
  {
  }

  lemma DropEnds(s: State, c: State, m: Id, repairs: nat)
    requires Servable(s, m) && Working(s, c, m, repairs)
    ensures var t := Drop(c, s.nextId);
            Ended(s, t, m, Worked(s, m, repairs, Processing), TProcessing, 0) && m in t.messages
  {
  }

  lemma SaveEnds(s: State, c: State, m: Id, repairs: nat, outcome: TargetStatus)
    requires Servable(s, m) && Working(s, c, m, repairs)
    requires PossibleOutcome(s.jobs[s.messages[m].job].kind, outcome) && outcome != TFailed
    ensures CompleteCommits(c, s.nextId, outcome)
    ensures var hold := c.holds[s.nextId];
            var t := Drop(Discard(Completed(c, hold, outcome), hold.message), s.nextId);
            && Ended(s, t, m, Worked(s, m, repairs, Succeeded), outcome, 0) && m !in t.messages
            && t.now == s.now && t.nextId == s.nextId + 1
  {
  }

  lemma RefusedEnds(s: State, c: State, m: Id, repairs: nat)
    requires Servable(s, m) && Working(s, c, m, repairs)
    ensures !CompleteCommits(c, s.nextId, TFailed)
    ensures AdapterCompletes(c, c.holds[s.nextId]) && JobRunning(c, c.holds[s.nextId].job)
  {
  }

  // Everything that was there stays, and what is published comes behind it.
  lemma {:induction false} PublishedBehind(s: State, specs: seq<Spec>)
    ensures var t := PublishAll(s, specs);
            && t.now == s.now && t.dead == s.dead && t.nextId >= s.nextId
            && (forall i | i in s.jobs && i < s.nextId :: i in t.jobs && t.jobs[i] == s.jobs[i])
            && (forall x | x in s.targets && x < s.nextId :: x in t.targets && t.targets[x] == s.targets[x])
            && (forall w | w < s.nextId :: w in t.messages <==> w in s.messages)
            && (forall w | w in s.messages && w < s.nextId :: t.messages[w] == s.messages[w])
    decreases |specs|
  {
    if specs != [] {
      PublishedBehind(Publish(s, specs[0]), specs[1..]);
    }
  }

  lemma FirstIsSpawned(s: State, specs: seq<Spec>)
    requires specs != []
    ensures IsSpawned(PublishAll(s, specs), s.now, specs[0], s.nextId)
  {
    PublishedBehind(Publish(s, specs[0]), specs[1..]);
  }

  lemma {:induction false} PublishedAll(s: State, specs: seq<Spec>)
    ensures AllSpawned(PublishAll(s, specs), s.now, specs, s.nextId)
    decreases |specs|
  {
    if specs != [] {
      var one := Publish(s, specs[0]);
      PublishedAll(one, specs[1..]);
      FirstIsSpawned(s, specs);
      var t := PublishAll(s, specs);
      forall k | 0 <= k < |specs| ensures IsSpawned(t, s.now, specs[k], s.nextId + 3 * k) {
        if k > 0 {
          assert IsSpawned(t, s.now, specs[1..][k - 1], one.nextId + 3 * (k - 1));
        }
      }
    }
  }

  // ---- all together --------------------------------------------------------------------------

  ghost predicate IdsFresh(s: State) {
    && (forall i | i in s.jobs :: i < s.nextId) && (forall x | x in s.targets :: x < s.nextId)
    && (forall w | w in s.messages :: w < s.nextId)
  }

  lemma SavedEnds(s: State, c: State, m: Id, repairs: nat, outcome: TargetStatus, spawned: seq<Spec>)
    requires Servable(s, m) && Working(s, c, m, repairs) && IdsFresh(s)
    requires PossibleOutcome(s.jobs[s.messages[m].job].kind, outcome) && outcome != TFailed
    ensures var t := Complete(c, s.nextId, outcome, spawned);
            var specs := if s.jobs[s.messages[m].job].kind == ConversationText then spawned else [];
            EndsAs(s, t, m, repairs, Succeeds(outcome, specs)) && OthersStay(s, t, m)
  {
    var hold := c.holds[s.nextId];
    var done := Drop(Discard(Completed(c, hold, outcome), hold.message), s.nextId);
    var specs := if hold.kind == ConversationText then spawned else [];
    SaveEnds(s, c, m, repairs, outcome);
    PublishedBehind(done, specs);
    PublishedAll(done, specs);
  }

  lemma ErrorEnds(s: State, c: State, m: Id, repairs: nat, failure: ProviderFailure, jitter: real)
    requires Servable(s, m) && Working(s, c, m, repairs) && IdsFresh(s)
    ensures var t := HandleFailure(c, s.nextId, failure, jitter);
            EndsAs(s, t, m, repairs, FateOfError(s.jobs[s.messages[m].job], s.now, failure, jitter))
            && OthersStay(s, t, m)
  {
    var hold := c.holds[s.nextId];
    var decision := Decide(hold.attempt, hold.deadline, c.now, failure, jitter);
    if decision.Some? {
      RetryEnds(s, c, m, repairs, After(c.now, decision.value));
    } else {
      FailEnds(s, c, m, repairs);
    }
  }

  lemma CrashEnds(s: State, c: State, m: Id, repairs: nat)
    requires Servable(s, m) && Working(s, c, m, repairs)
    ensures EndsAs(s, Drop(c, s.nextId), m, repairs, StaysProcessing) && OthersStay(s, Drop(c, s.nextId), m)
  {
    DropEnds(s, c, m, repairs);
  }

  lemma StepIs(c: State, h: Id)
    requires h in c.holds
    ensures Step(c, ECrash(h)) == Drop(c, h)
    ensures c.holds[h].phase == Ran && c.holds[h].repairs < 1 ==> Step(c, EMarkRepair(h)) == MarkRepair(c, h)
    ensures c.holds[h].phase == Repairing ==> Step(c, EExecuteRepair(h)) == Execute(c, h, Reran)
  {
  }

  lemma ReportIs(c: State, h: Id, failure: ProviderFailure, jitter: real)
    requires HasRun(c, h)
    ensures Step(c, EProviderFailure(h, failure, jitter)) == HandleFailure(c, h, failure, jitter)
  {
  }

  lemma CompleteIs(c: State, h: Id, outcome: TargetStatus, spawned: seq<Spec>)
    requires HasRun(c, h) && PossibleOutcome(c.holds[h].kind, outcome)
    ensures Step(c, EComplete(h, outcome, spawned)) == Complete(c, h, outcome, spawned)
  {
  }

  lemma OutputEnds(s: State, c: State, m: Id, repairs: nat, outcome: TargetStatus, spawned: seq<Spec>)
    requires Servable(s, m) && Working(s, c, m, repairs) && IdsFresh(s) && HasRun(c, s.nextId)
    requires PossibleOutcome(s.jobs[s.messages[m].job].kind, outcome)
    ensures var job := s.jobs[s.messages[m].job];
            var t := Step(c, EComplete(s.nextId, outcome, spawned));
            var fate := if outcome == TFailed then StaysProcessing
                        else Succeeds(outcome, if job.kind == ConversationText then spawned else []);
            EndsAs(s, t, m, repairs, fate) && OthersStay(s, t, m)
            && Answer(c, EComplete(s.nextId, outcome, spawned)) == AnswerTo(fate)
  {
    CompleteIs(c, s.nextId, outcome, spawned);
    if outcome == TFailed {
      RefusedEnds(s, c, m, repairs);
      CrashEnds(s, c, m, repairs);
    } else {
      SaveEnds(s, c, m, repairs, outcome);
      SavedEnds(s, c, m, repairs, outcome, spawned);
    }
  }

  lemma ErrorAnswers(s: State, c: State, m: Id, repairs: nat, failure: ProviderFailure, jitter: real)
    requires Servable(s, m) && Working(s, c, m, repairs) && IdsFresh(s)
    ensures Answer(c, EProviderFailure(s.nextId, failure, jitter)) == Some(true)
  {
    var hold := c.holds[s.nextId];
    var decision := Decide(hold.attempt, hold.deadline, c.now, failure, jitter);
    if decision.Some? {
      RetryEnds(s, c, m, repairs, After(c.now, decision.value));
    } else {
      FailEnds(s, c, m, repairs);
    }
  }

  lemma ReportEnds(s: State, c: State, m: Id, repairs: nat, failure: ProviderFailure, jitter: real)
    requires Servable(s, m) && Working(s, c, m, repairs) && IdsFresh(s) && HasRun(c, s.nextId)
    ensures var t := Step(c, EProviderFailure(s.nextId, failure, jitter));
            var fate := FateOfError(s.jobs[s.messages[m].job], s.now, failure, jitter);
            EndsAs(s, t, m, repairs, fate) && OthersStay(s, t, m)
            && Answer(c, EProviderFailure(s.nextId, failure, jitter)) == AnswerTo(fate)
  {
    ErrorAnswers(s, c, m, repairs, failure, jitter);
    ReportIs(c, s.nextId, failure, jitter);
    ErrorEnds(s, c, m, repairs, failure, jitter);
  }

  lemma ConclusionEnds(s: State, c: State, m: Id, repairs: nat, reply: Reply, script: Script)
    requires Servable(s, m) && Working(s, c, m, repairs) && IdsFresh(s) && HasRun(c, s.nextId)
    ensures var job := s.jobs[s.messages[m].job];
            var stop := StopWith(c, Conclusion(s.nextId, job.kind, reply, script));
            EndsAs(s, stop.state, m, repairs, FateOfReply(job, s.now, reply, script)) && OthersStay(s, stop.state, m)
            && stop.worked == AnswerTo(FateOfReply(job, s.now, reply, script))
  {
    StepIs(c, s.nextId);
    match reply
    case OtherError => CrashEnds(s, c, m, repairs);
    case ProviderError(failure, _) => ReportEnds(s, c, m, repairs, failure, script.jitter);
    case Output(outcome, spawned) =>
      if !PossibleOutcome(s.jobs[s.messages[m].job].kind, outcome) {
        CrashEnds(s, c, m, repairs);
      } else if script.saving.Some? {
        ReportEnds(s, c, m, repairs, script.saving.value, script.jitter);
      } else {
        OutputEnds(s, c, m, repairs, outcome, spawned);
      }
  }

  lemma RunEnds(s: State, c: State, m: Id, script: Script)
    requires Servable(s, m) && Working(s, c, m, s.jobs[s.messages[m].job].repairs) && IdsFresh(s)
    requires c.holds[s.nextId].phase == Ran && s.now < s.jobs[s.messages[m].job].deadline
    ensures var stop := AfterRun(c, s.nextId, script);
            TurnEnds(s, stop.state, m, script) && OthersStay(s, stop.state, m)
            && stop.worked == AnswerTo(FateOf(s.jobs[s.messages[m].job], s.now, script))
  {
    var job := s.jobs[s.messages[m].job];
    var h := s.nextId;
    if NeedsRepair(script.first, job.repairs) {
      RepairWorks(s, c, m);
      StepIs(c, h);
      var marked := RecordRepair(c, h);
      RunWorks(s, marked, m, 1, Reran);
      StepIs(marked, h);
      ConclusionEnds(s, Execute(marked, h, Reran), m, 1, script.second, script);
    } else {
      ConclusionEnds(s, c, m, job.repairs, script.first, script);
    }
  }

  lemma LateEnds(s: State, c: State, m: Id, script: Script)
    requires Servable(s, m) && Working(s, c, m, s.jobs[s.messages[m].job].repairs) && IdsFresh(s)
    requires c.holds[s.nextId].phase == Fresh && s.jobs[s.messages[m].job].deadline <= s.now
    ensures var stop := AfterClaim(c, s.nextId, script);
            TurnEnds(s, stop.state, m, script) && OthersStay(s, stop.state, m) && stop.worked == Some(true)
  {
    FailEnds(s, c, m, s.jobs[s.messages[m].job].repairs);
  }

  // A message whose job can be claimed: job, row and message come out as the replies and the time left
  // decide, and nothing else moves.
  lemma TurnComesTo(s: State, m: Id, timeout: real, script: Script)
    requires Servable(s, m) && IdsFresh(s)
    ensures var stop := Turn(s, m, timeout, script);
            TurnEnds(s, stop.state, m, script) && OthersStay(s, stop.state, m)
            && stop.worked == AnswerTo(FateOf(s.jobs[s.messages[m].job], s.now, script))
  {
    ClaimWorks(s, m, timeout);
    var c := ReadAndClaim(s, m, timeout);
    var job := s.jobs[s.messages[m].job];
    if job.deadline <= s.now {
      LateEnds(s, c, m, script);
    } else {
      RunWorks(s, c, m, job.repairs, Ran);
      RunEnds(s, Execute(c, s.nextId, Ran), m, script);
    }
  }

  // ---- behind a pass of the reaper -----------------------------------------------------------

  lemma {:induction false} PowerIsPositive(n: nat)
    ensures Power2(n) >= 1.0
  {
    if n > 0 {
      PowerIsPositive(n - 1);
    }
  }

  // A pass leaves alone what is not being processed: what it queues is due later, and so is the message.
  ghost predicate PassedBy(s: State, r: State) {
    && r.now == s.now && s.nextId <= r.nextId && r.jobs.Keys == s.jobs.Keys
    && (forall w | w in s.messages :: w in r.messages && r.messages[w] == s.messages[w])
    && (forall w | w in r.messages && w !in s.messages :: r.messages[w].visibleAt > s.now)
    && (forall j | j in s.jobs && s.jobs[j].status != Processing :: r.jobs[j] == s.jobs[j])
    && (forall j | j in s.jobs && s.jobs[j].status == Processing && r.jobs[j].status == Queued ::
          !Due(r.jobs[j], s.now))
    && (forall d: DeadLetter | d.job in s.jobs && s.jobs[d.job].status != Processing :: r.dead[d] == s.dead[d])
  }

  lemma PassOne(s: State, queue: QueueName, x: Id)
    requires forall w | w in s.messages :: w < s.nextId
    ensures PassedBy(s, ReapOne(s, queue, x))
    ensures forall w | w in ReapOne(s, queue, x).messages :: w < ReapOne(s, queue, x).nextId
  {
    if Expired(s, queue, x) {
      PowerIsPositive(if s.jobs[x].attempts == 0 then 0 else s.jobs[x].attempts - 1);
      assert BackoffSeconds(s.jobs[x].attempts) >= 1.0;
    }
  }

  lemma {:induction false} PassAll(s: State, queue: QueueName, js: seq<Id>)
    requires forall w | w in s.messages :: w < s.nextId
    ensures PassedBy(s, ReapAll(s, queue, js))
    decreases |js|
  {
    if js != [] {
      PassOne(s, queue, js[0]);
      PassAll(ReapOne(s, queue, js[0]), queue, js[1..]);
      PassesJoin(s, ReapOne(s, queue, js[0]), ReapAll(s, queue, js));
    }
  }

  lemma PassesJoin(s: State, r: State, t: State)
    requires PassedBy(s, r) && PassedBy(r, t)
    ensures PassedBy(s, t)
  {
  }

  lemma QueuedIsAlone(s: State, j: Id)
    requires Inv(s) && j in s.jobs && s.jobs[j].status == Queued && s.jobs[j].target in s.targets
    ensures Alone(s, j)
  {
  }

  // A message a worker may read after the pass was there before it, and served just the same.
  lemma ServableBehindPass(s: State, queue: QueueName, js: seq<Id>, m: Id)
    requires Inv(s)
    requires var r := Reap(s, queue, js); m in r.messages && r.messages[m].visibleAt <= r.now
    ensures m in s.messages && Reap(s, queue, js).messages[m] == s.messages[m]
    ensures Servable(Reap(s, queue, js), m) <==> Servable(s, m)
    ensures Servable(s, m) ==> SameJobAndRow(s, Reap(s, queue, js), s.messages[m].job)
  {
    var r := Reap(s, queue, js);
    PassAll(s, queue, js);
    var j := r.messages[m].job;
    if j in s.jobs && s.jobs[j].status == Queued && s.jobs[j].target in s.targets {
      QueuedIsAlone(s, j);
      ReapAllLeavesOthers(s, queue, js, j);
    } else if Servable(r, m) {
      TargetsRemain(s, queue, js);
    }
  }

  lemma {:induction false} TargetsRemain(s: State, queue: QueueName, js: seq<Id>)
    ensures ReapAll(s, queue, js).targets.Keys == s.targets.Keys
    decreases |js|
  {
    if js != [] {
      TargetsRemain(ReapOne(s, queue, js[0]), queue, js[1..]);
    }
  }

  // So the whole turn comes to what the tables said before it.
  lemma TurnBehindPass(s: State, queue: QueueName, js: seq<Id>, m: Id, timeout: real, script: Script)
    requires Inv(s)
    requires var r := Reap(s, queue, js); m in r.messages && r.messages[m].visibleAt <= r.now && IdsFresh(r)
    requires Servable(s, m)
    ensures var stop := Turn(Reap(s, queue, js), m, timeout, script);
            TurnEnds(s, stop.state, m, script)
            && stop.worked == AnswerTo(FateOf(s.jobs[s.messages[m].job], s.now, script))
  {
    var r := Reap(s, queue, js);
    ServableBehindPass(s, queue, js, m);
    LettersStay(s, queue, js, s.messages[m].job);
    TurnComesTo(r, m, timeout, script);
    SameEnds(s, r, Turn(r, m, timeout, script).state, m, script);
  }

  lemma LettersStay(s: State, queue: QueueName, js: seq<Id>, j: Id)
    requires Inv(s) && j in s.jobs && s.jobs[j].status == Queued
    ensures forall d: DeadLetter | d.job == j :: Reap(s, queue, js).dead[d] == s.dead[d]
  {
    PassAll(s, queue, js);
  }

  lemma SameEnds(s: State, r: State, t: State, m: Id, script: Script)
    requires Servable(s, m) && Servable(r, m) && r.messages[m] == s.messages[m]
    requires SameJobAndRow(s, r, s.messages[m].job)
    requires forall d: DeadLetter | d.job == s.messages[m].job :: r.dead[d] == s.dead[d]
    ensures TurnEnds(r, t, m, script) ==> TurnEnds(s, t, m, script)
  {
  }

  // What a turn comes to that was not stopped by its reaper pass
  ghost predicate Served(s: State, t: State, queue: QueueName, served: Option<Id>, worked: Option<bool>, script: Script)
  {
    match served
    case None =>
      && worked == Some(false)
      && forall m | m in s.messages && s.messages[m].queue == queue :: s.messages[m].visibleAt > s.now
    case Some(m) =>
      && m in s.messages && s.messages[m].queue == queue && s.messages[m].visibleAt <= s.now
      && if Servable(s, m)
         then TurnEnds(s, t, m, script) && worked == AnswerTo(FateOf(s.jobs[s.messages[m].job], s.now, script))
         else m !in t.messages && worked == Some(true)
  }

  lemma TurnIsServed(s: State, queue: QueueName, js: seq<Id>, served: Option<Id>, timeout: real, script: Script,
        t: State, worked: Option<bool>)
    requires Inv(s)
    requires served.None? ==>
               && worked == Some(false) && t == Reap(s, queue, js)
               && forall m | m in t.messages && t.messages[m].queue == queue :: t.messages[m].visibleAt > t.now
    requires served.Some? ==>
               var r := Reap(s, queue, js);
               && served.value in r.messages && r.messages[served.value].queue == queue
               && r.messages[served.value].visibleAt <= r.now
               && Stop(t, worked) == Turn(r, served.value, timeout, script)
    ensures Served(s, t, queue, served, worked, script)
  {
    PassAll(s, queue, js);
    if served.Some? {
      var m := served.value;
      ServableBehindPass(s, queue, js, m);
      if Servable(s, m) {
        IdsBehindPass(s, queue, js);
        TurnBehindPass(s, queue, js, m, timeout, script);
      }
    }
  }

  lemma IdsBehindPass(s: State, queue: QueueName, js: seq<Id>)
    requires Inv(s)
    ensures IdsFresh(Reap(s, queue, js))
  {
    ReapKeepsInv(s, queue, js);
  }
}
