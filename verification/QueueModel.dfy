// The background-job protocol as a state machine: processing_jobs, the rows jobs write their
// results to, the PGMQ messages that wake workers up, the dead-letter queues, and the claims
// workers are holding. Every committed transaction is one step; a transaction that rolls back
// leaves the tables as they were. The database checks each inserted or updated job against its row
// when the transaction commits, and rolls back where they do not fit.
module QueueModel {
  import opened Jobs

  type Id = nat

  // TUnavailable stands for every status of a target that neither waits for a job nor can be
  // retried by the user: invalidated rows, and configurations in use by a room.
  datatype TargetStatus = TProcessing | TReady | TPartial | TFailed | TUnavailable

  // `claimable` is the part of an adapter's claim query that looks beyond the status and token of
  // the row: room in progress, audio current, document current and undeleted, and so on.
  datatype Target = Target(kind: JobType, status: TargetStatus, token: nat, claimable: bool)

  datatype Job = Job(kind: JobType, target: Id, status: JobStatus, attempts: nat, repairs: nat,
                     nextAttempt: Option<real>, deadline: real)

  datatype Message = Message(queue: QueueName, job: Id, visibleAt: real)

  datatype DeadLetter = DeadLetter(queue: QueueName, job: Id)

  // How far a worker got with its claim: not yet executed, executed, schema repair recorded,
  // executed again.
  datatype Phase = Fresh | Ran | Repairing | Reran

  // A ClaimedJob together with the message that delivered it.
  datatype Hold = Hold(job: Id, kind: JobType, target: Id, message: Id, token: nat, attempt: nat,
                       repairs: nat, deadline: real, phase: Phase)

  // `runs` counts provider executions per job. It is a history variable: no table stores it.
  datatype State = State(now: real, jobs: map<Id, Job>, targets: map<Id, Target>, messages: map<Id, Message>,
                         dead: multiset<DeadLetter>, holds: map<Id, Hold>, runs: map<Id, nat>,
                         nextId: nat, nextToken: nat)

  const INIT := State(0.0, map[], map[], map[], multiset{}, map[], map[], 0, 1)

  function After(now: real, delay: real): real {
    now + delay
  }

  function Runs(s: State, j: Id): nat {
    if j in s.runs then s.runs[j] else 0
  }

  // ---- publishing --------------------------------------------------------------------------

  datatype Spec = Spec(kind: JobType, claimable: bool)

  // insert_job + enqueue for an existing target
  function Enqueue(s: State, t: Id): State
    requires t in s.targets
  {
    var kind := s.targets[t].kind;
    var j := s.nextId;
    s.(jobs := s.jobs[j := Job(kind, t, Queued, 0, 0, None, s.now + DeadlineSeconds(kind))],
       messages := s.messages[j + 1 := Message(QueueOf(kind), j, s.now)],
       nextId := s.nextId + 2)
  }

  function AddRow(s: State, spec: Spec): State {
    s.(targets := s.targets[s.nextId := Target(spec.kind, TProcessing, s.nextToken, spec.claimable)],
       nextId := s.nextId + 1,
       nextToken := s.nextToken + 1)
  }

  // A new target row and its first job.
  function Publish(s: State, spec: Spec): State {
    Enqueue(AddRow(s, spec), s.nextId)
  }

  function PublishAll(s: State, specs: seq<Spec>): State
    decreases |specs|
  {
    if specs == [] then s else PublishAll(Publish(s, specs[0]), specs[1..])
  }

  // ---- reading and claiming ----------------------------------------------------------------

  predicate Claimable(s: State, t: Id) {
    t in s.targets && s.targets[t].status == TProcessing && s.targets[t].claimable
  }

  predicate Due(job: Job, now: real) {
    job.nextAttempt.None? || job.nextAttempt.value <= now
  }

  predicate ClaimAllowed(s: State, queue: QueueName, j: Id) {
    && j in s.jobs && s.jobs[j].status == Queued && Due(s.jobs[j], s.now)
    && QueueOf(s.jobs[j].kind) == queue
    && Claimable(s, s.jobs[j].target)
  }

  // pgmq.read hides the message until now + timeout.
  function Read(s: State, m: Id, timeout: real): State
    requires m in s.messages
  {
    s.(messages := s.messages[m := s.messages[m].(visibleAt := s.now + timeout)])
  }

  function Discard(s: State, m: Id): State {
    s.(messages := s.messages - {m})
  }

  function Claim(s: State, m: Id): State
    requires m in s.messages && ClaimAllowed(s, s.messages[m].queue, s.messages[m].job)
  {
    var j := s.messages[m].job;
    var job := s.jobs[j];
    var hold := Hold(j, job.kind, job.target, m, s.targets[job.target].token, job.attempts + 1,
                     job.repairs, job.deadline, Fresh);
    s.(jobs := s.jobs[j := job.(status := Processing, attempts := job.attempts + 1, nextAttempt := None)],
       holds := s.holds[s.nextId := hold],
       nextId := s.nextId + 1)
  }

  // read_one, claim, and the discard that follows a refused claim
  function ReadAndClaim(s: State, m: Id, timeout: real): State
    requires m in s.messages
  {
    var read := Read(s, m, timeout);
    if ClaimAllowed(read, s.messages[m].queue, s.messages[m].job) then Claim(read, m) else Discard(read, m)
  }

  // ---- what a worker does with its claim ---------------------------------------------------

  function Drop(s: State, h: Id): State {
    s.(holds := s.holds - {h})
  }

  function AdvancePhase(s: State, h: Id, phase: Phase): State
    requires h in s.holds
  {
    s.(holds := s.holds[h := s.holds[h].(phase := phase)])
  }

  function Execute(s: State, h: Id, phase: Phase): State
    requires h in s.holds
  {
    var j := s.holds[h].job;
    AdvancePhase(s, h, phase).(runs := s.runs[j := Runs(s, j) + 1])
  }

  predicate JobRunning(s: State, j: Id) {
    j in s.jobs && s.jobs[j].status == Processing
  }

  // validate_processing_job_domain_state: the row status that a job status goes with
  predicate StatusFits(kind: JobType, status: JobStatus, row: TargetStatus) {
    match status
    case Queued => row == TProcessing
    case Processing => row == TProcessing
    case Failed => row == TFailed
    case Succeeded => row == TReady || (row == TPartial && (kind == TurnFeedback || kind == SessionResult))
    case Cancelled => true
  }

  // The deferred check of one job at commit
  predicate RowFits(s: State, j: Id)
    requires j in s.jobs
  {
    || s.jobs[j].status == Cancelled
    || (s.jobs[j].target in s.targets
        && StatusFits(s.jobs[j].kind, s.jobs[j].status, s.targets[s.jobs[j].target].status))
  }

  predicate RepairRecorded(s: State, h: Id)
    requires h in s.holds
  {
    && JobRunning(s, s.holds[h].job) && s.jobs[s.holds[h].job].repairs == 0
    && RowFits(s, s.holds[h].job)
  }

  function RecordRepair(s: State, h: Id): State
    requires h in s.holds && RepairRecorded(s, h)
  {
    var j := s.holds[h].job;
    AdvancePhase(s, h, Repairing).(jobs := s.jobs[j := s.jobs[j].(repairs := 1)])
  }

  // mark_schema_repair; a lost claim raises and the worker moves on
  function MarkRepair(s: State, h: Id): State
    requires h in s.holds
  {
    if RepairRecorded(s, h) then RecordRepair(s, h) else Drop(s, h)
  }

  // The claim conditions that an adapter's complete checks again.
  predicate RechecksTarget(kind: JobType) {
    kind == ConversationText || kind == TtsGeneration || kind == DocumentAnalysis
  }

  predicate TokenMatches(row: Target, hold: Hold) {
    Tokened(hold.kind) ==> row.token == hold.token
  }

  predicate AdapterCompletes(s: State, hold: Hold) {
    && hold.target in s.targets
    && s.targets[hold.target].status == TProcessing
    && TokenMatches(s.targets[hold.target], hold)
    && (RechecksTarget(hold.kind) ==> s.targets[hold.target].claimable)
  }

  predicate PossibleOutcome(kind: JobType, outcome: TargetStatus) {
    match outcome
    case TReady => true
    case TPartial => kind == TurnFeedback || kind == SessionResult
    case TFailed => kind == SessionResult
    case _ => false
  }

  function SetTarget(s: State, t: Id, status: TargetStatus): State
    requires t in s.targets
  {
    s.(targets := s.targets[t := s.targets[t].(status := status)])
  }

  // The job reaches a terminal status; a failure goes to the dead-letter queue of its own queue.
  function Settle(s: State, j: Id, status: JobStatus): State
    requires j in s.jobs
  {
    s.(jobs := s.jobs[j := s.jobs[j].(status := status)],
       dead := if status == Failed then s.dead + multiset{DeadLetter(QueueOf(s.jobs[j].kind), j)} else s.dead)
  }

  // Row and job after the adapter and the job update, before the commit
  function Completed(s: State, hold: Hold, outcome: TargetStatus): State
    requires hold.target in s.targets && hold.job in s.jobs
  {
    Settle(SetTarget(s, hold.target, outcome), hold.job, Succeeded)
  }

  predicate CompleteCommits(s: State, h: Id, outcome: TargetStatus) {
    && h in s.holds
    && AdapterCompletes(s, s.holds[h])
    && JobRunning(s, s.holds[h].job)
    && RowFits(Completed(s, s.holds[h], outcome), s.holds[h].job)
  }

  // `spawned` are the targets and jobs that the conversation adapter's fan-out creates.
  function Complete(s: State, h: Id, outcome: TargetStatus, spawned: seq<Spec>): State
    requires h in s.holds
  {
    var hold := s.holds[h];
    if CompleteCommits(s, h, outcome) then
      var completed := Drop(Discard(Completed(s, hold, outcome), hold.message), h);
      PublishAll(completed, if hold.kind == ConversationText then spawned else [])
    else
      Drop(s, h)
  }

  // Back to queued until `at`, with a message that becomes visible then.
  function Postpone(s: State, j: Id, queue: QueueName, at: real): State
    requires j in s.jobs
  {
    s.(jobs := s.jobs[j := s.jobs[j].(status := Queued, nextAttempt := Some(at))],
       messages := s.messages[s.nextId := Message(queue, j, at)],
       nextId := s.nextId + 1)
  }

  predicate RetryCommits(s: State, h: Id, at: real) {
    && h in s.holds
    && JobRunning(s, s.holds[h].job)
    && RowFits(Postpone(s, s.holds[h].job, QueueOf(s.holds[h].kind), at), s.holds[h].job)
  }

  function Retry(s: State, h: Id, at: real): State
    requires h in s.holds
  {
    var hold := s.holds[h];
    if RetryCommits(s, h, at) then
      Drop(Discard(Postpone(s, hold.job, QueueOf(hold.kind), at), hold.message), h)
    else
      Drop(s, h)
  }

  // _fail_target is guarded by status and token; a session result by status alone.
  predicate AdapterFails(s: State, hold: Hold) {
    && hold.target in s.targets
    && s.targets[hold.target].status == TProcessing
    && TokenMatches(s.targets[hold.target], hold)
  }

  // The job row is guarded by its status only: not by the token, and not by the attempt.
  function Failing(s: State, hold: Hold): State
    requires hold.job in s.jobs
  {
    Settle(if AdapterFails(s, hold) then SetTarget(s, hold.target, TFailed) else s, hold.job, Failed)
  }

  predicate FailCommits(s: State, h: Id) {
    && h in s.holds
    && JobRunning(s, s.holds[h].job)
    && RowFits(Failing(s, s.holds[h]), s.holds[h].job)
  }

  function Fail(s: State, h: Id): State
    requires h in s.holds
  {
    if FailCommits(s, h) then Drop(Discard(Failing(s, s.holds[h]), s.holds[h].message), h) else Drop(s, h)
  }

  // _handle_provider_failure
  function HandleFailure(s: State, h: Id, failure: ProviderFailure, jitter: real): State
    requires h in s.holds
  {
    var decision := Decide(s.holds[h].attempt, s.holds[h].deadline, s.now, failure, jitter);
    if decision.Some? then Retry(s, h, After(s.now, decision.value)) else Fail(s, h)
  }

  // ---- the deadline reaper -----------------------------------------------------------------

  predicate Expired(s: State, queue: QueueName, j: Id) {
    JobRunning(s, j) && s.jobs[j].deadline <= s.now && QueueOf(s.jobs[j].kind) == queue
  }

  predicate ReaperRequeues(s: State, j: Id)
    requires j in s.jobs
  {
    && s.jobs[j].kind == TurnFeedback
    && s.jobs[j].attempts < MAXIMUM_ATTEMPTS
    && s.jobs[j].target in s.targets
    && s.targets[s.jobs[j].target].status == TProcessing
  }

  // A fresh token fences off the worker that ran out of time, and the clock starts again.
  function Refence(s: State, j: Id, at: real): State
    requires j in s.jobs && s.jobs[j].target in s.targets
  {
    var t := s.jobs[j].target;
    s.(targets := s.targets[t := s.targets[t].(token := s.nextToken)],
       jobs := s.jobs[j := s.jobs[j].(deadline := at + DeadlineSeconds(s.jobs[j].kind))],
       nextToken := s.nextToken + 1)
  }

  // _retry_expired_feedback
  function Requeue(s: State, j: Id, at: real): State
    requires j in s.jobs && s.jobs[j].target in s.targets
  {
    Postpone(Refence(s, j, at), j, QueueOf(s.jobs[j].kind), at)
  }

  // One job of recover_expired. The token is read from the row itself, so it always matches.
  function ReapOne(s: State, queue: QueueName, j: Id): State {
    if !Expired(s, queue, j) then s
    else if ReaperRequeues(s, j) then Requeue(s, j, After(s.now, BackoffSeconds(s.jobs[j].attempts)))
    else
      var t := s.jobs[j].target;
      var marked := if t in s.targets && s.targets[t].status == TProcessing then SetTarget(s, t, TFailed) else s;
      Settle(marked, j, Failed)
  }

  function ReapAll(s: State, queue: QueueName, js: seq<Id>): State
    decreases |js|
  {
    if js == [] then s else ReapAll(ReapOne(s, queue, js[0]), queue, js[1..])
  }

  predicate ReapCommits(s: State, queue: QueueName, js: seq<Id>) {
    forall j | j in js && Expired(s, queue, j) :: j in ReapAll(s, queue, js).jobs && RowFits(ReapAll(s, queue, js), j)
  }

  // All expired jobs the reaper could lock, in one transaction: all of them or none.
  function Reap(s: State, queue: QueueName, js: seq<Id>): State {
    if ReapCommits(s, queue, js) then ReapAll(s, queue, js) else s
  }

  // ---- the rest of the API -----------------------------------------------------------------

  predicate HasActiveJob(s: State, t: Id) {
    exists j :: j in s.jobs && s.jobs[j].target == t && Active(s.jobs[j].status)
  }

  predicate UserRetryable(row: Target) {
    match row.kind
    case ConversationText => row.status == TFailed
    case EmotionAnalysis => row.status == TFailed
    case TtsGeneration => row.status == TFailed && row.claimable
    case TurnFeedback => row.status == TFailed || row.status == TPartial
    case ConfigurationGeneration => row.status == TFailed || row.status == TReady
    case SessionResult => row.status == TFailed
    case DocumentAnalysis => false
    case GoalProgress => false
  }

  // The row goes back to processing, with a fresh token where it has one.
  function Renew(s: State, t: Id): State
    requires t in s.targets
  {
    var row := s.targets[t];
    s.(targets := s.targets[t := row.(status := TProcessing,
                                      token := if Tokened(row.kind) then s.nextToken else row.token)],
       nextToken := s.nextToken + 1)
  }

  // retry_response, retry_emotion, retry_feedback, retry_tts, regenerate_configuration and
  // results.retry
  function UserRetry(s: State, t: Id): State
    requires t in s.targets
  {
    if UserRetryable(s.targets[t]) && !HasActiveJob(s, t) then Enqueue(Renew(s, t), t) else s
  }

  function CancelJobs(s: State, t: Id): State {
    s.(jobs := map j | j in s.jobs ::
         if s.jobs[j].target == t && Active(s.jobs[j].status) then s.jobs[j].(status := Cancelled) else s.jobs[j])
  }

  // A document is deleted or replaced: the jobs of its analysis are cancelled. Deletion also
  // invalidates the analysis row; replacement leaves its status alone.
  function CancelAnalysis(s: State, t: Id, deleted: bool): State
    requires t in s.targets
  {
    var row := s.targets[t];
    var status := if deleted && (row.status == TProcessing || row.status == TReady) then TUnavailable else row.status;
    CancelJobs(s, t).(targets := s.targets[t := row.(status := status, claimable := false)])
  }

  // delete_document invalidates the configurations built on it and leaves their jobs alone.
  function InvalidateConfiguration(s: State, t: Id): State
    requires t in s.targets
  {
    var row := s.targets[t];
    var status := if row.status == TProcessing || row.status == TReady then TUnavailable else row.status;
    s.(targets := s.targets[t := row.(status := status, claimable := false)])
  }

  // The room ends, an audio row is superseded, an analysis behind a configuration goes away.
  function Close(s: State, t: Id): State
    requires t in s.targets
  {
    s.(targets := s.targets[t := s.targets[t].(claimable := false)])
  }

  // A ready configuration enters a room.
  function UseConfiguration(s: State, t: Id): State
    requires t in s.targets
  {
    if s.targets[t].status == TReady then SetTarget(s, t, TUnavailable) else s
  }

  // Deleting a result or a whole room: the foreign keys delete the jobs with their target.
  function DeleteTarget(s: State, t: Id): State {
    s.(targets := s.targets - {t},
       jobs := map j | j in s.jobs && s.jobs[j].target != t :: s.jobs[j])
  }

  function Tick(s: State, elapsed: real): State {
    s.(now := s.now + elapsed)
  }

  // ---- the state machine -------------------------------------------------------------------

  datatype Event =
    | EPublish(spec: Spec)
    | ERead(message: Id, timeout: real)
    | EReadAndClaim(message: Id, timeout: real)
    | EExecute(hold: Id)
    | EMarkRepair(hold: Id)
    | EExecuteRepair(hold: Id)
    | EDeadlinePassed(hold: Id)
    | EComplete(hold: Id, outcome: TargetStatus, spawned: seq<Spec>)
    | EProviderFailure(hold: Id, failure: ProviderFailure, jitter: real)
    | ECrash(hold: Id)
    | EReap(queue: QueueName, expired: seq<Id>)
    | EUserRetry(target: Id)
    | ECancelAnalysis(target: Id, deleted: bool)
    | EInvalidateConfiguration(target: Id)
    | EClose(target: Id)
    | EUseConfiguration(target: Id)
    | EDelete(target: Id)
    | ETick(elapsed: real)

  predicate Visible(s: State, m: Id, timeout: real) {
    m in s.messages && s.messages[m].visibleAt <= s.now && timeout > 0.0
  }

  predicate HasRun(s: State, h: Id) {
    h in s.holds && (s.holds[h].phase == Ran || s.holds[h].phase == Reran)
  }

  predicate OfKind(s: State, t: Id, kind: JobType) {
    t in s.targets && s.targets[t].kind == kind
  }

  predicate Enabled(s: State, e: Event) {
    match e
    case EPublish(_) => true
    case ERead(m, timeout) => Visible(s, m, timeout)
    case EReadAndClaim(m, timeout) => Visible(s, m, timeout)
    case EExecute(h) => h in s.holds && s.holds[h].phase == Fresh && s.now < s.holds[h].deadline
    case EMarkRepair(h) => h in s.holds && s.holds[h].phase == Ran && s.holds[h].repairs < 1
    case EExecuteRepair(h) => h in s.holds && s.holds[h].phase == Repairing
    case EDeadlinePassed(h) => h in s.holds && s.holds[h].phase == Fresh && s.holds[h].deadline <= s.now
    case EComplete(h, outcome, _) => HasRun(s, h) && PossibleOutcome(s.holds[h].kind, outcome)
    case EProviderFailure(h, _, _) => HasRun(s, h)
    case ECrash(h) => h in s.holds
    case EReap(_, _) => true
    case EUserRetry(t) => t in s.targets
    case ECancelAnalysis(t, _) => OfKind(s, t, DocumentAnalysis)
    case EInvalidateConfiguration(t) => OfKind(s, t, ConfigurationGeneration)
    case EClose(t) => t in s.targets
    case EUseConfiguration(t) => OfKind(s, t, ConfigurationGeneration)
    case EDelete(t) => t in s.targets
    case ETick(elapsed) => elapsed >= 0.0
  }

  function Apply(s: State, e: Event): State
    requires Enabled(s, e)
  {
    match e
    case EPublish(spec) => Publish(s, spec)
    case ERead(m, timeout) => Read(s, m, timeout)
    case EReadAndClaim(m, timeout) => ReadAndClaim(s, m, timeout)
    case EExecute(h) => Execute(s, h, Ran)
    case EMarkRepair(h) => MarkRepair(s, h)
    case EExecuteRepair(h) => Execute(s, h, Reran)
    case EDeadlinePassed(h) => Fail(s, h)
    case EComplete(h, outcome, spawned) => Complete(s, h, outcome, spawned)
    case EProviderFailure(h, failure, jitter) => HandleFailure(s, h, failure, jitter)
    case ECrash(h) => Drop(s, h)
    case EReap(queue, expired) => Reap(s, queue, expired)
    case EUserRetry(t) => UserRetry(s, t)
    case ECancelAnalysis(t, deleted) => CancelAnalysis(s, t, deleted)
    case EInvalidateConfiguration(t) => InvalidateConfiguration(s, t)
    case EClose(t) => Close(s, t)
    case EUseConfiguration(t) => UseConfiguration(s, t)
    case EDelete(t) => DeleteTarget(s, t)
    case ETick(elapsed) => Tick(s, elapsed)
  }

  // An event that cannot happen in a state leaves it alone, so every event sequence is a run.
  function Step(s: State, e: Event): State {
    if Enabled(s, e) then Apply(s, e) else s
  }

  function Run(events: seq<Event>): State {
    if events == [] then INIT else Step(Run(events[..|events| - 1]), events[|events| - 1])
  }
}
