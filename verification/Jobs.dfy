// The job tables of app/services/jobs.py and the retry decision of worker/runtime.py.
module Jobs {

  datatype Option<+T> = None | Some(value: T)

  datatype JobType =
    | ConversationText
    | EmotionAnalysis
    | TtsGeneration
    | TurnFeedback
    | DocumentAnalysis
    | ConfigurationGeneration
    | SessionResult
    | GoalProgress

  datatype QueueName = ConversationQueue | InteractiveQueue | EvaluationQueue | DocumentQueue

  datatype JobStatus = Queued | Processing | Succeeded | Failed | Cancelled

  // The single table both publishers and workers route by.
  function QueueOf(kind: JobType): QueueName {
    match kind
    case ConversationText => ConversationQueue
    case EmotionAnalysis => InteractiveQueue
    case TtsGeneration => InteractiveQueue
    case TurnFeedback => EvaluationQueue
    case DocumentAnalysis => DocumentQueue
    case ConfigurationGeneration => DocumentQueue
    case SessionResult => EvaluationQueue
    case GoalProgress => EvaluationQueue
  }

  // Seconds a new job has, counted from its creation.
  function DeadlineSeconds(kind: JobType): real {
    match kind
    case ConversationText => 45.0
    case EmotionAnalysis => 15.0
    case TurnFeedback => 30.0
    case TtsGeneration => 45.0
    case DocumentAnalysis => 60.0
    case ConfigurationGeneration => 180.0
    case SessionResult => 180.0
    case GoalProgress => 60.0
  }

  const MAXIMUM_ATTEMPTS: nat := 3

  predicate Active(status: JobStatus) {
    status == Queued || status == Processing
  }

  predicate AllowedTransition(current: JobStatus, next: JobStatus) {
    match current
    case Queued => next == Processing || next == Cancelled
    case Processing => next == Queued || next == Succeeded || next == Failed || next == Cancelled
    case Succeeded => false
    case Failed => false
    case Cancelled => false
  }

  // Only the session result row has no processing_token column.
  predicate Tokened(kind: JobType) {
    kind != SessionResult
  }

  function Power2(n: nat): real {
    if n == 0 then 1.0 else 2.0 * Power2(n - 1)
  }

  // 2 ** max(0, attempts - 1), in seconds
  function BackoffSeconds(attempts: nat): real {
    Power2(if attempts == 0 then 0 else attempts - 1)
  }

  datatype ProviderFailure = ProviderFailure(retryable: bool, retryAfter: Option<real>)

  // RetryPlanner.decide. `jitter` is what the injected jitter function returned for this call;
  // nothing is assumed about it. None means "do not retry".
  function Decide(attempts: nat, deadline: real, now: real, failure: ProviderFailure, jitter: real)
    : (delay: Option<real>)
    ensures delay.Some? ==> failure.retryable && attempts < MAXIMUM_ATTEMPTS && now <= now + delay.value < deadline
    ensures deadline <= now ==> delay == None
  {
    if !failure.retryable || attempts >= MAXIMUM_ATTEMPTS then None
    else
      var delay := if failure.retryAfter.Some? then failure.retryAfter.value else jitter;
      if delay < 0.0 || delay >= deadline - now then None else Some(delay)
  }
}
