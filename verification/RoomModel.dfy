// One practice room: its messages, interview answers, replies in flight and running summary.
// The language model is arbitrary: every step takes whatever it answered as a parameter.
module RoomModel {
  import opened Jobs

  type Id = nat

  // Questions of an interview are 0, 1, ..., questions - 1 in the order of their sequence numbers.
  datatype Kind = FreeChat | Scenario(maxTurns: Option<nat>) | Interview(questions: nat)

  datatype Status = InProgress | Completed
  datatype Reason = NotEnded | AwaitingUserEnd | GoalAchieved | Ended

  datatype Sender = User | Persona
  // A message is identified by its position in the room; `sequence` is the stored column.
  datatype Message = Message(sequence: nat, sender: Sender, replyTo: Option<Id>)

  // In the order they were given. `message` is the answering message.
  datatype Answer = Answer(message: Id, question: nat, attempt: nat, current: bool)

  datatype RowStatus = Waiting | Answered | GaveUp
  datatype Row = Row(status: RowStatus, token: nat)

  // `covers` lists the sequence numbers the running summary was written from.
  datatype Context = Context(covers: seq<nat>, through: Option<Id>)

  // What a claim hands to the executor. `raw` lists the messages that come with their text.
  datatype Payload = Payload(covers: seq<nat>, raw: seq<nat>, answer: Option<Answer>, next: Option<nat>,
      limitReached: bool)

  datatype Claim = Claim(message: Id, token: nat, payload: Payload)

  // A session result waits for its job, which is active exactly as long, or its job is over.
  datatype ResultStatus = Preparing | Prepared | NotPrepared

  // `results` are the room's rows of session_results, in the order of their insertion. `announced` is
  // the question the persona asked last; it is a history variable.
  datatype Room = Room(kind: Kind, status: Status, reason: Reason, dismissed: bool, turns: nat,
                       messages: seq<Message>, answers: seq<Answer>, rows: map<Id, Row>,
                       context: Context, claims: map<Id, Claim>, results: seq<ResultStatus>,
                       announced: nat, nextToken: nat, nextClaim: nat)

  // ---- creation ------------------------------------------------------------------------------

  const OPENING := Message(1, Persona, None)

  // create_room, with the scenario's opening message if it has one
  function NewRoom(kind: Kind, opening: bool): Room {
    Room(kind, InProgress, NotEnded, false, 0, if opening then [OPENING] else [], [], map[],
         Context([], None), map[], [], 0, 0, 0)
  }

  // What the schema demands of a new room, and create_practice_room of an interview, which opens
  // with its first question.
  predicate Creatable(kind: Kind, opening: bool) {
    match kind
    case FreeChat => true
    case Scenario(max) => max.Some? && max.value > 0
    case Interview(n) => n > 0 && opening
  }

  // ---- sending a message ---------------------------------------------------------------------

  // coalesce(max(sequence_no), 0) + 1
  function NextSequence(messages: seq<Message>): nat {
    if messages == [] then 1
    else
      var rest := NextSequence(messages[..|messages| - 1]);
      var last := messages[|messages| - 1].sequence + 1;
      if last > rest then last else rest
  }

  predicate Covered(answers: seq<Answer>, q: nat) {
    exists i | 0 <= i < |answers| :: answers[i].question == q && answers[i].current
  }

  // The first question from q on without a current answer.
  function FirstOpen(answers: seq<Answer>, q: nat, n: nat): (open: Option<nat>)
    requires q <= n
    ensures open.Some? ==> q <= open.value < n && !Covered(answers, open.value)
    ensures open.Some? ==> forall i :: q <= i < open.value ==> Covered(answers, i)
    ensures open.None? ==> forall i :: q <= i < n ==> Covered(answers, i)
    decreases n - q
  {
    if q == n then None
    else if Covered(answers, q) then FirstOpen(answers, q + 1, n)
    else Some(q)
  }

  function OpenQuestion(room: Room): Option<nat> {
    if room.kind.Interview? then FirstOpen(room.answers, 0, room.kind.questions) else None
  }

  // The message names the open question, and names none where there is none.
  predicate Accepts(room: Room, question: Option<nat>) {
    room.status == InProgress && room.reason != AwaitingUserEnd && question == OpenQuestion(room)
  }

  // coalesce(max(answer_attempt_no) + 1, 1) over the answers to q
  function NextAttempt(answers: seq<Answer>, q: nat): nat {
    if answers == [] then 1
    else
      var rest := NextAttempt(answers[..|answers| - 1], q);
      var last := answers[|answers| - 1];
      if last.question == q && last.attempt + 1 > rest then last.attempt + 1 else rest
  }

  // create_message_and_job, as far as the room is concerned
  function Send(room: Room, question: Option<nat>): Room
    requires Accepts(room, question)
  {
    var m := |room.messages|;
    room.(messages := room.messages + [Message(NextSequence(room.messages), User, None)],
          answers := if question.Some?
                     then room.answers + [Answer(m, question.value, NextAttempt(room.answers, question.value), false)]
                     else room.answers,
          rows := room.rows[m := Row(Waiting, room.nextToken)],
          nextToken := room.nextToken + 1)
  }

  // ---- claiming a reply ----------------------------------------------------------------------

  // The sequence numbers above `from`, in order
  function RawAfter(messages: seq<Message>, from: nat): seq<nat> {
    if messages == [] then []
    else
      var last := messages[|messages| - 1].sequence;
      RawAfter(messages[..|messages| - 1], from) + (if last > from then [last] else [])
  }

  // The sequence number of the last summarised message, 0 if nothing was summarised
  function Through(room: Room): nat {
    if room.context.through.Some? && room.context.through.value < |room.messages|
    then room.messages[room.context.through.value].sequence
    else 0
  }

  function AnswerOf(answers: seq<Answer>, m: Id): Option<Answer> {
    if answers == [] then None
    else if answers[|answers| - 1].message == m then Some(answers[|answers| - 1])
    else AnswerOf(answers[..|answers| - 1], m)
  }

  function PayloadFor(room: Room, m: Id): Payload {
    var answer := if room.kind.Interview? then AnswerOf(room.answers, m) else None;
    Payload(room.context.covers, RawAfter(room.messages, Through(room)), answer,
            if answer.Some? && room.kind.Interview? && answer.value.question + 1 < room.kind.questions
            then Some(answer.value.question + 1) else None,
            room.kind.Interview? && room.kind.questions > 0 && |room.answers| >= room.kind.questions * 3)
  }

  predicate Claimable(room: Room, m: Id) {
    m in room.rows && room.rows[m].status == Waiting && room.status == InProgress
  }

  function ClaimReply(room: Room, m: Id): Room
    requires Claimable(room, m)
  {
    room.(claims := room.claims[room.nextClaim := Claim(m, room.rows[m].token, PayloadFor(room, m))],
          nextClaim := room.nextClaim + 1)
  }

  // ---- deciding a reply ----------------------------------------------------------------------

  // The flags the language model returned, and whether the newest message reads like
  // "I don't know": at most 40 characters with one of the known phrases in it.
  datatype Model = Model(complete: bool, shouldEnd: bool, nonAnswer: bool)

  datatype Wording = FromModel | FollowUp | Confirmation | NextQuestion(question: nat) | Closing

  datatype Reply = Reply(wording: Wording, complete: bool, shouldEnd: bool)

  // How _conversation overrules the model. Outside interviews it does not.
  function Overrule(interview: bool, payload: Payload, model: Model): Reply {
    if !interview then Reply(FromModel, model.complete, model.shouldEnd)
    else if payload.answer.None? || payload.limitReached then Reply(Closing, true, true)
    else
      var attempt := payload.answer.value.attempt;
      var complete := attempt >= 3 || (model.complete && !(attempt <= 2 && model.nonAnswer));
      if complete && payload.next.None? then Reply(Closing, true, true)
      else if complete then Reply(NextQuestion(payload.next.value), true, false)
      else Reply(if attempt >= 2 then Confirmation else FollowUp, false, false)
  }

  // split_conversation_messages: everything but the last two
  function Older(raw: seq<nat>): seq<nat> {
    if |raw| <= 2 then [] else raw[..|raw| - 2]
  }

  function Recent(raw: seq<nat>): seq<nat> {
    if |raw| <= 2 then raw else raw[|raw| - 2..]
  }

  // What the conversation model is shown: summary coverage, then messages. `long` says that the
  // prompt is above the token limit, so that the older messages are summarised first.
  function Summarises(payload: Payload, long: bool): bool {
    long && |payload.raw| > 2
  }

  function Shown(payload: Payload, long: bool): (seq<nat>, seq<nat>) {
    if Summarises(payload, long) then (payload.covers + Older(payload.raw), Recent(payload.raw))
    else (payload.covers, payload.raw)
  }

  // ---- saving a reply ------------------------------------------------------------------------

  predicate ReplyAccepted(room: Room, c: Id) {
    && c in room.claims
    && room.status == InProgress
    && room.claims[c].message in room.rows
    && room.rows[room.claims[c].message] == Row(Waiting, room.claims[c].token)
  }

  function MarkCurrent(answers: seq<Answer>, m: Id, current: bool): seq<Answer> {
    if answers == [] then []
    else
      var last := answers[|answers| - 1];
      MarkCurrent(answers[..|answers| - 1], m, current)
          + [if last.message == m then last.(current := current) else last]
  }

  // The unique index on the current answer of a question; violating it aborts the transaction.
  predicate OneCurrent(answers: seq<Answer>) {
    forall i, j | 0 <= i < j < |answers| && answers[i].question == answers[j].question ::
      !(answers[i].current && answers[j].current)
  }

  function SavedAnswers(room: Room, m: Id, reply: Reply): seq<Answer> {
    if room.kind.Interview? then MarkCurrent(room.answers, m, reply.complete || reply.shouldEnd) else room.answers
  }

  predicate Commits(room: Room, c: Id, reply: Reply) {
    ReplyAccepted(room, c) && OneCurrent(SavedAnswers(room, room.claims[c].message, reply))
  }

  // The message with sequence number q, as the executor passes its id along
  function Position(messages: seq<Message>, sequence: nat): Option<Id> {
    if messages == [] then None
    else if messages[|messages| - 1].sequence == sequence then Some(|messages| - 1)
    else Position(messages[..|messages| - 1], sequence)
  }

  function SavedContext(room: Room, payload: Payload, long: bool): Context {
    if Summarises(payload, long) then
      var older := Older(payload.raw);
      Context(payload.covers + older, Position(room.messages, older[|older| - 1]))
    else room.context
  }

  // The rows one reply writes, before the room is looked at.
  function AppendReply(room: Room, c: Id, reply: Reply, long: bool): Room
    requires c in room.claims
  {
    var claim := room.claims[c];
    room.(rows := room.rows[claim.message := Row(Answered, claim.token)],
          answers := SavedAnswers(room, claim.message, reply),
          messages := room.messages + [Message(NextSequence(room.messages), Persona, Some(claim.message))],
          context := SavedContext(room, claim.payload, long),
          turns := room.turns + 1,
          claims := room.claims - {c},
          announced := if reply.wording.NextQuestion? then reply.wording.question else room.announced)
  }

  // An interview waits for its user to end it; a scenario ends itself on its last turn.
  function Conclude(room: Room, reply: Reply): Room {
    if room.kind.Interview? then
      if reply.shouldEnd then room.(reason := AwaitingUserEnd) else room
    else if room.kind.Scenario? && room.kind.maxTurns.Some? && room.turns >= room.kind.maxTurns.value then
      room.(status := Completed, reason := Ended, results := room.results + [Preparing])
    else room
  }

  // ConversationAdapter.complete
  function SaveReply(room: Room, c: Id, reply: Reply, long: bool): Room
    requires c in room.claims
  {
    if Commits(room, c, reply) then Conclude(AppendReply(room, c, reply, long), reply) else DropClaim(room, c)
  }

  // The worker reports that the reply failed for good.
  function FailReply(room: Room, c: Id): Room
    requires c in room.claims
  {
    var claim := room.claims[c];
    var accepted := claim.message in room.rows && room.rows[claim.message] == Row(Waiting, claim.token);
    room.(claims := room.claims - {c},
          rows := if accepted then room.rows[claim.message := Row(GaveUp, claim.token)] else room.rows)
  }

  function DropClaim(room: Room, c: Id): Room {
    room.(claims := room.claims - {c})
  }

  // The reaper gives up a reply whose worker went away: the row is failed under its own token.
  function GiveUpReply(room: Room, m: Id): Room
    requires m in room.rows
  {
    room.(rows := room.rows[m := Row(GaveUp, room.rows[m].token)])
  }

  // retry_response
  function RetryReply(room: Room, m: Id): Room
    requires m in room.rows && room.rows[m].status == GaveUp
  {
    room.(rows := room.rows[m := Row(Waiting, room.nextToken)], nextToken := room.nextToken + 1)
  }

  // ---- ending a room -------------------------------------------------------------------------

  predicate CanCompleteInterview(room: Room) {
    room.kind.Interview? && room.status == InProgress && room.reason == AwaitingUserEnd
  }

  function CompleteInterview(room: Room): Room
    requires CanCompleteInterview(room)
  {
    room.(status := Completed, reason := Ended, results := room.results + [Preparing])
  }

  // complete_practice: a room without a single turn ends without a result.
  function CompletePractice(room: Room): Room
    requires room.status == InProgress
  {
    room.(status := Completed, reason := Ended,
          results := if room.turns < 1 then room.results else room.results + [Preparing])
  }

  // ---- the result of a completed room --------------------------------------------------------

  predicate ResultIs(room: Room, r: Id, status: ResultStatus) {
    r < |room.results| && room.results[r] == status
  }

  // The job of a result ends.
  function SettleResult(room: Room, r: Id, status: ResultStatus): Room
    requires r < |room.results|
  {
    room.(results := room.results[r := status])
  }

  // results.retry asks for a completed room, and of its latest result, if there is one, that it failed.
  predicate CanRetryResult(room: Room) {
    room.status == Completed && (room.results == [] || room.results[|room.results| - 1] == NotPrepared)
  }

  // Where there is no result one is inserted, whether or not anything was said in the room.
  function RetryResult(room: Room): Room
    requires CanRetryResult(room)
  {
    if room.results == [] then room.(results := [Preparing])
    else room.(results := room.results[|room.results| - 1 := Preparing])
  }

  // results.delete refuses a result whose job is active.
  predicate CanDeleteResult(room: Room, r: Id) {
    r < |room.results| && room.results[r] != Preparing
  }

  function DeleteResult(room: Room, r: Id): Room
    requires CanDeleteResult(room, r)
  {
    room.(results := room.results[..r] + room.results[r + 1..])
  }

  // What the goal evaluation of a scenario and the user's answer to it do to the room.
  function AchieveGoal(room: Room): Room {
    if room.kind.Scenario? && room.status == InProgress && room.reason == NotEnded && !room.dismissed
    then room.(reason := GoalAchieved) else room
  }

  function DismissGoal(room: Room): Room {
    if room.status == InProgress && room.reason == GoalAchieved
    then room.(reason := NotEnded, dismissed := true) else room
  }

  // ---- the state machine ---------------------------------------------------------------------

  datatype Event =
    | ESend(question: Option<nat>)
    | EClaim(message: Id)
    | ESave(claim: Id, model: Model, long: bool)
    | EFail(claim: Id)
    | EDrop(claim: Id)
    | ERetry(message: Id)
    | ECompleteInterview
    | ECompletePractice
    | EAchieveGoal
    | EDismissGoal
    | EGiveUp(message: Id)
    | ESettleResult(result: Id, prepared: bool)
    | ERetryResult
    | EDeleteResult(result: Id)

  predicate Enabled(room: Room, e: Event) {
    match e
    case ESend(question) => Accepts(room, question)
    case EClaim(m) => Claimable(room, m)
    case ESave(c, _, _) => c in room.claims
    case EFail(c) => c in room.claims
    case EDrop(c) => c in room.claims
    case ERetry(m) => m in room.rows && room.rows[m].status == GaveUp
    case ECompleteInterview => CanCompleteInterview(room)
    case ECompletePractice => room.status == InProgress
    case EAchieveGoal => true
    case EDismissGoal => true
    case EGiveUp(m) => m in room.rows && room.rows[m].status == Waiting
    case ESettleResult(r, _) => ResultIs(room, r, Preparing)
    case ERetryResult => CanRetryResult(room)
    case EDeleteResult(r) => CanDeleteResult(room, r)
  }

  function ReplyTo(room: Room, c: Id, model: Model): Reply
    requires c in room.claims
  {
    Overrule(room.kind.Interview?, room.claims[c].payload, model)
  }

  function Step(room: Room, e: Event): Room {
    if !Enabled(room, e) then room
    else
      match e
      case ESend(question) => Send(room, question)
      case EClaim(m) => ClaimReply(room, m)
      case ESave(c, model, long) => SaveReply(room, c, ReplyTo(room, c, model), long)
      case EFail(c) => FailReply(room, c)
      case EDrop(c) => DropClaim(room, c)
      case ERetry(m) => RetryReply(room, m)
      case ECompleteInterview => CompleteInterview(room)
      case ECompletePractice => CompletePractice(room)
      case EAchieveGoal => AchieveGoal(room)
      case EDismissGoal => DismissGoal(room)
      case EGiveUp(m) => GiveUpReply(room, m)
      case ESettleResult(r, prepared) => SettleResult(room, r, if prepared then Prepared else NotPrepared)
      case ERetryResult => RetryResult(room)
      case EDeleteResult(r) => DeleteResult(room, r)
  }

  function Run(room: Room, events: seq<Event>): Room {
    if events == [] then room else Step(Run(room, events[..|events| - 1]), events[|events| - 1])
  }
}
