// A practice room over whole runs.
module RoomTheorems {
  import opened Jobs
  import opened RoomModel
  import opened RoomInvariant
  import opened RoomContext

  ghost predicate Inv(room: Room) {
    Ledger(room) && Asked(room) && Coverage(room)
  }

  lemma NewRoomIsInv(kind: Kind, opening: bool)
    requires Creatable(kind, opening)
    ensures Inv(NewRoom(kind, opening))
  {
    assert ReplyCount([OPENING]) == ReplyCount([OPENING][..0]) == 0;
  }

  lemma {:induction false} RunKeepsInv(room: Room, events: seq<Event>)
    requires Inv(room)
    ensures Inv(Run(room, events))
  {
    if events != [] {
      var before := events[..|events| - 1];
      RunKeepsInv(room, before);
      StepKeepsLedger(Run(room, before), events[|events| - 1]);
      StepKeepsAsked(Run(room, before), events[|events| - 1]);
      StepKeepsCoverage(Run(room, before), events[|events| - 1]);
    }
  }

  lemma Reachable(kind: Kind, opening: bool, events: seq<Event>)
    requires Creatable(kind, opening)
    ensures Inv(Run(NewRoom(kind, opening), events)) && Run(NewRoom(kind, opening), events).kind == kind
  {
    NewRoomIsInv(kind, opening);
    RunKeepsInv(NewRoom(kind, opening), events);
    RunKeepsKind(NewRoom(kind, opening), events);
  }

  lemma {:induction false} RunKeepsKind(room: Room, events: seq<Event>)
    ensures Run(room, events).kind == room.kind
  {
    if events != [] {
      RunKeepsKind(room, events[..|events| - 1]);
    }
  }

  // ---- the room ledger -----------------------------------------------------------------------

  // Messages are numbered 1 to N, turns are persona replies, no user message is replied to twice,
  // a scenario stays within its turns, and there is never a second result, nor one before the room is
  // completed; `RoomResults` says when there is one.
  lemma LedgerOfEveryRun(kind: Kind, opening: bool, events: seq<Event>)
    requires Creatable(kind, opening)
    ensures var room := Run(NewRoom(kind, opening), events);
            && (forall i | 0 <= i < |room.messages| :: room.messages[i].sequence == i + 1)
            && room.turns == ReplyCount(room.messages)
            && (forall i, j | 0 <= i < j < |room.messages| && room.messages[i].replyTo.Some? ::
                  room.messages[i].replyTo != room.messages[j].replyTo)
            && (kind.Scenario? ==> room.turns <= kind.maxTurns.value)
            && (kind.Scenario? && room.turns == kind.maxTurns.value ==> room.status == Completed)
            && |room.results| <= 1 && (room.results != [] ==> room.status == Completed)
  {
    Reachable(kind, opening, events);
  }

  // The conversation opens as the room was created: with the persona's message, or with the user's.
  lemma {:induction false} OpensAsCreated(kind: Kind, opening: bool, events: seq<Event>)
    requires Creatable(kind, opening)
    ensures var messages := Run(NewRoom(kind, opening), events).messages;
            if opening then messages != [] && messages[0] == Message(1, Persona, None)
            else messages == [] || messages[0].sender == User
  {
    if events != [] {
      OpensAsCreated(kind, opening, events[..|events| - 1]);
      Reachable(kind, opening, events[..|events| - 1]);
      MessagesStay(Run(NewRoom(kind, opening), events[..|events| - 1]), events[|events| - 1]);
    }
  }

  lemma MessagesStay(room: Room, e: Event)
    requires Ledger(room)
    ensures room.messages <= Step(room, e).messages
    ensures room.messages == [] && Step(room, e).messages != [] ==> Step(room, e).messages[0].sender == User
  {
    if e.ESave? && Enabled(room, e) && Commits(room, e.claim, ReplyTo(room, e.claim, e.model)) {
      assert room.claims[e.claim].message in room.rows;
    }
  }

  // Completion is final: nothing that happens afterwards shows in what was said.
  lemma {:induction false} CompletedStaysFrozen(room: Room, events: seq<Event>)
    requires room.status == Completed
    ensures var after := Run(room, events);
            && after.status == Completed && after.reason == room.reason && after.turns == room.turns
            && after.messages == room.messages && after.answers == room.answers
            && after.context == room.context
  {
    if events != [] {
      CompletedStaysFrozen(room, events[..|events| - 1]);
      CompletedIsFrozen(Run(room, events[..|events| - 1]), events[|events| - 1]);
    }
  }

  // ---- the order of questions ----------------------------------------------------------------

  // The questions with a current answer come first, in every interleaving.
  lemma CoveredQuestionsFormAPrefix(questions: nat, events: seq<Event>, q: nat, p: nat)
    requires questions > 0 && p <= q
    requires Covered(Run(NewRoom(Interview(questions), true), events).answers, q)
    ensures Covered(Run(NewRoom(Interview(questions), true), events).answers, p)
  {
    Reachable(Interview(questions), true, events);
    var room := Run(NewRoom(Interview(questions), true), events);
    var i :| 0 <= i < |room.answers| && room.answers[i].question == q && room.answers[i].current;
    assert p < q ==> p < room.answers[i].question;
  }

  // A running interview accepts an answer to the question the persona asked last, and to no other.
  lemma AnnouncedIsAccepted(questions: nat, events: seq<Event>, question: Option<nat>)
    requires questions > 0
    requires Run(NewRoom(Interview(questions), true), events).status == InProgress
    requires Run(NewRoom(Interview(questions), true), events).reason != AwaitingUserEnd
    ensures var room := Run(NewRoom(Interview(questions), true), events);
            room.announced < questions && (Accepts(room, question) <==> question == Some(room.announced))
  {
    Reachable(Interview(questions), true, events);
  }

  // In every run, an answer whose reply is saved becomes the current one if and only if the model called it
  // complete and it was no explicit non-answer; the third attempt does anyway, and the one at the cap.
  lemma VerdictCounts(questions: nat, events: seq<Event>, c: Id, model: Model, long: bool) returns (i: nat)
    requires questions > 0
    requires var room := Run(NewRoom(Interview(questions), true), events);
             && c in room.claims && room.claims[c].payload.answer.Some?
             && |Step(room, ESave(c, model, long)).messages| > |room.messages|
    ensures var room := Run(NewRoom(Interview(questions), true), events);
            var after := Step(room, ESave(c, model, long));
            var payload := room.claims[c].payload;
            && i < |after.answers| && after.answers[i].message == room.claims[c].message
            && after.answers[i].question == payload.answer.value.question
            && (after.answers[i].current <==>
                  (model.complete && !model.nonAnswer) || payload.answer.value.attempt >= 3 || payload.limitReached)
  {
    Reachable(Interview(questions), true, events);
    var room := Run(NewRoom(Interview(questions), true), events);
    var claim := room.claims[c];
    assert ClaimFits(room, claim);
    i :| 0 <= i < |room.answers| && SameAnswer(room.answers[i], claim.payload.answer.value);
    var reply := ReplyTo(room, c, model);
    MarkCurrentAt(room.answers, claim.message, reply.complete || reply.shouldEnd);
  }

  // ---- what the models are shown -------------------------------------------------------------

  lemma ConversationSeesEverything(kind: Kind, opening: bool, events: seq<Event>, c: Id, long: bool)
    requires Creatable(kind, opening) && c in Run(NewRoom(kind, opening), events).claims
    ensures var claim := Run(NewRoom(kind, opening), events).claims[c];
            var (summary, raw) := Shown(claim.payload, long);
            && summary == UpTo(|summary|)
            && summary + raw == UpTo(|summary| + |raw|)
            && claim.message + 1 in summary + raw
            && |raw| == if long && |claim.payload.raw| > 2 then 2 else |claim.payload.raw|
  {
    Reachable(kind, opening, events);
    ShownWithoutGap(Run(NewRoom(kind, opening), events), c, long);
  }

  // At the moment of the claim, nothing of the room is missing.
  lemma ClaimShowsTheWholeRoom(kind: Kind, opening: bool, events: seq<Event>, m: Id)
    requires Creatable(kind, opening) && Claimable(Run(NewRoom(kind, opening), events), m)
    ensures var room := Run(NewRoom(kind, opening), events);
            var payload := ClaimReply(room, m).claims[room.nextClaim].payload;
            payload.covers + payload.raw == UpTo(|room.messages|)
  {
    Reachable(kind, opening, events);
    PayloadCovers(Run(NewRoom(kind, opening), events), m);
  }

  lemma FeedbackSeesEverythingBefore(kind: Kind, opening: bool, events: seq<Event>, target: Id)
    requires Creatable(kind, opening) && target < |Run(NewRoom(kind, opening), events).messages|
    ensures var (summary, raw) := FeedbackPrompt(Run(NewRoom(kind, opening), events), target);
            && summary == UpTo(|summary|)
            && (if |summary| < target then summary + raw == UpTo(target) else raw == [])
  {
    Reachable(kind, opening, events);
    FeedbackSeesAllBefore(Run(NewRoom(kind, opening), events), target);
  }
}
