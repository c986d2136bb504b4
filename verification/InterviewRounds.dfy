// An interview with one outstanding answer at a time and no failures: the user answers the open
// question, a worker claims the reply, the language model returns anything, the reply is saved.
module InterviewRounds {
  import opened Jobs
  import opened RoomModel
  import opened RoomInvariant

  datatype Turn = Turn(model: Model, long: bool)

  predicate Open(room: Room) {
    room.status == InProgress && room.reason != AwaitingUserEnd
  }

  function Asking(room: Room): Room {
    Step(Step(room, ESend(OpenQuestion(room))), EClaim(|room.messages|))
  }

  function Round(room: Room, turn: Turn): Room {
    if Open(room) then Step(Asking(room), ESave(room.nextClaim, turn.model, turn.long)) else room
  }

  function Rounds(room: Room, turns: seq<Turn>): Room {
    if turns == [] then room else Round(Rounds(room, turns[..|turns| - 1]), turns[|turns| - 1])
  }

  function Count(answers: seq<Answer>, q: nat): nat {
    if answers == [] then 0
    else Count(answers[..|answers| - 1], q) + (if answers[|answers| - 1].question == q then 1 else 0)
  }

  // ---- the invariant between rounds ----------------------------------------------------------

  // With k questions done, there are at most 3k answers to them and at most 2 to the next one.
  ghost predicate Tidy(room: Room) {
    && room.kind.Interview? && room.status == InProgress
    && Ledger(room) && Asked(room)
    && (forall q :: NextAttempt(room.answers, q) == Count(room.answers, q) + 1)
    && (forall q :: Count(room.answers, q) <= 3)
    && room.turns == |room.answers|
    && (if Open(room) then InMiddle(room) else AtEnd(room))
  }

  ghost predicate InMiddle(room: Room)
    requires room.kind.Interview?
  {
    && room.announced < room.kind.questions
    && Count(room.answers, room.announced) <= 2
    && |room.answers| <= 3 * room.announced + Count(room.answers, room.announced)
    && (forall q | 0 <= q < room.announced :: 1 <= Count(room.answers, q))
  }

  ghost predicate AtEnd(room: Room)
    requires room.kind.Interview?
  {
    && |room.answers| <= 3 * room.kind.questions
    && (forall q | 0 <= q < room.kind.questions :: 1 <= Count(room.answers, q))
  }

  // ---- counting answers ----------------------------------------------------------------------

  lemma {:induction false} CountMarked(answers: seq<Answer>, m: Id, flag: bool, q: nat)
    ensures Count(MarkCurrent(answers, m, flag), q) == Count(answers, q)
    ensures NextAttempt(MarkCurrent(answers, m, flag), q) == NextAttempt(answers, q)
  {
    if answers != [] {
      var marked := MarkCurrent(answers, m, flag);
      CountMarked(answers[..|answers| - 1], m, flag, q);
      assert marked[..|marked| - 1] == MarkCurrent(answers[..|answers| - 1], m, flag);
    }
  }

  lemma CountAppended(answers: seq<Answer>, a: Answer, q: nat)
    requires a.attempt == NextAttempt(answers, a.question)
    ensures Count(answers + [a], q) == Count(answers, q) + if a.question == q then 1 else 0
    ensures NextAttempt(answers + [a], q) == NextAttempt(answers, q) + if a.question == q then 1 else 0
  {
    assert (answers + [a])[..|answers|] == answers;
  }

  // ---- one round -----------------------------------------------------------------------------

  // The claim sees the new answer: it is to the announced question, the next attempt at it, and
  // the cap on all answers is reached only by the third attempt at the last question.
  lemma AskingShows(room: Room)
    requires Tidy(room) && Open(room)
    ensures var m := |room.messages|;
            var k := room.announced;
            var answer := Answer(m, k, Count(room.answers, k) + 1, false);
            var asked := Asking(room);
            && OpenQuestion(room) == Some(k)
            && asked == ClaimReply(Send(room, Some(k)), m)
            && asked.answers == room.answers + [answer]
            && room.nextClaim in asked.claims
            && asked.claims[room.nextClaim].message == m
            && asked.claims[room.nextClaim].payload.answer == Some(answer)
            && asked.claims[room.nextClaim].payload.limitReached == (|asked.answers| >= 3 * room.kind.questions)
            && asked.claims[room.nextClaim].payload.next == (if k + 1 < room.kind.questions then Some(k + 1) else None)
  {
    assert Accepts(room, OpenQuestion(room));
    var sent := Step(room, ESend(OpenQuestion(room)));
    assert sent == Send(room, OpenQuestion(room));
    assert Claimable(sent, |room.messages|);
    assert sent.answers[|sent.answers| - 1].message == |room.messages|;
  }

  lemma AskingKeeps(room: Room)
    requires Ledger(room) && Asked(room)
    ensures Ledger(Asking(room)) && Asked(Asking(room))
  {
    var send := ESend(OpenQuestion(room));
    var claim := EClaim(|room.messages|);
    StepKeepsLedger(room, send);
    StepKeepsAsked(room, send);
    StepKeepsLedger(Step(room, send), claim);
    StepKeepsAsked(Step(room, send), claim);
  }

  // With nobody else answering, the reply is saved.
  lemma MarkStaysUnique(answers: seq<Answer>, a: Answer, flag: bool)
    requires OneCurrent(answers) && !Covered(answers, a.question) && !a.current
    requires forall i | 0 <= i < |answers| :: answers[i].message != a.message
    ensures MarkCurrent(answers + [a], a.message, flag) == answers + [a.(current := flag)]
    ensures OneCurrent(answers + [a.(current := flag)])
  {
    MarkCurrentAt(answers + [a], a.message, flag);
  }

  predicate Done(reply: Reply) {
    reply.complete || reply.shouldEnd
  }

  // What is decided about a known answer, whatever the language model said.
  lemma DecisionIs(payload: Payload, model: Model)
    requires payload.answer.Some?
    ensures var reply := Overrule(true, payload, model);
            && (payload.answer.value.attempt >= 3 ==> Done(reply))
            && (reply.shouldEnd <==> payload.limitReached || (Done(reply) && payload.next.None?))
            && (Done(reply) && !reply.shouldEnd ==> reply.wording == NextQuestion(payload.next.value))
            && (payload.answer.value.attempt < 3 && model.nonAnswer ==> Done(reply) == payload.limitReached)
            && (reply.wording.NextQuestion? ==> Done(reply) && !reply.shouldEnd)
            && (reply.shouldEnd <==> reply.wording.Closing?)
            && (!Done(reply) ==> reply.wording == if payload.answer.value.attempt == 2 then Confirmation else FollowUp)
  {
  }

  function Decision(room: Room, turn: Turn): Reply {
    if room.nextClaim in Asking(room).claims then ReplyTo(Asking(room), room.nextClaim, turn.model)
    else Reply(FromModel, false, false)
  }

  lemma AskingAccepted(room: Room)
    requires Tidy(room) && Open(room)
    ensures room.nextClaim in Asking(room).claims && ReplyAccepted(Asking(room), room.nextClaim)
  {
    AskingShows(room);
  }

  lemma FreshAnswerSaved(asked: Room, c: Id, reply: Reply, answers: seq<Answer>, a: Answer)
    requires asked.kind.Interview? && c in asked.claims && ReplyAccepted(asked, c)
    requires asked.answers == answers + [a] && asked.claims[c].message == a.message
    requires OneCurrent(answers) && !Covered(answers, a.question) && !a.current
    requires forall i | 0 <= i < |answers| :: answers[i].message != a.message
    ensures Commits(asked, c, reply)
    ensures AppendReply(asked, c, reply, true).answers == answers + [a.(current := Done(reply))]
    ensures AppendReply(asked, c, reply, false).answers == answers + [a.(current := Done(reply))]
  {
    MarkStaysUnique(answers, a, Done(reply));
  }

  function Next(room: Room, current: bool): Answer {
    Answer(|room.messages|, room.announced, Count(room.answers, room.announced) + 1, current)
  }

  lemma RoundSaves(room: Room, turn: Turn)
    requires Tidy(room) && Open(room)
    ensures var reply := Decision(room, turn);
            && room.nextClaim in Asking(room).claims
            && Round(room, turn) == Conclude(AppendReply(Asking(room), room.nextClaim, reply, turn.long), reply)
            && Round(room, turn).answers == room.answers + [Next(room, Done(reply))]
  {
    AskingShows(room);
    AskingAccepted(room);
    FreshAnswerSaved(Asking(room), room.nextClaim, Decision(room, turn), room.answers, Next(room, false));
  }

  lemma RoundGoesOn(room: Room, turn: Turn)
    requires Tidy(room) && Open(room)
    ensures var k := room.announced;
            var done := Done(Decision(room, turn));
            var after := Round(room, turn);
            && after.kind == room.kind && after.status == InProgress && after.turns == room.turns + 1
            && (Count(room.answers, k) >= 2 ==> done)
            && (done ==> if k + 1 == room.kind.questions then !Open(after) else after.announced == k + 1 && Open(after))
            && (!done ==> after.announced == k && Open(after))
  {
    AskingShows(room);
    RoundSaves(room, turn);
    DecisionIs(Asking(room).claims[room.nextClaim].payload, turn.model);
  }

  lemma RoundKeepsRoom(room: Room, turn: Turn)
    requires Ledger(room) && Asked(room)
    ensures Ledger(Round(room, turn)) && Asked(Round(room, turn))
  {
    AskingKeeps(room);
    StepKeepsLedger(Asking(room), ESave(room.nextClaim, turn.model, turn.long));
    StepKeepsAsked(Asking(room), ESave(room.nextClaim, turn.model, turn.long));
  }

  lemma RoundCounts(room: Room, turn: Turn, q: nat)
    requires Tidy(room) && Open(room)
    ensures var more := if q == room.announced then 1 else 0;
            && Count(Round(room, turn).answers, q) == Count(room.answers, q) + more
            && NextAttempt(Round(room, turn).answers, q) == NextAttempt(room.answers, q) + more
  {
    RoundSaves(room, turn);
    CountAppended(room.answers, Next(room, Done(Decision(room, turn))), q);
  }

  lemma NextUnanswered(room: Room)
    requires Tidy(room) && Open(room)
    ensures Count(room.answers, room.announced + 1) == 0
  {
    NoneBeyond(room.answers, room.announced + 1);
  }

  lemma TidyMovesOn(room: Room, after: Room, done: bool)
    requires Tidy(room) && Open(room) && Count(room.answers, room.announced + 1) == 0
    requires after.kind == room.kind && after.status == InProgress && Ledger(after) && Asked(after)
    requires after.turns == room.turns + 1 && |after.answers| == |room.answers| + 1
    requires forall q :: Count(after.answers, q) == Count(room.answers, q) + if q == room.announced then 1 else 0
    requires forall q :: NextAttempt(after.answers, q)
                      == NextAttempt(room.answers, q) + if q == room.announced then 1 else 0
    requires Count(room.answers, room.announced) >= 2 ==> done
    requires done ==> if room.announced + 1 == room.kind.questions then !Open(after)
        else after.announced == room.announced + 1 && Open(after)
    requires !done ==> after.announced == room.announced && Open(after)
    ensures Tidy(after)
  {
  }

  lemma RoundKeepsTidy(room: Room, turn: Turn)
    requires Tidy(room)
    ensures Tidy(Round(room, turn)) && Round(room, turn).kind == room.kind
    ensures Round(room, turn).turns == room.turns + if Open(room) then 1 else 0
  {
    if Open(room) {
      NextUnanswered(room);
      RoundGoesOn(room, turn);
      RoundKeepsRoom(room, turn);
      AllRoundCounts(room, turn);
      TidyMovesOn(room, Round(room, turn), Done(Decision(room, turn)));
    }
  }

  lemma AllRoundCounts(room: Room, turn: Turn)
    requires Tidy(room) && Open(room)
    ensures |Round(room, turn).answers| == |room.answers| + 1
    ensures forall q :: Count(Round(room, turn).answers, q)
                     == Count(room.answers, q) + if q == room.announced then 1 else 0
    ensures forall q :: NextAttempt(Round(room, turn).answers, q)
                     == NextAttempt(room.answers, q) + if q == room.announced then 1 else 0
  {
    RoundSaves(room, turn);
    forall q
      ensures Count(Round(room, turn).answers, q)
           == Count(room.answers, q) + if q == room.announced then 1 else 0
      ensures NextAttempt(Round(room, turn).answers, q)
           == NextAttempt(room.answers, q) + if q == room.announced then 1 else 0
    {
      RoundCounts(room, turn, q);
    }
  }

  // Nobody has answered a question beyond the announced one.
  lemma {:induction false} NoneBeyond(answers: seq<Answer>, q: nat)
    requires forall i | 0 <= i < |answers| :: answers[i].question < q
    ensures Count(answers, q) == 0
  {
    if answers != [] {
      NoneBeyond(answers[..|answers| - 1], q);
    }
  }

  // ---- every interview ends ------------------------------------------------------------------

  lemma {:induction false} RoundsKeepTidy(room: Room, turns: seq<Turn>)
    requires Tidy(room)
    ensures Tidy(Rounds(room, turns)) && Rounds(room, turns).kind == room.kind
    ensures Rounds(room, turns).turns <= room.turns + |turns|
    ensures Open(Rounds(room, turns)) ==> Rounds(room, turns).turns == room.turns + |turns|
  {
    if turns != [] {
      RoundsKeepTidy(room, turns[..|turns| - 1]);
      RoundKeepsTidy(Rounds(room, turns[..|turns| - 1]), turns[|turns| - 1]);
    }
  }

  lemma NewIsTidy(questions: nat)
    requires questions > 0
    ensures Tidy(NewRoom(Interview(questions), true))
  {
    assert ReplyCount([OPENING]) == ReplyCount([OPENING][..0]) == 0;
  }

  // Whatever the language model returns, no question gets more than three answers and the room
  // waits for its user within 3n replies, and not before every question was answered.
  lemma EveryInterviewEnds(questions: nat, turns: seq<Turn>)
    requires questions > 0
    ensures var room := Rounds(NewRoom(Interview(questions), true), turns);
            && (forall q :: Count(room.answers, q) <= 3)
            && room.turns == |room.answers| <= 3 * questions
            && (|turns| >= 3 * questions ==> room.reason == AwaitingUserEnd)
            && (room.reason == AwaitingUserEnd ==> forall q | 0 <= q < questions :: 1 <= Count(room.answers, q))
  {
    NewIsTidy(questions);
    RoundsKeepTidy(NewRoom(Interview(questions), true), turns);
  }

  // The cap on all answers never cuts a question off: it is only seen on the third attempt at the
  // last question.
  lemma CapNeverCutsOff(questions: nat, turns: seq<Turn>)
    requires questions > 0 && Open(Rounds(NewRoom(Interview(questions), true), turns))
    ensures var room := Rounds(NewRoom(Interview(questions), true), turns);
            && room.nextClaim in Asking(room).claims
            && var payload := Asking(room).claims[room.nextClaim].payload;
            && payload.answer.Some?
            && (payload.limitReached ==>
                  payload.answer.value.attempt == 3 && payload.answer.value.question + 1 == questions)
  {
    NewIsTidy(questions);
    RoundsKeepTidy(NewRoom(Interview(questions), true), turns);
    AskingShows(Rounds(NewRoom(Interview(questions), true), turns));
  }

  // ---- how many replies it takes -------------------------------------------------------------

  predicate CalledComplete(turn: Turn) {
    turn.model.complete && !turn.model.nonAnswer
  }

  lemma DoneIf(room: Room, turn: Turn)
    requires Tidy(room) && Open(room)
    ensures Done(Decision(room, turn)) <==>
              || CalledComplete(turn) || Count(room.answers, room.announced) >= 2
              || |room.answers| + 1 >= 3 * room.kind.questions
  {
    AskingShows(room);
  }

  // An interview whose answers are all called complete takes exactly one reply for each question.
  lemma {:induction false} AllCompleteTakesN(questions: nat, turns: seq<Turn>)
    requires questions > 0 && |turns| <= questions && forall turn | turn in turns :: CalledComplete(turn)
    ensures var room := Rounds(NewRoom(Interview(questions), true), turns);
            && Tidy(room) && room.kind == Interview(questions) && room.turns == |turns|
            && if |turns| < questions then Open(room) && room.announced == |turns| else room.reason == AwaitingUserEnd
  {
    NewIsTidy(questions);
    if turns != [] {
      var before := turns[..|turns| - 1];
      AllCompleteTakesN(questions, before);
      var room := Rounds(NewRoom(Interview(questions), true), before);
      assert turns[|turns| - 1] in turns;
      DoneIf(room, turns[|turns| - 1]);
      RoundGoesOn(room, turns[|turns| - 1]);
      RoundKeepsTidy(room, turns[|turns| - 1]);
    }
  }

  ghost predicate OneMore(room: Room, after: Room) {
    && room.kind.Interview? && after.kind == room.kind && |after.answers| == |room.answers| + 1
    && if Count(room.answers, room.announced) < 2 then
         && Open(after) && after.announced == room.announced
         && Count(after.answers, after.announced) == Count(room.answers, room.announced) + 1
       else if room.announced + 1 < room.kind.questions then
         Open(after) && after.announced == room.announced + 1 && Count(after.answers, after.announced) == 0
       else after.reason == AwaitingUserEnd
  }

  lemma AskedAgain(room: Room, turn: Turn)
    requires Tidy(room) && Open(room) && !CalledComplete(turn)
    requires |room.answers| == 3 * room.announced + Count(room.answers, room.announced)
    ensures OneMore(room, Round(room, turn))
  {
    DoneIf(room, turn);
    RoundGoesOn(room, turn);
    RoundCounts(room, turn, room.announced);
    RoundCounts(room, turn, room.announced + 1);
    NextUnanswered(room);
    AllRoundCounts(room, turn);
  }

  ghost predicate TakenThree(room: Room, questions: nat, replies: nat) {
    && room.kind == Interview(questions) && |room.answers| == replies
    && if replies < 3 * questions then Open(room) && 3 * room.announced + Count(room.answers, room.announced) == replies
       else room.reason == AwaitingUserEnd
  }

  lemma AtMostTwo(room: Room)
    requires Tidy(room) && Open(room)
    ensures 0 <= Count(room.answers, room.announced) <= 2 && room.announced < room.kind.questions
  {
  }

  lemma OneMoreOfThree(room: Room, after: Room, questions: nat, replies: nat)
    requires TakenThree(room, questions, replies) && replies < 3 * questions && OneMore(room, after)
    requires 0 <= Count(room.answers, room.announced) <= 2 && room.announced < questions
    ensures TakenThree(after, questions, replies + 1)
  {
  }

  // One whose answers are never called complete takes three for each.
  lemma {:induction false} NoneCompleteTakes3N(questions: nat, turns: seq<Turn>)
    requires questions > 0 && |turns| <= 3 * questions && forall turn | turn in turns :: !CalledComplete(turn)
    ensures TakenThree(Rounds(NewRoom(Interview(questions), true), turns), questions, |turns|)
  {
    NewIsTidy(questions);
    if turns != [] {
      var n := |turns| - 1;
      NoneCompleteTakes3N(questions, turns[..n]);
      RoundsKeepTidy(NewRoom(Interview(questions), true), turns[..n]);
      var room := Rounds(NewRoom(Interview(questions), true), turns[..n]);
      assert turns[n] in turns;
      AtMostTwo(room);
      AskedAgain(room, turns[n]);
      OneMoreOfThree(room, Round(room, turns[n]), questions, n);
    }
  }
}
