// What every step keeps in a practice room, whatever the language model answers and however many
// workers reply at once.
module RoomInvariant {
  import opened Jobs
  import opened RoomModel

  // ---- the ledger of messages ----------------------------------------------------------------

  ghost predicate Numbered(messages: seq<Message>) {
    forall i | 0 <= i < |messages| :: messages[i].sequence == i + 1
  }

  predicate IsReply(message: Message) {
    message.sender == Persona && message.replyTo.Some?
  }

  function ReplyCount(messages: seq<Message>): nat {
    if messages == [] then 0
    else ReplyCount(messages[..|messages| - 1]) + (if IsReply(messages[|messages| - 1]) then 1 else 0)
  }

  // Replies answer earlier user messages, no two the same one, and only answered ones.
  ghost predicate RepliesFit(room: Room) {
    && (forall i | 0 <= i < |room.messages| && room.messages[i].replyTo.Some? ::
          && room.messages[i].sender == Persona
          && room.messages[i].replyTo.value < i
          && room.messages[room.messages[i].replyTo.value].sender == User
          && room.messages[i].replyTo.value in room.rows
          && room.rows[room.messages[i].replyTo.value].status == Answered)
    && (forall i, j | 0 <= i < j < |room.messages| && room.messages[i].replyTo.Some? ::
          room.messages[i].replyTo != room.messages[j].replyTo)
  }

  ghost predicate RowsFit(room: Room) {
    && (forall m :: m in room.rows ==> m < |room.messages| && room.messages[m].sender == User
                                       && room.rows[m].token < room.nextToken)
  }

  ghost predicate Counted(room: Room) {
    && room.turns == ReplyCount(room.messages)
    && (room.kind.Scenario? && room.kind.maxTurns.Some? ==>
          room.turns <= room.kind.maxTurns.value
          && (room.status == InProgress ==> room.turns < room.kind.maxTurns.value))
    && (room.reason == AwaitingUserEnd ==> room.kind.Interview? && room.turns >= 1)
    && |room.results| <= 1
    && (room.status == InProgress ==> room.results == [])
  }

  ghost predicate Ledger(room: Room) {
    Numbered(room.messages) && RowsFit(room) && RepliesFit(room) && Counted(room)
  }

  lemma {:induction false} NextSequenceCounts(messages: seq<Message>)
    requires Numbered(messages)
    ensures NextSequence(messages) == |messages| + 1
  {
    if messages != [] {
      NextSequenceCounts(messages[..|messages| - 1]);
    }
  }

  lemma SendKeepsLedger(room: Room, question: Option<nat>)
    requires Ledger(room) && Accepts(room, question)
    ensures Ledger(Send(room, question))
  {
    NextSequenceCounts(room.messages);
    var sent := Send(room, question);
    assert sent.messages[..|sent.messages| - 1] == room.messages;
  }

  lemma AppendKeepsNumbers(room: Room, c: Id, reply: Reply, long: bool)
    requires Ledger(room) && Commits(room, c, reply)
    ensures var saved := AppendReply(room, c, reply, long);
            Numbered(saved.messages) && RowsFit(saved) && ReplyCount(saved.messages) == saved.turns
  {
    NextSequenceCounts(room.messages);
    var saved := AppendReply(room, c, reply, long);
    assert saved.messages[..|saved.messages| - 1] == room.messages;
  }

  lemma AppendKeepsReplies(room: Room, c: Id, reply: Reply, long: bool)
    requires Ledger(room) && Commits(room, c, reply)
    ensures RepliesFit(AppendReply(room, c, reply, long))
  {
  }

  lemma SaveKeepsLedger(room: Room, c: Id, reply: Reply, long: bool)
    requires Ledger(room) && c in room.claims
    ensures Ledger(SaveReply(room, c, reply, long))
  {
    if Commits(room, c, reply) {
      AppendKeepsNumbers(room, c, reply, long);
      AppendKeepsReplies(room, c, reply, long);
      ConcludeKeepsLedger(room, AppendReply(room, c, reply, long), reply);
    } else {
      assert Ledger(DropClaim(room, c));
    }
  }

  // The turn that was just counted may be the scenario's last.
  lemma ConcludeKeepsLedger(room: Room, saved: Room, reply: Reply)
    requires Counted(room) && room.status == InProgress
    requires Numbered(saved.messages) && RowsFit(saved) && RepliesFit(saved)
        && saved.turns == ReplyCount(saved.messages)
    requires saved.turns == room.turns + 1 && saved.kind == room.kind && saved.status == room.status
    requires saved.reason == room.reason && saved.results == room.results
    ensures Ledger(Conclude(saved, reply))
  {
  }

  lemma StepKeepsLedger(room: Room, e: Event)
    requires Ledger(room)
    ensures Ledger(Step(room, e))
  {
    if Enabled(room, e) {
      if e.ESend? {
        SendKeepsLedger(room, e.question);
      } else if e.ESave? {
        SaveKeepsLedger(room, e.claim, ReplyTo(room, e.claim, e.model), e.long);
      } else if TouchesRows(e) {
        RowStepKeepsRows(room, e);
        RowStepKeepsReplies(room, e);
        RowStepKeepsRest(room, e);
      } else {
        QuietStepKeepsLedger(room, e);
      }
    }
  }

  // Steps of replies that touch no message
  predicate TouchesRows(e: Event) {
    e.EClaim? || e.EFail? || e.EDrop? || e.ERetry? || e.EGiveUp?
  }

  lemma RowStepKeepsRows(room: Room, e: Event)
    requires RowsFit(room) && TouchesRows(e)
    ensures RowsFit(Step(room, e))
  {
  }

  lemma RowStepKeepsReplies(room: Room, e: Event)
    requires RepliesFit(room) && TouchesRows(e)
    ensures RepliesFit(Step(room, e))
  {
  }

  lemma RowStepKeepsRest(room: Room, e: Event)
    requires TouchesRows(e)
    ensures var after := Step(room, e);
            && after.messages == room.messages && after.kind == room.kind && after.turns == room.turns
            && after.status == room.status && after.reason == room.reason && after.results == room.results
  {
  }

  lemma QuietStepKeepsLedger(room: Room, e: Event)
    requires Ledger(room) && !e.ESend? && !e.ESave? && !TouchesRows(e)
    ensures Ledger(Step(room, e))
  {
  }

  // A completed room is frozen: the conversation, its answers and its turns stay.
  lemma CompletedIsFrozen(room: Room, e: Event)
    requires room.status == Completed
    ensures var after := Step(room, e);
            && after.status == Completed && after.reason == room.reason && after.turns == room.turns
            && after.messages == room.messages && after.answers == room.answers
            && after.context == room.context
  {
  }

  // ---- the questions of an interview ---------------------------------------------------------

  // The questions with a current answer come first, and nobody has answered beyond the next one.
  ghost predicate InOrder(room: Room) {
    room.kind.Interview? ==>
      && (forall i, q | 0 <= i < |room.answers| && 0 <= q < room.answers[i].question :: Covered(room.answers, q))
      && (forall i | 0 <= i < |room.answers| :: room.answers[i].question < room.kind.questions)
  }

  // One answer per message, none current before its reply is saved.
  ghost predicate AnswersFit(room: Room) {
    && (forall i | 0 <= i < |room.answers| :: room.answers[i].message < |room.messages|)
    && (forall i, j | 0 <= i < j < |room.answers| :: room.answers[i].message != room.answers[j].message)
    && OneCurrent(room.answers)
    && (forall i | 0 <= i < |room.answers| && room.answers[i].current :: room.answers[i].message in room.rows
          && room.rows[room.answers[i].message].status == Answered)
  }

  // A claim still knows the question its message answers.
  ghost predicate ClaimsFit(room: Room) {
    forall c :: c in room.claims ==> ClaimFits(room, room.claims[c])
  }

  ghost predicate ClaimFits(room: Room, claim: Claim) {
    && claim.message < |room.messages|
    && (room.kind.Interview? ==>
          match claim.payload.answer
          case None => forall i | 0 <= i < |room.answers| :: room.answers[i].message != claim.message
          case Some(a) =>
            && (exists i | 0 <= i < |room.answers| :: SameAnswer(room.answers[i], a) && a.message == claim.message)
            && claim.payload.next == if a.question + 1 < room.kind.questions then Some(a.question + 1) else None)
  }

  predicate SameAnswer(a: Answer, b: Answer) {
    a.message == b.message && a.question == b.question && a.attempt == b.attempt
  }

  // The question the persona asked last is the one the room accepts next.
  ghost predicate Announced(room: Room) {
    room.kind.Interview? && room.status == InProgress && room.reason != AwaitingUserEnd ==>
      OpenQuestion(room) == Some(room.announced)
  }

  ghost predicate Asked(room: Room) {
    InOrder(room) && AnswersFit(room) && ClaimsFit(room) && Announced(room)
  }

  lemma OpenIs(answers: seq<Answer>, n: nat, p: nat)
    requires p < n && !Covered(answers, p) && forall q | 0 <= q < p :: Covered(answers, q)
    ensures FirstOpen(answers, 0, n) == Some(p)
  {
  }

  lemma {:induction false} MarkCurrentAt(answers: seq<Answer>, m: Id, current: bool)
    ensures var marked := MarkCurrent(answers, m, current);
            && |marked| == |answers|
            && forall i | 0 <= i < |answers| ::
                 marked[i] == if answers[i].message == m then answers[i].(current := current) else answers[i]
  {
    if answers != [] {
      MarkCurrentAt(answers[..|answers| - 1], m, current);
    }
  }

  lemma {:induction false} AnswerOfFinds(answers: seq<Answer>, m: Id)
    ensures match AnswerOf(answers, m)
            case None => forall i | 0 <= i < |answers| :: answers[i].message != m
            case Some(a) => a.message == m && exists i | 0 <= i < |answers| :: answers[i] == a
  {
    if answers != [] && answers[|answers| - 1].message != m {
      AnswerOfFinds(answers[..|answers| - 1], m);
    }
  }

  lemma SendKeepsClaims(room: Room, question: Option<nat>)
    requires ClaimsFit(room) && Accepts(room, question)
    requires forall i | 0 <= i < |room.answers| :: room.answers[i].message < |room.messages|
    ensures ClaimsFit(Send(room, question))
  {
    var sent := Send(room, question);
    forall c | c in sent.claims ensures ClaimFits(sent, sent.claims[c]) {
      assert ClaimFits(room, room.claims[c]);
      var a := room.claims[c].payload.answer;
      if room.kind.Interview? && a.Some? {
        var i :| 0 <= i < |room.answers| && SameAnswer(room.answers[i], a.value);
        assert sent.answers[i] == room.answers[i];
      }
    }
  }

  lemma SendKeepsAnswers(room: Room, question: Option<nat>)
    requires RowsFit(room) && AnswersFit(room) && Accepts(room, question)
    ensures AnswersFit(Send(room, question))
  {
    var sent := Send(room, question);
    if question.Some? {
      OneMoreAnswer(room.answers, sent.answers[|room.answers|], |room.messages|);
    }
  }

  lemma OneMoreAnswer(answers: seq<Answer>, a: Answer, m: Id)
    requires OneCurrent(answers) && !a.current && a.message == m
    requires forall i | 0 <= i < |answers| :: answers[i].message < m
    requires forall i, j | 0 <= i < j < |answers| :: answers[i].message != answers[j].message
    ensures OneCurrent(answers + [a])
    ensures forall i, j | 0 <= i < j < |answers + [a]| :: (answers + [a])[i].message != (answers + [a])[j].message
  {
  }

  lemma SendKeepsOrder(room: Room, question: Option<nat>)
    requires InOrder(room) && Announced(room) && Accepts(room, question)
    ensures InOrder(Send(room, question)) && Announced(Send(room, question))
  {
    if room.kind.Interview? {
      var sent := Send(room, question);
      forall q ensures Covered(sent.answers, q) == Covered(room.answers, q) {
        SendCovers(room, question, q);
      }
      OpenIs(sent.answers, room.kind.questions, room.announced);
    }
  }

  lemma SendKeepsAsked(room: Room, question: Option<nat>)
    requires Ledger(room) && Asked(room) && Accepts(room, question)
    ensures Asked(Send(room, question))
  {
    SendKeepsClaims(room, question);
    SendKeepsAnswers(room, question);
    SendKeepsOrder(room, question);
  }

  lemma SendCovers(room: Room, question: Option<nat>, q: nat)
    requires Accepts(room, question)
    ensures Covered(Send(room, question).answers, q) == Covered(room.answers, q)
  {
    var sent := Send(room, question);
    if Covered(room.answers, q) {
      var i :| 0 <= i < |room.answers| && room.answers[i].question == q && room.answers[i].current;
      assert sent.answers[i] == room.answers[i];
    }
  }

  lemma ClaimKeepsAsked(room: Room, m: Id)
    requires Ledger(room) && Asked(room) && Claimable(room, m)
    ensures Asked(ClaimReply(room, m))
  {
    AnswerOfFinds(room.answers, m);
    var claimed := ClaimReply(room, m);
    assert ClaimFits(claimed, claimed.claims[room.nextClaim]);
    forall c | c in room.claims ensures ClaimFits(claimed, room.claims[c]) {
      assert ClaimFits(room, room.claims[c]);
    }
  }

  // Saving a reply covers at most the question that the claimed message answers.
  lemma MarkCovers(room: Room, m: Id, flag: bool, i: nat, q: nat)
    requires Asked(room) && i < |room.answers| && room.answers[i].message == m && m in room.rows
        && room.rows[m].status != Answered
    ensures var marked := MarkCurrent(room.answers, m, flag);
            Covered(marked, q) <==> Covered(room.answers, q) || (flag && q == room.answers[i].question)
  {
    MarkCurrentAt(room.answers, m, flag);
    var marked := MarkCurrent(room.answers, m, flag);
    if Covered(room.answers, q) {
      var k :| 0 <= k < |room.answers| && room.answers[k].question == q && room.answers[k].current;
      assert marked[k] == room.answers[k];
    }
    if flag {
      assert marked[i].question == room.answers[i].question && marked[i].current;
    }
  }

  // The index lets a reply make its answer current only where no other answer is.
  lemma NotCoveredBefore(room: Room, m: Id, i: nat)
    requires Asked(room) && i < |room.answers| && room.answers[i].message == m && m in room.rows
        && room.rows[m].status != Answered
    requires OneCurrent(MarkCurrent(room.answers, m, true))
    ensures !Covered(room.answers, room.answers[i].question)
  {
    var marked := MarkCurrent(room.answers, m, true);
    MarkCurrentAt(room.answers, m, true);
    forall k | 0 <= k < |room.answers| && room.answers[k].question == room.answers[i].question
      ensures !room.answers[k].current
    {
      assert marked[i].current && marked[k].question == marked[i].question;
      assert k != i ==> marked[k] == room.answers[k];
    }
  }

  lemma CoveredBelow(room: Room, q: nat)
    requires room.kind.Interview? && InOrder(room)
    ensures Covered(room.answers, q + 1) ==> Covered(room.answers, q)
  {
    if Covered(room.answers, q + 1) {
      var k :| 0 <= k < |room.answers| && room.answers[k].question == q + 1 && room.answers[k].current;
      assert q < room.answers[k].question;
    }
  }

  // The answered question was the open one, and once it is covered the next one is.
  lemma MarkMovesOn(room: Room, m: Id, flag: bool, i: nat)
    requires Asked(room) && room.kind.Interview? && room.status == InProgress && room.reason != AwaitingUserEnd
    requires i < |room.answers| && room.answers[i].message == m && m in room.rows && room.rows[m].status != Answered
    requires OneCurrent(MarkCurrent(room.answers, m, flag))
    ensures var q := room.answers[i].question; var n := room.kind.questions;
            var open := FirstOpen(MarkCurrent(room.answers, m, flag), 0, n);
            if flag then q == room.announced && open == (if q + 1 < n then Some(q + 1) else None)
            else open == Some(room.announced)
  {
    var marked := MarkCurrent(room.answers, m, flag);
    var q := room.answers[i].question;
    forall k ensures Covered(marked, k) <==> Covered(room.answers, k) || (flag && k == q) {
      MarkCovers(room, m, flag, i, k);
    }
    if flag {
      NotCoveredBefore(room, m, i);
      CoveredBelow(room, q);
      assert forall k | 0 <= k < q :: Covered(room.answers, k);
      if q + 1 < room.kind.questions {
        OpenIs(marked, room.kind.questions, q + 1);
      }
    } else {
      OpenIs(marked, room.kind.questions, room.announced);
    }
  }

  lemma SaveKeepsOrder(room: Room, c: Id, reply: Reply, long: bool)
    requires Asked(room) && Commits(room, c, reply)
    ensures InOrder(AppendReply(room, c, reply, long))
  {
    var m := room.claims[c].message;
    var flag := reply.complete || reply.shouldEnd;
    MarkCurrentAt(room.answers, m, flag);
    if room.kind.Interview? {
      forall q | Covered(room.answers, q) ensures Covered(MarkCurrent(room.answers, m, flag), q) {
        var x :| 0 <= x < |room.answers| && room.answers[x].question == q && room.answers[x].current;
        assert MarkCurrent(room.answers, m, flag)[x] == room.answers[x];
      }
    }
  }

  lemma SaveKeepsAnswers(room: Room, c: Id, reply: Reply, long: bool)
    requires Asked(room) && Commits(room, c, reply)
    ensures AnswersFit(AppendReply(room, c, reply, long))
  {
    MarkCurrentAt(room.answers, room.claims[c].message, reply.complete || reply.shouldEnd);
  }

  lemma SaveKeepsClaims(room: Room, c: Id, reply: Reply, long: bool)
    requires Ledger(room) && Asked(room) && Commits(room, c, reply)
    ensures ClaimsFit(AppendReply(room, c, reply, long))
  {
    var saved := AppendReply(room, c, reply, long);
    MarkCurrentAt(room.answers, room.claims[c].message, reply.complete || reply.shouldEnd);
    forall d | d in saved.claims ensures ClaimFits(saved, saved.claims[d]) {
      assert ClaimFits(room, room.claims[d]);
      var a := room.claims[d].payload.answer;
      if room.kind.Interview? && a.Some? {
        var i :| 0 <= i < |room.answers| && SameAnswer(room.answers[i], a.value);
        assert SameAnswer(saved.answers[i], a.value);
      }
    }
  }

  lemma SaveKeepsAnnounced(room: Room, c: Id, model: Model, long: bool)
    requires Ledger(room) && Asked(room) && c in room.claims && Commits(room, c, ReplyTo(room, c, model))
    ensures Announced(SaveReply(room, c, ReplyTo(room, c, model), long))
  {
    var claim := room.claims[c];
    var reply := ReplyTo(room, c, model);
    assert ClaimFits(room, claim);
    if room.kind.Interview? && room.reason != AwaitingUserEnd && claim.payload.answer.Some? {
      var i :| 0 <= i < |room.answers| && SameAnswer(room.answers[i], claim.payload.answer.value);
      MarkMovesOn(room, claim.message, reply.complete || reply.shouldEnd, i);
    }
  }

  lemma SaveKeepsAsked(room: Room, c: Id, model: Model, long: bool)
    requires Ledger(room) && Asked(room) && c in room.claims
    ensures Asked(SaveReply(room, c, ReplyTo(room, c, model), long))
  {
    var reply := ReplyTo(room, c, model);
    if Commits(room, c, reply) {
      SaveKeepsOrder(room, c, reply, long);
      SaveKeepsAnswers(room, c, reply, long);
      SaveKeepsClaims(room, c, reply, long);
      SaveKeepsAnnounced(room, c, model, long);
      ConcludeKeepsAsked(AppendReply(room, c, reply, long), reply);
    } else {
      DropKeepsAsked(room, room.claims - {c});
    }
  }

  lemma ConcludeKeepsAsked(room: Room, reply: Reply)
    requires InOrder(room) && AnswersFit(room) && ClaimsFit(room)
    ensures InOrder(Conclude(room, reply)) && AnswersFit(Conclude(room, reply)) && ClaimsFit(Conclude(room, reply))
  {
    var r := Conclude(room, reply);
    forall d | d in r.claims ensures ClaimFits(r, r.claims[d]) {
      assert ClaimFits(room, room.claims[d]);
    }
  }

  lemma DropKeepsAsked(room: Room, claims: map<Id, Claim>)
    requires Asked(room) && forall c :: c in claims ==> c in room.claims && claims[c] == room.claims[c]
    ensures Asked(room.(claims := claims))
  {
    forall c | c in claims ensures ClaimFits(room.(claims := claims), claims[c]) {
      assert ClaimFits(room, room.claims[c]);
    }
  }

  // Steps that touch neither messages nor answers.
  lemma OthersKeepAsked(room: Room, r: Room)
    requires Asked(room)
    requires r.kind == room.kind && r.messages == room.messages && r.answers == room.answers
        && r.announced == room.announced
    requires forall c :: c in r.claims ==> c in room.claims && r.claims[c] == room.claims[c]
    requires forall m :: m in room.rows && room.rows[m].status == Answered ==>
        m in r.rows && r.rows[m].status == Answered
    requires r.status == InProgress && r.reason != AwaitingUserEnd && r.kind.Interview? ==>
               room.status == InProgress && room.reason != AwaitingUserEnd
    ensures Asked(r)
  {
    forall c | c in r.claims ensures ClaimFits(r, r.claims[c]) {
      assert ClaimFits(room, room.claims[c]);
    }
  }

  lemma StepKeepsAsked(room: Room, e: Event)
    requires Ledger(room) && Asked(room)
    ensures Asked(Step(room, e))
  {
    if Enabled(room, e) {
      match e
      case ESend(question) => SendKeepsAsked(room, question);
      case EClaim(m) => ClaimKeepsAsked(room, m);
      case ESave(c, model, long) => SaveKeepsAsked(room, c, model, long);
      case _ => QuietStepKeepsAsked(room, e);
    }
  }

  lemma QuietStepKeepsAsked(room: Room, e: Event)
    requires Asked(room) && !e.ESend? && !e.EClaim? && !e.ESave?
    ensures Asked(Step(room, e))
  {
    OthersKeepAsked(room, Step(room, e));
  }
}
