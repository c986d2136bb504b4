// The repository and worker operations on one practice room, statement by statement. Each is one
// transaction and does what the room's state machine says.
module PracticeRoom {
  import opened Jobs
  import opened RoomModel
  import opened RoomInvariant

  datatype Refusal = Accepted | NotActive | AwaitingCompletion | QuestionRequired | OutOfOrder | QuestionNotAllowed
                   | QueueFull

  // The executor's decision on a reply, as successive corrections of what the model returned.
  method Converse(interview: bool, payload: Payload, model: Model) returns (reply: Reply)
    ensures reply == Overrule(interview, payload, model)
  {
    reply := Reply(FromModel, model.complete, model.shouldEnd);
    var closing := interview && payload.answer.None?;
    if closing || (interview && payload.limitReached) {
      reply := Reply(Closing, true, true);
    } else if interview {
      reply := reply.(shouldEnd := false);
      var attempt := payload.answer.value.attempt;
      if attempt <= 2 && model.nonAnswer {
        reply := reply.(complete := false);
      }
      if attempt >= 3 {
        reply := reply.(complete := true);
      }
      if reply.complete {
        if payload.next.None? {
          reply := Reply(Closing, true, true);
        } else {
          reply := Reply(NextQuestion(payload.next.value), true, false);
        }
      } else if attempt >= 2 {
        reply := Reply(Confirmation, false, false);
      } else {
        reply := Reply(FollowUp, false, false);
      }
    }
  }

  class PracticeRoom {
    const kind: Kind
    var status: Status
    var reason: Reason
    var dismissed: bool
    var turns: nat
    var messages: seq<Message>
    var answers: seq<Answer>
    var rows: map<Id, Row>
    var context: Context
    var claims: map<Id, Claim>
    var results: seq<ResultStatus>
    var announced: nat
    var nextToken: nat
    var nextClaim: nat

    // The room of the state machine that these columns hold
    function Snapshot(): Room
      reads this
    {
      Room(kind, status, reason, dismissed, turns, messages, answers, rows, context, claims, results,
           announced, nextToken, nextClaim)
    }

    constructor (kind: Kind, opening: bool)
      ensures Snapshot() == NewRoom(kind, opening)
    {
      this.kind := kind;
      status, reason, dismissed, turns := InProgress, NotEnded, false, 0;
      messages := if opening then [OPENING] else [];
      answers, rows, claims := [], map[], map[];
      context, results := Context([], None), [];
      announced, nextToken, nextClaim := 0, 0, 0;
    }

    // create_message_and_job. `active` is the number of the user's queued and processing jobs.
    method CreateMessage(question: Option<nat>, active: nat, limit: nat) returns (refusal: Refusal)
      modifies this
      ensures refusal.Accepted? <==> Accepts(old(Snapshot()), question) && active < limit
      ensures refusal.QueueFull? <==> Accepts(old(Snapshot()), question) && active >= limit
      ensures Snapshot() == if refusal.Accepted? then Send(old(Snapshot()), question) else old(Snapshot())
      ensures refusal.QuestionRequired? ==> question.None? && OpenQuestion(Snapshot()).Some?
      ensures refusal.OutOfOrder? ==> question.Some? && OpenQuestion(Snapshot()) != question
      ensures refusal.QuestionNotAllowed? ==> question.Some? && !kind.Interview?
    {
      if status != InProgress {
        return NotActive;
      }
      if reason == AwaitingUserEnd {
        return AwaitingCompletion;
      }
      if kind.Interview? {
        var next := FirstOpen(answers, 0, kind.questions);
        if question.None? && next.Some? {
          return QuestionRequired;
        }
        if question.Some? && next != question {
          return OutOfOrder;
        }
      } else if question.Some? {
        return QuestionNotAllowed;
      }
      if active >= limit {
        return QueueFull;
      }
      var m := |messages|;
      messages := messages + [Message(NextSequence(messages), User, None)];
      if question.Some? {
        answers := answers + [Answer(m, question.value, NextAttempt(answers, question.value), false)];
      }
      rows := rows[m := Row(Waiting, nextToken)];
      nextToken := nextToken + 1;
      return Accepted;
    }

    // ConversationAdapter.claim
    method Claim(m: Id) returns (claim: Option<Id>)
      modifies this
      ensures claim.Some? <==> Claimable(old(Snapshot()), m)
      ensures Snapshot() == if claim.Some? then ClaimReply(old(Snapshot()), m) else old(Snapshot())
      ensures claim.Some? ==> claim.value == old(nextClaim) && claim.value in claims
    {
      if m !in rows || rows[m].status != Waiting || status != InProgress {
        return None;
      }
      var payload := PayloadFor(Snapshot(), m);
      claim := Some(nextClaim);
      claims := claims[nextClaim := RoomModel.Claim(m, rows[m].token, payload)];
      nextClaim := nextClaim + 1;
    }

    // ConversationAdapter.complete: the reply's own row first, then the answer, the message, the
    // summary and the room. An answer that breaks the index takes everything back.
    method Complete(c: Id, reply: Reply, long: bool) returns (saved: bool)
      requires c in claims
      modifies this
      ensures saved <==> Commits(old(Snapshot()), c, reply)
      ensures Snapshot() == SaveReply(old(Snapshot()), c, reply, long)
    {
      var claim := claims[c];
      var m := claim.message;
      ghost var was := Snapshot();
      claims := claims - {c};
      if m !in rows || rows[m] != Row(Waiting, claim.token) || status != InProgress {
        return false;
      }
      saved := MarkAnswered(m, claim.token, reply.complete || reply.shouldEnd);
      if saved {
        AppendMessage(claim, reply, long);
        assert Snapshot() == AppendReply(was, c, reply, long);
        ConcludeTurn(reply);
      }
    }

    // The reply's row and the answer it judges, unless a second answer became the current one.
    method MarkAnswered(m: Id, token: nat, current: bool) returns (unique: bool)
      modifies `rows, `answers
      ensures var marked := if kind.Interview? then MarkCurrent(old(answers), m, current) else old(answers);
              if unique then OneCurrent(marked) && answers == marked && rows == old(rows)[m := Row(Answered, token)]
              else !OneCurrent(marked) && answers == old(answers) && rows == old(rows)
    {
      var rowsBefore, answersBefore := rows, answers;
      rows := rows[m := Row(Answered, token)];
      if kind.Interview? {
        answers := MarkCurrent(answers, m, current);
      }
      unique := OneCurrent(answers);
      if !unique {
        rows, answers := rowsBefore, answersBefore;
      }
    }

    method AppendMessage(claim: RoomModel.Claim, reply: Reply, long: bool)
      modifies `messages, `context, `turns, `announced
      ensures context == SavedContext(old(Snapshot()), claim.payload, long)
      ensures messages == old(messages) + [Message(NextSequence(old(messages)), Persona, Some(claim.message))]
      ensures turns == old(turns) + 1
      ensures announced == if reply.wording.NextQuestion? then reply.wording.question else old(announced)
    {
      if Summarises(claim.payload, long) {
        var older := Older(claim.payload.raw);
        context := Context(claim.payload.covers + older, Position(messages, older[|older| - 1]));
      }
      messages := messages + [Message(NextSequence(messages), Persona, Some(claim.message))];
      turns := turns + 1;
      if reply.wording.NextQuestion? {
        announced := reply.wording.question;
      }
    }

    // What the saved reply means for the room
    method ConcludeTurn(reply: Reply)
      modifies this
      ensures Snapshot() == Conclude(old(Snapshot()), reply)
    {
      if kind.Interview? {
        if reply.shouldEnd {
          reason := AwaitingUserEnd;
        }
      } else if kind.Scenario? && kind.maxTurns.Some? && turns >= kind.maxTurns.value {
        CompleteRoom();
      }
    }

    // _complete_room
    method CompleteRoom()
      modifies this
      ensures Snapshot() == old(Snapshot()).(status := Completed, reason := Ended,
                                             results := old(results) + [Preparing])
    {
      status := Completed;
      reason := Ended;
      results := results + [Preparing];
    }

    // _fail_target for a conversation
    method FailTarget(c: Id)
      requires c in claims
      modifies this
      ensures Snapshot() == FailReply(old(Snapshot()), c)
    {
      var claim := claims[c];
      claims := claims - {c};
      if claim.message in rows && rows[claim.message] == Row(Waiting, claim.token) {
        rows := rows[claim.message := Row(GaveUp, claim.token)];
      }
    }

    // retry_response
    method RetryResponse(m: Id) returns (retried: bool)
      modifies this
      ensures retried <==> Enabled(old(Snapshot()), ERetry(m))
      ensures Snapshot() == Step(old(Snapshot()), ERetry(m))
    {
      if m !in rows || rows[m].status != GaveUp {
        return false;
      }
      rows := rows[m := Row(Waiting, nextToken)];
      nextToken := nextToken + 1;
      return true;
    }

    // complete_interview: only a room that waits for its user is completed, and only once.
    method CompleteInterview() returns (completed: bool)
      modifies this
      ensures completed <==> CanCompleteInterview(old(Snapshot()))
      ensures Snapshot() == Step(old(Snapshot()), ECompleteInterview)
    {
      if !kind.Interview? || status != InProgress || reason != AwaitingUserEnd {
        return false;
      }
      CompleteRoom();
      return true;
    }

    // complete_practice
    method CompletePractice() returns (completed: bool)
      modifies this
      ensures completed <==> old(status) == InProgress
      ensures Snapshot() == Step(old(Snapshot()), ECompletePractice)
    {
      if status != InProgress {
        return false;
      }
      status := Completed;
      reason := Ended;
      if turns < 1 {
        return true;
      }
      results := results + [Preparing];
      return true;
    }

    // results.retry. A result has an active job exactly while it is being prepared, so that the check
    // for one never refuses a result that failed.
    method RetryResult() returns (retried: bool)
      modifies this
      ensures retried <==> CanRetryResult(old(Snapshot()))
      ensures Snapshot() == Step(old(Snapshot()), ERetryResult)
    {
      if status != Completed {
        return false;
      }
      if results == [] {
        results := [Preparing];
        return true;
      }
      var latest := |results| - 1;
      if results[latest] != NotPrepared {
        return false;
      }
      results := results[latest := Preparing];
      return true;
    }

    // results.delete
    method DeleteResult(r: Id) returns (deleted: bool)
      modifies this
      ensures deleted <==> CanDeleteResult(old(Snapshot()), r)
      ensures Snapshot() == Step(old(Snapshot()), EDeleteResult(r))
    {
      if r >= |results| || results[r] == Preparing {
        return false;
      }
      results := results[..r] + results[r + 1..];
      return true;
    }

    // dismiss_goal_prompt
    method DismissGoalPrompt() returns (changed: bool)
      modifies this
      ensures changed <==> old(status) == InProgress && old(reason) == GoalAchieved
      ensures Snapshot() == DismissGoal(old(Snapshot()))
    {
      if status == InProgress && reason == GoalAchieved {
        reason := NotEnded;
        dismissed := true;
        return true;
      }
      return false;
    }

    // A worker's turn on one reply: two steps of the state machine, so that what every step keeps
    // is kept, however the model answered.
    method WorkOn(m: Id, model: Model, long: bool) returns (saved: bool)
      requires Ledger(Snapshot()) && Asked(Snapshot())
      modifies this
      ensures saved ==> Snapshot() == Step(Step(old(Snapshot()), EClaim(m)), ESave(old(nextClaim), model, long))
      ensures Ledger(Snapshot()) && Asked(Snapshot())
    {
      ghost var was := Snapshot();
      var c := Claim(m);
      if c.None? {
        return false;
      }
      ghost var claimed := Snapshot();
      assert claimed == Step(was, EClaim(m));
      StepKeepsLedger(was, EClaim(m));
      StepKeepsAsked(was, EClaim(m));
      var reply := Converse(kind.Interview?, claims[c.value].payload, model);
      saved := Complete(c.value, reply, long);
      assert Snapshot() == Step(claimed, ESave(c.value, model, long));
      StepKeepsLedger(claimed, ESave(c.value, model, long));
      StepKeepsAsked(claimed, ESave(c.value, model, long));
    }
  }
}
