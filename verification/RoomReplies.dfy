// The life of one reply, over whole runs: who may claim it, when a worker's answer is saved, what a
// failure and a retry leave, and how a room ends.
module RoomReplies {
  import opened Jobs
  import opened RoomModel
  import opened RoomInvariant
  import opened RoomContext
  import opened RoomTheorems

  // ---- claims and tokens ---------------------------------------------------------------------

  // Claims are told apart, and hold a token that their row has or had.
  ghost predicate TokensFit(room: Room) {
    && (forall m :: m in room.rows ==> room.rows[m].token < room.nextToken)
    && (forall c :: c in room.claims ==>
          && c < room.nextClaim && room.claims[c].message in room.rows
          && room.claims[c].token <= room.rows[room.claims[c].message].token)
  }

  lemma AppendKeepsTokens(room: Room, c: Id, reply: Reply, long: bool)
    requires TokensFit(room) && Commits(room, c, reply)
    ensures TokensFit(AppendReply(room, c, reply, long))
  {
  }

  lemma SendKeepsTokens(room: Room, question: Option<nat>)
    requires RowsFit(room) && TokensFit(room) && Accepts(room, question)
    ensures TokensFit(Send(room, question))
  {
  }

  lemma RowStepKeepsTokens(room: Room, e: Event)
    requires TokensFit(room) && TouchesRows(e)
    ensures TokensFit(Step(room, e))
  {
  }

  lemma QuietStepKeepsTokens(room: Room, e: Event)
    requires TokensFit(room) && !e.ESend? && !e.ESave? && !TouchesRows(e)
    ensures TokensFit(Step(room, e))
  {
    var after := Step(room, e);
    assert after.rows == room.rows && after.claims == room.claims;
  }

  lemma SaveKeepsTokens(room: Room, c: Id, reply: Reply, long: bool)
    requires TokensFit(room) && c in room.claims
    ensures TokensFit(SaveReply(room, c, reply, long))
  {
    if Commits(room, c, reply) {
      AppendKeepsTokens(room, c, reply, long);
      var appended := AppendReply(room, c, reply, long);
      assert Conclude(appended, reply).rows == appended.rows && Conclude(appended, reply).claims == appended.claims;
    }
  }

  lemma StepKeepsTokens(room: Room, e: Event)
    requires RowsFit(room) && TokensFit(room)
    ensures TokensFit(Step(room, e))
  {
    if Enabled(room, e) {
      if e.ESend? {
        SendKeepsTokens(room, e.question);
      } else if e.ESave? {
        SaveKeepsTokens(room, e.claim, ReplyTo(room, e.claim, e.model), e.long);
      } else if TouchesRows(e) {
        RowStepKeepsTokens(room, e);
      } else {
        QuietStepKeepsTokens(room, e);
      }
    }
  }

  lemma {:induction false} TokensOfEveryRun(kind: Kind, opening: bool, events: seq<Event>)
    requires Creatable(kind, opening)
    ensures TokensFit(Run(NewRoom(kind, opening), events))
  {
    if events != [] {
      TokensOfEveryRun(kind, opening, events[..|events| - 1]);
      Reachable(kind, opening, events[..|events| - 1]);
      StepKeepsTokens(Run(NewRoom(kind, opening), events[..|events| - 1]), events[|events| - 1]);
    }
  }

  // ---- claiming ------------------------------------------------------------------------------

  // In every run a reply is handed out exactly while it waits and its room runs, to any number of workers.
  lemma ClaimedIff(kind: Kind, opening: bool, events: seq<Event>, m: Id) returns (c: Id)
    requires Creatable(kind, opening)
    ensures var room := Run(NewRoom(kind, opening), events);
            var after := Step(room, EClaim(m));
            if m in room.rows && room.rows[m].status == Waiting && room.status == InProgress then
              && c !in room.claims && after.claims.Keys == room.claims.Keys + {c}
              && (forall d | d in room.claims :: after.claims[d] == room.claims[d])
              && after.claims[c].message == m && after.claims[c].token == room.rows[m].token
              && after == room.(claims := after.claims, nextClaim := after.nextClaim)
            else after == room
  {
    c := Run(NewRoom(kind, opening), events).nextClaim;
    TokensOfEveryRun(kind, opening, events);
  }

  // ---- saving --------------------------------------------------------------------------------

  // Another answer to the question of m's answer is current already.
  ghost predicate Overtaken(answers: seq<Answer>, m: Id) {
    exists i, j | 0 <= i < |answers| && 0 <= j < |answers| && answers[i].message == m ::
      && answers[j].message != m && answers[i].question == answers[j].question && answers[j].current
  }

  lemma OneCurrentIff(answers: seq<Answer>, m: Id, current: bool)
    requires OneCurrent(answers)
    requires forall i, j | 0 <= i < j < |answers| :: answers[i].message != answers[j].message
    ensures OneCurrent(MarkCurrent(answers, m, current)) <==> !(current && Overtaken(answers, m))
  {
    MarkCurrentAt(answers, m, current);
    var marked := MarkCurrent(answers, m, current);
    if current && Overtaken(answers, m) {
      var i, j :| 0 <= i < |answers| && 0 <= j < |answers| && answers[i].message == m
                  && answers[j].message != m && answers[i].question == answers[j].question && answers[j].current;
      assert marked[i].current && marked[j].current && marked[i].question == marked[j].question;
      var first, second := if i < j then i else j, if i < j then j else i;
      assert marked[first].question == marked[second].question;
    }
  }

  // When a worker's reply is saved
  ghost predicate Saves(room: Room, c: Id, model: Model)
    requires c in room.claims
  {
    var m := room.claims[c].message;
    var reply := ReplyTo(room, c, model);
    && room.status == InProgress
    && m in room.rows && room.rows[m].status == Waiting && room.rows[m].token == room.claims[c].token
    && !(room.kind.Interview? && (reply.complete || reply.shouldEnd) && Overtaken(room.answers, m))
  }

  lemma CommitsIff(room: Room, c: Id, model: Model)
    requires AnswersFit(room) && c in room.claims
    ensures Commits(room, c, ReplyTo(room, c, model)) <==> Saves(room, c, model)
  {
    var reply := ReplyTo(room, c, model);
    OneCurrentIff(room.answers, room.claims[c].message, reply.complete || reply.shouldEnd);
  }

  ghost predicate SavedAs(room: Room, after: Room, claim: Claim) {
    && after.messages == room.messages + [Message(|room.messages| + 1, Persona, Some(claim.message))]
    && after.rows == room.rows[claim.message := Row(Answered, claim.token)] && after.turns == room.turns + 1
  }

  // In every run a worker's reply is saved if and only if the room runs, the reply still waits under the
  // claim's token, and, where it completes an answer, no other answer to that question did. Otherwise
  // only the claim is gone.
  lemma SavedIff(kind: Kind, opening: bool, events: seq<Event>, c: Id, model: Model, long: bool)
    requires Creatable(kind, opening) && c in Run(NewRoom(kind, opening), events).claims
    ensures var room := Run(NewRoom(kind, opening), events);
            var after := Step(room, ESave(c, model, long));
            && after.claims == room.claims - {c}
            && if Saves(room, c, model) then SavedAs(room, after, room.claims[c])
               else after == room.(claims := room.claims - {c})
  {
    Reachable(kind, opening, events);
    var room := Run(NewRoom(kind, opening), events);
    SavedStep(room, c, model, long);
  }

  lemma SavedStep(room: Room, c: Id, model: Model, long: bool)
    requires Numbered(room.messages) && AnswersFit(room) && c in room.claims
    ensures var after := Step(room, ESave(c, model, long));
            && after.claims == room.claims - {c}
            && if Saves(room, c, model) then SavedAs(room, after, room.claims[c])
               else after == room.(claims := room.claims - {c})
  {
    CommitsIff(room, c, model);
    SavedReply(room, c, ReplyTo(room, c, model), long);
  }

  lemma SavedReply(room: Room, c: Id, reply: Reply, long: bool)
    requires Numbered(room.messages) && c in room.claims
    ensures var after := SaveReply(room, c, reply, long);
            && after.claims == room.claims - {c}
            && if Commits(room, c, reply) then SavedAs(room, after, room.claims[c])
               else after == room.(claims := room.claims - {c})
  {
    NextSequenceCounts(room.messages);
  }

  // What was summarised for a saved reply is kept: everything the claim saw but the last two messages.
  lemma SummaryIsKept(kind: Kind, opening: bool, events: seq<Event>, c: Id, model: Model, long: bool)
    requires Creatable(kind, opening) && c in Run(NewRoom(kind, opening), events).claims
    ensures var room := Run(NewRoom(kind, opening), events);
            var after := Step(room, ESave(c, model, long));
            var payload := room.claims[c].payload;
            if Saves(room, c, model) && long && |payload.raw| > 2
            then after.context.covers == UpTo(|payload.covers| + |payload.raw| - 2)
            else after.context == room.context
  {
    Reachable(kind, opening, events);
    var room := Run(NewRoom(kind, opening), events);
    CommitsIff(room, c, model);
    SavedSummary(room, c, ReplyTo(room, c, model), long);
  }

  lemma SavedSummary(room: Room, c: Id, reply: Reply, long: bool)
    requires c in room.claims && PayloadFits(room, room.claims[c])
    ensures var after := SaveReply(room, c, reply, long);
            var payload := room.claims[c].payload;
            if Commits(room, c, reply) && long && |payload.raw| > 2
            then after.context.covers == UpTo(|payload.covers| + |payload.raw| - 2)
            else after.context == room.context
  {
    var payload := room.claims[c].payload;
    if long && |payload.raw| > 2 {
      PrefixUpTo(|payload.covers| + |payload.raw|, payload.covers, payload.raw, |payload.raw| - 2);
    }
  }

  // Outside interviews the reply is the model's.
  lemma ModelSpeaksOutsideInterviews(kind: Kind, opening: bool, events: seq<Event>, c: Id, model: Model)
    requires Creatable(kind, opening) && c in Run(NewRoom(kind, opening), events).claims
    ensures var reply := ReplyTo(Run(NewRoom(kind, opening), events), c, model);
            && (reply.wording == FromModel <==> !kind.Interview?)
            && (!kind.Interview? ==> reply.complete == model.complete && reply.shouldEnd == model.shouldEnd)
  {
    Reachable(kind, opening, events);
  }

  // ---- failing and retrying ------------------------------------------------------------------

  // A worker fails a reply exactly under the token the reply still waits with.
  lemma FailedIff(kind: Kind, opening: bool, events: seq<Event>, c: Id)
    requires Creatable(kind, opening) && c in Run(NewRoom(kind, opening), events).claims
    ensures var room := Run(NewRoom(kind, opening), events);
            var after := Step(room, EFail(c));
            var claim := room.claims[c];
            && c !in after.claims && claim.message in room.rows
            && (forall d | d in room.claims && d != c :: d in after.claims && after.claims[d] == room.claims[d])
            && if room.rows[claim.message] == Row(Waiting, claim.token)
               then CanBeRetried(room, after, claim.message) else after.rows == room.rows
  {
    TokensOfEveryRun(kind, opening, events);
  }

  // The reaper gives up whatever waits, also in a room that has ended.
  lemma GivenUpIs(kind: Kind, opening: bool, events: seq<Event>, m: Id)
    requires Creatable(kind, opening)
    requires m in Run(NewRoom(kind, opening), events).rows
             && Run(NewRoom(kind, opening), events).rows[m].status == Waiting
    ensures var room := Run(NewRoom(kind, opening), events);
            CanBeRetried(room, Step(room, EGiveUp(m)), m)
  {
    TokensOfEveryRun(kind, opening, events);
  }

  // The reply has failed with nothing else touched, and a retry makes it wait again under a token
  // that no claim on it holds.
  ghost predicate CanBeRetried(room: Room, failed: Room, m: Id) {
    && m in room.rows && failed == room.(rows := failed.rows, claims := failed.claims)
    && OnlyRow(room, failed, m) && failed.rows[m].status == GaveUp
    && var retried := Step(failed, ERetry(m));
       && OnlyRow(room, retried, m) && retried.rows[m].status == Waiting
       && forall c | c in retried.claims && retried.claims[c].message == m ::
            retried.claims[c].token < retried.rows[m].token
  }

  ghost predicate OnlyRow(room: Room, after: Room, m: Id) {
    && m in room.rows && after.rows.Keys == room.rows.Keys
    && forall x | x in room.rows && x != m :: after.rows[x] == room.rows[x]
  }

  // The claim was made under a token that its row no longer has.
  ghost predicate Superseded(room: Room, c: Id) {
    && c in room.claims && room.claims[c].message in room.rows
    && room.claims[c].token < room.rows[room.claims[c].message].token
  }

  lemma AppendSupersedes(room: Room, c: Id, s: Id, reply: Reply, long: bool)
    requires Superseded(room, c) && Commits(room, s, reply)
    ensures s != c && Superseded(AppendReply(room, s, reply, long), c)
  {
  }

  lemma RowStepSupersedes(room: Room, e: Event, c: Id)
    requires TokensFit(room) && Superseded(room, c) && (TouchesRows(e) || e.ESend?) && RowsFit(room)
    ensures c in Step(room, e).claims ==> Superseded(Step(room, e), c)
  {
  }

  lemma StepGivesNewClaims(room: Room, e: Event, c: Id)
    requires c < room.nextClaim
    ensures c < Step(room, e).nextClaim && (c in Step(room, e).claims ==> c in room.claims)
  {
  }

  lemma SupersededStays(room: Room, e: Event, c: Id)
    requires RowsFit(room) && TokensFit(room) && c < room.nextClaim && (c in room.claims ==> Superseded(room, c))
    ensures var after := Step(room, e);
            c < after.nextClaim && (c in after.claims ==> Superseded(after, c))
  {
    StepGivesNewClaims(room, e, c);
    if c in room.claims {
      if e.ESave? {
        if Enabled(room, e) && Commits(room, e.claim, ReplyTo(room, e.claim, e.model)) {
          var reply := ReplyTo(room, e.claim, e.model);
          AppendSupersedes(room, c, e.claim, reply, e.long);
          var appended := AppendReply(room, e.claim, reply, e.long);
          assert Conclude(appended, reply).rows == appended.rows && Conclude(appended, reply).claims == appended.claims;
        }
      } else if TouchesRows(e) || e.ESend? {
        RowStepSupersedes(room, e, c);
      } else {
        QuietStepSupersedes(room, e, c);
      }
    }
  }

  lemma QuietStepSupersedes(room: Room, e: Event, c: Id)
    requires !e.ESend? && !e.ESave? && !TouchesRows(e) && Superseded(room, c)
    ensures Superseded(Step(room, e), c)
  {
  }

  lemma {:induction false} SupersededForGood(room: Room, later: seq<Event>, c: Id)
    requires Inv(room) && TokensFit(room) && c < room.nextClaim && (c in room.claims ==> Superseded(room, c))
    ensures var after := Run(room, later);
            && Inv(after) && TokensFit(after) && c < after.nextClaim && (c in after.claims ==> Superseded(after, c))
  {
    RunKeepsInv(room, later);
    if later != [] {
      var before := later[..|later| - 1];
      SupersededForGood(room, before, c);
      StepKeepsTokens(Run(room, before), later[|later| - 1]);
      SupersededStays(Run(room, before), later[|later| - 1], c);
    }
  }

  // After a retry, no worker that was out with the reply before can save it or fail it, whatever follows.
  lemma RetrySupersedes(kind: Kind, opening: bool, events: seq<Event>, m: Id, c: Id, later: seq<Event>,
        model: Model, long: bool)
    requires Creatable(kind, opening)
    requires var room := Run(NewRoom(kind, opening), events);
             && m in room.rows && room.rows[m].status == GaveUp
             && c in room.claims && room.claims[c].message == m
    ensures var room := Run(NewRoom(kind, opening), events);
            var after := Run(Step(room, ERetry(m)), later);
            && Step(after, ESave(c, model, long)) == after.(claims := after.claims - {c})
            && Step(after, EFail(c)) == after.(claims := after.claims - {c})
  {
    var room := Run(NewRoom(kind, opening), events);
    Reachable(kind, opening, events);
    TokensOfEveryRun(kind, opening, events);
    RetryKeepsInv(room, m, c);
    SupersededForGood(Step(room, ERetry(m)), later, c);
    SupersededReportsNothing(Run(Step(room, ERetry(m)), later), c, model, long);
  }

  lemma RetryKeepsInv(room: Room, m: Id, c: Id)
    requires Inv(room) && TokensFit(room) && m in room.rows && room.rows[m].status == GaveUp
    requires c in room.claims && room.claims[c].message == m
    ensures var retried := Step(room, ERetry(m));
            Inv(retried) && TokensFit(retried) && c < retried.nextClaim && Superseded(retried, c)
  {
    StepKeepsLedger(room, ERetry(m));
    StepKeepsAsked(room, ERetry(m));
    StepKeepsCoverage(room, ERetry(m));
    StepKeepsTokens(room, ERetry(m));
    RetrySupersedesNow(room, m, c);
  }

  lemma RetrySupersedesNow(room: Room, m: Id, c: Id)
    requires TokensFit(room) && m in room.rows && room.rows[m].status == GaveUp
    requires c in room.claims && room.claims[c].message == m
    ensures var retried := Step(room, ERetry(m)); c < retried.nextClaim && Superseded(retried, c)
  {
  }

  lemma SupersededReportsNothing(room: Room, c: Id, model: Model, long: bool)
    requires c in room.claims ==> Superseded(room, c)
    ensures Step(room, ESave(c, model, long)) == room.(claims := room.claims - {c})
    ensures Step(room, EFail(c)) == room.(claims := room.claims - {c})
  {
    assert c !in room.claims ==> room.claims - {c} == room.claims;
  }

  // ---- how rooms end -------------------------------------------------------------------------

  // In every run a room has completed if and only if it has ended; without the user's completing it, that
  // is a scenario all of whose turns are taken.
  lemma {:induction false} EndsWithItsTurns(kind: Kind, opening: bool, events: seq<Event>)
    requires Creatable(kind, opening)
    ensures var room := Run(NewRoom(kind, opening), events);
            && (room.status == Completed <==> room.reason == Ended)
            && ((forall e | e in events :: !e.ECompletePractice? && !e.ECompleteInterview?) ==>
                  (room.status == Completed <==> kind.Scenario? && room.turns == kind.maxTurns.value))
  {
    if events != [] {
      var before := events[..|events| - 1];
      EndsWithItsTurns(kind, opening, before);
      Reachable(kind, opening, before);
      assert events[|events| - 1] in events;
      assert forall e | e in before :: e in events;
      StepEnds(Run(NewRoom(kind, opening), before), events[|events| - 1]);
    }
  }

  lemma StepEnds(room: Room, e: Event)
    requires Counted(room) && (room.kind.Scenario? ==> room.kind.maxTurns.Some?)
    requires room.status == Completed <==> room.reason == Ended
    ensures var after := Step(room, e);
            && (after.status == Completed <==> after.reason == Ended)
            && (e.ECompletePractice? || e.ECompleteInterview? || room.status == Completed ||
                (after.status == Completed <==> room.kind.Scenario? && after.turns == room.kind.maxTurns.value))
            && (room.status == Completed ==> after.status == Completed && after.turns == room.turns)
  {
  }
}
