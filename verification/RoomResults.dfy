// The result of a practice room over whole runs: completion, the retry and the deletion of a result,
// and nothing else, decide whether there is one.
module RoomResults {
  import opened Jobs
  import opened RoomModel
  import opened RoomInvariant
  import opened RoomTheorems

  // This step completes the room.
  predicate Completes(room: Room, e: Event) {
    room.status == InProgress && Step(room, e).status == Completed
  }

  // A result is inserted by a completion with a turn, or by a retry that finds none.
  predicate Inserts(room: Room, e: Event) {
    || (Completes(room, e) && Step(room, e).turns >= 1)
    || (e.ERetryResult? && room.status == Completed && room.results == [])
  }

  predicate Deletes(room: Room, e: Event) {
    e.EDeleteResult? && CanDeleteResult(room, e.result)
  }

  lemma SaveAddsResult(room: Room, c: Id, reply: Reply, long: bool)
    requires c in room.claims
    ensures var after := SaveReply(room, c, reply, long);
            after.results == room.results
              + if room.status == InProgress && after.status == Completed then [Preparing] else []
    ensures var after := SaveReply(room, c, reply, long);
            room.status == InProgress && after.status == Completed ==> after.turns >= 1
  {
    assert room.results + [] == room.results;
  }

  // One step inserts at most one result, and into a room without one.
  ghost predicate ChangesResults(room: Room, e: Event) {
    && (Inserts(room, e) ==> room.results == [] && Step(room, e).results == [Preparing])
    && (Deletes(room, e) ==> room.results != [] && Step(room, e).results == [])
    && (!Inserts(room, e) && !Deletes(room, e) ==> |Step(room, e).results| == |room.results|)
  }

  lemma OtherStepChangesResults(room: Room, e: Event)
    requires !e.ESave? && |room.results| <= 1 && (room.status == InProgress ==> room.results == [])
    requires room.reason == AwaitingUserEnd ==> room.turns >= 1
    ensures ChangesResults(room, e)
  {
  }

  lemma StepChangesResults(room: Room, e: Event)
    requires Ledger(room)
    ensures ChangesResults(room, e)
  {
    if e.ESave? && Enabled(room, e) {
      SaveAddsResult(room, e.claim, ReplyTo(room, e.claim, e.model), e.long);
    } else if !e.ESave? {
      OtherStepChangesResults(room, e);
    }
  }

  // ---- over every run ------------------------------------------------------------------------

  // In every run, the step that completes a room adds its result if and only if the room had a turn.
  lemma CompletionAddsResultIffTurn(kind: Kind, opening: bool, events: seq<Event>, e: Event)
    requires Creatable(kind, opening) && Completes(Run(NewRoom(kind, opening), events), e)
    ensures var after := Step(Run(NewRoom(kind, opening), events), e);
            after.results == if after.turns >= 1 then [Preparing] else []
  {
    Reachable(kind, opening, events);
    StepChangesResults(Run(NewRoom(kind, opening), events), e);
  }

  // How a result moves in every run: its job settles it once, only a failed one is retried, and only one
  // whose job is over is deleted. Nothing else touches it.
  lemma ResultMoves(kind: Kind, opening: bool, events: seq<Event>, e: Event)
    requires Creatable(kind, opening) && Run(NewRoom(kind, opening), events).results != []
    ensures var room := Run(NewRoom(kind, opening), events);
            var result := room.results[0];
            Step(room, e).results == match e
              case ESettleResult(r, prepared) =>
                if r == 0 && result == Preparing then [if prepared then Prepared else NotPrepared] else [result]
              case ERetryResult => [if result == NotPrepared then Preparing else result]
              case EDeleteResult(r) => if r == 0 && result != Preparing then [] else [result]
              case _ => [result]
  {
    Reachable(kind, opening, events);
    OneResultMoves(Run(NewRoom(kind, opening), events), e);
  }

  lemma OneResultMoves(room: Room, e: Event)
    requires |room.results| == 1 && room.status == Completed
    ensures var result := room.results[0];
            Step(room, e).results == match e
              case ESettleResult(r, prepared) =>
                if r == 0 && result == Preparing then [if prepared then Prepared else NotPrepared] else [result]
              case ERetryResult => [if result == NotPrepared then Preparing else result]
              case EDeleteResult(r) => if r == 0 && result != Preparing then [] else [result]
              case _ => [result]
  {
    assert room.results == [room.results[0]];
  }

  predicate InsertsAt(room: Room, events: seq<Event>, k: nat) {
    k < |events| && Inserts(Run(room, events[..k]), events[k])
  }

  predicate DeletesAt(room: Room, events: seq<Event>, k: nat) {
    k < |events| && Deletes(Run(room, events[..k]), events[k])
  }

  // The last event of the run that inserted or deleted a result inserted one.
  ghost predicate LastInserted(room: Room, events: seq<Event>) {
    exists k: nat :: InsertsAt(room, events, k) && forall j: nat | k < j < |events| :: !DeletesAt(room, events, j)
  }

  lemma SameBefore(room: Room, before: seq<Event>, e: Event, k: nat)
    ensures k < |before| ==> InsertsAt(room, before + [e], k) == InsertsAt(room, before, k)
    ensures k < |before| ==> DeletesAt(room, before + [e], k) == DeletesAt(room, before, k)
    ensures k == |before| ==> InsertsAt(room, before + [e], k) == Inserts(Run(room, before), e)
    ensures k == |before| ==> DeletesAt(room, before + [e], k) == Deletes(Run(room, before), e)
  {
    if k <= |before| {
      assert (before + [e])[..k] == before[..k];
      assert before[..|before|] == before;
    }
  }

  lemma LastInsertedGoesOn(room: Room, before: seq<Event>, e: Event)
    ensures LastInserted(room, before + [e]) <==>
              Inserts(Run(room, before), e) || (LastInserted(room, before) && !Deletes(Run(room, before), e))
  {
    var n := |before|;
    if LastInserted(room, before + [e]) {
      var k: nat :| InsertsAt(room, before + [e], k)
                    && forall j: nat | k < j < |before + [e]| :: !DeletesAt(room, before + [e], j);
      SameBefore(room, before, e, k);
      SameBefore(room, before, e, n);
      forall j: nat | k < j < n ensures !DeletesAt(room, before, j) {
        SameBefore(room, before, e, j);
      }
    }
    if Inserts(Run(room, before), e) {
      SameBefore(room, before, e, n);
      assert InsertsAt(room, before + [e], n);
    } else if LastInserted(room, before) && !Deletes(Run(room, before), e) {
      var k: nat :| InsertsAt(room, before, k) && forall j: nat | k < j < n :: !DeletesAt(room, before, j);
      SameBefore(room, before, e, k);
      forall j: nat | k < j < n + 1 ensures !DeletesAt(room, before + [e], j) {
        SameBefore(room, before, e, j);
      }
      assert InsertsAt(room, before + [e], k);
    }
  }

  // In every run, there is a result if and only if one was inserted, by a completion with a turn or by
  // a retry, and none was deleted since.
  lemma {:induction false} ResultIffLastInserted(kind: Kind, opening: bool, events: seq<Event>)
    requires Creatable(kind, opening)
    ensures Run(NewRoom(kind, opening), events).results != [] <==> LastInserted(NewRoom(kind, opening), events)
  {
    if events != [] {
      var before := events[..|events| - 1];
      var e := events[|events| - 1];
      assert events == before + [e];
      ResultIffLastInserted(kind, opening, before);
      LastInsertedGoesOn(NewRoom(kind, opening), before, e);
      Reachable(kind, opening, before);
      StepChangesResults(Run(NewRoom(kind, opening), before), e);
    }
  }

  // So where nobody retries or deletes a result, a completed room has one if and only if it had a turn.
  lemma {:induction false} UntouchedResultIffTurn(kind: Kind, opening: bool, events: seq<Event>)
    requires Creatable(kind, opening)
    requires forall e | e in events :: !e.ERetryResult? && !e.EDeleteResult?
    ensures var room := Run(NewRoom(kind, opening), events);
            room.status == Completed ==> (room.results != [] <==> room.turns >= 1)
  {
    if events != [] {
      var before := events[..|events| - 1];
      var e := events[|events| - 1];
      UntouchedResultIffTurn(kind, opening, before);
      Reachable(kind, opening, before);
      StepChangesResults(Run(NewRoom(kind, opening), before), e);
      if Run(NewRoom(kind, opening), before).status == Completed {
        CompletedIsFrozen(Run(NewRoom(kind, opening), before), e);
      }
    }
  }

  // After completion, whether there is a result only changes by a retry or a deletion: in every
  // continuation without one it stays as it was,
  lemma {:induction false} OnlyRetryAndDeletionChangeResults(room: Room, events: seq<Event>)
    requires Ledger(room) && room.status == Completed
    requires forall e | e in events :: !e.ERetryResult? && !e.EDeleteResult?
    ensures Ledger(Run(room, events)) && Run(room, events).status == Completed
    ensures |Run(room, events).results| == |room.results|
  {
    if events != [] {
      var before := events[..|events| - 1];
      var e := events[|events| - 1];
      OnlyRetryAndDeletionChangeResults(room, before);
      StepKeepsLedger(Run(room, before), e);
      CompletedIsFrozen(Run(room, before), e);
      StepChangesResults(Run(room, before), e);
    }
  }

  // and a result that is ready stays as it is until it is deleted.
  lemma {:induction false} PreparedStays(room: Room, events: seq<Event>)
    requires room.status == Completed && room.results == [Prepared]
    requires forall e | e in events :: !e.EDeleteResult?
    ensures Run(room, events).status == Completed && Run(room, events).results == [Prepared]
  {
    if events != [] {
      PreparedStays(room, events[..|events| - 1]);
      CompletedIsFrozen(Run(room, events[..|events| - 1]), events[|events| - 1]);
    }
  }

  // ---- two runs ------------------------------------------------------------------------------

  lemma RunOn(room: Room, events: seq<Event>, e: Event)
    ensures Run(room, events + [e]) == Step(Run(room, events), e)
  {
    assert (events + [e])[..|events|] == events;
  }

  // A room in which nothing was said is completed without a result, and a retry makes one.
  lemma NothingSaidYetAResult()
    ensures Run(NewRoom(FreeChat, false), [ECompletePractice]).results == []
    ensures var room := Run(NewRoom(FreeChat, false), [ECompletePractice] + [ERetryResult]);
            room.status == Completed && room.turns == 0 && room.results == [Preparing]
  {
    var room := NewRoom(FreeChat, false);
    assert [] + [ECompletePractice] == [ECompletePractice];
    CompletedThenRetried(room, []);
  }

  lemma CompletedThenRetried(room: Room, events: seq<Event>)
    requires Run(room, events).status == InProgress && Run(room, events).results == []
    ensures var ended := Run(room, events + [ECompletePractice]);
            && ended.status == Completed && ended.turns == Run(room, events).turns
            && ended.results == if ended.turns < 1 then [] else [Preparing]
    ensures var ended := Run(room, events + [ECompletePractice]);
            var retried := Run(room, events + [ECompletePractice] + [ERetryResult]);
            retried.status == Completed && retried.turns == ended.turns && retried.results == [Preparing]
  {
    RunOn(room, events, ECompletePractice);
    RunOn(room, events + [ECompletePractice], ERetryResult);
    EndThenRetry(Run(room, events));
  }

  lemma EndThenRetry(room: Room)
    requires room.status == InProgress && room.results == []
    ensures var ended := Step(room, ECompletePractice);
            && ended.status == Completed && ended.turns == room.turns
            && ended.results == if ended.turns < 1 then [] else [Preparing]
    ensures var retried := Step(Step(room, ECompletePractice), ERetryResult);
            retried.status == Completed && retried.turns == room.turns && retried.results == [Preparing]
  {
  }

  lemma SettledThenDeleted(room: Room, events: seq<Event>)
    requires Run(room, events).status == Completed && Run(room, events).results == [Preparing]
    ensures var deleted := Run(room, events + [ESettleResult(0, true)] + [EDeleteResult(0)]);
            deleted.status == Completed && deleted.turns == Run(room, events).turns && deleted.results == []
    ensures Run(room, events + [ESettleResult(0, true)] + [EDeleteResult(0)] + [ERetryResult]).results == [Preparing]
  {
    RunOn(room, events, ESettleResult(0, true));
    RunOn(room, events + [ESettleResult(0, true)], EDeleteResult(0));
    RunOn(room, events + [ESettleResult(0, true)] + [EDeleteResult(0)], ERetryResult);
    SettleMoves(Run(room, events));
    DeleteMoves(Step(Run(room, events), ESettleResult(0, true)));
  }

  lemma SettleMoves(room: Room)
    requires room.status == Completed && room.results == [Preparing]
    ensures var settled := Step(room, ESettleResult(0, true));
            settled.status == Completed && settled.turns == room.turns && settled.results == [Prepared]
  {
  }

  lemma DeleteMoves(room: Room)
    requires room.status == Completed && room.results == [Prepared]
    ensures var deleted := Step(room, EDeleteResult(0));
            && deleted.status == Completed && deleted.turns == room.turns && deleted.results == []
            && Step(deleted, ERetryResult).results == [Preparing]
  {
  }

  const SAID := Model(false, false, false)
  const TURN := [ESend(None)] + [EClaim(0)] + [ESave(0, SAID, false)]

  lemma OneTurn(room: Room)
    requires room == NewRoom(FreeChat, false)
    ensures var said := Step(Step(Step(room, ESend(None)), EClaim(0)), ESave(0, SAID, false));
            said.status == InProgress && said.turns == 1 && said.results == []
  {
    var sent := Step(room, ESend(None));
    assert sent.rows == map[0 := Row(Waiting, 0)] && sent.kind == FreeChat;
    var claimed := Step(sent, EClaim(0));
    assert claimed.claims[0].message == 0 && claimed.claims[0].token == 0;
    assert Commits(claimed, 0, ReplyTo(claimed, 0, SAID));
  }

  lemma TurnTaken()
    ensures var said := Run(NewRoom(FreeChat, false), TURN);
            said.status == InProgress && said.turns == 1 && said.results == []
  {
    var room := NewRoom(FreeChat, false);
    OneTurn(room);
    RunOn(room, [], ESend(None));
    assert [] + [ESend(None)] == [ESend(None)];
    RunOn(room, [ESend(None)], EClaim(0));
    RunOn(room, [ESend(None)] + [EClaim(0)], ESave(0, SAID, false));
  }

  // The result of a room with a turn is deleted, so that a completed room with a turn has none, and a
  // retry makes it anew.
  lemma DeletedAndMadeAnew()
    ensures var deleted := TURN + [ECompletePractice] + [ESettleResult(0, true)] + [EDeleteResult(0)];
            && Run(NewRoom(FreeChat, false), deleted).status == Completed
            && Run(NewRoom(FreeChat, false), deleted).turns == 1
            && Run(NewRoom(FreeChat, false), deleted).results == []
            && Run(NewRoom(FreeChat, false), deleted + [ERetryResult]).results == [Preparing]
  {
    TurnTaken();
    CompletedThenRetried(NewRoom(FreeChat, false), TURN);
    SettledThenDeleted(NewRoom(FreeChat, false), TURN + [ECompletePractice]);
  }
}
