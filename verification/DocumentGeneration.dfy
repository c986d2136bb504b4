// Generating configurations over all continuations: which get settled, and which become ready.
module DocumentGeneration {
  import opened Jobs
  import opened Documents
  import opened DocumentTheorems
  import opened DocumentReplacement
  import opened DocumentDeadEnds

  // ---- a generating configuration is settled, unless it is a dead end ------------------------

  // The time until `at`
  function Until(s: Store, at: real): real {
    if at <= s.now then 0.0 else at - s.now
  }

  lemma Waited(s: Store, at: real)
    ensures Step(s, ETick(Until(s, at))) == s.(now := if at <= s.now then s.now else at)
  {
  }

  // The reaper finds it once its deadline has passed.
  function Reaping(s: Store, c: Id): seq<Event>
    requires c < |s.configurations|
  {
    [ETick(Until(s, s.configurations[c].job.deadline))] + [EReap(c)]
  }

  lemma ReapingBreaks(events: seq<Event>, c: Id)
    requires IsProcessed(Run(events), c)
    ensures var s := Run(events); var t := Run(events + Reaping(s, c));
            && Is(t, c, Broken) && t.documents == s.documents && t.analyses == s.analyses
            && t.configurations[c].analyses == s.configurations[c].analyses
  {
    var s := Run(events);
    var waiting := ETick(Until(s, s.configurations[c].job.deadline));
    Waited(s, s.configurations[c].job.deadline);
    RunOn(events, waiting);
    RunOn(events + [waiting], EReap(c));
    assert events + Reaping(s, c) == events + [waiting] + [EReap(c)];
  }

  lemma FoundAlike(s: Store, t: Store, analyses: seq<Id>)
    requires t.documents == s.documents && t.analyses == s.analyses
    ensures AllFound(t, analyses) == AllFound(s, analyses)
  {
    assert Found(t, analyses) == Found(s, analyses);
  }

  lemma Joined(events: seq<Event>, more: seq<Event>, rest: seq<Event>)
    ensures Run(events + (more + rest)) == Run(events + more + rest)
  {
    assert events + (more + rest) == events + more + rest;
  }

  // A worker claims it once it is due.
  function Claiming(s: Store, c: Id): seq<Event>
    requires c < |s.configurations|
  {
    [ETick(Until(s, s.configurations[c].job.due))] + [EClaimConfiguration(c)]
  }

  lemma ClaimingTakes(events: seq<Event>, c: Id)
    requires IsQueued(Run(events), c)
    ensures var s := Run(events); var t := Run(events + Claiming(s, c)); var k := |s.claims|;
            && IsProcessed(t, c) && t.documents == s.documents && t.analyses == s.analyses
            && t.configurations[c].analyses == s.configurations[c].analyses
            && k < |t.claims| && OutWith(t, k) && t.claims[k].configuration == c
            && t.claims[k].deadline == s.configurations[c].job.deadline
            && t.now == if s.configurations[c].job.due <= s.now then s.now else s.configurations[c].job.due
  {
    var s := Run(events);
    var waiting := ETick(Until(s, s.configurations[c].job.due));
    Waited(s, s.configurations[c].job.due);
    RunOn(events, waiting);
    FoundAlike(s, Run(events + [waiting]), s.configurations[c].analyses);
    RunOn(events + [waiting], EClaimConfiguration(c));
    assert events + Claiming(s, c) == events + [waiting] + [EClaimConfiguration(c)];
  }

  // In every run, a generating configuration has a continuation in which it is ready or failed if and
  // only if it is no dead end.
  lemma GeneratingSettlesIff(events: seq<Event>, c: Id)
    requires Is(Run(events), c, Generating)
    ensures (exists more :: Is(Run(events + more), c, Ready) || Is(Run(events + more), c, Broken))
            <==> !DeadEnd(Run(events), c)
  {
    var s := Run(events);
    GeneratingIs(events, c);
    if DeadEnd(s, c) {
      forall more ensures !Is(Run(events + more), c, Ready) && !Is(Run(events + more), c, Broken) {
        DeadEndForGood(events, more, c);
      }
    } else if IsProcessed(s, c) {
      ReapingBreaks(events, c);
    } else {
      ClaimingTakes(events, c);
      var claimed := events + Claiming(s, c);
      ReapingBreaks(claimed, c);
      var more := Claiming(s, c) + Reaping(Run(claimed), c);
      Joined(events, Claiming(s, c), Reaping(Run(claimed), c));
      assert Is(Run(events + more), c, Broken);
    }
  }

  // ---- and becomes ready, if it can ----------------------------------------------------------

  // By a worker that is out with it, or one that claims it in time
  predicate InTime(s: Store, c: Id) {
    Outstanding(s, c) || (IsQueued(s, c) && s.now < s.configurations[c].job.deadline)
  }

  lemma OutstandingBecomesReady(events: seq<Event>, c: Id) returns (more: seq<Event>)
    requires Outstanding(Run(events), c)
    ensures Is(Run(events + more), c, Ready) && ERegenerate(c) !in more
  {
    var s := Run(events);
    var k :| 0 <= k < |s.claims| && MaySave(s, k) && s.claims[k].configuration == c;
    SavingMakesReady(events, k);
    more := Saving(s, k);
  }

  lemma ClaimedInTime(events: seq<Event>, c: Id)
    requires IsQueued(Run(events), c) && Run(events).now < Run(events).configurations[c].job.deadline
    ensures Outstanding(Run(events + Claiming(Run(events), c)), c)
  {
    RunKeepsInv(events);
    assert JobFits(Run(events).configurations[c]);
    ClaimingTakes(events, c);
    assert MaySave(Run(events + Claiming(Run(events), c)), |Run(events).claims|);
  }

  lemma InTimeBecomesReady(events: seq<Event>, c: Id) returns (more: seq<Event>)
    requires InTime(Run(events), c)
    ensures Is(Run(events + more), c, Ready) && ERegenerate(c) !in more
  {
    var s := Run(events);
    if Outstanding(s, c) {
      more := OutstandingBecomesReady(events, c);
    } else {
      ClaimedInTime(events, c);
      var saving := OutstandingBecomesReady(events + Claiming(s, c), c);
      more := Claiming(s, c) + saving;
      Joined(events, Claiming(s, c), saving);
    }
  }

  lemma OutstandingBefore(s: Store, e: Event, c: Id)
    requires Linked(s) && Held(s) && c < |s.configurations| && Outstanding(Step(s, e), c)
    ensures Outstanding(s, c) || (e == EClaimConfiguration(c) && CanClaimConfiguration(s, c))
    ensures !Outstanding(s, c) ==> s.now < s.configurations[c].job.deadline
  {
    var t := Step(s, e);
    var k :| 0 <= k < |t.claims| && MaySave(t, k) && t.claims[k].configuration == c;
    if k < |s.claims| {
      MaySaveBefore(s, e, k);
    } else {
      OutBefore(s, e, k);
    }
  }

  // Jobs are queued by their own worker's report, which is out and has started, or anew.
  lemma QueuedBefore(s: Store, e: Event, c: Id)
    requires c < |s.configurations| && e != ERegenerate(c)
    requires c < |Step(s, e).configurations| && Step(s, e).configurations[c].job.status == Queued
    requires Step(s, e).configurations[c].readiness == Generating
    ensures s.configurations[c].readiness == Generating
    ensures s.configurations[c].job == Step(s, e).configurations[c].job
         || (e.EFailConfiguration? && MaySave(s, e.claim) && s.claims[e.claim].configuration == c)
  {
  }

  lemma NotInTimeStays(s: Store, e: Event, c: Id)
    requires Inv(s) && c < |s.configurations| && !Is(s, c, Ready) && !InTime(s, c) && e != ERegenerate(c)
    ensures c < |Step(s, e).configurations| && !Is(Step(s, e), c, Ready) && !InTime(Step(s, e), c)
  {
    RowsStay(s, e, c);
    var t := Step(s, e);
    if Is(t, c, Ready) {
      ReadyBefore(s, e, c);
    }
    if Outstanding(t, c) {
      OutstandingBefore(s, e, c);
    }
    if IsQueued(t, c) {
      QueuedBefore(s, e, c);
      FoundBefore(s, e, c);
    }
  }

  lemma {:induction false} NotInTimeForGood(events: seq<Event>, more: seq<Event>, c: Id)
    requires c < |Run(events).configurations| && !Is(Run(events), c, Ready) && !InTime(Run(events), c)
    requires ERegenerate(c) !in more
    ensures var t := Run(events + more); c < |t.configurations| && !Is(t, c, Ready) && !InTime(t, c)
  {
    if more == [] {
      assert events + more == events;
    } else {
      var before := events + more[..|more| - 1];
      var e := more[|more| - 1];
      NotInTimeForGood(events, more[..|more| - 1], c);
      assert events + more == before + [e] && e in more;
      RunOn(before, e);
      RunKeepsInv(before);
      NotInTimeStays(Run(before), e, c);
    }
  }

  // In every run, the job of a generating configuration makes it ready in some continuation if and only
  // if a worker is out that has started or still can, or the job is queued with time left and every
  // listed analysis is found.
  lemma ReadyByItsJobIff(events: seq<Event>, c: Id)
    requires Is(Run(events), c, Generating)
    ensures (exists more :: ERegenerate(c) !in more && Is(Run(events + more), c, Ready)) <==> InTime(Run(events), c)
  {
    if InTime(Run(events), c) {
      var more := InTimeBecomesReady(events, c);
    } else {
      forall more | ERegenerate(c) !in more ensures !Is(Run(events + more), c, Ready) {
        NotInTimeForGood(events, more, c);
      }
    }
  }

  // ---- regenerated or not --------------------------------------------------------------------

  predicate IsActive(row: Configuration) {
    row.readiness in {Generating, Ready, InUse}
  }

  // The unique index on active configurations is never broken.
  ghost predicate OneActive(s: Store) {
    forall c, d | 0 <= c < |s.configurations| && 0 <= d < |s.configurations| && IsActive(s.configurations[c])
      && IsActive(s.configurations[d]) && s.configurations[c].setup == s.configurations[d].setup :: c == d
  }

  // A configuration that is active after a step was active before it, or nothing else of its setup was.
  lemma ActiveBefore(s: Store, e: Event, c: Id)
    requires c < |Step(s, e).configurations| && IsActive(Step(s, e).configurations[c])
    ensures c < |s.configurations| ==> Step(s, e).configurations[c].setup == s.configurations[c].setup
    ensures || (c < |s.configurations| && IsActive(s.configurations[c]))
            || (!HasActive(s.configurations, Step(s, e).configurations[c].setup, c)
                && (e == ERegenerate(c) || (e.EConfigure? && c == |s.configurations|)))
  {
  }

  lemma StepKeepsOneActive(s: Store, e: Event)
    requires OneActive(s)
    ensures OneActive(Step(s, e))
  {
    var t := Step(s, e);
    forall c, d | 0 <= c < |t.configurations| && 0 <= d < |t.configurations| && IsActive(t.configurations[c])
      && IsActive(t.configurations[d]) && t.configurations[c].setup == t.configurations[d].setup ensures c == d
    {
      ActiveBefore(s, e, c);
      ActiveBefore(s, e, d);
    }
  }

  lemma {:induction false} RunKeepsOneActive(events: seq<Event>)
    ensures OneActive(Run(events))
  {
    if events != [] {
      RunKeepsOneActive(events[..|events| - 1]);
      StepKeepsOneActive(Run(events[..|events| - 1]), events[|events| - 1]);
    }
  }

  lemma RegeneratedIsQueued(events: seq<Event>, c: Id)
    requires CanRegenerate(Run(events), c) && AllFound(Run(events), Run(events).configurations[c].analyses)
    ensures InTime(Run(events + [ERegenerate(c)]), c)
  {
    RunOn(events, ERegenerate(c));
    FoundAlike(Run(events), Run(events + [ERegenerate(c)]), Run(events).configurations[c].analyses);
  }

  lemma RegeneratedBecomesReady(events: seq<Event>, c: Id) returns (more: seq<Event>)
    requires CanRegenerate(Run(events), c) && AllFound(Run(events), Run(events).configurations[c].analyses)
    ensures Is(Run(events + more), c, Ready)
  {
    var s := Run(events);
    var regenerated := events + [ERegenerate(c)];
    RegeneratedIsQueued(events, c);
    var saving := InTimeBecomesReady(regenerated, c);
    more := [ERegenerate(c)] + saving;
    Joined(events, [ERegenerate(c)], saving);
  }

  lemma ReapedCanRegenerate(events: seq<Event>, c: Id)
    requires IsProcessed(Run(events), c)
    ensures CanRegenerate(Run(events + Reaping(Run(events), c)), c)
  {
    var s := Run(events);
    var reaped := events + Reaping(s, c);
    ReapingBreaks(events, c);
    RunKeepsInv(reaped);
    assert JobFits(Run(reaped).configurations[c]);
    RunKeepsOneActive(events);
    OthersAsBefore(events, c);
  }

  lemma OthersAsBefore(events: seq<Event>, c: Id)
    requires IsProcessed(Run(events), c)
    ensures var s := Run(events); var t := Run(events + Reaping(s, c));
            && |t.configurations| == |s.configurations| && t.configurations[c].setup == s.configurations[c].setup
            && forall d | 0 <= d < |s.configurations| && d != c :: t.configurations[d] == s.configurations[d]
  {
    var s := Run(events);
    var waiting := ETick(Until(s, s.configurations[c].job.deadline));
    RunOn(events, waiting);
    RunOn(events + [waiting], EReap(c));
    assert events + Reaping(s, c) == events + [waiting] + [EReap(c)];
  }

  lemma ReapedFinds(events: seq<Event>, c: Id)
    requires IsProcessed(Run(events), c) && AllFound(Run(events), Run(events).configurations[c].analyses)
    ensures var t := Run(events + Reaping(Run(events), c));
            Is(t, c, Broken) && AllFound(t, t.configurations[c].analyses)
  {
    ReapingBreaks(events, c);
    FoundAlike(Run(events), Run(events + Reaping(Run(events), c)), Run(events).configurations[c].analyses);
  }

  // Whoever processes it now, it can fail and be regenerated.
  lemma ProcessedBecomesReady(events: seq<Event>, c: Id) returns (more: seq<Event>)
    requires IsProcessed(Run(events), c) && AllFound(Run(events), Run(events).configurations[c].analyses)
    ensures Is(Run(events + more), c, Ready)
  {
    var s := Run(events);
    var reaped := events + Reaping(s, c);
    ReapedCanRegenerate(events, c);
    ReapedFinds(events, c);
    var saving := RegeneratedBecomesReady(reaped, c);
    more := Reaping(s, c) + saving;
    Joined(events, Reaping(s, c), saving);
  }

  lemma ClaimedFinds(events: seq<Event>, c: Id)
    requires IsQueued(Run(events), c)
    ensures var t := Run(events + Claiming(Run(events), c));
            IsProcessed(t, c) && AllFound(t, t.configurations[c].analyses)
  {
    ClaimingTakes(events, c);
    FoundAlike(Run(events), Run(events + Claiming(Run(events), c)), Run(events).configurations[c].analyses);
  }

  lemma GeneratingIs(events: seq<Event>, c: Id)
    requires Is(Run(events), c, Generating)
    ensures IsProcessed(Run(events), c) || IsQueued(Run(events), c) || DeadEnd(Run(events), c)
  {
    RunKeepsInv(events);
    assert JobFits(Run(events).configurations[c]);
  }

  lemma FoundBecomesReady(events: seq<Event>, c: Id) returns (more: seq<Event>)
    requires Is(Run(events), c, Generating) && AllFound(Run(events), Run(events).configurations[c].analyses)
    ensures Is(Run(events + more), c, Ready)
  {
    var s := Run(events);
    GeneratingIs(events, c);
    if IsProcessed(s, c) {
      more := ProcessedBecomesReady(events, c);
    } else {
      var claimed := events + Claiming(s, c);
      ClaimedFinds(events, c);
      var saving := ProcessedBecomesReady(claimed, c);
      more := Claiming(s, c) + saving;
      Joined(events, Claiming(s, c), saving);
    }
  }

  // Neither ready, nor in the hands of a worker that may save it, nor to be claimed
  predicate Hopeless(s: Store, c: Id) {
    && c < |s.configurations| && s.configurations[c].readiness != Ready
    && !Outstanding(s, c) && !AllFound(s, s.configurations[c].analyses)
  }

  lemma HopelessStays(s: Store, e: Event, c: Id)
    requires Inv(s) && Hopeless(s, c)
    ensures Hopeless(Step(s, e), c)
  {
    RowsStay(s, e, c);
    if Is(Step(s, e), c, Ready) {
      ReadyBefore(s, e, c);
    }
    if Outstanding(Step(s, e), c) {
      OutstandingBefore(s, e, c);
    }
    if AllFound(Step(s, e), s.configurations[c].analyses) {
      FoundBefore(s, e, c);
    }
  }

  lemma {:induction false} HopelessForGood(events: seq<Event>, more: seq<Event>, c: Id)
    requires Hopeless(Run(events), c)
    ensures Hopeless(Run(events + more), c)
  {
    if more == [] {
      assert events + more == events;
    } else {
      var before := events + more[..|more| - 1];
      HopelessForGood(events, more[..|more| - 1], c);
      assert events + more == before + [more[|more| - 1]];
      RunOn(before, more[|more| - 1]);
      RunKeepsInv(before);
      HopelessStays(Run(before), more[|more| - 1], c);
    }
  }

  // In every run, a generating configuration has a continuation in which it is ready, by this job or
  // after a regeneration, if and only if a worker is out that may still save it or every listed
  // analysis is found.
  lemma GeneratingBecomesReadyIff(events: seq<Event>, c: Id)
    requires Is(Run(events), c, Generating)
    ensures (exists more :: Is(Run(events + more), c, Ready))
            <==> Outstanding(Run(events), c) || AllFound(Run(events), Run(events).configurations[c].analyses)
  {
    if Outstanding(Run(events), c) {
      var more := OutstandingBecomesReady(events, c);
    } else if AllFound(Run(events), Run(events).configurations[c].analyses) {
      var more := FoundBecomesReady(events, c);
    } else {
      forall more ensures !Is(Run(events + more), c, Ready) {
        HopelessForGood(events, more, c);
      }
    }
  }
}
