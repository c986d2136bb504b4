// What replacing a document does to the configurations built on it. Replacement withdraws nothing, so
// that a ready configuration can come to stand on a document that is gone, under an exactly known
// condition.
module DocumentReplacement {
  import opened Jobs
  import opened Documents
  import opened DocumentTheorems

  predicate OnCurrent(s: Store, a: Id) {
    a < |s.analyses| && s.analyses[a].document < |s.documents|
        && s.documents[s.analyses[a].document].presence == Current
  }

  predicate StandsOnCurrent(s: Store, c: Configuration) {
    forall i | 0 <= i < |c.analyses| :: OnCurrent(s, c.analyses[i])
  }

  // A worker that is out under the row's token has started, or can still start.
  predicate MaySave(s: Store, k: Id) {
    OutWith(s, k) && (s.claims[k].phase == Started || s.now < s.claims[k].deadline)
  }

  // Some worker may still save the configuration.
  predicate Outstanding(s: Store, c: Id) {
    exists k | 0 <= k < |s.claims| :: MaySave(s, k) && s.claims[k].configuration == c
  }

  predicate Exposed(s: Store, c: Id)
    requires c < |s.configurations|
  {
    s.configurations[c].readiness == Ready || Outstanding(s, c)
  }

  predicate AllReadyCurrent(s: Store) {
    forall c | 0 <= c < |s.configurations| && s.configurations[c].readiness == Ready ::
      StandsOnCurrent(s, s.configurations[c])
  }

  predicate AllExposedCurrent(s: Store) {
    forall c | 0 <= c < |s.configurations| && Exposed(s, c) :: StandsOnCurrent(s, s.configurations[c])
  }

  // ---- one replacement -----------------------------------------------------------------------

  predicate ReadyUses(s: Store, d: Id) {
    exists c | 0 <= c < |s.configurations| ::
      s.configurations[c].readiness == Ready && Uses(s.analyses, s.configurations[c], d)
  }

  predicate ExposedUses(s: Store, d: Id) {
    exists c | 0 <= c < |s.configurations| :: Exposed(s, c) && Uses(s.analyses, s.configurations[c], d)
  }

  lemma StandsAfterUpload(s: Store, setup: nat, kind: nat, d: Id, c: Configuration)
    requires CanUpload(s, setup, kind, Some(d)) && StandsOnCurrent(s, c)
    ensures StandsOnCurrent(Upload(s, setup, kind, Some(d)), c) <==> !Uses(s.analyses, c, d)
  {
    var t := Upload(s, setup, kind, Some(d));
    forall i | 0 <= i < |c.analyses|
      ensures OnCurrent(t, c.analyses[i]) <==> s.analyses[c.analyses[i]].document != d
    {
      assert OnCurrent(s, c.analyses[i]);
    }
    if Uses(s.analyses, c, d) {
      var i :| 0 <= i < |c.analyses| && c.analyses[i] < |s.analyses| && s.analyses[c.analyses[i]].document == d;
      assert !OnCurrent(t, c.analyses[i]);
    }
  }

  // In every run, an accepted replacement of d keeps all ready configurations on current documents if
  // and only if no ready configuration uses d.
  lemma ReplacementKeepsReadyIff(events: seq<Event>, setup: nat, kind: nat, d: Id)
    requires CanUpload(Run(events), setup, kind, Some(d)) && AllReadyCurrent(Run(events))
    ensures AllReadyCurrent(Step(Run(events), EUpload(setup, kind, Some(d)))) <==> !ReadyUses(Run(events), d)
  {
    var s := Run(events);
    var t := Upload(s, setup, kind, Some(d));
    assert t.configurations == s.configurations;
    forall c | 0 <= c < |s.configurations| && s.configurations[c].readiness == Ready
      ensures StandsOnCurrent(t, s.configurations[c]) <==> !Uses(s.analyses, s.configurations[c], d)
    {
      StandsAfterUpload(s, setup, kind, d, s.configurations[c]);
    }
  }

  lemma ReplacementKeepsExposedIff(s: Store, setup: nat, kind: nat, d: Id)
    requires CanUpload(s, setup, kind, Some(d)) && AllExposedCurrent(s)
    ensures AllExposedCurrent(Upload(s, setup, kind, Some(d))) <==> !ExposedUses(s, d)
  {
    var t := Upload(s, setup, kind, Some(d));
    assert t.configurations == s.configurations && t.claims == s.claims;
    forall c | 0 <= c < |s.configurations| && Exposed(s, c)
      ensures StandsOnCurrent(t, s.configurations[c]) <==> !Uses(s.analyses, s.configurations[c], d)
    {
      StandsAfterUpload(s, setup, kind, d, s.configurations[c]);
    }
    assert forall k | 0 <= k < |s.claims| :: MaySave(t, k) == MaySave(s, k);
    assert forall c | 0 <= c < |s.configurations| :: Exposed(t, c) == Exposed(s, c);
  }

  // ---- everything else keeps configurations where they stand ---------------------------------

  predicate Replaces(e: Event) {
    e.EUpload? && e.predecessor.Some?
  }

  lemma StandsStays(s: Store, e: Event, c: Configuration)
    requires StandsOnCurrent(s, c) && !Replaces(e) && !e.EDelete?
    ensures StandsOnCurrent(Step(s, e), c)
  {
    forall i | 0 <= i < |c.analyses| ensures OnCurrent(Step(s, e), c.analyses[i]) {
      assert OnCurrent(s, c.analyses[i]);
      OnCurrentStays(s, e, c.analyses[i]);
    }
  }

  lemma OnCurrentStays(s: Store, e: Event, a: Id)
    requires OnCurrent(s, a) && !Replaces(e) && !e.EDelete?
    ensures OnCurrent(Step(s, e), a)
  {
  }

  lemma DeletionKeepsExposed(s: Store, d: Id)
    requires AllExposedCurrent(s) && d < |s.documents| && s.documents[d].presence == Current
    ensures AllExposedCurrent(Delete(s, d))
  {
    var t := Delete(s, d);
    forall c | 0 <= c < |t.configurations| && Exposed(t, c) ensures StandsOnCurrent(t, t.configurations[c]) {
      UsesAfterDeletion(s.analyses, s.configurations[c], d);
      assert t.configurations[c].readiness in {Ready, Generating};
      assert t.configurations[c] == s.configurations[c];
      ExposedBeforeDeletion(s, d, c);
      assert !Uses(s.analyses, s.configurations[c], d);
      forall i | 0 <= i < |t.configurations[c].analyses| ensures OnCurrent(t, t.configurations[c].analyses[i]) {
        assert OnCurrent(s, s.configurations[c].analyses[i]);
      }
    }
  }

  lemma ExposedBeforeDeletion(s: Store, d: Id, c: Id)
    requires d < |s.documents| && s.documents[d].presence == Current && c < |s.configurations|
    requires Delete(s, d).configurations[c] == s.configurations[c] && Exposed(Delete(s, d), c)
    ensures Exposed(s, c)
  {
    var t := Delete(s, d);
    if Outstanding(t, c) {
      var k :| 0 <= k < |t.claims| && MaySave(t, k) && t.claims[k].configuration == c;
      assert MaySave(s, k);
    }
  }

  // Who may save after a step could before it, unless the step was the claim.
  lemma MaySaveBefore(s: Store, e: Event, k: Id)
    requires Linked(s) && Held(s) && k < |s.claims| && MaySave(Step(s, e), k)
    ensures MaySave(s, k) && Step(s, e).claims[k].configuration == s.claims[k].configuration
  {
    OutBefore(s, e, k);
  }

  lemma ReadyBefore(s: Store, e: Event, c: Id)
    requires c < |Step(s, e).configurations| && Step(s, e).configurations[c].readiness == Ready
    ensures c < |s.configurations|
    ensures s.configurations[c].readiness == Ready || (e.ESaveConfiguration? && MaySave(s, e.claim)
                                                       && s.claims[e.claim].configuration == c)
  {
  }

  lemma RowsStay(s: Store, e: Event, c: Id)
    requires c < |s.configurations|
    ensures c < |Step(s, e).configurations|
    ensures Step(s, e).configurations[c].analyses == s.configurations[c].analyses
  {
  }

  // A configuration becomes exposed only by a claim, and then stands on current documents.
  lemma ExposedBefore(s: Store, e: Event, c: Id)
    requires Linked(s) && Held(s) && c < |Step(s, e).configurations| && Exposed(Step(s, e), c)
    ensures c < |s.configurations|
    ensures Exposed(s, c) || StandsOnCurrent(s, s.configurations[c])
  {
    var t := Step(s, e);
    if Outstanding(t, c) {
      var k :| 0 <= k < |t.claims| && MaySave(t, k) && t.claims[k].configuration == c;
      if k < |s.claims| {
        MaySaveBefore(s, e, k);
      } else {
        OutBefore(s, e, k);
        ClaimMeansEligible(s, e.configuration);
      }
    } else {
      ReadyBefore(s, e, c);
    }
  }

  lemma OthersKeepExposed(s: Store, e: Event)
    requires Linked(s) && Held(s) && AllExposedCurrent(s) && !Replaces(e)
    ensures AllExposedCurrent(Step(s, e))
  {
    if e.EDelete? {
      if e.document < |s.documents| && s.documents[e.document].presence == Current {
        DeletionKeepsExposed(s, e.document);
      }
    } else {
      var t := Step(s, e);
      forall c | 0 <= c < |t.configurations| && Exposed(t, c) ensures StandsOnCurrent(t, t.configurations[c]) {
        ExposedBefore(s, e, c);
        RowsStay(s, e, c);
        StandsStays(s, e, s.configurations[c]);
      }
    }
  }

  // ---- replacement over runs -----------------------------------------------------------------

  lemma RunOn(events: seq<Event>, e: Event)
    ensures Run(events + [e]) == Step(Run(events), e)
  {
    assert (events + [e])[..|events|] == events;
  }

  // No replacement in the run hits a document that a configuration uses which is ready, or which some
  // worker may still save.
  predicate Careful(events: seq<Event>) {
    events == [] || (
      && Careful(events[..|events| - 1])
      && var e := events[|events| - 1]; var s := Run(events[..|events| - 1]);
         Replaces(e) && CanUpload(s, e.setup, e.kind, e.predecessor) ==> !ExposedUses(s, e.predecessor.value))
  }

  lemma {:induction false} CarefulRunsStand(events: seq<Event>)
    requires Careful(events)
    ensures AllExposedCurrent(Run(events))
  {
    if events != [] {
      var before := events[..|events| - 1];
      var e := events[|events| - 1];
      CarefulRunsStand(before);
      RunKeepsInv(before);
      if !Replaces(e) {
        OthersKeepExposed(Run(before), e);
      } else if CanUpload(Run(before), e.setup, e.kind, e.predecessor) {
        ReplacementKeepsExposedIff(Run(before), e.setup, e.kind, e.predecessor.value);
      }
    }
  }

  // So no configuration is ready on a replaced or deleted document at any time of such a run.
  lemma CarefulRunsAreReadyOnCurrent(events: seq<Event>)
    requires Careful(events)
    ensures AllReadyCurrent(Run(events))
  {
    CarefulRunsStand(events);
    assert forall c | 0 <= c < |Run(events).configurations| && Run(events).configurations[c].readiness == Ready ::
        Exposed(Run(events), c);
  }

  lemma {:induction false} StandingContinues(events: seq<Event>, more: seq<Event>)
    requires AllExposedCurrent(Run(events)) && forall e | e in more :: !Replaces(e)
    ensures AllExposedCurrent(Run(events + more))
  {
    if more == [] {
      assert events + more == events;
    } else {
      var before := events + more[..|more| - 1];
      StandingContinues(events, more[..|more| - 1]);
      assert events + more == before + [more[|more| - 1]];
      RunOn(before, more[|more| - 1]);
      RunKeepsInv(before);
      OthersKeepExposed(Run(before), more[|more| - 1]);
    }
  }

  lemma BrokenByReady(s: Store, t: Store, c: Id)
    requires c < |s.configurations| && !StandsOnCurrent(s, s.configurations[c])
    requires t.documents == s.documents && t.analyses == s.analyses
    requires c < |t.configurations| && t.configurations[c].analyses == s.configurations[c].analyses
    requires t.configurations[c].readiness == Ready
    ensures !AllReadyCurrent(t)
  {
    var i :| 0 <= i < |s.configurations[c].analyses| && !OnCurrent(s, s.configurations[c].analyses[i]);
    assert !OnCurrent(t, t.configurations[c].analyses[i]);
    assert !StandsOnCurrent(t, t.configurations[c]);
  }

  // The worker that is out starts, unless it has, and saves.
  function Saving(s: Store, k: Id): seq<Event>
    requires MaySave(s, k)
  {
    if s.claims[k].phase == Started then [ESaveConfiguration(k)] else [EStart(k)] + [ESaveConfiguration(k)]
  }

  lemma SavingMakesReady(events: seq<Event>, k: Id)
    requires MaySave(Run(events), k)
    ensures var s := Run(events); var t := Run(events + Saving(s, k)); var c := s.claims[k].configuration;
            && t.documents == s.documents && t.analyses == s.analyses && c < |t.configurations|
            && t.configurations[c].readiness == Ready && t.configurations[c].analyses == s.configurations[c].analyses
  {
    var s := Run(events);
    RunKeepsInv(events);
    assert OutWith(s, k);
    if s.claims[k].phase == Started {
      RunOn(events, ESaveConfiguration(k));
      SaveMakesReady(s, k);
    } else {
      RunOn(events, EStart(k));
      RunOn(events + [EStart(k)], ESaveConfiguration(k));
      assert events + ([EStart(k)] + [ESaveConfiguration(k)]) == events + [EStart(k)] + [ESaveConfiguration(k)];
      SaveMakesReady(Move(s, k, Started), k);
    }
  }

  lemma SaveMakesReady(s: Store, k: Id)
    requires InPhase(s, k, Started) && Settles(s, k)
    ensures var t := Step(s, ESaveConfiguration(k)); var c := s.claims[k].configuration;
            && t.documents == s.documents && t.analyses == s.analyses && |t.configurations| == |s.configurations|
            && t.configurations[c].readiness == Ready && t.configurations[c].analyses == s.configurations[c].analyses
  {
  }

  // An exposed configuration that does not stand on current documents is ready, or can become so with
  // the claim that is out.
  lemma ExposedBecomesReady(events: seq<Event>) returns (more: seq<Event>)
    requires !AllExposedCurrent(Run(events))
    ensures (forall e | e in more :: !Replaces(e)) && !AllReadyCurrent(Run(events + more))
  {
    var s := Run(events);
    var c :| 0 <= c < |s.configurations| && Exposed(s, c) && !StandsOnCurrent(s, s.configurations[c]);
    if s.configurations[c].readiness == Ready {
      more := [];
      assert events + more == events;
      BrokenByReady(s, s, c);
    } else {
      var k :| 0 <= k < |s.claims| && MaySave(s, k) && s.claims[k].configuration == c;
      more := Saving(s, k);
      SavingMakesReady(events, k);
      BrokenByReady(s, Run(events + more), c);
    }
  }

  // In every run in which all is well so far, an accepted replacement of d leaves all ready
  // configurations on current documents in every continuation without a further replacement, saves
  // of claims made before it included, if and only if d is used by no ready configuration and by none
  // that some worker may still save. A claim that was given back, or whose worker is gone or came too
  // late to start, does not count.
  lemma ReplacementIsHarmlessIff(events: seq<Event>, setup: nat, kind: nat, d: Id)
    requires CanUpload(Run(events), setup, kind, Some(d)) && AllExposedCurrent(Run(events))
    ensures (forall more | (forall e | e in more :: !Replaces(e)) ::
               AllReadyCurrent(Run(events + [EUpload(setup, kind, Some(d))] + more)))
            <==> !ExposedUses(Run(events), d)
  {
    var replaced := events + [EUpload(setup, kind, Some(d))];
    RunOn(events, EUpload(setup, kind, Some(d)));
    ReplacementKeepsExposedIff(Run(events), setup, kind, d);
    if ExposedUses(Run(events), d) {
      var more := ExposedBecomesReady(replaced);
      assert !AllReadyCurrent(Run(replaced + more));
    } else {
      forall more | (forall e | e in more :: !Replaces(e)) ensures AllReadyCurrent(Run(replaced + more)) {
        StandingContinues(replaced, more);
        var t := Run(replaced + more);
        assert forall c | 0 <= c < |t.configurations| && t.configurations[c].readiness == Ready :: Exposed(t, c);
      }
    }
  }
}
