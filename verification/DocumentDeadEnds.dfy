// Configurations that wait for a claim for good, because a document behind them was replaced or an
// analysis is listed twice: what makes them so, and what does not end it.
module DocumentDeadEnds {
  import opened Jobs
  import opened Documents
  import opened DocumentTheorems
  import opened DocumentReplacement

  // ---- configurations that wait in vain ------------------------------------------------------

  predicate NoneTwice(xs: seq<Id>) {
    forall i, j | 0 <= i < j < |xs| :: xs[i] != xs[j]
  }

  lemma {:induction false} DistinctCount(xs: seq<Id>)
    ensures |Distinct(xs)| == |xs| <==> NoneTwice(xs)
  {
    if xs != [] {
      DistinctCount(xs[1..]);
      NoMoreThanLength(xs[1..]);
      assert Distinct(xs) == Distinct(xs[1..]) + {xs[0]};
      if xs[0] in xs[1..] {
        var j :| 0 <= j < |xs[1..]| && xs[1..][j] == xs[0];
        assert xs[0] == xs[j + 1];
        assert Distinct(xs) == Distinct(xs[1..]);
      } else {
        assert forall j | 0 < j < |xs| :: xs[j] == xs[1..][j - 1];
        assert NoneTwice(xs[1..]) ==> NoneTwice(xs);
      }
      assert NoneTwice(xs) ==> NoneTwice(xs[1..]);
    }
  }

  // The claim's row count is met exactly if each analysis is eligible and none is listed twice. Creating
  // a configuration asks for the first only.
  lemma AllFoundIff(s: Store, analyses: seq<Id>)
    ensures AllFound(s, analyses) <==> NoneTwice(analyses) && forall i | 0 <= i < |analyses| :: Eligible(s, analyses[i])
  {
    var found := Found(s, analyses);
    SmallerThan(found, Distinct(analyses));
    NoMoreThanLength(analyses);
    DistinctCount(analyses);
    if AllFound(s, analyses) {
      FullSubset(found, Distinct(analyses));
      assert forall i | 0 <= i < |analyses| :: analyses[i] in Distinct(analyses);
    } else if forall i | 0 <= i < |analyses| :: Eligible(s, analyses[i]) {
      assert found == Distinct(analyses);
    }
  }

  // Its job is queued, and no claim of it is granted any more: the wake-up is discarded, and nobody but
  // a worker or the reaper, which looks at jobs in processing only, would settle it.
  predicate DeadEnd(s: Store, c: Id) {
    && c < |s.configurations| && s.configurations[c].readiness == Generating
    && s.configurations[c].job.status == Queued && !AllFound(s, s.configurations[c].analyses)
  }

  lemma EligibleBefore(s: Store, e: Event, a: Id)
    requires a < |s.analyses| && s.analyses[a].progress in {Analysed, Invalidated}
        && s.analyses[a].document < |s.documents|
    requires Eligible(Step(s, e), a)
    ensures Eligible(s, a)
  {
    AnalysedStays(s, e, a);
  }

  lemma FoundBefore(s: Store, e: Event, c: Id)
    requires Inv(s) && c < |s.configurations| && AllFound(Step(s, e), s.configurations[c].analyses)
    ensures AllFound(s, s.configurations[c].analyses)
  {
    var analyses := s.configurations[c].analyses;
    AllFoundIff(s, analyses);
    AllFoundIff(Step(s, e), analyses);
    forall i | 0 <= i < |analyses| ensures Eligible(s, analyses[i]) {
      assert Eligible(Step(s, e), analyses[i]);
      EligibleBefore(s, e, analyses[i]);
    }
  }

  predicate WithdrawnBy(s: Store, e: Event, c: Id)
    requires c < |s.configurations|
  {
    && e.EDelete? && e.document < |s.documents| && s.documents[e.document].presence == Current
    && Uses(s.analyses, s.configurations[c], e.document)
  }

  lemma RowOfDeadEndStays(s: Store, e: Event, c: Id)
    requires DeadEnd(s, c)
    ensures c < |Step(s, e).configurations|
    ensures || Step(s, e).configurations[c] == s.configurations[c]
            || (Step(s, e).configurations[c].readiness == Void && WithdrawnBy(s, e, c))
  {
    if e.EDelete? {
      UsesAfterDeletion(s.analyses, s.configurations[c], e.document);
    }
  }

  // The only way out is to delete another document behind it, one that is still current.
  lemma DeadEndStays(s: Store, e: Event, c: Id)
    requires Inv(s) && DeadEnd(s, c)
    ensures c < |Step(s, e).configurations|
    ensures || DeadEnd(Step(s, e), c)
            || (Step(s, e).configurations[c].readiness == Void && WithdrawnBy(s, e, c))
  {
    RowOfDeadEndStays(s, e, c);
    if AllFound(Step(s, e), s.configurations[c].analyses) {
      FoundBefore(s, e, c);
    }
  }

  lemma VoidStays(s: Store, e: Event, c: Id)
    requires c < |s.configurations| && s.configurations[c].readiness == Void
    ensures c < |Step(s, e).configurations| && Step(s, e).configurations[c].readiness == Void
  {
  }

  lemma {:induction false} DeadEndForGood(events: seq<Event>, more: seq<Event>, c: Id)
    requires DeadEnd(Run(events), c)
    ensures var t := Run(events + more);
            c < |t.configurations| && (DeadEnd(t, c) || t.configurations[c].readiness == Void)
  {
    if more == [] {
      assert events + more == events;
    } else {
      var before := events + more[..|more| - 1];
      DeadEndForGood(events, more[..|more| - 1], c);
      assert events + more == before + [more[|more| - 1]];
      RunOn(before, more[|more| - 1]);
      RunKeepsInv(before);
      if DeadEnd(Run(before), c) {
        DeadEndStays(Run(before), more[|more| - 1], c);
      } else {
        VoidStays(Run(before), more[|more| - 1], c);
      }
    }
  }

  // ---- how a dead end comes about ------------------------------------------------------------

  predicate Is(s: Store, c: Id, readiness: Readiness) {
    c < |s.configurations| && s.configurations[c].readiness == readiness
  }

  predicate IsProcessed(s: Store, c: Id) {
    Is(s, c, Generating) && s.configurations[c].job.status == Processing
  }

  predicate IsQueued(s: Store, c: Id) {
    Is(s, c, Generating) && s.configurations[c].job.status == Queued && AllFound(s, s.configurations[c].analyses)
  }

  predicate Replacement(s: Store, e: Event) {
    Replaces(e) && CanUpload(s, e.setup, e.kind, e.predecessor)
  }

  predicate GivenBack(s: Store, e: Event, c: Id) {
    && e.EFailConfiguration? && InPhase(s, e.claim, Started) && s.claims[e.claim].configuration == c
    && Settles(s, e.claim)
    && Decide(s.claims[e.claim].attempt, s.claims[e.claim].deadline, s.now, e.failure, e.jitter).Some?
  }

  // The steps after which a configuration waits for a claim that will not be granted: a replacement
  // behind a queued job, a claim given back after a replacement, a regeneration after a replacement,
  // and the creation or regeneration with an analysis listed twice.
  predicate Strands(s: Store, e: Event, c: Id) {
    if c < |s.configurations| then
      var analyses := s.configurations[c].analyses;
      || (Replacement(s, e) && IsQueued(s, c) && Uses(s.analyses, s.configurations[c], e.predecessor.value))
      || (GivenBack(s, e, c) && !AllFound(s, analyses))
      || (e == ERegenerate(c) && CanRegenerate(s, c) && !AllFound(s, analyses))
    else
      e.EConfigure? && CanConfigure(s, e.setup, e.analyses) && c == |s.configurations| && !NoneTwice(e.analyses)
  }

  lemma CreatedDeadEnd(s: Store, e: Event, c: Id)
    requires c >= |s.configurations|
    ensures DeadEnd(Step(s, e), c) <==> Strands(s, e, c)
  {
    if e.EConfigure? && CanConfigure(s, e.setup, e.analyses) {
      ConfigureMeansEligible(s, e.setup, e.analyses);
      var t := Step(s, e);
      AllFoundIff(t, e.analyses);
      assert forall a :: Eligible(t, a) == Eligible(s, a);
    }
  }

  lemma ReplacedDeadEnd(s: Store, e: Event, c: Id)
    requires Replacement(s, e) && IsQueued(s, c)
    ensures DeadEnd(Step(s, e), c) <==> Uses(s.analyses, s.configurations[c], e.predecessor.value)
  {
    var row := s.configurations[c];
    var t := Step(s, e);
    AllFoundIff(s, row.analyses);
    AllFoundIff(t, row.analyses);
    forall i | 0 <= i < |row.analyses|
      ensures Eligible(t, row.analyses[i]) <==> s.analyses[row.analyses[i]].document != e.predecessor.value
    {
      assert Eligible(s, row.analyses[i]);
    }
  }

  // A step that is no replacement and no deletion finds the same analyses, among those analysed.
  lemma FoundStays(s: Store, e: Event, c: Id)
    requires Built(s) && Linked(s) && c < |s.configurations| && !Replacement(s, e) && !e.EDelete?
    ensures AllFound(s, s.configurations[c].analyses) ==> AllFound(Step(s, e), s.configurations[c].analyses)
  {
    var analyses := s.configurations[c].analyses;
    AllFoundIff(s, analyses);
    AllFoundIff(Step(s, e), analyses);
    forall i | 0 <= i < |analyses| && Eligible(s, analyses[i]) ensures Eligible(Step(s, e), analyses[i]) {
      EligibleStays(s, e, analyses[i]);
    }
  }

  lemma EligibleStays(s: Store, e: Event, a: Id)
    requires Eligible(s, a) && !Replacement(s, e) && !e.EDelete?
    ensures Eligible(Step(s, e), a)
  {
  }

  lemma GivenBackDeadEnd(s: Store, e: Event, c: Id)
    requires c < |s.configurations| && GivenBack(s, e, c)
    ensures DeadEnd(Step(s, e), c) <==> !AllFound(s, s.configurations[c].analyses)
  {
    assert Found(Step(s, e), s.configurations[c].analyses) == Found(s, s.configurations[c].analyses);
  }

  lemma RegeneratedDeadEnd(s: Store, c: Id)
    requires CanRegenerate(s, c)
    ensures DeadEnd(Step(s, ERegenerate(c)), c) <==> !AllFound(s, s.configurations[c].analyses)
  {
    assert Found(Step(s, ERegenerate(c)), s.configurations[c].analyses) == Found(s, s.configurations[c].analyses);
  }

  // Only these steps queue the job of a generating configuration.
  lemma QueuedNow(s: Store, e: Event, c: Id)
    requires c < |s.configurations| && DeadEnd(Step(s, e), c)
    ensures || (Is(s, c, Generating) && s.configurations[c].job.status == Queued)
            || GivenBack(s, e, c) || (e == ERegenerate(c) && CanRegenerate(s, c))
  {
  }

  lemma DeletedDeadEnd(s: Store, d: Id, c: Id)
    requires IsQueued(s, c) && d < |s.documents| && s.documents[d].presence == Current
    ensures !DeadEnd(Delete(s, d), c)
  {
    var t := Delete(s, d);
    var analyses := s.configurations[c].analyses;
    UsesAfterDeletion(s.analyses, s.configurations[c], d);
    if !Uses(s.analyses, s.configurations[c], d) {
      AllFoundIff(s, analyses);
      AllFoundIff(t, analyses);
      forall i | 0 <= i < |analyses| ensures Eligible(t, analyses[i]) {
        assert Eligible(s, analyses[i]) && t.analyses[analyses[i]] == AfterDeletion(s.analyses[analyses[i]], d);
      }
    }
  }

  lemma WaitingDeadEnd(s: Store, e: Event, c: Id)
    requires Inv(s) && IsQueued(s, c) && DeadEnd(Step(s, e), c)
    ensures Replacement(s, e) && Uses(s.analyses, s.configurations[c], e.predecessor.value)
  {
    RowsStay(s, e, c);
    if Replacement(s, e) {
      ReplacedDeadEnd(s, e, c);
    } else if e.EDelete? {
      if e.document < |s.documents| && s.documents[e.document].presence == Current {
        DeletedDeadEnd(s, e.document, c);
      }
    } else {
      FoundStays(s, e, c);
    }
  }

  // In every run, a step makes a configuration a dead end if and only if it is one of these.
  lemma DeadEndHasItsCause(events: seq<Event>, e: Event, c: Id)
    requires !DeadEnd(Run(events), c)
    ensures DeadEnd(Step(Run(events), e), c) <==> Strands(Run(events), e, c)
  {
    var s := Run(events);
    RunKeepsInv(events);
    if c >= |s.configurations| {
      CreatedDeadEnd(s, e, c);
    } else {
      RowsStay(s, e, c);
      if Strands(s, e, c) {
        StrandedIsDeadEnd(s, e, c);
      }
      if DeadEnd(Step(s, e), c) {
        DeadEndIsStranded(s, e, c);
      }
    }
  }

  lemma StrandedIsDeadEnd(s: Store, e: Event, c: Id)
    requires c < |s.configurations| && Strands(s, e, c)
    ensures DeadEnd(Step(s, e), c)
  {
    if Replacement(s, e) {
      ReplacedDeadEnd(s, e, c);
    } else if GivenBack(s, e, c) {
      GivenBackDeadEnd(s, e, c);
    } else {
      RegeneratedDeadEnd(s, c);
    }
  }

  lemma DeadEndIsStranded(s: Store, e: Event, c: Id)
    requires Inv(s) && c < |s.configurations| && !DeadEnd(s, c) && DeadEnd(Step(s, e), c)
    ensures Strands(s, e, c)
  {
    QueuedNow(s, e, c);
    if GivenBack(s, e, c) {
      GivenBackDeadEnd(s, e, c);
    } else if e == ERegenerate(c) && CanRegenerate(s, c) {
      RegeneratedDeadEnd(s, c);
    } else {
      WaitingDeadEnd(s, e, c);
    }
  }

  // It bars its whole setup: it is not regenerated, and no other configuration is created or regenerated
  // beside it.
  lemma DeadEndBarsItsSetup(s: Store, c: Id, other: Id, analyses: seq<Id>)
    requires DeadEnd(s, c)
    ensures !CanRegenerate(s, c) && !CanConfigure(s, s.configurations[c].setup, analyses)
    ensures CanRegenerate(s, other) ==> s.configurations[other].setup != s.configurations[c].setup
  {
    assert HasActive(s.configurations, s.configurations[c].setup, |s.configurations|);
    assert other != c ==> HasActive(s.configurations, s.configurations[c].setup, other);
  }

  // ---- two runs ------------------------------------------------------------------------------

  const ANALYSED := [EUpload(0, 0, None)] + [EAnalyze(0)] + [EClaimAnalysis(0)] + [ESaveAnalysis(0, 0)]
  const ONE := Store([Document(0, 0, 1, Current)], [Analysis(0, Analysed, 0)], [], {},
                     [AnalysisClaim(0, 0, 0, 1)], 1, 0.0)

  lemma OneDocumentAnalysed()
    ensures Run(ANALYSED) == ONE
  {
    var e := [EUpload(0, 0, None)];
    assert e[..0] == [];
    var uploaded := Store([Document(0, 0, 1, Current)], [], [], {}, [], 0, 0.0);
    assert Run(e) == uploaded;
    RunOn(e, EAnalyze(0));
    var analysing := uploaded.(analyses := [Analysis(0, Working, 0)], nextToken := 1);
    assert Step(uploaded, EAnalyze(0)) == analysing;
    RunOn(e + [EAnalyze(0)], EClaimAnalysis(0));
    var claimed := analysing.(claims := [AnalysisClaim(0, 0, 0, 1)]);
    assert Step(analysing, EClaimAnalysis(0)) == claimed;
    RunOn(e + [EAnalyze(0)] + [EClaimAnalysis(0)], ESaveAnalysis(0, 0));
    SavedWithoutChunks(claimed);
  }

  lemma SavedWithoutChunks(s: Store)
    requires s == ONE.(analyses := [Analysis(0, Working, 0)])
    ensures Step(s, ESaveAnalysis(0, 0)) == ONE
  {
    assert SaveAnalysis(s, s.claims[0], 0).chunks == {};
  }

  // A configuration on it is claimed, and the worker starts.
  const STARTED := ANALYSED + [EConfigure(0, [0])] + [EClaimConfiguration(0)] + [EStart(1)]

  lemma Generates(s: Store)
    requires s == ONE
    ensures var t := Step(Step(Step(s, EConfigure(0, [0])), EClaimConfiguration(0)), EStart(1));
            && t.documents == ONE.documents && t.analyses == ONE.analyses && t.now == 0.0
            && t.configurations == [Configuration(0, [0], Generating, 1, Job(Processing, 1, 0.0, 180.0))]
            && t.claims == ONE.claims + [ConfigurationClaim(0, 1, 1, 180.0, Started)]
  {
    assert FoundIn(s, [0], 0) == {0} == Distinct([0]);
    var t := Step(s, EConfigure(0, [0]));
    assert t.configurations == [Configuration(0, [0], Generating, 1, Job(Queued, 0, 0.0, 180.0))];
    assert Found(t, [0]) == {0};
  }

  lemma GenerationStarted()
    ensures var t := Run(STARTED);
            && t.documents == ONE.documents && t.analyses == ONE.analyses && t.now == 0.0
            && t.configurations == [Configuration(0, [0], Generating, 1, Job(Processing, 1, 0.0, 180.0))]
            && t.claims == ONE.claims + [ConfigurationClaim(0, 1, 1, 180.0, Started)]
  {
    OneDocumentAnalysed();
    Generates(ONE);
    RunOn(ANALYSED, EConfigure(0, [0]));
    RunOn(ANALYSED + [EConfigure(0, [0])], EClaimConfiguration(0));
    RunOn(ANALYSED + [EConfigure(0, [0])] + [EClaimConfiguration(0)], EStart(1));
  }

  lemma ReplacedUnder(events: seq<Event>)
    requires Run(events).documents == ONE.documents && Run(events).analyses == ONE.analyses
    ensures var s := Run(events); var t := Run(events + [EUpload(0, 0, Some(0))]);
            && t.documents == [Document(0, 0, 1, Replaced), Document(0, 0, 2, Current)] && t.analyses == ONE.analyses
            && t.configurations == s.configurations && t.claims == s.claims && t.now == s.now
            && !AllFound(t, [0])
  {
    RunOn(events, EUpload(0, 0, Some(0)));
    var t := Run(events + [EUpload(0, 0, Some(0))]);
    assert NextVersion(ONE.documents, 0, 0) == 2 by {
      assert ONE.documents[..0] == [];
    }
    assert !Eligible(t, 0);
    AllFoundIff(t, [0]);
    assert [0][0] == 0;
  }

  const RETRYABLE := ProviderFailure(true, Some(5.0))

  // The provider fails, the worker gives the claim back, and the document is replaced before the retry
  // is due: no worker is out any more, none will be, and nobody regenerated anything.
  lemma GivenBackAndReplaced()
    ensures var waiting := STARTED + [EFailConfiguration(1, RETRYABLE, 0.0)];
            && IsQueued(Run(waiting), 0)
            && !ExposedUses(Run(waiting), 0)
            && DeadEnd(Run(waiting + [EUpload(0, 0, Some(0))]), 0)
  {
    GenerationStarted();
    var waiting := STARTED + [EFailConfiguration(1, RETRYABLE, 0.0)];
    RunOn(STARTED, EFailConfiguration(1, RETRYABLE, 0.0));
    var s := Run(waiting);
    assert s.configurations == [Configuration(0, [0], Generating, 1, Job(Queued, 1, 5.0, 180.0))];
    assert s.claims == ONE.claims + [ConfigurationClaim(0, 1, 1, 180.0, Over)];
    assert Found(s, [0]) == {0};
    ReplacedUnder(waiting);
  }

  // A document is replaced under a ready configuration, and the configuration is regenerated.
  lemma ReplacedAndRegenerated()
    ensures var replaced := STARTED + [ESaveConfiguration(1)] + [EUpload(0, 0, Some(0))];
            && ReadyOn(Run(replaced), 0, 0, Replaced)
            && CanRegenerate(Run(replaced), 0) && DeadEnd(Run(replaced + [ERegenerate(0)]), 0)
  {
    GenerationStarted();
    var ready := STARTED + [ESaveConfiguration(1)];
    RunOn(STARTED, ESaveConfiguration(1));
    assert Run(ready).configurations == [Configuration(0, [0], Ready, 1, Job(Succeeded, 1, 0.0, 180.0))];
    ReplacedUnder(ready);
    var replaced := ready + [EUpload(0, 0, Some(0))];
    RunOn(replaced, ERegenerate(0));
    RegeneratedDeadEnd(Run(replaced), 0);
  }
}
