// Deleted documents feed nothing, in whatever order claims, deletions, failures, regenerations and
// late completions happen.
module DocumentTheorems {
  import opened Jobs
  import opened Documents

  // ---- the invariant -------------------------------------------------------------------------

  ghost predicate Linked(s: Store) {
    && (forall i | 0 <= i < |s.analyses| :: s.analyses[i].document < |s.documents|)
    && (forall c, i | 0 <= c < |s.configurations| && 0 <= i < |s.configurations[c].analyses| ::
          s.configurations[c].analyses[i] < |s.analyses|)
    && (forall k | 0 <= k < |s.claims| :: Anchored(s, s.claims[k]))
    && (forall c | 0 <= c < |s.configurations| :: s.configurations[c].token < s.nextToken)
  }

  ghost predicate Anchored(s: Store, claim: Claim) {
    match claim
    case AnalysisClaim(a, _, d, _) => a < |s.analyses| && s.analyses[a].document == d
    case ConfigurationClaim(c, token, _, _, _) => c < |s.configurations| && token < s.nextToken
  }

  // Stored chunks belong to a current document in its own version and to the one analysis of it
  // that succeeded last, and are numbered from 0 without a gap.
  ghost predicate ChunksFit(s: Store) {
    && (forall c | c in s.chunks ::
          && c.document < |s.documents| && s.documents[c.document].presence == Current
          && c.version == s.documents[c.document].version
          && c.analysis < |s.analyses| && s.analyses[c.analysis].document == c.document
          && s.analyses[c.analysis].progress == Analysed)
    && (forall c, c' | c in s.chunks && c' in s.chunks && c.document == c'.document :: c.analysis == c'.analysis)
    && (forall c, i | c in s.chunks && 0 <= i < c.index :: c.(index := i) in s.chunks)
  }

  // Nothing works on, or stands on, a deleted document.
  ghost predicate Withdrawn(s: Store) {
    forall i | 0 <= i < |s.analyses| && s.analyses[i].document < |s.documents|
               && s.documents[s.analyses[i].document].presence == Deleted ::
      s.analyses[i].progress in {GaveUp, Invalidated}
  }

  // Configurations were built from finished analyses.
  ghost predicate Built(s: Store) {
    forall c, i | 0 <= c < |s.configurations| && 0 <= i < |s.configurations[c].analyses| ::
      && s.configurations[c].analyses[i] < |s.analyses|
      && s.analyses[s.configurations[c].analyses[i]].progress in {Analysed, Invalidated}
  }

  // The versions of a setup's documents of one type grow, and at most one of them is current.
  ghost predicate Versioned(s: Store) {
    forall i, j | 0 <= i < j < |s.documents| && Same(s.documents[i], s.documents[j]) ::
      && s.documents[i].version < s.documents[j].version
      && !(s.documents[i].presence == Current && s.documents[j].presence == Current)
  }

  predicate Same(d: Document, e: Document) {
    d.setup == e.setup && d.kind == e.kind
  }

  ghost predicate Clean(s: Store, c: Configuration) {
    forall i | 0 <= i < |c.analyses| && c.analyses[i] < |s.analyses|
        && s.analyses[c.analyses[i]].document < |s.documents| ::
      s.documents[s.analyses[c.analyses[i]].document].presence != Deleted
  }

  ghost predicate Sound(s: Store) {
    && (forall c | 0 <= c < |s.configurations| && s.configurations[c].readiness == Ready ::
        Clean(s, s.configurations[c]))
    && (forall k | 0 <= k < |s.claims| && s.claims[k].ConfigurationClaim?
                   && Holds(s, s.claims[k].configuration, s.claims[k].token) ::
          Clean(s, s.configurations[s.claims[k].configuration]))
  }

  // A generating configuration has an active job and a ready, failed or used one has none. A queued job
  // has time left when it becomes due.
  ghost predicate JobsFit(s: Store) {
    forall c | 0 <= c < |s.configurations| :: JobFits(s.configurations[c])
  }

  predicate JobFits(row: Configuration) {
    && (row.readiness == Generating ==> Active(row.job.status))
    && (row.readiness in {Ready, InUse, Finished, Broken} ==> !Active(row.job.status))
    && (row.job.status == Queued ==> row.job.due < row.job.deadline)
  }

  predicate OutWith(s: Store, k: Id) {
    && k < |s.claims| && s.claims[k].ConfigurationClaim? && s.claims[k].phase != Over
    && Holds(s, s.claims[k].configuration, s.claims[k].token)
  }

  // A worker that is out under the row's token is the one that processes its job,
  ghost predicate ClaimsCurrent(s: Store) {
    forall k | 0 <= k < |s.claims| && OutWith(s, k) ::
      var job := s.configurations[s.claims[k].configuration].job;
      job.status == Processing && job.attempts == s.claims[k].attempt && job.deadline == s.claims[k].deadline
  }

  // and the only one.
  ghost predicate OneOut(s: Store) {
    forall k, l | 0 <= k < |s.claims| && 0 <= l < |s.claims| && OutWith(s, k) && OutWith(s, l)
      && s.claims[k].configuration == s.claims[l].configuration :: k == l
  }

  ghost predicate Held(s: Store) {
    ClaimsCurrent(s) && OneOut(s)
  }

  ghost predicate Inv(s: Store) {
    && Linked(s) && ChunksFit(s) && Sound(s) && Withdrawn(s) && Versioned(s) && Built(s)
    && JobsFit(s) && Held(s)
  }

  // ---- cardinalities in the source's guards --------------------------------------------------

  lemma FullSubset<T>(small: set<T>, large: set<T>)
    requires small <= large && |small| == |large|
    ensures small == large
  {
    if small != large {
      var x :| x in large && x !in small;
      SmallerThan(small, large - {x});
    }
  }

  lemma {:induction false} SmallerThan<T>(small: set<T>, large: set<T>)
    requires small <= large
    ensures |small| <= |large|
    decreases small
  {
    if small != {} {
      var x :| x in small;
      SmallerThan(small - {x}, large - {x});
    }
  }

  lemma {:induction false} NoMoreThanLength(xs: seq<Id>)
    ensures |Distinct(xs)| <= |xs|
  {
    if xs != [] {
      NoMoreThanLength(xs[1..]);
      assert Distinct(xs) == Distinct(xs[1..]) + {xs[0]};
    }
  }

  // A configuration is claimed only if each of its analyses is eligible, and none listed twice.
  lemma ClaimMeansEligible(s: Store, c: Id)
    requires c < |s.configurations| && AllFound(s, s.configurations[c].analyses)
    ensures forall i | 0 <= i < |s.configurations[c].analyses| :: Eligible(s, s.configurations[c].analyses[i])
  {
    var analyses := s.configurations[c].analyses;
    NoMoreThanLength(analyses);
    SmallerThan(Found(s, analyses), Distinct(analyses));
    FullSubset(Found(s, analyses), Distinct(analyses));
    forall i | 0 <= i < |analyses| ensures Eligible(s, analyses[i]) {
      assert analyses[i] in Distinct(analyses);
    }
  }

  lemma ConfigureMeansEligible(s: Store, setup: nat, analyses: seq<Id>)
    requires CanConfigure(s, setup, analyses)
    ensures forall i | 0 <= i < |analyses| ::
              Eligible(s, analyses[i]) && s.documents[s.analyses[analyses[i]].document].setup == setup
  {
    FullSubset(FoundIn(s, analyses, setup), Distinct(analyses));
    forall i | 0 <= i < |analyses|
      ensures Eligible(s, analyses[i]) && s.documents[s.analyses[analyses[i]].document].setup == setup
    {
      assert analyses[i] in Distinct(analyses);
    }
  }

  // ---- the steps of workers and reaper -------------------------------------------------------

  // They change readiness and jobs of configurations, the phases of claims, and the time.
  predicate WorkerStep(e: Event) {
    || e.EStart? || e.EDeadlinePassed? || e.ESaveConfiguration? || e.EFailConfiguration? || e.ECrash?
    || e.EReap? || e.ETick?
  }

  predicate SameRow(a: Configuration, b: Configuration) {
    a.setup == b.setup && a.analyses == b.analyses && a.token == b.token
  }

  predicate SameClaim(a: Claim, b: Claim) {
    a == b || (a.ConfigurationClaim? && b.ConfigurationClaim? && a == b.(phase := a.phase))
  }

  ghost predicate SameButProgress(s: Store, t: Store) {
    && t.documents == s.documents && t.analyses == s.analyses && t.chunks == s.chunks && t.nextToken == s.nextToken
    && |t.configurations| == |s.configurations| && |t.claims| == |s.claims|
    && (forall c | 0 <= c < |s.configurations| :: SameRow(t.configurations[c], s.configurations[c]))
    && (forall k | 0 <= k < |s.claims| :: SameClaim(t.claims[k], s.claims[k]))
  }

  lemma WorkerStepIs(s: Store, e: Event)
    requires WorkerStep(e)
    ensures SameButProgress(s, Step(s, e))
  {
  }

  lemma ProgressKeepsLinked(s: Store, t: Store)
    requires Linked(s) && SameButProgress(s, t)
    ensures Linked(t)
  {
    forall c | 0 <= c < |t.configurations|
      ensures t.configurations[c].analyses == s.configurations[c].analyses
      ensures t.configurations[c].token < t.nextToken
    {
      assert SameRow(t.configurations[c], s.configurations[c]);
    }
    forall k | 0 <= k < |t.claims| ensures Anchored(t, t.claims[k]) {
      assert Anchored(s, s.claims[k]) && SameClaim(t.claims[k], s.claims[k]);
    }
  }

  // ---- every step keeps the invariant --------------------------------------------------------

  lemma ConfigureKeepsLinked(s: Store, setup: nat, analyses: seq<Id>)
    requires Linked(s) && CanConfigure(s, setup, analyses)
    ensures Linked(Configure(s, setup, analyses))
  {
    ConfigureMeansEligible(s, setup, analyses);
    var t := Configure(s, setup, analyses);
    forall k | 0 <= k < |t.claims| ensures Anchored(t, t.claims[k]) {
      assert Anchored(s, s.claims[k]);
    }
  }

  lemma StepKeepsLinked(s: Store, e: Event)
    requires Linked(s)
    ensures Linked(Step(s, e))
  {
    if e.EConfigure? {
      if CanConfigure(s, e.setup, e.analyses) {
        ConfigureKeepsLinked(s, e.setup, e.analyses);
      }
    } else if WorkerStep(e) {
      WorkerStepIs(s, e);
      ProgressKeepsLinked(s, Step(s, e));
    } else {
      var t := Step(s, e);
      forall k | 0 <= k < |t.claims| ensures Anchored(t, t.claims[k]) {
        assert k < |s.claims| ==> Anchored(s, s.claims[k]);
      }
    }
  }

  lemma StepKeepsChunks(s: Store, e: Event)
    requires Linked(s) && ChunksFit(s)
    ensures ChunksFit(Step(s, e))
  {
    if WorkerStep(e) {
      WorkerStepIs(s, e);
    } else if e.ESaveAnalysis? {
      if e.claim < |s.claims| && CanSaveAnalysis(s, s.claims[e.claim]) {
        SaveKeepsChunks(s, s.claims[e.claim], e.count);
      }
    } else if e.EFailAnalysis? {
      FailKeepsChunks(s, e);
    } else {
      OthersKeepChunks(s, e);
    }
  }

  lemma FailKeepsChunks(s: Store, e: Event)
    requires Linked(s) && ChunksFit(s) && e.EFailAnalysis?
    ensures ChunksFit(Step(s, e))
  {
  }

  lemma OthersKeepChunks(s: Store, e: Event)
    requires Linked(s) && ChunksFit(s) && !WorkerStep(e) && !e.ESaveAnalysis? && !e.EFailAnalysis?
    ensures ChunksFit(Step(s, e))
  {
  }

  lemma SaveKeepsChunks(s: Store, claim: Claim, count: nat)
    requires Linked(s) && ChunksFit(s) && CanSaveAnalysis(s, claim)
    ensures ChunksFit(SaveAnalysis(s, claim, count))
  {
  }

  lemma StepKeepsWithdrawn(s: Store, e: Event)
    requires Linked(s) && Withdrawn(s)
    ensures Withdrawn(Step(s, e))
  {
    var t := Step(s, e);
    forall i | 0 <= i < |t.analyses| && t.analyses[i].document < |t.documents|
               && t.documents[t.analyses[i].document].presence == Deleted
      ensures t.analyses[i].progress in {GaveUp, Invalidated}
    {
      assert i < |s.analyses| && t.analyses[i].document == s.analyses[i].document;
      if e.EDelete? {
        if s.documents[s.analyses[i].document].presence != Deleted {
          assert s.analyses[i].document == e.document;
          assert t.analyses[i] == AfterDeletion(s.analyses[i], e.document);
          assert s.analyses[i].progress.Working? || s.analyses[i].progress.Analysed?
              || s.analyses[i].progress in {GaveUp, Invalidated};
        }
      }
    }
  }

  lemma {:induction false} NextVersionAbove(documents: seq<Document>, setup: nat, kind: nat)
    ensures forall i | 0 <= i < |documents| && documents[i].setup == setup && documents[i].kind == kind ::
              documents[i].version < NextVersion(documents, setup, kind)
  {
    if documents != [] {
      NextVersionAbove(documents[..|documents| - 1], setup, kind);
    }
  }

  lemma AnalysedStays(s: Store, e: Event, a: Id)
    requires a < |s.analyses| && s.analyses[a].progress in {Analysed, Invalidated}
    ensures a < |Step(s, e).analyses|
    ensures Step(s, e).analyses[a] == s.analyses[a] || Step(s, e).analyses[a] == s.analyses[a].(progress := Invalidated)
  {
  }

  lemma StepKeepsBuilt(s: Store, e: Event)
    requires Built(s)
    ensures Built(Step(s, e))
  {
    var t := Step(s, e);
    if e.EConfigure? && CanConfigure(s, e.setup, e.analyses) {
      ConfigureMeansEligible(s, e.setup, e.analyses);
    }
    forall c, i | 0 <= c < |t.configurations| && 0 <= i < |t.configurations[c].analyses|
      ensures && t.configurations[c].analyses[i] < |t.analyses|
              && t.analyses[t.configurations[c].analyses[i]].progress in {Analysed, Invalidated}
    {
      if c < |s.configurations| {
        assert t.configurations[c].analyses == s.configurations[c].analyses;
        AnalysedStays(s, e, s.configurations[c].analyses[i]);
      }
    }
  }

  lemma StepKeepsVersioned(s: Store, e: Event)
    requires Versioned(s)
    ensures Versioned(Step(s, e))
  {
    if e.EUpload? {
      NextVersionAbove(s.documents, e.setup, e.kind);
    }
  }

  // Only a deletion makes a document deleted.
  lemma CleanStays(s: Store, e: Event, c: Configuration)
    requires Linked(s) && Clean(s, c) && !e.EDelete?
    requires forall i | 0 <= i < |c.analyses| :: c.analyses[i] < |s.analyses|
    ensures Clean(Step(s, e), c)
  {
  }

  lemma UsesAfterDeletion(analyses: seq<Analysis>, c: Configuration, d: Id)
    ensures Uses(InvalidatedFor(analyses, d), c, d) == Uses(analyses, c, d)
  {
    if Uses(analyses, c, d) {
      var i :| 0 <= i < |c.analyses| && c.analyses[i] < |analyses| && analyses[c.analyses[i]].document == d;
      assert InvalidatedFor(analyses, d)[c.analyses[i]].document == d;
    }
  }

  // A deletion withdraws each configuration that could become or stay ready.
  lemma DeleteKeepsSound(s: Store, d: Id)
    requires Inv(s) && d < |s.documents| && s.documents[d].presence == Current
    ensures Sound(Delete(s, d))
  {
    var t := Delete(s, d);
    forall c | 0 <= c < |t.configurations| && Clean(s, s.configurations[c])
      ensures t.configurations[c].readiness in {Generating, Ready} ==> Clean(t, t.configurations[c])
    {
      UsesAfterDeletion(s.analyses, s.configurations[c], d);
      assert t.configurations[c].readiness in {Generating, Ready} ==> !Uses(s.analyses, s.configurations[c], d);
    }
  }

  lemma StepKeepsReady(s: Store, e: Event, c: Id)
    requires Inv(s) && !e.EDelete? && c < |Step(s, e).configurations|
    requires Step(s, e).configurations[c].readiness == Ready
    ensures Clean(Step(s, e), Step(s, e).configurations[c])
  {
    assert c < |s.configurations|;
    if s.configurations[c].readiness == Ready {
      CleanStays(s, e, s.configurations[c]);
    } else {
      assert e.ESaveConfiguration?;
      CleanStays(s, e, s.configurations[c]);
    }
  }

  lemma StepKeepsHeld(s: Store, e: Event, k: nat)
    requires Inv(s) && !e.EDelete? && k < |Step(s, e).claims| && Step(s, e).claims[k].ConfigurationClaim?
    requires Holds(Step(s, e), Step(s, e).claims[k].configuration, Step(s, e).claims[k].token)
    ensures Clean(Step(s, e), Step(s, e).configurations[Step(s, e).claims[k].configuration])
  {
    var claim := Step(s, e).claims[k];
    ClaimBefore(s, e, k);
    if k < |s.claims| {
      HeldBefore(s, e, claim);
    } else {
      ClaimMeansEligible(s, e.configuration);
    }
    CleanStays(s, e, s.configurations[claim.configuration]);
  }

  lemma ClaimBefore(s: Store, e: Event, k: nat)
    requires Linked(s) && k < |Step(s, e).claims| && Step(s, e).claims[k].ConfigurationClaim?
    ensures k < |s.claims| ==> SameClaim(Step(s, e).claims[k], s.claims[k]) && Anchored(s, Step(s, e).claims[k])
    ensures k >= |s.claims| ==> e.EClaimConfiguration? && CanClaimConfiguration(s, e.configuration)
                                && Step(s, e).claims[k].configuration == e.configuration
                                && Step(s, e).configurations[e.configuration].analyses
                                     == s.configurations[e.configuration].analyses
  {
    if k < |s.claims| {
      assert Anchored(s, s.claims[k]);
      if WorkerStep(e) {
        WorkerStepIs(s, e);
        assert SameClaim(Step(s, e).claims[k], s.claims[k]);
      }
    }
  }

  // A token that holds now was not issued just now: it held before, on the same configuration.
  lemma HeldBefore(s: Store, e: Event, claim: Claim)
    requires Linked(s) && claim.ConfigurationClaim? && Anchored(s, claim)
    requires Holds(Step(s, e), claim.configuration, claim.token)
    ensures Holds(s, claim.configuration, claim.token)
    ensures Step(s, e).configurations[claim.configuration].analyses == s.configurations[claim.configuration].analyses
  {
  }

  lemma StepKeepsSound(s: Store, e: Event)
    requires Inv(s)
    ensures Sound(Step(s, e))
  {
    if e.EDelete? {
      if e.document < |s.documents| && s.documents[e.document].presence == Current {
        DeleteKeepsSound(s, e.document);
      }
    } else {
      var t := Step(s, e);
      forall c | 0 <= c < |t.configurations| && t.configurations[c].readiness == Ready
          ensures Clean(t, t.configurations[c]) {
        StepKeepsReady(s, e, c);
      }
      forall k | 0 <= k < |t.claims| && t.claims[k].ConfigurationClaim?
          && Holds(t, t.claims[k].configuration, t.claims[k].token)
        ensures Clean(t, t.configurations[t.claims[k].configuration])
      {
        StepKeepsHeld(s, e, k);
      }
    }
  }

  // ---- jobs and claims of configurations -----------------------------------------------------

  lemma StepKeepsJobs(s: Store, e: Event)
    requires JobsFit(s) && ClaimsCurrent(s)
    ensures JobsFit(Step(s, e))
  {
    var t := Step(s, e);
    forall c | 0 <= c < |t.configurations| ensures JobFits(t.configurations[c]) {
      assert c < |s.configurations| ==> JobFits(s.configurations[c]);
      if e.EFailConfiguration? && InPhase(s, e.claim, Started) && Settles(s, e.claim) {
        assert OutWith(s, e.claim);
      }
    }
  }

  // Who is out after a step was out before it, with the same job, unless the step was the claim.
  lemma OutBefore(s: Store, e: Event, k: Id)
    requires Linked(s) && Held(s) && OutWith(Step(s, e), k)
    ensures k < |s.claims| || (e.EClaimConfiguration? && CanClaimConfiguration(s, e.configuration))
    ensures k < |s.claims| ==>
              && OutWith(s, k) && SameClaim(Step(s, e).claims[k], s.claims[k])
              && Step(s, e).configurations[s.claims[k].configuration].job
                   == s.configurations[s.claims[k].configuration].job
  {
    if k < |s.claims| {
      assert Anchored(s, s.claims[k]);
      if WorkerStep(e) {
        WorkerStepIs(s, e);
        assert SameClaim(Step(s, e).claims[k], s.claims[k]);
      }
    }
  }

  lemma StepKeepsHolding(s: Store, e: Event)
    requires Linked(s) && Held(s)
    ensures Held(Step(s, e))
  {
    var t := Step(s, e);
    forall k | 0 <= k < |t.claims| && OutWith(t, k)
      ensures var job := t.configurations[t.claims[k].configuration].job;
              job.status == Processing && job.attempts == t.claims[k].attempt && job.deadline == t.claims[k].deadline
    {
      OutBefore(s, e, k);
    }
    forall k, l | 0 <= k < |t.claims| && 0 <= l < |t.claims| && OutWith(t, k) && OutWith(t, l)
      && t.claims[k].configuration == t.claims[l].configuration ensures k == l
    {
      OutBefore(s, e, k);
      OutBefore(s, e, l);
    }
  }

  lemma StepKeepsInv(s: Store, e: Event)
    requires Inv(s)
    ensures Inv(Step(s, e))
  {
    StepKeepsLinked(s, e);
    StepKeepsChunks(s, e);
    StepKeepsSound(s, e);
    StepKeepsWithdrawn(s, e);
    StepKeepsVersioned(s, e);
    StepKeepsBuilt(s, e);
    StepKeepsJobs(s, e);
    StepKeepsHolding(s, e);
  }

  lemma {:induction false} RunKeepsInv(events: seq<Event>)
    ensures Inv(Run(events))
  {
    if events != [] {
      RunKeepsInv(events[..|events| - 1]);
      StepKeepsInv(Run(events[..|events| - 1]), events[|events| - 1]);
    }
  }

  // ---- over every run ------------------------------------------------------------------------

  // No configuration is ready while a document behind one of its analyses has been deleted through the
  // delete endpoint. A document that was replaced, which has a `deleted_at` as well, can be behind one;
  // `DocumentReplacement` says exactly when.
  lemma NothingReadyOnDeleted(events: seq<Event>, c: Id, i: nat)
    requires c < |Run(events).configurations| && i < |Run(events).configurations[c].analyses|
    requires Run(events).configurations[c].readiness == Ready
    ensures ReadyOn(Run(events), c, i, Current) || ReadyOn(Run(events), c, i, Replaced)
    ensures !ReadyOn(Run(events), c, i, Deleted)
  {
    RunKeepsInv(events);
    assert Clean(Run(events), Run(events).configurations[c]);
  }

  // Chunks are only those of current documents, in the version uploaded, from one analysis.
  lemma ChunksOnlyOfCurrent(events: seq<Event>, chunk: Chunk, other: Chunk)
    requires chunk in Run(events).chunks
    ensures var s := Run(events);
            && chunk.document < |s.documents| && s.documents[chunk.document].presence == Current
            && s.documents[chunk.document].version == chunk.version
            && chunk.analysis < |s.analyses|
            && s.analyses[chunk.analysis] == Analysis(chunk.document, Analysed, s.analyses[chunk.analysis].token)
            && (other in s.chunks && other.document == chunk.document ==> other.analysis == chunk.analysis)
            && (forall i | 0 <= i < chunk.index :: chunk.(index := i) in s.chunks)
  {
    RunKeepsInv(events);
  }

  lemma {:induction false} FreshCount(claim: Claim, count: nat)
    requires claim.AnalysisClaim?
    ensures |Fresh(claim, count)| == count
  {
    if count == 0 {
      assert Fresh(claim, 0) == {};
    } else {
      FreshCount(claim, count - 1);
      var last := Documents.Chunk(claim.document, claim.version, claim.analysis, count - 1);
      assert Fresh(claim, count) == Fresh(claim, count - 1) + {last} && last !in Fresh(claim, count - 1);
    }
  }

  function ChunksOf(s: Store, d: Id): set<Chunk> {
    set c | c in s.chunks && c.document == d
  }

  // The chunks of one analysis are numbered from 0 on.
  predicate Numbers(s: Store, claim: Claim, count: nat)
    requires claim.AnalysisClaim?
  {
    forall i | 0 <= i < count :: Documents.Chunk(claim.document, claim.version, claim.analysis, i) in s.chunks
  }

  lemma SavedIsFresh(s: Store, claim: Claim, count: nat, other: Id)
    requires ChunksFit(s) && CanSaveAnalysis(s, claim)
    ensures var t := SaveAnalysis(s, claim, count);
            && ChunksOf(t, claim.document) == Fresh(claim, count) && Numbers(t, claim, count)
            && (other != claim.document ==> ChunksOf(t, other) == ChunksOf(s, other))
  {
  }

  // In every run, a saved analysis leaves its document with exactly the chunks it came with, and all other
  // documents with theirs.
  lemma SavedChunksAreAll(events: seq<Event>, k: Id, count: nat, other: Id)
    requires k < |Run(events).claims| && CanSaveAnalysis(Run(events), Run(events).claims[k])
    ensures var t := Step(Run(events), ESaveAnalysis(k, count)); var claim := Run(events).claims[k];
            && |ChunksOf(t, claim.document)| == count && Numbers(t, claim, count)
            && (other != claim.document ==> ChunksOf(t, other) == ChunksOf(Run(events), other))
  {
    RunKeepsInv(events);
    SavedIsFresh(Run(events), Run(events).claims[k], count, other);
    FreshCount(Run(events).claims[k], count);
  }

  // Once a document is deleted, no claim, late completion or new configuration touches it.
  lemma DeletedIsInert(events: seq<Event>, d: Id, a: Id, claim: Claim, c: Id, setup: nat, analyses: seq<Id>)
    requires d < |Run(events).documents| && Run(events).documents[d].presence == Deleted
    requires a < |Run(events).analyses| && Run(events).analyses[a].document == d
    ensures var s := Run(events);
            && !CanAnalyze(s, d) && !CanClaimAnalysis(s, a)
            && (claim.AnalysisClaim? && claim.analysis == a ==> !CanSaveAnalysis(s, claim))
            && (CanClaimConfiguration(s, c) ==> a !in s.configurations[c].analyses)
            && (CanConfigure(s, setup, analyses) ==> a !in analyses)
  {
    var s := Run(events);
    RunKeepsInv(events);
    if CanClaimConfiguration(s, c) {
      ClaimMeansEligible(s, c);
    }
    if CanConfigure(s, setup, analyses) {
      ConfigureMeansEligible(s, setup, analyses);
    }
  }

  lemma OneCurrentDocument(events: seq<Event>, i: nat, j: nat)
    requires i < |Run(events).documents| && j < |Run(events).documents| && i != j
    requires Same(Run(events).documents[i], Run(events).documents[j])
    ensures Run(events).documents[i].version != Run(events).documents[j].version
    ensures Run(events).documents[i].presence == Current ==> Run(events).documents[j].presence != Current
  {
    RunKeepsInv(events);
    assert i < j || j < i;
  }

  predicate ReadyOn(s: Store, c: Id, i: nat, presence: Presence) {
    && c < |s.configurations| && s.configurations[c].readiness == Ready && i < |s.configurations[c].analyses|
    && s.configurations[c].analyses[i] < |s.analyses|
    && s.analyses[s.configurations[c].analyses[i]].document < |s.documents|
    && s.documents[s.analyses[s.configurations[c].analyses[i]].document].presence == presence
  }
}
