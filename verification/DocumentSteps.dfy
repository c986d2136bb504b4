// What each operation makes of the rows of documents, analyses and configurations, in every run: which
// of them a step moves, under what condition, and that it moves no other.
module DocumentSteps {
  import opened Jobs
  import opened Documents
  import opened DocumentTheorems
  import opened DocumentDeadEnds

  // ---- documents -----------------------------------------------------------------------------

  // How many documents of this setup and type there are
  function CountOf(documents: seq<Document>, setup: nat, kind: nat): nat {
    if documents == [] then 0
    else
      var last := documents[|documents| - 1];
      CountOf(documents[..|documents| - 1], setup, kind) + (if last.setup == setup && last.kind == kind then 1 else 0)
  }

  ghost predicate CountedUp(documents: seq<Document>) {
    forall d | 0 <= d < |documents| ::
      documents[d].version == CountOf(documents[..d], documents[d].setup, documents[d].kind) + 1
  }

  lemma {:induction false} NextVersionIs(documents: seq<Document>, setup: nat, kind: nat)
    requires CountedUp(documents)
    ensures NextVersion(documents, setup, kind) == CountOf(documents, setup, kind) + 1
  {
    if documents != [] {
      var n := |documents| - 1;
      assert forall d | 0 <= d < n :: documents[..n][..d] == documents[..d];
      NextVersionIs(documents[..n], setup, kind);
    }
  }

  lemma {:induction false} CountOfSame(before: seq<Document>, after: seq<Document>, setup: nat, kind: nat)
    requires |before| == |after|
    requires forall d | 0 <= d < |before| :: after[d].(presence := before[d].presence) == before[d]
    ensures CountOf(before, setup, kind) == CountOf(after, setup, kind)
  {
    if before != [] {
      var n := |before| - 1;
      assert after[n].(presence := before[n].presence) == before[n];
      CountOfSame(before[..n], after[..n], setup, kind);
    }
  }

  lemma CountedStays(before: seq<Document>, after: seq<Document>)
    requires CountedUp(before)
    requires |before| == |after|
    requires forall d | 0 <= d < |before| :: after[d].(presence := before[d].presence) == before[d]
    ensures CountedUp(after)
  {
    forall d | 0 <= d < |after|
      ensures after[d].version == CountOf(after[..d], after[d].setup, after[d].kind) + 1
    {
      assert after[d].(presence := before[d].presence) == before[d];
      CountOfSame(before[..d], after[..d], after[d].setup, after[d].kind);
    }
  }

  lemma CountedAppend(documents: seq<Document>, more: Document)
    requires CountedUp(documents) && more.version == CountOf(documents, more.setup, more.kind) + 1
    ensures CountedUp(documents + [more])
  {
    var all := documents + [more];
    forall d | 0 <= d < |all| ensures all[d].version == CountOf(all[..d], all[d].setup, all[d].kind) + 1 {
      assert all[..d] == documents[..d];
    }
  }

  lemma StepKeepsCounted(s: Store, e: Event)
    requires CountedUp(s.documents)
    ensures CountedUp(Step(s, e).documents)
  {
    if e.EUpload? && CanUpload(s, e.setup, e.kind, e.predecessor) {
      NextVersionIs(s.documents, e.setup, e.kind);
      var retired := Retired(s.documents, e.predecessor);
      CountOfSame(s.documents, retired, e.setup, e.kind);
      CountedStays(s.documents, retired);
      CountedAppend(retired, Document(e.setup, e.kind, NextVersion(s.documents, e.setup, e.kind), Current));
    } else {
      CountedStays(s.documents, Step(s, e).documents);
    }
  }

  // The documents of one setup and type have the versions 1, 2, ... in the order of their upload.
  lemma {:induction false} VersionsCountUp(events: seq<Event>, d: Id)
    ensures var documents := Run(events).documents;
            && CountedUp(documents)
            && (d < |documents| ==>
                  documents[d].version == CountOf(documents[..d], documents[d].setup, documents[d].kind) + 1)
  {
    if events != [] {
      VersionsCountUp(events[..|events| - 1], d);
      StepKeepsCounted(Run(events[..|events| - 1]), events[|events| - 1]);
    }
  }

  // An upload is accepted exactly if the document it replaces, if any, is current, and no other document of
  // its setup and type is.
  predicate Uploads(s: Store, e: Event) {
    && e.EUpload?
    && (e.predecessor.Some? ==>
          e.predecessor.value < |s.documents| && s.documents[e.predecessor.value].presence == Current)
    && forall d | 0 <= d < |s.documents| && s.documents[d].setup == e.setup && s.documents[d].kind == e.kind ::
         s.documents[d].presence == Current ==> e.predecessor == Some(d)
  }

  predicate Deletes(s: Store, e: Event, d: Id) {
    e == EDelete(d) && d < |s.documents| && s.documents[d].presence == Current
  }

  // In every run a document is only ever replaced by an accepted upload and deleted by the endpoint, each
  // while it is current; an upload adds a current document.
  lemma DocumentsMove(events: seq<Event>, e: Event, d: Id)
    ensures var s := Run(events); var t := Step(s, e);
            && (d < |s.documents| ==> d < |t.documents| && t.documents[d] == s.documents[d].(presence :=
                  if Uploads(s, e) && e.predecessor == Some(d) then Replaced
                  else if Deletes(s, e, d) then Deleted else s.documents[d].presence))
            && |t.documents| == |s.documents| + (if Uploads(s, e) then 1 else 0)
            && (Uploads(s, e) ==> var more := t.documents[|s.documents|];
                  more.setup == e.setup && more.kind == e.kind && more.presence == Current)
  {
    var s := Run(events);
    if e.EUpload? {
      UploadMoves(s, e, d);
    }
  }

  lemma UploadsIff(s: Store, e: Event)
    requires e.EUpload?
    ensures CanUpload(s, e.setup, e.kind, e.predecessor) <==> Uploads(s, e)
  {
    var retired := Retired(s.documents, e.predecessor);
    assert forall i | 0 <= i < |s.documents| ::
      retired[i] == if e.predecessor == Some(i) then s.documents[i].(presence := Replaced) else s.documents[i];
  }

  lemma UploadMoves(s: Store, e: Event, d: Id)
    requires e.EUpload?
    ensures var t := Step(s, e);
            && (d < |s.documents| ==> d < |t.documents| && t.documents[d] == s.documents[d].(presence :=
                  if Uploads(s, e) && e.predecessor == Some(d) then Replaced else s.documents[d].presence))
            && |t.documents| == |s.documents| + (if Uploads(s, e) then 1 else 0)
            && (Uploads(s, e) ==> var more := t.documents[|s.documents|];
                  more.setup == e.setup && more.kind == e.kind && more.presence == Current)
  {
    UploadsIff(s, e);
  }

  // ---- analyses ------------------------------------------------------------------------------

  // A document can be analysed exactly while it is current and no analysis of it is running.
  predicate Analyzes(s: Store, e: Event) {
    && e.EAnalyze? && e.document < |s.documents| && s.documents[e.document].presence == Current
    && forall i | 0 <= i < |s.analyses| && s.analyses[i].document == e.document :: s.analyses[i].progress != Working
  }

  // A worker's report on analysis a counts while the analysis works under the worker's token.
  predicate ReportsOn(s: Store, k: Id, a: Id) {
    && k < |s.claims| && s.claims[k].AnalysisClaim? && s.claims[k].analysis == a
    && a < |s.analyses| && s.analyses[a].progress == Working && s.analyses[a].token == s.claims[k].token
  }

  // What a step makes of analysis a
  function AnalysisAfter(s: Store, e: Event, a: Id): Progress
    requires a < |s.analyses|
  {
    var row := s.analyses[a];
    match e
    case EDelete(d) =>
      if Deletes(s, e, row.document) && (row.progress == Working || row.progress == Analysed) then Invalidated
      else row.progress
    case ESaveAnalysis(k, _) =>
      if ReportsOn(s, k, a) && row.document < |s.documents| && s.documents[row.document].presence == Current
      then Analysed else row.progress
    case EFailAnalysis(k) => if ReportsOn(s, k, a) then GaveUp else row.progress
    case _ => row.progress
  }

  // Claims know their document and its version.
  ghost predicate ClaimsKnow(s: Store) {
    forall k | 0 <= k < |s.claims| && s.claims[k].AnalysisClaim? ::
      s.claims[k].document < |s.documents| && s.claims[k].version == s.documents[s.claims[k].document].version
  }

  lemma DocumentsKeepVersion(s: Store, e: Event, d: Id)
    requires d < |s.documents|
    ensures d < |Step(s, e).documents| && Step(s, e).documents[d].version == s.documents[d].version
  {
  }

  lemma StepKeepsKnowing(s: Store, e: Event)
    requires Linked(s) && ClaimsKnow(s)
    ensures ClaimsKnow(Step(s, e))
  {
    var t := Step(s, e);
    forall k | 0 <= k < |t.claims| && t.claims[k].AnalysisClaim?
      ensures t.claims[k].document < |t.documents| && t.claims[k].version == t.documents[t.claims[k].document].version
    {
      if k < |s.claims| {
        assert s.claims[k].AnalysisClaim? && t.claims[k] == s.claims[k];
        DocumentsKeepVersion(s, e, s.claims[k].document);
      }
    }
  }

  lemma {:induction false} ClaimsOfEveryRun(events: seq<Event>)
    ensures Inv(Run(events)) && ClaimsKnow(Run(events))
  {
    RunKeepsInv(events);
    if events != [] {
      ClaimsOfEveryRun(events[..|events| - 1]);
      StepKeepsKnowing(Run(events[..|events| - 1]), events[|events| - 1]);
    }
  }

  // In every run an analysis ends by its worker's report, a result only while the document is current, or
  // by the deletion of its document; nothing else moves it. A new one works.
  lemma AnalysesMove(events: seq<Event>, e: Event, a: Id)
    ensures var s := Run(events); var t := Step(s, e);
            && (a < |s.analyses| ==>
                  a < |t.analyses| && t.analyses[a] == s.analyses[a].(progress := AnalysisAfter(s, e, a)))
            && |t.analyses| == |s.analyses| + (if Analyzes(s, e) then 1 else 0)
            && (Analyzes(s, e) ==> var more := t.analyses[|s.analyses|];
                  more.document == e.document && more.progress == Working)
  {
    ClaimsOfEveryRun(events);
    var s := Run(events);
    AnalysesAdded(s, e);
    if a < |s.analyses| {
      if e.ESaveAnalysis? {
        SaveMoves(s, e.claim, e.count, a);
      } else {
        OthersMove(s, e, a);
      }
    }
  }

  lemma AnalysesAdded(s: Store, e: Event)
    ensures var t := Step(s, e);
            && |t.analyses| == |s.analyses| + (if Analyzes(s, e) then 1 else 0)
            && (Analyzes(s, e) ==> var more := t.analyses[|s.analyses|];
                  more.document == e.document && more.progress == Working)
  {
  }

  lemma OthersMove(s: Store, e: Event, a: Id)
    requires a < |s.analyses| <= |Step(s, e).analyses| && !e.ESaveAnalysis?
    ensures Step(s, e).analyses[a] == s.analyses[a].(progress := AnalysisAfter(s, e, a))
  {
  }

  lemma SaveMoves(s: Store, k: Id, count: nat, a: Id)
    requires Linked(s) && ClaimsKnow(s) && a < |s.analyses|
    ensures var t := Step(s, ESaveAnalysis(k, count));
            |t.analyses| == |s.analyses|
            && t.analyses[a] == s.analyses[a].(progress := AnalysisAfter(s, ESaveAnalysis(k, count), a))
  {
    if k < |s.claims| {
      assert Anchored(s, s.claims[k]);
    }
  }

  // So a document never has two running analyses.
  lemma {:induction false} OneRunning(events: seq<Event>, i: Id, j: Id)
    requires i < j < |Run(events).analyses| && Run(events).analyses[i].document == Run(events).analyses[j].document
    ensures !(Run(events).analyses[i].progress == Working && Run(events).analyses[j].progress == Working)
  {
    if events != [] {
      var before, e := events[..|events| - 1], events[|events| - 1];
      AnalysesMove(before, e, i);
      AnalysesMove(before, e, j);
      if j < |Run(before).analyses| {
        OneRunning(before, i, j);
      }
    }
  }

  // A running analysis is handed to a worker, under its token, exactly while its document is current.
  lemma AnalysisClaimedIff(events: seq<Event>, a: Id)
    ensures var s := Run(events); var t := Step(s, EClaimAnalysis(a));
            if a < |s.analyses| && s.analyses[a].progress == Working && s.analyses[a].document < |s.documents|
               && s.documents[s.analyses[a].document].presence == Current
            then t == s.(claims := t.claims) && |t.claims| == |s.claims| + 1 && s.claims <= t.claims
                 && ReportsOn(t, |s.claims|, a)
            else t == s
  {
    RunKeepsInv(events);
  }

  // ---- configurations ------------------------------------------------------------------------

  // The worker with claim k is the one that row c, still generating, waits for.
  predicate WorksOn(s: Store, k: Id, c: Id, phase: Phase) {
    && k < |s.claims| && s.claims[k].ConfigurationClaim? && s.claims[k].configuration == c
    && s.claims[k].phase == phase && c < |s.configurations|
    && s.configurations[c].readiness == Generating && s.configurations[c].token == s.claims[k].token
  }

  // The delay a provider error is retried after: what the provider asked for, or else the jitter
  function DelayAfter(claim: Claim, now: real, failure: ProviderFailure, jitter: real): Option<real>
    requires claim.ConfigurationClaim?
  {
    var delay := if failure.retryAfter.Some? then failure.retryAfter.value else jitter;
    if failure.retryable && claim.attempt < 3 && 0.0 <= delay < claim.deadline - now then Some(delay) else None
  }

  function Ended(row: Configuration, readiness: Readiness, status: JobStatus): Configuration {
    row.(readiness := readiness, job := row.job.(status := status))
  }

  predicate ClaimGranted(s: Store, c: Id)
    requires c < |s.configurations|
  {
    var row := s.configurations[c];
    && row.readiness == Generating && row.job.status == Queued && row.job.due <= s.now
    && NoneTwice(row.analyses) && forall i | 0 <= i < |row.analyses| :: Eligible(s, row.analyses[i])
  }

  // What a step makes of configuration c, a token aside
  function ConfigurationAfter(s: Store, e: Event, c: Id): Configuration
    requires c < |s.configurations|
  {
    var row := s.configurations[c];
    match e
    case EDelete(d) =>
      if Deletes(s, e, d) && Uses(s.analyses, row, d) && (row.readiness == Generating || row.readiness == Ready)
      then row.(readiness := Void) else row
    case EClaimConfiguration(c') =>
      if c' == c && ClaimGranted(s, c)
      then row.(job := row.job.(status := Processing, attempts := row.job.attempts + 1)) else row
    case EDeadlinePassed(k) =>
      if WorksOn(s, k, c, Taken) && s.claims[k].deadline <= s.now then Ended(row, Broken, Failed) else row
    case ESaveConfiguration(k) => if WorksOn(s, k, c, Started) then Ended(row, Ready, Succeeded) else row
    case EFailConfiguration(k, failure, jitter) =>
      if !WorksOn(s, k, c, Started) then row
      else
        (match DelayAfter(s.claims[k], s.now, failure, jitter)
         case None => Ended(row, Broken, Failed)
         case Some(delay) => row.(job := row.job.(status := Queued, due := s.now + delay)))
    case EReap(c') =>
      if c' == c && row.readiness == Generating && row.job.status == Processing && row.job.deadline <= s.now
      then Ended(row, Broken, Failed) else row
    case ERegenerate(c') =>
      if c' == c && Regenerates(s, c)
      then row.(readiness := Generating, token := s.nextToken, job := Job(Queued, 0, s.now, s.now + 180.0)) else row
    case EUse(c') => if c' == c && row.readiness == Ready then row.(readiness := InUse) else row
    case EFinish(c') => if c' == c && row.readiness == InUse then row.(readiness := Finished) else row
    case _ => row
  }

  predicate Regenerates(s: Store, c: Id)
    requires c < |s.configurations|
  {
    && (s.configurations[c].readiness == Broken || s.configurations[c].readiness == Ready)
    && forall i | 0 <= i < |s.configurations| && i != c && s.configurations[i].setup == s.configurations[c].setup ::
         s.configurations[i].readiness in {Finished, Broken, Void}
  }

  lemma WorkerSettles(s: Store, k: Id, c: Id, phase: Phase)
    requires ClaimsCurrent(s) && phase != Over && InPhase(s, k, phase)
    ensures WorksOn(s, k, c, phase) <==> Settles(s, k) && s.claims[k].configuration == c
  {
    if WorksOn(s, k, c, phase) {
      assert OutWith(s, k);
    }
  }

  lemma DelayIs(claim: Claim, now: real, failure: ProviderFailure, jitter: real)
    requires claim.ConfigurationClaim?
    ensures Decide(claim.attempt, claim.deadline, now, failure, jitter) == DelayAfter(claim, now, failure, jitter)
  {
  }

  lemma WorkerMoves(s: Store, e: Event, c: Id)
    requires ClaimsCurrent(s) && c < |s.configurations|
    requires e.EDeadlinePassed? || e.ESaveConfiguration? || e.EFailConfiguration?
    ensures |Step(s, e).configurations| == |s.configurations|
    ensures Step(s, e).configurations[c] == ConfigurationAfter(s, e, c)
  {
    var phase := if e.EDeadlinePassed? then Taken else Started;
    if InPhase(s, e.claim, phase) {
      WorkerSettles(s, e.claim, c, phase);
      if e.EFailConfiguration? {
        DelayIs(s.claims[e.claim], s.now, e.failure, e.jitter);
      }
    }
  }

  lemma RegeneratesIff(s: Store, c: Id)
    requires JobsFit(s) && c < |s.configurations|
    ensures CanRegenerate(s, c) <==> Regenerates(s, c)
  {
    assert JobFits(s.configurations[c]);
  }

  lemma EndpointMoves(s: Store, e: Event, c: Id)
    requires JobsFit(s) && c < |s.configurations|
    requires !(e.EDeadlinePassed? || e.ESaveConfiguration? || e.EFailConfiguration? || e.EDelete?)
    ensures |s.configurations| <= |Step(s, e).configurations|
    ensures Step(s, e).configurations[c] == ConfigurationAfter(s, e, c)
  {
    if e.ERegenerate? && e.configuration == c {
      RegeneratesIff(s, c);
    }
    AllFoundIff(s, s.configurations[c].analyses);
  }

  // In every run a configuration moves exactly as said: only the worker out with it settles it, or the
  // reaper, or the deletion of a document behind it.
  lemma ConfigurationsMove(events: seq<Event>, e: Event, c: Id)
    requires c < |Run(events).configurations|
    ensures c < |Step(Run(events), e).configurations|
    ensures Step(Run(events), e).configurations[c] == ConfigurationAfter(Run(events), e, c)
  {
    RunKeepsInv(events);
    var s := Run(events);
    if e.EDeadlinePassed? || e.ESaveConfiguration? || e.EFailConfiguration? {
      WorkerMoves(s, e, c);
    } else if e.EDelete? {
      UsesAfterDeletion(s.analyses, s.configurations[c], e.document);
    } else {
      EndpointMoves(s, e, c);
    }
  }

  // What a step makes of the worker with claim k
  function PhaseAfter(s: Store, e: Event, k: Id): Phase
    requires k < |s.claims| && s.claims[k].ConfigurationClaim?
  {
    var phase := s.claims[k].phase;
    var late := s.claims[k].deadline <= s.now;
    match e
    case EStart(k') => if k' == k && phase == Taken && !late then Started else phase
    case EDeadlinePassed(k') => if k' == k && phase == Taken && late then Over else phase
    case ESaveConfiguration(k') => if k' == k && phase == Started then Over else phase
    case EFailConfiguration(k', _, _) => if k' == k && phase == Started then Over else phase
    case ECrash(k') => if k' == k then Over else phase
    case _ => phase
  }

  // A worker starts in time only, once, and reports once; whatever its report comes to, or if it goes away,
  // its claim is over.
  lemma WorkersMove(events: seq<Event>, e: Event, k: Id)
    requires k < |Run(events).claims| && Run(events).claims[k].ConfigurationClaim?
    ensures k < |Step(Run(events), e).claims|
    ensures Step(Run(events), e).claims[k] == Run(events).claims[k].(phase := PhaseAfter(Run(events), e, k))
  {
  }
}
