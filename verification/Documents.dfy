// Interview documents, their analyses and chunks, and the configurations built on them. Rows are
// numbered in the order they were inserted, so a row id is a position in its table.
module Documents {
  import opened Jobs

  type Id = nat

  // Replacing and deleting both take `is_current` away and set `deleted_at`; the delete endpoint also
  // withdraws what was built on the document.
  datatype Presence = Current | Replaced | Deleted
  datatype Document = Document(setup: nat, kind: nat, version: nat, presence: Presence)

  datatype Progress = Working | Analysed | GaveUp | Invalidated
  datatype Analysis = Analysis(document: Id, progress: Progress, token: nat)

  datatype Readiness = Generating | Ready | InUse | Finished | Broken | Void

  // The latest job of a configuration; `due` is when it may be claimed.
  datatype Job = Job(status: JobStatus, attempts: nat, due: real, deadline: real)

  datatype Configuration = Configuration(setup: nat, analyses: seq<Id>, readiness: Readiness, token: nat, job: Job)

  datatype Chunk = Chunk(document: Id, version: nat, analysis: Id, index: nat)

  // A worker that claimed a configuration looks at the deadline once, before it starts. Its claim is
  // over when it saved, failed or gave back the job, or when the worker is gone.
  datatype Phase = Taken | Started | Over

  // What a worker took away from a claim. With an analysis it may come back at any time, and repeatedly,
  // which is more than its job allows.
  datatype Claim =
    | AnalysisClaim(analysis: Id, token: nat, document: Id, version: nat)
    | ConfigurationClaim(configuration: Id, token: nat, attempt: nat, deadline: real, phase: Phase)

  datatype Store = Store(documents: seq<Document>, analyses: seq<Analysis>, configurations: seq<Configuration>,
                         chunks: set<Chunk>, claims: seq<Claim>, nextToken: nat, now: real)

  const EMPTY := Store([], [], [], {}, [], 0, 0.0)

  function Later(now: real, delay: real): real {
    now + delay
  }

  // ---- documents -----------------------------------------------------------------------------

  // coalesce(max(version_no), 0) + 1 over the documents of one setup and type
  function NextVersion(documents: seq<Document>, setup: nat, kind: nat): nat {
    if documents == [] then 1
    else
      var rest := NextVersion(documents[..|documents| - 1], setup, kind);
      var last := documents[|documents| - 1];
      if last.setup == setup && last.kind == kind && last.version + 1 > rest then last.version + 1 else rest
  }

  // The unique index on the current document of a setup and type
  predicate HasCurrent(documents: seq<Document>, setup: nat, kind: nat) {
    exists d | 0 <= d < |documents| ::
      documents[d].presence == Current && documents[d].setup == setup && documents[d].kind == kind
  }

  function WithoutChunksOf(chunks: set<Chunk>, d: Id): set<Chunk> {
    set c | c in chunks && c.document != d
  }

  // The rows before the insert: a replaced document is no longer current.
  function Retired(documents: seq<Document>, predecessor: Option<Id>): seq<Document> {
    if predecessor.Some? && predecessor.value < |documents|
    then documents[predecessor.value := documents[predecessor.value].(presence := Replaced)]
    else documents
  }

  predicate CanUpload(s: Store, setup: nat, kind: nat, predecessor: Option<Id>) {
    && (predecessor.Some? ==> predecessor.value < |s.documents| && s.documents[predecessor.value].presence == Current)
    && !HasCurrent(Retired(s.documents, predecessor), setup, kind)
  }

  // create_document
  function Upload(s: Store, setup: nat, kind: nat, predecessor: Option<Id>): Store
    requires CanUpload(s, setup, kind, predecessor)
  {
    s.(documents := Retired(s.documents, predecessor)
                      + [Document(setup, kind, NextVersion(s.documents, setup, kind), Current)],
       chunks := if predecessor.Some? then WithoutChunksOf(s.chunks, predecessor.value) else s.chunks)
  }

  predicate Uses(analyses: seq<Analysis>, c: Configuration, d: Id) {
    exists i | 0 <= i < |c.analyses| :: c.analyses[i] < |analyses| && analyses[c.analyses[i]].document == d
  }

  function AfterDeletion(a: Analysis, d: Id): Analysis {
    if a.document == d && a.progress in {Working, Analysed} then a.(progress := Invalidated) else a
  }

  function InvalidatedFor(analyses: seq<Analysis>, d: Id): (after: seq<Analysis>)
    ensures |after| == |analyses| && forall i | 0 <= i < |analyses| :: after[i] == AfterDeletion(analyses[i], d)
  {
    if analyses == [] then []
    else InvalidatedFor(analyses[..|analyses| - 1], d) + [AfterDeletion(analyses[|analyses| - 1], d)]
  }

  function Withdrawal(analyses: seq<Analysis>, c: Configuration, d: Id): Configuration {
    if c.readiness in {Generating, Ready} && Uses(analyses, c, d) then c.(readiness := Void) else c
  }

  function WithdrawnFor(configurations: seq<Configuration>, analyses: seq<Analysis>, d: Id): (after: seq<Configuration>)
    ensures |after| == |configurations|
    ensures forall c | 0 <= c < |configurations| :: after[c] == Withdrawal(analyses, configurations[c], d)
  {
    if configurations == [] then []
    else
      WithdrawnFor(configurations[..|configurations| - 1], analyses, d)
        + [Withdrawal(analyses, configurations[|configurations| - 1], d)]
  }

  // delete_document: the document goes, and everything built on it is withdrawn.
  function Delete(s: Store, d: Id): Store
    requires d < |s.documents| && s.documents[d].presence == Current
  {
    s.(documents := s.documents[d := s.documents[d].(presence := Deleted)],
       analyses := InvalidatedFor(s.analyses, d),
       configurations := WithdrawnFor(s.configurations, InvalidatedFor(s.analyses, d), d),
       chunks := WithoutChunksOf(s.chunks, d))
  }

  // ---- analyses ------------------------------------------------------------------------------

  predicate CanAnalyze(s: Store, d: Id) {
    && d < |s.documents| && s.documents[d].presence == Current
    && forall i | 0 <= i < |s.analyses| :: !(s.analyses[i].document == d && s.analyses[i].progress == Working)
  }

  function Analyze(s: Store, d: Id): Store
    requires CanAnalyze(s, d)
  {
    s.(analyses := s.analyses + [Analysis(d, Working, s.nextToken)], nextToken := s.nextToken + 1)
  }

  predicate CanClaimAnalysis(s: Store, a: Id) {
    && a < |s.analyses| && s.analyses[a].progress == Working
    && s.analyses[a].document < |s.documents|
    && s.documents[s.analyses[a].document].presence == Current
  }

  function ClaimAnalysis(s: Store, a: Id): Store
    requires CanClaimAnalysis(s, a)
  {
    var d := s.analyses[a].document;
    s.(claims := s.claims + [AnalysisClaim(a, s.analyses[a].token, d, s.documents[d].version)])
  }

  predicate CanSaveAnalysis(s: Store, claim: Claim) {
    && claim.AnalysisClaim? && claim.analysis < |s.analyses| && claim.document < |s.documents|
    && s.analyses[claim.analysis] == Analysis(claim.document, Working, claim.token)
    && s.documents[claim.document].presence == Current
    && s.documents[claim.document].version == claim.version
  }

  function Fresh(claim: Claim, count: nat): set<Chunk>
    requires claim.AnalysisClaim?
  {
    set i | 0 <= i < count :: Chunk(claim.document, claim.version, claim.analysis, i)
  }

  // DocumentAnalysisAdapter.complete: the chunks of this version are replaced.
  function SaveAnalysis(s: Store, claim: Claim, count: nat): Store
    requires CanSaveAnalysis(s, claim)
  {
    s.(analyses := s.analyses[claim.analysis := s.analyses[claim.analysis].(progress := Analysed)],
       chunks := (set c | c in s.chunks && !(c.document == claim.document && c.version == claim.version))
                   + Fresh(claim, count))
  }

  // A failure reported by a worker, or found by the reaper: it settles jobs in processing only, so
  // that there has been a claim with the row's token.
  function FailAnalysis(s: Store, a: Id, token: nat): Store {
    if a < |s.analyses| && s.analyses[a].progress == Working && s.analyses[a].token == token
    then s.(analyses := s.analyses[a := s.analyses[a].(progress := GaveUp)]) else s
  }

  // ---- configurations ------------------------------------------------------------------------

  predicate Eligible(s: Store, a: Id) {
    && a < |s.analyses| && s.analyses[a].progress == Analysed
    && s.analyses[a].document < |s.documents| && s.documents[s.analyses[a].document].presence == Current
  }

  // The unique index on the active configuration of a setup
  predicate HasActive(configurations: seq<Configuration>, setup: nat, but: nat) {
    exists c | 0 <= c < |configurations| && c != but ::
      configurations[c].setup == setup && configurations[c].readiness in {Generating, Ready, InUse}
  }

  function Distinct(analyses: seq<Id>): set<Id> {
    set a | a in analyses
  }

  // The rows a query for these ids finds, each once
  function Found(s: Store, analyses: seq<Id>): set<Id> {
    set a | a in analyses && Eligible(s, a)
  }

  function FoundIn(s: Store, analyses: seq<Id>, setup: nat): set<Id> {
    set a | a in analyses && Eligible(s, a) && s.documents[s.analyses[a].document].setup == setup
  }

  predicate CanConfigure(s: Store, setup: nat, analyses: seq<Id>) {
    && |FoundIn(s, analyses, setup)| == |Distinct(analyses)|
    && !HasActive(s.configurations, setup, |s.configurations|)
  }

  // _insert_job
  function NewJob(now: real): Job {
    Job(Queued, 0, now, Later(now, DeadlineSeconds(ConfigurationGeneration)))
  }

  function Configure(s: Store, setup: nat, analyses: seq<Id>): Store
    requires CanConfigure(s, setup, analyses)
  {
    s.(configurations := s.configurations + [Configuration(setup, analyses, Generating, s.nextToken, NewJob(s.now))],
       nextToken := s.nextToken + 1)
  }

  // The row count in the claim's guard
  predicate AllFound(s: Store, analyses: seq<Id>) {
    |Found(s, analyses)| == |analyses|
  }

  predicate CanClaimConfiguration(s: Store, c: Id) {
    && c < |s.configurations| && s.configurations[c].readiness == Generating
    && s.configurations[c].job.status == Queued && s.configurations[c].job.due <= s.now
    && AllFound(s, s.configurations[c].analyses)
  }

  function ClaimConfiguration(s: Store, c: Id): Store
    requires CanClaimConfiguration(s, c)
  {
    var row := s.configurations[c];
    var attempt := row.job.attempts + 1;
    s.(configurations := s.configurations[c := row.(job := row.job.(status := Processing, attempts := attempt))],
       claims := s.claims + [ConfigurationClaim(c, row.token, attempt, row.job.deadline, Taken)])
  }

  predicate InPhase(s: Store, k: Id, phase: Phase) {
    k < |s.claims| && s.claims[k].ConfigurationClaim? && s.claims[k].phase == phase
  }

  function Move(s: Store, k: Id, phase: Phase): Store
    requires k < |s.claims| && s.claims[k].ConfigurationClaim?
  {
    s.(claims := s.claims[k := s.claims[k].(phase := phase)])
  }

  // The guard of a save or failure, whatever became of the documents since the claim
  predicate Holds(s: Store, c: Id, token: nat) {
    c < |s.configurations| && s.configurations[c].readiness == Generating && s.configurations[c].token == token
  }

  // The row's guard and the job's together. A transaction that meets one of them only does not commit:
  // the job would not fit its row.
  predicate Settles(s: Store, k: Id) {
    && k < |s.claims| && s.claims[k].ConfigurationClaim?
    && Holds(s, s.claims[k].configuration, s.claims[k].token)
    && s.configurations[s.claims[k].configuration].job.status == Processing
  }

  function Settled(s: Store, c: Id, readiness: Readiness, status: JobStatus): Store
    requires c < |s.configurations|
  {
    var row := s.configurations[c];
    s.(configurations := s.configurations[c := row.(readiness := readiness, job := row.job.(status := status))])
  }

  // The worker's claim ends, whether or not its last transaction commits.
  function EndClaim(s: Store, k: Id, readiness: Readiness, status: JobStatus): Store
    requires k < |s.claims| && s.claims[k].ConfigurationClaim?
  {
    if Settles(s, k) then Move(Settled(s, s.claims[k].configuration, readiness, status), k, Over) else Move(s, k, Over)
  }

  // The row stays as it is, under the same token.
  function GiveBack(s: Store, k: Id, due: real): Store
    requires k < |s.claims| && s.claims[k].ConfigurationClaim?
  {
    if Settles(s, k) then
      var c := s.claims[k].configuration;
      var row := s.configurations[c];
      Move(s.(configurations := s.configurations[c := row.(job := row.job.(status := Queued, due := due))]), k, Over)
    else Move(s, k, Over)
  }

  // _handle_provider_failure
  function HandleFailure(s: Store, k: Id, failure: ProviderFailure, jitter: real): Store
    requires k < |s.claims| && s.claims[k].ConfigurationClaim?
  {
    var decision := Decide(s.claims[k].attempt, s.claims[k].deadline, s.now, failure, jitter);
    if decision.Some? then GiveBack(s, k, Later(s.now, decision.value)) else EndClaim(s, k, Broken, Failed)
  }

  // The reaper on this job alone; where the row is no longer generating, it cannot commit.
  predicate CanReap(s: Store, c: Id) {
    && c < |s.configurations| && s.configurations[c].readiness == Generating
    && s.configurations[c].job.status == Processing && s.configurations[c].job.deadline <= s.now
  }

  function Turned(s: Store, c: Id, readiness: Readiness): Store
    requires c < |s.configurations|
  {
    s.(configurations := s.configurations[c := s.configurations[c].(readiness := readiness)])
  }

  predicate CanRegenerate(s: Store, c: Id) {
    && c < |s.configurations| && s.configurations[c].readiness in {Broken, Ready}
    && !Active(s.configurations[c].job.status)
    && !HasActive(s.configurations, s.configurations[c].setup, c)
  }

  function Regenerate(s: Store, c: Id): Store
    requires CanRegenerate(s, c)
  {
    s.(configurations := s.configurations[c := s.configurations[c].(readiness := Generating, token := s.nextToken,
                                                                    job := NewJob(s.now))],
       nextToken := s.nextToken + 1)
  }

  // ---- the state machine ---------------------------------------------------------------------

  datatype Event =
    | EUpload(setup: nat, kind: nat, predecessor: Option<Id>)
    | EDelete(document: Id)
    | EAnalyze(document: Id)
    | EClaimAnalysis(analysis: Id)
    | ESaveAnalysis(claim: Id, count: nat)
    | EFailAnalysis(claim: Id)
    | EConfigure(setup: nat, analyses: seq<Id>)
    | EClaimConfiguration(configuration: Id)
    | EStart(claim: Id)
    | EDeadlinePassed(claim: Id)
    | ESaveConfiguration(claim: Id)
    | EFailConfiguration(claim: Id, failure: ProviderFailure, jitter: real)
    | ECrash(claim: Id)
    | EReap(configuration: Id)
    | ERegenerate(configuration: Id)
    | EUse(configuration: Id)
    | EFinish(configuration: Id)
    | ETick(elapsed: real)

  function Step(s: Store, e: Event): Store {
    match e
    case EUpload(setup, kind, predecessor) =>
      if CanUpload(s, setup, kind, predecessor) then Upload(s, setup, kind, predecessor) else s
    case EDelete(d) => if d < |s.documents| && s.documents[d].presence == Current then Delete(s, d) else s
    case EAnalyze(d) => if CanAnalyze(s, d) then Analyze(s, d) else s
    case EClaimAnalysis(a) => if CanClaimAnalysis(s, a) then ClaimAnalysis(s, a) else s
    case ESaveAnalysis(k, count) =>
      if k < |s.claims| && CanSaveAnalysis(s, s.claims[k]) then SaveAnalysis(s, s.claims[k], count) else s
    case EFailAnalysis(k) =>
      if k < |s.claims| && s.claims[k].AnalysisClaim?
      then FailAnalysis(s, s.claims[k].analysis, s.claims[k].token) else s
    case EConfigure(setup, analyses) => if CanConfigure(s, setup, analyses) then Configure(s, setup, analyses) else s
    case EClaimConfiguration(c) => if CanClaimConfiguration(s, c) then ClaimConfiguration(s, c) else s
    case EStart(k) => if InPhase(s, k, Taken) && s.now < s.claims[k].deadline then Move(s, k, Started) else s
    case EDeadlinePassed(k) =>
      if InPhase(s, k, Taken) && s.claims[k].deadline <= s.now then EndClaim(s, k, Broken, Failed) else s
    case ESaveConfiguration(k) => if InPhase(s, k, Started) then EndClaim(s, k, Ready, Succeeded) else s
    case EFailConfiguration(k, failure, jitter) =>
      if InPhase(s, k, Started) then HandleFailure(s, k, failure, jitter) else s
    case ECrash(k) => if InPhase(s, k, Taken) || InPhase(s, k, Started) then Move(s, k, Over) else s
    case EReap(c) => if CanReap(s, c) then Settled(s, c, Broken, Failed) else s
    case ERegenerate(c) => if CanRegenerate(s, c) then Regenerate(s, c) else s
    case EUse(c) => if c < |s.configurations| && s.configurations[c].readiness == Ready then Turned(s, c, InUse) else s
    case EFinish(c) =>
      if c < |s.configurations| && s.configurations[c].readiness == InUse then Turned(s, c, Finished) else s
    case ETick(elapsed) => if elapsed >= 0.0 then s.(now := Later(s.now, elapsed)) else s
  }

  function Run(events: seq<Event>): Store {
    if events == [] then EMPTY else Step(Run(events[..|events| - 1]), events[|events| - 1])
  }
}
