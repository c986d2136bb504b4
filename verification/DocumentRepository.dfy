// The operations on documents, analyses and configurations as transactions over their tables, in the
// order of their statements. A transaction that breaks a unique index is taken back as a whole.
module DocumentRepository {
  import opened Jobs
  import opened Documents
  import opened DocumentTheorems

  class DocumentRepository {
    var documents: seq<Document>
    var analyses: seq<Analysis>
    var configurations: seq<Configuration>
    var chunks: set<Chunk>
    var claims: seq<Claim>
    var nextToken: nat
    var now: real

    function Snapshot(): Store
      reads this
    {
      Store(documents, analyses, configurations, chunks, claims, nextToken, now)
    }

    ghost predicate Valid()
      reads this
    {
      Inv(Snapshot())
    }

    constructor ()
      ensures Valid() && Snapshot() == EMPTY
    {
      documents, analyses, configurations, chunks, claims, nextToken, now := [], [], [], {}, [], 0, 0.0;
    }

    // The proof that every step keeps the invariant, applied to this repository
    ghost method Kept(before: Store, e: Event)
      requires Inv(before) && Snapshot() == Step(before, e)
      ensures Valid()
    {
      StepKeepsInv(before, e);
    }

    method CreateDocument(setup: nat, kind: nat, predecessor: Option<Id>) returns (created: Option<Id>)
      requires Valid()
      modifies this
      ensures Valid() && Snapshot() == Step(old(Snapshot()), EUpload(setup, kind, predecessor))
      ensures created.Some? <==> CanUpload(old(Snapshot()), setup, kind, predecessor)
      ensures created.Some? ==> created.value == |old(documents)| < |documents|
                                && documents[created.value].presence == Current
    {
      ghost var before := Snapshot();
      var version := NextVersion(documents, setup, kind);
      var documentsBefore, chunksBefore := documents, chunks;
      if predecessor.Some? {
        if predecessor.value >= |documents| || documents[predecessor.value].presence != Current {
          return None;
        }
        documents := documents[predecessor.value := documents[predecessor.value].(presence := Replaced)];
        chunks := WithoutChunksOf(chunks, predecessor.value);
      }
      if HasCurrent(documents, setup, kind) {
        documents, chunks := documentsBefore, chunksBefore;
        return None;
      }
      created := Some(|documents|);
      documents := documents + [Document(setup, kind, version, Current)];
      Kept(before, EUpload(setup, kind, predecessor));
    }

    method DeleteDocument(d: Id) returns (deleted: bool)
      requires Valid()
      modifies this
      ensures Valid() && Snapshot() == Step(old(Snapshot()), EDelete(d))
      ensures deleted <==> d < |old(documents)| && old(documents)[d].presence == Current
      ensures deleted ==> forall chunk | chunk in chunks :: chunk.document != d
      ensures deleted ==> forall a | 0 <= a < |analyses| && analyses[a].document == d ::
                            analyses[a].progress !in {Working, Analysed}
      ensures deleted ==> forall c | 0 <= c < |configurations| && Uses(analyses, configurations[c], d) ::
                            configurations[c].readiness !in {Generating, Ready}
    {
      if d >= |documents| || documents[d].presence != Current {
        return false;
      }
      ghost var before := Snapshot();
      documents := documents[d := documents[d].(presence := Deleted)];
      chunks := WithoutChunksOf(chunks, d);
      analyses := InvalidatedFor(analyses, d);
      configurations := WithdrawnFor(configurations, analyses, d);
      Kept(before, EDelete(d));
      return true;
    }

    method AnalyzeDocument(d: Id) returns (analysis: Option<Id>)
      requires Valid()
      modifies this
      ensures Valid() && Snapshot() == Step(old(Snapshot()), EAnalyze(d))
      ensures analysis.Some? <==> CanAnalyze(old(Snapshot()), d)
    {
      if d >= |documents| || documents[d].presence != Current {
        return None;
      }
      for i := 0 to |analyses|
        invariant forall k | 0 <= k < i :: !(analyses[k].document == d && analyses[k].progress == Working)
        invariant Snapshot() == old(Snapshot())
      {
        if analyses[i].document == d && analyses[i].progress == Working {
          return None;
        }
      }
      ghost var before := Snapshot();
      analysis := Some(|analyses|);
      analyses := analyses + [Analysis(d, Working, nextToken)];
      nextToken := nextToken + 1;
      Kept(before, EAnalyze(d));
    }

    // DocumentAnalysisAdapter.complete: the chunks of this version are deleted and inserted anew.
    method CompleteAnalysis(k: Id, count: nat) returns (saved: bool)
      requires Valid() && k < |claims|
      modifies this
      ensures Valid() && Snapshot() == Step(old(Snapshot()), ESaveAnalysis(k, count))
      ensures saved <==> CanSaveAnalysis(old(Snapshot()), claims[k])
    {
      var claim := claims[k];
      ghost var before := Snapshot();
      if !CanSaveAnalysis(Snapshot(), claim) {
        return false;
      }
      analyses := analyses[claim.analysis := analyses[claim.analysis].(progress := Analysed)];
      var kept := set c | c in chunks && !(c.document == claim.document && c.version == claim.version);
      chunks := kept;
      for index := 0 to count
        invariant chunks == kept + Fresh(claim, index)
        invariant Snapshot() == before.(analyses := analyses, chunks := chunks)
        invariant analyses == before.analyses[claim.analysis := before.analyses[claim.analysis].(progress := Analysed)]
      {
        assert Fresh(claim, index + 1)
            == Fresh(claim, index) + {Chunk(claim.document, claim.version, claim.analysis, index)};
        chunks := chunks + {Chunk(claim.document, claim.version, claim.analysis, index)};
      }
      Kept(before, ESaveAnalysis(k, count));
      return true;
    }

    method CreateConfiguration(setup: nat, analysisIds: seq<Id>) returns (configuration: Option<Id>)
      requires Valid()
      modifies this
      ensures Valid() && Snapshot() == Step(old(Snapshot()), EConfigure(setup, analysisIds))
      ensures configuration.Some? <==> CanConfigure(old(Snapshot()), setup, analysisIds)
    {
      ghost var before := Snapshot();
      var owned := |FoundIn(Snapshot(), analysisIds, setup)|;
      if owned != |Distinct(analysisIds)| || HasActive(configurations, setup, |configurations|) {
        return None;
      }
      configuration := Some(|configurations|);
      configurations := configurations + [Configuration(setup, analysisIds, Generating, nextToken, NewJob(now))];
      nextToken := nextToken + 1;
      Kept(before, EConfigure(setup, analysisIds));
    }

    method RegenerateConfiguration(c: Id) returns (regenerated: bool)
      requires Valid()
      modifies this
      ensures Valid() && Snapshot() == Step(old(Snapshot()), ERegenerate(c))
      ensures regenerated <==> CanRegenerate(old(Snapshot()), c)
    {
      if c >= |configurations| || configurations[c].readiness !in {Broken, Ready}
         || Active(configurations[c].job.status) || HasActive(configurations, configurations[c].setup, c) {
        return false;
      }
      ghost var before := Snapshot();
      configurations := configurations[c := configurations[c].(readiness := Generating, token := nextToken,
                                                               job := NewJob(now))];
      nextToken := nextToken + 1;
      Kept(before, ERegenerate(c));
      return true;
    }

    // ConfigurationAdapter.claim and the claim of its job
    method ClaimConfiguration(c: Id) returns (claim: Option<Id>)
      requires Valid()
      modifies this
      ensures Valid() && Snapshot() == Step(old(Snapshot()), EClaimConfiguration(c))
      ensures claim.Some? <==> CanClaimConfiguration(old(Snapshot()), c)
      ensures claim.Some? ==> claim.value == |old(claims)| < |claims|
    {
      if c >= |configurations| || configurations[c].job.status != Queued || configurations[c].job.due > now {
        return None;
      }
      if configurations[c].readiness != Generating
         || |Found(Snapshot(), configurations[c].analyses)| != |configurations[c].analyses| {
        return None;
      }
      ghost var before := Snapshot();
      var row := configurations[c];
      var attempt := row.job.attempts + 1;
      claim := Some(|claims|);
      configurations := configurations[c := row.(job := row.job.(status := Processing, attempts := attempt))];
      claims := claims + [ConfigurationClaim(c, row.token, attempt, row.job.deadline, Taken)];
      Kept(before, EClaimConfiguration(c));
    }

    // ConfigurationAdapter.complete and the end of its job: the documents are not looked at again.
    method CompleteConfiguration(k: Id) returns (saved: bool)
      requires Valid() && InPhase(Snapshot(), k, Started)
      modifies this
      ensures Valid() && Snapshot() == Step(old(Snapshot()), ESaveConfiguration(k))
      ensures saved <==> Holds(old(Snapshot()), old(claims)[k].configuration, old(claims)[k].token)
    {
      ghost var before := Snapshot();
      var claim := claims[k];
      claims := claims[k := claim.(phase := Over)];
      if !Holds(Snapshot(), claim.configuration, claim.token) {
        Kept(before, ESaveConfiguration(k));
        return false;
      }
      assert OutWith(before, k);
      var row := configurations[claim.configuration].(readiness := Ready);
      configurations := configurations[claim.configuration := row.(job := row.job.(status := Succeeded))];
      Kept(before, ESaveConfiguration(k));
      return true;
    }

    // _handle_provider_failure for a configuration: the planner's decision and the transaction it leads to
    method HandleProviderFailure(k: Id, failure: ProviderFailure, jitter: real) returns (given: bool)
      requires Valid() && InPhase(Snapshot(), k, Started)
      modifies this
      ensures Valid() && Snapshot() == Step(old(Snapshot()), EFailConfiguration(k, failure, jitter))
      ensures given <==> Settles(old(Snapshot()), k)
                         && Decide(old(claims)[k].attempt, old(claims)[k].deadline, now, failure, jitter).Some?
    {
      ghost var before := Snapshot();
      var claim := claims[k];
      var c := claim.configuration;
      var decision := Decide(claim.attempt, claim.deadline, now, failure, jitter);
      var settles := Settles(Snapshot(), k);
      claims := claims[k := claim.(phase := Over)];
      if settles && decision.Some? {
        var job := configurations[c].job.(status := Queued, due := Later(now, decision.value));
        configurations := configurations[c := configurations[c].(job := job)];
      } else if settles {
        var job := configurations[c].job.(status := Failed);
        configurations := configurations[c := configurations[c].(readiness := Broken, job := job)];
      }
      Kept(before, EFailConfiguration(k, failure, jitter));
      return settles && decision.Some?;
    }

    // create_practice_room, as far as the configuration is concerned: no room starts on a deleted
    // document.
    method CreatePracticeRoom(c: Id) returns (created: bool)
      requires Valid()
      modifies this
      ensures Valid() && Snapshot() == Step(old(Snapshot()), EUse(c))
      ensures created <==> c < |configurations| && old(configurations)[c].readiness == Ready
      ensures created ==> Clean(Snapshot(), configurations[c])
    {
      if c >= |configurations| || configurations[c].readiness != Ready {
        return false;
      }
      ghost var before := Snapshot();
      configurations := configurations[c := configurations[c].(readiness := InUse)];
      Kept(before, EUse(c));
      assert Clean(before, before.configurations[c]);
      return true;
    }
  }
}
