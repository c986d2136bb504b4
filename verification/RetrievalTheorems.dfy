// What similarities, retrieval and ranks come to, said about vectors, chunks and cases.
module RetrievalTheorems {
  import opened GoldQuotes
  import opened Jobs
  import opened Retrieval

  // ---- the scalar product --------------------------------------------------------------------

  lemma {:induction false} DotIsSymmetric(a: Vector, b: Vector)
    requires |a| == |b|
    ensures Dot(a, b) == Dot(b, a)
  {
    if a != [] {
      DotIsSymmetric(a[..|a| - 1], b[..|b| - 1]);
    }
  }

  lemma {:induction false} DotOfZero(a: Vector, b: Vector)
    requires |a| == |b| && forall i | 0 <= i < |a| :: a[i] == 0.0
    ensures Dot(a, b) == 0.0
  {
    if a != [] {
      DotOfZero(a[..|a| - 1], b[..|b| - 1]);
    }
  }

  // A component counts with the other vector's component of the same place.
  lemma {:induction false} DotCounts(a: Vector, b: Vector, i: nat, x: real)
    requires i < |a| == |b|
    ensures Dot(a[i := a[i] + x], b) == Dot(a, b) + Times(x, b[i])
  {
    var n := |a| - 1;
    var more := a[i := a[i] + x];
    if i < n {
      assert more[..n] == a[..n][i := a[..n][i] + x];
      DotCounts(a[..n], b[..n], i, x);
    } else {
      assert more[..n] == a[..n];
    }
  }

  predicate NotAllZero(a: Vector) {
    exists i | 0 <= i < |a| :: a[i] != 0.0
  }

  lemma SquareIsPositive(x: real)
    ensures Times(x, x) >= 0.0 && (Times(x, x) == 0.0 <==> x == 0.0)
  {
    if x > 0.0 {
      Positive(x, x);
    } else if x < 0.0 {
      Positive(-x, -x);
      NegatedSquare(x);
    }
  }

  lemma {:induction false} DotWithItself(a: Vector)
    ensures Dot(a, a) >= 0.0 && (Dot(a, a) != 0.0 <==> NotAllZero(a))
  {
    if a != [] {
      var n := |a| - 1;
      DotWithItself(a[..n]);
      SquareIsPositive(a[n]);
      assert Dot(a, a) == Dot(a[..n], a[..n]) + Times(a[n], a[n]);
      if NotAllZero(a[..n]) {
        var i :| 0 <= i < n && a[..n][i] != 0.0;
        assert a[i] != 0.0;
      } else {
        assert forall i | 0 <= i < n :: a[i] == a[..n][i];
      }
    }
  }

  // The cosine is refused exactly for different dimensions and zero vectors.
  lemma ComparableIff(a: Vector, b: Vector)
    ensures Comparable(a, b) <==> |a| == |b| && NotAllZero(a) && NotAllZero(b)
  {
    DotWithItself(a);
    DotWithItself(b);
  }

  // ---- similarities lie between -1 and 1 -----------------------------------------------------

  lemma NotNegative(x: real, y: real)
    requires x >= 0.0 && y >= 0.0
    ensures Times(x, y) >= 0.0
  {
  }

  lemma SquareOfSum(x: real, y: real)
    ensures Times(x + y, x + y) == Times(x, x) + 2.0 * Times(x, y) + Times(y, y)
  {
  }

  // (x + y)^2 >= 4xy
  lemma MeansCompare(x: real, y: real)
    ensures Times(x + y, x + y) >= 4.0 * Times(x, y)
  {
    SquareOfSum(x, y);
    SquareOfSum(x, -y);
    SquareIsPositive(x - y);
    assert Times(x, -y) == -Times(x, y) && Times(-y, -y) == Times(y, y);
  }

  lemma RootsCompare(x: real, y: real)
    requires y >= 0.0 && Times(x, x) <= Times(y, y)
    ensures x <= y
  {
    if x > y {
      SquareLess(y, x);
    }
  }

  lemma TimesGrows(x: real, y: real, z: real)
    requires x <= y && z >= 0.0
    ensures Times(x, z) <= Times(y, z)
  {
  }

  lemma Regroup(p: real, q: real, u: real, v: real)
    ensures Times(Times(p, q), Times(u, v)) == Times(Times(p, v), Times(q, u))
  {
    assert (p * q) * (u * v) == (p * v) * (q * u);
  }

  // If d^2 <= pq then 2duv <= pv^2 + qu^2.
  lemma MixedTerm(d: real, p: real, q: real, u: real, v: real)
    requires p >= 0.0 && q >= 0.0 && Times(d, d) <= Times(p, q)
    ensures 2.0 * Times(d, Times(u, v)) <= Times(p, Times(v, v)) + Times(q, Times(u, u))
  {
    var m := Times(d, Times(u, v));
    var x, y := Times(p, Times(v, v)), Times(q, Times(u, u));
    SquareIsPositive(u);
    SquareIsPositive(v);
    NotNegative(p, Times(v, v));
    NotNegative(q, Times(u, u));
    SquareOfProduct(d, Times(u, v));
    SquareOfProduct(u, v);
    NotNegative(Times(u, u), Times(v, v));
    TimesGrows(Times(d, d), Times(p, q), Times(Times(u, u), Times(v, v)));
    Regroup(p, q, Times(u, u), Times(v, v));
    MeansCompare(x, y);
    assert Times(2.0 * m, 2.0 * m) == 4.0 * Times(m, m);
    RootsCompare(2.0 * m, x + y);
  }

  lemma ProductOfSums(p: real, u: real, q: real, v: real)
    ensures Times(p + u, q + v) == Times(p, q) + Times(p, v) + Times(q, u) + Times(u, v)
  {
  }

  lemma {:induction false} CauchySchwarz(a: Vector, b: Vector)
    requires |a| == |b|
    ensures Times(Dot(a, b), Dot(a, b)) <= Times(Dot(a, a), Dot(b, b))
  {
    if a != [] {
      var n := |a| - 1;
      var d, p, q := Dot(a[..n], b[..n]), Dot(a[..n], a[..n]), Dot(b[..n], b[..n]);
      var u, v := a[n], b[n];
      CauchySchwarz(a[..n], b[..n]);
      DotWithItself(a[..n]);
      DotWithItself(b[..n]);
      MixedTerm(d, p, q, u, v);
      SquareOfSum(d, Times(u, v));
      ProductOfSums(p, Times(u, u), q, Times(v, v));
      SquareOfProduct(u, v);
      assert Dot(a, b) == d + Times(u, v) && Dot(a, a) == p + Times(u, u) && Dot(b, b) == q + Times(v, v);
    }
  }

  lemma QuotientBetween(x: real, m: real)
    requires m > 0.0 && -m <= x <= m
    ensures -1.0 <= x / m <= 1.0
  {
  }

  lemma ItsOwnQuotient(m: real)
    requires m > 0.0
    ensures m / m == 1.0
  {
  }

  // The signed square of a cosine, like the cosine, is between -1 and 1, symmetric, and 1 for a vector
  // and itself.
  lemma SimilarityIsBetween(a: Vector, b: Vector)
    requires Comparable(a, b)
    ensures -1.0 <= Similarity(a, b) <= 1.0 && Similarity(a, b) == Similarity(b, a) && Similarity(a, a) == 1.0
  {
    DotWithItself(a);
    DotWithItself(b);
    CauchySchwarz(a, b);
    DotIsSymmetric(a, b);
    Positive(Dot(a, a), Dot(b, b));
    Positive(Dot(a, a), Dot(a, a));
    assert Times(Dot(a, a), Dot(b, b)) == Times(Dot(b, b), Dot(a, a));
    SquareIsPositive(Dot(a, b));
    QuotientBetween(Signed(Dot(a, b)), Times(Dot(a, a), Dot(b, b)));
    ItsOwnQuotient(Times(Dot(a, a), Dot(a, a)));
  }

  // ---- what is retrieved ---------------------------------------------------------------------

  // By falling similarity; equally similar chunks by document, and chunks of one document by their index.
  lemma RetrievedInOrder(candidates: seq<Candidate>, threshold: real, k: nat, i: nat, j: nat)
    requires i < j < |Retrieved(candidates, threshold, k)|
    ensures var r := Retrieved(candidates, threshold, k);
            && r[i].similarity >= r[j].similarity
            && (r[i].similarity == r[j].similarity ==> r[i].document <= r[j].document)
            && (r[i].similarity == r[j].similarity && r[i].document == r[j].document ==> r[i].index <= r[j].index)
  {
    SortedIsOrdered(Eligible(candidates, threshold));
  }

  lemma RetrievedIsEligible(candidates: seq<Candidate>, threshold: real, k: nat)
    ensures |Retrieved(candidates, threshold, k)| <= k
    ensures forall c | c in Retrieved(candidates, threshold, k) :: c in candidates && c.similarity >= threshold
  {
    var eligible := Eligible(candidates, threshold);
    SortedIsOrdered(eligible);
    forall c | c in Retrieved(candidates, threshold, k) ensures c in candidates && c.similarity >= threshold {
      assert c in multiset(Sorted(eligible));
      EligibleExactly(candidates, threshold, c);
      assert c in multiset(candidates);
    }
  }

  // ---- what a case's result says -------------------------------------------------------------

  // A retrieved chunk answers a case that has evidence if it is of its document and holds a quote of it.
  predicate Answers(c: Case, item: Candidate) {
    && c.behavior != InsufficientEvidence
    && item.document == c.document && ContainsGoldQuote(item.text, c.quotes)
  }

  lemma RelevantAnswers(c: Case)
    ensures forall item: Candidate :: Relevant(c, item) <==> Answers(c, item)
  {
  }

  // The rank of a case is the place of the first retrieved chunk that answers it.
  lemma RankIsOfTheFirst(input: Input, i: nat, threshold: real, k: nat)
    requires Matches(input) && i < |input.cases|
    ensures var result := Results(input, |input.cases|, threshold, k)[i];
            var c := input.cases[i];
            && result.behavior == c.behavior
            && (result.rank.None? <==> forall item | item in result.retrieved :: !Answers(c, item))
            && (result.rank.Some? ==>
                  && 1 <= result.rank.value <= |result.retrieved|
                  && Answers(c, result.retrieved[result.rank.value - 1])
                  && forall j | 0 <= j < result.rank.value - 1 :: !Answers(c, result.retrieved[j]))
  {
    ResultAt(input, |input.cases|, threshold, k, i);
    RelevantAnswers(input.cases[i]);
  }

  // All cases run exactly if every case's query and every chunk of its document have embeddings that the
  // cosine accepts.
  lemma AllRunExactly(input: Input, threshold: real, topK: int)
    requires |input.cases| == |input.queries| && input.cases != []
    ensures AllRun(input, |input.cases|, threshold, topK) <==>
              && |input.chunks| == |input.embeddings| && 0.0 < threshold <= 1.0 && topK >= 1
              && forall i, n | 0 <= i < |input.cases| && 0 <= n < |input.chunks|
                               && input.chunks[n].document == input.cases[i].document ::
                   && |input.queries[i]| == |input.embeddings[n]|
                   && NotAllZero(input.queries[i]) && NotAllZero(input.embeddings[n])
  {
    AllRunIff(input, |input.cases|, threshold, topK);
    if |input.chunks| == |input.embeddings| && 0.0 < threshold <= 1.0 && topK >= 1 {
      forall i | 0 <= i < |input.cases|
        ensures CaseRuns(input, i, threshold, topK) <==>
                  forall n | 0 <= n < |input.chunks| && input.chunks[n].document == input.cases[i].document ::
                    ScopedFits(input.queries[i], input.embeddings[n])
      {
        ScopedRun(input.queries[i], input.chunks, input.embeddings, input.cases[i].document);
      }
    } else {
      assert !CaseRuns(input, 0, threshold, topK);
    }
  }

  predicate ScopedFits(query: Vector, embedding: Vector) {
    |query| == |embedding| && NotAllZero(query) && NotAllZero(embedding)
  }

  lemma {:induction false} ScopedRun(query: Vector, chunks: seq<Chunk>, embeddings: seq<Vector>, document: nat)
    requires |chunks| == |embeddings|
    ensures AllComparable(query, ScopedEmbeddings(chunks, embeddings, document)) <==>
              forall n | 0 <= n < |chunks| && chunks[n].document == document :: ScopedFits(query, embeddings[n])
  {
    if chunks != [] {
      var m := |chunks| - 1;
      ScopedRun(query, chunks[..m], embeddings[..m], document);
      ComparableIff(query, embeddings[m]);
      var before := ScopedEmbeddings(chunks[..m], embeddings[..m], document);
      OneMoreComparable(query, before, embeddings[m]);
      assert before + [] == before;
      OneMoreFits(query, chunks, embeddings, document);
    }
  }

  lemma OneMoreComparable(query: Vector, before: seq<Vector>, embedding: Vector)
    ensures AllComparable(query, before + [embedding]) <==> AllComparable(query, before) && Comparable(query, embedding)
  {
    if AllComparable(query, before + [embedding]) {
      assert forall i | 0 <= i < |before| :: (before + [embedding])[i] == before[i];
      assert (before + [embedding])[|before|] == embedding;
    }
  }

  lemma OneMoreFits(query: Vector, chunks: seq<Chunk>, embeddings: seq<Vector>, document: nat)
    requires |chunks| == |embeddings| && chunks != []
    ensures var m := |chunks| - 1;
            (forall n | 0 <= n < |chunks| && chunks[n].document == document :: ScopedFits(query, embeddings[n])) <==>
              && (forall n | 0 <= n < m && chunks[..m][n].document == document :: ScopedFits(query, embeddings[..m][n]))
              && (chunks[m].document == document ==> ScopedFits(query, embeddings[m]))
  {
    var m := |chunks| - 1;
    if forall n | 0 <= n < m && chunks[..m][n].document == document :: ScopedFits(query, embeddings[..m][n]) {
      assert forall n | 0 <= n < m && chunks[n].document == document ::
               chunks[..m][n].document == document && ScopedFits(query, embeddings[..m][n]);
    }
  }
}
