// Threshold retrieval by cosine similarity and the metrics of its evaluation, over exact real numbers.
module Retrieval {
  import opened GoldQuotes
  import opened Jobs

  // ---- cosine similarity ---------------------------------------------------------------------

  type Vector = seq<real>

  function Dot(a: Vector, b: Vector): real
    requires |a| == |b|
  {
    if a == [] then 0.0 else Dot(a[..|a| - 1], b[..|b| - 1]) + a[|a| - 1] * b[|b| - 1]
  }

  // Where cosine_similarity does not raise: vectors of one dimension, and neither of them zero
  predicate Comparable(a: Vector, b: Vector) {
    a != [] && |a| == |b| && Dot(a, a) != 0.0 && Dot(b, b) != 0.0
  }

  function Times(x: real, y: real): real {
    x * y
  }

  function Signed(x: real): real {
    if x >= 0.0 then Times(x, x) else -Times(x, x)
  }

  lemma NotZero(x: real, y: real)
    requires x != 0.0 && y != 0.0
    ensures Times(x, y) != 0.0
  {
  }

  // The signed square of the cosine, which needs no square roots. It orders vectors, and compares with
  // the square of a threshold, as the cosine itself does.
  function Similarity(a: Vector, b: Vector): real {
    if Comparable(a, b) then
      NotZero(Dot(a, a), Dot(b, b));
      Signed(Dot(a, b)) / Times(Dot(a, a), Dot(b, b))
    else 0.0
  }

  lemma Positive(x: real, y: real)
    requires x > 0.0 && y > 0.0
    ensures Times(x, y) > 0.0
  {
  }

  lemma SquareGrows(x: real, y: real)
    ensures Times(y - x, y + x) == Times(y, y) - Times(x, x)
  {
  }

  lemma SquareLess(x: real, y: real)
    requires 0.0 <= x < y
    ensures Times(x, x) < Times(y, y)
  {
    Positive(y - x, y + x);
    SquareGrows(x, y);
  }

  lemma NegatedSquare(x: real)
    ensures Times(-x, -x) == Times(x, x)
  {
  }

  lemma SignedSign(x: real)
    ensures (x > 0.0 <==> Signed(x) > 0.0) && (x == 0.0 <==> Signed(x) == 0.0)
  {
    if x > 0.0 {
      Positive(x, x);
    } else if x < 0.0 {
      Positive(-x, -x);
      NegatedSquare(x);
    }
  }

  lemma SignedLess(x: real, y: real)
    requires x < y
    ensures Signed(x) < Signed(y)
  {
    if 0.0 <= x {
      SquareLess(x, y);
    } else if y < 0.0 {
      SquareLess(-y, -x);
      NegatedSquare(x);
      NegatedSquare(y);
    } else {
      SignedSign(x);
      SignedSign(y);
    }
  }

  lemma SignedRises(x: real, y: real)
    ensures x < y <==> Signed(x) < Signed(y)
  {
    if x < y {
      SignedLess(x, y);
    } else if y < x {
      SignedLess(y, x);
    }
  }

  lemma SquareOfProduct(x: real, y: real)
    ensures Times(Times(x, y), Times(x, y)) == Times(Times(x, x), Times(y, y))
  {
    assert (x * y) * (x * y) == (x * x) * (y * y);
  }

  lemma QuotientTimes(d: real, n: real)
    requires n > 0.0
    ensures Times(d / n, n) == d
  {
  }

  lemma DividedBack(x: real, m: real)
    requires m > 0.0
    ensures Times(x, m) / m == x
  {
  }

  lemma NegatedTimes(x: real, y: real)
    ensures Times(-x, y) == -Times(x, y)
  {
  }

  lemma SignedOfProduct(c: real, n: real)
    requires n > 0.0
    ensures Signed(Times(c, n)) == Times(Signed(c), Times(n, n))
  {
    SquareOfProduct(c, n);
    if c > 0.0 {
      Positive(c, n);
    } else if c < 0.0 {
      Positive(-c, n);
      NegatedTimes(c, n);
      NegatedTimes(Times(c, c), Times(n, n));
    }
  }

  lemma SignedQuotient(d: real, n: real)
    requires n > 0.0
    ensures Times(n, n) > 0.0 && Signed(d / n) == Signed(d) / Times(n, n)
  {
    Positive(n, n);
    var c, m := d / n, Times(n, n);
    QuotientTimes(d, n);
    SignedOfProduct(c, n);
    DividedBack(Signed(c), m);
  }

  // A norm of the vector: the positive root of its product with itself
  predicate IsNorm(n: real, a: Vector) {
    n > 0.0 && Times(n, n) == Dot(a, a)
  }

  // The cosine, for the norms of the vectors
  function Cosine(a: Vector, b: Vector, normA: real, normB: real): real
    requires Comparable(a, b) && IsNorm(normA, a) && IsNorm(normB, b)
  {
    Positive(normA, normB);
    Dot(a, b) / Times(normA, normB)
  }

  lemma SimilarityIsSigned(a: Vector, b: Vector, normA: real, normB: real)
    requires Comparable(a, b) && IsNorm(normA, a) && IsNorm(normB, b)
    ensures Similarity(a, b) == Signed(Cosine(a, b, normA, normB))
  {
    var n := Times(normA, normB);
    Positive(normA, normB);
    SquareOfProduct(normA, normB);
    SignedQuotient(Dot(a, b), n);
  }

  // Comparing similarities is comparing cosines, with each other and with any positive threshold.
  lemma SimilarityComparesLikeCosine(q: Vector, a: Vector, b: Vector,
        normQ: real, normA: real, normB: real, threshold: real)
    requires Comparable(q, a) && Comparable(q, b) && threshold > 0.0
    requires IsNorm(normQ, q) && IsNorm(normA, a) && IsNorm(normB, b)
    ensures Similarity(q, a) < Similarity(q, b) <==> Cosine(q, a, normQ, normA) < Cosine(q, b, normQ, normB)
    ensures Similarity(q, a) >= Times(threshold, threshold) <==> Cosine(q, a, normQ, normA) >= threshold
  {
    SimilarityIsSigned(q, a, normQ, normA);
    SimilarityIsSigned(q, b, normQ, normB);
    SignedRises(Cosine(q, a, normQ, normA), Cosine(q, b, normQ, normB));
    SignedRises(Cosine(q, a, normQ, normA), threshold);
  }

  datatype Chunk = Chunk(document: nat, index: nat, text: string)

  datatype Candidate = Candidate(similarity: real, document: nat, index: nat, text: string)

  function Matched(query: Vector, chunk: Chunk, embedding: Vector): Candidate {
    Candidate(Similarity(query, embedding), chunk.document, chunk.index, chunk.text)
  }

  function Candidates(query: Vector, chunks: seq<Chunk>, embeddings: seq<Vector>): seq<Candidate>
    requires |chunks| == |embeddings|
  {
    if chunks == [] then []
    else
      var n := |chunks| - 1;
      Candidates(query, chunks[..n], embeddings[..n])
        + [Matched(query, chunks[n], embeddings[n])]
  }

  // ---- retrieve_top_k ------------------------------------------------------------------------

  // The sort key (-similarity, document, index), not after
  predicate Before(a: Candidate, b: Candidate) {
    || a.similarity > b.similarity
    || (a.similarity == b.similarity && (a.document < b.document || (a.document == b.document && a.index <= b.index)))
  }

  function Insert(a: Candidate, sorted: seq<Candidate>): seq<Candidate> {
    if sorted == [] then [a]
    else if Before(a, sorted[0]) then [a] + sorted
    else [sorted[0]] + Insert(a, sorted[1..])
  }

  // A stable sort
  function Sorted(items: seq<Candidate>): seq<Candidate> {
    if items == [] then [] else Insert(items[0], Sorted(items[1..]))
  }

  function Eligible(items: seq<Candidate>, threshold: real): seq<Candidate> {
    if items == [] then []
    else if items[0].similarity >= threshold then [items[0]] + Eligible(items[1..], threshold)
    else Eligible(items[1..], threshold)
  }

  function Take(items: seq<Candidate>, k: nat): seq<Candidate> {
    if |items| <= k then items else items[..k]
  }

  function Retrieved(candidates: seq<Candidate>, threshold: real, k: nat): seq<Candidate> {
    Take(Sorted(Eligible(candidates, threshold)), k)
  }

  predicate AllComparable(query: Vector, embeddings: seq<Vector>) {
    forall i | 0 <= i < |embeddings| :: Comparable(query, embeddings[i])
  }

  // None where it raises
  method RetrieveTopK(query: Vector, chunks: seq<Chunk>, embeddings: seq<Vector>, threshold: real, topK: int)
    returns (r: Option<seq<Candidate>>)
    ensures r.None? <==> || |chunks| != |embeddings|
                         || !(0.0 < threshold <= 1.0)
                         || topK <= 0
                         || !AllComparable(query, embeddings)
    ensures r.Some? ==> r.value == Retrieved(Candidates(query, chunks, embeddings), Times(threshold, threshold), topK)
  {
    if |chunks| != |embeddings| || !(0.0 < threshold <= 1.0) || topK <= 0 {
      return None;
    }
    var candidates: seq<Candidate> := [];
    for i := 0 to |chunks|
      invariant AllComparable(query, embeddings[..i])
      invariant candidates == Candidates(query, chunks[..i], embeddings[..i])
    {
      if !Comparable(query, embeddings[i]) {
        return None;
      }
      assert chunks[..i + 1][..i] == chunks[..i] && embeddings[..i + 1][..i] == embeddings[..i];
      candidates := candidates + [Matched(query, chunks[i], embeddings[i])];
    }
    assert chunks[..|chunks|] == chunks && embeddings[..|embeddings|] == embeddings;
    var eligible: seq<Candidate> := [];
    for i := 0 to |candidates|
      invariant eligible + Eligible(candidates[i..], Times(threshold, threshold))
          == Eligible(candidates, Times(threshold, threshold))
    {
      if candidates[i].similarity >= Times(threshold, threshold) {
        eligible := eligible + [candidates[i]];
      }
    }
    assert candidates[|candidates|..] == [];
    assert eligible == Eligible(candidates, Times(threshold, threshold));
    var sorted := SortCandidates(eligible);
    return Some(Take(sorted, topK));
  }

  method SortCandidates(items: seq<Candidate>) returns (sorted: seq<Candidate>)
    ensures sorted == Sorted(items)
  {
    sorted := [];
    for i := |items| downto 0
      invariant sorted == Sorted(items[i..])
    {
      sorted := Insert(items[i], sorted);
    }
  }

  // ---- sorting and filtering -----------------------------------------------------------------

  ghost predicate InOrder(items: seq<Candidate>) {
    forall i, j | 0 <= i < j < |items| :: Before(items[i], items[j])
  }

  ghost predicate AllAfter(c: Candidate, items: seq<Candidate>) {
    forall i | 0 <= i < |items| :: Before(c, items[i])
  }

  lemma {:induction false} InsertKeepsAfter(c: Candidate, a: Candidate, sorted: seq<Candidate>)
    requires AllAfter(c, sorted) && Before(c, a)
    ensures AllAfter(c, Insert(a, sorted))
  {
    if sorted != [] && !Before(a, sorted[0]) {
      InsertKeepsAfter(c, a, sorted[1..]);
    }
  }

  lemma OneInFront(c: Candidate, items: seq<Candidate>)
    requires InOrder(items) && AllAfter(c, items)
    ensures InOrder([c] + items)
  {
  }

  lemma {:induction false} InsertKeepsOrder(a: Candidate, sorted: seq<Candidate>)
    requires InOrder(sorted)
    ensures InOrder(Insert(a, sorted))
  {
    if sorted != [] {
      if Before(a, sorted[0]) {
        OneInFront(a, sorted);
      } else {
        InsertKeepsOrder(a, sorted[1..]);
        InsertKeepsAfter(sorted[0], a, sorted[1..]);
        OneInFront(sorted[0], Insert(a, sorted[1..]));
      }
    }
  }

  lemma {:induction false} InsertKeepsAll(a: Candidate, sorted: seq<Candidate>)
    ensures multiset(Insert(a, sorted)) == multiset(sorted) + multiset{a}
  {
    if sorted != [] {
      assert sorted == [sorted[0]] + sorted[1..];
      InsertKeepsAll(a, sorted[1..]);
    }
  }

  // Sorting keeps what there is and puts it in order.
  lemma {:induction false} SortedIsOrdered(items: seq<Candidate>)
    ensures InOrder(Sorted(items)) && multiset(Sorted(items)) == multiset(items)
  {
    if items != [] {
      SortedIsOrdered(items[1..]);
      InsertKeepsOrder(items[0], Sorted(items[1..]));
      InsertKeepsAll(items[0], Sorted(items[1..]));
      assert items == [items[0]] + items[1..];
    }
  }

  lemma {:induction false} EligibleInsert(a: Candidate, sorted: seq<Candidate>, threshold: real)
    requires InOrder(sorted)
    ensures Eligible(Insert(a, sorted), threshold)
         == if a.similarity >= threshold then Insert(a, Eligible(sorted, threshold)) else Eligible(sorted, threshold)
  {
    if sorted != [] {
      if Before(a, sorted[0]) {
        assert ([a] + sorted)[1..] == sorted;
        FirstStaysFirst(a, sorted, threshold);
      } else {
        EligibleInsert(a, sorted[1..], threshold);
        var rest := Insert(a, sorted[1..]);
        assert ([sorted[0]] + rest)[1..] == rest;
        if sorted[0].similarity >= threshold {
          assert ([sorted[0]] + Eligible(sorted[1..], threshold))[1..] == Eligible(sorted[1..], threshold);
        }
      }
    }
  }

  lemma {:induction false} FirstStaysFirst(a: Candidate, sorted: seq<Candidate>, threshold: real)
    requires forall i | 0 <= i < |sorted| :: Before(a, sorted[i])
    ensures Insert(a, Eligible(sorted, threshold)) == [a] + Eligible(sorted, threshold)
  {
    if sorted != [] && sorted[0].similarity < threshold {
      FirstStaysFirst(a, sorted[1..], threshold);
    }
  }

  lemma {:induction false} EligibleSorted(items: seq<Candidate>, threshold: real)
    ensures Eligible(Sorted(items), threshold) == Sorted(Eligible(items, threshold))
  {
    if items != [] {
      EligibleSorted(items[1..], threshold);
      SortedIsOrdered(items[1..]);
      EligibleInsert(items[0], Sorted(items[1..]), threshold);
      if items[0].similarity >= threshold {
        assert ([items[0]] + Eligible(items[1..], threshold))[1..] == Eligible(items[1..], threshold);
      }
    }
  }

  lemma {:induction false} EligibleTwice(items: seq<Candidate>, low: real, high: real)
    requires low <= high
    ensures Eligible(Eligible(items, low), high) == Eligible(items, high)
  {
    if items != [] {
      EligibleTwice(items[1..], low, high);
      if items[0].similarity >= low {
        assert ([items[0]] + Eligible(items[1..], low))[1..] == Eligible(items[1..], low);
      }
    }
  }

  lemma {:induction false} NothingEligible(items: seq<Candidate>, threshold: real)
    requires forall i | 0 <= i < |items| :: items[i].similarity < threshold
    ensures Eligible(items, threshold) == []
  {
    if items != [] {
      NothingEligible(items[1..], threshold);
    }
  }

  lemma {:induction false} EligibleIsPrefix(items: seq<Candidate>, threshold: real)
    requires InOrder(items)
    ensures Eligible(items, threshold) <= items
  {
    if items != [] {
      if items[0].similarity >= threshold {
        EligibleIsPrefix(items[1..], threshold);
      } else {
        NothingEligible(items, threshold);
      }
    }
  }

  // Eligible are exactly the candidates at or above the threshold, as often as they occur.
  lemma {:induction false} EligibleExactly(items: seq<Candidate>, threshold: real, c: Candidate)
    ensures multiset(Eligible(items, threshold))[c] == if c.similarity >= threshold then multiset(items)[c] else 0
  {
    if items != [] {
      EligibleExactly(items[1..], threshold, c);
      assert items == [items[0]] + items[1..];
    }
  }

  // What a higher threshold retrieves is a prefix of what a lower one retrieves.
  lemma HigherRetrievesAPrefix(candidates: seq<Candidate>, low: real, high: real, k: nat)
    requires low <= high
    ensures Retrieved(candidates, high, k) <= Retrieved(candidates, low, k)
  {
    var lower := Sorted(Eligible(candidates, low));
    SortedIsOrdered(Eligible(candidates, low));
    EligibleSorted(Eligible(candidates, low), high);
    EligibleTwice(candidates, low, high);
    EligibleIsPrefix(lower, high);
  }

  // What is retrieved is the beginning of all eligible candidates in order, and all of them unless
  // there are more than k.
  lemma RetrievedAreTheBest(candidates: seq<Candidate>, threshold: real, k: nat)
    ensures exists rest ::
              && InOrder(Retrieved(candidates, threshold, k) + rest)
              && multiset(Retrieved(candidates, threshold, k) + rest) == multiset(Eligible(candidates, threshold))
              && (rest != [] ==> |Retrieved(candidates, threshold, k)| == k)
  {
    var all := Sorted(Eligible(candidates, threshold));
    SortedIsOrdered(Eligible(candidates, threshold));
    var rest := if |all| <= k then [] else all[k..];
    assert Retrieved(candidates, threshold, k) + rest == all;
  }

  // ---- evaluate ------------------------------------------------------------------------------

  datatype Behavior = RetrieveEvidence | PartialEvidence | InsufficientEvidence

  datatype Case = Case(document: nat, behavior: Behavior, quotes: seq<string>)

  datatype Result = Result(behavior: Behavior, rank: Option<nat>, retrieved: seq<Candidate>)

  predicate Relevant(c: Case, item: Candidate) {
    !c.behavior.InsufficientEvidence? && item.document == c.document && ContainsGoldQuote(item.text, c.quotes)
  }

  // The embeddings of the case's own document, and its chunks
  function ScopedChunks(chunks: seq<Chunk>, document: nat): seq<Chunk> {
    if chunks == [] then []
    else
      var n := |chunks| - 1;
      ScopedChunks(chunks[..n], document) + (if chunks[n].document == document then [chunks[n]] else [])
  }

  function ScopedEmbeddings(chunks: seq<Chunk>, embeddings: seq<Vector>, document: nat): (scoped: seq<Vector>)
    requires |chunks| == |embeddings|
    ensures |scoped| == |ScopedChunks(chunks, document)|
  {
    if chunks == [] then []
    else
      var n := |chunks| - 1;
      ScopedEmbeddings(chunks[..n], embeddings[..n], document)
          + (if chunks[n].document == document then [embeddings[n]] else [])
  }

  function Scoped(chunks: seq<Chunk>, embeddings: seq<Vector>, c: Case, query: Vector): seq<Candidate>
    requires |chunks| == |embeddings|
  {
    Candidates(query, ScopedChunks(chunks, c.document), ScopedEmbeddings(chunks, embeddings, c.document))
  }

  lemma CandidatesAppend(query: Vector, chunks: seq<Chunk>, embeddings: seq<Vector>, chunk: Chunk, embedding: Vector)
    requires |chunks| == |embeddings|
    ensures Candidates(query, chunks + [chunk], embeddings + [embedding])
         == Candidates(query, chunks, embeddings)
             + [Matched(query, chunk, embedding)]
  {
    assert (chunks + [chunk])[..|chunks|] == chunks && (embeddings + [embedding])[..|embeddings|] == embeddings;
  }

  lemma ScopedOneMore(chunks: seq<Chunk>, embeddings: seq<Vector>, c: Case, query: Vector)
    requires |chunks| == |embeddings| && chunks != []
    ensures var m := |chunks| - 1;
            Scoped(chunks, embeddings, c, query) == Scoped(chunks[..m], embeddings[..m], c, query)
              + if chunks[m].document == c.document
                then [Matched(query, chunks[m], embeddings[m])] else []
  {
    var m := |chunks| - 1;
    var before, vectors := ScopedChunks(chunks[..m], c.document),
        ScopedEmbeddings(chunks[..m], embeddings[..m], c.document);
    if chunks[m].document == c.document {
      CandidatesAppend(query, before, vectors, chunks[m], embeddings[m]);
    } else {
      assert before + [] == before && vectors + [] == vectors;
    }
  }

  // Each chunk of the case's document is a candidate with its own similarity, and nothing else is.
  lemma {:induction false} ScopedIsTheDocument(chunks: seq<Chunk>, embeddings: seq<Vector>, c: Case, query: Vector,
        n: nat)
    requires |chunks| == |embeddings|
    ensures n < |chunks| && chunks[n].document == c.document ==>
              Matched(query, chunks[n], embeddings[n])
                in Scoped(chunks, embeddings, c, query)
    ensures var scoped := Scoped(chunks, embeddings, c, query);
            forall i | 0 <= i < |scoped| :: scoped[i].document == c.document
  {
    if chunks != [] {
      var m := |chunks| - 1;
      ScopedIsTheDocument(chunks[..m], embeddings[..m], c, query, n);
      ScopedOneMore(chunks, embeddings, c, query);
      var before, scoped := Scoped(chunks[..m], embeddings[..m], c, query), Scoped(chunks, embeddings, c, query);
      if n == m && chunks[m].document == c.document {
        assert scoped[|before|] == Matched(query, chunks[m], embeddings[m]);
      }
    }
  }

  // The position of the first relevant one, counted from 1
  function Rank(c: Case, retrieved: seq<Candidate>): (rank: Option<nat>)
    ensures rank.Some? ==> 1 <= rank.value <= |retrieved| && Relevant(c, retrieved[rank.value - 1])
    ensures rank.Some? ==> forall i | 0 <= i < rank.value - 1 :: !Relevant(c, retrieved[i])
    ensures rank.None? ==> forall i | 0 <= i < |retrieved| :: !Relevant(c, retrieved[i])
  {
    if retrieved == [] then None
    else if Relevant(c, retrieved[0]) then Some(1)
    else
      match Rank(c, retrieved[1..])
      case None => None
      case Some(r) => Some(r + 1)
  }

  // A set of cases with the embeddings of their queries, over a corpus
  datatype Input = Input(chunks: seq<Chunk>, embeddings: seq<Vector>, cases: seq<Case>, queries: seq<Vector>)

  predicate Matches(input: Input) {
    |input.chunks| == |input.embeddings| && |input.cases| == |input.queries|
  }

  function ResultOf(input: Input, i: nat, threshold: real, k: nat): Result
    requires Matches(input) && i < |input.cases|
  {
    var c := input.cases[i];
    var retrieved := Retrieved(Scoped(input.chunks, input.embeddings, c, input.queries[i]),
        Times(threshold, threshold), k);
    Result(c.behavior, Rank(c, retrieved), retrieved)
  }

  // The results of the first n cases
  function Results(input: Input, n: nat, threshold: real, k: nat): (results: seq<Result>)
    requires Matches(input) && n <= |input.cases|
    ensures |results| == n
  {
    if n == 0 then [] else Results(input, n - 1, threshold, k) + [ResultOf(input, n - 1, threshold, k)]
  }

  lemma {:induction false} ResultAt(input: Input, n: nat, threshold: real, k: nat, i: nat)
    requires Matches(input) && i < n <= |input.cases|
    ensures Results(input, n, threshold, k)[i] == ResultOf(input, i, threshold, k)
  {
    if i < n - 1 {
      ResultAt(input, n - 1, threshold, k, i);
    }
  }

  predicate CaseRuns(input: Input, i: nat, threshold: real, topK: int)
    requires i < |input.cases| == |input.queries|
  {
    && |input.chunks| == |input.embeddings| && 0.0 < threshold <= 1.0 && topK > 0
    && AllComparable(input.queries[i], ScopedEmbeddings(input.chunks, input.embeddings, input.cases[i].document))
  }

  // The first n cases run.
  predicate AllRun(input: Input, n: nat, threshold: real, topK: int)
    requires n <= |input.cases| == |input.queries|
  {
    n == 0 || (AllRun(input, n - 1, threshold, topK) && CaseRuns(input, n - 1, threshold, topK))
  }

  lemma {:induction false} AllRunIff(input: Input, n: nat, threshold: real, topK: int)
    requires n <= |input.cases| == |input.queries|
    ensures AllRun(input, n, threshold, topK) <==> forall i | 0 <= i < n :: CaseRuns(input, i, threshold, topK)
  {
    if n > 0 {
      AllRunIff(input, n - 1, threshold, topK);
    }
  }

  lemma {:induction false} OneFails(input: Input, i: nat, n: nat, threshold: real, topK: int)
    requires i < n <= |input.cases| == |input.queries| && !CaseRuns(input, i, threshold, topK)
    ensures !AllRun(input, n, threshold, topK)
  {
    if i < n - 1 {
      OneFails(input, i, n - 1, threshold, topK);
    }
  }

  method EvaluateCase(input: Input, i: nat, threshold: real, topK: int) returns (result: Option<Result>)
    requires i < |input.cases| == |input.queries|
    ensures result.Some? <==> CaseRuns(input, i, threshold, topK)
    ensures result.Some? ==> Matches(input) && topK > 0 && result.value == ResultOf(input, i, threshold, topK)
  {
    if |input.chunks| != |input.embeddings| {
      return None;
    }
    var c := input.cases[i];
    var retrieved := RetrieveTopK(input.queries[i], ScopedChunks(input.chunks, c.document),
                                  ScopedEmbeddings(input.chunks, input.embeddings, c.document), threshold, topK);
    if retrieved.None? {
      return None;
    }
    return Some(Result(c.behavior, Rank(c, retrieved.value), retrieved.value));
  }

  // None where it raises: the counts of cases and queries differ, or some case does not run
  method Evaluate(input: Input, threshold: real, topK: int) returns (results: Option<seq<Result>>)
    ensures results.None? <==> |input.cases| != |input.queries| || !AllRun(input, |input.cases|, threshold, topK)
    ensures results.Some? && input.cases == [] ==> results.value == []
    ensures results.Some? && input.cases != [] ==>
              Matches(input) && topK > 0 && results.value == Results(input, |input.cases|, threshold, topK)
  {
    if |input.cases| != |input.queries| {
      return None;
    }
    var all: seq<Result> := [];
    for i := 0 to |input.cases|
      invariant AllRun(input, i, threshold, topK)
      invariant i == 0 ==> all == []
      invariant i > 0 ==> Matches(input) && topK > 0 && all == Results(input, i, threshold, topK)
    {
      var result := EvaluateCase(input, i, threshold, topK);
      if result.None? {
        OneFails(input, i, |input.cases|, threshold, topK);
        return None;
      }
      all := all + [result.value];
    }
    return Some(all);
  }

  // ---- aggregate_metrics ---------------------------------------------------------------------

  function Count(results: seq<Result>, b: Behavior): nat {
    if results == [] then 0
    else Count(results[..|results| - 1], b) + (if results[|results| - 1].behavior == b then 1 else 0)
  }

  function Found(results: seq<Result>, b: Behavior, limit: nat): nat {
    if results == [] then 0
    else
      var last := results[|results| - 1];
      Found(results[..|results| - 1], b, limit)
        + (if last.behavior == b && last.rank.Some? && last.rank.value <= limit then 1 else 0)
  }

  function ReciprocalRanks(results: seq<Result>): real {
    if results == [] then 0.0
    else
      var last := results[|results| - 1];
      ReciprocalRanks(results[..|results| - 1])
        + (if last.behavior.RetrieveEvidence? && last.rank.Some? && last.rank.value > 0
           then 1.0 / last.rank.value as real else 0.0)
  }

  function Rejected(results: seq<Result>): nat {
    if results == [] then 0
    else
      var last := results[|results| - 1];
      Rejected(results[..|results| - 1])
          + (if last.behavior.InsufficientEvidence? && last.retrieved == [] then 1 else 0)
  }

  predicate Measurable(results: seq<Result>) {
    Count(results, RetrieveEvidence) > 0 && Count(results, InsufficientEvidence) > 0
  }

  function RecallAt(results: seq<Result>, limit: nat): real
    requires Measurable(results)
  {
    Found(results, RetrieveEvidence, limit) as real / Count(results, RetrieveEvidence) as real
  }

  function Mrr(results: seq<Result>): real
    requires Measurable(results)
  {
    ReciprocalRanks(results) / Count(results, RetrieveEvidence) as real
  }

  function Rejection(results: seq<Result>): real
    requires Measurable(results)
  {
    Rejected(results) as real / Count(results, InsufficientEvidence) as real
  }

  // What the metrics measure: all positives found within the limit, all negatives left empty.
  lemma {:induction false} FullMarks(results: seq<Result>, b: Behavior, limit: nat)
    ensures Found(results, b, limit) <= Count(results, b) && Rejected(results) <= Count(results, InsufficientEvidence)
    ensures Found(results, b, limit) == Count(results, b) <==>
              forall i | 0 <= i < |results| && results[i].behavior == b ::
                  results[i].rank.Some? && results[i].rank.value <= limit
    ensures Rejected(results) == Count(results, InsufficientEvidence) <==>
              forall i | 0 <= i < |results| && results[i].behavior.InsufficientEvidence? :: results[i].retrieved == []
  {
    if results != [] {
      var n := |results| - 1;
      FullMarks(results[..n], b, limit);
      assert forall i | 0 <= i < n :: results[..n][i] == results[i];
    }
  }

  function CasesOf(results: seq<Result>, b: Behavior): set<nat> {
    set i | 0 <= i < |results| && results[i].behavior == b
  }

  function FoundCases(results: seq<Result>, b: Behavior, limit: nat): set<nat> {
    set i | 0 <= i < |results| && results[i].behavior == b && results[i].rank.Some? && results[i].rank.value <= limit
  }

  function EmptyCases(results: seq<Result>, b: Behavior): set<nat> {
    set i | 0 <= i < |results| && results[i].behavior == b && results[i].retrieved == []
  }

  // The counts are numbers of cases.
  lemma {:induction false} CountIsOfCases(results: seq<Result>, b: Behavior)
    ensures Count(results, b) == |CasesOf(results, b)|
  {
    if results != [] {
      var n := |results| - 1;
      CountIsOfCases(results[..n], b);
      assert CasesOf(results, b) == CasesOf(results[..n], b) + if results[n].behavior == b then {n} else {};
    }
  }

  lemma {:induction false} FoundIsOfCases(results: seq<Result>, b: Behavior, limit: nat)
    ensures Found(results, b, limit) == |FoundCases(results, b, limit)|
  {
    if results != [] {
      var n := |results| - 1;
      FoundIsOfCases(results[..n], b, limit);
      assert FoundCases(results, b, limit) == FoundCases(results[..n], b, limit)
          + if results[n].behavior == b && results[n].rank.Some? && results[n].rank.value <= limit then {n} else {};
    }
  }

  lemma {:induction false} RejectedIsOfCases(results: seq<Result>)
    ensures Rejected(results) == |EmptyCases(results, InsufficientEvidence)|
  {
    if results != [] {
      var n := |results| - 1;
      RejectedIsOfCases(results[..n]);
      assert EmptyCases(results, InsufficientEvidence) == EmptyCases(results[..n], InsufficientEvidence)
          + if results[n].behavior == InsufficientEvidence && results[n].retrieved == [] then {n} else {};
    }
  }

  // A positive case that is found at rank r instead of not at all is worth exactly 1 / r, and nothing
  // found is worth nothing.
  lemma {:induction false} RankIsWorth(results: seq<Result>, i: nat, r: nat)
    requires i < |results| && results[i].behavior == RetrieveEvidence && results[i].rank.None? && r >= 1
    ensures ReciprocalRanks(results[i := results[i].(rank := Some(r))]) == ReciprocalRanks(results) + 1.0 / r as real
  {
    var n := |results| - 1;
    var better := results[i := results[i].(rank := Some(r))];
    if i < n {
      RankIsWorth(results[..n], i, r);
      assert better[..n] == results[..n][i := results[i].(rank := Some(r))];
    } else {
      assert better[..n] == results[..n];
    }
  }

  lemma {:induction false} NothingFoundIsWorthNothing(results: seq<Result>)
    requires forall i | 0 <= i < |results| && results[i].behavior == RetrieveEvidence :: results[i].rank.None?
    ensures ReciprocalRanks(results) == 0.0
  {
    if results != [] {
      NothingFoundIsWorthNothing(results[..|results| - 1]);
      assert results[|results| - 1].behavior == RetrieveEvidence ==> results[|results| - 1].rank.None?;
    }
  }

  // The reciprocal ranks lie between the hits at 1 and the recall within any limit above all ranks.
  lemma {:induction false} RanksBetween(results: seq<Result>, limit: nat)
    requires forall i | 0 <= i < |results| && results[i].rank.Some? :: 1 <= results[i].rank.value <= limit
    ensures Found(results, RetrieveEvidence, 1) as real <= ReciprocalRanks(results)
        <= Found(results, RetrieveEvidence, limit) as real
  {
    if results != [] {
      RanksBetween(results[..|results| - 1], limit);
      var last := results[|results| - 1];
      if last.rank.Some? {
        assert 1.0 / last.rank.value as real <= 1.0;
      }
    }
  }

  // hit@1 <= MRR <= recall@k
  lemma MrrIsBetween(input: Input, threshold: real, k: nat)
    requires Matches(input) && Measurable(Results(input, |input.cases|, threshold, k))
    ensures var results := Results(input, |input.cases|, threshold, k);
            RecallAt(results, 1) <= Mrr(results) <= RecallAt(results, k)
  {
    var results := Results(input, |input.cases|, threshold, k);
    forall i | 0 <= i < |results| && results[i].rank.Some? ensures 1 <= results[i].rank.value <= k {
      ResultAt(input, |input.cases|, threshold, k, i);
    }
    RanksBetween(results, k);
    Divided(Found(results, RetrieveEvidence, 1) as real, ReciprocalRanks(results),
        Count(results, RetrieveEvidence) as real);
    Divided(ReciprocalRanks(results), Found(results, RetrieveEvidence, k) as real,
        Count(results, RetrieveEvidence) as real);
  }

  // ---- monotonicity --------------------------------------------------------------------------

  lemma {:induction false} RankOfPrefix(c: Case, short: seq<Candidate>, long: seq<Candidate>)
    requires short <= long
    ensures Rank(c, short).Some? ==> Rank(c, long) == Rank(c, short)
    ensures Rank(c, long).Some? && Rank(c, short).None? ==> Rank(c, long).value > |short|
  {
    if short != [] && !Relevant(c, short[0]) {
      RankOfPrefix(c, short[1..], long[1..]);
    }
  }

  // How one case fares at a higher threshold
  ghost predicate NoBetter(high: Result, low: Result) {
    && high.behavior == low.behavior
    && (high.rank.Some? ==> low.rank == high.rank)
    && (low.retrieved == [] ==> high.retrieved == [])
  }

  lemma CaseNoBetter(input: Input, i: nat, low: real, high: real, k: nat)
    requires Matches(input) && i < |input.cases| && 0.0 < low <= high
    ensures NoBetter(ResultOf(input, i, high, k), ResultOf(input, i, low, k))
  {
    var c := input.cases[i];
    var scoped := Scoped(input.chunks, input.embeddings, c, input.queries[i]);
    SquaresRise(low, high);
    HigherRetrievesAPrefix(scoped, Times(low, low), Times(high, high), k);
    RankOfPrefix(c, Retrieved(scoped, Times(high, high), k), Retrieved(scoped, Times(low, low), k));
  }

  lemma SquaresRise(low: real, high: real)
    requires 0.0 < low <= high
    ensures Times(low, low) <= Times(high, high)
  {
    if low < high {
      SquareLess(low, high);
    }
  }

  ghost predicate AllNoBetter(high: seq<Result>, low: seq<Result>) {
    |high| == |low| && forall i | 0 <= i < |high| :: NoBetter(high[i], low[i])
  }

  lemma {:induction false} CountsNoBetter(high: seq<Result>, low: seq<Result>, b: Behavior, limit: nat)
    requires AllNoBetter(high, low)
    ensures Count(high, b) == Count(low, b)
    ensures Found(high, b, limit) <= Found(low, b, limit)
    ensures Rejected(high) >= Rejected(low)
  {
    if high != [] {
      CountsNoBetter(high[..|high| - 1], low[..|low| - 1], b, limit);
      assert NoBetter(high[|high| - 1], low[|low| - 1]);
    }
  }

  lemma {:induction false} RanksNoBetter(high: seq<Result>, low: seq<Result>)
    requires AllNoBetter(high, low)
    ensures ReciprocalRanks(high) <= ReciprocalRanks(low)
  {
    if high != [] {
      RanksNoBetter(high[..|high| - 1], low[..|low| - 1]);
      assert NoBetter(high[|high| - 1], low[|low| - 1]);
    }
  }

  // Over any case set, recall and MRR never rise with the threshold, and rejection never falls.
  lemma MetricsAreMonotone(input: Input, low: real, high: real, k: nat, limit: nat)
    requires Matches(input) && 0.0 < low <= high && Measurable(Results(input, |input.cases|, low, k))
    ensures Measurable(Results(input, |input.cases|, high, k))
    ensures var h := Results(input, |input.cases|, high, k); var l := Results(input, |input.cases|, low, k);
            && RecallAt(h, limit) <= RecallAt(l, limit)
            && Mrr(h) <= Mrr(l)
            && Rejection(h) >= Rejection(l)
            && Found(h, PartialEvidence, limit) <= Found(l, PartialEvidence, limit)
  {
    var h, l := Results(input, |input.cases|, high, k), Results(input, |input.cases|, low, k);
    forall i | 0 <= i < |h| ensures NoBetter(h[i], l[i]) {
      ResultAt(input, |input.cases|, high, k, i);
      ResultAt(input, |input.cases|, low, k, i);
      CaseNoBetter(input, i, low, high, k);
    }
    CountsNoBetter(h, l, RetrieveEvidence, limit);
    CountsNoBetter(h, l, InsufficientEvidence, limit);
    CountsNoBetter(h, l, PartialEvidence, limit);
    RanksNoBetter(h, l);
    Divided(Found(h, RetrieveEvidence, limit) as real, Found(l, RetrieveEvidence, limit) as real,
        Count(l, RetrieveEvidence) as real);
    Divided(ReciprocalRanks(h), ReciprocalRanks(l), Count(l, RetrieveEvidence) as real);
    Divided(Rejected(l) as real, Rejected(h) as real, Count(l, InsufficientEvidence) as real);
  }

  lemma Divided(a: real, b: real, n: real)
    requires a <= b && n > 0.0
    ensures a / n <= b / n
  {
  }
}
