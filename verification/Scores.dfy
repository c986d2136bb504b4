// Normalising the scores of an interview evaluation so that the evaluation's own validator accepts
// them.
module Scores {
  import opened Jobs

  // The evaluation categories by their place in the canonical order: question understanding and fit,
  // answer structure, specificity and evidence, job fit and problem solving, delivery and attitude
  const COUNT := 5
  type Category = c: nat | c < COUNT

  type Points = n: nat | n in {4, 8, 12, 16, 20} witness 4

  datatype Score = Score(category: Category, points: Points, strength: Option<string>, remarks: string)

  datatype Status = Complete | Partial | Unscored

  datatype Evaluation = Evaluation(status: Status, overall: Option<nat>, scores: seq<Score>, missing: seq<Category>)

  // ---- the validator -------------------------------------------------------------------------

  function CategoriesOf(scores: seq<Score>): seq<Category> {
    if scores == [] then [] else CategoriesOf(scores[..|scores| - 1]) + [scores[|scores| - 1].category]
  }

  function Total(scores: seq<Score>): nat {
    if scores == [] then 0 else Total(scores[..|scores| - 1]) + scores[|scores| - 1].points
  }

  // The categories among the first n that are not in the list
  function MissingFrom(present: seq<Category>, n: nat): seq<Category>
    requires n <= COUNT
  {
    if n == 0 then []
    else MissingFrom(present, n - 1) + (if n - 1 in present then [] else [n - 1])
  }

  predicate Distinct(categories: seq<Category>) {
    forall i, j | 0 <= i < j < |categories| :: categories[i] != categories[j]
  }

  // validate_derived_fields, and the range declared for the overall score
  predicate Valid(e: Evaluation) {
    var present := CategoriesOf(e.scores);
    var missing := MissingFrom(present, COUNT);
    && Distinct(present)
    && e.missing == missing
    && e.status == (if e.scores == [] then Unscored else if missing != [] then Partial else Complete)
    && e.overall == (if missing == [] then Some(Total(e.scores)) else None)
    && (e.overall.Some? ==> 5 <= e.overall.value <= 100)
  }

  // ---- what is kept --------------------------------------------------------------------------

  // The first of the lowest scores of a category
  function Lowest(scores: seq<Score>, c: Category): (kept: Option<Score>)
    ensures kept.Some? ==> kept.value.category == c
  {
    if scores == [] then None
    else
      var before := Lowest(scores[..|scores| - 1], c);
      var last := scores[|scores| - 1];
      if last.category == c && (before.None? || last.points < before.value.points) then Some(last) else before
  }

  // A strength is only kept with a high score.
  function Earned(score: Score): Score {
    if score.points >= 16 then score else score.(strength := None)
  }

  // What is kept for the first n categories, in canonical order
  function Kept(scores: seq<Score>, n: nat): seq<Score>
    requires n <= COUNT
  {
    if n == 0 then []
    else
      var lowest := Lowest(scores, n - 1);
      Kept(scores, n - 1) + (if lowest.Some? then [Earned(lowest.value)] else [])
  }

  // from_scores, as a loop over the scores and comprehensions over the categories
  method FromScores(scores: seq<Score>) returns (e: Evaluation)
    ensures e.scores == Kept(scores, COUNT)
    ensures Valid(e)
  {
    var normalized: map<Category, Score> := map[];
    for i := 0 to |scores|
      invariant forall c :: (c in normalized <==> Lowest(scores[..i], c).Some?)
                            && (c in normalized ==> normalized[c] == Lowest(scores[..i], c).value)
    {
      assert scores[..i + 1][..i] == scores[..i];
      var item := scores[i];
      if item.category !in normalized || item.points < normalized[item.category].points {
        normalized := normalized[item.category := item];
      }
    }
    assert scores[..|scores|] == scores;
    var kept: seq<Score> := [];
    for n := 0 to COUNT
      invariant kept == Kept(scores, n)
    {
      if n in normalized {
        var item := normalized[n];
        kept := kept + [if item.points >= 16 then item else item.(strength := None)];
      }
    }
    var present := CategoriesOf(kept);
    var missing := MissingFrom(present, COUNT);
    var status := if kept == [] then Unscored else if missing != [] then Partial else Complete;
    var overall := if status == Complete then Some(Total(kept)) else None;
    KeptIsCanonical(scores);
    e := Evaluation(status, overall, kept, missing);
  }

  // ---- the kept scores -----------------------------------------------------------------------

  lemma {:induction false} CategoriesAppend(scores: seq<Score>, s: Score)
    ensures CategoriesOf(scores + [s]) == CategoriesOf(scores) + [s.category]
    ensures Total(scores + [s]) == Total(scores) + s.points
  {
    assert (scores + [s])[..|scores|] == scores;
  }

  // The kept categories rise, so that they are distinct and in canonical order.
  ghost predicate Rising(categories: seq<Category>, n: nat) {
    && (forall i, j | 0 <= i < j < |categories| :: categories[i] < categories[j])
    && (forall i | 0 <= i < |categories| :: categories[i] < n)
  }

  lemma {:induction false} KeptRise(scores: seq<Score>, n: nat)
    requires n <= COUNT
    ensures Rising(CategoriesOf(Kept(scores, n)), n)
  {
    if n > 0 {
      KeptRise(scores, n - 1);
      OneCategoryMore(scores, n);
    }
  }

  lemma KeptOneMore(scores: seq<Score>, n: nat)
    requires 0 < n <= COUNT
    ensures Lowest(scores, n - 1).Some? ==>
              Kept(scores, n) == Kept(scores, n - 1) + [Earned(Lowest(scores, n - 1).value)]
    ensures Lowest(scores, n - 1).None? ==> Kept(scores, n) == Kept(scores, n - 1)
  {
  }

  lemma OneCategoryMore(scores: seq<Score>, n: nat)
    requires 0 < n <= COUNT
    ensures CategoriesOf(Kept(scores, n))
         == CategoriesOf(Kept(scores, n - 1)) + if Lowest(scores, n - 1).Some? then [n - 1] else []
  {
    KeptOneMore(scores, n);
    var before, lowest := Kept(scores, n - 1), Lowest(scores, n - 1);
    if lowest.Some? {
      CategoriesAppend(before, Earned(lowest.value));
    } else {
      assert CategoriesOf(before) + [] == CategoriesOf(before);
    }
  }

  lemma {:induction false} KeptCategory(scores: seq<Score>, n: nat, c: Category)
    requires n <= COUNT
    ensures c in CategoriesOf(Kept(scores, n)) <==> c < n && Lowest(scores, c).Some?
  {
    if n > 0 {
      var m := n - 1;
      KeptCategory(scores, m, c);
      OneCategoryMore(scores, n);
      Extended(CategoriesOf(Kept(scores, m)), CategoriesOf(Kept(scores, n)), m, Lowest(scores, m).Some?, c);
    }
  }

  lemma Extended(before: seq<Category>, after: seq<Category>, last: Category, added: bool, c: Category)
    requires after == before + if added then [last] else []
    ensures c in after <==> c in before || (added && c == last)
  {
    if added {
      assert after[|before|] == last;
    }
  }

  lemma {:induction false} KeptTotal(scores: seq<Score>, n: nat)
    requires n <= COUNT
    ensures 4 * |Kept(scores, n)| <= Total(Kept(scores, n)) <= 20 * |Kept(scores, n)|
    ensures |Kept(scores, n)| <= n
    ensures (forall c: Category | c < n :: Lowest(scores, c).Some?) ==> |Kept(scores, n)| == n
  {
    if n > 0 {
      KeptTotal(scores, n - 1);
      var lowest := Lowest(scores, n - 1);
      if lowest.Some? {
        CategoriesAppend(Kept(scores, n - 1), Earned(lowest.value));
      } else {
        assert Kept(scores, n) == Kept(scores, n - 1);
      }
    }
  }

  lemma {:induction false} MissingIs(present: seq<Category>, n: nat, c: Category)
    requires n <= COUNT
    ensures c in MissingFrom(present, n) <==> c < n && c !in present
  {
    if n > 0 {
      MissingIs(present, n - 1, c);
    }
  }

  lemma NoneMissing(present: seq<Category>)
    requires forall c: Category :: c in MissingFrom(present, COUNT) <==> c !in present
    ensures MissingFrom(present, COUNT) == [] <==> forall c: Category :: c in present
  {
    var missing := MissingFrom(present, COUNT);
    if missing != [] {
      assert missing[0] in missing;
    }
  }

  // There is a total exactly if every category is scored, and it lies between 20 and 100.
  lemma KeptIsCanonical(scores: seq<Score>)
    ensures var kept := Kept(scores, COUNT);
            var missing := MissingFrom(CategoriesOf(kept), COUNT);
            && Rising(CategoriesOf(kept), COUNT)
            && (forall c: Category :: c in missing <==> Lowest(scores, c).None?)
            && (missing == [] <==> forall c: Category :: Lowest(scores, c).Some?)
            && (missing == [] ==> kept != [] && 20 <= Total(kept) <= 100)
  {
    KeptRise(scores, COUNT);
    forall c: Category ensures c in CategoriesOf(Kept(scores, COUNT)) <==> Lowest(scores, c).Some? {
      KeptCategory(scores, COUNT, c);
    }
    KeptTotal(scores, COUNT);
    var present := CategoriesOf(Kept(scores, COUNT));
    forall c: Category ensures c in MissingFrom(present, COUNT) <==> c !in present {
      MissingIs(present, COUNT, c);
    }
    NoneMissing(present);
  }

  // ---- what normalising means ----------------------------------------------------------------

  lemma {:induction false} LowestIs(scores: seq<Score>, c: Category)
    ensures var lowest := Lowest(scores, c);
            && (lowest.Some? ==> exists i | 0 <= i < |scores| :: scores[i] == lowest.value)
            && (forall i | 0 <= i < |scores| && scores[i].category == c ::
                  lowest.Some? && lowest.value.points <= scores[i].points)
  {
    if scores != [] {
      var before := scores[..|scores| - 1];
      LowestIs(before, c);
      if Lowest(scores, c) == Lowest(before, c) && Lowest(before, c).Some? {
        var i :| 0 <= i < |before| && before[i] == Lowest(before, c).value;
        assert scores[i] == before[i];
      }
    }
  }

  // Only which scores there are matters for the points kept, not their order or number.
  ghost predicate Within(scores: seq<Score>, others: seq<Score>) {
    forall i | 0 <= i < |scores| :: scores[i] in others
  }

  lemma LowestNoHigher(scores: seq<Score>, others: seq<Score>, c: Category)
    requires Within(scores, others)
    ensures Lowest(scores, c).Some? ==>
              Lowest(others, c).Some? && Lowest(others, c).value.points <= Lowest(scores, c).value.points
  {
    LowestIs(scores, c);
    LowestIs(others, c);
    if Lowest(scores, c).Some? {
      var i :| 0 <= i < |scores| && scores[i] == Lowest(scores, c).value;
      assert scores[i] in others;
    }
  }

  function PointsOf(scores: seq<Score>): seq<(Category, Points)> {
    if scores == [] then []
    else PointsOf(scores[..|scores| - 1]) + [(scores[|scores| - 1].category, scores[|scores| - 1].points)]
  }

  lemma {:induction false} KeptIgnoresOrder(scores: seq<Score>, others: seq<Score>, n: nat)
    requires n <= COUNT && Within(scores, others) && Within(others, scores)
    ensures PointsOf(Kept(scores, n)) == PointsOf(Kept(others, n))
  {
    if n > 0 {
      KeptIgnoresOrder(scores, others, n - 1);
      LowestNoHigher(scores, others, n - 1);
      LowestNoHigher(others, scores, n - 1);
      var l, m := Lowest(scores, n - 1), Lowest(others, n - 1);
      if l.Some? {
        PointsAppend(Kept(scores, n - 1), Earned(l.value));
        PointsAppend(Kept(others, n - 1), Earned(m.value));
      } else {
        assert Kept(scores, n) == Kept(scores, n - 1) && Kept(others, n) == Kept(others, n - 1);
      }
    }
  }

  lemma PointsAppend(scores: seq<Score>, s: Score)
    ensures PointsOf(scores + [s]) == PointsOf(scores) + [(s.category, s.points)]
  {
    assert (scores + [s])[..|scores|] == scores;
  }

  // Normalising what was normalised changes nothing.
  lemma LowestAppend(scores: seq<Score>, s: Score, c: Category)
    requires Lowest(scores, s.category).None?
    ensures Lowest(scores + [s], c) == if s.category == c then Some(s) else Lowest(scores, c)
  {
    assert (scores + [s])[..|scores|] == scores;
  }

  lemma LowestOfNext(kept: seq<Score>, next: seq<Score>, lowest: Option<Score>, m: Category, c: Category)
    requires Lowest(kept, m).None? && (lowest.Some? ==> lowest.value.category == m)
    requires lowest.Some? ==> next == kept + [Earned(lowest.value)]
    requires lowest.None? ==> next == kept
    ensures Lowest(next, c) == if lowest.Some? && c == m then Some(Earned(lowest.value)) else Lowest(kept, c)
  {
    if lowest.Some? {
      LowestAppend(kept, Earned(lowest.value), c);
    }
  }

  lemma {:induction false} LowestOfKept(scores: seq<Score>, n: nat, c: Category)
    requires n <= COUNT
    ensures Lowest(Kept(scores, n), c)
         == if c < n && Lowest(scores, c).Some? then Some(Earned(Lowest(scores, c).value)) else None
  {
    if n > 0 {
      var m := n - 1;
      LowestOfKept(scores, m, c);
      LowestOfKept(scores, m, m);
      KeptOneMore(scores, n);
      LowestOfNext(Kept(scores, m), Kept(scores, n), Lowest(scores, m), m, c);
    }
  }

  function EarnedLowest(scores: seq<Score>, c: Category): Option<Score> {
    var lowest := Lowest(scores, c);
    if lowest.Some? then Some(Earned(lowest.value)) else None
  }

  lemma {:induction false} SameKept(scores: seq<Score>, kept: seq<Score>, n: nat)
    requires n <= COUNT && forall c: Category :: Lowest(kept, c) == EarnedLowest(scores, c)
    ensures Kept(kept, n) == Kept(scores, n)
  {
    if n > 0 {
      SameKept(scores, kept, n - 1);
    }
  }

  lemma KeptTwice(scores: seq<Score>)
    ensures Kept(Kept(scores, COUNT), COUNT) == Kept(scores, COUNT)
  {
    forall c: Category ensures Lowest(Kept(scores, COUNT), c) == EarnedLowest(scores, c) {
      LowestOfKept(scores, COUNT, c);
    }
    SameKept(scores, Kept(scores, COUNT), COUNT);
  }

  // Score i is the one to keep of its category: the first of the lowest.
  predicate IsFirstLowest(scores: seq<Score>, i: nat) {
    && i < |scores|
    && (forall k | 0 <= k < |scores| && scores[k].category == scores[i].category ::
          scores[i].points <= scores[k].points)
    && (forall k | 0 <= k < i && scores[k].category == scores[i].category :: scores[i].points < scores[k].points)
  }

  lemma {:induction false} LowestIsFirst(scores: seq<Score>, c: Category) returns (i: nat)
    requires Lowest(scores, c).Some?
    ensures IsFirstLowest(scores, i) && scores[i] == Lowest(scores, c).value
  {
    var n := |scores| - 1;
    var before := Lowest(scores[..n], c);
    LowestIs(scores[..n], c);
    if before.Some? && Lowest(scores, c) == before {
      i := LowestIsFirst(scores[..n], c);
      if scores[n].category == c && scores[n].points < before.value.points {
        i := n;
      }
    } else {
      i := n;
    }
    LowestIs(scores, c);
    assert scores[i].category == c;
    assert forall k | 0 <= k < n :: scores[..n][k] == scores[k];
  }

  // Each kept score is the first of the lowest given for its category, with its strength only from 16
  // points on; and every scored category is kept.
  lemma KeptAreTheLowest(scores: seq<Score>, c: Category) returns (i: nat)
    ensures var lowest := Lowest(Kept(scores, COUNT), c);
            && (lowest.None? <==> forall i | 0 <= i < |scores| :: scores[i].category != c)
            && (lowest.Some? ==>
                  && IsFirstLowest(scores, i) && scores[i].category == c
                  && lowest.value.category == c && lowest.value.points == scores[i].points
                  && lowest.value.remarks == scores[i].remarks
                  && lowest.value.strength == if scores[i].points < 16 then None else scores[i].strength)
  {
    LowestOfKept(scores, COUNT, c);
    LowestIs(scores, c);
    i := 0;
    if Lowest(scores, c).Some? {
      i := LowestIsFirst(scores, c);
    }
  }

  // ---- the evaluation ------------------------------------------------------------------------

  predicate IsScored(scores: seq<Score>, c: Category) {
    exists i | 0 <= i < |scores| :: scores[i].category == c
  }

  lemma {:induction false} MissingRises(present: seq<Category>, n: nat)
    requires n <= COUNT
    ensures Rising(MissingFrom(present, n), n)
  {
    if n > 0 {
      MissingRises(present, n - 1);
    }
  }

  lemma ScoredIff(scores: seq<Score>, c: Category)
    ensures Lowest(scores, c).Some? <==> IsScored(scores, c)
  {
    LowestIs(scores, c);
    if Lowest(scores, c).Some? {
      var i := LowestIsFirst(scores, c);
    }
  }

  // What an evaluation of these scores says, whatever they are: the categories without a score are missing,
  // in order; it is complete exactly if none is, and then the total is the sum of the five kept points; it
  // is unscored exactly if nothing was scored.
  lemma EvaluationSays(scores: seq<Score>, e: Evaluation)
    requires e.scores == Kept(scores, COUNT) && Valid(e)
    ensures Rising(e.missing, COUNT) && forall c: Category :: c in e.missing <==> !IsScored(scores, c)
    ensures e.status == Complete <==> forall c: Category :: IsScored(scores, c)
    ensures e.status == Unscored <==> scores == []
    ensures if e.status != Complete then e.overall == None
            else |e.scores| == 5 && e.overall == Some(e.scores[0].points + e.scores[1].points + e.scores[2].points
                                                      + e.scores[3].points + e.scores[4].points)
  {
    MissingAre(scores, e.missing);
    SomethingKept(scores);
    if e.missing == [] {
      AllFiveKept(scores);
      TotalOfFive(e.scores);
    } else {
      assert e.missing[0] in e.missing;
    }
  }

  lemma MissingAre(scores: seq<Score>, missing: seq<Category>)
    requires missing == MissingFrom(CategoriesOf(Kept(scores, COUNT)), COUNT)
    ensures Rising(missing, COUNT) && forall c: Category :: c in missing <==> !IsScored(scores, c)
  {
    KeptIsCanonical(scores);
    MissingRises(CategoriesOf(Kept(scores, COUNT)), COUNT);
    forall c: Category ensures c in missing <==> !IsScored(scores, c) {
      ScoredIff(scores, c);
    }
  }

  lemma AllFiveKept(scores: seq<Score>)
    requires MissingFrom(CategoriesOf(Kept(scores, COUNT)), COUNT) == []
    ensures |Kept(scores, COUNT)| == 5
  {
    KeptIsCanonical(scores);
    KeptTotal(scores, COUNT);
  }

  lemma {:induction false} NothingKept(n: nat)
    requires n <= COUNT
    ensures Kept([], n) == []
  {
    if n > 0 {
      NothingKept(n - 1);
    }
  }

  lemma SomethingKept(scores: seq<Score>)
    ensures Kept(scores, COUNT) == [] <==> scores == []
  {
    if scores != [] {
      var c := scores[0].category;
      ScoredIff(scores, c);
      KeptCategory(scores, COUNT, c);
    } else {
      NothingKept(COUNT);
    }
  }

  lemma TotalOfFive(scores: seq<Score>)
    requires |scores| == 5
    ensures Total(scores) == scores[0].points + scores[1].points + scores[2].points + scores[3].points
                             + scores[4].points
  {
    assert scores[..4] == scores[..3] + [scores[3]] && scores[..3] == scores[..2] + [scores[2]];
    assert scores == scores[..4] + [scores[4]];
    assert scores[..2] == [scores[0]] + [scores[1]] && [scores[0]] == [] + [scores[0]];
    CategoriesAppend(scores[..4], scores[4]);
    CategoriesAppend(scores[..3], scores[3]);
    CategoriesAppend(scores[..2], scores[2]);
    CategoriesAppend([scores[0]], scores[1]);
    CategoriesAppend([], scores[0]);
  }
}
