/**
 * The ranking step of the `match-offers` handler: every fetched offer is annotated with its
 * match score and reasons, offers below the minimum score are dropped, the rest are sorted by
 * score, highest first, and the first `limit` are returned.
 */
module MatchRanking {
  import opened Wrappers
  import opened Lists
  import opened StableSort
  import opened MatchOffers

  /** The `limit` query parameter when it is absent. */
  const DefaultLimit := 10

  /** The `min_score` query parameter when it is absent. */
  const DefaultMinScore := 50

  /** An offer with `score_matching` and `raisons_matching` attached. */
  datatype MatchedOffer = MatchedOffer(offre: Offer, score: int, raisons: seq<Reason>)

  function ScoreOf(m: MatchedOffer): int { m.score }

  /** The `map` step: the offer with its own score and reasons. */
  function Annotate(c: Candidate, o: Offer): MatchedOffer {
    MatchedOffer(o, MatchScore(c, o), MatchReasons(c, o))
  }

  /** An annotation that belongs to its offer. */
  predicate Annotated(c: Candidate, m: MatchedOffer) {
    m.score == MatchScore(c, m.offre) && m.raisons == MatchReasons(c, m.offre)
  }

  /** The `map` and `filter` steps: the annotated offers scoring at least `minScore`, in input order. */
  function Qualifying(c: Candidate, offres: seq<Offer>, minScore: int): seq<MatchedOffer> {
    Filter(Map(offres, (o: Offer) => Annotate(c, o)), (m: MatchedOffer) => m.score >= minScore)
  }

  /**
   * The whole pipeline. A missing offer list counts as empty, and a missing `limit` or
   * `min_score` takes its default.
   */
  function RankOffers(c: Candidate, offres: Option<seq<Offer>>, limit: Option<int>, minScore: Option<int>)
    : seq<MatchedOffer>
  {
    Take(SortDesc(Qualifying(c, offres.GetOr([]), minScore.GetOr(DefaultMinScore)), ScoreOf),
         limit.GetOr(DefaultLimit))
  }

  /**
   * Every qualifying offer is annotated, comes from the input, and reaches the minimum; and
   * every input offer that reaches the minimum qualifies.
   */
  lemma QualifyingSpec(c: Candidate, offres: seq<Offer>, minScore: int)
    ensures forall m :: m in Qualifying(c, offres, minScore) ==>
              Annotated(c, m) && m.offre in offres && m.score >= minScore
    ensures forall o :: o in offres && MatchScore(c, o) >= minScore ==>
              Annotate(c, o) in Qualifying(c, offres, minScore)
  {
    var annotate := (o: Offer) => Annotate(c, o);
    var reaches := (m: MatchedOffer) => m.score >= minScore;
    forall m | m in Filter(Map(offres, annotate), reaches)
      ensures Annotated(c, m) && m.offre in offres && m.score >= minScore
    {
      FilterMapSource(offres, annotate, reaches, m);
      var k :| 0 <= k < |offres| && m == annotate(offres[k]);
      AnnotateSpec(c, offres[k]);
    }
    forall o | o in offres && MatchScore(c, o) >= minScore
      ensures Annotate(c, o) in Filter(Map(offres, annotate), reaches)
    {
      var k :| 0 <= k < |offres| && offres[k] == o;
      assert Map(offres, annotate)[k] == annotate(o);
      FilterKeeps(Map(offres, annotate), reaches, annotate(o));
    }
  }

  /** An offer's annotation carries the offer and belongs to it. */
  lemma AnnotateSpec(c: Candidate, o: Offer)
    ensures Annotate(c, o).offre == o && Annotated(c, Annotate(c, o))
  {
  }

  /** The offers that reach the minimum, sorted and cut to `limit`, are the ones returned. */
  lemma RankedIsSortedPrefix(c: Candidate, offres: Option<seq<Offer>>, limit: Option<int>, minScore: Option<int>)
    ensures var q := Qualifying(c, offres.GetOr([]), minScore.GetOr(DefaultMinScore));
            var r := RankOffers(c, offres, limit, minScore);
            r == SortDesc(q, ScoreOf)[..|r|]
  {
  }

  /**
   * What the handler promises: every returned offer comes from the input with its own score and
   * reasons and scores at least `minScore` (50 by default); scores never increase down the list.
   */
  lemma RankedOffersSpec(c: Candidate, offres: Option<seq<Offer>>, limit: Option<int>, minScore: Option<int>)
    ensures var r := RankOffers(c, offres, limit, minScore);
            && SortedDesc(r, ScoreOf)
            && forall k :: 0 <= k < |r| ==>
                 Annotated(c, r[k]) && r[k].offre in offres.GetOr([])
                 && r[k].score >= minScore.GetOr(DefaultMinScore)
  {
    var ms := minScore.GetOr(DefaultMinScore);
    var q := Qualifying(c, offres.GetOr([]), ms);
    var s := SortDesc(q, ScoreOf);
    var r := RankOffers(c, offres, limit, minScore);
    RankedIsSortedPrefix(c, offres, limit, minScore);
    SortedPrefix(s, |r|, ScoreOf);
    QualifyingSpec(c, offres.GetOr([]), ms);
    forall k | 0 <= k < |r|
      ensures Annotated(c, r[k]) && r[k].offre in offres.GetOr([]) && r[k].score >= ms
    {
      assert r[k] in multiset(s);
    }
  }

  /**
   * At most `limit` offers (10 by default) are returned: exactly `limit` when enough offers
   * qualify, all of them otherwise. A negative `limit` drops that many from the end, as `slice`
   * does.
   */
  lemma RankedLength(c: Candidate, offres: Option<seq<Offer>>, limit: Option<int>, minScore: Option<int>)
    ensures var n := |Qualifying(c, offres.GetOr([]), minScore.GetOr(DefaultMinScore))|;
            var lim := limit.GetOr(DefaultLimit);
            |RankOffers(c, offres, limit, minScore)|
              == if lim >= 0 then (if lim < n then lim else n) else (if -lim < n then n + lim else 0)
  {
  }

  /**
   * The returned offers are the best ones: together with the qualifying offers left out they
   * make up all qualifying offers, and none left out scores higher than one returned.
   */
  lemma RankedAreBest(c: Candidate, offres: Option<seq<Offer>>, limit: Option<int>, minScore: Option<int>)
    ensures var q := Qualifying(c, offres.GetOr([]), minScore.GetOr(DefaultMinScore));
            var r := RankOffers(c, offres, limit, minScore);
            var rest := SortDesc(q, ScoreOf)[|r|..];
            && multiset(r) + multiset(rest) == multiset(q)
            && forall i, j :: 0 <= i < |r| && 0 <= j < |rest| ==> rest[j].score <= r[i].score
  {
    var q := Qualifying(c, offres.GetOr([]), minScore.GetOr(DefaultMinScore));
    var r := RankOffers(c, offres, limit, minScore);
    RankedIsSortedPrefix(c, offres, limit, minScore);
    SortedPrefix(SortDesc(q, ScoreOf), |r|, ScoreOf);
  }

  /**
   * Ties keep the input order: among the offers with one score, the returned ones followed by
   * the ones left out are the qualifying ones in the order the offers came in.
   */
  lemma RankedTiesInInputOrder(c: Candidate, offres: Option<seq<Offer>>, limit: Option<int>,
                               minScore: Option<int>, score: int)
    ensures var q := Qualifying(c, offres.GetOr([]), minScore.GetOr(DefaultMinScore));
            var r := RankOffers(c, offres, limit, minScore);
            WithKey(r, ScoreOf, score) + WithKey(SortDesc(q, ScoreOf)[|r|..], ScoreOf, score)
              == WithKey(q, ScoreOf, score)
  {
    TakeSortedTies(Qualifying(c, offres.GetOr([]), minScore.GetOr(DefaultMinScore)), limit.GetOr(DefaultLimit), score);
  }

  /** Cutting a stable sort after any number of entries splits each score's entries in input order. */
  lemma TakeSortedTies(q: seq<MatchedOffer>, lim: int, score: int)
    ensures var s := SortDesc(q, ScoreOf);
            var r := Take(s, lim);
            WithKey(r, ScoreOf, score) + WithKey(s[|r|..], ScoreOf, score) == WithKey(q, ScoreOf, score)
  {
    var s := SortDesc(q, ScoreOf);
    var r := Take(s, lim);
    assert s == r + s[|r|..];
    WithKeyAppend(r, s[|r|..], ScoreOf, score);
    SortDescStable(q, ScoreOf, score);
  }
}
