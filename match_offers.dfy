/**
 * The offer-matching edge function: the word-overlap title similarity, the five-factor match
 * score with its reasons, and the ranking of the active offers for one candidate.
 */
module MatchOffers {
  import opened Wrappers
  import opened Text
  import opened Lists
  import opened StableSort

  /** The candidate profile fields the scorer reads; a missing column is `None`. */
  datatype Candidate = Candidate(
    competencesTechniques: Option<string>,
    competencesAutres: Option<string>,
    metiersRecherches: Option<seq<string>>,
    communesRecherchees: Option<seq<string>>,
    typesContrat: Option<seq<string>>,
    secteursRecherches: Option<seq<string>>)

  /** The offer row fields the scorer reads; `titre` is always present. */
  datatype Offer = Offer(
    id: string,
    titre: string,
    lieu: Option<string>,
    ville: Option<string>,
    typeContrat: Option<string>,
    domaine: Option<string>,
    competencesRequises: Option<seq<string>>)

  /** One matching reason; `Render` gives the text the function returns. */
  datatype Reason =
    | SkillsMatched(count: nat)
    | SimilarTitle
    | LocationMatched(lieu: string)
    | FlexibleLocation
    | ContractAccepted(upper: string)
    | SectorMatched(domaine: string)

  function Render(r: Reason): string {
    match r
    case SkillsMatched(n) => NatToString(n) + " compétence(s) correspondante(s)"
    case SimilarTitle => "Poste similaire recherché"
    case LocationMatched(l) => "Localisation correspondante: " + l
    case FlexibleLocation => "Localisation flexible"
    case ContractAccepted(u) => u + " accepté"
    case SectorMatched(d) => "Secteur: " + d
  }

  /** Position of the factor that produces a reason: skills, title, location, contract, sector. */
  function FactorIndex(r: Reason): nat {
    match r
    case SkillsMatched(_) => 0
    case SimilarTitle => 1
    case LocationMatched(_) => 2
    case FlexibleLocation => 2
    case ContractAccepted(_) => 3
    case SectorMatched(_) => 4
  }

  /** Points earned by one factor and the reason it pushes, if any. */
  datatype Factor = Factor(points: real, reason: Option<Reason>)

  function MinReal(a: real, b: real): real { if a <= b then a else b }

  function MaxReal(a: real, b: real): real { if a >= b then a else b }

  /** A count over a larger positive count is a ratio in [0, 1]. */
  lemma RatioBounds(a: nat, n: nat)
    requires a <= n && n > 0
    ensures 0.0 <= a as real / n as real <= 1.0
  {
  }

  /** A count over a positive count is non-negative, and at least 1 when the count is larger. */
  lemma RatioFacts(m: nat, n: nat)
    requires n > 0
    ensures 0.0 <= m as real / n as real
    ensures m >= n ==> m as real / n as real >= 1.0
  {
  }

  /** `Math.round` on a non-negative number: the nearest integer, halves rounded up. */
  function Round(x: real): (r: int)
    ensures r as real <= x + 0.5 < r as real + 1.0
  {
    (x + 0.5).Floor
  }

  /** `a.includes(b) || b.includes(a)`. */
  predicate Overlap(a: string, b: string) {
    Contains(a, b) || Contains(b, a)
  }

  /** `ws.some(w2 => w2.includes(w) || w.includes(w2))`. */
  predicate OverlapsSome(w: string, ws: seq<string>) {
    exists k :: 0 <= k < |ws| && Overlap(ws[k], w)
  }

  /**
   * `ws1.filter(w => ws2.some(w2 => w2.includes(w) || w.includes(w2)))`: the words of `ws1`
   * that overlap some word of `ws2`, in order.
   */
  function CommonWords(ws1: seq<string>, ws2: seq<string>): (r: seq<string>)
    ensures |r| <= |ws1|
  {
    if ws1 == [] then []
    else (if OverlapsSome(ws1[0], ws2) then [ws1[0]] else []) + CommonWords(ws1[1..], ws2)
  }

  /** The normalised form `similarity` compares: lower-cased, then trimmed. */
  function Normalize(s: string): string {
    Trim(Lower(s))
  }

  /**
   * `similarity(s1, s2)`: 0 when either text is empty, 1 when both normalise to the same text,
   * otherwise the number of words of the first text that overlap a word of the second, divided by
   * the larger of the two word counts.
   */
  function Similarity(s1: string, s2: string): (r: real)
    ensures 0.0 <= r <= 1.0
    ensures s1 == "" || s2 == "" ==> r == 0.0
    ensures s1 != "" && s2 != "" && Normalize(s1) == Normalize(s2) ==> r == 1.0
  {
    if s1 == "" || s2 == "" then 0.0
    else
      var a := Normalize(s1);
      var b := Normalize(s2);
      if a == b then 1.0
      else
        var w1 := Words(a);
        var w2 := Words(b);
        var n := if |w1| >= |w2| then |w1| else |w2|;
        var common := CommonWords(w1, w2);
        RatioBounds(|common|, n);
        |common| as real / n as real
  }

  /** A title that is only white space normalises to "", whose one empty word overlaps any word. */
  lemma SimilarityOfBlank(s1: string, s2: string)
    requires s1 != "" && Normalize(s1) == "" && Normalize(s2) != ""
    ensures Similarity(s1, s2) == 1.0 / |Words(Normalize(s2))| as real
  {
    var w2 := Words(Normalize(s2));
    assert Words("") == [""];
    ContainsTrivial(w2[0]);
    assert OverlapsSome("", w2);
    assert CommonWords([""], w2) == [""];
  }

  /** The two texts of the asymmetry example are already normalised, with words "a" and "a", "a". */
  lemma NormalizedExample()
    ensures Normalize("a a") == "a a" && Words("a a") == ["a", "a"]
    ensures Normalize("a") == "a" && Words("a") == ["a"]
  {
    NormalizedPair();
    NormalizedSingle();
  }

  lemma NormalizedPair()
    ensures Normalize("a a") == "a a" && Words("a a") == ["a", "a"]
  {
    NormalizePair();
    WordsPair();
  }

  lemma NormalizePair()
    ensures Normalize("a a") == "a a"
  {
    LowerPair();
    TrimPair();
  }

  lemma LowerPair()
    ensures Lower("a a") == "a a"
  {
    LowerOfLower("a a");
  }

  lemma TrimPair()
    ensures Trim("a a") == "a a"
  {
    TrimOfTrimmed("a a");
  }

  lemma WordsPair()
    ensures Words("a a") == ["a", "a"]
  {
    WordsOfWord("a");
    WordsCons("a", ' ', "a");
    assert "a" + [' '] + "a" == "a a";
  }

  lemma NormalizedSingle()
    ensures Normalize("a") == "a" && Words("a") == ["a"]
  {
    LowerOfLower("a");
    WordsOfWord("a");
  }

  /** Similarity is not symmetric: only the words of the first text are counted. */
  lemma SimilarityNotSymmetric()
    ensures Similarity("a a", "a") == 1.0 && Similarity("a", "a a") == 0.5
  {
    SimilarityForward();
    SimilarityBackward();
  }

  lemma SimilarityForward()
    ensures Similarity("a a", "a") == 1.0
  {
    NormalizedExample();
    ContainsTrivial("a");
    assert OverlapsSome("a", ["a"]) by {
      assert Overlap(["a"][0], "a");
    }
    var ws: seq<string> := ["a", "a"];
    assert ws[1..] == ["a"];
    assert CommonWords(["a"], ["a"]) == ["a"];
    assert CommonWords(ws, ["a"]) == ["a", "a"];
  }

  lemma SimilarityBackward()
    ensures Similarity("a", "a a") == 0.5
  {
    NormalizedExample();
    ContainsTrivial("a");
    var ws: seq<string> := ["a", "a"];
    assert OverlapsSome("a", ws) by {
      assert Overlap(ws[0], "a");
    }
    assert CommonWords(["a"], ws) == ["a"];
  }

  /** `best = Math.max(best, x)` folded left to right over `xs`, starting from 0. */
  function MaxFold(xs: seq<real>): (r: real)
    ensures 0.0 <= r
    ensures forall k :: 0 <= k < |xs| ==> xs[k] <= r
    ensures r == 0.0 || exists k :: 0 <= k < |xs| && r == xs[k]
  {
    if xs == [] then 0.0
    else
      var init := xs[..|xs| - 1];
      assert forall k :: 0 <= k < |init| ==> init[k] == xs[k];
      MaxReal(MaxFold(init), xs[|xs| - 1])
  }

  /** The similarity of each desired title to the offer title, in list order. */
  function TitleSimilarities(ms: seq<string>, titre: string): (r: seq<real>)
    ensures |r| == |ms|
    ensures forall k :: 0 <= k < |r| ==> 0.0 <= r[k] <= 1.0
  {
    if ms == [] then []
    else TitleSimilarities(ms[..|ms| - 1], titre) + [Similarity(ms[|ms| - 1], titre)]
  }

  /** Entry `k` of `TitleSimilarities` is the similarity of the `k`-th desired title. */
  lemma {:induction false} TitleSimilarityAt(ms: seq<string>, titre: string, k: int)
    requires 0 <= k < |ms|
    ensures TitleSimilarities(ms, titre)[k] == Similarity(ms[k], titre)
  {
    var init := ms[..|ms| - 1];
    if k < |ms| - 1 {
      TitleSimilarityAt(init, titre, k);
      assert init[k] == ms[k];
    }
  }

  /** The best similarity of the desired titles to the offer title (0 with none). */
  function BestSimilarity(ms: seq<string>, titre: string): real {
    MaxFold(TitleSimilarities(ms, titre))
  }

  /** The best similarity is at least every title's similarity, and it is one of them or 0. */
  lemma BestSimilarityIsMax(ms: seq<string>, titre: string)
    ensures 0.0 <= BestSimilarity(ms, titre) <= 1.0
    ensures forall k :: 0 <= k < |ms| ==> Similarity(ms[k], titre) <= BestSimilarity(ms, titre)
    ensures BestSimilarity(ms, titre) == 0.0
         || exists k :: 0 <= k < |ms| && BestSimilarity(ms, titre) == Similarity(ms[k], titre)
  {
    var sims := TitleSimilarities(ms, titre);
    forall k | 0 <= k < |ms| ensures Similarity(ms[k], titre) <= BestSimilarity(ms, titre) {
      TitleSimilarityAt(ms, titre, k);
    }
    if BestSimilarity(ms, titre) != 0.0 {
      var k :| 0 <= k < |sims| && MaxFold(sims) == sims[k];
      TitleSimilarityAt(ms, titre, k);
    }
  }

  /** `s.trim().toLowerCase()`. */
  function SkillToken(s: string): string {
    Lower(Trim(s))
  }

  /** `candidat.x as string || ''` split on ',', each piece trimmed then lower-cased. */
  function SkillTokens(field: Option<string>): seq<string> {
    Map(Split(field.GetOr(""), ','), SkillToken)
  }

  /** Both candidate skill fields' tokens, empty ones dropped. */
  function CandidateSkills(c: Candidate): seq<string> {
    Filter(SkillTokens(c.competencesTechniques) + SkillTokens(c.competencesAutres), NonEmpty)
  }

  /** The offer's required skills, lower-cased. */
  function OfferSkills(o: Offer): seq<string> {
    Map(o.competencesRequises.GetOr([]), Lower)
  }

  /** The candidate tokens that overlap some required skill (the same filter as `CommonWords`). */
  function SkillMatches(cs: seq<string>, os: seq<string>): seq<string> {
    CommonWords(cs, os)
  }

  /** `Math.min((m / n) * 40, 40)`: 40 points in proportion to `m` out of `n`, capped at 40. */
  function SkillsPoints(m: nat, n: nat): (r: real)
    requires n > 0
    ensures 0.0 <= r <= 40.0
    ensures m >= n ==> r == 40.0
  {
    RatioFacts(m, n);
    MinReal(m as real / n as real * 40.0, 40.0)
  }

  /** Factor 1, skills: up to 40 points for the share of required skills matched. */
  function SkillsFactor(c: Candidate, o: Offer): Factor {
    var cs := CandidateSkills(c);
    var os := OfferSkills(o);
    if |cs| > 0 && |os| > 0 then
      var m := |SkillMatches(cs, os)|;
      Factor(SkillsPoints(m, |os|), if m > 0 then Some(SkillsMatched(m)) else None)
    else Factor(0.0, None)
  }

  /** Factor 2, title: 20 times the best similarity of a desired title to the offer title. */
  function TitleFactor(c: Candidate, o: Offer): Factor {
    var points := BestSimilarity(c.metiersRecherches.GetOr([]), o.titre) * 20.0;
    Factor(points, if points > 10.0 then Some(SimilarTitle) else None)
  }

  /** `a || b || ''` over two optional texts, where the empty text is falsy. */
  function FirstNonEmpty(a: Option<string>, b: Option<string>): string {
    if a.Some? && a.value != "" then a.value
    else if b.Some? && b.value != "" then b.value
    else ""
  }

  /** The offer's location as the scorer reads it: `lieu`, else `ville`, lower-cased. */
  function OfferPlace(o: Offer): string {
    Lower(FirstNonEmpty(o.lieu, o.ville))
  }

  /** Some desired commune, lower-cased, occurs in the offer's location. */
  predicate CommuneMatches(communes: seq<string>, place: string) {
    exists k :: 0 <= k < |communes| && Contains(place, Lower(communes[k]))
  }

  /** Factor 3, location: 15 for a commune match, else 10 when no commune is given. */
  function LocationFactor(c: Candidate, o: Offer): Factor {
    var communes := c.communesRecherchees.GetOr([]);
    var place := OfferPlace(o);
    if CommuneMatches(communes, place) then Factor(15.0, Some(LocationMatched(place)))
    else if |communes| == 0 then Factor(10.0, Some(FlexibleLocation))
    else Factor(0.0, None)
  }

  /** The offer's contract type, lower-cased. */
  function OfferContract(o: Offer): string {
    Lower(o.typeContrat.GetOr(""))
  }

  predicate ContractAcceptable(types: seq<string>, contract: string) {
    |types| == 0 || exists k :: 0 <= k < |types| && Contains(contract, Lower(types[k]))
  }

  /** Factor 4, contract: 15 when the contract type is accepted; a reason only for a named type. */
  function ContractFactor(c: Candidate, o: Offer): Factor {
    var tc := OfferContract(o);
    if ContractAcceptable(c.typesContrat.GetOr([]), tc) then
      Factor(15.0, if tc != "" then Some(ContractAccepted(Upper(tc))) else None)
    else Factor(0.0, None)
  }

  /** The offer's domain, lower-cased. */
  function OfferDomain(o: Offer): string {
    Lower(o.domaine.GetOr(""))
  }

  predicate SectorAcceptable(sectors: seq<string>, domain: string) {
    |sectors| == 0 || exists k :: 0 <= k < |sectors| && Overlap(domain, Lower(sectors[k]))
  }

  /** Factor 5, sector: 10 when the domain and a desired sector overlap; a reason only for a named domain. */
  function SectorFactor(c: Candidate, o: Offer): Factor {
    var dom := OfferDomain(o);
    if SectorAcceptable(c.secteursRecherches.GetOr([]), dom) then
      Factor(10.0, if dom != "" then Some(SectorMatched(dom)) else None)
    else Factor(0.0, None)
  }

  function Factors(c: Candidate, o: Offer): seq<Factor> {
    [SkillsFactor(c, o), TitleFactor(c, o), LocationFactor(c, o), ContractFactor(c, o), SectorFactor(c, o)]
  }

  /** The sum of the five factors' points. */
  function RawScore(c: Candidate, o: Offer): real {
    SkillsFactor(c, o).points + TitleFactor(c, o).points + LocationFactor(c, o).points
      + ContractFactor(c, o).points + SectorFactor(c, o).points
  }

  function ReasonOf(f: Factor): seq<Reason> {
    if f.reason.Some? then [f.reason.value] else []
  }

  /** The score `calculateMatchScore` returns. */
  function MatchScore(c: Candidate, o: Offer): int {
    Round(MinReal(RawScore(c, o), 100.0))
  }

  /** The reasons `calculateMatchScore` returns, in factor order. */
  function MatchReasons(c: Candidate, o: Offer): seq<Reason> {
    ReasonOf(SkillsFactor(c, o)) + ReasonOf(TitleFactor(c, o)) + ReasonOf(LocationFactor(c, o))
      + ReasonOf(ContractFactor(c, o)) + ReasonOf(SectorFactor(c, o))
  }

  /**
   * Skills: computed only when both token lists are non-empty; then at most 40, exactly 40 once
   * the matches reach the number of required skills, with a reason giving the match count iff
   * there is a match.
   */
  lemma SkillsFactorSpec(c: Candidate, o: Offer)
    ensures 0.0 <= SkillsFactor(c, o).points <= 40.0
    ensures |CandidateSkills(c)| == 0 || |OfferSkills(o)| == 0 ==> SkillsFactor(c, o) == Factor(0.0, None)
    ensures SkillsFactor(c, o).reason.Some?
        <==> |CandidateSkills(c)| > 0 && |OfferSkills(o)| > 0
             && |SkillMatches(CandidateSkills(c), OfferSkills(o))| > 0
    ensures SkillsFactor(c, o).reason.Some? ==>
              SkillsFactor(c, o).reason.value == SkillsMatched(|SkillMatches(CandidateSkills(c), OfferSkills(o))|)
    ensures var m := |SkillMatches(CandidateSkills(c), OfferSkills(o))|;
              |OfferSkills(o)| > 0 && m >= |OfferSkills(o)| ==> SkillsFactor(c, o).points == 40.0
  {
  }

  /**
   * Title: 20 times the similarity of the best desired title, so between 0 and 20, 0 without
   * desired titles, at least 20 times every title's similarity, with a reason iff above 10.
   */
  lemma TitleFactorSpec(c: Candidate, o: Offer)
    ensures 0.0 <= TitleFactor(c, o).points <= 20.0
    ensures c.metiersRecherches.GetOr([]) == [] ==> TitleFactor(c, o) == Factor(0.0, None)
    ensures forall k :: 0 <= k < |c.metiersRecherches.GetOr([])| ==>
              Similarity(c.metiersRecherches.GetOr([])[k], o.titre) * 20.0 <= TitleFactor(c, o).points
    ensures TitleFactor(c, o).reason.Some? <==> TitleFactor(c, o).points > 10.0
    ensures TitleFactor(c, o).reason.Some? ==> TitleFactor(c, o).reason.value == SimilarTitle
  {
    BestSimilarityIsMax(c.metiersRecherches.GetOr([]), o.titre);
  }

  /**
   * Location: 15 with the location reason iff a desired commune occurs in the offer's place;
   * otherwise 10 with "flexible" iff no commune is given; otherwise nothing.
   */
  lemma LocationFactorSpec(c: Candidate, o: Offer)
    ensures CommuneMatches(c.communesRecherchees.GetOr([]), OfferPlace(o))
        <==> LocationFactor(c, o) == Factor(15.0, Some(LocationMatched(OfferPlace(o))))
    ensures c.communesRecherchees.GetOr([]) == [] <==> LocationFactor(c, o) == Factor(10.0, Some(FlexibleLocation))
    ensures LocationFactor(c, o).points == 0.0 <==> LocationFactor(c, o).reason == None
    ensures LocationFactor(c, o).reason.Some? ==> FactorIndex(LocationFactor(c, o).reason.value) == 2
    ensures 0.0 <= LocationFactor(c, o).points <= 15.0
  {
  }

  /**
   * Contract: 15 iff no type is required or the offer's contract contains a required type, case
   * ignored; the reason, the contract type in capitals, iff the offer names its contract type.
   */
  lemma ContractFactorSpec(c: Candidate, o: Offer)
    ensures ContractFactor(c, o).points == (if ContractAcceptable(c.typesContrat.GetOr([]), OfferContract(o)) then 15.0 else 0.0)
    ensures ContractFactor(c, o).reason.Some?
        <==> ContractAcceptable(c.typesContrat.GetOr([]), OfferContract(o)) && OfferContract(o) != ""
    ensures ContractFactor(c, o).reason.Some? ==>
              ContractFactor(c, o).reason.value == ContractAccepted(Upper(OfferContract(o)))
    ensures 0.0 <= ContractFactor(c, o).points <= 15.0
  {
  }

  /**
   * Sector: 10 iff no sector is required or the domain and a required sector overlap; the
   * reason, naming the domain, iff the offer has a domain.
   */
  lemma SectorFactorSpec(c: Candidate, o: Offer)
    ensures SectorFactor(c, o).points == (if SectorAcceptable(c.secteursRecherches.GetOr([]), OfferDomain(o)) then 10.0 else 0.0)
    ensures SectorFactor(c, o).reason.Some?
        <==> SectorAcceptable(c.secteursRecherches.GetOr([]), OfferDomain(o)) && OfferDomain(o) != ""
    ensures SectorFactor(c, o).reason.Some? ==> SectorFactor(c, o).reason.value == SectorMatched(OfferDomain(o))
    ensures 0.0 <= SectorFactor(c, o).points <= 10.0
  {
  }

  /** Every text contains the empty text, so an offer without a domain always earns the 10 sector points, silently. */
  lemma EmptyDomainAlwaysAccepted(c: Candidate, o: Offer)
    requires o.domaine.GetOr("") == ""
    ensures SectorFactor(c, o) == Factor(10.0, None)
  {
    var sectors := c.secteursRecherches.GetOr([]);
    assert OfferDomain(o) == "";
    if sectors != [] {
      ContainsTrivial(Lower(sectors[0]));
      assert Overlap(OfferDomain(o), Lower(sectors[0]));
    }
  }

  /** The five caps add up to 100, so the raw sum is already within [0, 100]. */
  lemma RawScoreBounds(c: Candidate, o: Offer)
    ensures 0.0 <= RawScore(c, o) <= 100.0
  {
    SkillsFactorSpec(c, o);
    TitleFactorSpec(c, o);
    LocationFactorSpec(c, o);
    ContractFactorSpec(c, o);
    SectorFactorSpec(c, o);
  }

  /** The returned score is an integer between 0 and 100, the rounded raw sum. */
  lemma MatchScoreBounds(c: Candidate, o: Offer)
    ensures 0 <= MatchScore(c, o) <= 100
    ensures MatchScore(c, o) as real - 0.5 <= RawScore(c, o) < MatchScore(c, o) as real + 0.5
  {
    RawScoreBounds(c, o);
  }

  /** Factor indices strictly increase along the list. */
  predicate InFactorOrder(rs: seq<Reason>) {
    forall i, j :: 0 <= i < j < |rs| ==> FactorIndex(rs[i]) < FactorIndex(rs[j])
  }

  /** All reasons of `rs` come from factors before factor `k`. */
  predicate Below(rs: seq<Reason>, k: nat) {
    forall i :: 0 <= i < |rs| ==> FactorIndex(rs[i]) < k
  }

  /** Appending the reason of factor `k` to reasons of earlier factors keeps them in order. */
  lemma ReasonAppendOrdered(rs: seq<Reason>, f: Factor, k: nat)
    requires InFactorOrder(rs) && Below(rs, k) && |rs| <= k
    requires f.reason.Some? ==> FactorIndex(f.reason.value) == k
    ensures InFactorOrder(rs + ReasonOf(f)) && Below(rs + ReasonOf(f), k + 1)
    ensures |rs + ReasonOf(f)| <= k + 1
  {
    var r := rs + ReasonOf(f);
    forall i, j | 0 <= i < j < |r| ensures FactorIndex(r[i]) < FactorIndex(r[j]) {
      if j >= |rs| {
        assert r[i] == rs[i];
      } else {
        assert r[i] == rs[i] && r[j] == rs[j];
      }
    }
    forall i | 0 <= i < |r| ensures FactorIndex(r[i]) < k + 1 {
      if i < |rs| {
        assert r[i] == rs[i];
      }
    }
  }

  /** Five factors whose reasons carry their own positions list those reasons in order. */
  lemma FiveReasonsOrdered(f0: Factor, f1: Factor, f2: Factor, f3: Factor, f4: Factor)
    requires f0.reason.Some? ==> FactorIndex(f0.reason.value) == 0
    requires f1.reason.Some? ==> FactorIndex(f1.reason.value) == 1
    requires f2.reason.Some? ==> FactorIndex(f2.reason.value) == 2
    requires f3.reason.Some? ==> FactorIndex(f3.reason.value) == 3
    requires f4.reason.Some? ==> FactorIndex(f4.reason.value) == 4
    ensures var rs := ReasonOf(f0) + ReasonOf(f1) + ReasonOf(f2) + ReasonOf(f3) + ReasonOf(f4);
      InFactorOrder(rs) && |rs| <= 5
  {
    ReasonAppendOrdered([], f0, 0);
    assert [] + ReasonOf(f0) == ReasonOf(f0);
    var r1 := ReasonOf(f0) + ReasonOf(f1);
    ReasonAppendOrdered(ReasonOf(f0), f1, 1);
    var r2 := r1 + ReasonOf(f2);
    ReasonAppendOrdered(r1, f2, 2);
    var r3 := r2 + ReasonOf(f3);
    ReasonAppendOrdered(r2, f3, 3);
    ReasonAppendOrdered(r3, f4, 4);
  }

  /** The skills factor pushes only a skills reason. */
  lemma SkillsReasonIndex(c: Candidate, o: Offer)
    ensures SkillsFactor(c, o).reason.Some? ==> FactorIndex(SkillsFactor(c, o).reason.value) == 0
  {
  }

  /** The title factor pushes only a title reason. */
  lemma TitleReasonIndex(c: Candidate, o: Offer)
    ensures TitleFactor(c, o).reason.Some? ==> FactorIndex(TitleFactor(c, o).reason.value) == 1
  {
  }

  /** The location factor pushes only a location reason. */
  lemma LocationReasonIndex(c: Candidate, o: Offer)
    ensures LocationFactor(c, o).reason.Some? ==> FactorIndex(LocationFactor(c, o).reason.value) == 2
  {
  }

  /** The contract factor pushes only a contract reason. */
  lemma ContractReasonIndex(c: Candidate, o: Offer)
    ensures ContractFactor(c, o).reason.Some? ==> FactorIndex(ContractFactor(c, o).reason.value) == 3
  {
  }

  /** The sector factor pushes only a sector reason. */
  lemma SectorReasonIndex(c: Candidate, o: Offer)
    ensures SectorFactor(c, o).reason.Some? ==> FactorIndex(SectorFactor(c, o).reason.value) == 4
  {
  }

  /** The reasons come in the order skills, title, location, contract, sector, at most one each. */
  lemma MatchReasonsOrdered(c: Candidate, o: Offer)
    ensures InFactorOrder(MatchReasons(c, o))
    ensures |MatchReasons(c, o)| <= 5
  {
    SkillsReasonIndex(c, o);
    TitleReasonIndex(c, o);
    LocationReasonIndex(c, o);
    ContractReasonIndex(c, o);
    SectorReasonIndex(c, o);
    FiveReasonsOrdered(SkillsFactor(c, o), TitleFactor(c, o), LocationFactor(c, o),
                       ContractFactor(c, o), SectorFactor(c, o));
  }

  /** Adding a desired title takes the larger of the best so far and its similarity. */
  lemma BestSimilarityStep(ms: seq<string>, titre: string, i: int)
    requires 0 <= i < |ms|
    ensures BestSimilarity(ms[..i + 1], titre) == MaxReal(BestSimilarity(ms[..i], titre), Similarity(ms[i], titre))
  {
    var prefix := ms[..i + 1];
    assert prefix[..i] == ms[..i] && prefix[i] == ms[i];
    var sims := TitleSimilarities(prefix, titre);
    assert sims == TitleSimilarities(ms[..i], titre) + [Similarity(ms[i], titre)];
    assert sims[..|sims| - 1] == TitleSimilarities(ms[..i], titre);
  }

  /** The `for (const metier of metiersRecherches)` loop keeping the best similarity so far. */
  method BestMetierMatch(metiers: seq<string>, titre: string) returns (best: real)
    ensures best == BestSimilarity(metiers, titre)
  {
    best := 0.0;
    for i := 0 to |metiers|
      invariant best == BestSimilarity(metiers[..i], titre)
    {
      BestSimilarityStep(metiers, titre, i);
      var sim := Similarity(metiers[i], titre);
      best := MaxReal(best, sim);
    }
    assert metiers[..|metiers|] == metiers;
  }

  /** Step 1 of `calculateMatchScore`: the skills factor added to the running score and reasons. */
  method ScoreSkills(c: Candidate, o: Offer, total0: real, raisons0: seq<Reason>)
    returns (total: real, raisons: seq<Reason>)
    ensures total == total0 + SkillsFactor(c, o).points
    ensures raisons == raisons0 + ReasonOf(SkillsFactor(c, o))
  {
    total, raisons := total0, raisons0;
    var cs := CandidateSkills(c);
    var os := OfferSkills(o);
    if |cs| > 0 && |os| > 0 {
      var matches := SkillMatches(cs, os);
      var compScore := SkillsPoints(|matches|, |os|);
      total := total + compScore;
      if |matches| > 0 {
        raisons := raisons + [SkillsMatched(|matches|)];
      }
    }
  }

  /** Step 2: the best similarity of a desired title to the offer title, times 20. */
  method ScoreTitle(c: Candidate, o: Offer, total0: real, raisons0: seq<Reason>)
    returns (total: real, raisons: seq<Reason>)
    ensures total == total0 + TitleFactor(c, o).points
    ensures raisons == raisons0 + ReasonOf(TitleFactor(c, o))
  {
    total, raisons := total0, raisons0;
    var best := BestMetierMatch(c.metiersRecherches.GetOr([]), o.titre);
    var metierScore := best * 20.0;
    total := total + metierScore;
    if metierScore > 10.0 {
      raisons := raisons + [SimilarTitle];
    }
  }

  /** Step 3: a desired commune found in the offer's location, or no commune given. */
  method ScoreLocation(c: Candidate, o: Offer, total0: real, raisons0: seq<Reason>)
    returns (total: real, raisons: seq<Reason>)
    ensures total == total0 + LocationFactor(c, o).points
    ensures raisons == raisons0 + ReasonOf(LocationFactor(c, o))
  {
    total, raisons := total0, raisons0;
    var communes := c.communesRecherchees.GetOr([]);
    var place := OfferPlace(o);
    if CommuneMatches(communes, place) {
      total := total + 15.0;
      raisons := raisons + [LocationMatched(place)];
    } else if |communes| == 0 {
      total := total + 10.0;
      raisons := raisons + [FlexibleLocation];
    }
  }

  /** Step 4: the offer's contract type among the accepted ones, or none required. */
  method ScoreContract(c: Candidate, o: Offer, total0: real, raisons0: seq<Reason>)
    returns (total: real, raisons: seq<Reason>)
    ensures total == total0 + ContractFactor(c, o).points
    ensures raisons == raisons0 + ReasonOf(ContractFactor(c, o))
  {
    total, raisons := total0, raisons0;
    var tc := OfferContract(o);
    if ContractAcceptable(c.typesContrat.GetOr([]), tc) {
      total := total + 15.0;
      if tc != "" {
        raisons := raisons + [ContractAccepted(Upper(tc))];
      }
    }
  }

  /** Step 5: the offer's domain overlapping a desired sector, or none required. */
  method ScoreSector(c: Candidate, o: Offer, total0: real, raisons0: seq<Reason>)
    returns (total: real, raisons: seq<Reason>)
    ensures total == total0 + SectorFactor(c, o).points
    ensures raisons == raisons0 + ReasonOf(SectorFactor(c, o))
  {
    total, raisons := total0, raisons0;
    var dom := OfferDomain(o);
    if SectorAcceptable(c.secteursRecherches.GetOr([]), dom) {
      total := total + 10.0;
      if dom != "" {
        raisons := raisons + [SectorMatched(dom)];
      }
    }
  }

  /**
   * `calculateMatchScore`: the five factors added in turn to a score starting at 0 and to an
   * empty reason list, then the total capped at 100 and rounded.
   */
  method CalculateMatchScore(c: Candidate, o: Offer) returns (score: int, raisons: seq<Reason>)
    ensures score == MatchScore(c, o)
    ensures raisons == MatchReasons(c, o)
  {
    ghost var f0, f1, f2, f3, f4 :=
      SkillsFactor(c, o), TitleFactor(c, o), LocationFactor(c, o), ContractFactor(c, o), SectorFactor(c, o);
    var total := 0.0;
    raisons := [];
    total, raisons := ScoreSkills(c, o, total, raisons);
    assert total == f0.points && raisons == ReasonOf(f0);
    total, raisons := ScoreTitle(c, o, total, raisons);
    total, raisons := ScoreLocation(c, o, total, raisons);
    total, raisons := ScoreContract(c, o, total, raisons);
    total, raisons := ScoreSector(c, o, total, raisons);
    assert total == f0.points + f1.points + f2.points + f3.points + f4.points == RawScore(c, o);
    assert raisons == ReasonOf(f0) + ReasonOf(f1) + ReasonOf(f2) + ReasonOf(f3) + ReasonOf(f4);
    score := Round(MinReal(total, 100.0));
  }
}
