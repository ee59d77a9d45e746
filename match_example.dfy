/**
 * Worked examples of the match score: a candidate with no preferences at all, and a web
 * developer looking in Brussels matched against a full-stack developer offer.
 */
module MatchExample {
  import opened Wrappers
  import opened Text
  import opened Lists
  import opened MatchOffers

  /** A candidate row whose scored columns are all missing. */
  const NoProfile := Candidate(None, None, None, None, None, None)

  /** The tokens of a missing skills field: the one empty piece, trimmed and lower-cased. */
  lemma MissingSkillTokens()
    ensures SkillTokens(None) == [""]
  {
    assert Split("", ',') == [""];
    assert Trim("") == "";
    assert Lower("") == "";
  }

  /** Without skills there are no skill points. */
  lemma NoProfileSkills(o: Offer)
    ensures SkillsFactor(NoProfile, o) == Factor(0.0, None)
  {
    MissingSkillTokens();
    var ts := SkillTokens(None) + SkillTokens(None);
    assert ts == ["", ""];
    assert !NonEmpty(ts[0]) && ts[1..] == [""];
    assert Filter(ts[1..], NonEmpty) == [] by {
      assert ts[1..][1..] == [];
    }
    assert CandidateSkills(NoProfile) == [];
  }

  /** Without desired titles there are no title points. */
  lemma NoProfileTitle(o: Offer)
    ensures TitleFactor(NoProfile, o) == Factor(0.0, None)
  {
    TitleFactorSpec(NoProfile, o);
  }

  /** Without communes the location is flexible: 10 points. */
  lemma NoProfileLocation(o: Offer)
    ensures LocationFactor(NoProfile, o) == Factor(10.0, Some(FlexibleLocation))
  {
    LocationFactorSpec(NoProfile, o);
  }

  /**
   * Without preferences the candidate earns the flexible-location 10, the contract 15 and the
   * sector 10: every offer scores 35, with "flexible location" first among its reasons.
   */
  lemma NoProfileScore(o: Offer)
    ensures MatchScore(NoProfile, o) == 35
    ensures MatchReasons(NoProfile, o)
         == [FlexibleLocation]
          + (if OfferContract(o) != "" then [ContractAccepted(Upper(OfferContract(o)))] else [])
          + (if OfferDomain(o) != "" then [SectorMatched(OfferDomain(o))] else [])
  {
    NoProfileSkills(o);
    NoProfileTitle(o);
    NoProfileLocation(o);
    ContractFactorSpec(NoProfile, o);
    SectorFactorSpec(NoProfile, o);
    assert ContractFactor(NoProfile, o).points == 15.0;
    assert SectorFactor(NoProfile, o).points == 10.0;
    assert RawScore(NoProfile, o) == 35.0;
  }

  /**
   * Any pair whose five factors are those of the example in the design notes (a web developer
   * looking in Brussels against a full-stack developer offer there): no skill match, title
   * similarity 1/3, commune found, contract accepted, sector matched.
   */
  predicate HasExampleFactors(c: Candidate, o: Offer, place: Reason, contract: Reason, sector: Reason) {
    && SkillsFactor(c, o) == Factor(0.0, None)
    && TitleFactor(c, o) == Factor(20.0 / 3.0, None)
    && LocationFactor(c, o) == Factor(15.0, Some(place))
    && ContractFactor(c, o) == Factor(15.0, Some(contract))
    && SectorFactor(c, o) == Factor(10.0, Some(sector))
  }

  /** The factors add up to 0 + 20/3 + 15 + 15 + 10 = 140/3. */
  lemma ExampleRawScore(c: Candidate, o: Offer, place: Reason, contract: Reason, sector: Reason)
    requires HasExampleFactors(c, o, place, contract, sector)
    ensures RawScore(c, o) == 140.0 / 3.0
  {
  }

  /** 140/3 = 46.67, which rounds to 47. */
  lemma ExampleScore(c: Candidate, o: Offer, place: Reason, contract: Reason, sector: Reason)
    requires HasExampleFactors(c, o, place, contract, sector)
    ensures MatchScore(c, o) == 47
  {
    ExampleRawScore(c, o, place, contract, sector);
  }

  /** The location, contract and sector reasons in that order; no title reason below 10 points. */
  lemma ExampleReasons(c: Candidate, o: Offer, place: Reason, contract: Reason, sector: Reason)
    requires HasExampleFactors(c, o, place, contract, sector)
    ensures MatchReasons(c, o) == [place, contract, sector]
  {
    ThreeReasons(SkillsFactor(c, o), TitleFactor(c, o), LocationFactor(c, o), ContractFactor(c, o),
                 SectorFactor(c, o));
  }

  /** Two factors without a reason followed by three with one give those three reasons. */
  lemma ThreeReasons(f0: Factor, f1: Factor, f2: Factor, f3: Factor, f4: Factor)
    requires f0.reason.None? && f1.reason.None?
    requires f2.reason.Some? && f3.reason.Some? && f4.reason.Some?
    ensures ReasonOf(f0) + ReasonOf(f1) + ReasonOf(f2) + ReasonOf(f3) + ReasonOf(f4)
         == [f2.reason.value, f3.reason.value, f4.reason.value]
  {
  }

  /*
   * The example's texts are written as concatenations of short pieces, and each fact about them
   * is a lemma of its own, so that the verifier computes on a few characters at a time.
   */

  /** "Développeur", and the same word lower-cased. */
  const Developpeur := "Dév" + "elop" + "peur"
  const DeveloppeurLower := "dév" + "elop" + "peur"

  /** The candidate of the example: a web developer looking in Brussels, in IT. */
  const ExampleCandidate := Candidate(
    Some("Excel" + ", Word"), None, Some([Developpeur + " web"]), Some(["Bruxelles"]), None,
    Some(["Infor" + "matique" + " et IT"]))

  /** The offer of the example: a full-stack developer post in Brussels, on a CDI contract. */
  const ExampleOffer := Offer(
    "", Developpeur + " Full" + " Stack", Some("Bruxelles"), None, Some("CDI"),
    Some("Infor" + "matique"), Some(["Java" + "Script"]))

  /** A word whose only capital is its first letter is lower-cased by lowering that letter. */
  lemma LowerInitial(s: string, t: string)
    requires s != [] && NoUpper(s[1..]) && t == [LowerChar(s[0])] + s[1..]
    ensures Lower(s) == t
  {
    LowerCapitalized(s[0], s[1..]);
    assert [s[0]] + s[1..] == s;
  }

  /** The technical skills field cut at its comma. */
  lemma ExampleSkillPieces()
    ensures Split("Excel" + ", Word", ',') == ["Excel", " Word"]
  {
    SplitAppend("Excel", ',', " Word");
    assert "Excel" + [','] + " Word" == "Excel" + ", Word";
    SplitWithoutSep("Excel", ',');
    SplitWithoutSep(" Word", ',');
  }

  lemma ExcelToken()
    ensures SkillToken("Excel") == "excel"
  {
    TrimOfTrimmed("Excel");
    assert NoUpper("xcel") && "Excel"[1..] == "xcel";
    LowerInitial("Excel", "excel");
  }

  lemma TrimWord()
    ensures Trim(" Word") == "Word"
  {
    assert " Word"[1..] == "Word";
    assert TrimStart(" Word") == "Word";
    assert TrimEnd("Word") == "Word";
  }

  lemma WordToken()
    ensures SkillToken(" Word") == "word"
  {
    TrimWord();
    assert NoUpper("ord") && "Word"[1..] == "ord";
    LowerInitial("Word", "word");
  }

  /** The tokens of the technical skills field. */
  lemma ExampleSkillTokens()
    ensures SkillTokens(Some("Excel" + ", Word")) == ["excel", "word"]
  {
    ExampleSkillPieces();
    ExcelToken();
    WordToken();
  }

  /** The empty token of the missing field is dropped. */
  lemma NonEmptyTokens()
    ensures Filter(["excel", "word", ""], NonEmpty) == ["excel", "word"]
  {
    var ts: seq<string> := ["excel", "word", ""];
    assert ts[1..] == ["word", ""] && ts[1..][1..] == [""] && ts[1..][1..][1..] == [];
    assert Filter(ts[1..][1..], NonEmpty) == [];
    assert Filter(ts[1..], NonEmpty) == ["word"];
  }

  /** The candidate's skills: "Excel" and " Word", trimmed and lower-cased. */
  lemma ExampleCandidateSkills()
    ensures CandidateSkills(ExampleCandidate) == ["excel", "word"]
  {
    ExampleSkillTokens();
    MissingSkillTokens();
    assert ["excel", "word"] + [""] == ["excel", "word", ""];
    NonEmptyTokens();
  }

  lemma LowerJava()
    ensures Lower("Java") == "java"
  {
    assert NoUpper("ava") && "Java"[1..] == "ava";
    LowerInitial("Java", "java");
  }

  lemma LowerScript()
    ensures Lower("Script") == "script"
  {
    assert NoUpper("cript") && "Script"[1..] == "cript";
    LowerInitial("Script", "script");
  }

  /** The offer's one required skill, lower-cased. */
  lemma ExampleOfferSkills()
    ensures OfferSkills(ExampleOffer) == ["java" + "script"]
  {
    LowerAppend("Java", "Script");
    LowerJava();
    LowerScript();
  }

  /** A text that lacks the first letter of a shorter one neither contains it nor is contained in it. */
  lemma NotContainedFirst(s: string, t: string)
    requires t != [] && t[0] !in s && |t| < |s|
    ensures !Overlap(s, t)
  {
    if Contains(s, t) {
      ContainsNecessary(s, t);
    }
    if Contains(t, s) {
      ContainsNecessary(t, s);
    }
  }

  /** Neither "excel" nor "word" overlaps "javascript". */
  lemma ExampleSkillMatches()
    ensures SkillMatches(["excel", "word"], ["java" + "script"]) == []
  {
    var js := "java" + "script";
    assert 'e' !in js && 'w' !in js;
    NotContainedFirst(js, "excel");
    NotContainedFirst(js, "word");
    assert !OverlapsSome("excel", [js]);
    assert !OverlapsSome("word", [js]);
    var cs: seq<string> := ["excel", "word"];
    assert cs[1..] == ["word"] && cs[1..][1..] == [];
    assert CommonWords(cs[1..], [js]) == [];
  }

  /** No match out of one required skill is worth nothing. */
  lemma NoSkillPoints()
    ensures SkillsPoints(0, 1) == 0.0
  {
  }

  /** No skill points and no skills reason. */
  lemma ExampleSkillsFactor()
    ensures SkillsFactor(ExampleCandidate, ExampleOffer) == Factor(0.0, None)
  {
    ExampleCandidateSkills();
    ExampleOfferSkills();
    ExampleSkillMatches();
    NoSkillPoints();
  }

  lemma LowerDev()
    ensures Lower("Dév") == "dév"
  {
  }

  lemma LowerElop()
    ensures Lower("elop") == "elop"
  {
  }

  lemma LowerPeur()
    ensures Lower("peur") == "peur"
  {
  }

  lemma LowerDeveloppeur()
    ensures Lower(Developpeur) == DeveloppeurLower
  {
    LowerAppend("Dév" + "elop", "peur");
    LowerAppend("Dév", "elop");
    LowerDev();
    LowerElop();
    LowerPeur();
  }

  lemma DeveloppeurIsWord()
    ensures NoSpace(DeveloppeurLower)
  {
  }

  /** Two words joined by a space split back into those two words. */
  lemma TwoWords(a: string, b: string)
    requires NoSpace(a) && NoSpace(b) && b != []
    ensures Words(a + " " + b) == [a, b]
  {
    assert b[0] in b;
    WordsOfWord(b);
    WordsCons(a, ' ', b);
    assert a + [' '] + b == a + " " + b;
  }

  /** Three words joined by spaces split back into those three words. */
  lemma ThreeWords(a: string, b: string, c: string)
    requires NoSpace(a) && NoSpace(b) && NoSpace(c) && b != [] && c != []
    ensures Words(a + " " + b + " " + c) == [a, b, c]
  {
    assert b[0] in b;
    TwoWords(b, c);
    WordsCons(a, ' ', b + " " + c);
    assert a + [' '] + (b + " " + c) == a + " " + b + " " + c;
  }

  lemma LowerDesiredTitle()
    ensures Lower(Developpeur + " web") == DeveloppeurLower + " web"
  {
    LowerDeveloppeur();
    LowerAppend(Developpeur, " web");
    assert Lower(" web") == " web";
  }

  /** The desired title, normalised. */
  lemma NormalizeDesiredTitle()
    ensures Normalize(Developpeur + " web") == DeveloppeurLower + " web"
  {
    LowerDesiredTitle();
    var s := DeveloppeurLower + " web";
    assert s[|s| - 1] == 'b';
    TrimOfTrimmed(s);
  }

  /** The desired title's words. */
  lemma DesiredTitleWords()
    ensures Words(DeveloppeurLower + " web") == [DeveloppeurLower, "web"]
  {
    DeveloppeurIsWord();
    assert NoSpace("web");
    TwoWords(DeveloppeurLower, "web");
    assert DeveloppeurLower + " web" == DeveloppeurLower + " " + "web";
  }

  lemma LowerFull()
    ensures Lower(" Full") == " full"
  {
  }

  lemma LowerStack()
    ensures Lower(" Stack") == " stack"
  {
  }

  lemma LowerOfferTitle()
    ensures Lower(Developpeur + " Full" + " Stack") == DeveloppeurLower + " full" + " stack"
  {
    LowerDeveloppeur();
    LowerAppend(Developpeur + " Full", " Stack");
    LowerAppend(Developpeur, " Full");
    LowerFull();
    LowerStack();
  }

  /** The offer title, normalised. */
  lemma NormalizeOfferTitle()
    ensures Normalize(Developpeur + " Full" + " Stack") == DeveloppeurLower + " full" + " stack"
  {
    LowerOfferTitle();
    var s := DeveloppeurLower + " full" + " stack";
    assert s[|s| - 1] == 'k';
    TrimOfTrimmed(s);
  }

  /** The offer title's words. */
  lemma OfferTitleWords()
    ensures Words(DeveloppeurLower + " full" + " stack") == [DeveloppeurLower, "full", "stack"]
  {
    DeveloppeurIsWord();
    assert NoSpace("full") && NoSpace("stack");
    ThreeWords(DeveloppeurLower, "full", "stack");
    assert DeveloppeurLower + " full" + " stack" == DeveloppeurLower + " " + "full" + " " + "stack";
  }

  /** Of the desired title's two words, only "développeur" overlaps a word of the offer title. */
  lemma ExampleCommonWords()
    ensures CommonWords([DeveloppeurLower, "web"], [DeveloppeurLower, "full", "stack"]) == [DeveloppeurLower]
  {
    var dev := DeveloppeurLower;
    var ws := [dev, "full", "stack"];
    assert OverlapsSome(dev, ws) by {
      ContainsTrivial(dev);
      assert Overlap(ws[0], dev);
    }
    assert !OverlapsSome("web", ws) by {
      forall k | 0 <= k < 3 ensures !Overlap(ws[k], "web") {
        if Contains(ws[k], "web") {
          ContainsNecessary(ws[k], "web");
        }
        if Contains("web", ws[k]) {
          ContainsNecessary("web", ws[k]);
        }
      }
    }
  }

  /** Two words, three words, one in common. */
  lemma TitleWordCounts()
    ensures var a := DeveloppeurLower + " web";
            var b := DeveloppeurLower + " full" + " stack";
            |Words(a)| == 2 && |Words(b)| == 3 && |CommonWords(Words(a), Words(b))| == 1
  {
    DesiredTitleWords();
    OfferTitleWords();
    ExampleCommonWords();
  }

  /** The two normalised titles differ. */
  lemma TitlesDiffer()
    ensures DeveloppeurLower + " web" != DeveloppeurLower + " full" + " stack"
  {
    assert |DeveloppeurLower + " web"| != |DeveloppeurLower + " full" + " stack"|;
  }

  /** The similarity of two different normalised texts, from their words. */
  lemma SimilarityOfNormalized(s1: string, s2: string, a: string, b: string)
    requires s1 != "" && s2 != "" && Normalize(s1) == a && Normalize(s2) == b && a != b
    ensures Similarity(s1, s2)
         == |CommonWords(Words(a), Words(b))| as real
            / (if |Words(a)| >= |Words(b)| then |Words(a)| else |Words(b)|) as real
  {
  }

  lemma OneThird(m: nat, n: nat)
    requires m == 1 && n == 3
    ensures m as real / n as real == 1.0 / 3.0
  {
  }

  /** Two different texts of two and three words with one word in common are a third similar. */
  lemma OneWordOfThree(s1: string, s2: string, a: string, b: string)
    requires s1 != "" && s2 != "" && Normalize(s1) == a && Normalize(s2) == b && a != b
    requires |Words(a)| == 2 && |Words(b)| == 3 && |CommonWords(Words(a), Words(b))| == 1
    ensures Similarity(s1, s2) == 1.0 / 3.0
  {
    SimilarityOfNormalized(s1, s2, a, b);
    OneThird(|CommonWords(Words(a), Words(b))|,
             if |Words(a)| >= |Words(b)| then |Words(a)| else |Words(b)|);
  }

  /** "Développeur web" against "Développeur Full Stack": one word of three in common. */
  lemma ExampleSimilarity()
    ensures Similarity(Developpeur + " web", Developpeur + " Full" + " Stack") == 1.0 / 3.0
  {
    NormalizeDesiredTitle();
    NormalizeOfferTitle();
    TitlesDiffer();
    TitleWordCounts();
    OneWordOfThree(Developpeur + " web", Developpeur + " Full" + " Stack",
                   DeveloppeurLower + " web", DeveloppeurLower + " full" + " stack");
  }

  /** With one desired title, the best similarity is that title's. */
  lemma ExampleBestSimilarity()
    ensures BestSimilarity([Developpeur + " web"], Developpeur + " Full" + " Stack") == 1.0 / 3.0
  {
    var ms := [Developpeur + " web"];
    var titre := Developpeur + " Full" + " Stack";
    ExampleSimilarity();
    assert ms[..0] == [];
    assert TitleSimilarities(ms, titre) == [1.0 / 3.0];
    var sims: seq<real> := [1.0 / 3.0];
    assert sims[..0] == [];
  }

  /** A third of 20 points, too few for a title reason. */
  lemma ExampleTitleFactor()
    ensures TitleFactor(ExampleCandidate, ExampleOffer) == Factor(20.0 / 3.0, None)
  {
    ExampleBestSimilarity();
  }

  /** "Bruxelles", lower-cased. */
  lemma LowerBruxelles()
    ensures Lower("Bruxelles") == "bruxelles"
  {
    assert NoUpper("ruxelles") && "Bruxelles"[1..] == "ruxelles";
    LowerInitial("Bruxelles", "bruxelles");
  }

  /** The desired commune occurs in the offer's place: 15 points. */
  lemma ExampleLocationFactor()
    ensures LocationFactor(ExampleCandidate, ExampleOffer) == Factor(15.0, Some(LocationMatched("bruxelles")))
  {
    LowerBruxelles();
    ContainsTrivial("bruxelles");
    assert Contains(OfferPlace(ExampleOffer), Lower(["Bruxelles"][0]));
  }

  /** No contract type is required: 15 points, the offer's "CDI" named in the reason. */
  lemma ExampleContractFactor()
    ensures ContractFactor(ExampleCandidate, ExampleOffer) == Factor(15.0, Some(ContractAccepted("CDI")))
  {
    LowerPointwise("CDI");
    assert Lower("CDI") == "cdi";
    UpperPointwise("cdi");
    assert Upper("cdi") == "CDI";
  }

  lemma LowerInfor()
    ensures Lower("Infor") == "infor"
  {
    assert NoUpper("nfor") && "Infor"[1..] == "nfor";
    LowerInitial("Infor", "infor");
  }

  lemma LowerMatique()
    ensures Lower("matique") == "matique"
  {
  }

  lemma LowerEtIT()
    ensures Lower(" et IT") == " et it"
  {
  }

  /** The offer's domain, lower-cased. */
  lemma LowerDomain()
    ensures Lower("Infor" + "matique") == "infor" + "matique"
  {
    LowerAppend("Infor", "matique");
    LowerInfor();
    LowerMatique();
  }

  /** The desired sector, lower-cased, begins with the offer's domain. */
  lemma SectorContainsDomain()
    ensures Contains(Lower("Infor" + "matique" + " et IT"), "infor" + "matique")
  {
    var dom := "infor" + "matique";
    LowerDomain();
    LowerAppend("Infor" + "matique", " et IT");
    LowerEtIT();
    var sector := Lower("Infor" + "matique" + " et IT");
    assert sector == dom + " et it";
    assert sector[..|dom|] == dom;
  }

  /** The domain "informatique" begins the desired sector "informatique et it": 10 points. */
  lemma ExampleSectorFactor()
    ensures SectorFactor(ExampleCandidate, ExampleOffer) == Factor(10.0, Some(SectorMatched("infor" + "matique")))
  {
    LowerDomain();
    SectorContainsDomain();
    assert Overlap("infor" + "matique", Lower(["Infor" + "matique" + " et IT"][0]));
  }

  /** The example pair has the five factors of the design notes. */
  lemma ExampleFactors()
    ensures HasExampleFactors(ExampleCandidate, ExampleOffer, LocationMatched("bruxelles"),
                              ContractAccepted("CDI"), SectorMatched("infor" + "matique"))
  {
    ExampleSkillsFactor();
    ExampleTitleFactor();
    ExampleLocationFactor();
    ExampleContractFactor();
    ExampleSectorFactor();
  }

  /** The example scores 47. */
  lemma ExampleMatchScore()
    ensures MatchScore(ExampleCandidate, ExampleOffer) == 47
  {
    ExampleFactors();
    ExampleScore(ExampleCandidate, ExampleOffer, LocationMatched("bruxelles"), ContractAccepted("CDI"),
                 SectorMatched("infor" + "matique"));
  }

  /** The example's reasons: its location, its contract and its sector, in that order. */
  lemma ExampleMatchReasons()
    ensures MatchReasons(ExampleCandidate, ExampleOffer)
         == [LocationMatched("bruxelles"), ContractAccepted("CDI"), SectorMatched("infor" + "matique")]
  {
    ExampleFactors();
    ExampleReasons(ExampleCandidate, ExampleOffer, LocationMatched("bruxelles"), ContractAccepted("CDI"),
                   SectorMatched("infor" + "matique"));
  }

  /** The texts the function returns for the example's reasons. */
  lemma ExampleReasonTexts()
    ensures Render(LocationMatched("bruxelles")) == "Localisation correspondante: bruxelles"
    ensures Render(ContractAccepted("CDI")) == "CDI accepté"
    ensures Render(SectorMatched("infor" + "matique")) == "Secteur: informatique"
  {
  }
}
