/**
 * Step 6 of the tunnel: the documents. Each of the four upload zones stores its file in its own
 * field of the record; a CV upload also starts an analysis which, once it ends, fills in the
 * extracted skills and experiences and a quality score. Removing the CV clears them again.
 *
 * The step's own state (which zone a file is dragged over, whether an analysis runs) and the
 * record its updates are merged into are the fields of one object.
 */
module Step6Documents {
  import opened Wrappers
  import opened Tunnel

  datatype FileType = Cv | Lettre | Diplomes | Certificats

  /** `fieldMap`: the record field each upload zone stores its file in. */
  function FieldFor(t: FileType): (f: Field)
    ensures KindOf(f) == FileKind
  {
    match t
    case Cv => CvFile
    case Lettre => LettreMotivationFile
    case Diplomes => DiplomesFile
    case Certificats => CertificatsFile
  }

  /** The four zones store their files in four different fields. */
  lemma FieldForInjective(s: FileType, t: FileType)
    ensures FieldFor(s) == FieldFor(t) ==> s == t
  {
  }

  /** The results the analysis reports. */
  const MockSkills: seq<string> := [
    "Communication", "Gestion de projet", "Excel", "Word",
    "Service client", "Travail en équipe", "Anglais B2"]

  const MockExperiences: seq<string> := [
    "3 ans d'expérience en service client",
    "Gestion d'équipe de 5 personnes",
    "Formation en gestion de projet"]

  const MockScore := 72

  /** The update sent when the analysis ends. */
  const AnalysisResults: Patch := map[
    CompetencesExtraites := ListValue(MockSkills),
    ExperiencesExtraites := ListValue(MockExperiences),
    ScoreCv := NumberValue(MockScore)]

  /** The update sent when the CV is removed, after its field is cleared. */
  const AnalysisReset: Patch := map[
    CompetencesExtraites := ListValue([]),
    ExperiencesExtraites := ListValue([]),
    ScoreCv := NumberValue(0)]

  /** The update that stores a file, or clears the zone, in the zone's field. */
  function StoreFile(t: FileType, file: Option<UploadedFile>): Patch {
    map[FieldFor(t) := FileValue(file)]
  }

  /** The updates `removeFile` sends, in order. */
  function RemoveFileUpdates(t: FileType): (r: seq<Patch>)
    ensures |r| >= 1 && r[0] == StoreFile(t, None)
    ensures |r| == 2 <==> t == Cv
  {
    [StoreFile(t, None)] + (if t == Cv then [AnalysisReset] else [])
  }

  /** `Math.round(score / 20)` for a whole score: the nearest whole number, halves rounded up. */
  function StarCount(score: int): (n: int)
    ensures n as real <= score as real / 20.0 + 0.5 < n as real + 1.0
  {
    (score + 10) / 20
  }

  /** Star `k` (1 to 5) is filled when `k` is at most the rounded score over 20. */
  function Stars(score: int): (r: seq<bool>)
    ensures |r| == 5
    ensures forall i :: 0 <= i < 5 ==> (r[i] <==> i + 1 <= StarCount(score))
  {
    seq(5, i => i + 1 <= StarCount(score))
  }

  /** The colour of the score bar: green from 80, gold from 60, orange below. */
  function ScoreColor(score: int): string {
    if score >= 80 then "bg-green-500" else if score >= 60 then "bg-gold" else "bg-orange-500"
  }

  /** The results panel shows once a score is known and no analysis runs. */
  predicate ResultsShown(score: int, analyzing: bool) {
    score > 0 && !analyzing
  }

  /** Scores of 90 and above fill all five stars; scores below 10 fill none. */
  lemma StarsBounds(score: int)
    ensures score >= 90 ==> forall k :: 0 <= k < 5 ==> Stars(score)[k]
    ensures score < 10 ==> forall k :: 0 <= k < 5 ==> !Stars(score)[k]
  {
  }

  /** The reported score of 72 shows four stars on a gold bar. */
  lemma MockScoreStars()
    ensures StarCount(MockScore) == 4
    ensures Stars(MockScore) == [true, true, true, true, false]
    ensures ScoreColor(MockScore) == "bg-gold"
  {
  }

  /**
   * Removing a CV clears its field, the extracted lists and the score; removing any other
   * document clears its own field and leaves the analysis results as they were.
   */
  lemma RemoveFileSpec(d: TunnelData, t: FileType)
    ensures var updates := RemoveFileUpdates(t);
      var after := if t == Cv then Merge(Merge(d, updates[0]), updates[1]) else Merge(d, updates[0]);
      && after(FieldFor(t)) == FileValue(None)
      && (t == Cv ==>
            (&& after(CompetencesExtraites) == ListValue([])
             && after(ExperiencesExtraites) == ListValue([])
             && after(ScoreCv) == NumberValue(0)
             && !ResultsShown(after(ScoreCv).number, false)))
      && (t != Cv ==>
            (&& after(CompetencesExtraites) == d(CompetencesExtraites)
             && after(ExperiencesExtraites) == d(ExperiencesExtraites)
             && after(ScoreCv) == d(ScoreCv)))
      && (forall f :: f != FieldFor(t) && f !in AnalysisReset ==> after(f) == d(f))
  {
  }

  /** Storing or clearing a file keeps every field of the record at its declared type. */
  lemma StoreFileWellTyped(t: FileType, file: Option<UploadedFile>)
    ensures WellTypedPatch(StoreFile(t, file))
  {
    assert StoreFile(t, file).Keys == {FieldFor(t)};
  }

  /** The analysis results keep every field of the record at its declared type. */
  lemma AnalysisResultsWellTyped()
    ensures WellTypedPatch(AnalysisResults)
  {
    forall f | f in AnalysisResults ensures AnalysisResults[f].KindOfValue() == KindOf(f) {
      assert f == CompetencesExtraites || f == ExperiencesExtraites || f == ScoreCv;
    }
  }

  /** So does their reset. */
  lemma AnalysisResetWellTyped()
    ensures WellTypedPatch(AnalysisReset)
  {
    forall f | f in AnalysisReset ensures AnalysisReset[f].KindOfValue() == KindOf(f) {
      assert f == CompetencesExtraites || f == ExperiencesExtraites || f == ScoreCv;
    }
  }

  class DocumentsStep {
    /** The record the step's updates are merged into. */
    var data: TunnelData
    var isAnalyzing: bool
    var dragActive: Option<FileType>

    constructor(d: TunnelData)
      ensures data == d && !isAnalyzing && dragActive == None
    {
      data := d;
      isAnalyzing := false;
      dragActive := None;
    }

    /** A file dragged over a zone highlights it; leaving it clears the highlight. */
    method HandleDrag(t: FileType, isDragging: bool)
      modifies this
      ensures dragActive == (if isDragging then Some(t) else None)
      ensures data == old(data) && isAnalyzing == old(isAnalyzing)
    {
      dragActive := if isDragging then Some(t) else None;
    }

    /**
     * A file chosen or dropped on a zone is stored in the zone's field; a CV also starts the
     * analysis.
     */
    method HandleFileChange(file: UploadedFile, t: FileType)
      modifies this
      ensures data == Merge(old(data), StoreFile(t, Some(file)))
      ensures isAnalyzing == (t == Cv || old(isAnalyzing))
      ensures dragActive == old(dragActive)
    {
      data := Merge(data, map[FieldFor(t) := FileValue(Some(file))]);
      if t == Cv {
        isAnalyzing := true;
      }
    }

    /** A drop clears the highlight and hands the first dropped file, if any, to the zone. */
    method HandleDrop(files: seq<UploadedFile>, t: FileType)
      modifies this
      ensures dragActive == None
      ensures |files| == 0 ==> data == old(data) && isAnalyzing == old(isAnalyzing)
      ensures |files| > 0 ==>
        (data == Merge(old(data), StoreFile(t, Some(files[0]))) && isAnalyzing == (t == Cv || old(isAnalyzing)))
    {
      dragActive := None;
      if |files| > 0 {
        HandleFileChange(files[0], t);
      }
    }

    /** The end of a CV analysis: its results are stored and the analysis stops. */
    method FinishAnalysis()
      modifies this
      ensures data == Merge(old(data), AnalysisResults)
      ensures !isAnalyzing && dragActive == old(dragActive)
    {
      data := Merge(data, AnalysisResults);
      isAnalyzing := false;
    }

    /** `removeFile`: the updates of `RemoveFileUpdates`, merged in order. */
    method RemoveFile(t: FileType)
      modifies this
      ensures t == Cv ==> data == Merge(Merge(old(data), StoreFile(t, None)), AnalysisReset)
      ensures t != Cv ==> data == Merge(old(data), StoreFile(t, None))
      ensures isAnalyzing == old(isAnalyzing) && dragActive == old(dragActive)
    {
      data := Merge(data, map[FieldFor(t) := FileValue(None)]);
      if t == Cv {
        data := Merge(data, map[CompetencesExtraites := ListValue([]),
                                ExperiencesExtraites := ListValue([]),
                                ScoreCv := NumberValue(0)]);
      }
    }
  }

  /** Once a CV analysis ends, the results panel shows its 72 with four stars. */
  lemma AnalysisShowsResults(d: TunnelData)
    ensures var after := Merge(d, AnalysisResults);
      && after(ScoreCv) == NumberValue(MockScore)
      && ResultsShown(after(ScoreCv).number, false)
      && after(CompetencesExtraites) == ListValue(MockSkills)
      && after(ExperiencesExtraites) == ListValue(MockExperiences)
  {
  }
}
