/** components/document-analysis-results.tsx: the analysis result shape, the
    score bands, the section badges, the next-steps list and the report record.
    The download itself (Blob, object URL, DOM anchor) is not modelled. */
module DocumentAnalysisResults {
  import opened Wrappers
  import opened Text

  datatype SectionStatus = Good | Warning | Error

  /** One analysed section. */
  datatype Section = Section(name: string, score: int, feedback: string, status: SectionStatus)

  /** The `AnalysisResult` interface; `uploadedAt` is an opaque timestamp. */
  datatype AnalysisResult = AnalysisResult(
    id: string, filename: string, overallScore: int, sections: seq<Section>,
    summary: string, uploadedAt: string)

  /** `getScoreColor`: green from 80, yellow from 60, red below. */
  function ScoreColor(score: int): (c: string)
    ensures c == "text-green-600" <==> score >= 80
    ensures c == "text-yellow-600" <==> 60 <= score < 80
    ensures c == "text-red-600" <==> score < 60
  {
    if score >= 80 then "text-green-600"
    else if score >= 60 then "text-yellow-600"
    else "text-red-600"
  }

  /** `getScoreBgColor`: the same thresholds for the feedback background. */
  function ScoreBgColor(score: int): (c: string)
    ensures c == "bg-green-100" <==> score >= 80
    ensures c == "bg-yellow-100" <==> 60 <= score < 80
    ensures c == "bg-red-100" <==> score < 60
  {
    if score >= 80 then "bg-green-100"
    else if score >= 60 then "bg-yellow-100"
    else "bg-red-100"
  }

  /** Text and background colours use the same bands: two scores share a text
      colour exactly when they share a background colour. */
  lemma ColorsShareBands(a: int, b: int)
    ensures ScoreColor(a) == ScoreColor(b) <==> ScoreBgColor(a) == ScoreBgColor(b)
  {
  }

  /** `getStatusBadge`: the label of a section's badge. */
  function StatusBadge(s: SectionStatus): (badge: string)
    ensures s == Good <==> badge == "Good Match"
    ensures s == Warning <==> badge == "Needs Improvement"
    ensures s == Error <==> badge == "Missing Content"
  {
    match s
    case Good => "Good Match"
    case Warning => "Needs Improvement"
    case Error => "Missing Content"
  }

  predicate NeedsWork(s: Section) {
    s.status != Good
  }

  /** The "Next Steps" cards: the sections that are not `good`, in order. */
  function NextSteps(sections: seq<Section>): (r: seq<Section>)
    ensures forall s :: s in r <==> s in sections && s.status != Good
  {
    Filter(sections, NeedsWork)
  }

  /** `sections.every(s => s.status === "good")`, which holds of no sections. */
  predicate AllGood(sections: seq<Section>) {
    forall i :: 0 <= i < |sections| ==> sections[i].status == Good
  }

  /** The "Excellent Work" block appears exactly when there are no next steps. */
  lemma ExcellentIffNoNextSteps(sections: seq<Section>)
    ensures AllGood(sections) <==> NextSteps(sections) == []
    ensures AllGood([])
  {
    FilterEmpty(sections, NeedsWork);
  }

  /** Next steps of a concatenation are the concatenated next steps, so the
      cards keep the sections' order. */
  lemma NextStepsKeepOrder(a: seq<Section>, b: seq<Section>)
    ensures NextSteps(a + b) == NextSteps(a) + NextSteps(b)
  {
    FilterAppend(a, b, NeedsWork);
  }

  /** `index < result.sections.length - 1`: a separator follows a section. */
  function HasSeparator(index: nat, count: nat): (b: bool)
    requires index < count
    ensures b <==> index != count - 1
  {
    index < count - 1
  }

  /** The record serialized for download. `analysisDate` stands for the
      locale-formatted upload date. */
  datatype Report = Report(filename: string, analysisDate: string, overallScore: int,
                           sections: seq<Section>, summary: string)

  /** The report carries the result's filename, score, sections and summary
      unchanged. */
  function ReportOf(r: AnalysisResult, analysisDate: string): (rep: Report)
    ensures rep.filename == r.filename && rep.overallScore == r.overallScore
    ensures rep.sections == r.sections && rep.summary == r.summary
    ensures rep.analysisDate == analysisDate
  {
    Report(r.filename, analysisDate, r.overallScore, r.sections, r.summary)
  }

  const ReportPrefix := "analysis-report-"
  const ReportSuffix := ".json"

  /** The download's file name, `analysis-report-<filename>.json`. */
  function ReportFileName(filename: string): string {
    ReportPrefix + filename + ReportSuffix
  }

  /** Recovers the filename from a report file name. */
  function ReportSource(name: string): Option<string> {
    if |name| >= |ReportPrefix| + |ReportSuffix| && name[..|ReportPrefix|] == ReportPrefix
       && name[|name| - |ReportSuffix|..] == ReportSuffix
    then Some(name[|ReportPrefix|..|name| - |ReportSuffix|])
    else None
  }

  /** The report's file name determines the document's filename: no two
      documents share a report file name. */
  lemma ReportFileNameRoundTrip(filename: string)
    ensures ReportSource(ReportFileName(filename)) == Some(filename)
  {
    var name := ReportFileName(filename);
    assert name[..|ReportPrefix|] == ReportPrefix;
    assert name[|name| - |ReportSuffix|..] == ReportSuffix;
    assert name[|ReportPrefix|..|name| - |ReportSuffix|] == filename;
  }
}
