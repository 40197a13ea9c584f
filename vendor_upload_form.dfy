/** components/vendor-upload-form.tsx: file validation, the simulated
    upload/analysis status machine with its progress counter, submit and reset.
    The timer delays between progress updates are not modelled; each handler
    is a sequence of assignments. */
module VendorUploadForm {
  import opened Wrappers
  import opened DocumentAnalysisResults

  /** `UploadStatus`; the source never sets `"error"`. */
  datatype UploadStatus = Idle | Uploading | Processing | Completed | Failed

  /** The parts of a browser `File` the form reads; `size` is in bytes. */
  datatype FileInfo = FileInfo(name: string, mimeType: string, size: nat)

  const AllowedTypes: seq<string> := [
    "application/vnd.openxmlformats-officedocument.wordprocessingml.document",
    "application/pdf",
    "application/msword"]

  /** The size limit, 10 MiB. */
  const MaxSize: nat := 10 * 1024 * 1024

  const MsgBadType := "Please select a valid document file (DOCX or PDF)"
  const MsgTooLarge := "File size must be less than 10MB"
  const MsgNoFile := "Please select a file to upload"

  /** The checks of `handleFileChange`, type first, then size; `None` accepts. */
  function FileProblem(f: FileInfo): (r: Option<string>)
    ensures r.None? <==> f.mimeType in AllowedTypes && f.size <= 10485760
    ensures r == Some(MsgBadType) <==> f.mimeType !in AllowedTypes
    ensures r == Some(MsgTooLarge) <==> f.mimeType in AllowedTypes && f.size > 10485760
  {
    if f.mimeType !in AllowedTypes then Some(MsgBadType)
    else if f.size > MaxSize then Some(MsgTooLarge)
    else None
  }

  /** A PDF of exactly 10 MiB passes; one byte more is refused; a DOCX passes
      the type check and a plain-text file does not. */
  lemma SizeBoundary(name: string)
    ensures FileProblem(FileInfo(name, "application/pdf", 10485760)).None?
    ensures FileProblem(FileInfo(name, "application/pdf", 10485761)) == Some(MsgTooLarge)
    ensures FileProblem(FileInfo(name, "text/plain", 0)) == Some(MsgBadType)
    ensures FileProblem(FileInfo(name, "application/vnd.openxmlformats-officedocument.wordprocessingml.document", 0)).None?
  {
    assert "application/pdf" == AllowedTypes[1];
    assert "text/plain" !in AllowedTypes by {
      assert "text/plain" != AllowedTypes[0] && "text/plain" != AllowedTypes[1] && "text/plain" != AllowedTypes[2];
    }
    assert "application/vnd.openxmlformats-officedocument.wordprocessingml.document" == AllowedTypes[0];
  }

  /** The mock sections of the simulated analysis. */
  const MockSections: seq<Section> := [
    Section("Executive Summary", 85, "Good coverage of main points. Consider adding more specific metrics and timeline details.", Good),
    Section("Project Scope", 72, "Missing detailed risk assessment section. The scope is well-defined but lacks contingency planning details.", Warning),
    Section("Budget Analysis", 45, "Insufficient detail in cost breakdown. Missing labor costs and material specifications required by the gold standard.", Error),
    Section("Timeline", 90, "Excellent timeline with clear milestones. Well-aligned with gold standard requirements.", Good),
    Section("Stakeholder Impact", 68, "Good identification of stakeholders but missing community engagement plan and communication strategy.", Warning)]

  const MockSummary := "The proposal demonstrates good understanding of project requirements with strong timeline planning. Key areas for improvement include budget detail and risk assessment. The executive summary effectively communicates the project vision."

  /** The fixed result the simulation produces. `stamp` stands for `Date.now()`
      and `now` for the ISO upload time; the filename is the file's name, or
      "document.pdf" when there is no file or its name is empty. */
  function MockResult(file: Option<FileInfo>, stamp: string, now: string): (r: AnalysisResult)
    ensures r.id == "analysis-" + stamp && r.uploadedAt == now
    ensures file.Some? && file.value.name != "" ==> r.filename == file.value.name
    ensures file.None? ==> r.filename == "document.pdf"
    ensures file.Some? && file.value.name == "" ==> r.filename == "document.pdf"
    ensures r.overallScore == 78 && |r.sections| == 5
  {
    AnalysisResult("analysis-" + stamp, OrElse(if file.Some? then Some(file.value.name) else None, "document.pdf"),
                   78, MockSections, MockSummary, now)
  }

  /** The mock result's results page lists three next steps, so it never shows
      "Excellent Work". */
  lemma MockResultNeedsWork(file: Option<FileInfo>, stamp: string, now: string)
    ensures |NextSteps(MockResult(file, stamp, now).sections)| == 3
    ensures !AllGood(MockResult(file, stamp, now).sections)
  {
    var s := MockSections;
    assert s == [s[0]] + [s[1]] + [s[2]] + [s[3]] + [s[4]];
    NextStepsKeepOrder([s[0]] + [s[1]] + [s[2]] + [s[3]], [s[4]]);
    NextStepsKeepOrder([s[0]] + [s[1]] + [s[2]], [s[3]]);
    NextStepsKeepOrder([s[0]] + [s[1]], [s[2]]);
    NextStepsKeepOrder([s[0]], [s[1]]);
    assert NextSteps([s[0]]) == [];
    assert NextSteps([s[1]]) == [s[1]];
    assert NextSteps([s[2]]) == [s[2]];
    assert NextSteps([s[3]]) == [];
    assert NextSteps([s[4]]) == [s[4]];
    ExcellentIffNoNextSteps(s);
  }

  /** One progress update, with the status at the time it was made. */
  datatype Step = Step(status: UploadStatus, progress: int)

  /** The progress updates of one simulated analysis: 0 when the upload starts,
      then 0..30 while uploading, then 30..100 while processing. */
  function UploadRamp(): (r: seq<Step>)
    ensures |r| == 103
  {
    seq(103, k => if k == 0 then Step(Uploading, 0)
                  else if k <= 31 then Step(Uploading, k - 1)
                  else Step(Processing, k - 2))
  }

  /** Progress never goes down, starts at 0 and ends at 100; uploading covers
      0..30 and comes entirely before processing, which covers 30..100. */
  lemma RampShape()
    ensures UploadRamp()[0] == Step(Uploading, 0) && UploadRamp()[102] == Step(Processing, 100)
    ensures forall i, j :: 0 <= i <= j < 103 ==> UploadRamp()[i].progress <= UploadRamp()[j].progress
    ensures forall i :: 0 <= i < 103 && UploadRamp()[i].status == Uploading ==> 0 <= UploadRamp()[i].progress <= 30
    ensures forall i :: 0 <= i < 103 && UploadRamp()[i].status == Processing ==> 30 <= UploadRamp()[i].progress <= 100
    ensures forall i, j :: 0 <= i <= j < 103 && UploadRamp()[j].status == Uploading ==> UploadRamp()[i].status == Uploading
  {
  }

  /** The form's state. `Steps` records every progress value the analysis
      writes. */
  class UploadForm {
    var file: Option<FileInfo>
    var status: UploadStatus
    var progress: int
    var error: Option<string>
    var analysisResult: Option<AnalysisResult>
    ghost var Steps: seq<Step>

    constructor ()
      ensures file.None? && status == Idle && progress == 0 && error.None? && analysisResult.None?
      ensures Steps == []
    {
      file, status, progress, error, analysisResult := None, Idle, 0, None, None;
      Steps := [];
    }

    /** The results view replaces the form exactly in this state. */
    predicate ShowsResults()
      reads this
    {
      status == Completed && analysisResult.Some?
    }

    /** `handleFileChange`: an empty selection changes nothing; a file that
        fails a check sets the error and keeps the current file; a valid file
        becomes the current file and clears the error. */
    method HandleFileChange(selected: Option<FileInfo>)
      modifies this`file, this`error
      ensures selected.None? ==> file == old(file) && error == old(error)
      ensures selected.Some? && FileProblem(selected.value).Some? ==>
        file == old(file) && error == FileProblem(selected.value)
      ensures selected.Some? && FileProblem(selected.value).None? ==> file == selected && error.None?
    {
      if selected.Some? {
        var problem := FileProblem(selected.value);
        if problem.Some? {
          error := problem;
          return;
        }
        file := selected;
        error := None;
      }
    }

    /** `simulateAnalysis`: uploading with progress 0..30, then processing with
        progress 30..100, then completed with the mock result. */
    method SimulateAnalysis(stamp: string, now: string)
      modifies this`status, this`progress, this`analysisResult, this`Steps
      ensures status == Completed && progress == 100
      ensures analysisResult == Some(MockResult(file, stamp, now))
      ensures Steps == old(Steps) + UploadRamp()
      ensures ShowsResults()
    {
      ghost var ramp := UploadRamp();
      status := Uploading;
      progress := 0;
      Steps := Steps + [Step(status, progress)];
      var i := 0;
      while i <= 30
        invariant 0 <= i <= 31
        invariant status == Uploading
        invariant Steps == old(Steps) + ramp[..i + 1]
        invariant progress == if i == 0 then 0 else i - 1
      {
        progress := i;
        Steps := Steps + [Step(status, progress)];
        assert ramp[..i + 2] == ramp[..i + 1] + [ramp[i + 1]];
        i := i + 1;
      }
      status := Processing;
      i := 30;
      while i <= 100
        invariant 30 <= i <= 101
        invariant status == Processing
        invariant Steps == old(Steps) + ramp[..i + 2]
        invariant progress == if i == 30 then 30 else i - 1
      {
        progress := i;
        Steps := Steps + [Step(status, progress)];
        assert ramp[..i + 3] == ramp[..i + 2] + [ramp[i + 2]];
        i := i + 1;
      }
      assert ramp[..103] == ramp;
      analysisResult := Some(MockResult(file, stamp, now));
      status := Completed;
    }

    /** `handleSubmit`: without a file it only sets the error; with one it
        clears the error and runs the analysis. */
    method HandleSubmit(stamp: string, now: string)
      modifies this`status, this`progress, this`analysisResult, this`error, this`Steps
      ensures old(file).None? ==>
        error == Some(MsgNoFile) && status == old(status) && progress == old(progress) &&
        analysisResult == old(analysisResult) && Steps == old(Steps)
      ensures old(file).Some? ==>
        error.None? && status == Completed && progress == 100 &&
        analysisResult == Some(MockResult(file, stamp, now)) && Steps == old(Steps) + UploadRamp()
    {
      if file.None? {
        error := Some(MsgNoFile);
        return;
      }
      error := None;
      SimulateAnalysis(stamp, now);
    }

    /** `handleReset`: back to the initial state. */
    method HandleReset()
      modifies this`file, this`status, this`progress, this`error, this`analysisResult
      ensures file.None? && status == Idle && progress == 0 && error.None? && analysisResult.None?
      ensures !ShowsResults()
    {
      file, status, progress, error, analysisResult := None, Idle, 0, None, None;
    }
  }
}
