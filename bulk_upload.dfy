/** components/bulk-upload.tsx: the queue of dropped files, the sequential
    processing loop, removal, clearing and the footer figures. The outcome of
    each file, drawn with `Math.random` in the source, is an input here, and so
    are the random ids. */
module BulkUpload {
  import opened Wrappers
  import opened Text

  datatype FileStatus = Queued | Processing | Completed | Failed

  /** The result's `"passed" | "warning" | "failed"`; the loop never yields the last. */
  datatype Verdict = Passed | Warned | Rejected

  datatype Outcome = Outcome(score: int, verdict: Verdict)

  /** The parts of a dropped `File` the component reads. */
  datatype DroppedFile = DroppedFile(name: string, size: nat)

  /** `FileWithStatus`. */
  datatype FileEntry = FileEntry(
    file: DroppedFile, id: string, status: FileStatus, progress: int,
    result: Option<Outcome>, error: Option<string>)

  const FailureMessage := "Failed to process document. Format may be unsupported."

  /** `Math.floor(Math.random() * 30)`. */
  type ScorePick = k: int | 0 <= k < 30

  /** The random draws for one file: `Math.random() > 0.2` (success), the score
      draw, and `Math.random() > 0.5` (passed rather than warning). */
  datatype Roll = Roll(success: bool, pick: ScorePick, passed: bool)

  predicate IsQueued(e: FileEntry) { e.status == Queued }
  predicate IsProcessing(e: FileEntry) { e.status == Processing }
  predicate IsCompleted(e: FileEntry) { e.status == Completed }
  predicate IsFailed(e: FileEntry) { e.status == Failed }

  /** The final state of a processed entry: progress 100 and either completed
      with a score in [70, 99] or failed with the fixed message. */
  function Settled(f: FileEntry, r: Roll): (g: FileEntry)
    ensures g.file == f.file && g.id == f.id && g.progress == 100
    ensures g.status == Completed || g.status == Failed
    ensures g.status == Completed <==> r.success
    ensures g.status == Completed ==>
      && g.result.Some? && 70 <= g.result.value.score <= 99
      && (g.result.value.verdict == Passed || g.result.value.verdict == Warned)
      && g.error.None?
    ensures g.status == Failed ==> g.result.None? && g.error == Some(FailureMessage)
  {
    f.(status := if r.success then Completed else Failed,
       progress := 100,
       result := if r.success then Some(Outcome(r.pick + 70, if r.passed then Passed else Warned)) else None,
       error := if r.success then None else Some(FailureMessage))
  }

  /** What one pass of the loop does to an entry: only queued entries are
      processed, every other entry is skipped. */
  function AfterRun(f: FileEntry, r: Roll): FileEntry {
    if f.status == Queued then Settled(f, r) else f
  }

  /** The list after the loop has visited every entry of the snapshot. */
  function Processed(s: seq<FileEntry>, rolls: seq<Roll>): (t: seq<FileEntry>)
    requires |rolls| == |s|
    ensures |t| == |s|
  {
    seq(|s|, j requires 0 <= j < |s| => AfterRun(s[j], rolls[j]))
  }

  /** Processing leaves nothing queued, so a second run leaves the list unchanged. */
  lemma ProcessedIdempotent(s: seq<FileEntry>, r1: seq<Roll>, r2: seq<Roll>)
    requires |r1| == |s| && |r2| == |s|
    ensures forall j :: 0 <= j < |s| ==> !IsQueued(Processed(s, r1)[j])
    ensures Processed(Processed(s, r1), r2) == Processed(s, r1)
  {
  }

  lemma MulMono(a: int, b: int, c: int)
    requires a <= b && 0 <= c
    ensures a * c <= b * c
  {
  }

  lemma DivMono(x: int, y: int, d: int)
    requires 0 <= x <= y && 0 < d
    ensures x / d <= y / d
  {
    var q1, q2 := x / d, y / d;
    if q2 + 1 <= q1 {
      MulMono(q2 + 1, q1, d);
      assert false;
    }
  }

  lemma DivExact(q: int, r: int, d: int)
    requires 0 <= r < d
    ensures (q * d + r) / d == q
  {
    var q' := (q * d + r) / d;
    if q' > q {
      MulMono(q + 1, q', d);
      assert false;
    } else if q' < q {
      MulMono(q' + 1, q, d);
      assert false;
    }
  }

  /** `Math.round(k / n * 100)`, computed exactly (round half up): a
      percentage between 0 and 100 that is 100 once all `n` are done. */
  function RoundPercent(k: nat, n: nat): (r: int)
    requires 0 < n && k <= n
    ensures 0 <= r <= 100
    ensures k == n ==> r == 100
    ensures k == 0 ==> r == 0
  {
    var d := 2 * n;
    DivMono(200 * k + n, 100 * d + n, d);
    DivMono(0 * d + n, 200 * k + n, d);
    DivExact(100, n, d);
    DivExact(0, n, d);
    (200 * k + n) / d
  }

  /** The overall percentage never goes down as more entries are done. */
  lemma RoundPercentMonotone(j: nat, k: nat, n: nat)
    requires 0 < n && j <= k <= n
    ensures RoundPercent(j, n) <= RoundPercent(k, n)
  {
    DivMono(200 * j + n, 200 * k + n, 2 * n);
  }

  /** `overallProgress` after the loop has visited the first `k` entries: the
      percentage of the last queued one among them, or 0 if there was none. */
  function OverallAfter(s: seq<FileEntry>, k: nat): (r: int)
    requires k <= |s|
    ensures 0 <= r <= 100
    ensures k > 0 && IsQueued(s[k - 1]) ==> r == RoundPercent(k, |s|)
  {
    if k == 0 then 0
    else if IsQueued(s[k - 1]) then RoundPercent(k, |s|)
    else OverallAfter(s, k - 1)
  }

  /** One progress update of entry `index`, with the entry's status at the
      time of the update. */
  datatype Tick = Tick(index: nat, status: FileStatus, progress: int)

  /** The progress updates of one processed entry: 0, 10, ..., 100, all made
      while the entry is processing. */
  function EntryTicks(i: nat): (t: seq<Tick>)
    ensures |t| == 11
    ensures forall p :: 0 <= p < 11 ==> t[p] == Tick(i, Processing, 10 * p)
  {
    seq(11, p => Tick(i, Processing, 10 * p))
  }

  /** The progress updates made while the loop visits the first `k` entries. */
  function RunTicks(s: seq<FileEntry>, k: nat): seq<Tick>
    requires k <= |s|
  {
    if k == 0 then [] else RunTicks(s, k - 1) + (if IsQueued(s[k - 1]) then EntryTicks(k - 1) else [])
  }

  /** Every progress update of the run belongs to an entry that was queued,
      is made while that entry is processing, and raises it to a multiple of
      10 between 0 and 100. */
  lemma {:induction false} RunTicksOnlyQueued(s: seq<FileEntry>, k: nat)
    requires k <= |s|
    ensures forall t :: t in RunTicks(s, k) ==>
      && t.index < k && IsQueued(s[t.index]) && t.status == Processing
      && 0 <= t.progress <= 100 && t.progress % 10 == 0
  {
    if k > 0 {
      RunTicksOnlyQueued(s, k - 1);
    }
  }

  /** The footer figures: `n file(s) • c completed • f failed`. */
  datatype Footer = Footer(total: nat, plural: bool, completed: nat, failed: nat)

  function FooterOf(files: seq<FileEntry>): (f: Footer)
    ensures f.total == |files| && (f.plural <==> |files| != 1)
    ensures f.completed + f.failed <= f.total
  {
    FilterPartition(files, IsCompleted, IsFailed);
    Footer(|files|, |files| != 1, |Filter(files, IsCompleted)|, |Filter(files, IsFailed)|)
  }

  /** When no entry was mid-processing, a finished run accounts for every
      entry as completed or failed. */
  lemma CountsAfterProcessing(s: seq<FileEntry>, rolls: seq<Roll>)
    requires |rolls| == |s|
    requires forall j :: 0 <= j < |s| ==> !IsProcessing(s[j])
    ensures FooterOf(Processed(s, rolls)).completed + FooterOf(Processed(s, rolls)).failed == |s|
  {
    var t := Processed(s, rolls);
    assert forall j :: 0 <= j < |t| ==> IsCompleted(t[j]) || IsFailed(t[j]);
    FilterPartition(t, IsCompleted, IsFailed);
  }

  /** The "Process Files" button is enabled when nothing is running and some
      entry is queued. */
  function ProcessEnabled(isProcessing: bool, files: seq<FileEntry>): (b: bool)
    ensures b <==> !isProcessing && exists j :: 0 <= j < |files| && IsQueued(files[j])
  {
    FilterEmpty(files, IsQueued);
    !isProcessing && |Filter(files, IsQueued)| != 0
  }

  /** "Clear Completed" is offered when some entry is completed, that is,
      exactly when the footer's completed count is positive. */
  function ClearOffered(files: seq<FileEntry>): (b: bool)
    ensures b <==> FooterOf(files).completed > 0
  {
    FilterEmpty(files, IsCompleted);
    exists j :: 0 <= j < |files| && IsCompleted(files[j])
  }

  /** An entry's remove button is disabled while it is being processed. */
  predicate RemoveDisabled(e: FileEntry) {
    e.status == Processing
  }

  /** A run that starts with no entry processing leaves every remove button
      enabled; an entry that was already processing keeps its button
      disabled. */
  lemma RemoveEnabledAfterRun(s: seq<FileEntry>, rolls: seq<Roll>)
    requires |rolls| == |s|
    ensures forall j :: 0 <= j < |s| ==>
      (RemoveDisabled(Processed(s, rolls)[j]) <==> RemoveDisabled(s[j]))
    ensures (forall j :: 0 <= j < |s| ==> !RemoveDisabled(s[j])) ==>
      forall j :: 0 <= j < |s| ==> !RemoveDisabled(Processed(s, rolls)[j])
  {
  }

  /** "Clear Completed" never takes away an entry whose remove button is
      disabled. */
  lemma ClearKeepsDisabled(files: seq<FileEntry>)
    ensures forall e :: e in files && RemoveDisabled(e) ==> e in WithoutCompleted(files)
  {
  }

  /** The score cell: a dash, or the score with its colour. */
  datatype ScoreCell = Dash | Shown(score: int, color: string)

  /** `file.result?.score ? ... : "-"`: a zero score is falsy and shows a dash;
      otherwise green from 80, yellow from 70, red below. */
  function ScoreCellOf(e: FileEntry): (c: ScoreCell)
    ensures c.Dash? <==> e.result.None? || e.result.value.score == 0
    ensures c.Shown? ==> c.score == e.result.value.score
    ensures c.Shown? ==> (c.color == "text-green-600" <==> c.score >= 80)
    ensures c.Shown? ==> (c.color == "text-yellow-600" <==> 70 <= c.score < 80)
    ensures c.Shown? ==> (c.color == "text-red-600" <==> c.score < 70)
  {
    if e.result.None? || e.result.value.score == 0 then Dash
    else
      var s := e.result.value.score;
      Shown(s, if s >= 80 then "text-green-600" else if s >= 70 then "text-yellow-600" else "text-red-600")
  }

  /** A file the loop completes always shows its score, never in red. */
  lemma SettledScoreShown(f: FileEntry, r: Roll)
    requires r.success
    ensures ScoreCellOf(Settled(f, r)).Shown?
    ensures ScoreCellOf(Settled(f, r)).color != "text-red-600"
  {
  }

  /** The status badge's label. */
  function StatusBadge(e: FileEntry): (badge: string)
    ensures e.status == Queued ==> badge == "Queued"
    ensures e.status == Processing ==> badge == "Processing"
    ensures e.status == Failed ==> badge == "Error"
    ensures e.status == Completed ==>
      badge == (if e.result.Some? && e.result.value.verdict == Passed then "Passed"
                else if e.result.Some? && e.result.value.verdict == Warned then "Warnings"
                else "Completed")
  {
    match e.status
    case Queued => "Queued"
    case Processing => "Processing"
    case Failed => "Error"
    case Completed =>
      if e.result.Some? && e.result.value.verdict == Passed then "Passed"
      else if e.result.Some? && e.result.value.verdict == Warned then "Warnings"
      else "Completed"
  }

  /** `prev.filter(f => f.id !== id)`. */
  function WithoutId(files: seq<FileEntry>, id: string): (r: seq<FileEntry>)
    ensures forall e :: e in r <==> e in files && e.id != id
  {
    Filter(files, (e: FileEntry) => e.id != id)
  }

  /** Removal by id keeps the order of the remaining entries. */
  lemma WithoutIdKeepsOrder(a: seq<FileEntry>, b: seq<FileEntry>, id: string)
    ensures WithoutId(a + b, id) == WithoutId(a, id) + WithoutId(b, id)
  {
    FilterAppend(a, b, (e: FileEntry) => e.id != id);
  }

  predicate NotCompleted(e: FileEntry) { e.status != Completed }

  /** `prev.filter(f => f.status !== "completed")`. */
  function WithoutCompleted(files: seq<FileEntry>): (r: seq<FileEntry>)
    ensures forall e :: e in r <==> e in files && e.status != Completed
    ensures !ClearOffered(r)
  {
    var r := Filter(files, NotCompleted);
    assert forall j :: 0 <= j < |r| ==> r[j] in r;
    r
  }

  /** Clearing keeps the order of the remaining entries, and clearing twice
      is clearing once. */
  lemma WithoutCompletedLaws(a: seq<FileEntry>, b: seq<FileEntry>)
    ensures WithoutCompleted(a + b) == WithoutCompleted(a) + WithoutCompleted(b)
    ensures WithoutCompleted(WithoutCompleted(a)) == WithoutCompleted(a)
  {
    FilterAppend(a, b, NotCompleted);
    var r := WithoutCompleted(a);
    forall i | 0 <= i < |r| ensures NotCompleted(r[i]) {
      assert r[i] in r;
    }
    FilterKeepsAll(r, NotCompleted);
  }

  /** The component's state. `Ticks` records every per-file progress update. */
  class BulkUpload {
    var files: seq<FileEntry>
    var isProcessing: bool
    var overallProgress: int
    ghost var Ticks: seq<Tick>

    constructor ()
      ensures files == [] && !isProcessing && overallProgress == 0 && Ticks == []
    {
      files, isProcessing, overallProgress := [], false, 0;
      Ticks := [];
    }

    /** `onDrop`: the accepted files are appended after the existing entries,
        each queued with progress 0; `ids` are the random ids. */
    method OnDrop(accepted: seq<DroppedFile>, ids: seq<string>)
      requires |ids| == |accepted|
      modifies this`files
      ensures |files| == |old(files)| + |accepted|
      ensures files[..|old(files)|] == old(files)
      ensures forall k :: 0 <= k < |accepted| ==>
        files[|old(files)| + k] == FileEntry(accepted[k], ids[k], Queued, 0, None, None)
    {
      var added := seq(|accepted|, k requires 0 <= k < |accepted| => FileEntry(accepted[k], ids[k], Queued, 0, None, None));
      files := files + added;
    }

    /** `processFiles`. It does nothing when the list is empty or a run is
        under way. Otherwise it visits the entries of the list as it was at the
        start, one at a time: a queued entry goes to processing, its progress
        goes through 0, 10, ..., 100, and it ends completed or failed according
        to its roll, after which the overall percentage is updated. Every update
        touches only the entry being visited. */
    method ProcessFiles(rolls: seq<Roll>)
      requires |rolls| == |files|
      modifies this`files, this`isProcessing, this`overallProgress, this`Ticks
      ensures old(|files| == 0 || isProcessing) ==>
        files == old(files) && isProcessing == old(isProcessing) &&
        overallProgress == old(overallProgress) && Ticks == old(Ticks)
      ensures !old(|files| == 0 || isProcessing) ==>
        && files == Processed(old(files), rolls)
        && !isProcessing
        && overallProgress == OverallAfter(old(files), |old(files)|)
        && Ticks == old(Ticks) + RunTicks(old(files), |old(files)|)
    {
      if |files| == 0 || isProcessing {
        return;
      }
      isProcessing := true;
      overallProgress := 0;
      var snapshot := files;
      var n := |snapshot|;
      for i := 0 to n
        invariant |files| == n
        invariant forall j :: 0 <= j < i ==> files[j] == AfterRun(snapshot[j], rolls[j])
        invariant forall j :: i <= j < n ==> files[j] == snapshot[j]
        invariant overallProgress == OverallAfter(snapshot, i)
        invariant Ticks == old(Ticks) + RunTicks(snapshot, i)
      {
        if snapshot[i].status == Queued {
          files := files[i := files[i].(status := Processing)];
          AdvanceProgress(i);
          var success := rolls[i].success;
          var result := if success then Some(Outcome(rolls[i].pick + 70, if rolls[i].passed then Passed else Warned)) else None;
          files := files[i := files[i].(status := if success then Completed else Failed,
                                        result := result,
                                        error := if success then None else Some(FailureMessage))];
          overallProgress := RoundPercent(i + 1, n);
        }
      }
      isProcessing := false;
    }

    /** The inner loop of `processFiles` for entry `i`, which is processing:
        its progress is set to 0, 10, ..., 100 in turn, it stays processing,
        and no other entry changes. */
    method AdvanceProgress(i: nat)
      requires i < |files| && files[i].status == Processing
      modifies this`files, this`Ticks
      ensures files == old(files)[i := old(files)[i].(progress := 100)]
      ensures files[i].status == Processing
      ensures Ticks == old(Ticks) + EntryTicks(i)
    {
      var progress := 0;
      while progress <= 100
        invariant 0 <= progress <= 110 && progress % 10 == 0
        invariant files == old(files)[i := old(files)[i].(progress := if progress == 0 then old(files)[i].progress else progress - 10)]
        invariant Ticks == old(Ticks) + EntryTicks(i)[..progress / 10]
      {
        files := files[i := files[i].(progress := progress)];
        Ticks := Ticks + [Tick(i, files[i].status, progress)];
        assert EntryTicks(i)[..progress / 10 + 1] == EntryTicks(i)[..progress / 10] + [Tick(i, Processing, progress)];
        progress := progress + 10;
      }
      assert EntryTicks(i)[..11] == EntryTicks(i);
    }

    /** `removeFile`: drops exactly the entries with this id. */
    method RemoveFile(id: string)
      modifies this`files
      ensures files == WithoutId(old(files), id)
    {
      files := WithoutId(files, id);
    }

    /** `clearCompleted`: drops exactly the completed entries. */
    method ClearCompleted()
      modifies this`files
      ensures files == WithoutCompleted(old(files))
    {
      files := WithoutCompleted(files);
    }
  }
}
