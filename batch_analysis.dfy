/**
 * The batch component: a queue of media items the user builds up, the
 * results of analysing the whole queue, and the CSV export of those
 * results.
 */
module BatchAnalysis {
  import opened Types
  import opened Builtins
  import Analysis
  import MediaUpload

  /**
   * The batch intake's classification: image and video by MIME prefix,
   * and every other MIME type audio.
   */
  function BatchKindOf(mimeType: string): (k: MediaKind)
    ensures k == Image <==> "image/" <= mimeType
    ensures k == Video <==> "video/" <= mimeType
    ensures k == Audio <==> !("image/" <= mimeType) && !("video/" <= mimeType)
  {
    MediaUpload.PrefixesDisjoint(mimeType);
    if "image/" <= mimeType then Image
    else if "video/" <= mimeType then Video
    else Audio
  }

  /**
   * The batch intake and the single upload agree exactly on MIME types with
   * an image, video or audio prefix; on any other type the upload falls
   * back to image and the batch to audio.
   */
  lemma IntakeFallbacksDiffer(mimeType: string)
    ensures BatchKindOf(mimeType) == MediaUpload.MediaTypeOf(mimeType)
      <==> ("image/" <= mimeType || "video/" <= mimeType || "audio/" <= mimeType)
    ensures !("image/" <= mimeType || "video/" <= mimeType || "audio/" <= mimeType) ==>
      BatchKindOf(mimeType) == Audio && MediaUpload.MediaTypeOf(mimeType) == Image
  {
    MediaUpload.PrefixesDisjoint(mimeType);
  }

  /** The media item the batch intake builds for one file. */
  function BatchMediaFile(file: LocalFile, id: string): (m: MediaFile)
    ensures m.id == id && m.name == file.name && m.size == file.size
    ensures m.kind == BatchKindOf(file.mimeType) && m.source == LocalHandle(file)
  {
    MediaFile(id, file.name, BatchKindOf(file.mimeType), file.size, LocalHandle(file))
  }

  /** `files.map(...)` in the batch `handleFileInput`: one item per file, in order. */
  function BatchIntake(files: seq<LocalFile>, ids: seq<string>): (ms: seq<MediaFile>)
    requires |ids| == |files|
    ensures |ms| == |files|
    ensures forall i :: 0 <= i < |files| ==> ms[i] == BatchMediaFile(files[i], ids[i])
  {
    seq(|files|, i requires 0 <= i < |files| => BatchMediaFile(files[i], ids[i]))
  }

  // ---------------------------------------------------------------------
  // Removing from the queue

  /** `files.filter(f => f.id !== id)`. */
  function Without(files: seq<MediaFile>, id: string): seq<MediaFile>
  {
    if files == [] then []
    else if files[0].id != id then [files[0]] + Without(files[1..], id)
    else Without(files[1..], id)
  }

  /**
   * Filtering drops exactly the entries with that id: nothing with the id
   * is left and every other entry is kept.
   */
  lemma {:induction false} WithoutMembers(files: seq<MediaFile>, id: string)
    ensures |Without(files, id)| <= |files|
    ensures forall f :: f in Without(files, id) <==> f in files && f.id != id
  {
    if files != [] {
      WithoutMembers(files[1..], id);
      assert files == [files[0]] + files[1..];
    }
  }

  /** Filtering a concatenation filters each part: the order of what is kept is the input order. */
  lemma {:induction false} WithoutAppend(a: seq<MediaFile>, b: seq<MediaFile>, id: string)
    ensures Without(a + b, id) == Without(a, id) + Without(b, id)
  {
    if a == [] {
      assert a + b == b;
    } else {
      assert (a + b)[1..] == a[1..] + b;
      WithoutAppend(a[1..], b, id);
    }
  }

  /** Removing the same id twice removes nothing more. */
  lemma {:induction false} WithoutIdempotent(files: seq<MediaFile>, id: string)
    ensures Without(Without(files, id), id) == Without(files, id)
  {
    if files != [] {
      WithoutIdempotent(files[1..], id);
    }
  }

  // ---------------------------------------------------------------------
  // CSV export

  /** `batchFiles.find(f => f.id === id)`: the first entry with that id. */
  function FindById(files: seq<MediaFile>, id: string): (r: Option<MediaFile>)
    ensures r.None? <==> forall i :: 0 <= i < |files| ==> files[i].id != id
    ensures r.Some? ==> exists i :: (0 <= i < |files| && files[i] == r.value
      && r.value.id == id && forall j :: 0 <= j < i ==> files[j].id != id)
  {
    if files == [] then None
    else if files[0].id == id then Some(files[0])
    else
      var r := FindById(files[1..], id);
      assert r.Some? ==> exists i :: (0 <= i < |files| && files[i] == r.value
        && r.value.id == id && forall j :: 0 <= j < i ==> files[j].id != id)
      by {
        if r.Some? {
          var i :| 0 <= i < |files[1..]| && files[1..][i] == r.value
            && r.value.id == id && forall j :: 0 <= j < i ==> files[1..][j].id != id;
          assert files[i + 1] == r.value;
          assert forall j :: 1 <= j < i + 1 ==> files[j] == files[1..][j - 1];
        }
      }
      r
  }

  const CsvHeader := "File Name,Trust Score,Authentic,Confidence,Warnings"

  /** `${file?.name}`: the name of the analysed file, or "undefined" when it is no longer queued. */
  function NameText(files: seq<MediaFile>, mediaId: string): (t: string)
    ensures FindById(files, mediaId).Some? ==> t == FindById(files, mediaId).value.name
    ensures FindById(files, mediaId).None? ==> t == "undefined"
  {
    match FindById(files, mediaId)
    case Some(f) => f.name
    case None => "undefined"
  }

  /** One CSV line: quoted name, score, verdict, confidence, quoted warnings joined by "; ". */
  function CsvRow(r: AnalysisResult, files: seq<MediaFile>): string
  {
    "\"" + NameText(files, r.mediaId) + "\"," + IntToText(r.trustScore) + ","
      + BoolToText(r.isAuthentic) + "," + IntToText(r.confidence) + ",\""
      + Join(r.warnings, "; ") + "\""
  }

  function CsvRows(results: seq<AnalysisResult>, files: seq<MediaFile>): (rows: seq<string>)
    ensures |rows| == |results|
  {
    seq(|results|, i requires 0 <= i < |results| => CsvRow(results[i], files))
  }

  /** `csvContent` in `exportResults`. */
  function ExportCsv(results: seq<AnalysisResult>, files: seq<MediaFile>): string
  {
    Join([CsvHeader] + CsvRows(results, files), "\n")
  }

  /** With no results the export is the header line alone. */
  lemma ExportEmpty(files: seq<MediaFile>)
    ensures ExportCsv([], files) == CsvHeader
  {
    assert [CsvHeader] + CsvRows([], files) == [CsvHeader];
  }

  /** One more result adds exactly one line, its own, at the end. */
  lemma ExportAppend(results: seq<AnalysisResult>, r: AnalysisResult, files: seq<MediaFile>)
    ensures ExportCsv(results + [r], files) == ExportCsv(results, files) + "\n" + CsvRow(r, files)
  {
    assert [CsvHeader] + CsvRows(results + [r], files) == ([CsvHeader] + CsvRows(results, files)) + [CsvRow(r, files)];
    JoinSnoc([CsvHeader] + CsvRows(results, files), CsvRow(r, files), "\n");
  }

  /**
   * The warnings column of an analysis result: empty quotes when it is
   * authentic, otherwise the three standard warnings joined by "; ".
   */
  lemma WarningsColumn(media: MediaFile, rds: Analysis.Readings, resultId: string)
    ensures var r := Analysis.Analyze(media, rds, resultId);
      var ws := Analysis.StandardWarnings;
      Join(r.warnings, "; ") == if r.isAuthentic then "" else ws[0] + "; " + ws[1] + "; " + ws[2]
  {
    var ws := Analysis.StandardWarnings;
    assert ws == [ws[0], ws[1], ws[2]];
    JoinThree(ws[0], ws[1], ws[2], "; ");
  }

  /** The warnings cell of the results table: "N warnings", or "None" when there are none. */
  function WarningsSummary(warnings: seq<string>): (t: string)
    ensures t == "None" <==> |warnings| == 0
    ensures |warnings| > 0 ==> t == NatToText(|warnings|) + " warnings"
  {
    if |warnings| > 0 then NatToText(|warnings|) + " warnings" else "None"
  }

  // ---------------------------------------------------------------------
  // The component's state

  class BatchQueue {
    var batchFiles: seq<MediaFile>
    var results: seq<AnalysisResult>

    constructor ()
      ensures batchFiles == [] && results == []
    {
      batchFiles := [];
      results := [];
    }

    /** `handleFileInput`: the new items go after the queued ones, both in order. */
    method AddFiles(files: seq<LocalFile>, ids: seq<string>)
      requires |ids| == |files|
      modifies this
      ensures batchFiles == old(batchFiles) + BatchIntake(files, ids)
      ensures results == old(results)
    {
      batchFiles := batchFiles + BatchIntake(files, ids);
    }

    /** `removeFile`. */
    method RemoveFile(id: string)
      modifies this
      ensures batchFiles == Without(old(batchFiles), id)
      ensures results == old(results)
    {
      batchFiles := Without(batchFiles, id);
    }

    /** `clearAll`. */
    method ClearAll()
      modifies this
      ensures batchFiles == [] && results == []
    {
      batchFiles := [];
      results := [];
    }

    /**
     * `startBatchAnalysis`: nothing happens on an empty queue; otherwise the
     * whole queue is analysed and the results replaced by what comes back.
     */
    method StartBatchAnalysis(hook: Analysis.AnalysisHook, rds: seq<Analysis.Readings>, ids: seq<string>)
      requires |rds| == |batchFiles| && |ids| == |batchFiles|
      modifies this, hook
      ensures batchFiles == old(batchFiles)
      ensures old(batchFiles) == [] ==> results == old(results) && unchanged(hook)
      ensures old(batchFiles) != [] ==> results == Analysis.AnalyzeAll(batchFiles, rds, ids)
      ensures old(batchFiles) != [] ==> !hook.isAnalyzing && hook.progress == 100
      ensures old(batchFiles) != [] ==>
        hook.history == old(hook.history) + Analysis.BatchTrace(old(hook.progress), |batchFiles|, |batchFiles|)
    {
      if |batchFiles| == 0 {
        return;
      }
      var batchResults := hook.AnalyzeBatch(batchFiles, rds, ids);
      results := batchResults;
    }
  }
}
