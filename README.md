# Deepfake Guardian: a Dafny model of the analysis core

This project models the core of the AI-Powered Reality Verifier ("Deepfake
Guardian") web app. In that app a user uploads images, videos or audio
clips, one at a time or as a batch. A simulated detector gives each item a
trust score from 0 to 100, a verdict (authentic or suspicious), warnings,
and metadata. Dashboards and result panels show those scores. The batch
page has a CSV export, but as written its results section cannot render
(see "## Left out").

The model has one module per core file:

- `Analysis` (`use_analysis.dfy`) covers the `useAnalysis` hook.
  - `analyzeMedia` and `analyzeBatch` are methods of the class
    `AnalysisHook`. Its fields are the hook's two pieces of React state,
    `isAnalyzing` and `progress`.
  - A ghost `history` records every state write, one snapshot per setter
    call. This lets the methods state the exact sequence of state writes.
    React may render several consecutive writes together, so not every
    write is displayed.
  - The pure parts (method selection, the mean, rounding, the verdict,
    warnings and metadata) are functions. The methods are proved against
    them.
- `MediaUpload` (`media_upload.dfy`) covers the single-upload component:
  - the MIME-type classification;
  - item construction from a file or from a URL;
  - the URL name and kind rules;
  - the drop and file-input hand-off;
  - URL submission, including trimming.
- `BatchAnalysis` (`batch_analysis.dfy`) covers the batch component. The
  class `BatchQueue` holds the `batchFiles` and `results` state, and its
  methods are the add, remove, clear and start-analysis handlers. The
  module also has the CSV export and the "N warnings" summary cell, which
  the component as written cannot reach (see "## Left out").
- `ResultPanel` (`analysis_result.dfy`) covers the result panel: the
  colour, background and icon bands, the headline, the warnings panel, and
  the per-method percentages.
- `Dashboard` (`dashboard.dfy`) covers the dashboard statistics, the
  authenticity rate, the first five entries of the list and their colours.
- `ProgressPanel` (`analysis_progress.dfy`) covers the stage the progress
  panel shows.
- `Types` (`types.dfy`) holds the records of `types/index.ts`. `Builtins`
  (`builtins.dfy`) holds the JavaScript built-ins the core relies on:
  - `Math.round`;
  - `String.prototype.includes`, `trim` and `split('/').pop()`;
  - `Array.prototype.join`;
  - number and boolean to string.

Where the app draws random numbers, the model takes them as arguments
instead:

- The scores and confidences of the detection methods are a `Readings`
  argument.
- Item and result ids (built from `Date.now()` and `Math.random()`) are
  opaque string arguments.

The placeholder ranges the app draws from are the predicate
`Analysis.PlaceholderReadings`.

Three behaviours of the code are easy to misread; the model follows the
code:

- Batch progress after item `i` (0-based) of `n` is
  `Math.round((i + 1) / n * 100)`, not `i / n`.
- There is no failure path for a detector. No method set is ever empty,
  and scores are not clamped.
- The batch intake classifies every MIME type that is neither `image/` nor
  `video/` as audio. The single upload falls back to image.

## Model

| member | source | states |
|---|---|---|
| Builtins.Round | project/src/hooks/useAnalysis.ts:55 | `Math.round` gives the integer within half a unit of its argument (ties round up) |
| Builtins.RoundMonotone | project/src/hooks/useAnalysis.ts:96 | rounding preserves order, which the batch progress depends on |
| Builtins.RoundWithin | project/src/components/Dashboard.tsx:16-18 | a value between two integers rounds to a value between them |
| Builtins.Contains | project/src/components/MediaUpload.tsx:32 | `includes` is true exactly when the pattern occurs at some position |
| Builtins.NotContainsFirstChar | project/src/components/MediaUpload.tsx:32 | `includes` is false when the pattern's first character never appears |
| Builtins.Trim | project/src/components/MediaUpload.tsx:74-75 | `trim` returns a contiguous slice with whitespace ends removed; the result is empty exactly when the input is all whitespace |
| Builtins.AfterLastSlash | project/src/components/MediaUpload.tsx:35 | `split('/').pop()` is the longest slash-free suffix, and a '/' precedes it when it is shorter than the input |
| Builtins.JoinSnoc | project/src/components/BatchAnalysis.tsx:50-56 | joining one more part appends the separator and that part |
| Builtins.JoinThree | project/src/components/BatchAnalysis.tsx:54 | joining three parts puts the separator between each neighbouring pair |
| Builtins.Join | project/src/components/BatchAnalysis.tsx:54-56 | `Array.prototype.join`; its behaviour is stated by `JoinSnoc` and `JoinThree` |
| Builtins.NatToText | project/src/components/BatchAnalysis.tsx:54 | decimal text of a number: non-empty digits without a leading zero |
| Builtins.NatToTextRoundTrip | project/src/components/BatchAnalysis.tsx:54 | parsing the decimal text gives the number back |
| Builtins.IntToText | project/src/components/BatchAnalysis.tsx:54 | an integer's text is its magnitude's digits, with "-" in front when negative |
| Builtins.BoolToText | project/src/components/BatchAnalysis.tsx:54 | a boolean's text is "true" or "false", each exactly when the value is that boolean |
| Analysis.MethodSelection | project/src/hooks/useAnalysis.ts:20-52 | every kind runs facial, temporal and compression analysis in that order; audio alone adds spectral analysis last |
| Analysis.MethodsFor | project/src/hooks/useAnalysis.ts:20-52 | the method list for a kind; its order and names are stated by `MethodSelection`, its scores by `SumOfMethods` and `MethodsInUnit` |
| Analysis.SumOfMethods | project/src/hooks/useAnalysis.ts:54 | the score sum of the selected methods is the sum of the three or four drawn scores |
| Analysis.SumScores | project/src/hooks/useAnalysis.ts:54 | the `reduce` sum of the scores; its bounds are stated by `SumScoresBounds` and its value for each kind by `SumOfMethods` |
| Analysis.MeanScore | project/src/hooks/useAnalysis.ts:54 | `avgScore`, the sum divided by the number of methods; used by `TrustScore` |
| Analysis.TrustScore | project/src/hooks/useAnalysis.ts:55 | `Math.round(avgScore * 100)`; its bounds are stated by `TrustScoreBounds` and `PlaceholderTrust` |
| Analysis.SumScoresBounds | project/src/hooks/useAnalysis.ts:54 | with scores in [0, 1] the sum lies in [0, number of methods] |
| Analysis.MethodsInUnit | project/src/hooks/useAnalysis.ts:20-52 | with draws in [0, 1] every selected method's score is in [0, 1] |
| Analysis.TrustScoreBounds | project/src/hooks/useAnalysis.ts:54-55 | with scores in [0, 1] the trust score lies in [0, 100] |
| Analysis.BuildMetadata | project/src/hooks/useAnalysis.ts:65-69 | the resolution is 1920x1080 exactly when the item is not audio; the duration is 45 exactly when it is not an image; the format is JPEG/MP4/WAV by kind; the file size is the item's size |
| Analysis.Aggregate | project/src/hooks/useAnalysis.ts:54-83 | trust score = rounded mean score x 100 and confidence equals it; authentic exactly when trust > 60; the three standard warnings exactly when not authentic; the explanation matches the verdict; ids, methods and metadata as built |
| Analysis.Analyze | project/src/hooks/useAnalysis.ts:20-83 | the result refers to the analysed item and carries the method set its kind selects |
| Analysis.BuildResult | project/src/hooks/useAnalysis.ts:19-83 | building the three methods, pushing spectral analysis for audio and aggregating gives exactly `Analyze` |
| Analysis.AnalyzeAll | project/src/hooks/useAnalysis.ts:90-100 | one result per item, in item order, each about its own item |
| Analysis.AnalyzeVerdict | project/src/hooks/useAnalysis.ts:54-81 | with the draws it uses in [0, 1] (the spectral one only for audio), every analysis has trust in [0, 100], confidence = trust, authentic iff trust > 60, and warnings iff not authentic |
| Analysis.PlaceholderAlwaysAuthentic | project/src/hooks/useAnalysis.ts:20-56 | with the placeholder draw ranges every analysis scores at least 65, is authentic, has no warnings and carries the authentic explanation |
| Analysis.PlaceholderTrust | project/src/hooks/useAnalysis.ts:20-55 | with the placeholder draw ranges the trust score is in [65, 100] for every media kind |
| Analysis.ExampleAuthentic | project/src/hooks/useAnalysis.ts:54-56 | scores 0.9, 0.85 and 0.95 give trust 90 and an authentic verdict |
| Analysis.ExampleSuspicious | project/src/hooks/useAnalysis.ts:54-81 | scores 0.5, 0.4 and 0.55 give trust 48, a suspicious verdict and the three warnings |
| Analysis.MediaTraceCheckpoints | project/src/hooks/useAnalysis.ts:9-17 | one analysis writes ten states: analysing at the previous progress, analysing at 0, then 10, 25, 45, 70, 85, 100 in strictly increasing order, and finally idle at 100 and idle at 0 |
| Analysis.MediaTrace | project/src/hooks/useAnalysis.ts:9-17 | the writes of one analysis; their content is stated by `MediaTraceCheckpoints` |
| Analysis.BatchProgress | project/src/hooks/useAnalysis.ts:96 | the batch progress after an item; stated by `BatchProgressBounds`, `BatchProgressMonotone` and `BatchProgressLast` |
| Analysis.BatchTrace | project/src/hooks/useAnalysis.ts:93-97 | the writes of a batch; stated by `BatchTraceLength` and `BatchTraceItemEnd` |
| Analysis.BatchProgressBounds | project/src/hooks/useAnalysis.ts:96 | batch progress is a percentage in [0, 100] |
| Analysis.BatchProgressMonotone | project/src/hooks/useAnalysis.ts:96 | batch progress never decreases from one item to the next |
| Analysis.BatchProgressLast | project/src/hooks/useAnalysis.ts:96 | after the last item batch progress is exactly 100 |
| Analysis.BatchTraceLength | project/src/hooks/useAnalysis.ts:93-97 | each item writes eleven states: its analysis plus the batch step |
| Analysis.BatchTraceItemEnd | project/src/hooks/useAnalysis.ts:93-97 | after item j the hook is idle, at batch progress `round((j + 1) / n * 100)` |
| Analysis.AnalysisHook.constructor | project/src/hooks/useAnalysis.ts:5-6 | the hook starts idle at progress 0 |
| Analysis.AnalysisHook.SetIsAnalyzing | project/src/hooks/useAnalysis.ts:5 | the setter changes only `isAnalyzing` and records one write |
| Analysis.AnalysisHook.SetProgress | project/src/hooks/useAnalysis.ts:6 | the setter changes only `progress` and records one write |
| Analysis.AnalysisHook.StepThroughCheckpoints | project/src/hooks/useAnalysis.ts:13-17 | the checkpoint loop writes 10, 25, 45, 70, 85 and 100 in order, still analysing, and ends at 100 |
| Analysis.AnalysisHook.AnalyzeMedia | project/src/hooks/useAnalysis.ts:8-88 | returns exactly `Analyze` of the item; ends idle at progress 0; the state writes are exactly the checkpoint trace |
| Analysis.AnalysisHook.AnalyzeBatch | project/src/hooks/useAnalysis.ts:90-100 | returns `AnalyzeAll` (one result per item, in order); the writes are each item's trace followed by its batch step; ends idle at 100 for a non-empty batch and leaves the state untouched for an empty one |
| MediaUpload.PrefixesDisjoint | project/src/components/MediaUpload.tsx:15-20 | no MIME type starts with two of "image/", "video/" and "audio/" |
| MediaUpload.MediaTypeOf | project/src/components/MediaUpload.tsx:15-20 | image, video or audio by MIME prefix; image when no prefix matches |
| MediaUpload.CreateMediaFile | project/src/components/MediaUpload.tsx:22-29 | the item takes the file's name and size, the kind of its MIME type, and the file itself |
| MediaUpload.UrlKind | project/src/components/MediaUpload.tsx:32 | video exactly when the URL contains "video"; audio exactly when it contains "audio" but not "video"; image otherwise |
| MediaUpload.VideoWinsOverAudio | project/src/components/MediaUpload.tsx:32 | every URL that contains both "video" and "audio" is a video, because the "video" test comes first |
| MediaUpload.AudioUrlIsAudio | project/src/components/MediaUpload.tsx:32 | every URL that contains "audio" but not "video" is audio |
| MediaUpload.VideoWinsExample | project/src/components/MediaUpload.tsx:32 | the single URL `https://cdn.example/audio/clip-video.mp4` is a video |
| MediaUpload.AudioUrlExample | project/src/components/MediaUpload.tsx:32 | the single URL `https://cdn.example/audio/clip.mp3` is audio |
| MediaUpload.UrlName | project/src/components/MediaUpload.tsx:35 | the name is non-empty and slash-free: "media-file" for an empty URL or one ending in '/', otherwise the text after the last '/' |
| MediaUpload.CreateMediaFromUrl | project/src/components/MediaUpload.tsx:31-41 | a URL item has size 0, the URL as source, and the URL's name and kind |
| MediaUpload.FilesAdded | project/src/components/MediaUpload.tsx:53-71 | the callback runs exactly when at least one file arrived, with one item per file in order |
| MediaUpload.HandleUrlSubmit | project/src/components/MediaUpload.tsx:73-80 | whitespace-only input changes nothing and hands nothing on; otherwise exactly one item from the trimmed URL is handed on, and the input is cleared and hidden |
| MediaUpload.SubmittedUrlIsTrimmed | project/src/components/MediaUpload.tsx:73-76 | a submitted URL is a non-empty slice of the input with no whitespace at either end |
| BatchAnalysis.BatchKindOf | project/src/components/BatchAnalysis.tsx:24-25 | image or video by MIME prefix; audio for every other type |
| BatchAnalysis.IntakeFallbacksDiffer | project/src/components/BatchAnalysis.tsx:24-25 | batch and single upload agree exactly on types with a known prefix; otherwise batch says audio and upload says image |
| BatchAnalysis.BatchMediaFile | project/src/components/BatchAnalysis.tsx:21-29 | a batch item takes the file's name, size and batch kind, and the file itself |
| BatchAnalysis.BatchIntake | project/src/components/BatchAnalysis.tsx:20-29 | one batch item per chosen file, in order |
| BatchAnalysis.Without | project/src/components/BatchAnalysis.tsx:34 | `filter(f => f.id !== id)`; stated by `WithoutMembers`, `WithoutAppend` and `WithoutIdempotent` |
| BatchAnalysis.WithoutMembers | project/src/components/BatchAnalysis.tsx:33-35 | removal keeps exactly the entries whose id differs |
| BatchAnalysis.WithoutAppend | project/src/components/BatchAnalysis.tsx:34 | filtering a concatenation filters each part, so kept entries stay in order |
| BatchAnalysis.WithoutIdempotent | project/src/components/BatchAnalysis.tsx:33-35 | removing the same id twice removes nothing more |
| BatchAnalysis.FindById | project/src/components/BatchAnalysis.tsx:53 | `find` gives the first entry with the id, and nothing exactly when no entry has it |
| BatchAnalysis.NameText | project/src/components/BatchAnalysis.tsx:53-54 | the name cell is the found file's name, or "undefined" when the file is no longer queued |
| BatchAnalysis.CsvRow | project/src/components/BatchAnalysis.tsx:54 | the CSV line of one result; its cells are stated by `NameText`, `IntToText`, `BoolToText` and `WarningsColumn` |
| BatchAnalysis.CsvRows | project/src/components/BatchAnalysis.tsx:52-55 | one CSV line per result |
| BatchAnalysis.ExportCsv | project/src/components/BatchAnalysis.tsx:50-56 | the whole CSV text; stated by `ExportEmpty` and `ExportAppend` |
| BatchAnalysis.ExportEmpty | project/src/components/BatchAnalysis.tsx:50-56 | without results the export is the header line alone |
| BatchAnalysis.ExportAppend | project/src/components/BatchAnalysis.tsx:50-56 | one more result adds a newline and its own line at the end of the export |
| BatchAnalysis.WarningsColumn | project/src/components/BatchAnalysis.tsx:54 | an authentic analysis has an empty warnings cell; otherwise the cell holds the three standard warnings joined by "; " |
| BatchAnalysis.WarningsSummary | project/src/components/BatchAnalysis.tsx:205 | "None" exactly when there are no warnings, otherwise "N warnings" |
| BatchAnalysis.BatchQueue.constructor | project/src/components/BatchAnalysis.tsx:16-17 | the queue and the results start empty |
| BatchAnalysis.BatchQueue.AddFiles | project/src/components/BatchAnalysis.tsx:19-31 | new items go after the queued ones, in order; results unchanged |
| BatchAnalysis.BatchQueue.RemoveFile | project/src/components/BatchAnalysis.tsx:33-35 | the queue loses exactly the entries with that id; results unchanged |
| BatchAnalysis.BatchQueue.ClearAll | project/src/components/BatchAnalysis.tsx:44-47 | queue and results both become empty |
| BatchAnalysis.BatchQueue.StartBatchAnalysis | project/src/components/BatchAnalysis.tsx:37-42 | an empty queue changes nothing, the hook included; otherwise the results become the analysis of the whole queue, in order, the hook ends idle at 100, and the hook's writes are exactly the batch trace |
| ResultPanel.TrustColor | project/src/components/AnalysisResult.tsx:11-15 | green exactly from 80, yellow exactly in [60, 80), red exactly below 60 |
| ResultPanel.TrustBg | project/src/components/AnalysisResult.tsx:17-21 | the background bands have the same thresholds |
| ResultPanel.TrustIcon | project/src/components/AnalysisResult.tsx:23-27 | check shield from 80, plain shield in [60, 80), alert shield below 60 |
| ResultPanel.BandsAgree | project/src/components/AnalysisResult.tsx:11-27 | colour, background and icon always pick the same band |
| ResultPanel.SixtyIsYellowButSuspicious | project/src/components/AnalysisResult.tsx:11-27 | trust exactly 60 is shown yellow with the plain shield, yet the verdict is suspicious with three warnings |
| ResultPanel.Headline | project/src/components/AnalysisResult.tsx:41 | "Likely Authentic" exactly for authentic results, "Potential Manipulation Detected" exactly for the rest |
| ResultPanel.WarningsPanelMatchesHeadline | project/src/components/AnalysisResult.tsx:41-61 | for an analysis the warnings panel shows exactly when the headline is the suspicious one |
| ResultPanel.ShowsWarnings | project/src/components/AnalysisResult.tsx:61 | whether the warnings panel renders; related to the verdict by `WarningsPanelMatchesHeadline` |
| ResultPanel.MethodPercent | project/src/components/AnalysisResult.tsx:86 | a score in [0, 1] shows as a percentage in [0, 100] |
| ResultPanel.MethodColor | project/src/components/AnalysisResult.tsx:85 | the colour of a method's percentage, banded by `TrustColor` on the unrounded value; see `MethodBandUsesUnroundedScore` |
| ResultPanel.MethodBandUsesUnroundedScore | project/src/components/AnalysisResult.tsx:85-86 | a score of 0.795 reads "80%" but is coloured yellow, because the band uses the unrounded value |
| Dashboard.NonZero | project/src/components/Dashboard.tsx:17 | `n \|\| 1` is at least 1 and equals n when n > 0 |
| Dashboard.ComputeStats | project/src/components/Dashboard.tsx:12-19 | the `stats` object; stated by `StatsConsistent`, `CountsPartition` and `EmptyDashboard` |
| Dashboard.AuthenticityRate | project/src/components/Dashboard.tsx:21 | the authenticity rate; stated by `RateBounds`, `AllAuthenticRate` and `PlaceholderBatchRate` |
| Dashboard.CountAuthentic | project/src/components/Dashboard.tsx:14 | `filter(r => r.isAuthentic).length`; stated by `CountsPartition` and `CountsAllWhenAllAuthentic` |
| Dashboard.CountSuspicious | project/src/components/Dashboard.tsx:15 | `filter(r => !r.isAuthentic).length`; stated by `CountsPartition` |
| Dashboard.SumTrust | project/src/components/Dashboard.tsx:17 | the `reduce` sum of the trust scores; stated by `SumTrustBounds` |
| Dashboard.CountsPartition | project/src/components/Dashboard.tsx:13-15 | authentic plus suspicious equals the total |
| Dashboard.SumTrustBounds | project/src/components/Dashboard.tsx:17 | with trust scores in [0, 100] their sum lies in [0, 100 x count] |
| Dashboard.StatsConsistent | project/src/components/Dashboard.tsx:12-19 | the counts add up to the total and the average trust score is in [0, 100] |
| Dashboard.RateBounds | project/src/components/Dashboard.tsx:21 | the authenticity rate is a percentage in [0, 100] |
| Dashboard.EmptyDashboard | project/src/components/Dashboard.tsx:12-21 | without analyses every figure is 0, and no division by zero happens |
| Dashboard.CountsAllWhenAllAuthentic | project/src/components/Dashboard.tsx:14 | when every analysis is authentic, all are counted authentic |
| Dashboard.AllAuthenticRate | project/src/components/Dashboard.tsx:21 | a non-empty list that is all authentic has rate 100 |
| Dashboard.PlaceholderBatchRate | project/src/components/Dashboard.tsx:21 | any non-empty batch analysed with the placeholder draws has rate 100 |
| Dashboard.Recent | project/src/components/Dashboard.tsx:99 | `slice(0, 5)` is the first min(n, 5) entries, in order |
| Dashboard.ScoreColor | project/src/components/Dashboard.tsx:113-115 | the colour of a recent entry's score; stated by `ScoreColorMatchesResultPanel` |
| Dashboard.ScoreColorMatchesResultPanel | project/src/components/Dashboard.tsx:113-115 | the recent list bands a trust score exactly as the result panel does: green from 80, yellow in [60, 80), red below 60 |
| ProgressPanel.GetStage | project/src/components/AnalysisProgress.tsx:12-17 | preprocessing below 25, running in [25, 50), validating in [50, 75), finalizing from 75 |
| ProgressPanel.Panel | project/src/components/AnalysisProgress.tsx:9-19 | nothing is rendered exactly when no analysis runs; otherwise the stage of the progress |
| ProgressPanel.StageMonotone | project/src/components/AnalysisProgress.tsx:12-17 | more progress never shows an earlier stage |
| ProgressPanel.CheckpointStages | project/src/components/AnalysisProgress.tsx:12-17 | the six checkpoints show preprocessing, running twice, validating, then finalizing twice |
| ProgressPanel.StagesAdvanceDuringAnalysis | project/src/components/AnalysisProgress.tsx:9-17 | from the reset to 0 on, until the analysis ends, the panel stays visible and its stage only moves forward; it is hidden at both of the final writes (idle at 100, idle at 0) |
| ProgressPanel.StageStepsBackAtStart | project/src/components/AnalysisProgress.tsx:9-17 | the first write of an analysis carries the previous progress, because `isAnalyzing` is set before the progress is reset (useAnalysis.ts lines 9-10); from 25 on, the panel state of the second write is at an earlier stage. Both writes happen in one synchronous step, so React renders them together and this first stage is not displayed |
| ProgressPanel.NextAnalysisAfterBatch | project/src/components/AnalysisProgress.tsx:12-17 | a batch leaves the progress at 100, so the first write of the next analysis carries the finalizing stage and the second the preprocessing stage. React renders the two writes together, so the panel goes straight to "Preprocessing media..." |
| ProgressPanel.StageText | project/src/components/AnalysisProgress.tsx:13-16 | the text of each stage; distinct per stage by `StageTextDistinct` |
| ProgressPanel.StageTextDistinct | project/src/components/AnalysisProgress.tsx:13-16 | the four stage texts are pairwise different, so the text shown identifies the stage; which stage is shown is stated by `GetStage`, `StagesAdvanceDuringAnalysis` and `StageStepsBackAtStart` |

## Left out

- Randomness: `Math.random()` draws are the `Readings` argument, and item and result ids are string arguments. Whether two ids can collide is not modelled.
- Dates: `uploadedAt`, `analyzedAt` and `metadata.createdAt` are not modelled, because they come from the clock.
- The random `compressionArtifacts` and `digitalSignature` flags of the metadata are not modelled.
- Time and interleaving: the 400 ms waits, `async`/`await`, and React's batching of state updates are not modelled. The hook's history records each setter call as one write, in program order. The model also does not cover a second analysis started while one is running.
- Floating point: arithmetic is on exact reals. `Math.round` is `floor(x + 0.5)`. IEEE rounding of `/` and `*` is not modelled, for example 0.795 * 100 is taken exactly as 79.5.
- Analysis.AnalysisHook.AnalyzeBatch: requires one reading and one id per item. These are arguments the model adds, so the source has no such precondition.
- BatchAnalysis.BatchQueue.StartBatchAnalysis: requires one reading and one id per queued item, for the same reason.
- Analysis.Aggregate: requires a non-empty method set. The code always builds three or four methods, so the source's division by zero on an empty set cannot happen.
- CSV export: the file download (`Blob`, `URL.createObjectURL`, the anchor click) is not modelled. The model covers only the CSV text, as `ExportCsv(results, batchFiles)`. Quotes inside names or warnings are not escaped, as in the code.
- The share modal, sign-in (`useAuth`), the time-range selector on the dashboard, drag highlighting (`dragActive`), the icons and all layout are not modelled.
- The app shell that wires the components together (`App.tsx`) is not part of this model.
- Strings are sequences of Unicode scalar values, while JavaScript strings are UTF-16 code units. Lengths and indices of text outside the Basic Multilingual Plane therefore differ. The model does not depend on this: `includes("video")`, `includes("audio")`, `split('/')` and the whitespace set of `trim` all involve only Basic Multilingual Plane characters.
- BatchAnalysis.ExportCsv: models the `csvContent` expression as written (BatchAnalysis.tsx:50-56), but the program cannot reach it. The Export CSV button sits in the results section (BatchAnalysis.tsx:157-215). That section's row template calls `getTrustColor` (BatchAnalysis.tsx:190), which this file neither defines nor imports; the only `getTrustColor` is local to the result panel (AnalysisResult.tsx:11). So rendering a non-empty `results` throws a ReferenceError before the button appears. The model does not capture this rendering failure.
- BatchAnalysis.WarningsSummary: models the "N warnings" cell as written (BatchAnalysis.tsx:205). That cell is in the same results rows, so for the reason above it is never rendered.
