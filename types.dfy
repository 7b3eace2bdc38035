/**
 * The records exchanged by the components: a media item, one detection
 * method's output, the metadata block and the analysis result.
 */
module Types {

  datatype Option<+T> = None | Some(value: T)

  datatype MediaKind = Image | Video | Audio

  /** What the browser hands over for a local file: its name, MIME type and size. */
  datatype LocalFile = LocalFile(name: string, mimeType: string, size: nat)

  /** A media item is backed either by a local file or by a remote URL. */
  datatype Source = LocalHandle(file: LocalFile) | RemoteUrl(url: string)

  /** `MediaFile`; `uploadedAt` is left out. */
  datatype MediaFile = MediaFile(
    id: string,
    name: string,
    kind: MediaKind,
    size: nat,
    source: Source)

  datatype Category = Visual | AudioCategory | MetadataCategory | Temporal

  /** `DetectionMethod`. */
  datatype DetectionMethod = DetectionMethod(
    name: string,
    category: Category,
    score: real,
    confidence: real,
    details: string)

  datatype Resolution = Resolution(width: nat, height: nat)

  /**
   * `MediaMetadata`, without the random `createdAt`,
   * `compressionArtifacts` and `digitalSignature` entries and without the
   * `camera` and `location` entries nothing fills in.
   */
  datatype MediaMetadata = MediaMetadata(
    resolution: Option<Resolution>,
    duration: Option<nat>,
    format: string,
    fileSize: nat)

  /** `AnalysisResult`; `analyzedAt` is left out. */
  datatype AnalysisResult = AnalysisResult(
    id: string,
    mediaId: string,
    trustScore: int,
    isAuthentic: bool,
    confidence: int,
    detectionMethods: seq<DetectionMethod>,
    metadata: MediaMetadata,
    explanation: string,
    warnings: seq<string>)
}
