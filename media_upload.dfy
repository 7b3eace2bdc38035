/**
 * The single-item upload component: how a local file or a typed URL
 * becomes a media item, and when the component hands items on.
 *
 * Item ids are built from the clock and `Math.random`; here they are
 * opaque `id` arguments, one per item.
 */
module MediaUpload {
  import opened Types
  import opened Builtins

  /** The three MIME prefixes exclude one another. */
  lemma PrefixesDisjoint(mimeType: string)
    ensures !("image/" <= mimeType && "video/" <= mimeType)
    ensures !("image/" <= mimeType && "audio/" <= mimeType)
    ensures !("video/" <= mimeType && "audio/" <= mimeType)
  {
    assert "image/" <= mimeType ==> mimeType[0] == 'i';
    assert "video/" <= mimeType ==> mimeType[0] == 'v';
    assert "audio/" <= mimeType ==> mimeType[0] == 'a';
  }

  /** `getMediaType`: the kind the MIME prefix names; image when none does. */
  function MediaTypeOf(mimeType: string): (k: MediaKind)
    ensures "image/" <= mimeType ==> k == Image
    ensures "video/" <= mimeType ==> k == Video
    ensures "audio/" <= mimeType ==> k == Audio
    ensures !("image/" <= mimeType || "video/" <= mimeType || "audio/" <= mimeType) ==> k == Image
  {
    PrefixesDisjoint(mimeType);
    if "image/" <= mimeType then Image
    else if "video/" <= mimeType then Video
    else if "audio/" <= mimeType then Audio
    else Image
  }

  /** `createMediaFile`. */
  function CreateMediaFile(file: LocalFile, id: string): (m: MediaFile)
    ensures m.id == id && m.name == file.name && m.size == file.size
    ensures m.kind == MediaTypeOf(file.mimeType)
    ensures m.source == LocalHandle(file)
  {
    MediaFile(id, file.name, MediaTypeOf(file.mimeType), file.size, LocalHandle(file))
  }

  /** The kind `createMediaFromUrl` reads off a URL: "video" wins over "audio". */
  function UrlKind(url: string): (k: MediaKind)
    ensures k == Video <==> Contains(url, "video")
    ensures k == Audio <==> !Contains(url, "video") && Contains(url, "audio")
    ensures k == Image <==> !Contains(url, "video") && !Contains(url, "audio")
  {
    if Contains(url, "video") then Video else if Contains(url, "audio") then Audio else Image
  }

  /** Any URL naming both words is a video: the "video" test comes first. */
  lemma VideoWinsOverAudio(url: string)
    requires Contains(url, "video") && Contains(url, "audio")
    ensures UrlKind(url) == Video
  {
  }

  /** Any URL naming "audio" but not "video" is audio. */
  lemma AudioUrlIsAudio(url: string)
    requires Contains(url, "audio") && !Contains(url, "video")
    ensures UrlKind(url) == Audio
  {
  }

  /** A concrete URL under an "audio" path whose file name says "video". */
  lemma VideoWinsExample()
    ensures UrlKind("https://cdn.example/audio/clip-video.mp4") == Video
  {
    var u := "https://cdn.example/audio/clip-video.mp4";
    assert OccursAt(u, "video", 31) && OccursAt(u, "audio", 20);
    VideoWinsOverAudio(u);
  }

  /** A concrete URL naming only "audio": no 'v' occurs in it at all. */
  lemma AudioUrlExample()
    ensures UrlKind("https://cdn.example/audio/clip.mp3") == Audio
  {
    var w := "https://cdn.example/audio/clip.mp3";
    assert OccursAt(w, "audio", 20);
    assert 'v' !in w;
    NotContainsFirstChar(w, "video");
    AudioUrlIsAudio(w);
  }

  /**
   * `url.split('/').pop() || 'media-file'`: the text after the last '/',
   * or "media-file" when that text is empty.
   */
  function UrlName(url: string): (name: string)
    ensures |name| > 0 && '/' !in name
    ensures (url == [] || url[|url| - 1] == '/') ==> name == "media-file"
    ensures !(url == [] || url[|url| - 1] == '/') ==>
      && |name| <= |url|
      && name == url[|url| - |name|..]
      && (|name| < |url| ==> url[|url| - |name| - 1] == '/')
  {
    var tail := AfterLastSlash(url);
    if tail == [] then "media-file" else tail
  }

  /** `createMediaFromUrl`. */
  function CreateMediaFromUrl(url: string, id: string): (m: MediaFile)
    ensures m.id == id && m.name == UrlName(url) && m.kind == UrlKind(url)
    ensures m.size == 0 && m.source == RemoteUrl(url)
  {
    MediaFile(id, UrlName(url), UrlKind(url), 0, RemoteUrl(url))
  }

  /**
   * `handleFileInput` and `handleDrop`: one media item per file, in file
   * order, handed on only when at least one file arrived (`None` stands for
   * "the callback is not called").
   */
  function FilesAdded(files: seq<LocalFile>, ids: seq<string>): (added: Option<seq<MediaFile>>)
    requires |ids| == |files|
    ensures added.None? <==> files == []
    ensures added.Some? ==> |added.value| == |files|
    ensures added.Some? ==> forall i :: 0 <= i < |files| ==> added.value[i] == CreateMediaFile(files[i], ids[i])
  {
    if |files| > 0 then
      Some(seq(|files|, i requires 0 <= i < |files| => CreateMediaFile(files[i], ids[i])))
    else
      None
  }

  /** The URL form's state after a submit, and what was handed on. */
  datatype UrlSubmission = UrlSubmission(added: Option<seq<MediaFile>>, urlInput: string, showUrlInput: bool)

  /**
   * `handleUrlSubmit`: blank or whitespace-only input changes nothing;
   * otherwise one item built from the trimmed URL is handed on and the
   * form is cleared and hidden.
   */
  function HandleUrlSubmit(urlInput: string, showUrlInput: bool, id: string): (r: UrlSubmission)
    ensures r.added.None? <==> AllWhitespace(urlInput)
    ensures r.added.None? ==> r.urlInput == urlInput && r.showUrlInput == showUrlInput
    ensures r.added.Some? ==>
      && r.added.value == [CreateMediaFromUrl(Trim(urlInput), id)]
      && r.urlInput == ""
      && !r.showUrlInput
  {
    if Trim(urlInput) != "" then
      UrlSubmission(Some([CreateMediaFromUrl(Trim(urlInput), id)]), "", false)
    else
      UrlSubmission(None, urlInput, showUrlInput)
  }

  /**
   * A submitted URL item carries a non-empty URL without surrounding
   * whitespace, taken from the middle of what was typed.
   */
  lemma SubmittedUrlIsTrimmed(urlInput: string, showUrlInput: bool, id: string)
    requires HandleUrlSubmit(urlInput, showUrlInput, id).added.Some?
    ensures var m := HandleUrlSubmit(urlInput, showUrlInput, id).added.value[0];
      && m.source.RemoteUrl?
      && var u := m.source.url;
      && u != []
      && !IsWhitespace(u[0]) && !IsWhitespace(u[|u| - 1])
      && exists a :: TrimmedAt(urlInput, u, a)
  {
  }
}
