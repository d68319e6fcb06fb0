/** Rewriting a post's content once one of its media has finished uploading:
    the guards and the per-kind choice of content processors of
    `updateReferences(to:in:)`. What each processor does to the text is an
    input (`Editor.process`). */
module References {
  import opened Model

  /** A content processor with the arguments it is built from. */
  datatype Processor =
    | ImgUpload(uploadId: string, remoteUrl: string, width: Option<int>, height: Option<int>)
    | GutenbergImgUpload(gutenbergUploadId: int, serverMediaId: int, remoteUrl: string)
    | VideoUpload(uploadId: string, remoteUrl: string, videoPressId: Option<string>)
    | GutenbergVideoUpload(gutenbergUploadId: int, serverMediaId: int, remoteUrl: string, localUrl: Option<string>)
    | DocumentUpload(uploadId: string, remoteUrl: string, title: string)
  {
    /** Built for the block editor's markup rather than the classic editor's. */
    predicate BlockEditor()
    {
      GutenbergImgUpload? || GutenbergVideoUpload?
    }
  }

  /** The editor-side collaborators: what a processor does to content, and the
      last path component of a URL string, or None when the string is not a URL. */
  datatype Editor = Editor(process: (string, Processor) -> string, documentTitle: string -> Option<string>)

  /** The processor belongs to the handling of that media kind. */
  predicate ForKind(p: Processor, kind: MediaKind)
  {
    match p
    case ImgUpload(_, _, _, _) => kind == Image
    case GutenbergImgUpload(_, _, _) => kind == Image
    case VideoUpload(_, _, _) => kind == Video
    case GutenbergVideoUpload(_, _, _, _) => kind == Video
    case DocumentUpload(_, _, _) => kind == Document
  }

  /** The processor is built from this media's correlation ids, server id and
      remote URL: the classic-editor processors from the upload id, the
      block-editor ones from the block-editor upload id and the server id. */
  predicate Carries(p: Processor, m: Media, serverId: int, url: string)
  {
    p.remoteUrl == url &&
    match p
    case ImgUpload(id, _, w, h) => id == m.uploadId && w == m.width && h == m.height
    case GutenbergImgUpload(gid, sid, _) => gid == m.gutenbergUploadId && sid == serverId
    case VideoUpload(id, _, vp) => id == m.uploadId && vp == m.videoPressId
    case GutenbergVideoUpload(gid, sid, _, local) =>
      gid == m.gutenbergUploadId && sid == serverId && local == m.thumbnailLocalUrl
    case DocumentUpload(id, _, _) => id == m.uploadId
  }

  /** The processors run, in order, for a media of the given kind. */
  function Processors(m: Media, serverId: int, url: string, editor: Editor): (ps: seq<Processor>)
    ensures forall i :: 0 <= i < |ps| ==> ForKind(ps[i], m.kind) && Carries(ps[i], m, serverId, url)
    ensures m.kind != Document ==> |ps| == 2 && !ps[0].BlockEditor() && ps[1].BlockEditor()
    ensures m.kind == Document ==> |ps| <= 1 && (|ps| == 1 <==> editor.documentTitle(url).Some?)
    ensures m.kind == Document && |ps| == 1 ==> ps[0].DocumentUpload? && ps[0].title == editor.documentTitle(url).value
  {
    match m.kind
    case Image =>
      [ImgUpload(m.uploadId, url, m.width, m.height), GutenbergImgUpload(m.gutenbergUploadId, serverId, url)]
    case Video =>
      [VideoUpload(m.uploadId, url, m.videoPressId),
       GutenbergVideoUpload(m.gutenbergUploadId, serverId, url, m.thumbnailLocalUrl)]
    case Document =>
      match editor.documentTitle(url)
      case Some(title) => [DocumentUpload(m.uploadId, url, title)]
      case None => []
  }

  /** Runs the processors over the content, first to last. */
  function Apply(content: string, ps: seq<Processor>, process: (string, Processor) -> string): string
    decreases |ps|
  {
    if ps == [] then content else Apply(process(content, ps[0]), ps[1..], process)
  }

  /** The media is ready to be referenced from the post: the post has content,
      and the media has a server id, a remote URL and has not failed. */
  predicate Ready(p: Post, m: Media)
  {
    p.content.Some? && m.serverId.Some? && m.remoteUrl.Some? && m.remoteStatus != MediaStatus.Failed
  }

  /** Replaces the media's local references in the post's content by its
      remote ones. Only the content can change, and only when the media is ready. */
  function UpdateReferences(p: Post, m: Media, editor: Editor): (q: Post)
    ensures q == p.(content := q.content)
    ensures !Ready(p, m) ==> q == p
    ensures Ready(p, m) ==>
      q.content == Some(Apply(p.content.value, Processors(m, m.serverId.value, m.remoteUrl.value, editor), editor.process))
  {
    if p.content.None? || m.serverId.None? || m.remoteUrl.None? then p
    else if m.remoteStatus == MediaStatus.Failed then p
    else
      var url := m.remoteUrl.value;
      p.(content := Some(Apply(p.content.value, Processors(m, m.serverId.value, url, editor), editor.process)))
  }

  /** A document whose remote URL is not a URL leaves the content as it was,
      even though the rewrite stores it back. */
  lemma UnparsableDocumentKeepsContent(p: Post, m: Media, editor: Editor)
    requires m.kind == Document && m.remoteUrl.Some?
    requires editor.documentTitle(m.remoteUrl.value).None?
    ensures UpdateReferences(p, m, editor) == p
  {
  }
}
