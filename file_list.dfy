/**
 * The attachment list of a project or task: fetching the files, the
 * byte-size label, preview eligibility, the preview address and deletion
 * behind a confirmation.
 */
module FileList {
  import opened Wrappers
  import opened Http
  import opened Text
  import opened Lists
  import opened Decimal
  import Storage

  const AttachmentsPath: string := "/files/attachments/"
  const DefaultServer: string := "http://localhost:8000"
  const PdfType: string := "application/pdf"

  datatype FileItem = FileItem(id: int, is_image: bool, thumbnail_url: Option<string>, original_filename: string,
                               file_size: int, uploaded_by: string, uploaded_at: string,
                               description: Option<string>, file_type: string)

  /** The query of the fetch: the object the files are attached to. */
  function FetchParams(contentType: string, objectId: int): (ps: seq<(string, string)>)
    ensures |ps| == 2 && ps[0] == ("content_type", contentType)
    ensures ps[1].0 == "object_id" && ParseInt(ps[1].1) == Some(objectId)
  {
    IntToStringRoundTrip(objectId);
    [("content_type", contentType), ("object_id", IntToString(objectId))]
  }

  /** A size label: whole bytes below 1024, otherwise a kilobyte or megabyte figure (floating point, not modelled). */
  datatype SizeLabel = InBytes(text: string) | InKilobytes | InMegabytes

  /** `formatFileSize`. */
  function FormatFileSize(bytes: int): (l: SizeLabel)
    ensures l.InBytes? <==> bytes < 1024
    ensures l.InKilobytes? <==> 1024 <= bytes < 1024 * 1024
    ensures l.InMegabytes? <==> 1024 * 1024 <= bytes
    ensures l.InBytes? ==> |l.text| > 2 && l.text[|l.text| - 2..] == " B" && ParseInt(l.text[..|l.text| - 2]) == Some(bytes)
  {
    if bytes < 1024 then
      var t := IntToString(bytes) + " B";
      assert t[..|t| - 2] == IntToString(bytes);
      IntToStringRoundTrip(bytes);
      InBytes(t)
    else if bytes < 1024 * 1024 then InKilobytes
    else InMegabytes
  }

  /** The preview button is offered for images and PDF documents. */
  predicate CanPreview(f: FileItem) {
    f.is_image || f.file_type == PdfType
  }

  /** A thumbnail is shown for an image with a non-empty thumbnail address. */
  predicate ShowsThumbnail(f: FileItem) {
    f.is_image && Truthy(f.thumbnail_url)
  }

  /** Every file shown with a thumbnail can be previewed. */
  lemma ThumbnailImpliesPreview(f: FileItem)
    ensures ShowsThumbnail(f) ==> CanPreview(f)
    ensures !CanPreview(f) ==> !ShowsThumbnail(f) && f.file_type != PdfType
  {
  }

  /**
   * The server the preview is fetched from: the configured API base with its
   * first `/api` removed, or the local default when that leaves nothing or
   * nothing is configured.
   */
  function PreviewBase(configured: Option<string>): (base: string)
    ensures base != ""
    ensures configured.None? ==> base == DefaultServer
    ensures configured.Some? && ReplaceFirst(configured.value, "/api", "") != "" ==>
      base == ReplaceFirst(configured.value, "/api", "")
    ensures configured.Some? && IndexOf(configured.value, "/api").None? && configured.value != "" ==>
      base == configured.value
  {
    var stripped := if configured.Some? then ReplaceFirst(configured.value, "/api", "") else "";
    if stripped != "" then stripped else DefaultServer
  }

  /** A configured base that is just `/api` falls back to the local server. */
  lemma BareApiFallsBack()
    ensures PreviewBase(Some("/api")) == DefaultServer
  {
    assert OccursAt("/api", "/api", 0);
  }

  /** `${token}` of the stored token: a missing one is written as `null`. */
  function TokenText(token: Option<string>): (s: string)
    ensures token.Some? ==> s == token.value
    ensures token.None? ==> s == "null"
  {
    token.GetOr("null")
  }

  /** `/api/files/attachments/{id}/preview/`: the preview endpoint of one file, below the server. */
  function PreviewPath(fileId: int): (path: string)
    ensures path == ResourcePath("/api" + AttachmentsPath, fileId) + "preview/"
  {
    ActionPath("/api" + AttachmentsPath, fileId, "preview")
  }

  /** The address opened by the preview button: server, preview endpoint, then the token as a query. */
  function PreviewUrl(configured: Option<string>, fileId: int, token: Option<string>): string {
    PreviewBase(configured) + (PreviewPath(fileId) + ("?token=" + TokenText(token)))
  }

  /** Preview addresses of different files differ. */
  lemma PreviewUrlNamesFile(configured: Option<string>, a: int, b: int, token: Option<string>)
    requires PreviewUrl(configured, a, token) == PreviewUrl(configured, b, token)
    ensures a == b
  {
    var base, tail := PreviewBase(configured), "?token=" + TokenText(token);
    var pa, pb := PreviewPath(a), PreviewPath(b);
    assert pa + tail == PreviewUrl(configured, a, token)[|base|..];
    assert pb + tail == PreviewUrl(configured, b, token)[|base|..];
    assert |pa| == |pb|;
    assert pa == (pa + tail)[..|pa|];
    assert pb == (pb + tail)[..|pb|];
    assert ResourcePath("/api" + AttachmentsPath, a) == pa[..|pa| - 8];
    assert ResourcePath("/api" + AttachmentsPath, b) == pb[..|pb| - 8];
    ResourcePathInjective("/api" + AttachmentsPath, a, b);
  }

  /** After the server and the preview endpoint comes the stored token as the query, `null` when there is none. */
  lemma PreviewUrlCarriesToken(configured: Option<string>, fileId: int, token: Option<string>)
    ensures var front := |PreviewBase(configured)| + |PreviewPath(fileId)|;
      PreviewUrl(configured, fileId, token)[front..] == "?token=" + TokenText(token)
  {
    var b, p, t := PreviewBase(configured), PreviewPath(fileId), "?token=" + TokenText(token);
    assert PreviewUrl(configured, fileId, token) == b + (p + t);
    assert (b + (p + t))[|b|..] == p + t;
    assert (p + t)[|p|..] == t;
  }

  /** The state of one attachment list, for the object `objectId` of kind `contentType`. */
  class FileBrowser {
    const contentType: string
    const objectId: int
    const backend: Backend
    const store: Storage.LocalStorage
    /** The configured API base address, if any. */
    const configured: Option<string>
    var files: seq<FileItem>
    var loading: bool
    /** The addresses opened in new windows, oldest first. */
    var windows: seq<string>

    constructor (contentType: string, objectId: int, backend: Backend, store: Storage.LocalStorage, configured: Option<string>)
      ensures this.contentType == contentType && this.objectId == objectId
      ensures this.backend == backend && this.store == store && this.configured == configured
      ensures files == [] && loading && windows == []
    {
      this.contentType := contentType;
      this.objectId := objectId;
      this.backend := backend;
      this.store := store;
      this.configured := configured;
      files := [];
      loading := true;
      windows := [];
    }

    /** `fetchFiles()`: a failure keeps the files shown; `loading` ends false either way. */
    method FetchFiles(reply: Result<ListResponse<FileItem>, Failure>)
      modifies this, backend
      ensures backend.calls == old(backend.calls) + [Call(GET, AttachmentsPath, FetchParams(contentType, objectId), NoBody)]
      ensures reply.Success? ==> files == Normalize(reply.value)
      ensures reply.Failure? ==> files == old(files)
      ensures !loading && windows == old(windows)
    {
      backend.Issue(Call(GET, AttachmentsPath, FetchParams(contentType, objectId), NoBody));
      if reply.Success? {
        files := Normalize(reply.value);
      }
      loading := false;
    }

    /** `handleDownload(id)`: fetches the file's content; saving it is left to the browser. */
    method HandleDownload(fileId: int)
      modifies backend
      ensures backend.calls == old(backend.calls) + [Call(GET, ActionPath(AttachmentsPath, fileId, "download"), [], NoBody)]
    {
      backend.Issue(Call(GET, ActionPath(AttachmentsPath, fileId, "download"), [], NoBody));
    }

    /** `handlePreview(id)`: opens the preview address with the stored access token. */
    method HandlePreview(fileId: int)
      modifies this
      ensures windows == old(windows) + [PreviewUrl(configured, fileId, Storage.Lookup(store.items, Storage.AccessTokenKey))]
      ensures files == old(files) && loading == old(loading)
    {
      var token := store.GetItem(Storage.AccessTokenKey);
      windows := windows + [PreviewUrl(configured, fileId, token)];
    }

    /**
     * `handleDelete(id)`: nothing happens unless the user confirms; then the
     * file is deleted and, once that succeeds, the list is refetched.
     */
    method HandleDelete(fileId: int, confirmed: bool, reply: Result<(), Failure>,
                        refetch: Result<ListResponse<FileItem>, Failure>)
      modifies this, backend
      ensures !confirmed ==> backend.calls == old(backend.calls) && files == old(files) && loading == old(loading)
      ensures confirmed ==>
        backend.calls == old(backend.calls) + [Call(DELETE, ResourcePath(AttachmentsPath, fileId), [], NoBody)]
          + (if reply.Success? then [Call(GET, AttachmentsPath, FetchParams(contentType, objectId), NoBody)] else [])
      ensures confirmed && reply.Success? ==>
        !loading && files == (if refetch.Success? then Normalize(refetch.value) else old(files))
      ensures confirmed && reply.Failure? ==> files == old(files) && loading == old(loading)
      ensures windows == old(windows)
    {
      if !confirmed {
        return;
      }
      backend.Issue(Call(DELETE, ResourcePath(AttachmentsPath, fileId), [], NoBody));
      if reply.Success? {
        FetchFiles(refetch);
      }
    }
  }
}
