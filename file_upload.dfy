/**
 * The attachment upload form: the size check on selection, the guard
 * against uploading nothing, the multipart payload and the state after
 * either outcome.
 */
module FileUpload {
  import opened Wrappers
  import opened Http
  import opened Decimal

  const MaxFileSize: nat := 10 * 1024 * 1024
  const AttachmentsPath: string := "/files/attachments/"
  const SizeError: string := "File size cannot exceed 10MB"
  const NoFileError: string := "Please select a file"
  const UploadFallback: string := "Upload failed"

  /** Whether a selection passes the size check; the limit itself is allowed. */
  function Accepts(selected: Option<FileRef>): (ok: bool)
    ensures selected.None? ==> ok
    ensures selected.Some? ==> (ok <==> selected.value.size <= MaxFileSize)
  {
    !(selected.Some? && selected.value.size > MaxFileSize)
  }

  /** The multipart body: the file, the description, and the object it is attached to. */
  function UploadParts(file: FileRef, description: string, contentType: string, objectId: int): (parts: seq<(string, Part)>)
    ensures |parts| == 4
    ensures parts[0] == ("file", FilePart(file))
    ensures parts[1] == ("description", TextPart(description))
    ensures parts[2] == ("content_type", TextPart(contentType))
    ensures parts[3].0 == "object_id" && parts[3].1.TextPart? && ParseInt(parts[3].1.text) == Some(objectId)
  {
    IntToStringRoundTrip(objectId);
    [("file", FilePart(file)), ("description", TextPart(description)),
     ("content_type", TextPart(contentType)), ("object_id", TextPart(IntToString(objectId)))]
  }

  /** `detail || error || 'Upload failed'`. */
  function UploadError(f: Failure): (msg: string)
    ensures msg != ""
    ensures f.HttpError? && f.detail != "" ==> msg == f.detail
    ensures f.HttpError? && f.detail == "" && f.error != "" ==> msg == f.error
    ensures !(f.HttpError? && (f.detail != "" || f.error != "")) ==> msg == UploadFallback
  {
    if f.HttpError? && f.detail != "" then f.detail
    else if f.HttpError? && f.error != "" then f.error
    else UploadFallback
  }

  /** The state of one upload form, attached to the object `objectId` of kind `contentType`. */
  class Uploader {
    const contentType: string
    const objectId: int
    const backend: Backend
    var file: Option<FileRef>
    var description: string
    var uploading: bool
    var progress: int
    /** The error message; empty when there is none. */
    var error: string
    /** The answers handed to `onUploadComplete`, oldest first. */
    var delivered: seq<JsonObject>

    constructor (contentType: string, objectId: int, backend: Backend)
      ensures this.contentType == contentType && this.objectId == objectId && this.backend == backend
      ensures file.None? && description == "" && !uploading && progress == 0 && error == "" && delivered == []
    {
      this.contentType := contentType;
      this.objectId := objectId;
      this.backend := backend;
      file := None;
      description := "";
      uploading := false;
      progress := 0;
      error := "";
      delivered := [];
    }

    /**
     * `handleFileChange`: an oversized file sets the size error and keeps
     * the earlier selection; anything else replaces the selection (with
     * nothing, when nothing was chosen) and clears the error.
     */
    method HandleFileChange(selected: Option<FileRef>)
      modifies this
      ensures !Accepts(selected) ==> error == SizeError && file == old(file)
      ensures Accepts(selected) ==> file == selected && error == ""
      ensures description == old(description) && uploading == old(uploading)
      ensures progress == old(progress) && delivered == old(delivered)
    {
      if selected.Some? && selected.value.size > MaxFileSize {
        error := SizeError;
        return;
      }
      file := selected;
      error := "";
    }

    /** The description input. */
    method SetDescription(text: string)
      modifies this
      ensures description == text
      ensures file == old(file) && error == old(error) && uploading == old(uploading)
      ensures progress == old(progress) && delivered == old(delivered)
    {
      description := text;
    }

    /**
     * `handleUpload`: without a file only the error is set. Otherwise the
     * form is posted; success clears the form and hands the answer on,
     * failure sets the error message. `uploading` ends false.
     */
    method HandleUpload(reply: Result<JsonObject, Failure>)
      modifies this, backend
      ensures old(file).None? ==>
        error == NoFileError && backend.calls == old(backend.calls) && file.None?
        && description == old(description) && uploading == old(uploading)
        && progress == old(progress) && delivered == old(delivered)
      ensures old(file).Some? ==>
        backend.calls == old(backend.calls)
          + [Call(POST, AttachmentsPath, [], FormBody(UploadParts(old(file).value, old(description), contentType, objectId)))]
        && !uploading
      ensures old(file).Some? && reply.Success? ==>
        file.None? && description == "" && progress == 0 && error == ""
        && delivered == old(delivered) + [reply.value]
      ensures old(file).Some? && reply.Failure? ==>
        error == UploadError(reply.error) && file == old(file) && description == old(description)
        && progress == old(progress) && delivered == old(delivered)
    {
      if file.None? {
        error := NoFileError;
        return;
      }
      var parts := UploadParts(file.value, description, contentType, objectId);
      uploading := true;
      error := "";
      backend.Issue(Call(POST, AttachmentsPath, [], FormBody(parts)));
      match reply {
        case Success(data) =>
          file := None;
          description := "";
          progress := 0;
          delivered := delivered + [data];
        case Failure(e) =>
          error := UploadError(e);
      }
      uploading := false;
    }
  }
}
