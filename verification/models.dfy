/** The request and record types of models/voice2action.py, with the
    `model_validate` / `model_dump` pair pydantic derives for each. Undeclared
    keys are ignored; a declared field of the wrong JSON type is a validation
    error. `ListInboxRequest.inboxFolder` and `DownloadRequest.downloadFolder`
    are carried although the source's classes do not declare them: the
    activities read them (see README). */
module Models {
  import opened Base
  import opened Json

  datatype FileRef = FileRef(id: string, name: string, size: Option<int>, etag: Option<string>)

  datatype TranscriptionRequest = TranscriptionRequest(audioPath: string, mimeType: string)

  datatype ListInboxRequest = ListInboxRequest(
    folderPath: Option<string>, corrId: Option<string>, inboxFolder: Option<string>)

  datatype ListInboxResult = ListInboxResult(files: seq<FileRef>)

  datatype DownloadRequest = DownloadRequest(
    file: FileRef, corrId: Option<string>, targetDir: Option<string>, downloadFolder: Option<string>)

  datatype MarkPendingRequest = MarkPendingRequest(fileId: string, corrId: Option<string>)

  // ---- pydantic field readers -------------------------------------------

  /** pydantic's message for a field that is not a string. */
  function NotAString(key: string): string {
    key + ": Input should be a valid string"
  }

  /** A required `str` field. */
  function ReqStr(fields: map<string, Json>, key: string): (r: Result<string>)
    ensures r.Ok? <==> key in fields && fields[key].JStr?
    ensures r.Ok? ==> fields[key] == JStr(r.value)
  {
    if key !in fields then Err(key + ": Field required")
    else if fields[key].JStr? then Ok(fields[key].s)
    else Err(NotAString(key))
  }

  /** An `Optional[str] = None` field: absent and `null` both give `None`. */
  function OptStr(fields: map<string, Json>, key: string): (r: Result<Option<string>>)
    ensures r.Ok? <==> key !in fields || fields[key].JNull? || fields[key].JStr?
    ensures r == Ok(None) <==> key !in fields || fields[key].JNull?
    ensures r.Ok? && r.value.Some? ==> fields[key] == JStr(r.value.value)
  {
    if key !in fields || fields[key].JNull? then Ok(None)
    else if fields[key].JStr? then Ok(Some(fields[key].s))
    else Err(NotAString(key))
  }

  /** An `Optional[int] = None` field. */
  function OptInt(fields: map<string, Json>, key: string): (r: Result<Option<int>>)
    ensures r.Ok? <==> key !in fields || fields[key].JNull? || fields[key].JNum?
    ensures r == Ok(None) <==> key !in fields || fields[key].JNull?
    ensures r.Ok? && r.value.Some? ==> fields[key] == JNum(r.value.value)
  {
    if key !in fields || fields[key].JNull? then Ok(None)
    else if fields[key].JNum? then Ok(Some(fields[key].n))
    else Err(key + ": Input should be a valid integer")
  }

  function DumpOptStr(v: Option<string>): Json {
    if v.Some? then JStr(v.value) else JNull
  }

  function DumpOptInt(v: Option<int>): Json {
    if v.Some? then JNum(v.value) else JNull
  }

  // ---- FileRef ----------------------------------------------------------

  /** `FileRef.model_validate`: id and name are required strings; size and
      etag default to `None`. */
  function ValidateFileRef(v: Json): (r: Result<FileRef>)
    ensures r.Ok? ==> v.JObj? && "id" in v.fields && "name" in v.fields && v.fields["id"] == JStr(r.value.id) && v.fields["name"] == JStr(r.value.name)
    ensures v.JObj? && ("id" !in v.fields || "name" !in v.fields) ==> r.Err?
    ensures forall i, n :: v == JObj(map["id" := JStr(i), "name" := JStr(n)]) ==> r == Ok(FileRef(i, n, None, None))
  {
    if !v.JObj? then Err("FileRef: Input should be a valid dictionary")
    else
      var id :- ReqStr(v.fields, "id");
      var name :- ReqStr(v.fields, "name");
      var size :- OptInt(v.fields, "size");
      var etag :- OptStr(v.fields, "etag");
      Ok(FileRef(id, name, size, etag))
  }

  /** `FileRef.model_dump`: validating the dump gives the record back. */
  function DumpFileRef(f: FileRef): (r: Json)
    ensures r.JObj? && r.fields.Keys == {"id", "name", "size", "etag"}
    ensures ValidateFileRef(r) == Ok(f)
  {
    JObj(map["id" := JStr(f.id), "name" := JStr(f.name),
             "size" := DumpOptInt(f.size), "etag" := DumpOptStr(f.etag)])
  }

  // ---- TranscriptionRequest --------------------------------------------

  /** `TranscriptionRequest.model_validate`: mime_type defaults to "audio/mpeg". */
  function ValidateTranscriptionRequest(v: Json): (r: Result<TranscriptionRequest>)
    ensures r.Ok? ==> v.JObj? && "audio_path" in v.fields && v.fields["audio_path"] == JStr(r.value.audioPath)
    ensures r.Ok? && "mime_type" !in v.fields ==> r.value.mimeType == "audio/mpeg"
    ensures v.JObj? && "audio_path" !in v.fields ==> r.Err?
    ensures forall p :: v == JObj(map["audio_path" := JStr(p)]) ==> r == Ok(TranscriptionRequest(p, "audio/mpeg"))
  {
    if !v.JObj? then Err("TranscriptionRequest: Input should be a valid dictionary")
    else
      var path :- ReqStr(v.fields, "audio_path");
      var mime :- if "mime_type" in v.fields then ReqStr(v.fields, "mime_type") else Ok("audio/mpeg");
      Ok(TranscriptionRequest(path, mime))
  }

  // ---- ListInboxRequest -------------------------------------------------

  function ValidateListInboxRequest(v: Json): (r: Result<ListInboxRequest>)
    ensures v == JObj(map[]) ==> r == Ok(ListInboxRequest(None, None, None))
    ensures r.Ok? <==>
      (v.JObj? && OptStr(v.fields, "folder_path").Ok? &&
       OptStr(v.fields, "corr_id").Ok? && OptStr(v.fields, "inbox_folder").Ok?)
    ensures r.Ok? ==>
      (r.value.folderPath == OptStr(v.fields, "folder_path").value &&
       r.value.corrId == OptStr(v.fields, "corr_id").value &&
       r.value.inboxFolder == OptStr(v.fields, "inbox_folder").value)
  {
    if !v.JObj? then Err("ListInboxRequest: Input should be a valid dictionary")
    else
      var folderPath :- OptStr(v.fields, "folder_path");
      var corrId :- OptStr(v.fields, "corr_id");
      var inboxFolder :- OptStr(v.fields, "inbox_folder");
      Ok(ListInboxRequest(folderPath, corrId, inboxFolder))
  }

  function DumpListInboxRequest(q: ListInboxRequest): (r: Json)
    ensures ValidateListInboxRequest(r) == Ok(q)
  {
    JObj(map["folder_path" := DumpOptStr(q.folderPath), "corr_id" := DumpOptStr(q.corrId),
             "inbox_folder" := DumpOptStr(q.inboxFolder)])
  }

  // ---- DownloadRequest --------------------------------------------------

  /** `DownloadRequest.model_validate`: file is required, the rest optional. */
  function ValidateDownloadRequest(v: Json): (r: Result<DownloadRequest>)
    ensures v.JObj? && "file" !in v.fields ==> r.Err?
    ensures r.Ok? <==>
      (v.JObj? && "file" in v.fields && ValidateFileRef(v.fields["file"]).Ok? &&
       OptStr(v.fields, "corr_id").Ok? && OptStr(v.fields, "target_dir").Ok? &&
       OptStr(v.fields, "download_folder").Ok?)
    ensures r.Ok? ==>
      (ValidateFileRef(v.fields["file"]) == Ok(r.value.file) &&
       r.value.corrId == OptStr(v.fields, "corr_id").value &&
       r.value.targetDir == OptStr(v.fields, "target_dir").value &&
       r.value.downloadFolder == OptStr(v.fields, "download_folder").value)
    ensures forall f :: v == JObj(map["file" := DumpFileRef(f)]) ==> r == Ok(DownloadRequest(f, None, None, None))
  {
    if !v.JObj? then Err("DownloadRequest: Input should be a valid dictionary")
    else if "file" !in v.fields then Err("file: Field required")
    else
      var file :- ValidateFileRef(v.fields["file"]);
      var corrId :- OptStr(v.fields, "corr_id");
      var targetDir :- OptStr(v.fields, "target_dir");
      var downloadFolder :- OptStr(v.fields, "download_folder");
      Ok(DownloadRequest(file, corrId, targetDir, downloadFolder))
  }

  function DumpDownloadRequest(q: DownloadRequest): (r: Json)
    ensures ValidateDownloadRequest(r) == Ok(q)
  {
    JObj(map["file" := DumpFileRef(q.file), "corr_id" := DumpOptStr(q.corrId),
             "target_dir" := DumpOptStr(q.targetDir), "download_folder" := DumpOptStr(q.downloadFolder)])
  }

  // ---- MarkPendingRequest -----------------------------------------------

  /** `MarkPendingRequest.model_validate`: file_id required, corr_id optional. */
  function ValidateMarkPendingRequest(v: Json): (r: Result<MarkPendingRequest>)
    ensures r.Ok? ==> v.JObj? && "file_id" in v.fields && v.fields["file_id"] == JStr(r.value.fileId)
    ensures v.JObj? && "file_id" !in v.fields ==> r.Err?
    ensures forall i :: v == JObj(map["file_id" := JStr(i)]) ==> r == Ok(MarkPendingRequest(i, None))
  {
    if !v.JObj? then Err("MarkPendingRequest: Input should be a valid dictionary")
    else
      var fileId :- ReqStr(v.fields, "file_id");
      var corrId :- OptStr(v.fields, "corr_id");
      Ok(MarkPendingRequest(fileId, corrId))
  }

  function DumpMarkPendingRequest(q: MarkPendingRequest): (r: Json)
    ensures ValidateMarkPendingRequest(r) == Ok(q)
  {
    JObj(map["file_id" := JStr(q.fileId), "corr_id" := DumpOptStr(q.corrId)])
  }
}
