/** The remote inbox activities (activities/onedrive_inbox.py): listing with
    the marker filter, marking a file pending, and downloading a file.
    Each activity builds its own Graph adapter, whose token record may be
    saved into the same store; the HTTP calls and the download are
    parameters, the store and the filesystem are values. */
module OneDriveInbox {
  import opened Base
  import opened Json
  import opened StateStore
  import opened FileSystem
  import opened Models
  import opened InboxMarkers
  import opened OneDrive

  /** What `list_onedrive_inbox` returns: the filtered files, plus an error
      text when the provider listing failed. */
  datatype ListOutcome = ListOutcome(files: seq<FileRef>, error: Option<string>)

  /** The effect of an activity on the store and the filesystem, and what it
      returned or raised. */
  datatype StepEffect<T> = StepEffect(store: Store, fs: Fs, out: Result<T>)

  const MissingInboxFolder := "list_onedrive_inbox requires 'inbox_folder' in request input."
  const DefaultDownloadFolder := "./.work/voice"

  /** The token record lives under a key no marker can take. */
  lemma TokenKeyIsNoMarker(id: string)
    ensures TokenStateKey != PendingKey(id) && TokenStateKey != DownloadedKey(id)
  {
    assert TokenStateKey[0] == 'm';
    assert PendingKey(id)[0] == 'v' && DownloadedKey(id)[0] == 'v';
  }

  /** A store that differs at most in the token record carries the same
      markers. */
  lemma TokenWriteKeepsMarks(st: Store, st': Store)
    requires SameExcept(st, st', TokenStateKey)
    ensures SameMarks(st, st')
  {
    forall id
      ensures IsPending(st, id) == IsPending(st', id) && IsDownloaded(st, id) == IsDownloaded(st', id)
    {
      TokenKeyIsNoMarker(id);
    }
  }

  /** `list_onedrive_inbox`. The adapter's construction and listing run
      inside the `try`, so whatever they raise comes back as the error text;
      a token record they saved stays saved either way. The filter reads the
      store after that write, which holds the same markers. */
  method ListOneDriveInbox(req: ListInboxRequest, env: Env, g: Graph, st: Store)
    returns (st': Store, r: Result<ListOutcome>)
    ensures r.Err? <==> !Truthy(req.inboxFolder)
    ensures r.Err? ==> r.msg == MissingInboxFolder && st' == st
    ensures r.Ok? ==> st' == ServiceListFolder(st, env, g, req.inboxFolder.value).0
    ensures SameExcept(st, st', TokenStateKey)
    ensures SameMarks(st, st')
    ensures Truthy(req.inboxFolder) && ServiceListFolder(st, env, g, req.inboxFolder.value).1.Err? ==>
      r == Ok(ListOutcome([], Some(ServiceListFolder(st, env, g, req.inboxFolder.value).1.msg)))
    ensures Truthy(req.inboxFolder) && ServiceListFolder(st, env, g, req.inboxFolder.value).1.Ok? ==>
      r == Ok(ListOutcome(NewFiles(st, ServiceListFolder(st, env, g, req.inboxFolder.value).1.value), None))
    ensures r.Ok? ==> forall f :: f in r.value.files ==> IsAudioName(f.name) && !Marked(st, f.id)
  {
    if !Truthy(req.inboxFolder) {
      return st, Err(MissingInboxFolder);
    }
    var call := ServiceListFolder(st, env, g, req.inboxFolder.value);
    st' := call.0;
    TokenWriteKeepsMarks(st, st');
    if call.1.Err? {
      return st', Ok(ListOutcome([], Some(call.1.msg)));
    }
    var filtered := FilterListing(st', call.1.value);
    NewFilesSameMarks(st, st', call.1.value);
    return st', Ok(ListOutcome(filtered, None));
  }

  /** The filter loop of `list_onedrive_inbox` (lines 52-62): skip a file of
      the wrong type, then one already downloaded, then one already pending. */
  method FilterListing(st: Store, files: seq<FileRef>) returns (filtered: seq<FileRef>)
    ensures filtered == NewFiles(st, files)
  {
    filtered := [];
    var i := 0;
    while i < |files|
      invariant 0 <= i <= |files|
      invariant filtered == NewFiles(st, files[..i])
    {
      var f := files[i];
      assert files[..i + 1] == files[..i] + [f];
      NewFilesSnoc(st, files[..i], f);
      if !IsAudioName(f.name) {
        // skipped: wrong type
      } else if Get(st, DownloadedKey(f.id)).Some? {
        // skipped: already downloaded
      } else if Get(st, PendingKey(f.id)).Some? {
        // skipped: already pending
      } else {
        filtered := filtered + [f];
      }
      i := i + 1;
    }
    assert files[..|files|] == files;
  }

  /** `mark_file_pending`: the pending marker reads "1" and no other key
      changes. */
  function MarkFilePending(st: Store, req: MarkPendingRequest): (r: Store)
    ensures Get(r, PendingKey(req.fileId)) == Some("1")
    ensures IsPending(r, req.fileId)
    ensures SameExcept(st, r, PendingKey(req.fileId))
  {
    Set(st, PendingKey(req.fileId), "1")
  }

  /** The destination directory: the request's download folder, else the
      LOCAL_VOICE_DOWNLOAD_FOLDER variable, else "./.work/voice". */
  function DownloadFolder(req: DownloadRequest, env: Env): string {
    OrElse(req.downloadFolder, GetEnvOr(env, "LOCAL_VOICE_DOWNLOAD_FOLDER", DefaultDownloadFolder))
  }

  /** Where a download lands: the file name joined onto the download folder. */
  function DownloadPath(req: DownloadRequest, env: Env): string {
    Join(DownloadFolder(req, env), req.file.name)
  }

  /** The steps of `download_onedrive_file` after the URL lookup: create the
      folder, fetch the URL into the file, then mark the file downloaded. */
  function FinishDownload(
    st: Store, fs: Fs, env: Env, req: DownloadRequest,
    url: Json, fetch: Json -> Result<string>): (r: StepEffect<string>)
    ensures r.store == if r.out.Ok? then MarkDownloaded(st, req.file.id) else st
    ensures r.out.Ok? <==>
      MakeDirs(fs, DownloadFolder(req, env)).Ok? && fetch(url).Ok? &&
      DownloadPath(req, env) !in fs.dirs + {DownloadFolder(req, env)}
    ensures r.out.Ok? ==> r.out.value == DownloadPath(req, env)
    ensures r.out.Ok? ==> r.fs.files == fs.files[r.out.value := fetch(url).value]
    ensures r.out.Ok? ==> DownloadFolder(req, env) in r.fs.dirs
  {
    var dir := DownloadFolder(req, env);
    var made := MakeDirs(fs, dir);
    if made.Err? then StepEffect(st, fs, Err(made.msg))
    else
      var dest := DownloadPath(req, env);
      var content := fetch(url);
      if content.Err? then StepEffect(st, made.value, Err(content.msg))
      else
        var written := WriteFile(made.value, dest, content.value);
        if written.Err? then StepEffect(st, made.value, Err(written.msg))
        else StepEffect(MarkDownloaded(st, req.file.id), written.value, Ok(dest))
  }

  /** `download_onedrive_file`. The adapter's URL lookup may save the token
      record, and that write stays even when a later step raises; `fetch` is
      the HTTP download of a URL. Only a download that completes touches the
      file's markers. */
  function DownloadOneDriveFile(
    st: Store, fs: Fs, env: Env, req: DownloadRequest,
    g: Graph, fetch: Json -> Result<string>): (r: StepEffect<string>)
    ensures Get(r.store, TokenStateKey) == Get(ServiceDownloadUrl(st, env, g, req.file.id).0, TokenStateKey)
    ensures forall k :: k != TokenStateKey && k != DownloadedKey(req.file.id) && k != PendingKey(req.file.id) ==>
      Get(r.store, k) == Get(st, k)
    ensures r.out.Err? ==> SameMarks(st, r.store)
    ensures r.out.Err? && FreshStoredToken(st, g) ==> r.store == st
    ensures var url := ServiceDownloadUrl(st, env, g, req.file.id).1;
      r.out.Ok? <==>
        url.Ok? && MakeDirs(fs, DownloadFolder(req, env)).Ok? && fetch(url.value).Ok? &&
        DownloadPath(req, env) !in fs.dirs + {DownloadFolder(req, env)}
    ensures r.out.Ok? ==> r.out.value == DownloadPath(req, env)
    ensures r.out.Ok? ==> r.store == MarkDownloaded(ServiceDownloadUrl(st, env, g, req.file.id).0, req.file.id)
    ensures r.out.Ok? ==> Get(r.store, DownloadedKey(req.file.id)) == Some("1")
    ensures r.out.Ok? ==> Get(r.store, PendingKey(req.file.id)) == None
    ensures r.out.Ok? ==>
      r.fs.files == fs.files[r.out.value := fetch(ServiceDownloadUrl(st, env, g, req.file.id).1.value).value]
    ensures r.out.Ok? ==> DownloadFolder(req, env) in r.fs.dirs
  {
    var call := ServiceDownloadUrl(st, env, g, req.file.id);
    var st1 := call.0;
    TokenWriteKeepsMarks(st, st1);
    TokenKeyIsNoMarker(req.file.id);
    if call.1.Err? then StepEffect(st1, fs, Err(call.1.msg))
    else FinishDownload(st1, fs, env, req, call.1.value, fetch)
  }

  /** A completed download leaves the markers exactly as `MarkDownloaded`
      on the store it started from: the file is downloaded and no longer
      pending, and every other file's markers are as they were. */
  lemma DownloadMarks(
    st: Store, fs: Fs, env: Env, req: DownloadRequest, g: Graph, fetch: Json -> Result<string>)
    requires DownloadOneDriveFile(st, fs, env, req, g, fetch).out.Ok?
    ensures SameMarks(DownloadOneDriveFile(st, fs, env, req, g, fetch).store, MarkDownloaded(st, req.file.id))
  {
    var st1 := ServiceDownloadUrl(st, env, g, req.file.id).0;
    TokenWriteKeepsMarks(st, st1);
    assert SameMarks(st1, st);
    MarkDownloadedSameMarks(st1, st, req.file.id);
  }
}
