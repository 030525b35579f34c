/** The offline-mode activities (activities/local_inbox.py): listing a
    local folder with the marker filter, and copying a file into the work
    directory in place of a download. */
module LocalInboxActivity {
  import opened Base
  import opened Seqs
  import opened StateStore
  import opened FileSystem
  import opened Models
  import opened InboxMarkers
  import opened LocalInbox
  import opened OneDriveInbox

  const MissingInboxFolder := "list_local_inbox_activity requires 'inbox_folder' in request input."
  const MissingSrcFolder := "prepare_local_file_activity requires 'src_folder' in request input."

  /** `list_local_inbox_activity`: the local listing, minus files carrying
      either marker, in listing order. */
  function ListLocalInboxActivity(req: ListInboxRequest, fs: Fs, names: seq<string>, st: Store)
    : (r: Result<(Fs, seq<FileRef>)>)
    ensures !Truthy(req.inboxFolder) ==> r == Err(MissingInboxFolder)
    ensures Truthy(req.inboxFolder) ==> (r.Err? <==> req.inboxFolder.value in fs.files)
    ensures r.Ok? ==> req.inboxFolder.Some? && r.value.0.dirs == fs.dirs + {req.inboxFolder.value}
    ensures r.Ok? ==> forall f :: f in r.value.1 ==>
      (f == LocalRef(f.name) && f.name in names && IsLocalAudio(fs.files, req.inboxFolder.value, f.name) &&
       !IsDownloaded(st, f.id) && !IsPending(st, f.id))
    ensures r.Ok? ==> forall n :: n in names && IsLocalAudio(fs.files, req.inboxFolder.value, n) && !Marked(st, n) ==>
      LocalRef(n) in r.value.1
    ensures r.Ok? ==> IsSubsequence(r.value.1, LocalRefs(fs.files, req.inboxFolder.value, names))
  {
    if !Truthy(req.inboxFolder) then Err(MissingInboxFolder)
    else
      var folder := req.inboxFolder.value;
      var listed := ListLocalInbox(fs, folder, names);
      if listed.Err? then Err(listed.msg)
      else
        Ok((listed.value.0, UnmarkedFiles(st, listed.value.1)))
  }

  /** `prepare_local_file_activity`: copy `src_folder/name` to the download
      folder, then set the downloaded marker and clear the pending one.
      `srcFolder` is the request's `src_folder` entry. */
  function PrepareLocalFile(st: Store, fs: Fs, env: Env, req: DownloadRequest, srcFolder: Option<string>)
    : (r: StepEffect<string>)
    ensures !Truthy(srcFolder) ==> r == StepEffect(st, fs, Err(MissingSrcFolder))
    ensures r.out.Err? ==> r.store == st
    ensures Truthy(srcFolder) && DownloadPath(req, env) !in fs.dirs + {DownloadFolder(req, env)} ==>
      (r.out.Ok? <==>
        MakeDirs(fs, DownloadFolder(req, env)).Ok? &&
        Join(srcFolder.value, req.file.name) in fs.files &&
        Join(srcFolder.value, req.file.name) != DownloadPath(req, env))
    ensures r.out.Ok? ==> r.out.value == DownloadPath(req, env)
    ensures r.out.Ok? && DownloadPath(req, env) !in fs.dirs + {DownloadFolder(req, env)} ==>
      r.fs.files == fs.files[r.out.value := fs.files[Join(srcFolder.value, req.file.name)]]
    ensures r.out.Ok? ==> Join(srcFolder.value, req.file.name) in r.fs.files
    ensures r.out.Ok? ==> Get(r.store, DownloadedKey(req.file.id)) == Some("1")
    ensures r.out.Ok? ==> Get(r.store, PendingKey(req.file.id)) == None
    ensures r.out.Ok? ==> forall k :: k != DownloadedKey(req.file.id) && k != PendingKey(req.file.id) ==>
      Get(r.store, k) == Get(st, k)
  {
    if !Truthy(srcFolder) then StepEffect(st, fs, Err(MissingSrcFolder))
    else
      var src := Join(srcFolder.value, req.file.name);
      var made := MakeDirs(fs, DownloadFolder(req, env));
      if made.Err? then StepEffect(st, fs, Err(made.msg))
      else
        var copied := Copy(made.value, src, DownloadPath(req, env));
        if copied.Err? then StepEffect(st, made.value, Err(copied.msg))
        else StepEffect(MarkDownloaded(st, req.file.id), copied.value, Ok(DownloadPath(req, env)))
  }
}
