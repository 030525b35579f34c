/** The local-folder inbox (services/local_inbox.py): listing audio files by
    extension and moving a processed file into the archive folder.
    `names` is what `os.listdir` returned for the folder, in its order. */
module LocalInbox {
  import opened Base
  import opened Seqs
  import opened FileSystem
  import opened Models
  import opened InboxMarkers

  /** A directory entry that is a regular file with an audio extension. */
  predicate IsLocalAudio(files: map<string, string>, folder: string, name: string) {
    Join(folder, name) in files && IsAudioName(name)
  }

  /** A local file is referenced by its name: id == name, no size or etag. */
  function LocalRef(name: string): FileRef {
    FileRef(name, name, None, None)
  }

  function LocalRefPred(files: map<string, string>, folder: string): FileRef -> bool {
    (f: FileRef) => IsLocalAudio(files, folder, f.name)
  }

  /** The references built from a directory listing: one per regular audio
      file, in listing order. */
  function LocalRefs(files: map<string, string>, folder: string, names: seq<string>): (r: seq<FileRef>)
    ensures forall f :: f in r ==> f == LocalRef(f.name) && f.name in names && IsLocalAudio(files, folder, f.name)
    ensures forall n :: n in names && IsLocalAudio(files, folder, n) ==> LocalRef(n) in r
    ensures IsSubsequence(r, MapSeq(LocalRef, names))
  {
    var all := MapSeq(LocalRef, names);
    FilterIsSubsequence(LocalRefPred(files, folder), all);
    assert forall n :: n in names ==> LocalRef(n) in all by {
      forall n | n in names ensures LocalRef(n) in all {
        var i :| 0 <= i < |names| && names[i] == n;
        assert all[i] == LocalRef(n);
      }
    }
    Filter(LocalRefPred(files, folder), all)
  }

  /** `list_local_inbox`: creates the folder, then lists its audio files. */
  function ListLocalInbox(fs: Fs, folder: string, names: seq<string>): (r: Result<(Fs, seq<FileRef>)>)
    ensures r.Err? <==> folder == "" || folder in fs.files
    ensures r.Ok? ==> r.value.0.files == fs.files && r.value.0.dirs == fs.dirs + {folder}
    ensures r.Ok? ==> r.value.1 == LocalRefs(fs.files, folder, names)
  {
    var made :- MakeDirs(fs, folder);
    Ok((made, LocalRefs(fs.files, folder, names)))
  }

  /** `move_file_to_local_archive`: create the archive folder, remove a file
      already at the destination, then move the inbox file there. */
  function MoveToLocalArchive(fs: Fs, name: string, inbox: string, archive: string): (r: FsStep)
    ensures r.error.None? <==>
      archive != "" && archive !in fs.files &&
      Join(inbox, name) in fs.files && Join(archive, name) !in fs.dirs + {archive} &&
      Join(inbox, name) != Join(archive, name)
    ensures r.error.None? ==> archive in r.fs.dirs
    ensures r.error.None? ==>
      Join(archive, name) in r.fs.files && r.fs.files[Join(archive, name)] == fs.files[Join(inbox, name)]
    ensures r.error.None? ==> Join(inbox, name) !in r.fs.files
    ensures forall p :: p != Join(inbox, name) && p != Join(archive, name) ==>
      (p in r.fs.files <==> p in fs.files) && (p in fs.files ==> r.fs.files[p] == fs.files[p])
    ensures r.fs.dirs <= fs.dirs + {archive}
  {
    var src := Join(inbox, name);
    var dst := Join(archive, name);
    var made := MakeDirs(fs, archive);
    if made.Err? then FsStep(fs, Some(made.msg))
    else
      var cleared := if Exists(made.value, dst) then Remove(made.value, dst) else Ok(made.value);
      if cleared.Err? then FsStep(made.value, Some(cleared.msg))
      else
        var moved := Move(cleared.value, src, dst);
        if moved.Err? then FsStep(cleared.value, Some(moved.msg))
        else FsStep(moved.value, None)
  }

  /** A file already at the destination is replaced, not an error. */
  lemma ArchiveOverwrites(fs: Fs, name: string, inbox: string, archive: string)
    requires archive != "" && archive !in fs.files
    requires Join(inbox, name) in fs.files && Join(archive, name) in fs.files && Join(archive, name) !in fs.dirs
    requires Join(inbox, name) != Join(archive, name) && Join(archive, name) != archive
    ensures MoveToLocalArchive(fs, name, inbox, archive).error.None?
    ensures MoveToLocalArchive(fs, name, inbox, archive).fs.files[Join(archive, name)] == fs.files[Join(inbox, name)]
  {
  }

  /** When inbox and archive are the same folder, the recording is deleted
      before the move, and the move then fails: the file is lost. */
  lemma ArchiveOntoItselfLosesFile(fs: Fs, name: string, folder: string)
    requires folder != "" && folder !in fs.files
    requires Join(folder, name) in fs.files
    ensures MoveToLocalArchive(fs, name, folder, folder).error.Some?
    ensures Join(folder, name) !in MoveToLocalArchive(fs, name, folder, folder).fs.files
  {
  }
}
