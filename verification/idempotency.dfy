/** The idempotency argument across the inbox activities and the poll
    workflow: markers are only ever added (a failed file stays marked), a
    file marked by one poll is never dispatched by the next, a downloaded
    file is never listed again, and the token record never touches a marker. */
module Idempotency {
  import opened Base
  import opened Seqs
  import opened Json
  import opened StateStore
  import opened FileSystem
  import opened Models
  import opened InboxMarkers
  import opened OneDriveInbox
  import opened LocalInbox
  import opened LocalInboxActivity
  import opened OneDrive
  import opened Voice2Action

  // ---- markers are only added -------------------------------------------

  /** Marking one file pending keeps every marker of every file. */
  lemma MarkPendingKeepsMarks(st: Store, req: MarkPendingRequest, id: string)
    ensures IsPending(st, id) ==> IsPending(MarkFilePending(st, req), id)
    ensures IsDownloaded(st, id) <==> IsDownloaded(MarkFilePending(st, req), id)
  {
    MarkerKeysDistinct(req.fileId, id);
  }

  /** Completing a download (or a local prepare) keeps every file marked: the
      completed file moves from pending to downloaded, the others are untouched. */
  lemma MarkDownloadedKeepsMarks(st: Store, done: string, id: string)
    ensures Marked(st, id) ==> Marked(MarkDownloaded(st, done), id)
    ensures IsDownloaded(MarkDownloaded(st, done), done)
  {
    MarkerKeysDistinct(done, id);
    MarkerKeysDistinct(id, done);
    PendingKeyInjective(done, id);
    DownloadedKeyInjective(done, id);
  }

  /** After a successful download the file is never listed again, whatever
      the provider lists. */
  lemma DownloadedNeverRelisted(
    st: Store, fs: Fs, env: Env, req: DownloadRequest,
    g: Graph, fetch: Json -> Result<string>, listing: seq<FileRef>)
    requires DownloadOneDriveFile(st, fs, env, req, g, fetch).out.Ok?
    ensures forall f :: f in NewFiles(DownloadOneDriveFile(st, fs, env, req, g, fetch).store, listing) ==>
      f.id != req.file.id
  {
  }

  /** The same for a local file copied by the prepare step. */
  lemma PreparedNeverRelisted(
    st: Store, fs: Fs, env: Env, req: DownloadRequest, srcFolder: Option<string>,
    listReq: ListInboxRequest, fs2: Fs, names: seq<string>)
    requires PrepareLocalFile(st, fs, env, req, srcFolder).out.Ok?
    requires ListLocalInboxActivity(listReq, fs2, names, PrepareLocalFile(st, fs, env, req, srcFolder).store).Ok?
    ensures forall f :: f in ListLocalInboxActivity(listReq, fs2, names, PrepareLocalFile(st, fs, env, req, srcFolder).store).value.1 ==>
      f.id != req.file.id
  {
  }

  /** Saving a token record (bootstrap or refresh) changes no marker. */
  lemma SaveTokenKeepsMarks(st: Store, td: Json, dumps: Dumps, id: string)
    ensures IsPending(SaveToken(st, td, dumps), id) <==> IsPending(st, id)
    ensures IsDownloaded(SaveToken(st, td, dumps), id) <==> IsDownloaded(st, id)
  {
    TokenKeyIsNoMarker(id);
  }

  /** Marking or completing one file leaves the markers of every other file
      as they were. */
  lemma OtherFilesKeepMarks(st: Store, done: string, id: string)
    requires done != id
    ensures IsPending(MarkFilePending(st, MarkPendingRequest(done, None)), id) == IsPending(st, id)
    ensures IsDownloaded(MarkFilePending(st, MarkPendingRequest(done, None)), id) == IsDownloaded(st, id)
    ensures IsPending(MarkDownloaded(st, done), id) == IsPending(st, id)
    ensures IsDownloaded(MarkDownloaded(st, done), id) == IsDownloaded(st, id)
  {
    MarkerKeysDistinct(done, id);
    MarkerKeysDistinct(id, done);
    PendingKeyInjective(done, id);
    DownloadedKeyInjective(done, id);
  }

  // ---- the poll workflow's effect on the markers ------------------------

  /** The marker effect of one step of a poll that returned: a mark step runs
      `mark_file_pending`; a child that completed has run
      `download_onedrive_file`, which leaves the markers as `MarkDownloaded`
      does (DownloadMarks); the listing step saves at most the token record,
      which holds no marker (ListOneDriveInbox). */
  function StepStore(st: Store, s: Step): Store {
    match s
    case MarkPending(m) => MarkFilePending(st, m)
    case SpawnChild(f) => MarkDownloaded(st, f.id)
    case _ => st
  }

  /** The markers after the steps of a trace, in order. */
  function Effects(st: Store, steps: seq<Step>): Store {
    if steps == [] then st else StepStore(Effects(st, steps[..|steps| - 1]), steps[|steps| - 1])
  }

  /** A step's marker effect depends on the markers alone: two stores with
      the same markers (say, one with a freshly saved token record) still
      agree after the step. */
  lemma StepKeepsSameMarks(a: Store, b: Store, s: Step)
    requires SameMarks(a, b)
    ensures SameMarks(StepStore(a, s), StepStore(b, s))
  {
    forall id
      ensures IsPending(StepStore(a, s), id) == IsPending(StepStore(b, s), id)
      ensures IsDownloaded(StepStore(a, s), id) == IsDownloaded(StepStore(b, s), id)
    {
      assert IsPending(a, id) == IsPending(b, id) && IsDownloaded(a, id) == IsDownloaded(b, id);
      match s
      case MarkPending(m) =>
        MarkerKeysDistinct(m.fileId, id);
        if m.fileId != id {
          PendingKeyInjective(m.fileId, id);
        }
      case SpawnChild(f) =>
        if f.id != id {
          OtherFilesKeepMarks(a, f.id, id);
          OtherFilesKeepMarks(b, f.id, id);
        }
      case _ =>
    }
  }

  /** A completed poll leaves every file it dispatched downloaded and no
      longer pending. */
  lemma {:induction false} PollDownloadsAllDispatched(st: Store, req: ListInboxRequest, files: seq<FileRef>)
    ensures forall f :: f in files ==>
      IsDownloaded(Effects(st, Plan(req, files)), f.id) && !IsPending(Effects(st, Plan(req, files)), f.id)
  {
    if files != [] {
      var init := files[..|files| - 1];
      var last := files[|files| - 1];
      PollDownloadsAllDispatched(st, req, init);
      var plan := Plan(req, files);
      assert plan == Plan(req, init) + [MarkStep(last), SpawnChild(last)];
      assert plan[..|plan| - 1] == Plan(req, init) + [MarkStep(last)];
      assert (Plan(req, init) + [MarkStep(last)])[..|plan| - 1 - 1] == Plan(req, init);
      var before := Effects(st, Plan(req, init));
      var mid := MarkFilePending(before, MarkPendingRequest(last.id, None));
      assert Effects(st, plan) == MarkDownloaded(mid, last.id);
      forall f | f in files
        ensures IsDownloaded(Effects(st, plan), f.id) && !IsPending(Effects(st, plan), f.id)
      {
        if f.id != last.id {
          assert f in init;
          OtherFilesKeepMarks(before, last.id, f.id);
          OtherFilesKeepMarks(mid, last.id, f.id);
        }
      }
    }
  }

  /** No double dispatch: once a poll has completed, the next poll over any
      listing dispatches none of the files the first one did. */
  lemma NextPollSkipsDispatched(st: Store, req: ListInboxRequest, files: seq<FileRef>, listing: seq<FileRef>)
    ensures forall f :: f in NewFiles(Effects(st, Plan(req, files)), listing) ==>
      forall g :: g in files ==> f.id != g.id
  {
    PollDownloadsAllDispatched(st, req, files);
  }

  /** A poll whose child for `f` fails has returned from every step up to
      the file's mark step: the file stays pending, and no later poll
      dispatches it again. */
  lemma FailedChildStaysPending(st: Store, req: ListInboxRequest, files: seq<FileRef>, f: FileRef, listing: seq<FileRef>)
    ensures IsPending(Effects(st, Plan(req, files) + [MarkStep(f)]), f.id)
    ensures f !in NewFiles(Effects(st, Plan(req, files) + [MarkStep(f)]), listing)
  {
    assert (Plan(req, files) + [MarkStep(f)])[..|Plan(req, files) + [MarkStep(f)]| - 1] == Plan(req, files);
  }
}
