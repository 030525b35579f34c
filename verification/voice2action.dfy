/** The voice-inbox workflows (workflows/voice2action.py) as the sequence of
    steps they issue. A step is an activity call or a child-workflow start;
    `outcome` says what each step returns or raises, which stands in for the
    workflow runtime (no replay, retries or concurrency). */
module Voice2Action {
  import opened Base
  import opened Seqs
  import opened Json
  import opened StateStore
  import opened Models
  import opened InboxMarkers
  import opened OneDriveInbox
  import opened OneDrive

  datatype Step =
    | ListInbox(list: ListInboxRequest)
    | MarkPending(mark: MarkPendingRequest)
    | SpawnChild(child: FileRef)
    | Download(download: DownloadRequest)

  /** The poll workflow's return value `{"polled": True, "files": n}`. */
  datatype PollResult = PollResult(polled: bool, files: nat)

  /** What running a step produces: the activity's returned dict, or the
      exception it raised. */
  type Outcome = Step -> Result<Json>

  /** `cfg = input or {}`. */
  function Cfg(input: Option<map<string, Json>>): map<string, Json> {
    input.GetOr(map[])
  }

  // ---- the list request -------------------------------------------------

  /** The request as the poll workflow builds it: only `folder_path` is
      forwarded, so `inbox_folder` is always unset. */
  function ListRequestAsWritten(cfg: map<string, Json>): (r: Result<ListInboxRequest>)
    ensures r.Ok? <==> OptStr(cfg, "folder_path").Ok?
    ensures r.Ok? ==> r.value.inboxFolder == None && r.value.folderPath == OptStr(cfg, "folder_path").value
  {
    var folderPath :- OptStr(cfg, "folder_path");
    Ok(ListInboxRequest(folderPath, None, None))
  }

  /** The request the listing activity needs: the scheduled event's
      `inbox_folder` forwarded along with `folder_path`. */
  function ListRequest(cfg: map<string, Json>): (r: Result<ListInboxRequest>)
    ensures r.Ok? <==> OptStr(cfg, "folder_path").Ok? && OptStr(cfg, "inbox_folder").Ok?
    ensures r.Ok? ==> r.value.folderPath == OptStr(cfg, "folder_path").value
    ensures r.Ok? ==> r.value.inboxFolder == OptStr(cfg, "inbox_folder").value
  {
    var folderPath :- OptStr(cfg, "folder_path");
    var inboxFolder :- OptStr(cfg, "inbox_folder");
    Ok(ListInboxRequest(folderPath, None, inboxFolder))
  }

  /** The worker's scheduled event names the inbox folder; the request
      carries it on. */
  lemma ListRequestForwardsInbox(cfg: map<string, Json>, folder: string)
    requires "inbox_folder" in cfg && cfg["inbox_folder"] == JStr(folder)
    requires "folder_path" !in cfg
    ensures ListRequest(cfg) == Ok(ListInboxRequest(None, None, Some(folder)))
    ensures ListRequestAsWritten(cfg) == Ok(ListInboxRequest(None, None, None))
  {
  }

  /** With the request as written, the listing activity raises for every
      configuration before it builds an adapter, so the store is untouched
      whatever the provider would have listed. */
  method AsWrittenListingFails(input: Option<map<string, Json>>, env: Env, g: Graph, st: Store)
    returns (st': Store, r: Result<ListOutcome>)
    requires ListRequestAsWritten(Cfg(input)).Ok?
    ensures r == Err(MissingInboxFolder)
    ensures st' == st
  {
    st', r := ListOneDriveInbox(ListRequestAsWritten(Cfg(input)).value, env, g, st);
  }

  /** With the forwarded folder, the listing activity runs whenever the
      event names a non-empty inbox folder, and yields the new files. */
  method ForwardedListingRuns(input: Option<map<string, Json>>, env: Env, g: Graph, st: Store)
    returns (st': Store, r: Result<ListOutcome>)
    requires ListRequest(Cfg(input)).Ok? && Truthy(ListRequest(Cfg(input)).value.inboxFolder)
    ensures r.Ok?
    ensures var folder := ListRequest(Cfg(input)).value.inboxFolder.value;
      var listing := ServiceListFolder(st, env, g, folder).1;
      listing.Ok? ==> r.value.files == NewFiles(st, listing.value)
  {
    st', r := ListOneDriveInbox(ListRequest(Cfg(input)).value, env, g, st);
  }

  // ---- reading the listing result ---------------------------------------

  /** `[FileRef.model_validate(f) for f in items]`: the first invalid item raises. */
  function ValidateFiles(items: seq<Json>): (r: Result<seq<FileRef>>)
    ensures r.Ok? <==> forall i :: 0 <= i < |items| ==> ValidateFileRef(items[i]).Ok?
    ensures r.Ok? ==> |r.value| == |items| && forall i :: 0 <= i < |items| ==> ValidateFileRef(items[i]) == Ok(r.value[i])
  {
    if items == [] then Ok([])
    else
      var head :- ValidateFileRef(items[0]);
      var tail :- ValidateFiles(items[1..]);
      Ok([head] + tail)
  }

  /** `files_result.get("files", [])`, validated: a missing list is empty.
      Python iterates whatever is stored there: a string yields its
      characters and a dictionary its keys, none of which is a valid
      `FileRef`, so only an empty one lists nothing; null, numbers and
      booleans are not iterable. */
  function ListedFiles(res: Json): (r: Result<seq<FileRef>>)
    ensures !res.JObj? ==> r.Err?
    ensures res.JObj? && "files" !in res.fields ==> r == Ok([])
    ensures res.JObj? && "files" in res.fields && res.fields["files"].JArr? ==>
      r == ValidateFiles(res.fields["files"].items)
    ensures res.JObj? && "files" in res.fields && res.fields["files"].JStr? ==>
      (r.Ok? <==> res.fields["files"].s == "") && (r.Ok? ==> r.value == [])
    ensures res.JObj? && "files" in res.fields && res.fields["files"].JObj? ==>
      (r.Ok? <==> res.fields["files"].fields == map[]) && (r.Ok? ==> r.value == [])
    ensures res.JObj? && "files" in res.fields ==>
      (res.fields["files"].JNull? || res.fields["files"].JNum? || res.fields["files"].JBool? ==> r.Err?)
  {
    if !res.JObj? then Err("'files_result' has no attribute 'get'")
    else
      match Field(res.fields, "files").GetOr(JArr([]))
      case JArr(items) => ValidateFiles(items)
      case JStr(s) => ValidateFiles(Chars(s))
      case JObj(fields) =>
        if fields == map[] then Ok([]) else Err("FileRef: Input should be a valid dictionary")
      case _ => Err("object is not iterable")
  }

  /** What the listing activity returns: `{"files": [...]}`, plus `"error"`
      when the provider listing failed. */
  function DumpListOutcome(o: ListOutcome): Json {
    var files := JArr(MapSeq(DumpFileRef, o.files));
    if o.error.Some? then JObj(map["files" := files, "error" := JStr(o.error.value)])
    else JObj(map["files" := files])
  }

  /** The poll workflow reads back exactly the files the activity returned. */
  lemma ListedFilesOfDump(o: ListOutcome)
    ensures ListedFiles(DumpListOutcome(o)) == Ok(o.files)
  {
    var items := MapSeq(DumpFileRef, o.files);
    assert forall i :: 0 <= i < |items| ==> ValidateFileRef(items[i]) == Ok(o.files[i]);
    var r := ValidateFiles(items);
    assert r.Ok?;
    assert r.value == o.files;
  }

  /** The files the poll workflow goes on to dispatch. */
  function Listed(input: Option<map<string, Json>>, outcome: Outcome): Result<seq<FileRef>> {
    var req :- ListRequest(Cfg(input));
    var res :- outcome(ListInbox(req));
    ListedFiles(res)
  }

  // ---- the poll workflow ------------------------------------------------

  function MarkStep(f: FileRef): Step {
    MarkPending(MarkPendingRequest(f.id, None))
  }

  /** The steps issued for the listed files: per file, mark pending and then
      start its child workflow. */
  function Dispatch(files: seq<FileRef>): seq<Step> {
    if files == [] then []
    else Dispatch(files[..|files| - 1]) + [MarkStep(files[|files| - 1]), SpawnChild(files[|files| - 1])]
  }

  /** Step `2i` marks file `i` and step `2i + 1` starts its child: one mark and
      one spawn per file, mark first, in listing order. */
  lemma {:induction false} DispatchShape(files: seq<FileRef>)
    ensures |Dispatch(files)| == 2 * |files|
    ensures forall i :: 0 <= i < |files| ==>
      Dispatch(files)[2 * i] == MarkStep(files[i]) && Dispatch(files)[2 * i + 1] == SpawnChild(files[i])
  {
    if files != [] {
      var init := files[..|files| - 1];
      DispatchShape(init);
      forall i | 0 <= i < |files|
        ensures Dispatch(files)[2 * i] == MarkStep(files[i]) && Dispatch(files)[2 * i + 1] == SpawnChild(files[i])
      {
        if i < |init| {
          assert files[i] == init[i];
        }
      }
    }
  }

  /** Everything the poll workflow issues when no step fails. */
  function Plan(req: ListInboxRequest, files: seq<FileRef>): seq<Step> {
    [ListInbox(req)] + Dispatch(files)
  }

  /** The list step comes first; then file `i`'s pending mark at `1 + 2i`
      directly followed by its child start at `2 + 2i`: one of each per file,
      in listing order, and nothing else. */
  lemma PlanShape(req: ListInboxRequest, files: seq<FileRef>)
    ensures |Plan(req, files)| == 1 + 2 * |files|
    ensures Plan(req, files)[0] == ListInbox(req)
    ensures forall i :: 0 <= i < |files| ==>
      Plan(req, files)[1 + 2 * i] == MarkStep(files[i]) && Plan(req, files)[2 + 2 * i] == SpawnChild(files[i])
  {
    DispatchShape(files);
  }

  predicate AllSucceed(outcome: Outcome, steps: seq<Step>) {
    forall j :: 0 <= j < |steps| ==> outcome(steps[j]).Ok?
  }

  /** The per-file loop of the poll workflow: mark pending, then start the
      child, for each file in order, stopping at the first step that raises. */
  method DispatchFiles(files: seq<FileRef>, outcome: Outcome) returns (steps: seq<Step>, ok: bool)
    ensures steps <= Dispatch(files)
    ensures ok <==> AllSucceed(outcome, Dispatch(files))
    ensures ok ==> steps == Dispatch(files)
    ensures !ok ==> |steps| > 0 && outcome(steps[|steps| - 1]).Err? && AllSucceed(outcome, steps[..|steps| - 1])
  {
    ghost var plan := Dispatch(files);
    DispatchShape(files);
    steps := [];
    var i := 0;
    while i < |files|
      invariant 0 <= i <= |files|
      invariant steps == plan[..2 * i]
      invariant AllSucceed(outcome, steps)
    {
      var f := files[i];
      assert plan[2 * i] == MarkStep(f) && plan[2 * i + 1] == SpawnChild(f);
      if outcome(MarkStep(f)).Err? {
        assert steps + [MarkStep(f)] == plan[..2 * i + 1];
        assert (steps + [MarkStep(f)])[..2 * i] == steps;
        return steps + [MarkStep(f)], false;
      }
      if outcome(SpawnChild(f)).Err? {
        assert steps + [MarkStep(f), SpawnChild(f)] == plan[..2 * i + 2];
        assert (steps + [MarkStep(f), SpawnChild(f)])[..2 * i + 1] == steps + [MarkStep(f)];
        return steps + [MarkStep(f), SpawnChild(f)], false;
      }
      steps := steps + [MarkStep(f), SpawnChild(f)];
      assert steps == plan[..2 * i + 2];
      i := i + 1;
    }
    assert steps == plan;
    ok := true;
  }

  /** The poll workflow once the listing returned `files`: the list step
      followed by the per-file loop. */
  method RunListed(req: ListInboxRequest, files: seq<FileRef>, outcome: Outcome)
    returns (trace: seq<Step>, r: Result<PollResult>)
    requires outcome(ListInbox(req)).Ok?
    ensures 1 <= |trace| && trace <= Plan(req, files)
    ensures AllSucceed(outcome, trace[..|trace| - 1])
    ensures r.Ok? <==> AllSucceed(outcome, Plan(req, files))
    ensures r.Ok? ==> trace == Plan(req, files) && r.value == PollResult(true, |files|)
    ensures r.Err? ==> outcome(trace[|trace| - 1]).Err?
  {
    var steps, ok := DispatchFiles(files, outcome);
    trace := [ListInbox(req)] + steps;
    AppendPrefix(ListInbox(req), steps, Dispatch(files));
    assert trace[1..] == steps;
    if !ok {
      assert trace[..|trace| - 1] == [ListInbox(req)] + steps[..|steps| - 1];
      return trace, Err(outcome(steps[|steps| - 1]).msg);
    }
    assert AllSucceed(outcome, trace) by {
      forall j | 0 <= j < |trace| ensures outcome(trace[j]).Ok? {
        if j > 0 {
          assert trace[j] == steps[j - 1];
        }
      }
    }
    return trace, Ok(PollResult(true, |files|));
  }

  /** `voice2action_poll_orchestrator`: list, then mark and spawn per file,
      then return `{"polled": True, "files": n}`. Any failure re-raises and
      ends the run at the failing step. */
  method PollOrchestrator(input: Option<map<string, Json>>, outcome: Outcome)
    returns (trace: seq<Step>, r: Result<PollResult>)
    ensures ListRequest(Cfg(input)).Err? ==> trace == [] && r.Err?
    ensures ListRequest(Cfg(input)).Ok? ==> 1 <= |trace| && trace[0] == ListInbox(ListRequest(Cfg(input)).value)
    ensures forall j :: 0 <= j < |trace| - 1 ==> outcome(trace[j]).Ok?
    ensures Listed(input, outcome).Ok? ==> trace <= Plan(ListRequest(Cfg(input)).value, Listed(input, outcome).value)
    ensures r.Ok? <==>
      Listed(input, outcome).Ok? && AllSucceed(outcome, Plan(ListRequest(Cfg(input)).value, Listed(input, outcome).value))
    ensures r.Ok? ==>
      trace == Plan(ListRequest(Cfg(input)).value, Listed(input, outcome).value) &&
      r.value == PollResult(true, |Listed(input, outcome).value|)
    ensures r.Err? && Listed(input, outcome).Ok? ==> outcome(trace[|trace| - 1]).Err?
  {
    var req := ListRequest(Cfg(input));
    if req.Err? {
      return [], Err(req.msg);
    }
    var res := outcome(ListInbox(req.value));
    if res.Err? {
      return [ListInbox(req.value)], Err(res.msg);
    }
    var listed := ListedFiles(res.value);
    if listed.Err? {
      return [ListInbox(req.value)], Err(listed.msg);
    }
    trace, r := RunListed(req.value, listed.value, outcome);
    assert forall j :: 0 <= j < |trace| - 1 ==> trace[j] == trace[..|trace| - 1][j];
  }

  lemma AppendPrefix(x: Step, a: seq<Step>, b: seq<Step>)
    requires a <= b
    ensures [x] + a <= [x] + b
  {
    assert ([x] + b)[..|a| + 1] == [x] + a;
  }

  // ---- the per-file workflow --------------------------------------------

  /** The download request the per-file workflow issues: the file alone, so
      the activity falls back to its configured download folder. */
  function DownloadStep(f: FileRef): Step {
    Download(DownloadRequest(f, None, None, None))
  }

  /** `voice2action_per_file_orchestrator`: validate the file, issue one
      download, return `{"ok": True}`. */
  function PerFileOrchestrator(input: Json, outcome: Outcome): (r: (seq<Step>, Result<bool>))
    ensures ValidateFileRef(input).Err? ==> r.0 == [] && r.1.Err?
    ensures ValidateFileRef(input).Ok? ==> r.0 == [DownloadStep(ValidateFileRef(input).value)]
    ensures r.1.Ok? <==> ValidateFileRef(input).Ok? && outcome(DownloadStep(ValidateFileRef(input).value)).Ok?
    ensures r.1.Ok? ==> r.1.value
  {
    var file := ValidateFileRef(input);
    if file.Err? then ([], Err(file.msg))
    else
      var step := DownloadStep(file.value);
      var res := outcome(step);
      if res.Err? then ([step], Err(res.msg)) else ([step], Ok(true))
  }

  /** A child started by the poll workflow downloads exactly the file it was
      given, since the file travels as its dump. */
  lemma ChildDownloadsItsFile(f: FileRef, outcome: Outcome)
    ensures PerFileOrchestrator(DumpFileRef(f), outcome).0 == [DownloadStep(f)]
  {
  }
}
