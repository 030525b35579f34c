/** The scheduler's configuration (services/workflow/worker.py, `main`
    before its sleep/publish loop): every setting is resolved once from the
    environment and published in each scheduled event. */
module Worker {
  import opened Base
  import opened Text
  import opened Json
  import opened FileSystem
  import opened Models
  import opened Voice2Action

  const DefaultPollInterval := "30"
  const DefaultLocalInbox := "./local_voice_inbox"
  const DefaultLocalArchive := "./local_voice_archive"
  const DefaultDownloadFolder := "./.work/voice"

  datatype WorkerConfig = WorkerConfig(
    pollInterval: int,
    offlineMode: bool,
    inboxFolder: Option<string>,
    archiveFolder: Option<string>,
    downloadFolder: string,
    termsFile: Option<string>)

  /** `os.getenv("OFFLINE_MODE", "false").lower() == "true"`. */
  predicate OfflineMode(env: Env) {
    Lower(GetEnvOr(env, "OFFLINE_MODE", "false")) == "true"
  }

  /** The configuration `main` resolves; `int()` of a malformed poll
      interval raises before anything else is read. */
  function ResolveConfig(env: Env): (r: Result<WorkerConfig>)
    ensures r.Ok? <==> ParseInt(GetEnvOr(env, "ONEDRIVE_VOICE_POLL_INTERVAL", DefaultPollInterval)).Some?
    ensures r.Ok? ==> r.value.pollInterval == ParseInt(GetEnvOr(env, "ONEDRIVE_VOICE_POLL_INTERVAL", DefaultPollInterval)).value
    ensures r.Ok? ==> (r.value.offlineMode <==> OfflineMode(env))
    ensures r.Ok? && r.value.offlineMode ==>
      r.value.inboxFolder == Some(GetEnvOr(env, "LOCAL_VOICE_INBOX", DefaultLocalInbox)) &&
      r.value.archiveFolder == Some(GetEnvOr(env, "LOCAL_VOICE_ARCHIVE", DefaultLocalArchive))
    ensures r.Ok? && !r.value.offlineMode ==>
      r.value.inboxFolder == GetEnv(env, "ONEDRIVE_VOICE_INBOX") &&
      r.value.archiveFolder == GetEnv(env, "ONEDRIVE_VOICE_ARCHIVE")
    ensures r.Ok? ==> r.value.downloadFolder == GetEnvOr(env, "LOCAL_VOICE_DOWNLOAD_FOLDER", DefaultDownloadFolder)
    ensures r.Ok? ==> r.value.termsFile == GetEnv(env, "TRANSCRIPTION_TERMS_FILE")
  {
    var interval := ParseInt(GetEnvOr(env, "ONEDRIVE_VOICE_POLL_INTERVAL", DefaultPollInterval));
    if interval.None? then Err("invalid literal for int() with base 10")
    else
      var offline := OfflineMode(env);
      Ok(WorkerConfig(
        interval.value,
        offline,
        if offline then Some(GetEnvOr(env, "LOCAL_VOICE_INBOX", DefaultLocalInbox)) else GetEnv(env, "ONEDRIVE_VOICE_INBOX"),
        if offline then Some(GetEnvOr(env, "LOCAL_VOICE_ARCHIVE", DefaultLocalArchive)) else GetEnv(env, "ONEDRIVE_VOICE_ARCHIVE"),
        GetEnvOr(env, "LOCAL_VOICE_DOWNLOAD_FOLDER", DefaultDownloadFolder),
        GetEnv(env, "TRANSCRIPTION_TERMS_FILE")))
  }

  /** The default interval text reads as 30 seconds. */
  lemma DefaultIntervalReads(s: string)
    requires s == DefaultPollInterval
    ensures ParseInt(s) == Some(30)
  {
    ThirtyReads(s);
  }

  lemma ThirtyReads(s: string)
    requires |s| == 2 && s[0] == '3' && s[1] == '0'
    ensures ParseInt(s) == Some(30)
  {
    assert AllDigits(s);
    ParseIntOfDigits(s);
    var h := s[..1];
    assert h[..0] == [] && DigitsValue(h) == 3;
    assert s[..|s| - 1] == h;
  }

  /** Without `ONEDRIVE_VOICE_POLL_INTERVAL` the worker polls every 30 seconds. */
  lemma DefaultInterval(env: Env)
    requires "ONEDRIVE_VOICE_POLL_INTERVAL" !in env
    ensures ParseInt(GetEnvOr(env, "ONEDRIVE_VOICE_POLL_INTERVAL", DefaultPollInterval)) == Some(30)
  {
    DefaultIntervalReads(GetEnvOr(env, "ONEDRIVE_VOICE_POLL_INTERVAL", DefaultPollInterval));
  }

  /** Without `OFFLINE_MODE` the worker talks to the cloud provider. */
  lemma DefaultOnline(env: Env)
    requires "OFFLINE_MODE" !in env
    ensures !OfflineMode(env)
  {
    assert GetEnvOr(env, "OFFLINE_MODE", "false") == "false";
    assert Lower("false") == "false";
  }

  /** With none of its variables set, the worker polls the provider every
      30 seconds, has no inbox or archive folder, and downloads to
      "./.work/voice". */
  lemma DefaultConfig(env: Env)
    requires "ONEDRIVE_VOICE_POLL_INTERVAL" !in env && "OFFLINE_MODE" !in env
    requires "ONEDRIVE_VOICE_INBOX" !in env && "ONEDRIVE_VOICE_ARCHIVE" !in env
    requires "LOCAL_VOICE_DOWNLOAD_FOLDER" !in env && "TRANSCRIPTION_TERMS_FILE" !in env
    ensures ResolveConfig(env) == Ok(WorkerConfig(30, false, None, None, DefaultDownloadFolder, None))
  {
    DefaultInterval(env);
    DefaultOnline(env);
  }

  /** Offline mode is recognised in any letter case and only for "true";
      offline, the local folders are used even when the remote ones are set. */
  lemma OfflineModeSpelling(env: Env)
    requires "OFFLINE_MODE" in env && env["OFFLINE_MODE"] == "TRUE"
    requires "ONEDRIVE_VOICE_POLL_INTERVAL" in env && env["ONEDRIVE_VOICE_POLL_INTERVAL"] == "5"
    requires "LOCAL_VOICE_INBOX" !in env
    ensures ResolveConfig(env).Ok? && ResolveConfig(env).value.offlineMode
    ensures ResolveConfig(env).value.inboxFolder == Some(DefaultLocalInbox)
  {
    assert Lower("TRUE") == "true";
    assert NatToString(5) == "5";
    ParseIntOfNatToString(5);
  }

  /** "yes" or "1" does not switch offline mode on. */
  lemma OfflineModeOnlyTrue(env: Env)
    requires "OFFLINE_MODE" in env && (env["OFFLINE_MODE"] == "yes" || env["OFFLINE_MODE"] == "1")
    ensures !OfflineMode(env)
  {
    assert Lower(env["OFFLINE_MODE"])[0] != 't';
  }

  /** The payload of every scheduled event: exactly these five entries,
      `None` published as JSON null. */
  function ScheduleEvent(cfg: WorkerConfig): (r: map<string, Json>)
    ensures r.Keys == {"offline_mode", "inbox_folder", "archive_folder", "download_folder", "terms_file"}
    ensures r["offline_mode"] == JBool(cfg.offlineMode)
    ensures OptStr(r, "inbox_folder") == Ok(cfg.inboxFolder)
    ensures OptStr(r, "archive_folder") == Ok(cfg.archiveFolder)
    ensures r["download_folder"] == JStr(cfg.downloadFolder)
    ensures OptStr(r, "terms_file") == Ok(cfg.termsFile)
  {
    map["offline_mode" := JBool(cfg.offlineMode),
        "inbox_folder" := DumpOptStr(cfg.inboxFolder),
        "archive_folder" := DumpOptStr(cfg.archiveFolder),
        "download_folder" := JStr(cfg.downloadFolder),
        "terms_file" := DumpOptStr(cfg.termsFile)]
  }

  /** The scheduled event reaches the poll workflow as its input. Built as
      written, the list request drops the event's inbox folder; forwarded,
      it carries it. */
  lemma EventInboxReachesListing(cfg: WorkerConfig)
    ensures ListRequestAsWritten(ScheduleEvent(cfg)) == Ok(ListInboxRequest(None, None, None))
    ensures ListRequest(ScheduleEvent(cfg)) == Ok(ListInboxRequest(None, None, cfg.inboxFolder))
  {
  }

  /** In offline mode `main` creates the inbox and archive folders when they
      are named; it fails exactly when a named folder is an existing file. */
  function PrepareFolders(fs: Fs, cfg: WorkerConfig): (r: Result<Fs>)
    ensures !cfg.offlineMode ==> r == Ok(fs)
    ensures cfg.offlineMode ==>
      (r.Ok? <==> (!Truthy(cfg.inboxFolder) || cfg.inboxFolder.value !in fs.files) &&
                  (!Truthy(cfg.archiveFolder) || cfg.archiveFolder.value !in fs.files))
    ensures r.Ok? ==> r.value.files == fs.files && fs.dirs <= r.value.dirs
    ensures r.Ok? && cfg.offlineMode && Truthy(cfg.inboxFolder) ==> cfg.inboxFolder.value in r.value.dirs
    ensures r.Ok? && cfg.offlineMode && Truthy(cfg.archiveFolder) ==> cfg.archiveFolder.value in r.value.dirs
    ensures r.Ok? ==> r.value.dirs <= fs.dirs + {cfg.inboxFolder.GetOr(""), cfg.archiveFolder.GetOr("")}
  {
    if !cfg.offlineMode then Ok(fs)
    else
      var withInbox :- if Truthy(cfg.inboxFolder) then MakeDirs(fs, cfg.inboxFolder.value) else Ok(fs);
      if Truthy(cfg.archiveFolder) then MakeDirs(withInbox, cfg.archiveFolder.value) else Ok(withInbox)
  }
}
