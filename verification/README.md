# dapr-agent-flow in Dafny

A model of the deterministic core of dapr-agent-flow, a voice-to-action
pipeline: recordings land in an inbox (a OneDrive folder or, offline, a local
folder), a scheduler publishes a poll event, and a poll workflow lists the new
recordings and fans each one out to a per-file workflow that downloads it.
Two durable markers per file in a key/value store, `voice_inbox_pending:<id>`
and `voice_inbox_downloaded:<id>`, keep a recording from being dispatched
twice. Around that core sit self-contained pieces that are modelled as pure
functions:

- the Microsoft Graph token lifecycle (bootstrap, the five-minute refresh
  rule, refresh-token carry-over) and the two Graph projections;
- the scheduler's configuration and event payload;
- the request records and the tool-argument records with their ISO 8601
  datetime check;
- the HTML pages of the office-automation tools and the tasker tools
  (transcription read-back, UTC-offset text);
- the LLM provider choice;
- the web monitor (HTML escaping, list grouping, actor and side
  classification, CloudEvent normalisation, client pruning) and the console
  monitor's content extraction.

Layout: one module per source component, plus shared modules `Base`
(Option/Result, environment lookups), `Seqs` (filter, subsequence), `Text`
(lower-casing, `strip`, prefixes and infixes, decimal rendering and parsing)
and `Json` (a JSON value with Python and JavaScript truthiness).

The state store is a `map<string, string>`, and a key saved with "" reads
back as absent. The filesystem is a map from path to content plus a set of
directories. Workflows are the sequence of steps they issue. An `outcome`
function says what each step returns or raises.

These are parameters throughout:
- the clock;
- `json.loads`/`json.dumps` and `JSON.parse`/`JSON.stringify`;
- UTF-8 decoding;
- the HTTP calls;
- directory listings;
- the local-zone lookup.

`Idempotency` ties the inbox pieces together:
- markers are only ever added;
- a completed poll leaves every file it dispatched downloaded and no longer
  pending, and a poll whose child fails leaves that file pending;
- the next poll over any listing dispatches none of them again;
- a downloaded file is never listed again;
- the token record's key can never be a marker key, so the token writes
  the Graph adapter makes inside the activities leave every marker alone.

Where parts of the code disagree, the model follows the code that runs:

- `ListInboxRequest` and `DownloadRequest` (models/voice2action.py:29-41)
  do not declare `inbox_folder` or `download_folder`, yet the activities read
  both. pydantic drops undeclared keys, so as written `data.inbox_folder` and
  `data.download_folder` raise `AttributeError`. The model's request records
  carry the two fields as optional strings. It follows each activity's
  evident reading: an unset inbox folder is the activity's `ValueError`, and
  an unset download folder falls back to `LOCAL_VOICE_DOWNLOAD_FOLDER`.
- The two `CreateTaskArgs` records look alike but differ: the office-automation copy declares `notes: str` with a
  `None` default, so an explicit null `notes` is rejected there but accepted
  by models/agents.py. `OfficeAutomation.NullNotesRejectedHere` and
  `OfficeAutomation.TaskArgsAgreeExceptNullNotes` state the exact difference.
- Failed files stay marked. Nothing clears either marker after a failure,
  and `Idempotency.MarkPendingKeepsMarks` and
  `Idempotency.MarkDownloadedKeepsMarks` state that markers are only added.
- The poll workflow only ever calls the remote listing. The local activities
  are modelled, but no workflow uses them.

## Model

| member | source | states |
|---|---|---|
| StateStore.Set | services/state_store.py:15-22 | after saving, the key reads back the value, or as absent when the value is empty; every other key reads as before |
| StateStore.Delete | services/state_store.py:15-25 | after deleting, the key reads as absent and every other key reads as before |
| FileSystem.Join | services/local_inbox.py:10 | the joined path ends with the name and, for a relative name and a non-empty folder, starts with the folder |
| FileSystem.JoinInjective | services/local_inbox.py:17-18 | two relative names joined onto one folder give the same path only when they are the same name |
| FileSystem.MakeDirs | services/local_inbox.py:16 | `makedirs(exist_ok=True)` fails exactly for "" or an existing regular file, and otherwise adds the directory and changes no file |
| FileSystem.WriteFile | activities/onedrive_inbox.py:89 | writing a file fails exactly when the path is a directory, and otherwise sets that path's content and nothing else |
| FileSystem.Remove | services/local_inbox.py:19-20 | only a regular file can be removed, and removing it changes nothing else |
| FileSystem.Move | services/local_inbox.py:21 | models `shutil.move` of a file onto a path that is not a directory (the only case the archive step reaches): a move succeeds exactly when the source is a file and the destination is not a directory; the destination then holds the source's content, the source is gone, and no other path changes |
| FileSystem.Copy | activities/local_inbox.py:56 | a copy onto a non-directory succeeds exactly when the source exists and differs from the destination; it keeps the source and sets only the destination |
| InboxMarkers.MarkerKeysDistinct | activities/onedrive_inbox.py:17-18 | a pending key never equals a downloaded key, whatever the two ids |
| InboxMarkers.PendingKeyInjective | activities/onedrive_inbox.py:17 | distinct ids have distinct pending keys |
| InboxMarkers.DownloadedKeyInjective | activities/onedrive_inbox.py:18 | distinct ids have distinct downloaded keys |
| InboxMarkers.NewFiles | activities/onedrive_inbox.py:40-62 | the remote filter keeps exactly the `.wav`/`.mp3` files (any case) with neither marker, as an order-preserving subsequence of the listing |
| InboxMarkers.NewFilesSnoc | activities/onedrive_inbox.py:52-62 | one more listed file extends the filtered list by that file exactly when it passes the per-file test |
| InboxMarkers.UnmarkedFiles | activities/local_inbox.py:25-32 | the local filter keeps exactly the references with neither marker, in listing order |
| InboxMarkers.MarkDownloaded | activities/onedrive_inbox.py:91-93 | after a completed download the downloaded marker reads "1", the pending marker is absent, and no other key changes |
| InboxMarkers.NewFilesSameMarks | activities/onedrive_inbox.py:52-62 | the remote filter reads only the markers: two stores with the same markers filter every listing alike |
| InboxMarkers.MarkDownloadedSameMarks | activities/onedrive_inbox.py:91-93 | marking one file downloaded in two stores with the same markers leaves their markers the same |
| Models.ReqStr | models/voice2action.py:22-24 | a required `str` field validates exactly when it is present and a string, and yields that string |
| Models.OptStr | models/voice2action.py:26 | an `Optional[str] = None` field is `None` exactly when absent or null, a string when a string, and an error otherwise |
| Models.OptInt | models/voice2action.py:25 | an `Optional[int] = None` field is `None` exactly when absent or null, a number when a number, and an error otherwise |
| Models.ValidateFileRef | models/voice2action.py:22-26 | a FileRef needs `id` and `name` as strings; `size` and `etag` default to `None` |
| Models.DumpFileRef | models/voice2action.py:22-26 | the dump has exactly the four declared keys and validates back to the same FileRef |
| Models.ValidateTranscriptionRequest | models/voice2action.py:15-17 | `audio_path` is required and `mime_type` defaults to "audio/mpeg" |
| Models.ValidateListInboxRequest | models/voice2action.py:29-31 | a request validates exactly when it is an object whose `folder_path`, `corr_id` and `inbox_folder` are each absent, null or a string, and each field reads back as given (`None` when absent or null); an empty object is a request with every field `None` |
| Models.DumpListInboxRequest | models/voice2action.py:29-31 | a dumped list request validates back to itself |
| Models.ValidateDownloadRequest | models/voice2action.py:38-41 | a request validates exactly when it is an object with a valid FileRef under `file` and `corr_id`, `target_dir` and `download_folder` each absent, null or a string; each field reads back as given; a request of just a dumped file has every other field `None` |
| Models.DumpDownloadRequest | models/voice2action.py:38-41 | a dumped download request validates back to itself |
| Models.ValidateMarkPendingRequest | models/voice2action.py:44-46 | `file_id` is required, and `corr_id` defaults to `None` |
| Models.DumpMarkPendingRequest | models/voice2action.py:44-46 | a dumped mark request validates back to itself |
| LocalInbox.LocalRefs | services/local_inbox.py:8-13 | every regular audio file of the listing, and nothing else, appears as a reference with id = name, in listing order |
| LocalInbox.ListLocalInbox | services/local_inbox.py:6-13 | the listing fails exactly when the folder cannot be created; otherwise the folder exists afterwards, files are untouched, and the result is the audio references |
| LocalInbox.MoveToLocalArchive | services/local_inbox.py:15-21 | the archive move succeeds exactly under the stated path conditions; the archive then exists, `archive/name` holds the former inbox content, `inbox/name` is gone, and no other path changes |
| LocalInbox.ArchiveOverwrites | services/local_inbox.py:19-21 | a file already at the destination is replaced by the recording rather than causing an error |
| LocalInbox.ArchiveOntoItselfLosesFile | services/local_inbox.py:15-21 | with the inbox as its own archive, the recording is removed before the move, the move fails, and the recording is gone |
| LocalInboxActivity.ListLocalInboxActivity | activities/local_inbox.py:11-33 | an unset inbox folder raises the activity's ValueError; otherwise it fails only when the folder is a regular file, and the result is exactly the regular audio files with neither marker, in listing order |
| LocalInboxActivity.PrepareLocalFile | activities/local_inbox.py:36-61 | without `src_folder` it raises; on success it copies `src_folder/name` to the download path, keeps the source, returns that path, sets the downloaded marker, clears pending, and leaves other keys alone; on failure the store is unchanged |
| OneDriveInbox.TokenKeyIsNoMarker | services/onedrive.py:20 | the token record's key is never a marker key |
| OneDriveInbox.TokenWriteKeepsMarks | services/onedrive.py:60-61 | a store changed only in the token record carries the same markers |
| OneDriveInbox.ListOneDriveInbox | activities/onedrive_inbox.py:20-70 | an unset inbox folder raises before any adapter is built and leaves the store alone; otherwise the store is the one the adapter's construction and listing leave, changed at most in the token record; a failed listing (construction included) gives no files plus the error text; otherwise the result is exactly the new audio files in provider order |
| OneDriveInbox.FilterListing | activities/onedrive_inbox.py:52-62 | the skip loop computes exactly the order-preserving marker filter |
| OneDriveInbox.MarkFilePending | activities/onedrive_inbox.py:72-77 | the pending marker reads "1" afterwards and no other key changes |
| OneDriveInbox.FinishDownload | activities/onedrive_inbox.py:85-93 | after the URL lookup the download succeeds exactly when the folder can be made, the fetch succeeds and the destination is no directory; then the fetched content is at folder/name, the path is returned and the file is marked downloaded, and otherwise the store is untouched |
| OneDriveInbox.DownloadOneDriveFile | activities/onedrive_inbox.py:80-95 | the token record is whatever the adapter's URL lookup saved, even when a later step fails; on success the store is the lookup's store with the file marked downloaded; no key other than the token record and the file's two markers changes; a failure keeps every marker, and with a fresh stored token keeps the whole store; the download succeeds exactly when every step does, and then writes the fetched content at the folder joined with the name, returns that path, sets downloaded and clears pending |
| OneDriveInbox.DownloadMarks | activities/onedrive_inbox.py:91-93 | a completed download leaves the markers exactly as marking the file downloaded on the starting store would |
| OneDrive.LoadToken | services/onedrive.py:51-58 | nothing stored loads as no record; stored text loads as its parse, which is no record when the text is not JSON |
| OneDrive.SaveToken | services/onedrive.py:60-61 | the record's serialisation is stored under `ms_graph_token_state` and no other key changes |
| OneDrive.SaveThenLoad | services/onedrive.py:51-61 | a saved record is what the next load returns, given a codec that round-trips it |
| OneDrive.RawToken | services/onedrive.py:37-42 | a non-JSON environment token becomes a record with that access token, expiry now + 3600 and a null refresh token |
| OneDrive.Bootstrap | services/onedrive.py:27-43 | a truthy stored record is used and nothing is saved; otherwise `MS_GRAPH_TOKEN` is required, parsed or taken raw, and the result saved; with neither it raises |
| OneDrive.BootstrapIgnoresEnvWhenStored | services/onedrive.py:27-28 | with a truthy stored record, neither the environment nor the clock affects the bootstrap |
| OneDrive.BootstrapRawToken | services/onedrive.py:34-43 | a non-JSON environment token becomes the raw record and that record is persisted |
| OneDrive.ExpiresAt | services/onedrive.py:65 | a missing `expires_at` reads as 0 and a number as itself; the read fails exactly when the record is not an object or `expires_at` is not a number |
| Json.PyIntStripsWhitespace | services/onedrive.py:92 | an `expires_in` sent as text reads, whatever whitespace surrounds it, as the number the text itself reads as; with `Text.IntDropsUnderscores`, " 3_600 " reads as 3600 |
| OneDrive.Refresh | services/onedrive.py:71-99 | no refresh token or no client credentials raise; on success the record holds the new access token, `now + expires_in` (3600 by default) and the new refresh token or else the old one, and it is saved |
| OneDrive.RefreshKeepsRefreshToken | services/onedrive.py:92-97 | a response without `refresh_token` keeps the old one, and one without `expires_in` gives an hour |
| OneDrive.GetValidAccessToken | services/onedrive.py:63-69 | a refresh is attempted exactly when `expires_at - now < 300`; a failure leaves the adapter unchanged; the token returned is the possibly refreshed record's access token |
| OneDrive.RefreshBoundary | services/onedrive.py:65 | 299 seconds left refreshes and 300 does not |
| OneDrive.MissingExpiryRefreshes | services/onedrive.py:65 | a record without `expires_at` is always refreshed |
| OneDrive.RefreshFailureKeepsState | services/onedrive.py:72-80 | without a refresh token or client credentials, an expiring record makes the call fail and nothing changes |
| OneDrive.RefreshedRecordIsFresh | services/onedrive.py:92-98 | a record refreshed with the default lifetime needs no refresh at the same instant |
| OneDrive.ItemRef | services/onedrive.py:110-116 | a file item converts exactly when its id and name are strings and size and `eTag` are well typed, keeping id and name |
| OneDrive.ItemRefs | services/onedrive.py:108-117 | file items convert one by one, in order, and the conversion fails exactly when some item fails |
| OneDrive.FileFacetTest | services/onedrive.py:109 | `"file" in it` is key membership on an object, a substring test on a string and element membership on a list, and raises on any other value |
| OneDrive.ListItems | services/onedrive.py:108-117 | the loop succeeds exactly when every element's test succeeds and every passing element converts; it then yields the passing elements, in order, as FileRefs |
| OneDrive.ObjectListing | services/onedrive.py:108-117 | on a listing of objects the loop converts exactly the items with a "file" facet, in order |
| OneDrive.CharsListNothing | services/onedrive.py:108-109 | iterating a string `value` lists nothing, since no one-character string contains "file" |
| OneDrive.ListFolder | services/onedrive.py:101-118 | a response that is not an object fails; a missing `value` gives no files; an array `value` is the loop over its items; a string `value` lists nothing; an object `value` lists nothing unless a key contains "file", which raises; any other `value` raises |
| OneDrive.ListFolderSkipsFolders | services/onedrive.py:109 | a listing of folders only is empty |
| OneDrive.StringItems | services/onedrive.py:109-116 | a string item "profile" passes the facet test and then raises; "abc" is skipped |
| OneDrive.GetDownloadUrl | services/onedrive.py:120-131 | a truthy `@microsoft.graph.downloadUrl` is returned as is; otherwise the item's URL with "/content" |
| OneDrive.ContentUrlInjective | services/onedrive.py:122-131 | distinct item ids give distinct fallback URLs |
| OneDrive.AuthorisedGet | services/onedrive.py:47-49 | the GET carries the access token of the record as it is after any refresh; only the token record can change, and nothing changes when the record is not about to expire |
| OneDrive.ServiceListFolder | services/onedrive.py:22-118 | building the adapter and listing changes at most the token record, writes nothing when a fresh record is stored, fails with the store untouched when there is no token at all, and on success returns the projection of the response fetched with the adapter's token |
| OneDrive.ServiceDownloadUrl | services/onedrive.py:22-131 | the same token effect for the URL lookup, which on success returns the projection of the item fetched with the adapter's token |
| OneDrive.FailedCallKeepsBootstrap | services/onedrive.py:36-105 | a first call with nothing stored saves the environment's record even when the Graph request then fails |
| Voice2Action.ListRequestAsWritten | workflows/voice2action.py:34-37 | the request as the poll workflow builds it carries `folder_path` and never an inbox folder |
| Voice2Action.ListRequest | workflows/voice2action.py:30-37 | the corrected request carries the poll input's `folder_path` and `inbox_folder` |
| Voice2Action.ListRequestForwardsInbox | workflows/voice2action.py:30-37 | an input naming an inbox folder yields a request with that folder; the request as written yields none |
| Voice2Action.AsWrittenListingFails | workflows/voice2action.py:34-37 | with the request as written, the listing activity raises for every input, store and provider, before touching the store |
| Voice2Action.ForwardedListingRuns | workflows/voice2action.py:34-37 | with the inbox folder forwarded, the listing runs and yields the new files |
| Voice2Action.ValidateFiles | workflows/voice2action.py:38 | the listed items validate exactly when each one is a FileRef, giving one record per item in order |
| Voice2Action.ListedFiles | workflows/voice2action.py:38 | a result that is not an object raises; without `files` there are no files; a list validates item by item (`ValidateFiles`: every item must be a FileRef, and the files are the items in order); a string or a dictionary lists nothing when empty and raises otherwise, since its characters or keys are no FileRef; null, numbers and booleans raise |
| Voice2Action.ListedFilesOfDump | workflows/voice2action.py:38 | the workflow reads back exactly the files the listing activity returned |
| Voice2Action.DispatchShape | workflows/voice2action.py:40-57 | per listed file, in order, one mark-pending step directly followed by its child start |
| Voice2Action.PlanShape | workflows/voice2action.py:33-57 | the list step comes first, then file i's mark at 1 + 2i and its child start at 2 + 2i, and nothing else |
| Voice2Action.DispatchFiles | workflows/voice2action.py:40-57 | the per-file loop issues a prefix of the plan, stops at the first failing step, and completes exactly when every planned step succeeds |
| Voice2Action.RunListed | workflows/voice2action.py:40-59 | after a successful listing, the run succeeds exactly when every planned step does, with the full plan and `files` = the number listed; otherwise it ends at the failing step |
| Voice2Action.PollOrchestrator | workflows/voice2action.py:29-62 | an invalid list request issues nothing and fails; otherwise the list step comes first, every step but the last succeeded, and the trace is a prefix of the plan; the run succeeds exactly when the listing and every planned step succeed, returning `polled` with the file count |
| Voice2Action.PerFileOrchestrator | workflows/voice2action.py:67-79 | an invalid file issues nothing and fails; a valid file gives exactly one download step, and the run returns ok exactly when that step succeeds |
| Voice2Action.ChildDownloadsItsFile | workflows/voice2action.py:51-73 | a child started with a file's dump downloads exactly that file |
| Idempotency.MarkPendingKeepsMarks | activities/onedrive_inbox.py:72-77 | marking one file pending keeps every pending marker and changes no downloaded marker |
| Idempotency.MarkDownloadedKeepsMarks | activities/onedrive_inbox.py:91-93 | completing a download keeps every marked file marked and marks the completed file downloaded |
| Idempotency.DownloadedNeverRelisted | activities/onedrive_inbox.py:56-58 | after a successful download the file is absent from every later remote listing |
| Idempotency.PreparedNeverRelisted | activities/local_inbox.py:58-60 | after a successful local prepare the file is absent from every later local listing |
| Idempotency.SaveTokenKeepsMarks | services/onedrive.py:60-61 | saving a token record changes no marker |
| Idempotency.OtherFilesKeepMarks | activities/onedrive_inbox.py:72-93 | marking one file pending or downloaded leaves every other file's markers as they were |
| Idempotency.StepKeepsSameMarks | workflows/voice2action.py:40-46 | two stores with the same markers still agree after any poll step, so a token write between steps changes nothing the poll reads |
| Idempotency.PollDownloadsAllDispatched | workflows/voice2action.py:40-46 | a completed poll leaves every dispatched file downloaded and no longer pending |
| Idempotency.NextPollSkipsDispatched | workflows/voice2action.py:29-62 | the next poll over any listing dispatches none of the files a completed poll dispatched |
| Idempotency.FailedChildStaysPending | workflows/voice2action.py:44-46 | a poll whose child for a file fails leaves that file pending, so no later poll dispatches it |
| Text.ParseIntOfDigits | services/workflow/worker.py:26 | `int()` of a bare run of decimal digits is their value |
| Text.ParseIntOfNatToString | services/workflow/worker.py:26 | `int()` reads back the decimal rendering of any natural number |
| Text.IntStripsWhitespace | services/workflow/worker.py:26 | whitespace of any length on either side of the number is ignored by `int()` |
| Text.SignedOfGrouped | services/workflow/worker.py:26 | digit groups read as their digits with the underscores dropped, and a leading minus negates that value |
| Text.IntJoinsGroups | services/workflow/worker.py:26 | two digit runs joined by one underscore are valid digit groups and read as the two runs written together |
| Text.IntDropsUnderscores | services/workflow/worker.py:26 | `int()` reads "3_600" as 3600 |
| Text.IntRefusesLooseUnderscores | services/workflow/worker.py:26 | `int()` refuses doubled, leading and trailing underscores |
| Worker.ResolveConfig | services/workflow/worker.py:26-41 | the configuration raises exactly when the poll interval is not an integer; offline mode uses the local folders with their defaults, and otherwise the remote variables; the download folder is "./.work/voice" by default in both modes |
| Worker.DefaultInterval | services/workflow/worker.py:26 | without `ONEDRIVE_VOICE_POLL_INTERVAL` the interval is 30 seconds |
| Worker.DefaultOnline | services/workflow/worker.py:27 | without `OFFLINE_MODE` the worker is online |
| Worker.DefaultConfig | services/workflow/worker.py:26-41 | in any environment that sets none of its variables: a 30-second interval, online, no inbox or archive folder, and "./.work/voice" |
| Worker.OfflineModeSpelling | services/workflow/worker.py:27-33 | "TRUE" switches offline mode on, and the local inbox default is then used |
| Worker.OfflineModeOnlyTrue | services/workflow/worker.py:27 | "yes" and "1" do not switch offline mode on |
| Worker.ScheduleEvent | services/workflow/worker.py:56-62 | the event has exactly the five keys, and each reads back as the configured value |
| Worker.EventInboxReachesListing | services/workflow/worker.py:56-62 | the scheduled event's inbox folder is dropped by the request as written and carried by the corrected one |
| Worker.PrepareFolders | services/workflow/worker.py:44-48 | offline, it fails exactly when a named inbox or archive folder is an existing file; on success the named folders exist afterwards, no file changes and no other folder is added; online nothing happens |
| Iso8601.ValidateIso8601 | models/agents.py:46-58 | `None` passes; a string passes, unchanged, exactly when it matches the datetime pattern |
| Iso8601.FormatAccepted | models/agents.py:53-54 | every well-formed timestamp's text is accepted |
| Iso8601.ZoneRoundTrip | models/agents.py:53 | a zone's text is "Z" or `±HH:MM` and reads back as the zone |
| Iso8601.ParseParts | models/agents.py:53 | a head, an optional fraction and a zone, concatenated, match the pattern and parse into their fields |
| Iso8601.FormatParse | models/agents.py:53-54 | every well-formed timestamp's text matches the pattern and parses back to the timestamp |
| Iso8601.UtcExampleAccepted | models/agents.py:33 | "2025-08-16T14:30:00Z" is accepted |
| Iso8601.OffsetExampleAccepted | models/agents.py:33 | "2025-08-16T14:30:00+00:00" is accepted |
| Iso8601.FractionExampleAccepted | models/agents.py:53 | a fraction and a negative offset are accepted |
| Iso8601.OutOfRangeAccepted | models/agents.py:53 | only digit counts are checked: month 13, day 45, hour 25 are accepted |
| Iso8601.MissingZoneRejected | models/agents.py:53-57 | a datetime without a zone designator is rejected |
| Iso8601.BareDotRejected | models/agents.py:53-57 | a "." without fraction digits is rejected |
| Iso8601.DateOnlyRejected | models/agents.py:53-57 | a date alone is rejected |
| Iso8601.TrailingNewlineAccepted | models/agents.py:53-54 | `$` also matches before a final newline, so such a string passes unchanged |
| Agents.OptIso | models/agents.py:46-58 | an optional datetime field validates exactly when its type and its pattern check pass, and keeps its value |
| Agents.ValidateSendEmailArgs | models/agents.py:7-21 | subject and body are both required strings |
| Agents.TaskFields | models/agents.py:24-58 | a task record needs a string title, has accepted datetimes, and takes each optional field as read |
| Agents.ValidateCreateTaskArgs | models/agents.py:24-58 | `title` is required; `due_date`, `reminder` and `notes` are optional strings, and the datetimes are accepted |
| Agents.ValidateRetrieveTranscriptionArgs | models/agents.py:61-70 | `transcription_path` is a required string |
| Agents.DumpCreateTaskArgs | models/agents.py:24-44 | the dump carries exactly the four declared fields |
| Agents.SendEmailRoundTrip | models/agents.py:7-21 | a dumped email record validates back to itself |
| Agents.CreateTaskRoundTrip | models/agents.py:24-58 | a dumped task record validates back to itself exactly when its datetimes are accepted |
| Agents.TitleOnly | models/agents.py:27-44 | a record with only a title has every other field `None` |
| Agents.NullNotesAccepted | models/agents.py:40-44 | an explicit null `notes` is accepted as `None` |
| Agents.ZonelessDueDateRejected | models/agents.py:46-58 | a due date without a zone designator fails validation |
| OfficeAutomation.NotesField | services/intent_orchestrator/agent_office_automation.py:62 | `notes: str = None`: absent is `None`, a string is kept, and anything else, null included, is an error |
| OfficeAutomation.ValidateTaskArgs | services/intent_orchestrator/agent_office_automation.py:51-75 | this copy needs a title, accepts the same datetimes and reads notes as `notes: str` |
| OfficeAutomation.TaskArgsAgreeExceptNullNotes | services/intent_orchestrator/agent_office_automation.py:51-75 | the two task records validate identically, except for an explicit null `notes` |
| OfficeAutomation.NullNotesRejectedHere | services/intent_orchestrator/agent_office_automation.py:62 | a null `notes` is rejected by this copy and accepted by models/agents.py |
| OfficeAutomation.TaskArgsRoundTrip | services/intent_orchestrator/agent_office_automation.py:51-75 | a dumped task record validates back here exactly when its datetimes are accepted and it has notes |
| OfficeAutomation.EmailText | services/intent_orchestrator/agent_office_automation.py:33 | the body text is never empty: an empty or missing body becomes "(no email body provided)" |
| OfficeAutomation.SubjectHeader | services/intent_orchestrator/agent_office_automation.py:34-36 | the subject header is the subject line for a truthy subject and empty otherwise |
| OfficeAutomation.EmailHeaderIffSubject | services/intent_orchestrator/agent_office_automation.py:34-44 | the page opens with the subject header exactly when the subject is truthy |
| OfficeAutomation.EmailShowsFields | services/intent_orchestrator/agent_office_automation.py:33-44 | the page contains the subject line for a truthy subject and ends with the body paragraph |
| OfficeAutomation.EmailFalsyInterchangeable | services/intent_orchestrator/agent_office_automation.py:33-36 | an empty subject or body gives the same page as a missing one |
| OfficeAutomation.SendEmail | services/intent_orchestrator/agent_office_automation.py:30-48 | the tool writes the page to `.work/email.html`, creates `.work` and returns "Email sent"; it fails only when those paths are taken |
| OfficeAutomation.Line | services/intent_orchestrator/agent_office_automation.py:85-87 | an optional task line is present, captioned and ending in the value exactly for a truthy value |
| OfficeAutomation.LineFilled | services/intent_orchestrator/agent_office_automation.py:85-87 | a line is non-empty exactly when its value is truthy, and a present line opens with its caption |
| OfficeAutomation.TaskLineSlots | services/intent_orchestrator/agent_office_automation.py:81-90 | at each line's place the page opens a Due, Reminder or Notes line exactly when that field is truthy |
| OfficeAutomation.TaskShowsFields | services/intent_orchestrator/agent_office_automation.py:81-90 | the page contains each truthy field's full line |
| OfficeAutomation.TaskFalsyInterchangeable | services/intent_orchestrator/agent_office_automation.py:85-87 | an empty due date, reminder or notes gives the same page as a missing one |
| OfficeAutomation.CreateTask | services/intent_orchestrator/agent_office_automation.py:78-94 | the tool writes the task page to `.work/task.html`, creates `.work` and returns "Task created"; it fails only when those paths are taken |
| OfficeAutomation.CreateTaskTool | services/intent_orchestrator/agent_office_automation.py:51-94 | the tool runs exactly on arguments that validate, with the validated record |
| OfficeAutomation.SendEmailTool | services/intent_orchestrator/agent_office_automation.py:24-48 | the email tool runs exactly on arguments that validate, with the subject and body |
| Tasker.RetrieveTranscription | services/intent_orchestrator/agent_tasker.py:28-53 | an empty path gives ""; a read failure gives the error text; non-JSON content comes back verbatim; JSON gives its `text` entry, a string itself, or anything else re-serialised |
| Tasker.TranscriptReadsBack | services/intent_orchestrator/agent_tasker.py:37-47 | a transcript written as `{"text": t}` reads back as t, and plain text reads back unchanged |
| Tasker.ReadFailureIsReported | services/intent_orchestrator/agent_tasker.py:51-52 | a failed read is returned as text starting "[Error reading transcription: " |
| Tasker.GetOfficeTimezone | services/intent_orchestrator/agent_tasker.py:83-94 | OFFICE_TIMEZONE verbatim when set, else the local zone's name, else "UTC" |
| Tasker.FormatUtcOffset | services/intent_orchestrator/agent_tasker.py:97-108 | "Z" exactly for a missing or zero offset; otherwise the sign, then zero-padded hours and minutes of the magnitude |
| Tasker.OffsetReadsBack | services/intent_orchestrator/agent_tasker.py:102-108 | below 100 hours the text is an ISO 8601 zone that reads back as the offset truncated to whole minutes, with less than a minute dropped |
| Tasker.OffsetStampAccepted | services/intent_orchestrator/agent_tasker.py:97-108 | a timestamp carrying the formatted offset passes the task tools' datetime check |
| Tasker.OffsetExamples | services/intent_orchestrator/agent_tasker.py:97-108 | +7200 s is "+02:00", -19800 s is "-05:30", and 0 or none is "Z" |
| LlmFactory.PresentIffFilled | services/llm_factory.py:36-37 | a value is present exactly when it is set and has a non-whitespace character |
| LlmFactory.AllPresentIff | services/llm_factory.py:36-37 | `_all_present` holds exactly when every value is set and not blank |
| LlmFactory.AllPresentFour | services/llm_factory.py:51 | `_all_present` of four values is the conjunction of the four |
| LlmFactory.AzureSettings | services/llm_factory.py:47-50 | the four Azure settings are read in their fixed order |
| LlmFactory.MissingAzureSettings | services/llm_factory.py:74-83 | the missing list names exactly the unset or blank Azure settings, in fixed order |
| LlmFactory.MissingIffNotAllPresent | services/llm_factory.py:71-83 | nothing is missing exactly when the Azure path is taken |
| LlmFactory.SelectProvider | services/llm_factory.py:46-104 | Azure when all four settings are present; else OpenAI with the model defaulting to "gpt-4o-mini" when OPENAI_API_KEY is non-empty; else the configuration error |
| LlmFactory.AzurePrecedence | services/llm_factory.py:51-66 | with Azure fully configured, setting or clearing OPENAI_API_KEY changes nothing |
| LlmFactory.BlankAzureSettingFallsBack | services/llm_factory.py:89-96 | a whitespace-only Azure setting counts as missing, and OpenAI is chosen |
| WebApp.ReplaceChar | services/ui/web_monitor/public/app.js:7 | after a global replacement, every character came from the input but not the replaced one, or from the replacement |
| WebApp.EscapedHasNoMarkup | services/ui/web_monitor/public/app.js:6-8 | escaped text contains no `<`, `>`, `"` or `'` |
| WebApp.EscapeAmpersand | services/ui/web_monitor/public/app.js:7 | "&" escapes to "&amp;" |
| WebApp.EscapeOne | services/ui/web_monitor/public/app.js:6-8 | each character escapes to its own entity, or to itself, with no double escaping |
| WebApp.EscapeAppend | services/ui/web_monitor/public/app.js:6-8 | escaping distributes over concatenation |
| WebApp.EscapeHtmlIsPerChar | services/ui/web_monitor/public/app.js:6-8 | the chain of five replacements, `&` first, equals escaping each character on its own |
| WebApp.UnescapeEscapeHtml | services/ui/web_monitor/public/app.js:6-8 | decoding the entities of escaped text gives the text back |
| WebApp.RenderMarkdown | services/ui/web_monitor/public/app.js:11-13 | falsy input renders as "", and other text is escaped before any Markdown rewrite |
| WebApp.GroupList | services/ui/web_monitor/public/app.js:42-58 | the loop's output is the rendering of the grouped pieces |
| WebApp.GroupedPlains | services/ui/web_monitor/public/app.js:46-54 | non-matching lines pass through unchanged and in order |
| WebApp.GroupedItems | services/ui/web_monitor/public/app.js:48-50 | the list items are exactly the matching lines' captures, in order |
| WebApp.GroupedNested | services/ui/web_monitor/public/app.js:45-56 | open and close tags alternate and balance, trailing run included, and items appear only inside a list |
| WebApp.GroupedOpens | services/ui/web_monitor/public/app.js:45-56 | one opening tag per maximal run of matching lines |
| WebApp.ResolveActor | services/ui/web_monitor/public/app.js:60-72 | orchestrator/intent win over task/planner, which win over office/automation/emailer, on the lower-cased source |
| WebApp.ResolveActorIgnoresCase | services/ui/web_monitor/public/app.js:61-70 | the emoji does not depend on letter case, and neither does the whole actor when one of the three families matches |
| WebApp.ActorNames | services/ui/web_monitor/public/app.js:60-72 | the label is one of the three actors or the source, and "unknown" for an empty source |
| WebApp.SideFor | services/ui/web_monitor/public/app.js:74-77 | "right" exactly when the lower-cased source contains "agent", else "left" |
| WebApp.SideIgnoresCase | services/ui/web_monitor/public/app.js:75-76 | the side does not depend on letter case |
| WebApp.AgentSourceOnRight | services/ui/web_monitor/public/app.js:76 | any source containing "agent" is on the right |
| WebServer.OrDefault | services/ui/web_monitor/server.js:39-40 | a missing or falsy property takes the default |
| WebServer.Coalesce | services/ui/web_monitor/server.js:50 | `??` takes the left value unless it is missing or null |
| WebServer.ParsedData | services/ui/web_monitor/server.js:43-46 | string data is replaced by its parse when it is JSON, and kept otherwise |
| WebServer.Content | services/ui/web_monitor/server.js:48-55 | object data gives its first present key among content, message and text, or itself; an array or a string gives itself; anything else gives `{}` |
| WebServer.CoalesceChain | services/ui/web_monitor/server.js:50 | the `??` chain equals the first-present reading over the three keys |
| WebServer.Handle | services/ui/web_monitor/server.js:37-61 | every event is answered 200 with time, source and content normalised as above |
| WebServer.DefaultsApply | services/ui/web_monitor/server.js:38-40 | without time and source the event takes the current time and "unknown" |
| WebServer.ObjectContent | services/ui/web_monitor/server.js:49-50 | object data: content, else message, else text, else the object, where a null entry falls through |
| WebServer.ObjectContentNeverNull | services/ui/web_monitor/server.js:50 | object data never yields null content |
| WebServer.StringDataParsedOnce | services/ui/web_monitor/server.js:43-52 | JSON text is read as its value and parsed once; a non-JSON string is its own content |
| WebServer.ScalarDataIsEmptyObject | services/ui/web_monitor/server.js:48-55 | null, booleans, numbers and missing data, parsed or not, become `{}` |
| WebServer.Broadcast | services/ui/web_monitor/server.js:16-27 | exactly the clients whose write succeeds are kept, in order |
| WebServer.Dropped | services/ui/web_monitor/server.js:21-25 | exactly the clients whose write throws are dropped |
| WebServer.BroadcastPartitions | services/ui/web_monitor/server.js:16-27 | every client is kept or dropped, never both and never lost |
| WebServer.BroadcastIdempotent | services/ui/web_monitor/server.js:16-27 | a second broadcast to the same healthy clients drops nobody |
| WebServer.Payload | services/ui/web_monitor/server.js:17 | each write is one server-sent-events frame: "data: ", the serialised event, and a blank line |
| Monitor.Decoded | services/ui/monitor.py:44-49 | bytes that decode become text, bytes that do not are kept, and other data is untouched |
| Monitor.ContentOrSelf | services/ui/monitor.py:55 | a dict gives its "content" entry when it has one, and itself otherwise |
| Monitor.ContentOf | services/ui/monitor.py:50-61 | text is parsed; a parsed dict or a dict gives its content or itself; non-JSON text is kept; other values are logged as they are |
| Monitor.OnBeaconChannel | services/ui/monitor.py:36-67 | "retry" exactly when reading the data fails; otherwise "success" with the source, or "unknown", and the extracted content |
| Monitor.UnreadableSourceIsUnknown | services/ui/monitor.py:38-42 | an unreadable source is logged as "unknown", and the event is still acknowledged |
| Monitor.BytesDecodeLikeText | services/ui/monitor.py:44-59 | UTF-8 bytes behave exactly like the text they encode |
| Monitor.TextLikeDict | services/ui/monitor.py:51-61 | text encoding a dict gives the same content as the dict |
| Monitor.MonitorsAgree | services/ui/monitor.py:55-61 | the console and web monitors pick the same content when `content` is present and non-null, or when none of the three keys is present |
| Monitor.MonitorsDisagree | services/ui/monitor.py:55-61 | they differ on a null `content` (console null, web never null) and on `message` without `content` |

## Left out

- The Dapr runtime: the client's networking, workflow replay, activity retries and concurrency. The store is a map and workflows are sequential step traces.
- The sleep/publish loop of services/workflow/worker.py and the Flask schedule handlers. These are timing and I/O; the event each iteration publishes is `Worker.ScheduleEvent`.
- HTTP, MSAL and Graph calls, `json`/`JSON` codecs, UTF-8 decoding, the clock, `tzlocal`/`zoneinfo` and directory listings. These are parameters, so their own failure modes are whatever the parameter returns.
- Logging, the SSE keep-alive timer, the `/dapr/subscribe` and `/events` endpoints, the static files, and the DOM and EventSource code of app.js.
- pydantic beyond field presence and JSON type. Lax coercion (for example `"5"` for an int), the accumulation of several errors and the exact error texts are not modelled; the first failing field is reported.
- Models.ValidateListInboxRequest: reads `inbox_folder` although the class does not declare it. As written, the activities' attribute access raises `AttributeError`; the model follows the activities' evident intent instead.
- Models.ValidateDownloadRequest: reads `download_folder` although the class does not declare it, for the same reason.
- Text: only ASCII letters change case, and `strip` removes the ASCII and Latin-1 whitespace characters, not every Unicode space.
- Iso8601.ValidateIso8601: `\d` is taken as the ASCII digits, not every Unicode decimal digit.
- Text.ParseInt: Python `int()` also reads non-ASCII decimal digits; the model reads ASCII digits only, and strips the whitespace set named under "Text:".
- Tasker.FormatUtcOffset: the offset is whole seconds, so sub-second offsets are not modelled. `OffsetReadsBack` needs the offset below 100 hours, where the hours take two digits.
- The tasker's `_get_office_timezone` is folded into the offset parameter, and `get_office_timezone` takes the local zone's name as a parameter.
- LlmFactory.SelectProvider: client construction, and the RuntimeErrors it can raise, are outside the model. It returns the chosen provider and its settings.
- WebApp.RenderMarkdown: the Markdown regex chain (code, headings, emphasis, paragraph breaks) is a `rewrite` parameter. Only the empty-input case and the escaping come first.
- WebApp.GroupList: works on the lines after `split('\n')`, and the line regex and its `$1` capture are parameters. The final `join` is left out.
- FileSystem: parent directories are not tracked and paths are not normalised. A path is not assumed to be exclusively a file or a directory.
- OneDrive.ListFolder: the error texts are not Python's exact messages, and an object `value` is tested by whether any key contains "file", not key by key in insertion order (which only decides which key raises).
- Json: numbers are integers only; floats are not modelled.
- OneDrive.ExpiresAt: a float `expires_at` is not representable, so the float comparison of services/onedrive.py:65 is covered for whole seconds only.
- OneDrive.Refresh: a float `expires_in` is not representable, so the truncation `int()` applies to it at services/onedrive.py:92 is not modelled.
- Voice2Action.PollOrchestrator: runs the corrected listing request (see Findings). `Voice2Action.AsWrittenListingFails` shows that the request as written makes the listing step raise on every poll.
- OneDriveInbox.DownloadOneDriveFile: a download that fails mid-stream leaves a truncated file at the destination (services/http_client.py:26-29). The model's `fetch` either yields the whole content or fails before anything is written.
- Idempotency.StepStore: a poll step's effect is stated on the markers. The token writes the activities also make are covered separately by `OneDriveInbox.TokenWriteKeepsMarks` and `Idempotency.StepKeepsSameMarks`.
- No lemma reads back a fractional-second timestamp by example. The general round trip `Iso8601.FormatParse` covers fractions.
- The local archive move `move_file_to_local_archive` is modelled, but activities/archive_recording.py imports a remote archive move that the OneDrive service does not define. The remote archive move is not part of this model.

## Findings

| source | as written | input that shows it | evidently intended | confidence | as-written member | corrected member |
|---|---|---|---|---|---|---|
| workflows/voice2action.py:34-37 | the poll workflow builds `ListInboxRequest(folder_path=folder_path)`, so the request never carries an inbox folder and `list_onedrive_inbox` raises on every poll; the worker's event does name `inbox_folder` | the worker's scheduled event `{"offline_mode": false, "inbox_folder": "Voice", "archive_folder": null, "download_folder": "./.work/voice", "terms_file": null}` | forward the event's `inbox_folder` into the list request, so the listing runs on the configured folder | not executed; high | Voice2Action.AsWrittenListingFails | Voice2Action.ForwardedListingRuns |
