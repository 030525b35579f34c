/** The tool-argument records of models/agents.py and their validation.
    `title`, `subject`, `body` and `transcription_path` are required strings;
    `due_date`, `reminder` and `notes` are optional and default to `None`; the
    two datetime fields pass through `Iso8601.ValidateIso8601`. The first
    failing field is reported. */
module Agents {
  import opened Base
  import opened Json
  import opened Models
  import opened Iso8601

  datatype SendEmailArgs = SendEmailArgs(subject: string, body: string)

  datatype CreateTaskArgs = CreateTaskArgs(
    title: string, dueDate: Option<string>, reminder: Option<string>, notes: Option<string>)

  datatype RetrieveTranscriptionArgs = RetrieveTranscriptionArgs(transcriptionPath: string)

  /** An optional field followed by the datetime check; pydantic runs the
      field validator after the type check. */
  function OptIso(fields: map<string, Json>, key: string): (r: Result<Option<string>>)
    ensures r.Ok? <==> OptStr(fields, key).Ok? && ValidateIso8601(OptStr(fields, key).value).Ok?
    ensures r.Ok? ==> r == OptStr(fields, key)
  {
    var v :- OptStr(fields, key);
    match ValidateIso8601(v)
    case Ok(w) => Ok(w)
    case Err(m) => Err(key + ": Value error, " + m)
  }

  /** The datetime fields of a record are absent or accepted. */
  predicate DatesAccepted(a: CreateTaskArgs) {
    (a.dueDate.Some? ==> IsIso8601(a.dueDate.value)) && (a.reminder.Some? ==> IsIso8601(a.reminder.value))
  }

  function ValidateSendEmailArgs(v: Json): (r: Result<SendEmailArgs>)
    ensures r.Ok? <==> v.JObj? && ReqStr(v.fields, "subject").Ok? && ReqStr(v.fields, "body").Ok?
    ensures r.Ok? ==> v.fields["subject"] == JStr(r.value.subject) && v.fields["body"] == JStr(r.value.body)
  {
    if !v.JObj? then Err("SendEmailArgs: Input should be a valid dictionary")
    else
      var subject :- ReqStr(v.fields, "subject");
      var body :- ReqStr(v.fields, "body");
      Ok(SendEmailArgs(subject, body))
  }

  /** The fields of a task record in declaration order, given how its
      `notes` field reads (the two task records differ only there). */
  function TaskFields(fields: map<string, Json>, notes: Result<Option<string>>): (r: Result<CreateTaskArgs>)
    ensures r.Ok? ==> "title" in fields && fields["title"] == JStr(r.value.title) && DatesAccepted(r.value)
    ensures r.Ok? ==> notes == Ok(r.value.notes)
    ensures r.Ok? ==> OptStr(fields, "due_date") == Ok(r.value.dueDate)
    ensures r.Ok? ==> OptStr(fields, "reminder") == Ok(r.value.reminder)
    ensures "title" !in fields || notes.Err? ==> r.Err?
  {
    var title :- ReqStr(fields, "title");
    var due :- OptIso(fields, "due_date");
    var reminder :- OptIso(fields, "reminder");
    var n :- notes;
    Ok(CreateTaskArgs(title, due, reminder, n))
  }

  function ValidateCreateTaskArgs(v: Json): (r: Result<CreateTaskArgs>)
    ensures r.Ok? ==> v.JObj? && "title" in v.fields && v.fields["title"] == JStr(r.value.title) && DatesAccepted(r.value)
    ensures r.Ok? ==> OptStr(v.fields, "notes") == Ok(r.value.notes)
    ensures r.Ok? ==> OptStr(v.fields, "due_date") == Ok(r.value.dueDate)
    ensures r.Ok? ==> OptStr(v.fields, "reminder") == Ok(r.value.reminder)
    ensures v.JObj? && "title" !in v.fields ==> r.Err?
  {
    if !v.JObj? then Err("CreateTaskArgs: Input should be a valid dictionary")
    else TaskFields(v.fields, OptStr(v.fields, "notes"))
  }

  function ValidateRetrieveTranscriptionArgs(v: Json): (r: Result<RetrieveTranscriptionArgs>)
    ensures r.Ok? <==> v.JObj? && ReqStr(v.fields, "transcription_path").Ok?
    ensures r.Ok? ==> v.fields["transcription_path"] == JStr(r.value.transcriptionPath)
  {
    if !v.JObj? then Err("RetrieveTranscriptionArgs: Input should be a valid dictionary")
    else
      var path :- ReqStr(v.fields, "transcription_path");
      Ok(RetrieveTranscriptionArgs(path))
  }

  /** `model_dump()`: every field, `None` as null. */
  function DumpCreateTaskArgs(a: CreateTaskArgs): (r: Json)
    ensures r.JObj? && r.fields.Keys == {"title", "due_date", "reminder", "notes"}
  {
    JObj(map["title" := JStr(a.title), "due_date" := DumpOptStr(a.dueDate),
             "reminder" := DumpOptStr(a.reminder), "notes" := DumpOptStr(a.notes)])
  }

  function DumpSendEmailArgs(a: SendEmailArgs): Json {
    JObj(map["subject" := JStr(a.subject), "body" := JStr(a.body)])
  }

  lemma SendEmailRoundTrip(a: SendEmailArgs)
    ensures ValidateSendEmailArgs(DumpSendEmailArgs(a)) == Ok(a)
  {
  }

  /** A dumped record validates back to itself exactly when its datetimes
      are accepted. */
  lemma CreateTaskRoundTrip(a: CreateTaskArgs)
    ensures ValidateCreateTaskArgs(DumpCreateTaskArgs(a)) == Ok(a) <==> DatesAccepted(a)
    ensures ValidateCreateTaskArgs(DumpCreateTaskArgs(a)).Err? <==> !DatesAccepted(a)
  {
  }

  /** Only `title` is required: a record with just a title has every other
      field `None`. */
  lemma TitleOnly(t: string)
    ensures ValidateCreateTaskArgs(JObj(map["title" := JStr(t)])) == Ok(CreateTaskArgs(t, None, None, None))
  {
  }

  /** An explicit null notes field is accepted as `None`. */
  lemma NullNotesAccepted(t: string)
    ensures ValidateCreateTaskArgs(JObj(map["title" := JStr(t), "notes" := JNull])) ==
      Ok(CreateTaskArgs(t, None, None, None))
  {
  }

  /** A due date without a zone designator is rejected. */
  lemma ZonelessDueDateRejected(t: string)
    ensures ValidateCreateTaskArgs(JObj(map["title" := JStr(t), "due_date" := JStr("2025-08-16T14:30:00")])).Err?
  {
    MissingZoneRejected();
  }
}
