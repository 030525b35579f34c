/** The office-automation agent's two tools
    (services/intent_orchestrator/agent_office_automation.py): each composes an
    HTML page from its optional fields, writes it under `.work/` and returns a
    constant acknowledgement. The agent's own `CreateTaskArgs` differs from
    models/agents.py in one place: `notes` is declared `str` with a `None`
    default, so an absent notes field is `None` but an explicit null is a
    validation error. Its `_validate_iso8601` is the same check as
    `Iso8601.ValidateIso8601`, and its `SendEmailArgs` is the same record as
    `Agents.SendEmailArgs`. */
module OfficeAutomation {
  import opened Base
  import opened Text
  import opened Json
  import opened FileSystem
  import opened Models
  import opened Iso8601
  import opened Agents

  const WorkDir := ".work"
  const EmailPath := ".work/email.html"
  const TaskPath := ".work/task.html"
  const EmailSent := "Email sent"
  const TaskCreated := "Task created"
  const NoBody := "(no email body provided)"

  // ---- argument validation ----------------------------------------------

  /** `notes: str = Field(default=None)`: the default is not validated, an
      explicit value must be a string. */
  function NotesField(fields: map<string, Json>): (r: Result<Option<string>>)
    ensures r == Ok(None) <==> "notes" !in fields
    ensures r.Ok? && r.value.Some? ==> fields["notes"] == JStr(r.value.value)
    ensures r.Err? <==> "notes" in fields && !fields["notes"].JStr?
  {
    if "notes" !in fields then Ok(None)
    else if fields["notes"].JStr? then Ok(Some(fields["notes"].s))
    else Err(NotAString("notes"))
  }

  function ValidateTaskArgs(v: Json): (r: Result<CreateTaskArgs>)
    ensures r.Ok? ==> v.JObj? && "title" in v.fields && v.fields["title"] == JStr(r.value.title) && DatesAccepted(r.value)
    ensures r.Ok? ==> NotesField(v.fields) == Ok(r.value.notes)
    ensures v.JObj? && "title" !in v.fields ==> r.Err?
  {
    if !v.JObj? then Err("CreateTaskArgs: Input should be a valid dictionary")
    else TaskFields(v.fields, NotesField(v.fields))
  }

  /** The two task-argument records agree on every input except an explicit
      null notes field, which only the shared record accepts. */
  lemma TaskArgsAgreeExceptNullNotes(v: Json)
    requires !(v.JObj? && "notes" in v.fields && v.fields["notes"].JNull?)
    ensures ValidateTaskArgs(v) == ValidateCreateTaskArgs(v)
  {
    if v.JObj? {
      assert NotesField(v.fields) == OptStr(v.fields, "notes");
    }
  }

  lemma NullNotesRejectedHere(t: string)
    ensures ValidateTaskArgs(JObj(map["title" := JStr(t), "notes" := JNull])).Err?
    ensures ValidateCreateTaskArgs(JObj(map["title" := JStr(t), "notes" := JNull])).Ok?
  {
  }

  /** A record validates back to itself here exactly when its datetimes are
      accepted and it has notes: `None` notes dump as null. */
  lemma TaskArgsRoundTrip(a: CreateTaskArgs)
    ensures ValidateTaskArgs(DumpCreateTaskArgs(a)) == Ok(a) <==> DatesAccepted(a) && a.notes.Some?
  {
  }

  // ---- send_email -------------------------------------------------------

  const EmailOpen := "\n    <html>\n    <body>\n        "
  const SubjectOpen := "<div><b>Subject:</b> "
  const EmailClose := "</p>\n    </body>\n    </html>\n    "

  /** `body or "(no email body provided)"`. */
  function EmailText(body: Option<string>): (t: string)
    ensures t != ""
    ensures Truthy(body) ==> t == body.value
    ensures !Truthy(body) ==> t == NoBody
  {
    OrElse(body, NoBody)
  }

  function SubjectHeader(subject: Option<string>): (h: string)
    ensures Truthy(subject) ==> StartsWith(h, SubjectOpen) && h == SubjectOpen + subject.value + "</div>"
    ensures !Truthy(subject) ==> h == ""
  {
    if Truthy(subject) then
      var h := SubjectOpen + subject.value + "</div>";
      assert h[..|SubjectOpen|] == SubjectOpen;
      h
    else ""
  }

  /** The body paragraph that closes the page. */
  function Paragraph(body: Option<string>): string {
    "<p>" + EmailText(body) + EmailClose
  }

  /** The page `send_email` writes. */
  function EmailHtml(subject: Option<string>, body: Option<string>): string {
    EmailOpen + SubjectHeader(subject) + ("\n        " + Paragraph(body))
  }

  /** The subject header opens the page exactly when the subject is truthy. */
  lemma EmailHeaderIffSubject(subject: Option<string>, body: Option<string>)
    ensures StartsWith(EmailHtml(subject, body), EmailOpen + SubjectOpen) <==> Truthy(subject)
  {
    var rest := "\n        " + Paragraph(body);
    assert rest[0] == '\n';
    SlotOpens(EmailOpen, SubjectHeader(subject), rest, SubjectOpen);
  }

  /** A truthy subject is shown in its header, and the page ends with the
      body (or the placeholder) as its paragraph. */
  lemma EmailShowsFields(subject: Option<string>, body: Option<string>)
    ensures Truthy(subject) ==> Contains(EmailHtml(subject, body), SubjectOpen + subject.value + "</div>")
    ensures EndsWith(EmailHtml(subject, body), "<p>" + EmailText(body) + EmailClose)
  {
    ContainsInfix(EmailOpen, SubjectHeader(subject), "\n        " + Paragraph(body));
    EndsWithNested(EmailOpen + SubjectHeader(subject), "\n        ", Paragraph(body));
  }

  /** An empty subject or body is treated like a missing one. */
  lemma EmailFalsyInterchangeable(subject: Option<string>, body: Option<string>)
    ensures EmailHtml(Some(""), body) == EmailHtml(None, body)
    ensures EmailHtml(subject, Some("")) == EmailHtml(subject, None)
  {
  }

  /** `send_email`: create `.work`, write the page, acknowledge. */
  function SendEmail(fs: Fs, subject: Option<string>, body: Option<string>): (r: Result<(Fs, string)>)
    ensures r.Ok? <==> WorkDir !in fs.files && EmailPath !in fs.dirs
    ensures r.Ok? ==> r.value.1 == EmailSent
    ensures r.Ok? ==> r.value.0.files == fs.files[EmailPath := EmailHtml(subject, body)]
    ensures r.Ok? ==> r.value.0.dirs == fs.dirs + {WorkDir}
  {
    var withDir :- MakeDirs(fs, WorkDir);
    var written :- WriteFile(withDir, EmailPath, EmailHtml(subject, body));
    Ok((written, EmailSent))
  }

  // ---- create_task ------------------------------------------------------

  const TaskOpen := "\n    <html>\n    <body>\n        <h3>"
  const TaskClose := "\n    </body>\n    </html>\n    "

  function LineOpen(caption: string): string {
    "<div><b>" + caption + ":</b> "
  }

  /** One optional line of the task page: present only for a truthy value. */
  function Line(caption: string, v: Option<string>): (r: string)
    ensures Truthy(v) ==> StartsWith(r, LineOpen(caption)) && EndsWith(r, v.value + "</div>")
    ensures !Truthy(v) ==> r == ""
  {
    if Truthy(v) then LineOpen(caption) + v.value + "</div>" else ""
  }

  /** Everything before the due-date line. */
  function TaskHead(title: string): string {
    TaskOpen + title + "</h3>\n        "
  }

  /** Where the due, reminder and notes lines start. */
  function DueAt(title: string): nat {
    |TaskHead(title)|
  }

  function ReminderAt(title: string, due: Option<string>): nat {
    DueAt(title) + |Line("Due", due)| + 5
  }

  function NotesAt(title: string, due: Option<string>, reminder: Option<string>): nat {
    ReminderAt(title, due) + |Line("Reminder", reminder)| + 9
  }

  /** The page `create_task` writes. */
  function TaskHtml(title: string, due: Option<string>, reminder: Option<string>, notes: Option<string>): string {
    TaskHead(title) + Line("Due", due) + "\n    " + Line("Reminder", reminder) + "\n        " + Line("Notes", notes) +
    TaskClose
  }

  /** The task page's layout, stated over its pieces. */
  lemma Layout(head: string, l1: string, l2: string, l3: string, r: string)
    requires r == head + l1 + "\n    " + l2 + "\n        " + l3 + TaskClose
    ensures r == head + l1 + ("\n    " + l2 + "\n        " + l3 + TaskClose)
    ensures r == (head + l1 + "\n    ") + l2 + ("\n        " + l3 + TaskClose)
    ensures r == (head + l1 + "\n    " + l2 + "\n        ") + l3 + TaskClose
  {
  }

  /** The three optional slots of a page `head + l1 + s1 + l2 + s2 + l3 +
      close`, each empty or opening with its own tag `p` and followed by
      text that does not: each slot's position opens with its tag exactly
      when the slot is filled. */
  lemma FirstSlot(head: string, l1: string, s1: string, l2: string, s2: string, l3: string, close: string, p: string)
    requires |p| > 0 && |s1| > 0 && s1[0] != p[0] && (l1 == "" || StartsWith(l1, p))
    ensures var r := head + l1 + s1 + l2 + s2 + l3 + close;
      StartsWith(r, head) && (StartsWith(r[|head|..], p) <==> l1 != "")
  {
    var r := head + l1 + s1 + l2 + s2 + l3 + close;
    assert r == head + l1 + (s1 + l2 + s2 + l3 + close);
    SlotOpens(head, l1, s1 + l2 + s2 + l3 + close, p);
    assert r[..|head|] == head;
  }

  lemma SecondSlot(head: string, l1: string, s1: string, l2: string, s2: string, l3: string, close: string, p: string)
    requires |p| > 0 && |s2| > 0 && s2[0] != p[0] && (l2 == "" || StartsWith(l2, p))
    ensures var r := head + l1 + s1 + l2 + s2 + l3 + close;
      |head + l1 + s1| <= |r| && (StartsWith(r[|head + l1 + s1|..], p) <==> l2 != "")
  {
    var a := head + l1 + s1;
    assert head + l1 + s1 + l2 + s2 + l3 + close == a + l2 + (s2 + l3 + close);
    SlotOpens(a, l2, s2 + l3 + close, p);
  }

  lemma ThirdSlot(head: string, l1: string, s1: string, l2: string, s2: string, l3: string, close: string, p: string)
    requires |p| > 0 && |close| > 0 && close[0] != p[0] && (l3 == "" || StartsWith(l3, p))
    ensures var r := head + l1 + s1 + l2 + s2 + l3 + close;
      |head + l1 + s1 + l2 + s2| <= |r| && (StartsWith(r[|head + l1 + s1 + l2 + s2|..], p) <==> l3 != "")
  {
    SlotOpens(head + l1 + s1 + l2 + s2, l3, close, p);
  }

  /** Each optional line's slot holds that line exactly when its value is
      truthy. */
  lemma TaskLineSlots(title: string, due: Option<string>, reminder: Option<string>, notes: Option<string>)
    ensures StartsWith(TaskHtml(title, due, reminder, notes), TaskHead(title))
    ensures NotesAt(title, due, reminder) <= |TaskHtml(title, due, reminder, notes)|
    ensures StartsWith(TaskHtml(title, due, reminder, notes)[DueAt(title)..], LineOpen("Due")) <==> Truthy(due)
    ensures StartsWith(TaskHtml(title, due, reminder, notes)[ReminderAt(title, due)..], LineOpen("Reminder")) <==>
      Truthy(reminder)
    ensures StartsWith(TaskHtml(title, due, reminder, notes)[NotesAt(title, due, reminder)..], LineOpen("Notes")) <==>
      Truthy(notes)
  {
    var head, s1, s2 := TaskHead(title), "\n    ", "\n        ";
    var l1, l2, l3 := Line("Due", due), Line("Reminder", reminder), Line("Notes", notes);
    LineFilled("Due", due);
    LineFilled("Reminder", reminder);
    LineFilled("Notes", notes);
    assert s1[0] == '\n' && s2[0] == '\n' && TaskClose[0] == '\n';
    FirstSlot(head, l1, s1, l2, s2, l3, TaskClose, LineOpen("Due"));
    SecondSlot(head, l1, s1, l2, s2, l3, TaskClose, LineOpen("Reminder"));
    ThirdSlot(head, l1, s1, l2, s2, l3, TaskClose, LineOpen("Notes"));
    assert DueAt(title) == |head|;
    assert ReminderAt(title, due) == |head + l1 + s1|;
    assert NotesAt(title, due, reminder) == |head + l1 + s1 + l2 + s2|;
  }

  /** A line is written exactly for a truthy value, and then opens with
      its caption's tag. */
  lemma LineFilled(caption: string, v: Option<string>)
    ensures Line(caption, v) != "" <==> Truthy(v)
    ensures Line(caption, v) == "" || StartsWith(Line(caption, v), LineOpen(caption))
    ensures |LineOpen(caption)| > 0 && LineOpen(caption)[0] == '<'
  {
  }

  /** Every truthy field's line is on the page. */
  lemma TaskShowsFields(title: string, due: Option<string>, reminder: Option<string>, notes: Option<string>)
    ensures Truthy(due) ==> Contains(TaskHtml(title, due, reminder, notes), LineOpen("Due") + due.value + "</div>")
    ensures Truthy(reminder) ==>
      Contains(TaskHtml(title, due, reminder, notes), LineOpen("Reminder") + reminder.value + "</div>")
    ensures Truthy(notes) ==> Contains(TaskHtml(title, due, reminder, notes), LineOpen("Notes") + notes.value + "</div>")
  {
    var head := TaskHead(title);
    var l1, l2, l3 := Line("Due", due), Line("Reminder", reminder), Line("Notes", notes);
    var a2 := head + l1 + "\n    ";
    var a3 := a2 + l2 + "\n        ";
    var r := TaskHtml(title, due, reminder, notes);
    Layout(head, l1, l2, l3, r);
    ContainsInfix(head, l1, "\n    " + l2 + "\n        " + l3 + TaskClose);
    ContainsInfix(a2, l2, "\n        " + l3 + TaskClose);
    ContainsInfix(a3, l3, TaskClose);
  }

  /** Empty and missing optional fields give the same page. */
  lemma TaskFalsyInterchangeable(title: string, due: Option<string>, reminder: Option<string>, notes: Option<string>)
    ensures TaskHtml(title, Some(""), reminder, notes) == TaskHtml(title, None, reminder, notes)
    ensures TaskHtml(title, due, Some(""), notes) == TaskHtml(title, due, None, notes)
    ensures TaskHtml(title, due, reminder, Some("")) == TaskHtml(title, due, reminder, None)
  {
  }

  /** `create_task`: create `.work`, write the page, acknowledge. */
  function CreateTask(fs: Fs, a: CreateTaskArgs): (r: Result<(Fs, string)>)
    ensures r.Ok? <==> WorkDir !in fs.files && TaskPath !in fs.dirs
    ensures r.Ok? ==> r.value.1 == TaskCreated
    ensures r.Ok? ==> r.value.0.files == fs.files[TaskPath := TaskHtml(a.title, a.dueDate, a.reminder, a.notes)]
    ensures r.Ok? ==> r.value.0.dirs == fs.dirs + {WorkDir}
  {
    var withDir :- MakeDirs(fs, WorkDir);
    var written :- WriteFile(withDir, TaskPath, TaskHtml(a.title, a.dueDate, a.reminder, a.notes));
    Ok((written, TaskCreated))
  }

  /** The tool as the agent calls it: arguments are validated first, so a
      rejected datetime writes nothing. */
  function CreateTaskTool(fs: Fs, v: Json): (r: Result<(Fs, string)>)
    ensures ValidateTaskArgs(v).Err? ==> r.Err?
    ensures ValidateTaskArgs(v).Ok? ==> r == CreateTask(fs, ValidateTaskArgs(v).value)
  {
    var a :- ValidateTaskArgs(v);
    CreateTask(fs, a)
  }

  function SendEmailTool(fs: Fs, v: Json): (r: Result<(Fs, string)>)
    ensures ValidateSendEmailArgs(v).Err? ==> r.Err?
    ensures ValidateSendEmailArgs(v).Ok? ==>
      r == SendEmail(fs, Some(ValidateSendEmailArgs(v).value.subject), Some(ValidateSendEmailArgs(v).value.body))
  {
    var a :- ValidateSendEmailArgs(v);
    SendEmail(fs, Some(a.subject), Some(a.body))
  }
}
