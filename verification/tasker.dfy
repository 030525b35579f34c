/** The facilitator agent's tools (services/intent_orchestrator/agent_tasker.py):
    reading a transcription file's text, and naming the office timezone and
    its current UTC offset. The file system read, `json.loads`, `json.dumps`,
    the local-zone lookup and the clock are parameters. */
module Tasker {
  import opened Base
  import opened Text
  import opened Json
  import opened Iso8601

  const ReadErrorPrefix := "[Error reading transcription: "

  /** `json.load` on a text: `None` when the text is not JSON. */
  type Loads = string -> Option<Json>

  /** `retrieve_transcription`. The file is read once (a read or decoding
      failure is reported in the returned text); JSON content yields its
      `text` entry, a JSON string itself, anything else re-serialised; other
      content is returned verbatim. An empty path yields "". */
  function RetrieveTranscription(
    path: string, read: string -> Result<string>, loads: Loads, dumps: Json -> string): (r: Json)
    ensures path == "" ==> r == JStr("")
    ensures path != "" && read(path).Err? ==> r == JStr(ReadErrorPrefix + read(path).msg + "]")
    ensures path != "" && read(path).Ok? && loads(read(path).value).None? ==> r == JStr(read(path).value)
    ensures path != "" && read(path).Ok? && loads(read(path).value).Some? ==>
      var data := loads(read(path).value).value;
      (data.JObj? && "text" in data.fields ==> r == data.fields["text"]) &&
      (data.JStr? ==> r == data) &&
      (!data.JStr? && !(data.JObj? && "text" in data.fields) ==> r == JStr(dumps(data)))
  {
    if path == "" then JStr("")
    else
      match read(path)
      case Err(e) => JStr(ReadErrorPrefix + e + "]")
      case Ok(content) =>
        match loads(content)
        case None => JStr(content)
        case Some(data) =>
          if data.JObj? && "text" in data.fields then data.fields["text"]
          else if data.JStr? then data
          else JStr(dumps(data))
  }

  /** A transcript written as `{"text": t}` reads back as `t`, and one
      written as plain (non-JSON) text reads back unchanged. */
  lemma TranscriptReadsBack(
    path: string, read: string -> Result<string>, loads: Loads, dumps: Json -> string, t: string)
    requires path != "" && read(path).Ok?
    ensures loads(read(path).value) == Some(JObj(map["text" := JStr(t)])) ==>
      RetrieveTranscription(path, read, loads, dumps) == JStr(t)
    ensures loads(read(path).value).None? ==>
      RetrieveTranscription(path, read, loads, dumps) == JStr(read(path).value)
  {
  }

  /** A failed read is always reported as text, never raised. */
  lemma ReadFailureIsReported(path: string, read: string -> Result<string>, loads: Loads, dumps: Json -> string)
    requires path != "" && read(path).Err?
    ensures RetrieveTranscription(path, read, loads, dumps).JStr?
    ensures StartsWith(RetrieveTranscription(path, read, loads, dumps).s, ReadErrorPrefix)
  {
    var r := RetrieveTranscription(path, read, loads, dumps).s;
    assert r == ReadErrorPrefix + (read(path).msg + "]");
  }

  /** `get_office_timezone`: OFFICE_TIMEZONE verbatim when set and non-empty,
      else the local zone's name (`localZone`, `None` when the lookup
      fails), else "UTC". */
  function GetOfficeTimezone(env: Env, localZone: Option<string>): (r: string)
    ensures Truthy(GetEnv(env, "OFFICE_TIMEZONE")) ==> r == env["OFFICE_TIMEZONE"]
    ensures !Truthy(GetEnv(env, "OFFICE_TIMEZONE")) && localZone.Some? ==> r == localZone.value
    ensures !Truthy(GetEnv(env, "OFFICE_TIMEZONE")) && localZone.None? ==> r == "UTC"
  {
    var tz := GetEnv(env, "OFFICE_TIMEZONE");
    if Truthy(tz) then tz.value else localZone.GetOr("UTC")
  }

  /** `get_office_timezone_offset` given the zone's current UTC offset in
      whole seconds (`None` for a naive zone): "Z" for none or zero, else the
      sign, then hours and minutes of the magnitude, each padded to two
      digits; leftover seconds are dropped. */
  function FormatUtcOffset(offset: Option<int>): (r: string)
    ensures offset.None? || offset.value == 0 <==> r == "Z"
    ensures offset.Some? && offset.value != 0 ==>
      var a := Abs(offset.value);
      |r| >= 6 && r[0] == (if offset.value >= 0 then '+' else '-') &&
      StartsWith(r[1..], Pad(a / 3600, 2)) && EndsWith(r, ":" + Pad(a % 3600 / 60, 2))
  {
    if offset.None? || offset.value == 0 then "Z"
    else
      var sign := if offset.value >= 0 then "+" else "-";
      var a := Abs(offset.value);
      var hours, minutes := a / 3600, a % 3600 / 60;
      var r := sign + Pad(hours, 2) + ":" + Pad(minutes, 2);
      assert r[1..] == Pad(hours, 2) + (":" + Pad(minutes, 2));
      assert r == sign + Pad(hours, 2) + (":" + Pad(minutes, 2));
      r
  }

  function Abs(n: int): nat {
    if n < 0 then -n else n
  }

  /** The zone an offset of `s` seconds denotes, truncated to whole minutes. */
  function OffsetZone(s: int): Zone {
    if s == 0 then Utc else Offset(s < 0, Abs(s) / 3600, Abs(s) % 3600 / 60)
  }

  /** Below 100 hours the offset text is an ISO 8601 zone designator, and it
      reads back as the offset truncated to whole minutes: hours and minutes
      cover the magnitude with less than a minute left over. */
  lemma OffsetReadsBack(s: int)
    requires Abs(s) < 100 * 3600
    ensures FormatUtcOffset(Some(s)) == FormatZone(OffsetZone(s))
    ensures FormatUtcOffset(Some(s)) == "Z" || IsOffset(FormatUtcOffset(Some(s)))
    ensures ParseZone(FormatUtcOffset(Some(s))) == OffsetZone(s)
    ensures OffsetZone(s).Offset? ==>
      var z := OffsetZone(s);
      z.minutes < 60 && 3600 * z.hours + 60 * z.minutes <= Abs(s) < 3600 * z.hours + 60 * z.minutes + 60
  {
    ZoneRoundTrip(OffsetZone(s));
  }

  /** Any stamp carrying the current offset is a datetime the task tools
      accept. */
  lemma OffsetStampAccepted(t: Stamp, s: int)
    requires WellFormed(t) && Abs(s) < 100 * 3600
    ensures IsIso8601(Format(t.(zone := OffsetZone(s))))
  {
    FormatAccepted(t.(zone := OffsetZone(s)));
  }

  lemma OffsetExamples()
    ensures FormatUtcOffset(Some(7200)) == "+02:00"
    ensures FormatUtcOffset(Some(-19800)) == "-05:30"
    ensures FormatUtcOffset(Some(0)) == "Z" && FormatUtcOffset(None) == "Z"
  {
    assert NatToString(2) == "2" && NatToString(0) == "0" && NatToString(5) == "5";
    assert NatToString(30) == NatToString(3) + "0";
  }
}
