/** The console monitor's `beacon_channel` subscriber
    (services/ui/monitor.py): it reads a CloudEvent's source and data, picks
    the content to log, and answers "success", or "retry" when reading the
    event fails. UTF-8 decoding and `json.loads` are parameters; the log
    line itself is left out. */
module Monitor {
  import opened Base
  import opened Json
  import WebServer

  /** What `event.Data()` can hold: raw bytes or an already decoded value
      (text is `Value(JStr(..))`). */
  datatype Raw = Bytes(data: seq<bv8>) | Value(v: Json)

  datatype Outcome = Success(source: string, content: Raw) | Retry

  /** `bytes.decode("utf-8")`: `None` when the bytes are not valid UTF-8. */
  type Decode = seq<bv8> -> Option<string>

  /** `json.loads`: `None` when the text is not JSON. */
  type Loads = string -> Option<Json>

  /** The data after the decoding step: bytes that decode become text,
      bytes that do not are kept as bytes. */
  function Decoded(raw: Raw, decode: Decode): (r: Raw)
    ensures raw.Bytes? && decode(raw.data).Some? ==> r == Value(JStr(decode(raw.data).value))
    ensures raw.Bytes? && decode(raw.data).None? ==> r == raw
    ensures raw.Value? ==> r == raw
  {
    match raw
    case Bytes(b) => if decode(b).Some? then Value(JStr(decode(b).value)) else raw
    case Value(_) => raw
  }

  /** `d.get("content", d)` on a dict. */
  function ContentOrSelf(fields: map<string, Json>): (r: Json)
    ensures "content" in fields ==> r == fields["content"]
    ensures "content" !in fields ==> r == JObj(fields)
  {
    if "content" in fields then fields["content"] else JObj(fields)
  }

  /** The content logged for (decoded) data: text is parsed, and a parsed
      dict contributes its `content` entry when it has one; text that is not
      JSON stays as it is; a dict contributes its `content` entry or itself;
      anything else (undecodable bytes, lists, numbers, null) is logged as
      it is. */
  function ContentOf(raw: Raw, loads: Loads): (r: Raw)
    ensures raw.Value? && raw.v.JStr? && loads(raw.v.s).None? ==> r == raw
    ensures raw.Value? && raw.v.JStr? && loads(raw.v.s).Some? && loads(raw.v.s).value.JObj? ==>
      r == Value(ContentOrSelf(loads(raw.v.s).value.fields))
    ensures raw.Value? && raw.v.JStr? && loads(raw.v.s).Some? && !loads(raw.v.s).value.JObj? ==>
      r == Value(loads(raw.v.s).value)
    ensures raw.Value? && raw.v.JObj? ==> r == Value(ContentOrSelf(raw.v.fields))
    ensures raw.Bytes? || !(raw.v.JStr? || raw.v.JObj?) ==> r == raw
  {
    match raw
    case Value(JStr(s)) =>
      (match loads(s)
       case None => raw
       case Some(JObj(f)) => Value(ContentOrSelf(f))
       case Some(data) => Value(data))
    case Value(JObj(f)) => Value(ContentOrSelf(f))
    case _ => raw
  }

  /** `on_beacon_channel` given what `event.Source()` and `event.Data()`
      return (`Err` when they raise). */
  function OnBeaconChannel(source: Result<string>, data: Result<Raw>, decode: Decode, loads: Loads): (r: Outcome)
    ensures r.Retry? <==> data.Err?
    ensures r.Success? ==> r.source == (if source.Ok? then source.value else "unknown")
    ensures r.Success? ==> r.content == ContentOf(Decoded(data.value, decode), loads)
  {
    match data
    case Err(_) => Retry
    case Ok(raw) =>
      var s := if source.Ok? then source.value else "unknown";
      Success(s, ContentOf(Decoded(raw, decode), loads))
  }

  /** A source that cannot be read is logged as "unknown"; the event is
      still acknowledged. */
  lemma UnreadableSourceIsUnknown(msg: string, raw: Raw, decode: Decode, loads: Loads)
    ensures OnBeaconChannel(Err(msg), Ok(raw), decode, loads).Success?
    ensures OnBeaconChannel(Err(msg), Ok(raw), decode, loads).source == "unknown"
  {
  }

  /** UTF-8 bytes are treated exactly like the text they encode, and bytes
      that do not decode are logged as the bytes themselves. */
  lemma BytesDecodeLikeText(b: seq<bv8>, decode: Decode, loads: Loads)
    ensures decode(b).Some? ==>
      ContentOf(Decoded(Bytes(b), decode), loads) == ContentOf(Value(JStr(decode(b).value)), loads)
    ensures decode(b).None? ==> ContentOf(Decoded(Bytes(b), decode), loads) == Bytes(b)
  {
  }

  /** Text that encodes a dict gives the same content as the dict itself. */
  lemma TextLikeDict(s: string, loads: Loads)
    requires loads(s).Some? && loads(s).value.JObj?
    ensures ContentOf(Value(JStr(s)), loads) == ContentOf(Value(loads(s).value), loads)
  {
  }

  /** The console monitor and the web monitor pick the same content for a
      dict whose `content` entry is present and not null, and for a dict
      with none of `content`, `message` or `text`. */
  lemma MonitorsAgree(f: map<string, Json>, loads: Loads, parse: WebServer.Parse)
    requires ("content" in f && !f["content"].JNull?) ||
      ("content" !in f && "message" !in f && "text" !in f)
    ensures ContentOf(Value(JObj(f)), loads) == Value(WebServer.Content(WebServer.ParsedData(Some(JObj(f)), parse)))
  {
    WebServer.ObjectContent(f);
  }

  /** The two monitors disagree on a null `content` entry: the console logs
      null while the web monitor falls through to `message`, `text` or the
      object; and on `message`/`text` without `content`, which only the web
      monitor picks out. */
  lemma MonitorsDisagree(f: map<string, Json>, parse: WebServer.Parse, loads: Loads)
    ensures "content" in f && f["content"].JNull? ==>
      ContentOf(Value(JObj(f)), loads) == Value(JNull) &&
      WebServer.Content(WebServer.ParsedData(Some(JObj(f)), parse)) != JNull
    ensures "content" !in f && "message" in f && !f["message"].JNull? ==>
      ContentOf(Value(JObj(f)), loads) == Value(JObj(f)) &&
      WebServer.Content(WebServer.ParsedData(Some(JObj(f)), parse)) == f["message"]
  {
    WebServer.ObjectContent(f);
    if "content" in f && f["content"].JNull? {
      WebServer.ObjectContentNeverNull(f);
    }
  }
}
