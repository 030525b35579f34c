/** The web monitor's pub/sub endpoint (services/ui/web_monitor/server.js):
    a CloudEvent posted to `/beacon_channel` is normalised to a
    `{time, source, content}` event and written to every connected
    server-sent-events client; clients whose write throws are dropped. The
    clock, `JSON.parse`, `JSON.stringify` and the client sockets are
    parameters. */
module WebServer {
  import opened Base
  import opened Json
  import opened Seqs

  /** `JSON.parse`: `None` when the text is not JSON (the call throws). */
  type Parse = string -> Option<Json>

  datatype Event = Event(time: Json, source: Json, content: Json)

  datatype Response = Response(status: int, event: Event)

  /** The keys tried, in order, for the content of object data. */
  const ContentKeys: seq<string> := ["content", "message", "text"]

  /** The CloudEvent's own properties: `req.body || {}`. The JSON body
      parser yields an object or an array; an array (or no body) has none of
      the properties read below. */
  function EnvelopeFields(body: Option<Json>): map<string, Json> {
    if body.Some? && body.value.JObj? then body.value.fields else map[]
  }

  /** `x || fallback` on a property that may be missing. */
  function OrDefault(v: Option<Json>, fallback: Json): (r: Json)
    ensures v.Some? && JsTruthy(v.value) ==> r == v.value
    ensures !(v.Some? && JsTruthy(v.value)) ==> r == fallback
  {
    if v.Some? && JsTruthy(v.value) then v.value else fallback
  }

  /** `a ?? b`. */
  function Coalesce(a: Option<Json>, b: Json): (r: Json)
    ensures !Nullish(a) ==> r == a.value
    ensures Nullish(a) ==> r == b
  {
    if Nullish(a) then b else a.value
  }

  /** The data after the string step: a string is replaced by its parse
      when it is JSON, and kept otherwise; other values are untouched. */
  function ParsedData(data: Option<Json>, parse: Parse): (r: Option<Json>)
    ensures data.Some? && data.value.JStr? && parse(data.value.s).Some? ==> r == parse(data.value.s)
    ensures !(data.Some? && data.value.JStr? && parse(data.value.s).Some?) ==> r == data
  {
    match data
    case Some(JStr(s)) => if parse(s).Some? then parse(s) else data
    case _ => data
  }

  /** The content chosen for (already parsed) data: for a truthy object
      `data.content ?? data.message ?? data.text ?? data` (an array has none
      of those properties, so it is its own content), a string itself, and
      `{}` for anything else. */
  function Content(data: Option<Json>): (r: Json)
    ensures data.Some? && data.value.JObj? ==> r == FirstPresent(data.value.fields, ContentKeys, data.value)
    ensures data.Some? && data.value.JArr? ==> r == data.value
    ensures data.Some? && data.value.JStr? ==> r == data.value
    ensures data.None? || !(data.value.JObj? || data.value.JArr? || data.value.JStr?) ==> r == JObj(map[])
  {
    match data
    case Some(JObj(f)) =>
      var c := Coalesce(Field(f, "content"), Coalesce(Field(f, "message"), Coalesce(Field(f, "text"), data.value)));
      CoalesceChain(f, data.value);
      c
    case Some(JArr(_)) => data.value
    case Some(JStr(_)) => data.value
    case _ => JObj(map[])
  }

  /** The reference reading of a `??` chain over properties: the first key
      whose value is neither missing nor null, else the fallback. */
  function FirstPresent(fields: map<string, Json>, keys: seq<string>, fallback: Json): Json {
    if keys == [] then fallback
    else if !Nullish(Field(fields, keys[0])) then fields[keys[0]]
    else FirstPresent(fields, keys[1..], fallback)
  }

  lemma CoalesceChain(f: map<string, Json>, fallback: Json)
    ensures Coalesce(Field(f, "content"), Coalesce(Field(f, "message"), Coalesce(Field(f, "text"), fallback))) ==
      FirstPresent(f, ContentKeys, fallback)
  {
    var k := ContentKeys;
    assert k[0] == "content" && k[1..][0] == "message" && k[1..][1..][0] == "text" && k[1..][1..][1..] == [];
    assert FirstPresent(f, k[1..][1..], fallback) == Coalesce(Field(f, "text"), fallback);
    assert FirstPresent(f, k[1..], fallback) ==
      Coalesce(Field(f, "message"), Coalesce(Field(f, "text"), fallback));
  }

  /** The `/beacon_channel` handler given the body Express parsed and the
      current time as an ISO string. Every event is answered 200. */
  function Handle(body: Option<Json>, now: string, parse: Parse): (r: Response)
    ensures r.status == 200
    ensures var ce := EnvelopeFields(body);
      r.event.time == OrDefault(Field(ce, "time"), JStr(now)) &&
      r.event.source == OrDefault(Field(ce, "source"), JStr("unknown"))
    ensures r.event.content == Content(ParsedData(Field(EnvelopeFields(body), "data"), parse))
  {
    var ce := EnvelopeFields(body);
    var time := OrDefault(Field(ce, "time"), JStr(now));
    var source := OrDefault(Field(ce, "source"), JStr("unknown"));
    Response(200, Event(time, source, Content(ParsedData(Field(ce, "data"), parse))))
  }

  /** An envelope with neither time nor source (or an empty one) takes the
      current time and the source "unknown". */
  lemma DefaultsApply(body: Option<Json>, now: string, parse: Parse)
    requires !(body.Some? && body.value.JObj? && ("time" in body.value.fields || "source" in body.value.fields))
    ensures Handle(body, now, parse).event.time == JStr(now)
    ensures Handle(body, now, parse).event.source == JStr("unknown")
  {
  }

  /** Object data: the first of `content`, `message`, `text` that is not
      null, else the object itself; a null `content` falls through. */
  lemma ObjectContent(f: map<string, Json>)
    ensures "content" in f && !f["content"].JNull? ==> Content(Some(JObj(f))) == f["content"]
    ensures Nullish(Field(f, "content")) && "message" in f && !f["message"].JNull? ==>
      Content(Some(JObj(f))) == f["message"]
    ensures Nullish(Field(f, "content")) && Nullish(Field(f, "message")) && "text" in f && !f["text"].JNull? ==>
      Content(Some(JObj(f))) == f["text"]
    ensures Nullish(Field(f, "content")) && Nullish(Field(f, "message")) && Nullish(Field(f, "text")) ==>
      Content(Some(JObj(f))) == JObj(f)
  {
    var k := ContentKeys;
    assert k[0] == "content" && k[1..][0] == "message" && k[1..][1..][0] == "text" && k[1..][1..][1..] == [];
  }

  /** The web monitor never yields null content for object data: the
      `??` chain ends in the object itself. */
  lemma ObjectContentNeverNull(f: map<string, Json>)
    ensures Content(Some(JObj(f))) != JNull
  {
    ObjectContent(f);
  }

  /** A string is parsed once: data that is JSON text is read as the value
      it encodes, a string that is not JSON is the content itself, and a
      JSON-encoded string is not parsed a second time. */
  lemma StringDataParsedOnce(s: string, parse: Parse)
    ensures parse(s).None? ==> Content(ParsedData(Some(JStr(s)), parse)) == JStr(s)
    ensures parse(s).Some? ==> Content(ParsedData(Some(JStr(s)), parse)) == Content(parse(s))
    ensures parse(s).Some? && parse(s).value.JStr? ==> Content(ParsedData(Some(JStr(s)), parse)) == parse(s).value
  {
  }

  /** Null, booleans, numbers and missing data all become `{}`; so does a
      string whose JSON parse is one of those. */
  lemma ScalarDataIsEmptyObject(data: Option<Json>, parse: Parse)
    requires data.None? || data.value.JNull? || data.value.JBool? || data.value.JNum?
    ensures Content(ParsedData(data, parse)) == JObj(map[])
    ensures forall s :: parse(s) == data && data.Some? ==> Content(ParsedData(Some(JStr(s)), parse)) == JObj(map[])
  {
  }

  /** `broadcast`: the clients that remain after writing the payload to
      each, given which clients' writes succeed. */
  function Broadcast<C(==, !new)>(clients: seq<C>, writeOk: C -> bool): (kept: seq<C>)
    ensures IsSubsequence(kept, clients)
    ensures forall c :: c in kept <==> c in clients && writeOk(c)
  {
    FilterIsSubsequence(writeOk, clients);
    Filter(writeOk, clients)
  }

  /** The clients dropped by a broadcast. */
  function Dropped<C(==, !new)>(clients: seq<C>, writeOk: C -> bool): (gone: seq<C>)
    ensures forall c :: c in gone <==> c in clients && !writeOk(c)
  {
    Filter((c: C) => !writeOk(c), clients)
  }

  /** Every client is either kept or dropped, never both and never lost. */
  lemma {:induction false} BroadcastPartitions<C(!new)>(clients: seq<C>, writeOk: C -> bool)
    ensures |Broadcast(clients, writeOk)| + |Dropped(clients, writeOk)| == |clients|
    ensures forall c :: c in Broadcast(clients, writeOk) ==> c !in Dropped(clients, writeOk)
  {
    if clients != [] {
      BroadcastPartitions(clients[1..], writeOk);
    }
  }

  /** A second broadcast to the same healthy clients drops nobody. */
  lemma BroadcastIdempotent<C(!new)>(clients: seq<C>, writeOk: C -> bool)
    ensures Broadcast(Broadcast(clients, writeOk), writeOk) == Broadcast(clients, writeOk)
  {
    var kept := Broadcast(clients, writeOk);
    assert forall i :: 0 <= i < |kept| ==> kept[i] in kept;
    FilterAll(writeOk, kept);
  }

  /** The text written to each client: one server-sent-events data frame. */
  function Payload(stringify: Json -> string, e: Event): (r: string)
    ensures |r| >= 8 && r[..6] == "data: " && r[|r| - 2..] == "\n\n"
    ensures r[6..|r| - 2] == stringify(EventJson(e))
  {
    "data: " + stringify(EventJson(e)) + "\n\n"
  }

  function EventJson(e: Event): Json {
    JObj(map["time" := e.time, "source" := e.source, "content" := e.content])
  }
}
