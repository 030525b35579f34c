/** The pure helpers of the browser monitor
    (services/ui/web_monitor/public/app.js): HTML escaping, the empty-input
    case of the Markdown renderer, grouping list lines into `<ul>`/`<ol>`
    blocks, and classifying an event's source into an actor and a chat side.
    Text is split into lines before grouping and joined afterwards; the model
    works on the lines. */
module WebApp {
  import opened Base
  import opened Text
  import opened Seqs

  // ---- escapeHtml -------------------------------------------------------

  /** `str.replace(/c/g, rep)` for a single character `c`. */
  function ReplaceChar(s: string, c: char, rep: string): (r: string)
    ensures forall d :: d in r ==> (d in s && d != c) || d in rep
    decreases |s|
  {
    if s == [] then []
    else (if s[0] == c then rep else [s[0]]) + ReplaceChar(s[1..], c, rep)
  }

  /** `escapeHtml`: five global replacements, `&` first. */
  function EscapeHtml(s: string): string {
    ReplaceChar(ReplaceChar(ReplaceChar(ReplaceChar(ReplaceChar(
      s, '&', "&amp;"), '<', "&lt;"), '>', "&gt;"), '"', "&quot;"), '\'', "&#39;")
  }

  /** Escaped text carries none of the four markup characters. */
  lemma EscapedHasNoMarkup(s: string)
    ensures '<' !in EscapeHtml(s) && '>' !in EscapeHtml(s) && '"' !in EscapeHtml(s) && '\'' !in EscapeHtml(s)
  {
  }

  /** The entity each character becomes on its own. */
  function EscapeChar(c: char): string {
    if c == '&' then "&amp;"
    else if c == '<' then "&lt;"
    else if c == '>' then "&gt;"
    else if c == '"' then "&quot;"
    else if c == '\'' then "&#39;"
    else [c]
  }

  /** Character-by-character escaping: the reference the replacement chain
      is measured against. */
  function Escaped(s: string): string {
    if s == [] then [] else EscapeChar(s[0]) + Escaped(s[1..])
  }

  lemma {:induction false} ReplaceCharAppend(a: string, b: string, c: char, rep: string)
    ensures ReplaceChar(a + b, c, rep) == ReplaceChar(a, c, rep) + ReplaceChar(b, c, rep)
    decreases |a|
  {
    if a != [] {
      assert (a + b)[1..] == a[1..] + b;
      ReplaceCharAppend(a[1..], b, c, rep);
    } else {
      assert a + b == b;
    }
  }

  lemma {:induction false} ReplaceCharAbsent(s: string, c: char, rep: string)
    requires c !in s
    ensures ReplaceChar(s, c, rep) == s
    decreases |s|
  {
    if s != [] {
      ReplaceCharAbsent(s[1..], c, rep);
    }
  }

  lemma ReplaceCharOne(c: char, d: char, rep: string)
    ensures ReplaceChar([c], d, rep) == if c == d then rep else [c]
  {
    assert [c][1..] == [];
  }

  /** The replacements after the one that produced an entity leave it
      alone. */
  lemma EntityKept(e: string, from: nat)
    requires from <= 4
    requires from <= 0 ==> '&' !in e
    requires from <= 1 ==> '<' !in e
    requires from <= 2 ==> '>' !in e
    requires from <= 3 ==> '"' !in e
    requires '\'' !in e
    ensures from <= 0 ==> ReplaceChar(e, '&', "&amp;") == e
    ensures from <= 1 ==> ReplaceChar(e, '<', "&lt;") == e
    ensures from <= 2 ==> ReplaceChar(e, '>', "&gt;") == e
    ensures from <= 3 ==> ReplaceChar(e, '"', "&quot;") == e
    ensures ReplaceChar(e, '\'', "&#39;") == e
  {
    if from <= 0 { ReplaceCharAbsent(e, '&', "&amp;"); }
    if from <= 1 { ReplaceCharAbsent(e, '<', "&lt;"); }
    if from <= 2 { ReplaceCharAbsent(e, '>', "&gt;"); }
    if from <= 3 { ReplaceCharAbsent(e, '"', "&quot;"); }
    ReplaceCharAbsent(e, '\'', "&#39;");
  }

  lemma EscapeAmpersand()
    ensures EscapeHtml("&") == "&amp;"
  {
    ReplaceCharOne('&', '&', "&amp;");
    EntityKept("&amp;", 1);
  }

  lemma EscapeLess()
    ensures EscapeHtml("<") == "&lt;"
  {
    ReplaceCharOne('<', '&', "&amp;");
    ReplaceCharOne('<', '<', "&lt;");
    EntityKept("&lt;", 2);
  }

  lemma EscapeGreater()
    ensures EscapeHtml(">") == "&gt;"
  {
    ReplaceCharOne('>', '&', "&amp;");
    ReplaceCharOne('>', '<', "&lt;");
    ReplaceCharOne('>', '>', "&gt;");
    EntityKept("&gt;", 3);
  }

  lemma EscapeQuote()
    ensures EscapeHtml("\"") == "&quot;"
  {
    ReplaceCharOne('"', '&', "&amp;");
    ReplaceCharOne('"', '<', "&lt;");
    ReplaceCharOne('"', '>', "&gt;");
    ReplaceCharOne('"', '"', "&quot;");
    EntityKept("&quot;", 4);
  }

  lemma EscapeApostrophe()
    ensures EscapeHtml("'") == "&#39;"
  {
    ReplaceCharOne('\'', '&', "&amp;");
    ReplaceCharOne('\'', '<', "&lt;");
    ReplaceCharOne('\'', '>', "&gt;");
    ReplaceCharOne('\'', '"', "&quot;");
    ReplaceCharOne('\'', '\'', "&#39;");
  }

  lemma EscapePlain(c: char)
    requires c != '&' && c != '<' && c != '>' && c != '"' && c != '\''
    ensures EscapeHtml([c]) == [c]
  {
    ReplaceCharOne(c, '&', "&amp;");
    ReplaceCharOne(c, '<', "&lt;");
    ReplaceCharOne(c, '>', "&gt;");
    ReplaceCharOne(c, '"', "&quot;");
    ReplaceCharOne(c, '\'', "&#39;");
  }

  /** The chain on one character gives that character's entity: no entity
      contains a character a later step replaces. */
  lemma EscapeOne(c: char)
    ensures EscapeHtml([c]) == EscapeChar(c)
  {
    if c == '&' {
      EscapeAmpersand();
    } else if c == '<' {
      EscapeLess();
    } else if c == '>' {
      EscapeGreater();
    } else if c == '"' {
      EscapeQuote();
    } else if c == '\'' {
      EscapeApostrophe();
    } else {
      EscapePlain(c);
    }
  }

  /** Escaping a concatenation escapes each part. */
  lemma EscapeAppend(a: string, b: string)
    ensures EscapeHtml(a + b) == EscapeHtml(a) + EscapeHtml(b)
  {
    var x1 := ReplaceChar(a, '&', "&amp;");
    var y1 := ReplaceChar(b, '&', "&amp;");
    ReplaceCharAppend(a, b, '&', "&amp;");
    var x2 := ReplaceChar(x1, '<', "&lt;");
    var y2 := ReplaceChar(y1, '<', "&lt;");
    ReplaceCharAppend(x1, y1, '<', "&lt;");
    var x3 := ReplaceChar(x2, '>', "&gt;");
    var y3 := ReplaceChar(y2, '>', "&gt;");
    ReplaceCharAppend(x2, y2, '>', "&gt;");
    var x4 := ReplaceChar(x3, '"', "&quot;");
    var y4 := ReplaceChar(y3, '"', "&quot;");
    ReplaceCharAppend(x3, y3, '"', "&quot;");
    ReplaceCharAppend(x4, y4, '\'', "&#39;");
  }

  /** Because `&` goes first, the chain escapes every character exactly
      once: it equals character-by-character escaping. */
  lemma {:induction false} EscapeHtmlIsPerChar(s: string)
    ensures EscapeHtml(s) == Escaped(s)
    decreases |s|
  {
    if s == [] {
      assert EscapeHtml(s) == [];
    } else {
      assert s == [s[0]] + s[1..];
      EscapeAppend([s[0]], s[1..]);
      EscapeOne(s[0]);
      EscapeHtmlIsPerChar(s[1..]);
    }
  }

  /** The character at the front of escaped text and how many characters
      spell it: one of the five entities, or the character itself. */
  function DecodeFirst(s: string): (r: (char, nat))
    requires s != []
    ensures 1 <= r.1 <= |s|
  {
    if StartsWith(s, "&amp;") then ('&', 5)
    else if StartsWith(s, "&lt;") then ('<', 4)
    else if StartsWith(s, "&gt;") then ('>', 4)
    else if StartsWith(s, "&quot;") then ('"', 6)
    else if StartsWith(s, "&#39;") then ('\'', 5)
    else (s[0], 1)
  }

  /** Reads the five entities back into their characters. */
  function Unescape(s: string): string
    decreases |s|
  {
    if s == [] then []
    else
      var d := DecodeFirst(s);
      [d.0] + Unescape(s[d.1..])
  }

  lemma DecodeEntity(c: char, rest: string)
    ensures DecodeFirst(EscapeChar(c) + rest) == (c, |EscapeChar(c)|)
  {
    var e := EscapeChar(c);
    var s := e + rest;
    assert s[..|e|] == e;
    assert forall i :: 0 <= i < |e| ==> s[i] == e[i];
    if c == '&' {
    } else if c == '<' {
      assert s[1] == 'l';
    } else if c == '>' {
      assert s[1] == 'g';
    } else if c == '"' {
      assert s[1] == 'q';
    } else if c == '\'' {
      assert s[1] == '#';
    } else {
      assert s[0] == c;
    }
  }

  lemma UnescapeOne(c: char, rest: string)
    ensures Unescape(EscapeChar(c) + rest) == [c] + Unescape(rest)
  {
    var s := EscapeChar(c) + rest;
    DecodeEntity(c, rest);
    assert s[|EscapeChar(c)|..] == rest;
  }

  /** Escaping loses nothing: unescaping gives the text back. */
  lemma {:induction false} UnescapeEscapeHtml(s: string)
    ensures Unescape(EscapeHtml(s)) == s
    decreases |s|
  {
    EscapeHtmlIsPerChar(s);
    if s != [] {
      UnescapeOne(s[0], Escaped(s[1..]));
      UnescapeEscapeHtml(s[1..]);
      EscapeHtmlIsPerChar(s[1..]);
    }
  }

  // ---- renderMarkdown ---------------------------------------------------

  /** `renderMarkdown`: a missing or empty text renders as "", anything else
      is escaped and handed to the Markdown rewrites (`rewrite`, not part of
      this model). */
  function RenderMarkdown(text: Option<string>, rewrite: string -> string): (r: string)
    ensures !Truthy(text) ==> r == ""
    ensures Truthy(text) ==> r == rewrite(EscapeHtml(text.value))
  {
    if !Truthy(text) then "" else rewrite(EscapeHtml(text.value))
  }

  // ---- groupList --------------------------------------------------------

  /** The output lines of `groupList` before rendering. */
  datatype Piece = Open | Close | Item(text: string) | Plain(line: string)

  function RenderPiece(tag: string, p: Piece): string {
    match p
    case Open => "<" + tag + ">"
    case Close => "</" + tag + ">"
    case Item(t) => "<li>" + t + "</li>"
    case Plain(l) => l
  }

  /** The pieces `groupList` emits for `lines` when a list is (`inList`) or
      is not already open; `item` is the text the pattern captures. */
  function Grouped(lines: seq<string>, matches: string -> bool, item: string -> string, inList: bool): seq<Piece>
    decreases |lines|
  {
    if lines == [] then (if inList then [Close] else [])
    else if matches(lines[0]) then
      (if inList then [] else [Open]) + [Item(item(lines[0]))] + Grouped(lines[1..], matches, item, true)
    else (if inList then [Close] else []) + [Plain(lines[0])] + Grouped(lines[1..], matches, item, false)
  }

  /** The plain lines and the list items of a piece sequence, in order. */
  function Plains(ps: seq<Piece>): seq<string> {
    if ps == [] then [] else (if ps[0].Plain? then [ps[0].line] else []) + Plains(ps[1..])
  }

  function Items(ps: seq<Piece>): seq<string> {
    if ps == [] then [] else (if ps[0].Item? then [ps[0].text] else []) + Items(ps[1..])
  }

  function Opens(ps: seq<Piece>): nat {
    if ps == [] then 0 else (if ps[0].Open? then 1 else 0) + Opens(ps[1..])
  }

  /** Tags are balanced: items only inside a list, plain lines only outside,
      and every list closed at the end. */
  predicate Nested(ps: seq<Piece>, open: bool) {
    if ps == [] then !open
    else match ps[0]
      case Open => !open && Nested(ps[1..], true)
      case Close => open && Nested(ps[1..], false)
      case Item(_) => open && Nested(ps[1..], true)
      case Plain(_) => !open && Nested(ps[1..], false)
  }

  /** The number of maximal runs of matching lines (`prev`: the line before
      `lines` matched). */
  function Runs(lines: seq<string>, matches: string -> bool, prev: bool): nat {
    if lines == [] then 0
    else (if matches(lines[0]) && !prev then 1 else 0) + Runs(lines[1..], matches, matches(lines[0]))
  }

  lemma PlainsAppend(a: seq<Piece>, b: seq<Piece>)
    ensures Plains(a + b) == Plains(a) + Plains(b)
    ensures Items(a + b) == Items(a) + Items(b)
    ensures Opens(a + b) == Opens(a) + Opens(b)
  {
    if a != [] {
      assert (a + b)[1..] == a[1..] + b;
      PlainsAppend(a[1..], b);
    } else {
      assert a + b == b;
    }
  }

  /** One step of `Grouped`: the pieces for the first line, then the rest. */
  function Head(l: string, matches: string -> bool, item: string -> string, inList: bool): seq<Piece> {
    if matches(l) then (if inList then [] else [Open]) + [Item(item(l))]
    else (if inList then [Close] else []) + [Plain(l)]
  }

  lemma GroupedStep(lines: seq<string>, matches: string -> bool, item: string -> string, inList: bool)
    requires lines != []
    ensures Grouped(lines, matches, item, inList) ==
      Head(lines[0], matches, item, inList) + Grouped(lines[1..], matches, item, matches(lines[0]))
  {
  }

  lemma MapCons<T, U>(f: T -> U, x: T, s: seq<T>)
    ensures MapSeq(f, [x] + s) == [f(x)] + MapSeq(f, s)
  {
    var a, b := MapSeq(f, [x] + s), [f(x)] + MapSeq(f, s);
    forall i | 0 <= i < |a|
      ensures a[i] == b[i]
    {
      if i > 0 {
        assert ([x] + s)[i] == s[i - 1];
      }
    }
  }

  /** Non-matching lines pass through unchanged and in order. */
  lemma {:induction false} GroupedPlains(lines: seq<string>, matches: string -> bool, item: string -> string, inList: bool)
    ensures Plains(Grouped(lines, matches, item, inList)) == Filter((l: string) => !matches(l), lines)
    decreases |lines|
  {
    if lines != [] {
      var l := lines[0];
      var head := Head(l, matches, item, inList);
      var tail := Grouped(lines[1..], matches, item, matches(l));
      GroupedStep(lines, matches, item, inList);
      GroupedPlains(lines[1..], matches, item, matches(l));
      PlainsAppend(head, tail);
      if matches(l) {
        assert Plains(head) == [] by {
          if !inList {
            assert head[1..] == [Item(item(l))];
          }
        }
      } else {
        assert Plains(head) == [l] by {
          if inList {
            assert head[1..] == [Plain(l)];
          }
        }
      }
    } else {
      assert Plains(Grouped(lines, matches, item, inList)) == [] by {
        if inList {
          assert [Close][1..] == [];
        }
      }
    }
  }

  /** Each matching line becomes one item, in order. */
  lemma {:induction false} GroupedItems(lines: seq<string>, matches: string -> bool, item: string -> string, inList: bool)
    ensures Items(Grouped(lines, matches, item, inList)) == MapSeq(item, Filter(matches, lines))
    decreases |lines|
  {
    if lines != [] {
      var l := lines[0];
      var head := Head(l, matches, item, inList);
      var tail := Grouped(lines[1..], matches, item, matches(l));
      GroupedStep(lines, matches, item, inList);
      GroupedItems(lines[1..], matches, item, matches(l));
      PlainsAppend(head, tail);
      if matches(l) {
        assert Items(head) == [item(l)] by {
          if !inList {
            assert head[1..] == [Item(item(l))];
          }
          assert [Item(item(l))][1..] == [];
        }
        assert Filter(matches, lines) == [l] + Filter(matches, lines[1..]);
        MapCons(item, l, Filter(matches, lines[1..]));
      } else {
        assert Items(head) == [] by {
          if inList {
            assert head[1..] == [Plain(l)];
          }
          assert [Plain(l)][1..] == [];
        }
      }
    } else {
      assert Items(Grouped(lines, matches, item, inList)) == [] by {
        if inList {
          assert [Close][1..] == [];
        }
      }
    }
  }

  /** Tags are balanced, a list still open at the end included. */
  lemma {:induction false} GroupedNested(lines: seq<string>, matches: string -> bool, item: string -> string, inList: bool)
    ensures Nested(Grouped(lines, matches, item, inList), inList)
    decreases |lines|
  {
    if lines != [] {
      var l := lines[0];
      var head := Head(l, matches, item, inList);
      var tail := Grouped(lines[1..], matches, item, matches(l));
      GroupedStep(lines, matches, item, inList);
      GroupedNested(lines[1..], matches, item, matches(l));
      var first := if matches(l) then Item(item(l)) else Plain(l);
      var rest := [first] + tail;
      assert rest[0] == first && rest[1..] == tail;
      assert Nested(rest, matches(l));
      if head == [first] {
        assert head + tail == rest;
      } else {
        var ps := head + tail;
        assert head == [head[0], first];
        assert ps[0] == head[0] && ps[1..] == rest;
      }
    } else if inList {
      assert [Close][1..] == [];
    }
  }

  /** One list is opened per maximal run of matching lines. */
  lemma {:induction false} GroupedOpens(lines: seq<string>, matches: string -> bool, item: string -> string, inList: bool)
    ensures Opens(Grouped(lines, matches, item, inList)) == Runs(lines, matches, inList)
    decreases |lines|
  {
    if lines != [] {
      var l := lines[0];
      var head := Head(l, matches, item, inList);
      var tail := Grouped(lines[1..], matches, item, matches(l));
      GroupedStep(lines, matches, item, inList);
      GroupedOpens(lines[1..], matches, item, matches(l));
      PlainsAppend(head, tail);
      var first := if matches(l) then Item(item(l)) else Plain(l);
      assert [first][1..] == [];
      if head != [first] {
        assert head == [head[0], first];
        assert head[1..] == [first];
      }
    } else if inList {
      assert [Close][1..] == [];
    }
  }

  lemma AppendAssoc<T>(a: seq<T>, b: seq<T>, c: seq<T>)
    ensures (a + b) + c == a + (b + c)
  {
  }

  /** `groupList` as written: one pass over the lines with an `inList`
      flag, closing a list that is still open at the end. */
  method GroupList(lines: seq<string>, matches: string -> bool, item: string -> string, tag: string)
    returns (out: seq<string>)
    ensures out == MapSeq((p: Piece) => RenderPiece(tag, p), Grouped(lines, matches, item, false))
  {
    var pieces: seq<Piece> := [];
    var inList := false;
    var i := 0;
    while i < |lines|
      invariant 0 <= i <= |lines|
      invariant pieces + Grouped(lines[i..], matches, item, inList) == Grouped(lines, matches, item, false)
    {
      var line := lines[i];
      var before, wasInList := pieces, inList;
      var rest := Grouped(lines[i + 1..], matches, item, matches(line));
      assert lines[i..][1..] == lines[i + 1..] && lines[i..][0] == line;
      GroupedStep(lines[i..], matches, item, inList);
      assert Grouped(lines[i..], matches, item, wasInList) == Head(line, matches, item, wasInList) + rest;
      if matches(line) {
        if !inList {
          pieces := pieces + [Open];
          inList := true;
        }
        pieces := pieces + [Item(item(line))];
      } else {
        if inList {
          pieces := pieces + [Close];
          inList := false;
        }
        pieces := pieces + [Plain(line)];
      }
      assert pieces == before + Head(line, matches, item, wasInList);
      assert inList == matches(line);
      AppendAssoc(before, Head(line, matches, item, wasInList), rest);
      i := i + 1;
    }
    if inList {
      pieces := pieces + [Close];
    }
    assert lines[|lines|..] == [];
    out := MapSeq((p: Piece) => RenderPiece(tag, p), pieces);
  }

  // ---- resolveActor / sideFor -------------------------------------------

  datatype Actor = Actor(emoji: string, name: string)

  const IntentActor := Actor("\U{1F9ED}", "IntentOrchestrator")
  const TaskActor := Actor("\U{1F4DD}", "TaskPlanner")
  const OfficeActor := Actor("\U{1F916}", "OfficeAutomation")
  const ChatEmoji := "\U{1F4AC}"

  predicate IsIntent(s: string) {
    Contains(s, "orchestrator") || Contains(s, "intent")
  }

  predicate IsTask(s: string) {
    Contains(s, "task") || Contains(s, "planner")
  }

  predicate IsOffice(s: string) {
    Contains(s, "office") || Contains(s, "automation") || Contains(s, "emailer")
  }

  /** `(source || '').toLowerCase()`. */
  function Key(source: Option<string>): string {
    Lower(OrElse(source, ""))
  }

  /** `resolveActor`: the first matching family wins, in the order
      orchestrator/intent, task/planner, office/automation/emailer;
      otherwise the source itself (or "unknown") with a speech bubble. */
  function ResolveActor(source: Option<string>): (r: Actor)
    ensures IsIntent(Key(source)) ==> r == IntentActor
    ensures !IsIntent(Key(source)) && IsTask(Key(source)) ==> r == TaskActor
    ensures !IsIntent(Key(source)) && !IsTask(Key(source)) && IsOffice(Key(source)) ==> r == OfficeActor
    ensures !IsIntent(Key(source)) && !IsTask(Key(source)) && !IsOffice(Key(source)) ==>
      r == Actor(ChatEmoji, OrElse(source, "unknown"))
  {
    var s := Key(source);
    if IsIntent(s) then IntentActor
    else if IsTask(s) then TaskActor
    else if IsOffice(s) then OfficeActor
    else Actor(ChatEmoji, OrElse(source, "unknown"))
  }

  lemma LowerIdempotent(s: string)
    ensures Lower(Lower(s)) == Lower(s)
  {
  }

  /** Classification ignores letter case: a source and its lower-case
      spelling get the same emoji, and the same actor whenever a family
      matches. */
  lemma ResolveActorIgnoresCase(s: string)
    ensures ResolveActor(Some(s)).emoji == ResolveActor(Some(Lower(s))).emoji
    ensures IsIntent(Key(Some(s))) || IsTask(Key(Some(s))) || IsOffice(Key(Some(s))) ==>
      ResolveActor(Some(s)) == ResolveActor(Some(Lower(s)))
  {
    LowerIdempotent(s);
    assert Key(Some(Lower(s))) == Key(Some(s)) by {
      if s == "" {
        assert Lower(s) == "";
      }
    }
  }

  /** The actor's name is one of the three families or the source itself;
      an empty or missing source is "unknown". */
  lemma ActorNames(source: Option<string>)
    ensures ResolveActor(source).name in {"IntentOrchestrator", "TaskPlanner", "OfficeAutomation", OrElse(source, "unknown")}
    ensures !Truthy(source) ==> ResolveActor(source) == Actor(ChatEmoji, "unknown")
  {
    if !Truthy(source) {
      var s := Key(source);
      assert s == "";
      assert !Contains(s, "orchestrator") && !Contains(s, "intent") && !Contains(s, "task");
      assert !Contains(s, "planner") && !Contains(s, "office") && !Contains(s, "automation");
      assert !Contains(s, "emailer");
    }
  }

  /** `sideFor`: agents speak on the right, everything else on the left. */
  function SideFor(source: Option<string>): (r: string)
    ensures r == "right" || r == "left"
    ensures r == "right" <==> Contains(Key(source), "agent")
  {
    if Contains(Key(source), "agent") then "right" else "left"
  }

  /** The side ignores letter case. */
  lemma SideIgnoresCase(s: string)
    ensures SideFor(Some(s)) == SideFor(Some(Lower(s)))
  {
    LowerIdempotent(s);
    assert Key(Some(Lower(s))) == Key(Some(s)) by {
      if s == "" {
        assert Lower(s) == "";
      }
    }
  }

  /** A source naming an agent goes right, whatever precedes or follows. */
  lemma AgentSourceOnRight(a: string, b: string)
    requires a + "agent" + b != ""
    ensures SideFor(Some(a + "agent" + b)) == "right"
  {
    var s := a + "agent" + b;
    assert Lower(s) == Lower(a) + "agent" + Lower(b);
    ContainsInfix(Lower(a), "agent", Lower(b));
  }
}
