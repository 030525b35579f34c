/** String helpers with the semantics of the Python and JavaScript built-ins
    the source calls (`lower`, `endswith`, `in`, `strip`, `int`). Only ASCII
    letters change case and only the whitespace listed in `IsSpace` is
    stripped. */
module Text {
  import opened Base

  function LowerChar(c: char): char {
    if 'A' <= c <= 'Z' then (c as int + 32) as char else c
  }

  /** `str.lower()` / `String.prototype.toLowerCase()` on ASCII letters. */
  function Lower(s: string): (r: string)
    ensures |r| == |s|
    ensures forall i :: 0 <= i < |s| ==> r[i] == LowerChar(s[i])
  {
    seq(|s|, i requires 0 <= i < |s| => LowerChar(s[i]))
  }

  predicate StartsWith(s: string, prefix: string) {
    |prefix| <= |s| && s[..|prefix|] == prefix
  }

  predicate EndsWith(s: string, suffix: string) {
    |suffix| <= |s| && s[|s| - |suffix|..] == suffix
  }

  /** `sub in s` / `s.includes(sub)`. */
  predicate Contains(s: string, sub: string)
    decreases |s|
  {
    StartsWith(s, sub) || (|s| > 0 && Contains(s[1..], sub))
  }

  /** `sub` occurs at some position of `s`, stated without recursion. */
  ghost predicate OccursAt(s: string, sub: string, k: int) {
    0 <= k && k + |sub| <= |s| && s[k..k + |sub|] == sub
  }

  lemma {:induction false} ContainsIffOccurs(s: string, sub: string)
    ensures Contains(s, sub) <==> exists k :: OccursAt(s, sub, k)
    decreases |s|
  {
    if StartsWith(s, sub) {
      assert OccursAt(s, sub, 0);
    } else if |s| == 0 {
      assert forall k :: !OccursAt(s, sub, k);
    } else {
      ContainsIffOccurs(s[1..], sub);
      if exists k :: OccursAt(s, sub, k) {
        var k :| OccursAt(s, sub, k);
        assert k != 0;
        assert s[1..][k - 1..k - 1 + |sub|] == s[k..k + |sub|];
        assert OccursAt(s[1..], sub, k - 1);
      }
      if exists k :: OccursAt(s[1..], sub, k) {
        var k :| OccursAt(s[1..], sub, k);
        assert s[1..][k..k + |sub|] == s[k + 1..k + 1 + |sub|];
        assert OccursAt(s, sub, k + 1);
      }
    }
  }

  /** A string contains any infix of itself. */
  lemma ContainsInfix(a: string, sub: string, b: string)
    ensures Contains(a + sub + b, sub)
  {
    var s := a + sub + b;
    assert s[|a|..|a| + |sub|] == sub;
    assert OccursAt(s, sub, |a|);
    ContainsIffOccurs(s, sub);
  }

  lemma EndsWithNested(a: string, b: string, c: string)
    ensures EndsWith(a + (b + c), c)
  {
    assert (a + (b + c))[|a + (b + c)| - |c|..] == c;
  }

  /** Past a known prefix `a`, a longer prefix `a + p` is just `p`. */
  lemma StartsWithPast(s: string, a: string, p: string)
    requires StartsWith(s, a)
    ensures StartsWith(s, a + p) <==> StartsWith(s[|a|..], p)
  {
    if StartsWith(s[|a|..], p) {
      assert s[..|a + p|] == s[..|a|] + s[|a|..][..|p|];
    }
    if StartsWith(s, a + p) {
      assert s[|a|..][..|p|] == s[..|a + p|][|a|..];
    }
  }

  /** A slot `x` between `a` and `b` that is empty or opens with `p`, where
      `b` does not open with `p`: the text at the slot opens with `p`
      exactly when the slot is filled. */
  lemma SlotOpens(a: string, x: string, b: string, p: string)
    requires |p| > 0 && |b| > 0 && b[0] != p[0]
    requires x == "" || StartsWith(x, p)
    ensures |a| <= |a + x + b|
    ensures StartsWith((a + x + b)[|a|..], p) <==> x != ""
    ensures StartsWith(a + x + b, a + p) <==> x != ""
  {
    var s := a + x + b;
    assert s[|a|..] == x + b;
    assert s[..|a|] == a;
    StartsWithPast(s, a, p);
    if x != "" {
      assert (x + b)[..|p|] == x[..|p|];
    } else {
      assert (x + b)[0] == b[0];
    }
  }

  /** The characters Python's `str.isspace()` accepts in the ASCII and
      Latin-1 ranges. */
  predicate IsSpace(c: char) {
    c == ' ' || ('\t' <= c <= '\r') || ('\U{1C}' <= c <= '\U{1F}') || c == '\U{85}' || c == '\U{A0}'
  }

  /** Every character is whitespace (the empty string included). */
  predicate Blank(s: string) {
    forall i :: 0 <= i < |s| ==> IsSpace(s[i])
  }

  function TrimLeft(s: string): (r: string)
    ensures |r| <= |s| && r == s[|s| - |r|..]
    ensures r == [] || !IsSpace(r[0])
    ensures Blank(s[..|s| - |r|])
  {
    if s != [] && IsSpace(s[0]) then
      var t := TrimLeft(s[1..]);
      assert s[..|s| - |t|] == [s[0]] + s[1..][..|s| - 1 - |t|];
      t
    else s
  }

  function TrimRight(s: string): (r: string)
    ensures |r| <= |s| && r == s[..|r|]
    ensures r == [] || !IsSpace(r[|r| - 1])
    ensures Blank(s[|r|..])
  {
    if s != [] && IsSpace(s[|s| - 1]) then
      var t := TrimRight(s[..|s| - 1]);
      assert s[|t|..] == s[..|s| - 1][|t|..] + [s[|s| - 1]];
      t
    else s
  }

  /** `str.strip()`. */
  function Strip(s: string): string {
    TrimRight(TrimLeft(s))
  }

  /** Stripping leaves nothing exactly when the string is all whitespace. */
  lemma StripEmptyIffBlank(s: string)
    ensures Strip(s) == "" <==> Blank(s)
  {
    var l := TrimLeft(s);
    if Strip(s) == "" {
      assert l == [];
      assert s[..|s|] == s;
    } else {
      var r := Strip(s);
      assert !IsSpace(r[0]) || |r| > 0;
      assert r[0] == l[0];
      assert l[0] == s[|s| - |l|];
    }
  }

  predicate IsDigit(c: char) {
    '0' <= c <= '9'
  }

  predicate AllDigits(s: string) {
    forall i :: 0 <= i < |s| ==> IsDigit(s[i])
  }

  function DigitChar(d: nat): char
    requires d < 10
  {
    ('0' as int + d) as char
  }

  /** Decimal rendering of a natural number, as `str(n)`. */
  function NatToString(n: nat): (r: string)
    ensures |r| >= 1 && AllDigits(r)
    ensures n < 10 <==> |r| == 1
  {
    if n < 10 then [DigitChar(n)] else NatToString(n / 10) + [DigitChar(n % 10)]
  }

  /** The value of a non-empty run of decimal digits. */
  function DigitsValue(s: string): nat
    requires AllDigits(s)
  {
    if s == [] then 0 else DigitsValue(s[..|s| - 1]) * 10 + (s[|s| - 1] as int - '0' as int)
  }

  lemma {:induction false} DigitsValueOfNatToString(n: nat)
    ensures DigitsValue(NatToString(n)) == n
  {
    if n >= 10 {
      var s := NatToString(n);
      assert s[..|s| - 1] == NatToString(n / 10);
      DigitsValueOfNatToString(n / 10);
    }
  }

  /** Decimal digits with single underscores between them, as Python's
      integer literals allow ("3_600"). */
  predicate GroupedDigits(s: string) {
    |s| >= 1 && IsDigit(s[0]) && IsDigit(s[|s| - 1]) &&
    (forall i :: 0 <= i < |s| ==> IsDigit(s[i]) || s[i] == '_') &&
    (forall i, j :: 0 <= i < |s| && 0 <= j < |s| && j == i + 1 ==> s[i] != '_' || s[j] != '_')
  }

  /** The digits of `s`, with the underscores dropped. */
  function DropUnderscores(s: string): (r: string)
    ensures (forall i :: 0 <= i < |s| ==> IsDigit(s[i]) || s[i] == '_') ==> AllDigits(r)
    ensures AllDigits(s) ==> r == s
    ensures |r| <= |s|
  {
    if s == [] then []
    else if s[|s| - 1] == '_' then DropUnderscores(s[..|s| - 1])
    else DropUnderscores(s[..|s| - 1]) + [s[|s| - 1]]
  }

  /** Digit groups without a sign, read as their digits. */
  function ParseGroups(t: string): (r: Option<nat>)
    ensures r.Some? <==> GroupedDigits(t)
  {
    if GroupedDigits(t) then Some(DigitsValue(DropUnderscores(t))) else None
  }

  /** An optional sign and digit groups, the text `int()` reads once the
      whitespace is stripped. */
  function ParseSigned(t: string): (r: Option<int>)
    ensures r.Some? ==> |t| >= 1
  {
    if |t| >= 1 && (t[0] == '-' || t[0] == '+') then
      match ParseGroups(t[1..])
      case Some(magnitude) => Some(if t[0] == '-' then -(magnitude as int) else magnitude)
      case None => None
    else
      match ParseGroups(t)
      case Some(magnitude) => Some(magnitude)
      case None => None
  }

  /** Python's `int(s)` on a string: surrounding whitespace is stripped, then
      an optional sign and digit groups joined by single underscores. */
  function ParseInt(s: string): (r: Option<int>)
    ensures r.Some? ==> |s| >= 1
  {
    ParseSigned(Strip(s))
  }

  /** A string that neither starts nor ends with whitespace is its own strip. */
  lemma StripNoEdgeSpace(s: string)
    requires s != [] && !IsSpace(s[0]) && !IsSpace(s[|s| - 1])
    ensures Strip(s) == s
  {
  }

  /** A run of digits is a single digit group. */
  lemma DigitsAreGrouped(s: string)
    requires |s| >= 1 && AllDigits(s)
    ensures GroupedDigits(s)
  {
  }

  /** A bare run of digits reads as its decimal value. */
  lemma ParseIntOfDigits(s: string)
    requires |s| >= 1 && AllDigits(s)
    ensures ParseInt(s) == Some(DigitsValue(s))
  {
    assert IsDigit(s[0]) && IsDigit(s[|s| - 1]);
    StripNoEdgeSpace(s);
    DigitsAreGrouped(s);
    SignedOfGrouped(s);
  }

  /** Parsing the decimal rendering of a number gives the number back. */
  lemma ParseIntOfNatToString(n: nat)
    ensures ParseInt(NatToString(n)) == Some(n)
  {
    DigitsValueOfNatToString(n);
    ParseIntOfDigits(NatToString(n));
  }

  lemma {:induction false} TrimLeftBlank(pre: string, rest: string)
    requires Blank(pre) && rest != [] && !IsSpace(rest[0])
    ensures TrimLeft(pre + rest) == rest
  {
    if pre == [] {
      assert pre + rest == rest;
    } else {
      assert (pre + rest)[0] == pre[0];
      assert (pre + rest)[1..] == pre[1..] + rest;
      TrimLeftBlank(pre[1..], rest);
    }
  }

  lemma {:induction false} TrimRightBlank(rest: string, post: string)
    requires Blank(post) && rest != [] && !IsSpace(rest[|rest| - 1])
    ensures TrimRight(rest + post) == rest
  {
    if post == [] {
      assert rest + post == rest;
    } else {
      var s := rest + post;
      assert s[|s| - 1] == post[|post| - 1];
      assert s[..|s| - 1] == rest + post[..|post| - 1];
      TrimRightBlank(rest, post[..|post| - 1]);
    }
  }

  /** Whitespace around the number is stripped before it is read, whatever
      the whitespace. */
  lemma IntStripsWhitespace(pre: string, body: string, post: string)
    requires Blank(pre) && Blank(post)
    requires body != [] && !IsSpace(body[0]) && !IsSpace(body[|body| - 1])
    ensures ParseInt(pre + body + post) == ParseSigned(body)
  {
    assert pre + body + post == pre + (body + post);
    assert (body + post)[0] == body[0];
    TrimLeftBlank(pre, body + post);
    TrimRightBlank(body, post);
  }

  lemma {:induction false} DropUnderscoresJoin(a: string, b: string)
    requires AllDigits(b)
    ensures DropUnderscores(a + "_" + b) == DropUnderscores(a) + b
    decreases |b|
  {
    var s := a + "_" + b;
    if b == [] {
      assert s[|s| - 1] == '_' && s[..|s| - 1] == a;
    } else {
      assert s[|s| - 1] == b[|b| - 1];
      assert s[..|s| - 1] == a + "_" + b[..|b| - 1];
      DropUnderscoresJoin(a, b[..|b| - 1]);
      assert b[..|b| - 1] + [b[|b| - 1]] == b;
    }
  }

  lemma GroupedJoin(a: string, b: string)
    requires |a| >= 1 && AllDigits(a) && |b| >= 1 && AllDigits(b)
    ensures GroupedDigits(a + "_" + b)
  {
    var s := a + "_" + b;
    forall i | 0 <= i < |s| ensures (IsDigit(s[i]) || s[i] == '_') && (s[i] == '_' <==> i == |a|) {
      if i < |a| { assert s[i] == a[i]; }
      else if i > |a| { assert s[i] == b[i - |a| - 1]; }
    }
    assert s[0] == a[0] && s[|s| - 1] == b[|b| - 1];
  }

  /** Digit groups read as their digits, and a minus sign negates them. */
  lemma SignedOfGrouped(t: string)
    requires GroupedDigits(t)
    ensures ParseSigned(t) == Some(DigitsValue(DropUnderscores(t)))
    ensures ParseSigned("-" + t) == Some(-(DigitsValue(DropUnderscores(t)) as int))
  {
    var m := DigitsValue(DropUnderscores(t));
    assert ParseGroups(t) == Some(m);
    assert IsDigit(t[0]) && t[0] != '-' && t[0] != '+';
    var u := "-" + t;
    assert |u| >= 1 && u[0] == '-' && u[1..] == t;
  }

  /** Two digit runs joined by one underscore read as the digits run
      together (a sign then applies as `SignedOfGrouped` says). */
  lemma IntJoinsGroups(a: string, b: string)
    requires |a| >= 1 && AllDigits(a) && |b| >= 1 && AllDigits(b)
    ensures AllDigits(a + b) && GroupedDigits(a + "_" + b)
    ensures ParseSigned(a + "_" + b) == Some(DigitsValue(a + b))
  {
    GroupedJoin(a, b);
    DropUnderscoresJoin(a, b);
    SignedOfGrouped(a + "_" + b);
  }

  /** "3_600" reads as 3600. */
  lemma IntDropsUnderscores(s: string)
    requires s == "3_600"
    ensures ParseSigned(s) == Some(3600)
  {
    IntJoinsGroups("3", "600");
    assert "3" + "_" + "600" == s;
    assert DigitsValue("3" + "600") == 3600 by {
      assert "3" + "600" == "3600";
      assert "3600"[..3] == "360" && "360"[..2] == "36" && "36"[..1] == "3" && "3"[..0] == "";
    }
  }

  /** Doubled, leading or trailing underscores are refused. */
  lemma IntRefusesLooseUnderscores()
    ensures ParseSigned("3__600") == None
    ensures ParseSigned("_3") == None
    ensures ParseSigned("3_") == None
  {
    assert "3__600"[1] == '_' && "3__600"[2] == '_';
    assert !GroupedDigits("3__600");
  }

  function Pow10(k: nat): (r: nat)
    ensures r >= 1
  {
    if k == 0 then 1 else 10 * Pow10(k - 1)
  }

  /** A number below `10^w` takes at most `w` digits. */
  lemma {:induction false} NatToStringLength(n: nat, w: nat)
    requires 1 <= w && n < Pow10(w)
    ensures |NatToString(n)| <= w
  {
    if n >= 10 {
      assert w >= 2;
      NatToStringLength(n / 10, w - 1);
    }
  }

  function Zeros(k: nat): (r: string)
    ensures |r| == k && AllDigits(r)
    ensures forall i :: 0 <= i < k ==> r[i] == '0'
  {
    seq(k, i => '0')
  }

  /** Leading zeros do not change a digit string's value. */
  lemma {:induction false} ZerosPrefixValue(k: nat, s: string)
    requires AllDigits(s)
    ensures DigitsValue(Zeros(k) + s) == DigitsValue(s)
    decreases |s| + k
  {
    if s == [] {
      if k > 0 {
        assert (Zeros(k) + s)[..k - 1] == Zeros(k - 1) + [];
        ZerosPrefixValue(k - 1, s);
      } else {
        assert Zeros(k) + s == [];
      }
    } else {
      assert (Zeros(k) + s)[..|Zeros(k) + s| - 1] == Zeros(k) + s[..|s| - 1];
      ZerosPrefixValue(k, s[..|s| - 1]);
    }
  }

  /** `f"{n:0{width}}"`: the decimal digits of `n`, zero-padded on the left
      to at least `width` characters. */
  function Pad(n: nat, width: nat): (r: string)
    ensures AllDigits(r) && |r| >= 1 && |r| >= width
    ensures 1 <= width && n < Pow10(width) ==> |r| == width
  {
    var s := NatToString(n);
    assert 1 <= width && n < Pow10(width) ==> |s| <= width by {
      if 1 <= width && n < Pow10(width) {
        NatToStringLength(n, width);
      }
    }
    if |s| < width then Zeros(width - |s|) + s else s
  }

  /** Padding keeps the value: reading the digits back gives `n`. */
  lemma PadValue(n: nat, width: nat)
    ensures DigitsValue(Pad(n, width)) == n
  {
    var s := NatToString(n);
    DigitsValueOfNatToString(n);
    var p := Pad(n, width);
    if |s| < width {
      var k: nat := width - |s|;
      assert p == Zeros(k) + s;
      ZerosPrefixValue(k, s);
      assert DigitsValue(p) == DigitsValue(s);
    } else {
      assert p == s;
    }
  }
}
