/** The datetime check shared by the task-tool argument records
    (models/agents.py:46-58 and its copy in
    services/intent_orchestrator/agent_office_automation.py:64-75): `re.match`
    of `^\d{4}-\d{2}-\d{2}T\d{2}:\d{2}:\d{2}(?:\.\d+)?(?:Z|[+\-]\d{2}:\d{2})$`.
    Only the digit counts are checked, never the ranges. `\d` is taken as the
    ASCII digits; `$` also matches before one final newline, as in Python. */
module Iso8601 {
  import opened Base
  import opened Text

  const Iso8601Error := "must be an ISO 8601 datetime string, e.g., 2025-08-16T14:30:00Z"

  // ---- the pattern ------------------------------------------------------

  /** `n` digits starting at `i`. */
  predicate DigitsAt(s: string, i: nat, n: nat) {
    i + n <= |s| && forall k :: i <= k < i + n ==> IsDigit(s[k])
  }

  /** `\d{4}-\d{2}-\d{2}T\d{2}:\d{2}:\d{2}` on exactly 19 characters. */
  predicate IsHead(h: string) {
    |h| == 19 &&
    DigitsAt(h, 0, 4) && h[4] == '-' && DigitsAt(h, 5, 2) && h[7] == '-' && DigitsAt(h, 8, 2) &&
    h[10] == 'T' && DigitsAt(h, 11, 2) && h[13] == ':' && DigitsAt(h, 14, 2) && h[16] == ':' && DigitsAt(h, 17, 2)
  }

  /** `(?:\.\d+)?`: nothing, or a dot and at least one digit. */
  predicate IsFraction(f: string) {
    f == "" || (|f| >= 2 && f[0] == '.' && AllDigits(f[1..]))
  }

  /** `[+\-]\d{2}:\d{2}`. */
  predicate IsOffset(z: string) {
    |z| == 6 && (z[0] == '+' || z[0] == '-') && IsDigit(z[1]) && IsDigit(z[2]) && z[3] == ':' &&
    IsDigit(z[4]) && IsDigit(z[5])
  }

  /** The optional fraction followed by `Z` or an offset, up to the end. A
      zone is one character (`Z`) or six (an offset), so the split is fixed
      by the last character. */
  predicate IsTail(t: string) {
    (|t| >= 1 && t[|t| - 1] == 'Z' && IsFraction(t[..|t| - 1])) ||
    (|t| >= 6 && IsOffset(t[|t| - 6..]) && IsFraction(t[..|t| - 6]))
  }

  predicate FullMatch(s: string) {
    |s| >= 19 && IsHead(s[..19]) && IsTail(s[19..])
  }

  /** What the validator accepts: the pattern, optionally followed by one
      newline (where `$` also matches). */
  predicate IsIso8601(s: string) {
    FullMatch(s) || (|s| >= 1 && s[|s| - 1] == '\n' && FullMatch(s[..|s| - 1]))
  }

  /** `_validate_iso8601`: `None` passes through, an accepted string is
      returned unchanged, anything else raises. */
  function ValidateIso8601(v: Option<string>): (r: Result<Option<string>>)
    ensures v.None? ==> r == Ok(None)
    ensures v.Some? ==> (r.Ok? <==> IsIso8601(v.value))
    ensures r.Ok? ==> r.value == v
    ensures r.Err? ==> r.msg == Iso8601Error
  {
    if v.None? then Ok(v)
    else if IsIso8601(v.value) then Ok(v)
    else Err(Iso8601Error)
  }

  // ---- what the pattern describes ---------------------------------------

  datatype Zone = Utc | Offset(negative: bool, hours: nat, minutes: nat)

  /** A datetime as the pattern spells it; `fraction` holds the digits after
      the dot, empty when there is no fractional part. */
  datatype Stamp = Stamp(
    year: nat, month: nat, day: nat, hour: nat, minute: nat, second: nat, fraction: string, zone: Zone)

  /** Every field fits its digit count. No range is implied: month 13 is
      well formed. */
  predicate WellFormed(t: Stamp) {
    t.year < 10000 && t.month < 100 && t.day < 100 && t.hour < 100 && t.minute < 100 && t.second < 100 &&
    AllDigits(t.fraction) &&
    (t.zone.Offset? ==> t.zone.hours < 100 && t.zone.minutes < 100)
  }

  function FormatHead(t: Stamp): (r: string)
    requires WellFormed(t)
    ensures |r| == 19
  {
    Pad(t.year, 4) + "-" + Pad(t.month, 2) + "-" + Pad(t.day, 2) + "T" +
    Pad(t.hour, 2) + ":" + Pad(t.minute, 2) + ":" + Pad(t.second, 2)
  }

  function FormatFraction(fraction: string): string {
    if fraction == "" then "" else "." + fraction
  }

  function FormatZone(z: Zone): (r: string)
    requires z.Offset? ==> z.hours < 100 && z.minutes < 100
    ensures |r| == (if z.Utc? then 1 else 6)
  {
    match z
    case Utc => "Z"
    case Offset(negative, h, m) => (if negative then "-" else "+") + Pad(h, 2) + ":" + Pad(m, 2)
  }

  /** The canonical spelling of a stamp. */
  function Format(t: Stamp): string
    requires WellFormed(t)
  {
    FormatHead(t) + FormatFraction(t.fraction) + FormatZone(t.zone)
  }

  /** The value of the `n` digits at `i`. */
  function Num(s: string, i: nat, n: nat): nat
    requires DigitsAt(s, i, n)
  {
    DigitsValue(s[i..i + n])
  }

  function ParseZone(z: string): Zone
    requires z == "Z" || IsOffset(z)
  {
    if z == "Z" then Utc else Offset(z[0] == '-', Num(z, 1, 2), Num(z, 4, 2))
  }

  /** The length of the zone designator that ends an accepted tail. */
  function ZoneLength(t: string): (n: nat)
    requires IsTail(t)
    ensures n <= |t| && IsFraction(t[..|t| - n])
    ensures t[|t| - n..] == "Z" || IsOffset(t[|t| - n..])
  {
    if t[|t| - 1] == 'Z' then
      assert t[|t| - 1..] == "Z";
      1
    else 6
  }

  /** Reads an accepted string (without a trailing newline) back into its
      fields. */
  function Parse(s: string): (r: Option<Stamp>)
    ensures r.Some? <==> FullMatch(s)
  {
    if !FullMatch(s) then None
    else
      var h := s[..19];
      var t := s[19..];
      var n := ZoneLength(t);
      var f := t[..|t| - n];
      Some(Stamp(Num(h, 0, 4), Num(h, 5, 2), Num(h, 8, 2), Num(h, 11, 2), Num(h, 14, 2), Num(h, 17, 2),
                 if f == "" then "" else f[1..], ParseZone(t[|t| - n..])))
  }

  // ---- round trip -------------------------------------------------------

  lemma PadSlice(s: string, i: nat, n: nat, v: nat)
    requires 1 <= n && v < Pow10(n)
    requires i + n <= |s| && s[i..i + n] == Pad(v, n)
    ensures DigitsAt(s, i, n) && Num(s, i, n) == v
  {
    PadValue(v, n);
    forall k | i <= k < i + n ensures IsDigit(s[k]) {
      assert s[k] == s[i..i + n][k - i];
    }
  }

  lemma SliceOf(a: string, b: string, c: string)
    ensures (a + b + c)[|a|..|a| + |b|] == b
  {
  }

  /** Where each field and separator sits in the spelled head. */
  lemma HeadSlices(t: Stamp)
    requires WellFormed(t)
    ensures FormatHead(t)[0..4] == Pad(t.year, 4) && FormatHead(t)[5..7] == Pad(t.month, 2)
    ensures FormatHead(t)[8..10] == Pad(t.day, 2) && FormatHead(t)[11..13] == Pad(t.hour, 2)
    ensures FormatHead(t)[14..16] == Pad(t.minute, 2) && FormatHead(t)[17..19] == Pad(t.second, 2)
    ensures FormatHead(t)[4] == '-' && FormatHead(t)[7] == '-' && FormatHead(t)[10] == 'T'
    ensures FormatHead(t)[13] == ':' && FormatHead(t)[16] == ':'
  {
    assert Pow10(2) == 100 && Pow10(4) == 10000;
    var y, mo, d := Pad(t.year, 4), Pad(t.month, 2), Pad(t.day, 2);
    var hh, mi, se := Pad(t.hour, 2), Pad(t.minute, 2), Pad(t.second, 2);
    var h := FormatHead(t);
    var p1 := y + "-";
    var p2 := p1 + mo + "-";
    var p3 := p2 + d + "T";
    var p4 := p3 + hh + ":";
    var p5 := p4 + mi + ":";
    assert |p1| == 5 && |p2| == 8 && |p3| == 11 && |p4| == 14 && |p5| == 17;
    assert h == p5 + se;
    assert h[17..19] == se;
    assert h[..17] == p5;
    assert p5[..14] == p4 && p5[14..16] == mi && p5[16] == ':';
    assert p4[..11] == p3 && p4[11..13] == hh && p4[13] == ':';
    assert p3[..8] == p2 && p3[8..10] == d && p3[10] == 'T';
    assert p2[..5] == p1 && p2[5..7] == mo && p2[7] == '-';
    assert p1[..4] == y && p1[4] == '-';
  }

  lemma {:induction false} HeadRoundTrip(t: Stamp)
    requires WellFormed(t)
    ensures IsHead(FormatHead(t))
    ensures Num(FormatHead(t), 0, 4) == t.year && Num(FormatHead(t), 5, 2) == t.month
    ensures Num(FormatHead(t), 8, 2) == t.day && Num(FormatHead(t), 11, 2) == t.hour
    ensures Num(FormatHead(t), 14, 2) == t.minute && Num(FormatHead(t), 17, 2) == t.second
  {
    assert Pow10(2) == 100 && Pow10(4) == 10000;
    var h := FormatHead(t);
    HeadSlices(t);
    PadSlice(h, 0, 4, t.year);
    PadSlice(h, 5, 2, t.month);
    PadSlice(h, 8, 2, t.day);
    PadSlice(h, 11, 2, t.hour);
    PadSlice(h, 14, 2, t.minute);
    PadSlice(h, 17, 2, t.second);
  }

  lemma {:induction false} ZoneRoundTrip(z: Zone)
    requires z.Offset? ==> z.hours < 100 && z.minutes < 100
    ensures FormatZone(z) == "Z" || IsOffset(FormatZone(z))
    ensures z.Utc? <==> FormatZone(z)[|FormatZone(z)| - 1] == 'Z'
    ensures ParseZone(FormatZone(z)) == z
  {
    if z.Offset? {
      var s := FormatZone(z);
      assert Pow10(2) == 100;
      assert s[1..3] == Pad(z.hours, 2);
      assert s[4..6] == Pad(z.minutes, 2);
      PadSlice(s, 1, 2, z.hours);
      PadSlice(s, 4, 2, z.minutes);
      assert IsDigit(s[5]);
    }
  }

  /** Every well-formed stamp's spelling is accepted. */
  lemma FormatAccepted(t: Stamp)
    requires WellFormed(t)
    ensures IsIso8601(Format(t))
  {
    FormatParse(t);
  }

  /** A fraction followed by a zone designator is a tail, split at the
      designator. */
  lemma TailSplit(f: string, z: string)
    requires IsFraction(f) && (z == "Z" || IsOffset(z))
    ensures IsTail(f + z)
    ensures ZoneLength(f + z) == |z|
    ensures (f + z)[..|f + z| - |z|] == f && (f + z)[|f + z| - |z|..] == z
  {
    var t := f + z;
    assert t[|t| - |z|..] == z;
    assert t[..|t| - |z|] == f;
    if z == "Z" {
      assert t[|t| - 1] == 'Z';
    } else {
      assert t[|t| - 1] == z[5];
      assert IsDigit(z[5]);
    }
  }

  lemma FractionAccepted(fraction: string)
    requires AllDigits(fraction)
    ensures IsFraction(FormatFraction(fraction))
    ensures var f := FormatFraction(fraction); (if f == "" then "" else f[1..]) == fraction
  {
    if fraction != "" {
      assert FormatFraction(fraction)[1..] == fraction;
    }
  }

  /** A head, a fraction and a zone designator in a row are accepted and
      read back field by field. */
  lemma ParseParts(s: string, h: string, f: string, z: string)
    requires s == h + f + z && IsHead(h) && IsFraction(f) && (z == "Z" || IsOffset(z))
    ensures FullMatch(s)
    ensures Parse(s) == Some(Stamp(Num(h, 0, 4), Num(h, 5, 2), Num(h, 8, 2), Num(h, 11, 2), Num(h, 14, 2),
                                   Num(h, 17, 2), if f == "" then "" else f[1..], ParseZone(z)))
  {
    Split(s, h, f, z);
    TailSplit(f, z);
  }

  lemma Split(s: string, h: string, f: string, z: string)
    requires s == h + f + z && |h| == 19
    ensures |s| >= 19 && s[..19] == h && s[19..] == f + z
  {
    assert s == h + (f + z);
  }

  /** Reading a spelled stamp gives the stamp back. */
  lemma FormatParse(t: Stamp)
    requires WellFormed(t)
    ensures FullMatch(Format(t))
    ensures Parse(Format(t)) == Some(t)
  {
    var h, f, z := FormatHead(t), FormatFraction(t.fraction), FormatZone(t.zone);
    HeadRoundTrip(t);
    ZoneRoundTrip(t.zone);
    FractionAccepted(t.fraction);
    ParseParts(Format(t), h, f, z);
  }

  // ---- examples ---------------------------------------------------------

  /** The documented examples are accepted. */
  lemma UtcExampleAccepted()
    ensures IsIso8601("2025-08-16T14:30:00Z")
  {
    var s := "2025-08-16T14:30:00Z";
    assert s[..19] == "2025-08-16T14:30:00";
    assert IsHead(s[..19]);
    assert s[19..] == "Z";
  }

  lemma OffsetExampleAccepted()
    ensures IsIso8601("2025-08-16T14:30:00+00:00")
  {
    var s := "2025-08-16T14:30:00+00:00";
    assert s[..19] == "2025-08-16T14:30:00";
    var t := s[19..];
    assert t == "+00:00";
    assert t[|t| - 6..] == t && t[..|t| - 6] == "";
  }

  lemma FractionExampleAccepted()
    ensures IsIso8601("2025-08-16T14:30:00.123-05:30")
  {
    var s := "2025-08-16T14:30:00.123-05:30";
    assert s[..19] == "2025-08-16T14:30:00";
    var t := s[19..];
    assert t == ".123-05:30";
    assert t[|t| - 6..] == "-05:30" && t[..|t| - 6] == ".123";
    assert IsFraction(".123") by {
      assert ".123"[1..] == "123";
    }
  }

  /** Only digit counts are checked: month 13, day 45 and hour 25 pass. */
  lemma OutOfRangeAccepted()
    ensures IsIso8601("2025-13-45T25:61:61Z")
  {
    var s := "2025-13-45T25:61:61Z";
    assert s[..19] == "2025-13-45T25:61:61";
    assert IsHead(s[..19]);
    assert s[19..] == "Z";
  }

  /** A datetime without a zone designator is rejected. */
  lemma MissingZoneRejected()
    ensures !IsIso8601("2025-08-16T14:30:00")
  {
    var s := "2025-08-16T14:30:00";
    assert s[19..] == "";
    assert s[|s| - 1] != '\n';
  }

  /** A dot without fraction digits is rejected. */
  lemma BareDotRejected()
    ensures !IsIso8601("2025-08-16T14:30:00.Z")
  {
    var s := "2025-08-16T14:30:00.Z";
    var t := s[19..];
    assert t == ".Z";
    assert t[..|t| - 1] == ".";
  }

  /** A date alone is rejected. */
  lemma DateOnlyRejected()
    ensures !IsIso8601("2025-08-16")
  {
  }

  /** `$` matches before a final newline, so the value is accepted and
      returned with its newline. */
  lemma TrailingNewlineAccepted()
    ensures ValidateIso8601(Some("2025-08-16T14:30:00Z\n")) == Ok(Some("2025-08-16T14:30:00Z\n"))
  {
    UtcExampleAccepted();
    var s := "2025-08-16T14:30:00Z\n";
    assert s[..|s| - 1] == "2025-08-16T14:30:00Z";
  }
}
