/** The two free helper functions at the end of dashboard.js: the HTML
    escaper used when interpolating user text into markup, and the
    24-hour to 12-hour time formatter. */
module DashboardFormat {
  import opened Base
  import opened Text

  // ---------------------------------------------------------------------
  // escapeHtml
  // ---------------------------------------------------------------------

  /** `s.replace(/c/g, rep)`: every occurrence of the character `c` is replaced by `rep`. */
  function ReplaceAll(s: string, c: char, rep: string): string
    decreases |s|
  {
    if s == [] then [] else (if s[0] == c then rep else [s[0]]) + ReplaceAll(s[1..], c, rep)
  }

  lemma {:induction false} ReplaceAllAppend(a: string, b: string, c: char, rep: string)
    ensures ReplaceAll(a + b, c, rep) == ReplaceAll(a, c, rep) + ReplaceAll(b, c, rep)
    decreases |a|
  {
    if a == [] {
      assert a + b == b;
    } else {
      assert (a + b)[1..] == a[1..] + b;
      ReplaceAllAppend(a[1..], b, c, rep);
    }
  }

  /** Replacing a character that does not occur changes nothing. */
  lemma {:induction false} ReplaceAllAbsent(s: string, c: char, rep: string)
    requires c !in s
    ensures ReplaceAll(s, c, rep) == s
    decreases |s|
  {
    if s != [] {
      assert s[1..] == s[1..] && c !in s[1..];
      ReplaceAllAbsent(s[1..], c, rep);
      assert [s[0]] + s[1..] == s;
    }
  }

  /** The escaper exactly as written: five global replacements, `&` first. */
  function EscapeChain(s: string): string
  {
    ReplaceAll(ReplaceAll(ReplaceAll(ReplaceAll(ReplaceAll(s,
      '&', "&amp;"), '<', "&lt;"), '>', "&gt;"), '"', "&quot;"), '\'', "&#039;")
  }

  /** The entity that stands for one character of the input. */
  function EntityOf(c: char): string
  {
    match c
    case '&' => "&amp;"
    case '<' => "&lt;"
    case '>' => "&gt;"
    case '"' => "&quot;"
    case '\'' => "&#039;"
    case _ => [c]
  }

  /** Reference encoding: each character replaced by its entity independently. */
  function Escaped(s: string): string
    decreases |s|
  {
    if s == [] then [] else EntityOf(s[0]) + Escaped(s[1..])
  }

  lemma ReplaceAllSingle(c: char, x: char, rep: string)
    ensures ReplaceAll([c], x, rep) == if c == x then rep else [c]
  {
    assert [c][1..] == [];
  }

  /** The last four replacements leave an entity without brackets or quotes alone. */
  lemma TailReplacementsKeep(e: string)
    requires '<' !in e && '>' !in e && '"' !in e && '\'' !in e
    ensures ReplaceAll(ReplaceAll(ReplaceAll(ReplaceAll(e,
      '<', "&lt;"), '>', "&gt;"), '"', "&quot;"), '\'', "&#039;") == e
  {
    ReplaceAllAbsent(e, '<', "&lt;");
    LastReplacementsKeep(e);
  }

  /** The replacements after the one for `<` leave `&lt;` alone, and so on down the chain. */
  lemma LastReplacementsKeep(e: string)
    requires '>' !in e && '"' !in e && '\'' !in e
    ensures ReplaceAll(ReplaceAll(ReplaceAll(e, '>', "&gt;"), '"', "&quot;"), '\'', "&#039;") == e
  {
    ReplaceAllAbsent(e, '>', "&gt;");
    ReplaceAllAbsent(e, '"', "&quot;");
    ReplaceAllAbsent(e, '\'', "&#039;");
  }

  /** On one character the chain of replacements yields that character's entity. */
  lemma EscapeChainChar(c: char)
    ensures EscapeChain([c]) == EntityOf(c)
  {
    ReplaceAllSingle(c, '&', "&amp;");
    if c == '&' {
      TailReplacementsKeep("&amp;");
    } else {
      ReplaceAllSingle(c, '<', "&lt;");
      if c == '<' {
        LastReplacementsKeep("&lt;");
      } else {
        ReplaceAllSingle(c, '>', "&gt;");
        if c == '>' {
          ReplaceAllAbsent("&gt;", '"', "&quot;");
          ReplaceAllAbsent("&gt;", '\'', "&#039;");
        } else {
          ReplaceAllSingle(c, '"', "&quot;");
          if c == '"' {
            ReplaceAllAbsent("&quot;", '\'', "&#039;");
          } else {
            ReplaceAllSingle(c, '\'', "&#039;");
          }
        }
      }
    }
  }

  /** Because `&` is replaced first, the chain never re-escapes an entity it
      produced: it equals the character-by-character encoding. */
  lemma {:induction false} EscapeChainIsPerCharacter(s: string)
    ensures EscapeChain(s) == Escaped(s)
    decreases |s|
  {
    if s != [] {
      var head, tail := [s[0]], s[1..];
      assert s == head + tail;
      var a1 := ReplaceAll(head, '&', "&amp;");
      var b1 := ReplaceAll(tail, '&', "&amp;");
      ReplaceAllAppend(head, tail, '&', "&amp;");
      var a2 := ReplaceAll(a1, '<', "&lt;");
      var b2 := ReplaceAll(b1, '<', "&lt;");
      ReplaceAllAppend(a1, b1, '<', "&lt;");
      var a3 := ReplaceAll(a2, '>', "&gt;");
      var b3 := ReplaceAll(b2, '>', "&gt;");
      ReplaceAllAppend(a2, b2, '>', "&gt;");
      var a4 := ReplaceAll(a3, '"', "&quot;");
      var b4 := ReplaceAll(b3, '"', "&quot;");
      ReplaceAllAppend(a3, b3, '"', "&quot;");
      ReplaceAllAppend(a4, b4, '\'', "&#039;");
      assert EscapeChain(s) == EscapeChain(head) + EscapeChain(tail);
      EscapeChainChar(s[0]);
      EscapeChainIsPerCharacter(tail);
    }
  }

  /** `escapeHtml(str)`: `null`/`undefined` (here `None`) give the empty string. */
  function EscapeHtml(str: Option<string>): (r: string)
    ensures str.None? ==> r == ""
    ensures str.Some? ==> r == Escaped(str.value)
  {
    match str
    case None => ""
    case Some(s) => EscapeChainIsPerCharacter(s); EscapeChain(s)
  }

  predicate IsMarkupChar(c: char)
  {
    c == '<' || c == '>' || c == '"' || c == '\''
  }

  predicate IsSpecialChar(c: char)
  {
    c == '&' || IsMarkupChar(c)
  }

  /** No angle bracket or quote survives escaping. */
  lemma {:induction false} EscapedHasNoMarkup(s: string)
    ensures forall i :: 0 <= i < |Escaped(s)| ==> !IsMarkupChar(Escaped(s)[i])
    decreases |s|
  {
    if s != [] {
      EscapedHasNoMarkup(s[1..]);
      var e := EntityOf(s[0]);
      assert forall i :: 0 <= i < |e| ==> !IsMarkupChar(e[i]);
      assert Escaped(s) == e + Escaped(s[1..]);
    }
  }

  /** Text with none of the five special characters is returned unchanged. */
  lemma {:induction false} EscapedPlainText(s: string)
    requires forall i :: 0 <= i < |s| ==> !IsSpecialChar(s[i])
    ensures Escaped(s) == s
    decreases |s|
  {
    if s != [] {
      EscapedPlainText(s[1..]);
      assert [s[0]] + s[1..] == s;
    }
  }

  /** Decoding of the five entities (the inverse of the escaper). */
  function Unescape(s: string): string
    decreases |s|
  {
    if s == [] then []
    else if |s| >= 5 && s[..5] == "&amp;" then "&" + Unescape(s[5..])
    else if |s| >= 4 && s[..4] == "&lt;" then "<" + Unescape(s[4..])
    else if |s| >= 4 && s[..4] == "&gt;" then ">" + Unescape(s[4..])
    else if |s| >= 6 && s[..6] == "&quot;" then "\"" + Unescape(s[6..])
    else if |s| >= 6 && s[..6] == "&#039;" then "'" + Unescape(s[6..])
    else [s[0]] + Unescape(s[1..])
  }

  /** Text that does not start with `&` decodes its first character as itself. */
  lemma UnescapePlainHead(s: string)
    requires s != [] && s[0] != '&'
    ensures Unescape(s) == [s[0]] + Unescape(s[1..])
  {
    if |s| >= 4 { assert s[..4][0] == s[0]; }
    if |s| >= 5 { assert s[..5][0] == s[0]; }
    if |s| >= 6 { assert s[..6][0] == s[0]; }
  }

  /** Decoding an entity followed by more text yields its character first. */
  lemma UnescapeEntity(c: char, rest: string)
    ensures Unescape(EntityOf(c) + rest) == [c] + Unescape(rest)
  {
    var ent := EntityOf(c);
    var e := ent + rest;
    assert e[..|ent|] == ent;
    assert e[|ent|..] == rest;
    if c == '&' {
      assert e[..5] == "&amp;";
    } else if c == '<' {
      assert e[1] == 'l';
      if |e| >= 5 { assert e[..5][1] == 'l'; }
    } else if c == '>' {
      assert e[1] == 'g';
      if |e| >= 5 { assert e[..5][1] == 'g'; }
      assert e[..4][1] == 'g';
    } else if c == '"' {
      assert e[1] == 'q';
      assert e[..5][1] == 'q' && e[..4][1] == 'q';
    } else if c == '\'' {
      assert e[1] == '#';
      assert e[..5][1] == '#' && e[..4][1] == '#' && e[..6][1] == '#';
    } else {
      assert ent == [c];
      UnescapePlainHead(e);
    }
  }

  /** Decoding the escaped text gives back the original. */
  lemma {:induction false} UnescapeEscaped(s: string)
    ensures Unescape(Escaped(s)) == s
    decreases |s|
  {
    if s != [] {
      UnescapeEntity(s[0], Escaped(s[1..]));
      UnescapeEscaped(s[1..]);
      assert [s[0]] + s[1..] == s;
    }
  }

  /** Hence escaping is injective: different texts never render alike. */
  lemma EscapeHtmlInjective(a: string, b: string)
    requires EscapeHtml(Some(a)) == EscapeHtml(Some(b))
    ensures a == b
  {
    UnescapeEscaped(a);
    UnescapeEscaped(b);
  }

  // ---------------------------------------------------------------------
  // formatTimeDisplay
  // ---------------------------------------------------------------------

  const AmSuffix: string := "ص"
  const PmSuffix: string := "م"

  /** The first field of `s.split(':')`: the text before the first colon. */
  function UpToColon(s: string): (r: string)
    ensures ':' !in r && |r| <= |s| && r == s[..|r|]
    ensures |r| < |s| ==> s[|r|] == ':'
    decreases |s|
  {
    if s == [] || s[0] == ':' then [] else [s[0]] + UpToColon(s[1..])
  }

  /** The first two fields of `time.split(':')`; a missing second field is `undefined`. */
  function HourField(time: string): string
  {
    UpToColon(time)
  }

  function MinuteField(time: string): Option<string>
  {
    var h := UpToColon(time);
    if |h| < |time| then Some(UpToColon(time[|h| + 1..])) else None
  }

  /** `%` in JavaScript truncates toward zero: the remainder takes the sign of the dividend. */
  function JsRem(a: int, b: int): (r: int)
    requires b > 0
    ensures a >= 0 ==> r == a % b
    ensures a < 0 ==> r == -((-a) % b)
  {
    if a >= 0 then a % b else -((-a) % b)
  }

  /** `hour % 12 === 0 ? 12 : hour % 12`. */
  function DisplayHour(hour: int): (d: int)
    ensures hour >= 0 ==> 1 <= d <= 12
    ensures hour >= 0 ==> d % 12 == hour % 12
    ensures hour % 12 == 0 <==> d == 12
  {
    var r := JsRem(hour, 12);
    if r == 0 then 12 else r
  }

  /** `hour >= 12 ? 'م' : 'ص'`; `NaN >= 12` is false. */
  function Suffix(hour: Option<int>): (s: string)
    ensures s == PmSuffix <==> hour.Some? && hour.value >= 12
    ensures s == AmSuffix || s == PmSuffix
  {
    if hour.Some? && hour.value >= 12 then PmSuffix else AmSuffix
  }

  /** The displayed text for an already parsed hour (`None` for `NaN`) and
      minute text. With an hour the text opens with its 12-hour display, which
      reads back with `parseInt`; without one it opens with `NaN`. It always
      ends with a space and the evening mark exactly when the hour is at
      least 12. */
  function TimeText(hour: Option<int>, minuteText: string): (r: string)
    ensures hour.Some? ==> ParseInt(r) == Some(DisplayHour(hour.value))
    ensures hour.None? ==> |r| >= 3 && r[..3] == "NaN"
    ensures |r| >= 2 && r[|r| - 2] == ' '
    ensures r[|r| - 1..] == PmSuffix <==> hour.Some? && hour.value >= 12
  {
    var rest := ":" + minuteText + " " + Suffix(hour);
    if hour.Some? then
      ParseIntOfIntString(DisplayHour(hour.value), rest);
      IntString(DisplayHour(hour.value)) + rest
    else
      "NaN" + rest
  }

  /** `formatTimeDisplay(time)`: the hour field through `parseInt` (an hour
      field without leading digits parses to `NaN`), the minute field as it
      stands (`undefined` when the time has no colon). */
  function FormatTimeDisplay(time: string): (r: string)
    ensures var hour := ParseInt(HourField(time));
      hour.Some? ==> ParseInt(r) == Some(DisplayHour(hour.value))
    ensures ParseInt(HourField(time)).None? ==> |r| >= 3 && r[..3] == "NaN"
    ensures |r| >= 2 && r[|r| - 2] == ' '
    ensures var hour := ParseInt(HourField(time));
      r[|r| - 1..] == PmSuffix <==> hour.Some? && hour.value >= 12
  {
    TimeText(ParseInt(HourField(time)), MinuteText(time))
  }

  /** The minute text: the second field, or `undefined` when there is none. */
  function MinuteText(time: string): string
  {
    if MinuteField(time).Some? then MinuteField(time).value else "undefined"
  }

  /** Reading a 12-hour display back into a 24-hour hour. */
  function To24(display: int, suffix: string): int
  {
    display % 12 + (if suffix == PmSuffix then 12 else 0)
  }

  /** For every hour of the day the 12-hour display loses nothing: the suffix
      and the display hour together give the hour back. */
  lemma TwelveHourRoundTrip(hour: int)
    requires 0 <= hour < 24
    ensures To24(DisplayHour(hour), Suffix(Some(hour))) == hour
  {
  }

  /** On a clock time `hh:mm` (an hour made of digits, a minute field without
      a colon) the formatter shows the 12-hour form of the hour, the minute
      text exactly as given, and the suffix of the right half of the day. */
  lemma FormatClockTime(hh: string, mm: string)
    requires hh != [] && AllDigits(hh)
    requires ':' !in mm
    ensures var h := DigitsValue(hh);
      FormatTimeDisplay(hh + ":" + mm)
        == Decimal(DisplayHour(h)) + ":" + mm + " " + (if h >= 12 then PmSuffix else AmSuffix)
  {
    var time := hh + ":" + mm;
    assert HourField(time) == hh by {
      assert forall i :: 0 <= i < |hh| ==> hh[i] != ':';
      UpToColonOf(hh, ":" + mm);
      assert time == hh + (":" + mm);
    }
    assert MinuteText(time) == mm by {
      assert time[|hh| + 1..] == mm;
      UpToColonOf(mm, []);
      assert mm + [] == mm;
    }
    assert ParseInt(hh) == Some(DigitsValue(hh)) by {
      DigitRunOfDigitsThen(hh, []);
      assert hh + [] == hh;
      assert !(hh[0] == '-' || hh[0] == '+');
    }
    var h := DigitsValue(hh);
    assert FormatTimeDisplay(time) == TimeText(Some(h), mm);
    TimeTextOfHour(h, mm);
  }

  /** With a non-negative hour the text is the plain decimal display hour,
      the minute text and the suffix. */
  lemma TimeTextOfHour(h: nat, minuteText: string)
    ensures TimeText(Some(h), minuteText)
      == Decimal(DisplayHour(h)) + ":" + minuteText + " " + (if h >= 12 then PmSuffix else AmSuffix)
  {
  }

  /** The first field of a colon-free text followed by a colon (or nothing). */
  lemma {:induction false} UpToColonOf(a: string, rest: string)
    requires forall i :: 0 <= i < |a| ==> a[i] != ':'
    requires rest == [] || rest[0] == ':'
    ensures UpToColon(a + rest) == a
    decreases |a|
  {
    if a == [] {
      assert a + rest == rest;
    } else {
      assert (a + rest)[1..] == a[1..] + rest;
      UpToColonOf(a[1..], rest);
    }
  }
}
