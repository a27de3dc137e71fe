/**
 Reading and writing the IPC's JSON text: what the builder writes, what the
 hand-written scanners find in it, and when the two agree.
 */
module JsonText {
  import opened KeyTypes

  const QUOTE: char := '\"'
  const BACKSLASH: char := '\\'

  // ---- writing ----

  function HexDigit(n: nat): char
    requires n < 16
  {
    "0123456789abcdef"[n]
  }

  /** The text of one character inside a JSON string. */
  function EscapeChar(c: char): string {
    if c == QUOTE then [BACKSLASH, QUOTE]
    else if c == BACKSLASH then [BACKSLASH, BACKSLASH]
    else if c == 8 as char then [BACKSLASH, 'b']
    else if c == 12 as char then [BACKSLASH, 'f']
    else if c == '\n' then [BACKSLASH, 'n']
    else if c == '\r' then [BACKSLASH, 'r']
    else if c == '\t' then [BACKSLASH, 't']
    else if c as int < 0x20 then [BACKSLASH, 'u', '0', '0', HexDigit(c as int / 16), HexDigit(c as int % 16)]
    else [c]
  }

  function Escape(s: string): string {
    if s == "" then "" else EscapeChar(s[0]) + Escape(s[1..])
  }

  function Quoted(s: string): string {
    [QUOTE] + Escape(s) + [QUOTE]
  }

  // ---- reading back ----

  function HexValue(c: char): Option<nat> {
    if '0' <= c <= '9' then Some(c as int - '0' as int)
    else if 'a' <= c <= 'f' then Some(c as int - 'a' as int + 10)
    else None
  }

  /** The two-character escapes of section 7 of RFC 8259 that the builder uses. */
  function Simple(c: char): Option<char> {
    if c == QUOTE || c == BACKSLASH then Some(c)
    else if c == 'b' then Some(8 as char)
    else if c == 'f' then Some(12 as char)
    else if c == 'n' then Some('\n')
    else if c == 'r' then Some('\r')
    else if c == 't' then Some('\t')
    else None
  }

  /** First character that a JSON string body stands for, and how much text it takes. */
  function UnescapeFirst(e: string): Option<(char, nat)>
    requires e != ""
  {
    if e[0] != BACKSLASH then Some((e[0], 1))
    else if |e| < 2 then None
    else if e[1] != 'u' then
      match Simple(e[1])
      case None => None
      case Some(c) => Some((c, 2))
    else if |e| < 6 || e[2] != '0' || e[3] != '0' then None
    else
      match (HexValue(e[4]), HexValue(e[5]))
      case (Some(a), Some(b)) => Some(((16 * a + b) as char, 6))
      case _ => None
  }

  function Unescape(e: string): Option<string>
    decreases |e|
  {
    if e == "" then Some("")
    else
      match UnescapeFirst(e)
      case None => None
      case Some((c, n)) =>
        if n > |e| || n == 0 then None
        else
          match Unescape(e[n..])
          case None => None
          case Some(rest) => Some([c] + rest)
  }

  lemma HexRound(n: nat)
    requires n < 16
    ensures HexValue(HexDigit(n)) == Some(n)
  {
  }

  lemma UnescapeChar(c: char, tail: string)
    ensures EscapeChar(c) != "" && UnescapeFirst(EscapeChar(c) + tail) == Some((c, |EscapeChar(c)|))
  {
    if |EscapeChar(c)| == 6 {
      HexRound(c as int / 16);
      HexRound(c as int % 16);
      assert c as int == 16 * (c as int / 16) + c as int % 16;
    }
  }

  /** Writing then reading a JSON string gives the string back. */
  lemma {:induction false} UnescapeEscape(s: string)
    ensures Unescape(Escape(s)) == Some(s)
  {
    if s != "" {
      hide EscapeChar, UnescapeFirst;
      UnescapeEscape(s[1..]);
      UnescapeChar(s[0], Escape(s[1..]));
      var e := Escape(s);
      assert e[|EscapeChar(s[0])|..] == Escape(s[1..]);
      assert [s[0]] + s[1..] == s;
    }
  }

  /** Distinct strings are written differently. */
  lemma EscapeInjective(s: string, t: string)
    requires Escape(s) == Escape(t)
    ensures s == t
  {
    UnescapeEscape(s);
    UnescapeEscape(t);
  }

  /** No control character is ever written as it is. */
  lemma {:induction false} EscapePrintable(s: string)
    ensures forall i :: 0 <= i < |Escape(s)| ==> Escape(s)[i] as int >= 0x20
  {
    if s != "" {
      EscapePrintable(s[1..]);
      EscapeCharPrintable(s[0]);
    }
  }

  lemma EscapeCharPrintable(c: char)
    ensures forall i :: 0 <= i < |EscapeChar(c)| ==> EscapeChar(c)[i] as int >= 0x20
    ensures EscapeChar(8 as char) == "\\b" && EscapeChar(9 as char) == "\\t" && EscapeChar(10 as char) == "\\n"
    ensures EscapeChar(12 as char) == "\\f" && EscapeChar(13 as char) == "\\r" && EscapeChar(31 as char) == "\\u001f"
  {
    assert "0123456789abcdef"[1] == '1' && "0123456789abcdef"[15] == 'f';
  }

  predicate NeedsNoEscape(s: string) {
    forall i :: 0 <= i < |s| ==> s[i] != QUOTE && s[i] != BACKSLASH && s[i] as int >= 0x20
  }

  lemma {:induction false} EscapePlain(s: string)
    requires NeedsNoEscape(s)
    ensures Escape(s) == s
  {
    if s != "" {
      EscapePlain(s[1..]);
      assert [s[0]] + s[1..] == s;
    }
  }

  // ---- string bodies ----

  /** A string body: each quote in it is escaped, and it does not end inside an escape. */
  predicate BodyFrom(b: string, escaped: bool) {
    if b == "" then !escaped
    else (b[0] == QUOTE ==> escaped) && BodyFrom(b[1..], b[0] == BACKSLASH && !escaped)
  }

  predicate Body(b: string) { BodyFrom(b, false) }

  lemma EscapeCharBody(c: char, tail: string)
    requires BodyFrom(tail, false)
    ensures BodyFrom(EscapeChar(c) + tail, false)
  {
    var e := EscapeChar(c);
    var all := e + tail;
    if |e| == 1 {
      assert all[1..] == tail;
    } else if |e| == 2 {
      assert all[1..][1..] == tail;
    } else {
      assert all[1..][1..][1..][1..][1..][1..] == tail;
      assert BodyFrom(all[1..][1..][1..][1..][1..], false);
      assert BodyFrom(all[1..][1..], false);
    }
  }

  /** The builder writes well-formed bodies. */
  lemma {:induction false} EscapeIsBody(s: string)
    ensures Body(Escape(s))
  {
    if s != "" {
      EscapeIsBody(s[1..]);
      EscapeCharBody(s[0], Escape(s[1..]));
    }
  }

  // ---- scanners ----

  predicate IsSpace(c: char) {
    c == ' ' || 9 <= c as int <= 13
  }

  function SkipSpace(s: string, i: nat): (r: nat)
    requires i <= |s|
    ensures i <= r <= |s|
    decreases |s| - i
  {
    if i < |s| && IsSpace(s[i]) then SkipSpace(s, i + 1) else i
  }

  lemma {:induction false} SkipsSpaces(s: string, i: nat, j: nat)
    requires i <= j <= |s| && (j < |s| ==> !IsSpace(s[j])) && forall k :: i <= k < j ==> IsSpace(s[k])
    ensures SkipSpace(s, i) == j
    decreases j - i
  {
    if i < j {
      SkipsSpaces(s, i + 1, j);
    }
  }

  predicate At(s: string, pattern: string, i: nat) {
    i + |pattern| <= |s| && s[i..i + |pattern|] == pattern
  }

  /** strstr: the first occurrence. */
  function Find(s: string, pattern: string, from: nat): (r: Option<nat>)
    requires from <= |s|
    ensures r.Some? ==> from <= r.value && At(s, pattern, r.value) && r.value + |pattern| <= |s|
    ensures forall k :: from <= k < (if r.Some? then r.value else |s| + 1) ==> !At(s, pattern, k)
    decreases |s| - from
  {
    if At(s, pattern, from) then Some(from)
    else if from == |s| then None
    else Find(s, pattern, from + 1)
  }

  /** First unescaped quote from i on, or the end of the text. */
  function StringEnd(s: string, i: nat, escaped: bool): (r: nat)
    requires i <= |s|
    ensures i <= r <= |s|
    decreases |s| - i
  {
    if i < |s| && (s[i] != QUOTE || escaped) then StringEnd(s, i + 1, s[i] == BACKSLASH && !escaped) else i
  }

  /** The scan of a string stops right behind its body. */
  lemma {:induction false} StringEndAtBody(s: string, i: nat, b: string, escaped: bool)
    requires BodyFrom(b, escaped) && At(s, b + [QUOTE], i)
    ensures StringEnd(s, i, escaped) == i + |b|
    decreases |b|
  {
    var all := b + [QUOTE];
    assert s[i] == all[0];
    if b != "" {
      assert all[1..] == b[1..] + [QUOTE];
      assert s[i + 1..i + 1 + |b|] == s[i..i + 1 + |b|][1..];
      StringEndAtBody(s, i + 1, b[1..], b[0] == BACKSLASH && !escaped);
    }
  }

  /** Where a member's value starts: behind the name, a colon and any white space. */
  function ValueStart(s: string, behindName: nat): (r: Option<nat>)
    requires behindName <= |s|
    ensures r.Some? ==> r.value <= |s|
  {
    var colon := SkipSpace(s, behindName);
    if colon < |s| && s[colon] == ':' then Some(SkipSpace(s, colon + 1)) else None
  }

  const MAX_KEY: nat := 100

  function Pattern(key: string): string { [QUOTE] + key + [QUOTE] }

  function ExtractString(json: string, key: string): Option<string> {
    if |key| > MAX_KEY then None
    else
      match Find(json, Pattern(key), 0)
      case None => None
      case Some(at) =>
        match ValueStart(json, at + |Pattern(key)|)
        case None => None
        case Some(v) =>
          if v < |json| && json[v] == QUOTE then
            var end := StringEnd(json, v + 1, false);
            if end < |json| then Some(json[v + 1..end]) else None
          else None
  }

  /** White space: the blank and the control characters 9 to 13. */
  predicate Spaces(s: string) {
    forall i :: 0 <= i < |s| ==>
      s[i] in [' ', '\t', '\n', 11 as char, 12 as char, '\r']
  }

  /** A value behind a name, a colon and white space is found where it starts. */
  lemma FindsValue(s: string, behind: nat, ws1: string, ws2: string, c: char)
    requires Spaces(ws1) && Spaces(ws2) && !IsSpace(c) && At(s, ws1 + [':'] + ws2 + [c], behind)
    ensures behind <= |s| && ValueStart(s, behind) == Some(behind + |ws1| + 1 + |ws2|)
  {
    var all := ws1 + [':'] + ws2 + [c];
    forall k | 0 <= k < |all| ensures s[behind + k] == all[k] {
      assert s[behind..behind + |all|][k] == all[k];
    }
    var colon := behind + |ws1|;
    assert all[|ws1|] == ':';
    forall k | behind <= k < colon ensures IsSpace(s[k]) {
      assert s[behind + (k - behind)] == all[k - behind] == ws1[k - behind];
    }
    SkipsSpaces(s, behind, colon);
    var v := colon + 1 + |ws2|;
    assert all[|ws1| + 1 + |ws2|] == c && s[v] == c;
    forall k | colon + 1 <= k < v ensures IsSpace(s[k]) {
      assert s[behind + (k - behind)] == all[k - behind] == ws2[k - colon - 1];
    }
    SkipsSpaces(s, colon + 1, v);
  }

  lemma AtPart(a: string, b: string, c: string)
    ensures At(a + b + c, b, |a|)
  {
    assert (a + b + c)[|a|..|a| + |b|] == b;
  }

  /** The text with its member: what stands before it, the quoted name, white space, a colon, white space,
      the value and what follows. */
  function Member(pre: string, key: string, ws1: string, ws2: string, value: string): string {
    pre + ("\"" + key + "\"") + ws1 + ":" + ws2 + value
  }

  /** The quoted name stands at this place of the text. */
  predicate Named(json: string, key: string, k: nat) {
    k + |key| + 2 <= |json| && json[k..k + |key| + 2] == "\"" + key + "\""
  }

  ghost predicate FirstAt(json: string, key: string, n: nat) {
    forall k: nat :: k < n ==> !Named(json, key, k)
  }

  /** The text reads as some text without the quoted name, the name, a colon and a closed string. */
  ghost predicate Reads(json: string, pre: string, key: string, ws1: string, ws2: string, body: string, tail: string) {
    && json == Member(pre, key, ws1, ws2, "\"" + body + "\"" + tail)
    && FirstAt(json, key, |pre|) && Spaces(ws1) && Spaces(ws2) && Body(body)
  }

  /** What follows is neither white space nor this character. */
  predicate NotNext(rest: string, c: char) {
    rest == "" || (rest[0] != c && !Spaces(rest[..1]))
  }

  lemma NamedStarts(json: string, key: string, k: nat)
    requires Named(json, key, k)
    ensures k < |json| && json[k] == QUOTE && (key != "" ==> k + 1 < |json| && json[k + 1] == key[0])
  {
    assert json[k] == json[k..k + |key| + 2][0];
    assert key != "" ==> json[k + 1] == json[k..k + |key| + 2][1];
  }

  lemma {:induction false} SkippedSpaces(s: string, i: nat)
    requires i <= |s|
    ensures Spaces(s[i..SkipSpace(s, i)])
    ensures SkipSpace(s, i) < |s| ==> !IsSpace(s[SkipSpace(s, i)])
    decreases |s| - i
  {
    if i < |s| && IsSpace(s[i]) {
      SkippedSpaces(s, i + 1);
      assert s[i..SkipSpace(s, i)] == [s[i]] + s[i + 1..SkipSpace(s, i)];
    }
  }

  lemma {:induction false} StringEndBody(s: string, i: nat, escaped: bool)
    requires i <= |s| && StringEnd(s, i, escaped) < |s|
    ensures var end := StringEnd(s, i, escaped); s[end] == QUOTE && BodyFrom(s[i..end], escaped)
    decreases |s| - i
  {
    if s[i] != QUOTE || escaped {
      var end := StringEnd(s, i, escaped);
      StringEndBody(s, i + 1, s[i] == BACKSLASH && !escaped);
      assert s[i..end][0] == s[i] && s[i..end][1..] == s[i + 1..end];
    }
  }

  lemma SpacesSkipped(s: string, i: nat, ws: string, rest: string)
    requires i <= |s| && s[i..] == ws + rest && Spaces(ws) && (rest == "" || !Spaces(rest[..1]))
    ensures SkipSpace(s, i) == i + |ws| <= |s| && s[i + |ws|..] == rest
  {
    forall k | i <= k < i + |ws| ensures IsSpace(s[k]) {
      assert s[k] == s[i..][k - i] == ws[k - i];
    }
    assert s[i + |ws|..] == s[i..][|ws|..];
    SkipsSpaces(s, i, i + |ws|);
  }

  /** Behind the first occurrence of the name, wherever that is. */
  lemma NameFound(json: string, pre: string, key: string, rest: string)
    requires json == pre + ("\"" + key + "\"") + rest && FirstAt(json, key, |pre|)
    ensures var behind := |pre| + |key| + 2;
            && Find(json, Pattern(key), 0) == Some(|pre|) && |Pattern(key)| == |key| + 2
            && behind <= |json| && json[behind..] == rest
  {
    assert Pattern(key) == "\"" + key + "\"";
    AtPart(pre, Pattern(key), rest);
    assert json == pre + Pattern(key) + rest;
    forall k | 0 <= k < |pre| ensures !At(json, Pattern(key), k) {
      assert !Named(json, key, k);
    }
  }

  lemma ColonStarts(rest: string)
    ensures !Spaces(([':'] + rest)[..1]) && !Spaces(([QUOTE] + rest)[..1])
  {
    assert ([':'] + rest)[..1][0] == ':' && ([QUOTE] + rest)[..1][0] == QUOTE;
  }

  /** From the name to the value. */
  lemma ValueFound(json: string, pre: string, key: string, ws1: string, ws2: string, rest: string)
    requires json == Member(pre, key, ws1, ws2, rest) && FirstAt(json, key, |pre|) && Spaces(ws1) && Spaces(ws2)
    requires rest == "" || !Spaces(rest[..1])
    ensures var behind := |pre| + |key| + 2;
            var v := behind + |ws1| + 1 + |ws2|;
            && Find(json, Pattern(key), 0) == Some(|pre|) && |Pattern(key)| == |key| + 2
            && behind <= |json| && ValueStart(json, behind) == Some(v) && v <= |json| && json[v..] == rest
  {
    hide Find, SkipSpace, FirstAt, Pattern, Spaces, IsSpace, ValueStart;
    var all := ws1 + ([':'] + (ws2 + rest));
    assert json == pre + ("\"" + key + "\"") + all;
    NameFound(json, pre, key, all);
    ColonPassed(json, |pre| + |key| + 2, ws1, ws2, rest);
  }

  lemma ColonPassed(json: string, behind: nat, ws1: string, ws2: string, rest: string)
    requires behind <= |json| && json[behind..] == ws1 + ([':'] + (ws2 + rest)) && Spaces(ws1) && Spaces(ws2)
    requires rest == "" || !Spaces(rest[..1])
    ensures var v := behind + |ws1| + 1 + |ws2|;
            ValueStart(json, behind) == Some(v) && v <= |json| && json[v..] == rest
  {
    hide SkipSpace, Spaces, IsSpace;
    var tail := [':'] + (ws2 + rest);
    ColonStarts(ws2 + rest);
    SpacesSkipped(json, behind, ws1, tail);
    var colon := behind + |ws1|;
    assert json[colon] == json[colon..][0] && json[colon + 1..] == tail[1..] == ws2 + rest;
    SpacesSkipped(json, colon + 1, ws2, rest);
  }

  lemma ReadsMember(json: string, pre: string, key: string, ws1: string, ws2: string, body: string, tail: string)
    requires |key| <= 100 && Reads(json, pre, key, ws1, ws2, body, tail)
    ensures ExtractString(json, key) == Some(body)
  {
    hide Find, ValueStart, At, FirstAt, BodyFrom, StringEnd, Pattern, Member;
    var rest := "\"" + body + "\"" + tail;
    hide Spaces;
    assert rest == [QUOTE] + (body + "\"" + tail);
    ColonStarts(body + "\"" + tail);
    ValueFound(json, pre, key, ws1, ws2, rest);
    var v := |pre| + |key| + 2 + |ws1| + 1 + |ws2|;
    assert json[v] == json[v..][0] && json[v + 1..] == rest[1..] == body + [QUOTE] + tail;
    BodyAt(json, v + 1, body, tail);
    StringEndAtBody(json, v + 1, body, false);
  }

  lemma BodyAt(json: string, i: nat, body: string, tail: string)
    requires i <= |json| && json[i..] == body + [QUOTE] + tail
    ensures At(json, body + [QUOTE], i) && i + |body| < |json| && json[i..i + |body|] == body
  {
    assert json[i..i + |body| + 1] == json[i..][..|body| + 1];
    assert json[i..i + |body|] == json[i..][..|body|];
  }

  /** Where the scanner got to, read back from what it returned. */
  lemma ReadBy(json: string, key: string)
    requires ExtractString(json, key).Some?
    ensures var body := ExtractString(json, key).value;
            |key| <= 100 && exists pre, ws1, ws2, tail :: Reads(json, pre, key, ws1, ws2, body, tail)
  {
    hide Find, SkipSpace, StringEnd, Spaces, FirstAt, BodyFrom, IsSpace, Member, Named;
    var pattern := "\"" + key + "\"";
    assert pattern == Pattern(key);
    var at := Find(json, pattern, 0).value;
    FoundFirst(json, key);
    var behind := at + |pattern|;
    var colon := SkipSpace(json, behind);
    SkippedSpaces(json, behind);
    var v := SkipSpace(json, colon + 1);
    SkippedSpaces(json, colon + 1);
    var end := StringEnd(json, v + 1, false);
    StringEndBody(json, v + 1, false);
    MemberParts(json, key, at, colon, v, end);
    assert Reads(json, json[..at], key, json[behind..colon], json[colon + 1..v], json[v + 1..end], json[end + 1..]);
  }

  lemma MemberParts(json: string, key: string, at: nat, colon: nat, v: nat, end: nat)
    requires Named(json, key, at) && at + |key| + 2 <= colon < v < end < |json|
    requires json[colon] == ':' && json[v] == QUOTE && json[end] == QUOTE
    ensures json == Member(json[..at], key, json[at + |key| + 2..colon], json[colon + 1..v],
                           "\"" + json[v + 1..end] + "\"" + json[end + 1..])
  {
    var behind := at + |key| + 2;
    assert json[end..] == "\"" + json[end + 1..];
    assert json[v..] == "\"" + json[v + 1..end] + json[end..];
    var value := "\"" + json[v + 1..end] + "\"" + json[end + 1..];
    assert json[v..] == value;
    assert json[colon..] == ":" + json[colon + 1..v] + json[v..];
    assert json == json[..at] + json[at..behind] + json[behind..colon] + json[colon..];
    var lead := json[..at] + json[at..behind] + json[behind..colon];
    assert lead + (":" + json[colon + 1..v] + value) == lead + ":" + json[colon + 1..v] + value;
  }

  lemma FoundFirst(json: string, key: string)
    requires Find(json, Pattern(key), 0).Some?
    ensures var at := Find(json, Pattern(key), 0).value; FirstAt(json, key, at) && Named(json, key, at)
  {
    assert Pattern(key) == "\"" + key + "\"";
    forall k: nat | k < Find(json, Pattern(key), 0).value ensures !Named(json, key, k) {
      assert !At(json, Pattern(key), k);
    }
  }

  /** For every text, name and body: the body is what is extracted if and only if the name has at most
      a hundred characters and its first quoted occurrence, anywhere in the text, is followed by a colon
      and a closed string with that body. In every other case nothing is. */
  lemma ExtractsExactly(json: string, key: string)
    ensures forall body :: ExtractString(json, key) == Some(body) <==>
              |key| <= 100 && exists pre, ws1, ws2, tail :: Reads(json, pre, key, ws1, ws2, body, tail)
  {
    hide ExtractString, Reads;
    forall body
      ensures ExtractString(json, key) == Some(body) <==>
                |key| <= 100 && exists pre, ws1, ws2, tail :: Reads(json, pre, key, ws1, ws2, body, tail)
    {
      if ExtractString(json, key) == Some(body) {
        ReadBy(json, key);
      }
      if |key| <= 100 && exists pre, ws1, ws2, tail :: Reads(json, pre, key, ws1, ws2, body, tail) {
        var pre, ws1, ws2, tail :| Reads(json, pre, key, ws1, ws2, body, tail);
        ReadsMember(json, pre, key, ws1, ws2, body, tail);
      }
    }
  }

  /** Nothing is extracted for a name over a hundred characters or one that does not occur. */
  lemma NameMissing(json: string, key: string)
    requires |key| > 100 || FirstAt(json, key, |json|)
    ensures ExtractString(json, key) == None
  {
    if Find(json, Pattern(key), 0).Some? {
      FoundFirst(json, key);
    }
  }

  /** Nothing is extracted if no colon follows the first occurrence of the name, if the value is no
      string, or if the string is never closed. */
  lemma ValueMissing(json: string, pre: string, key: string, ws1: string, ws2: string, rest: string)
    requires FirstAt(json, key, |pre|) && Spaces(ws1) && Spaces(ws2)
    requires || (json == pre + ("\"" + key + "\"") + ws1 + rest && NotNext(rest, ':'))
             || (json == Member(pre, key, ws1, ws2, rest) && NotNext(rest, '\"'))
             || (json == Member(pre, key, ws1, ws2, "\"" + rest) &&
                 forall k: nat :: k < |rest| && rest[k] == '\"' ==> !Body(rest[..k]))
    ensures ExtractString(json, key) == None
  {
    hide ExtractString, FirstAt, BodyFrom, Member, Spaces, NotNext;
    if json == pre + ("\"" + key + "\"") + ws1 + rest && NotNext(rest, ':') {
      NoColon(json, pre, key, ws1, rest);
    } else if json == Member(pre, key, ws1, ws2, rest) && NotNext(rest, '\"') {
      NoString(json, pre, key, ws1, ws2, rest);
    } else {
      NoClose(json, pre, key, ws1, ws2, rest);
    }
  }

  lemma NoString(json: string, pre: string, key: string, ws1: string, ws2: string, rest: string)
    requires FirstAt(json, key, |pre|) && Spaces(ws1) && Spaces(ws2)
    requires json == Member(pre, key, ws1, ws2, rest) && NotNext(rest, '\"')
    ensures ExtractString(json, key) == None
  {
    hide Find, ValueStart, FirstAt, StringEnd, Pattern, Spaces, Member;
    var v := |pre| + |key| + 2 + |ws1| + 1 + |ws2|;
    ValueFound(json, pre, key, ws1, ws2, rest);
    assert v < |json| ==> json[v] == json[v..][0];
  }

  lemma NoClose(json: string, pre: string, key: string, ws1: string, ws2: string, rest: string)
    requires FirstAt(json, key, |pre|) && Spaces(ws1) && Spaces(ws2)
    requires json == Member(pre, key, ws1, ws2, "\"" + rest)
    requires forall k: nat :: k < |rest| && rest[k] == '\"' ==> !Body(rest[..k])
    ensures ExtractString(json, key) == None
  {
    hide Find, ValueStart, FirstAt, BodyFrom, StringEnd, Pattern, Spaces, Member;
    var v := |pre| + |key| + 2 + |ws1| + 1 + |ws2|;
    ColonStarts(rest);
    ValueFound(json, pre, key, ws1, ws2, "\"" + rest);
    assert json[v + 1..] == json[v..][1..] == rest;
    Unclosed(json, v + 1, rest);
  }

  lemma Unclosed(json: string, i: nat, rest: string)
    requires i <= |json| && json[i..] == rest
    requires forall k: nat :: k < |rest| && rest[k] == '\"' ==> !Body(rest[..k])
    ensures StringEnd(json, i, false) == |json|
  {
    hide StringEnd, BodyFrom;
    var end := StringEnd(json, i, false);
    assert json[i..end] == rest[..end - i] && (end < |json| ==> json[end] == rest[end - i]);
    if end < |json| {
      StringEndBody(json, i, false);
    }
  }

  lemma NoColon(json: string, pre: string, key: string, ws1: string, rest: string)
    requires FirstAt(json, key, |pre|) && Spaces(ws1)
    requires json == pre + ("\"" + key + "\"") + ws1 + rest && NotNext(rest, ':')
    ensures ExtractString(json, key) == None
  {
    hide Find, SkipSpace, FirstAt, StringEnd, Pattern, Spaces;
    ColonMissing(json, pre, key, ws1, rest);
  }

  /** No colon behind the first occurrence of the name, so no value. */
  lemma ColonMissing(json: string, pre: string, key: string, ws: string, rest: string)
    requires FirstAt(json, key, |pre|) && Spaces(ws)
    requires json == pre + ("\"" + key + "\"") + ws + rest && NotNext(rest, ':')
    ensures var behind := |pre| + |key| + 2;
            && Find(json, Pattern(key), 0) == Some(|pre|) && |Pattern(key)| == |key| + 2
            && behind <= |json| && ValueStart(json, behind) == None
  {
    hide Find, SkipSpace, FirstAt, Pattern, Spaces;
    var name := pre + ("\"" + key + "\"");
    assert json == name + (ws + rest);
    NameFound(json, pre, key, ws + rest);
    var behind := |pre| + |key| + 2;
    SpacesSkipped(json, behind, ws, rest);
    var colon := behind + |ws|;
    assert colon < |json| ==> json[colon] == json[colon..][0];
  }

  /** The first member of an object: whatever its name, white space and well-formed body, and
      whatever follows it, extraction returns exactly the body. */
  lemma ExtractsFirst(key: string, ws1: string, ws2: string, body: string, tail: string)
    requires |key| <= 100 && Spaces(ws1) && Spaces(ws2) && Body(body)
    ensures ExtractString(Member("{", key, ws1, ws2, "\"" + body + "\"" + tail), key) == Some(body)
  {
    hide ExtractString, Spaces, BodyFrom;
    var json := Member("{", key, ws1, ws2, "\"" + body + "\"" + tail);
    if Named(json, key, 0) {
      NamedStarts(json, key, 0);
    }
    ReadsMember(json, "{", key, ws1, ws2, body, tail);
  }

  /** The documented request: its method is read, although it is the third member. */
  lemma ReadsMethod()
    ensures ExtractString("{\"jsonrpc\":\"2.0\",\"id\":1,\"method\":\"GetAll\"}", "method") == Some("GetAll")
  {
    var json := "{\"jsonrpc\":\"2.0\",\"id\":1,\"method\":\"GetAll\"}";
    var pre := "{\"jsonrpc\":\"2.0\",\"id\":1,";
    hide ExtractString;
    assert json == Member(pre, "method", "", "", "\"" + "GetAll" + "\"" + "}");
    assert |pre| == 24;
    forall k: nat | k < 24 ensures !Named(json, "method", k) {
      if Named(json, "method", k) {
        NamedStarts(json, "method", k);
      }
    }
    ReadsMember(json, pre, "method", "", "", "GetAll", "}");
  }

  /** Write then read: the object the builder writes for (key, s) gives back the escaped s, which
      stands for s. */
  lemma WriteThenRead(key: string, s: string, tail: string)
    requires |key| <= 100 && NeedsNoEscape(key)
    ensures var found := ExtractString("{" + Quoted(key) + ":" + Quoted(s) + tail, key);
            && found == Some(Escape(s)) && Unescape(found.value) == Some(s)
            && (NeedsNoEscape(s) ==> found == Some(s))
  {
    hide ExtractString, Escape, Unescape, NeedsNoEscape;
    EscapePlain(key);
    EscapeIsBody(s);
    UnescapeEscape(s);
    ExtractsFirst(key, "", "", Escape(s), tail);
    assert "{" + Quoted(key) + ":" + Quoted(s) + tail == Member("{", key, "", "", "\"" + Escape(s) + "\"" + tail);
    if NeedsNoEscape(s) {
      EscapePlain(s);
    }
  }

  /** Different strings are never confused by a reader. */
  lemma ReadsApart(key: string, s: string, t: string, tail: string, otherTail: string)
    requires |key| <= 100 && NeedsNoEscape(key) && s != t
    ensures ExtractString("{" + Quoted(key) + ":" + Quoted(s) + tail, key) !=
            ExtractString("{" + Quoted(key) + ":" + Quoted(t) + otherTail, key)
  {
    hide ExtractString, Escape, Unescape, NeedsNoEscape;
    WriteThenRead(key, s, tail);
    WriteThenRead(key, t, otherTail);
  }
}
