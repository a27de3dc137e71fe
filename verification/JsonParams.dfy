/**
 Cutting the "params" value out of a request: the scanner as written, and for
 exactly which objects it cuts where the object ends.
 */
module JsonParams {
  import opened KeyTypes
  import opened JsonText

  datatype Params = Malformed | Missing | Slice(start: nat, len: nat)

  /** A quote ends the string unless the character before it is a backslash. */
  function LooseEnd(s: string, i: nat): (r: nat)
    requires 0 < i <= |s|
    ensures i <= r <= |s|
    decreases |s| - i
  {
    if i < |s| && (s[i] != QUOTE || s[i - 1] == BACKSLASH) then LooseEnd(s, i + 1) else i
  }

  /** Past the closing quote, if there is one. */
  function Behind(s: string, q: nat): nat {
    if q < |s| then q + 1 else q
  }

  function DepthAfter(depth: nat, c: char): nat {
    if c == '{' then depth + 1 else if c == '}' && depth > 0 then depth - 1 else depth
  }

  /** Where the scan of an object ends: depth zero, or the end of the text. */
  function ObjectEnd(s: string, i: nat, depth: nat): (r: nat)
    requires 0 < i <= |s|
    ensures i <= r <= |s|
    decreases |s| - i
  {
    if i == |s| || depth == 0 then i
    else if s[i] == QUOTE then ObjectEnd(s, Behind(s, LooseEnd(s, i + 1)), depth)
    else ObjectEnd(s, i + 1, DepthAfter(depth, s[i]))
  }

  function ScalarEnd(s: string, i: nat): (r: nat)
    requires i <= |s|
    ensures i <= r <= |s|
    decreases |s| - i
  {
    if i < |s| && s[i] != ',' && s[i] != '}' then ScalarEnd(s, i + 1) else i
  }

  const PARAMS := "\"params\""

  /** An object, or anything else. */
  function ValueEnd(s: string, v: nat): (r: nat)
    requires v <= |s|
    ensures v <= r <= |s|
  {
    if v < |s| && s[v] == '{' then ObjectEnd(s, v + 1, 1) else ScalarEnd(s, v)
  }

  function ExtractParams(json: string): Params {
    match Find(json, PARAMS, 0)
    case None => Missing
    case Some(at) =>
      match ValueStart(json, at + |PARAMS|)
      case None => Malformed
      case Some(v) =>
        Slice(v, ValueEnd(json, v) - v)
  }

  // ---- the objects ----

  /** JSON text as the scanner should see it: braces, strings, anything else. */
  datatype Piece = Open | Close | Other(c: char) | Str(body: string)

  predicate Legal(p: Piece) {
    match p
    case Other(c) => c != QUOTE && c != '{' && c != '}' && c != BACKSLASH
    case Str(body) => Body(body)
    case _ => true
  }

  ghost predicate AllLegal(ps: seq<Piece>) {
    forall i :: 0 <= i < |ps| ==> Legal(ps[i])
  }

  function PieceText(p: Piece): string {
    match p
    case Open => "{"
    case Close => "}"
    case Other(c) => [c]
    case Str(body) => [QUOTE] + body + [QUOTE]
  }

  function Text(ps: seq<Piece>): string {
    if ps == [] then "" else PieceText(ps[0]) + Text(ps[1..])
  }

  function PieceDepth(depth: nat, p: Piece): nat {
    match p
    case Open => depth + 1
    case Close => if depth > 0 then depth - 1 else 0
    case _ => depth
  }

  /** From this depth the pieces close the object with their last one and not before. */
  predicate Closes(ps: seq<Piece>, depth: nat) {
    if ps == [] then depth == 0 else depth > 0 && Closes(ps[1..], PieceDepth(depth, ps[0]))
  }

  /** The body does not end in a backslash. */
  predicate CleanBody(body: string) {
    body == "" || body[|body| - 1] != BACKSLASH
  }

  ghost predicate AllClean(ps: seq<Piece>) {
    forall i :: 0 <= i < |ps| ==> (ps[i].Str? ==> CleanBody(ps[i].body))
  }

  ghost predicate NoQuotesInside(ps: seq<Piece>) {
    forall i :: 0 <= i < |ps| ==> (ps[i].Str? ==> forall k :: 0 <= k < |ps[i].body| ==> ps[i].body[k] != QUOTE)
  }

  lemma AtChar(s: string, pattern: string, i: nat, k: nat)
    requires At(s, pattern, i)
    ensures i + |pattern| <= |s| && (k < |pattern| ==> i + k < |s| && s[i + k] == pattern[k])
  {
    if k < |pattern| {
      assert s[i..i + |pattern|][k] == pattern[k];
    }
  }

  lemma AtSplit(s: string, a: string, b: string, i: nat)
    requires At(s, a + b, i)
    ensures At(s, a, i) && At(s, b, i + |a|)
  {
    assert s[i..i + |a|] == s[i..i + |a + b|][..|a|];
    assert s[i + |a|..i + |a| + |b|] == s[i..i + |a + b|][|a|..];
  }

  // ---- inside one string ----

  /** In a body, a quote is always behind a backslash. */
  lemma {:induction false} QuotesAreEscaped(b: string, escaped: bool, k: nat)
    requires BodyFrom(b, escaped) && k < |b| && b[k] == QUOTE
    ensures if k == 0 then escaped else b[k - 1] == BACKSLASH
  {
    if k > 0 {
      QuotesAreEscaped(b[1..], b[0] == BACKSLASH && !escaped, k - 1);
    }
  }

  lemma {:induction false} LooseSkips(s: string, i: nat, j: nat)
    requires 0 < i <= j <= |s| && forall k :: i <= k < j ==> s[k] != QUOTE || s[k - 1] == BACKSLASH
    ensures LooseEnd(s, i) == LooseEnd(s, j)
    decreases j - i
  {
    if i < j {
      LooseSkips(s, i + 1, j);
    }
  }

  /** The scan reaches the closing quote of a well-formed body; it stops there exactly when the
      body does not end in a backslash. */
  lemma LooseEndAtBody(s: string, i: nat, b: string)
    requires 0 < i <= |s| && Body(b) && s[i - 1] == QUOTE && At(s, b + [QUOTE], i)
    ensures LooseEnd(s, i) == if CleanBody(b) then i + |b| else LooseEnd(s, i + |b| + 1)
  {
    var all := b + [QUOTE];
    forall k: nat | k < |all| ensures s[i + k] == all[k] { AtChar(s, all, i, k); }
    forall k | i <= k < i + |b| ensures s[k] != QUOTE || s[k - 1] == BACKSLASH {
      assert s[i + (k - i)] == all[k - i];
      if s[k] == QUOTE {
        QuotesAreEscaped(b, false, k - i);
        assert s[i + (k - i - 1)] == all[k - i - 1];
      }
    }
    LooseSkips(s, i, i + |b|);
    assert s[i + |b|] == QUOTE;
    if b != "" {
      assert s[i + (|b| - 1)] == all[|b| - 1];
    }
  }

  // ---- a whole object ----

  /** One piece at the front of the rest. */
  lemma FirstPiece(s: string, ps: seq<Piece>, i: nat)
    requires ps != [] && At(s, Text(ps), i)
    ensures At(s, PieceText(ps[0]), i) && At(s, Text(ps[1..]), i + |PieceText(ps[0])|)
    ensures i < |s| && s[i] == PieceText(ps[0])[0]
    ensures |Text(ps)| == |PieceText(ps[0])| + |Text(ps[1..])|
  {
    hide At, PieceText, Text;
    assert Text(ps) == PieceText(ps[0]) + Text(ps[1..]) && PieceText(ps[0]) != "" by { TextCons(ps); }
    AtSplit(s, PieceText(ps[0]), Text(ps[1..]), i);
    AtChar(s, PieceText(ps[0]), i, 0);
  }

  /** The text of pieces, from the front. */
  lemma TextCons(ps: seq<Piece>)
    ensures ps == [] ==> Text(ps) == ""
    ensures ps != [] ==> Text(ps) == PieceText(ps[0]) + Text(ps[1..]) && PieceText(ps[0]) != ""
    ensures ps != [] && ps[0] == Open ==> Text(ps) == ['{'] + Text(ps[1..]) && |Text(ps)| > 0
    ensures ps != [] && ps[0].Str? ==> |PieceText(ps[0])| == |ps[0].body| + 2
  {
  }

  lemma StringPiece(s: string, body: string, i: nat)
    requires At(s, PieceText(Str(body)), i)
    ensures s[i] == QUOTE && i + |body| + 1 < |s| && s[i + |body| + 1] == QUOTE && At(s, body + [QUOTE], i + 1)
  {
    var all := [QUOTE] + body + [QUOTE];
    AtChar(s, all, i, 0);
    AtChar(s, all, i, |body| + 1);
    assert all == [QUOTE] + (body + [QUOTE]);
    AtSplit(s, [QUOTE], body + [QUOTE], i);
  }

  lemma StepString(s: string, body: string, i: nat, depth: nat)
    requires i > 0 && depth > 0 && Body(body) && CleanBody(body) && At(s, PieceText(Str(body)), i)
    ensures i + |body| + 2 <= |s| && ObjectEnd(s, i, depth) == ObjectEnd(s, i + |body| + 2, depth)
  {
    hide LooseEnd, BodyFrom, At, CleanBody;
    StringPiece(s, body, i);
    LooseEndAtBody(s, i + 1, body);
  }

  lemma StepChar(s: string, p: Piece, i: nat, depth: nat)
    requires 0 < i < |s| && depth > 0 && Legal(p) && !p.Str? && s[i] == PieceText(p)[0]
    ensures ObjectEnd(s, i, depth) == ObjectEnd(s, i + 1, PieceDepth(depth, p)) && |PieceText(p)| == 1
  {
  }

  /** One step over a piece, in step with the text. */
  lemma StepPiece(s: string, ps: seq<Piece>, i: nat, depth: nat)
    requires i > 0 && ps != [] && depth > 0 && Legal(ps[0]) && At(s, Text(ps), i)
    requires ps[0].Str? ==> CleanBody(ps[0].body)
    ensures var n := |PieceText(ps[0])|;
            i + n <= |s| && ObjectEnd(s, i, depth) == ObjectEnd(s, i + n, PieceDepth(depth, ps[0]))
  {
    hide ObjectEnd, BodyFrom, At, Text, CleanBody;
    FirstPiece(s, ps, i);
    if ps[0].Str? {
      StepString(s, ps[0].body, i, depth);
    } else {
      StepChar(s, ps[0], i, depth);
    }
  }

  /** If no string body ends in a backslash, the scan ends exactly where the object does, at any
      nesting depth and whatever the strings contain. */
  lemma {:induction false} ScansObject(s: string, ps: seq<Piece>, i: nat, depth: nat)
    requires i > 0 && AllLegal(ps) && AllClean(ps) && Closes(ps, depth) && At(s, Text(ps), i)
    ensures ObjectEnd(s, i, depth) == i + |Text(ps)|
    decreases |ps|
  {
    hide ObjectEnd, Legal, CleanBody, At, Text, PieceText;
    AtChar(s, Text(ps), i, 0);
    TextCons([]);
    if ps == [] {
      assert ObjectEnd(s, i, 0) == i by { EndsAtZero(s, i); }
    } else {
      FirstPiece(s, ps, i);
      StepPiece(s, ps, i, depth);
      ScansObject(s, ps[1..], i + |PieceText(ps[0])|, PieceDepth(depth, ps[0]));
    }
  }

  lemma EndsAtZero(s: string, i: nat)
    requires 0 < i <= |s|
    ensures ObjectEnd(s, i, 0) == i
  {
  }

  // ---- out of step ----

  /** Where an object scan ends that is inside what it takes for a string. */
  function EndInString(s: string, i: nat, depth: nat): nat
    requires 0 < i <= |s|
  {
    ObjectEnd(s, Behind(s, LooseEnd(s, i)), depth)
  }

  /** Text without quotes, scanned as structure: the object ends inside it or the scan gets through. */
  lemma {:induction false} ThroughText(s: string, i: nat, j: nat, depth: nat)
    requires 0 < i <= j < |s| && depth > 0 && forall k :: i <= k < j ==> s[k] != QUOTE
    ensures ObjectEnd(s, i, depth) <= j || exists d: nat :: d > 0 && ObjectEnd(s, i, depth) == ObjectEnd(s, j, d)
    decreases j - i
  {
    if i < j {
      var d := DepthAfter(depth, s[i]);
      if d == 0 {
        EndsAtZero(s, i + 1);
      } else {
        ThroughText(s, i + 1, j, d);
      }
    }
  }

  /** The scan ends where it would end from inside a string at j, at some depth. */
  ghost predicate OnFrom(s: string, end: nat, j: nat) {
    0 < j <= |s| && exists d: nat :: d > 0 && end == EndInString(s, j, d)
  }

  lemma IsOnFrom(s: string, j: nat, d: nat)
    requires 0 < j <= |s| && d > 0
    ensures OnFrom(s, EndInString(s, j, d), j)
  {
    hide EndInString;
  }

  /** A string seen from outside in: its body is scanned as structure, its quotes the wrong way round. */
  lemma MirroredString(s: string, i: nat, body: string, depth: nat)
    requires 0 < i && depth > 0 && At(s, PieceText(Str(body)), i) && s[i - 1] != BACKSLASH
    requires forall k :: 0 <= k < |body| ==> body[k] != QUOTE
    ensures var j := i + |body| + 2;
            j <= |s| && (EndInString(s, i, depth) < j || OnFrom(s, EndInString(s, i, depth), j))
  {
    hide ObjectEnd, At, OnFrom;
    StringPiece(s, body, i);
    assert LooseEnd(s, i) == i && EndInString(s, i, depth) == ObjectEnd(s, i + 1, depth);
    var j := i + 1 + |body|;
    forall k | i + 1 <= k < j ensures s[k] != QUOTE {
      AtChar(s, body + [QUOTE], i + 1, k - i - 1);
    }
    ThroughText(s, i + 1, j, depth);
    if ObjectEnd(s, i + 1, depth) > j {
      var d: nat :| d > 0 && ObjectEnd(s, i + 1, depth) == ObjectEnd(s, j, d);
      InsideString(s, j, d);
      IsOnFrom(s, j + 1, d);
    }
  }

  /** Once out of step, a scan of quote-free strings never ends where the object does. */
  lemma {:induction false} NeverInStep(s: string, ps: seq<Piece>, i: nat, depth: nat)
    requires i > 0 && depth > 0 && AllLegal(ps) && NoQuotesInside(ps) && At(s, Text(ps), i)
    requires i + |Text(ps)| < |s| && s[i - 1] != BACKSLASH
    ensures EndInString(s, i, depth) != i + |Text(ps)|
    decreases |ps|
  {
    hide ObjectEnd, EndInString, Legal, At, Text, PieceText;
    TextCons([]);
    if ps == [] {
      assert EndInString(s, i, depth) > i by { InsideString(s, i, depth); }
    } else {
      FirstPiece(s, ps, i);
      if ps[0].Str? {
        MirroredString(s, i, ps[0].body, depth);
        StringPiece(s, ps[0].body, i);
        var n := |ps[0].body| + 2;
        assert |PieceText(ps[0])| == n by { TextCons(ps); }
        if EndInString(s, i, depth) >= i + n {
          var d: nat :| d > 0 && EndInString(s, i, depth) == EndInString(s, i + n, d);
          NeverInStep(s, ps[1..], i + n, d);
        }
      } else {
        LegalChar(ps[0]);
        InsideString(s, i, depth);
        NeverInStep(s, ps[1..], i + 1, depth);
      }
    }
  }

  lemma LegalChar(p: Piece)
    requires Legal(p) && !p.Str?
    ensures PieceText(p)[0] != QUOTE && PieceText(p)[0] != BACKSLASH && |PieceText(p)| == 1
  {
  }

  lemma InsideString(s: string, i: nat, depth: nat)
    requires 0 < i < |s|
    ensures EndInString(s, i, depth) > i
    ensures s[i] == QUOTE && depth > 0 ==> ObjectEnd(s, i, depth) == EndInString(s, i + 1, depth)
    ensures s[i] != QUOTE ==> EndInString(s, i, depth) == EndInString(s, i + 1, depth)
  {
  }

  /** With quote-free strings and some text behind the object: the scan ends where the object does
      if and only if no string body ends in a backslash. */
  lemma {:induction false} ScansExactly(s: string, ps: seq<Piece>, i: nat, depth: nat)
    requires i > 0 && AllLegal(ps) && NoQuotesInside(ps) && Closes(ps, depth) && At(s, Text(ps), i)
    requires i + |Text(ps)| < |s|
    ensures ObjectEnd(s, i, depth) == i + |Text(ps)| <==> AllClean(ps)
    decreases |ps|
  {
    hide ObjectEnd, EndInString, Legal, CleanBody, At, Text, PieceText;
    AtChar(s, Text(ps), i, 0);
    TextCons([]);
    if ps == [] {
      EndsAtZero(s, i);
    } else {
      FirstPiece(s, ps, i);
      CleanTail(ps);
      if ps[0].Str? && !CleanBody(ps[0].body) {
        OutOfStep(s, ps, i, depth);
      } else {
        StepPiece(s, ps, i, depth);
        ScansExactly(s, ps[1..], i + |PieceText(ps[0])|, PieceDepth(depth, ps[0]));
      }
    }
  }

  /** A body ending in a backslash throws the scan out of step for good. */
  lemma OutOfStep(s: string, ps: seq<Piece>, i: nat, depth: nat)
    requires i > 0 && depth > 0 && ps != [] && AllLegal(ps) && NoQuotesInside(ps) && At(s, Text(ps), i)
    requires i + |Text(ps)| < |s| && ps[0].Str? && !CleanBody(ps[0].body)
    ensures ObjectEnd(s, i, depth) != i + |Text(ps)|
  {
    hide ObjectEnd, EndInString, BodyFrom, CleanBody, At, Text, PieceText;
    var body := ps[0].body;
    FirstPiece(s, ps, i);
    StringPiece(s, body, i);
    TextCons(ps);
    InsideString(s, i, depth);
    assert Legal(ps[0]);
    Overruns(s, i + 1, body, depth);
    NeverInStep(s, ps[1..], i + |body| + 2, depth);
  }

  lemma CleanTail(ps: seq<Piece>)
    requires ps != []
    ensures AllClean(ps) <==> (ps[0].Str? ==> CleanBody(ps[0].body)) && AllClean(ps[1..])
  {
    hide CleanBody;
    if AllClean(ps[1..]) && (ps[0].Str? ==> CleanBody(ps[0].body)) {
      forall i | 0 <= i < |ps| ensures ps[i].Str? ==> CleanBody(ps[i].body) {
        assert i > 0 ==> ps[i] == ps[1..][i - 1];
      }
    }
  }

  lemma Overruns(s: string, i: nat, b: string, depth: nat)
    requires 0 < i <= |s| && s[i - 1] == QUOTE && Legal(Str(b)) && !CleanBody(b) && At(s, b + [QUOTE], i)
    ensures i + |b| + 1 <= |s| && EndInString(s, i, depth) == EndInString(s, i + |b| + 1, depth)
  {
    hide ObjectEnd;
    LooseEndAtBody(s, i, b);
  }

  // ---- a whole request ----

  function Request(pre: string, ws1: string, ws2: string, ps: seq<Piece>, tail: string): string {
    pre + PARAMS + ws1 + ":" + ws2 + Text(ps) + tail
  }

  lemma RequestParts(pre: string, ws1: string, ws2: string, ps: seq<Piece>, tail: string)
    requires ps != [] && ps[0] == Open
    ensures var json := Request(pre, ws1, ws2, ps, tail);
            var behind := |pre| + |PARAMS|;
            var v := behind + |ws1| + 1 + |ws2|;
            && At(json, ws1 + [':'] + ws2 + ['{'], behind) && At(json, Text(ps), v)
            && |json| == v + |Text(ps)| + |tail|
  {
    hide Text;
    var json := Request(pre, ws1, ws2, ps, tail);
    var lead := ws1 + [':'] + ws2;
    assert Text(ps) == ['{'] + Text(ps[1..]) by { TextCons(ps); }
    assert json == (pre + PARAMS) + (lead + ['{']) + (Text(ps[1..]) + tail);
    AtPart(pre + PARAMS, lead + ['{'], Text(ps[1..]) + tail);
    assert json == (pre + PARAMS + lead) + Text(ps) + tail;
    AtPart(pre + PARAMS + lead, Text(ps), tail);
  }

  /** The scan of a request, down to the scan of its object. */
  lemma FindsObject(pre: string, ws1: string, ws2: string, ps: seq<Piece>, tail: string)
    requires ps != [] && ps[0] == Open && Spaces(ws1) && Spaces(ws2)
    requires Find(Request(pre, ws1, ws2, ps, tail), PARAMS, 0) == Some(|pre|)
    ensures var json := Request(pre, ws1, ws2, ps, tail);
            var v := |pre| + |PARAMS| + |ws1| + 1 + |ws2|;
            && v < |json| && At(json, Text(ps[1..]), v + 1) && |Text(ps)| == 1 + |Text(ps[1..])|
            && |json| == v + |Text(ps)| + |tail|
            && ExtractParams(json) == Slice(v, ObjectEnd(json, v + 1, 1) - v)
  {
    hide Find, ValueStart, ObjectEnd, ScalarEnd, Text, Request;
    var json := Request(pre, ws1, ws2, ps, tail);
    var v := |pre| + |PARAMS| + |ws1| + 1 + |ws2|;
    RequestParts(pre, ws1, ws2, ps, tail);
    FindsValue(json, |pre| + |PARAMS|, ws1, ws2, '{');
    TextCons(ps);
    AtSplit(json, ['{'], Text(ps[1..]), v);
    AtChar(json, ['{'], v, 0);
  }

  /** The slice is exactly the object, at any depth, when no string body ends in a backslash. */
  lemma ExtractsObject(pre: string, ws1: string, ws2: string, ps: seq<Piece>, tail: string)
    requires ps != [] && ps[0] == Open && Spaces(ws1) && Spaces(ws2)
    requires Find(Request(pre, ws1, ws2, ps, tail), PARAMS, 0) == Some(|pre|)
    requires AllLegal(ps) && Closes(ps[1..], 1) && AllClean(ps)
    ensures ExtractParams(Request(pre, ws1, ws2, ps, tail)) ==
            Slice(|pre| + |PARAMS| + |ws1| + 1 + |ws2|, |Text(ps)|)
  {
    hide Find, ValueStart, ObjectEnd, Text, Request, ExtractParams;
    FindsObject(pre, ws1, ws2, ps, tail);
    ScansObject(Request(pre, ws1, ws2, ps, tail), ps[1..], |pre| + |PARAMS| + |ws1| + 1 + |ws2| + 1, 1);
  }

  /** With quote-free strings and text behind the object, that condition is exact. */
  lemma ExtractsObjectExactly(pre: string, ws1: string, ws2: string, ps: seq<Piece>, tail: string)
    requires ps != [] && ps[0] == Open && Spaces(ws1) && Spaces(ws2) && tail != ""
    requires Find(Request(pre, ws1, ws2, ps, tail), PARAMS, 0) == Some(|pre|)
    requires AllLegal(ps) && NoQuotesInside(ps) && Closes(ps[1..], 1)
    ensures ExtractParams(Request(pre, ws1, ws2, ps, tail)) ==
              Slice(|pre| + |PARAMS| + |ws1| + 1 + |ws2|, |Text(ps)|)
            <==> AllClean(ps)
  {
    hide Find, ValueStart, ObjectEnd, Text, Request, ExtractParams;
    FindsObject(pre, ws1, ws2, ps, tail);
    CleanTail(ps);
    ScansExactly(Request(pre, ws1, ws2, ps, tail), ps[1..], |pre| + |PARAMS| + |ws1| + 1 + |ws2| + 1, 1);
  }

  // ---- requests without an object ----

  lemma ParamsPattern()
    ensures PARAMS == Pattern("params") == "\"" + "params" + "\"" && |PARAMS| == 8
  {
  }

  /** There are no params exactly when the name occurs nowhere. */
  lemma ParamsMissing(json: string)
    ensures ExtractParams(json) == Missing <==> FirstAt(json, "params", |json|)
  {
    ParamsPattern();
    match Find(json, PARAMS, 0)
    case Some(at) => FoundFirst(json, "params");
    case None =>
      forall k: nat | k < |json| ensures !Named(json, "params", k) {
        assert !At(json, PARAMS, k);
      }
  }

  /** A first occurrence that no colon follows is malformed. */
  lemma ParamsMalformed(json: string, pre: string, ws: string, rest: string)
    requires json == pre + "\"params\"" + ws + rest && FirstAt(json, "params", |pre|)
    requires Spaces(ws) && NotNext(rest, ':')
    ensures ExtractParams(json) == Malformed
  {
    ParamsPattern();
    hide Find, ValueStart, FirstAt, Pattern, Spaces, NotNext;
    ColonMissing(json, pre, "params", ws, rest);
  }

  /** The first comma or closing brace is where the rest starts, if there is one. */
  predicate EndsBefore(scalar: string, rest: string) {
    && (forall k :: 0 <= k < |scalar| ==> scalar[k] != ',' && scalar[k] != '}')
    && (rest == "" || rest[0] == ',' || rest[0] == '}')
  }

  lemma {:induction false} ScalarEndAt(s: string, i: nat, scalar: string, rest: string)
    requires i <= |s| && s[i..] == scalar + rest
    requires EndsBefore(scalar, rest)
    ensures ScalarEnd(s, i) == i + |scalar|
    decreases |scalar|
  {
    if scalar == "" {
      assert i < |s| ==> s[i] == s[i..][0];
    } else {
      assert s[i] == s[i..][0] && s[i + 1..] == s[i..][1..] == scalar[1..] + rest;
      ScalarEndAt(s, i + 1, scalar[1..], rest);
    }
  }

  /** Where the value starts, and that the slice starts there. */
  lemma SliceAt(json: string, pre: string, key: string, ws1: string, ws2: string, value: string)
    requires PARAMS == Pattern(key) && json == Member(pre, key, ws1, ws2, value) && FirstAt(json, key, |pre|)
    requires Spaces(ws1) && Spaces(ws2) && (value == "" || !Spaces(value[..1]))
    ensures var v := |pre| + |PARAMS| + |ws1| + 1 + |ws2|;
            v <= |json| && json[v..] == value && ExtractParams(json) == Slice(v, ValueEnd(json, v) - v)
  {
    hide Find, ValueStart, FirstAt, Pattern, Spaces, Member, ValueEnd;
    ValueFound(json, pre, key, ws1, ws2, value);
  }

  /** A value that does not open an object ends before the first comma or closing brace, or with the text. */
  lemma ParamsScalar(json: string, pre: string, ws1: string, ws2: string, scalar: string, rest: string)
    requires json == Member(pre, "params", ws1, ws2, scalar + rest) && FirstAt(json, "params", |pre|)
    requires Spaces(ws1) && Spaces(ws2) && NotNext(scalar + rest, '{') && EndsBefore(scalar, rest)
    ensures ExtractParams(json) == Slice(|pre| + 8 + |ws1| + 1 + |ws2|, |scalar|)
  {
    hide ExtractParams, FirstAt, Pattern, Spaces, Member, ValueEnd, EndsBefore;
    ParamsPattern();
    SliceAt(json, pre, "params", ws1, ws2, scalar + rest);
    ScalarValue(json, |pre| + 8 + |ws1| + 1 + |ws2|, scalar, rest);
  }

  lemma ScalarValue(s: string, v: nat, scalar: string, rest: string)
    requires v <= |s| && s[v..] == scalar + rest && EndsBefore(scalar, rest) && NotNext(scalar + rest, '{')
    ensures ValueEnd(s, v) == v + |scalar|
  {
    hide ObjectEnd, ScalarEnd, EndsBefore, Spaces;
    assert v < |s| ==> s[v] == s[v..][0];
    ScalarEndAt(s, v, scalar, rest);
  }
}
