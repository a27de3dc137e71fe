/**
 Shortcut bindings as text: what the parser accepts, what the formatter writes,
 and that the formatter's text is the canonical form of what was parsed.
 */
module ShortcutSpec {
  import opened KeyTypes

  const MAX_TEXT: nat := 128

  datatype KeyName = KeyName(name: string, keysym: nat)

  const KEY_COUNT: nat := 24

  function Keys(): (r: seq<KeyName>)
    ensures |r| == KEY_COUNT
  {
    [
     KeyName("space", 0x20), KeyName("return", 0xff0d), KeyName("enter", 0xff0d), KeyName("tab", 0xff09),
     KeyName("escape", 0xff1b), KeyName("esc", 0xff1b), KeyName("backspace", 0xff08), KeyName("delete", 0xffff),
     KeyName("up", 0xff52), KeyName("down", 0xff54), KeyName("left", 0xff51), KeyName("right", 0xff53),
     KeyName("f1", 0xffbe), KeyName("f2", 0xffbf), KeyName("f3", 0xffc0), KeyName("f4", 0xffc1),
     KeyName("f5", 0xffc2), KeyName("f6", 0xffc3), KeyName("f7", 0xffc4), KeyName("f8", 0xffc5),
     KeyName("f9", 0xffc6), KeyName("f10", 0xffc7), KeyName("f11", 0xffc8), KeyName("f12", 0xffc9)]
  }

  function Lower(c: char): char {
    if 'A' <= c <= 'Z' then (c as int + 32) as char else c
  }

  function Upper(c: char): char {
    if 'a' <= c <= 'z' then (c as int - 32) as char else c
  }

  predicate SameNoCase(a: string, b: string) {
    |a| == |b| && forall i :: 0 <= i < |a| ==> Lower(a[i]) == Lower(b[i])
  }

  // ---- parsing ----

  /** The modifier a token names, if any. */
  function ParseModifier(token: string): Option<Mods> {
    if SameNoCase(token, "ctrl") || SameNoCase(token, "control") then Some(NO_MODS.(ctrl := true))
    else if SameNoCase(token, "shift") then Some(NO_MODS.(shift := true))
    else if SameNoCase(token, "alt") then Some(NO_MODS.(alt := true))
    else if SameNoCase(token, "super") then Some(NO_MODS.(super := true))
    else None
  }

  /** First table entry with that name, or the table's length. */
  function ByName(token: string, from: nat): (r: nat)
    requires from <= KEY_COUNT
    ensures from <= r <= KEY_COUNT && (r < KEY_COUNT ==> SameNoCase(token, Keys()[r].name))
    ensures forall i :: from <= i < r ==> !SameNoCase(token, Keys()[i].name)
    decreases KEY_COUNT - from
  {
    if from == KEY_COUNT || SameNoCase(token, Keys()[from].name) then from else ByName(token, from + 1)
  }

  /** The keysym a token names; zero if none. */
  function ParseKeysym(token: string): nat {
    var i := ByName(token, 0);
    if i < KEY_COUNT then Keys()[i].keysym
    else if |token| == 1 then
      var c := Lower(token[0]);
      if 'a' <= c <= 'z' || '0' <= c <= '9' then c as nat else 0
    else 0
  }

  function Union(a: Mods, b: Mods): Mods {
    Mods(a.shift || b.shift, a.ctrl || b.ctrl, a.alt || b.alt, a.super || b.super, a.caps || b.caps, a.num || b.num)
  }

  function TrimStart(s: string): string {
    if s != "" && s[0] == ' ' then TrimStart(s[1..]) else s
  }

  function TrimEnd(s: string): string {
    if s != "" && s[|s| - 1] == ' ' then TrimEnd(s[..|s| - 1]) else s
  }

  function Trim(s: string): string { TrimEnd(TrimStart(s)) }

  /** One token added to what was read so far; None is a parse error. */
  function AddToken(b: Binding, raw: string): Option<Binding> {
    var token := Trim(raw);
    if token == "" then Some(b)
    else
      match ParseModifier(token)
      case Some(m) => Some(b.(mods := Union(b.mods, m)))
      case None =>
        var keysym := ParseKeysym(token);
        if keysym == 0 || b.keysym != 0 then None else Some(b.(keysym := keysym))
  }

  function AddTokens(b: Binding, tokens: seq<string>): Option<Binding>
    decreases |tokens|
  {
    if tokens == [] then Some(b)
    else
      match AddToken(b, tokens[0])
      case None => None
      case Some(next) => AddTokens(next, tokens[1..])
  }

  function SkipPlus(s: string, i: nat): (r: nat)
    requires i <= |s|
    ensures i <= r <= |s|
    decreases |s| - i
  {
    if i < |s| && s[i] == '+' then SkipPlus(s, i + 1) else i
  }

  function TokenEnd(s: string, i: nat): (r: nat)
    requires i <= |s|
    ensures i <= r <= |s|
    decreases |s| - i
  {
    if i < |s| && s[i] != '+' then TokenEnd(s, i + 1) else i
  }

  /** strtok: the non-empty pieces between plus signs. */
  function Tokens(s: string, i: nat): seq<string>
    requires i <= |s|
    decreases |s| - i
  {
    var start := SkipPlus(s, i);
    if start == |s| then []
    else
      var end := TokenEnd(s, start);
      if end == start then [] else [s[start..end]] + Tokens(s, end)
  }

  const NOTHING := Binding(NO_MODS, 0)

  /** The whole parser: no text, no token, an unknown token, a second key or no modifier is an error. */
  function Parse(s: string): Option<Binding> {
    if s == "" || |s| > MAX_TEXT then None
    else
      match AddTokens(NOTHING, Tokens(s, 0))
      case None => None
      case Some(b) => if b.mods == NO_MODS then None else Some(b)
  }

  // ---- formatting ----

  /** Modifier names in the order they are written. */
  function ModNames(m: Mods): seq<string> {
    (if m.ctrl then ["Ctrl"] else []) + (if m.alt then ["Alt"] else []) +
    (if m.super then ["Super"] else []) + (if m.shift then ["Shift"] else [])
  }

  /** First table entry with that keysym, or the table's length. */
  function ByKeysym(keysym: nat, from: nat): (r: nat)
    requires from <= KEY_COUNT
    ensures from <= r <= KEY_COUNT && (r < KEY_COUNT ==> Keys()[r].keysym == keysym)
    ensures forall i :: from <= i < r ==> Keys()[i].keysym != keysym
    decreases KEY_COUNT - from
  {
    if from == KEY_COUNT || Keys()[from].keysym == keysym then from else ByKeysym(keysym, from + 1)
  }

  function Capitalized(name: string): string {
    if name == "" then "" else [Upper(name[0])] + name[1..]
  }

  function HexText(n: nat): string {
    if n < 16 then ["0123456789abcdef"[n]] else HexText(n / 16) + ["0123456789abcdef"[n % 16]]
  }

  /** The keysym has a name of its own: the formatter needs no hexadecimal fallback. */
  predicate Nameable(keysym: nat) {
    ByKeysym(keysym, 0) < KEY_COUNT || 'a' as nat <= keysym <= 'z' as nat || '0' as nat <= keysym <= '9' as nat
  }

  function KeyText(keysym: nat): string {
    var i := ByKeysym(keysym, 0);
    if i < KEY_COUNT then Capitalized(Keys()[i].name)
    else if 'a' as nat <= keysym <= 'z' as nat || '0' as nat <= keysym <= '9' as nat then [keysym as char]
    else "0x" + HexText(keysym)
  }

  function Pieces(b: Binding): seq<string> {
    ModNames(b.mods) + (if b.keysym == 0 then [] else [KeyText(b.keysym)])
  }

  function Join(pieces: seq<string>): string {
    if pieces == [] then ""
    else if |pieces| == 1 then pieces[0]
    else Join(pieces[..|pieces| - 1]) + "+" + pieces[|pieces| - 1]
  }

  function Format(b: Binding): string { Join(Pieces(b)) }

  // ---- splitting what was joined ----

  /** A piece the parser reads back as it stands: not empty, no plus, no space at its ends. */
  predicate Tight(s: string) {
    s != "" && s[0] != ' ' && s[|s| - 1] != ' ' && forall i :: 0 <= i < |s| ==> s[i] != '+'
  }

  lemma {:induction false} TokenEndsAt(s: string, i: nat, j: nat)
    requires i <= j <= |s| && (j < |s| ==> s[j] == '+') && forall k :: i <= k < j ==> s[k] != '+'
    ensures TokenEnd(s, i) == j
    decreases j - i
  {
    if i < j {
      TokenEndsAt(s, i + 1, j);
    }
  }

  /** Joined from the front: the same text. */
  lemma {:induction false} JoinFront(pieces: seq<string>)
    requires |pieces| > 1
    ensures Join(pieces) == pieces[0] + "+" + Join(pieces[1..])
  {
    var n := |pieces| - 1;
    if n == 1 {
      assert pieces[..1] == [pieces[0]] && pieces[1..] == [pieces[1]];
    } else {
      JoinFront(pieces[..n]);
      assert pieces[..n][1..] == pieces[1..][..n - 1];
      assert pieces[1..][n - 1] == pieces[n];
    }
  }

  /** One piece at i, then the end or a plus. */
  lemma FirstToken(s: string, i: nat, piece: string)
    requires Tight(piece) && i + |piece| <= |s| && s[i..i + |piece|] == piece
    requires i + |piece| < |s| ==> s[i + |piece|] == '+'
    ensures Tokens(s, i) == [piece] + Tokens(s, i + |piece|)
  {
    hide Tight;
    var j := i + |piece|;
    assert piece != "" && forall k :: 0 <= k < |piece| ==> piece[k] != '+' by { TightChars(piece); }
    forall k | i <= k < j ensures s[k] != '+' {
      assert s[i..j][k - i] == piece[k - i];
    }
    TokenEndsAt(s, i, j);
  }

  lemma TightChars(s: string)
    requires Tight(s)
    ensures s != "" && forall k :: 0 <= k < |s| ==> s[k] != '+'
  {
  }

  lemma SkipOne(s: string, i: nat)
    requires i < |s| && s[i] == '+' && (i + 1 < |s| ==> s[i + 1] != '+')
    ensures Tokens(s, i) == Tokens(s, i + 1)
  {
    assert SkipPlus(s, i + 1) == i + 1;
    assert SkipPlus(s, i) == i + 1;
  }

  /** Splitting the joined text gives the pieces back. */
  lemma {:induction false} SplitsJoin(pre: string, pieces: seq<string>)
    requires pieces != [] && forall i :: 0 <= i < |pieces| ==> Tight(pieces[i])
    ensures Tokens(pre + Join(pieces), |pre|) == pieces
    decreases |pieces|
  {
    hide Tight, Tokens, Join;
    var s := pre + Join(pieces);
    var first := pieces[0];
    assert Tight(first);
    if |pieces| == 1 {
      assert pieces == [first];
      JoinOne(first);
      LastPiece(pre, first);
    } else {
      JoinFront(pieces);
      var rest := pieces[1..];
      SplitsJoin(pre + first + "+", rest);
      JoinStarts(rest);
      FrontPiece(pre, first, Join(rest));
      assert s == pre + first + "+" + Join(rest);
      assert pieces == [first] + rest;
    }
  }

  lemma JoinOne(piece: string)
    ensures Join([piece]) == piece && Tokens(piece, |piece|) == []
  {
  }

  lemma LastPiece(pre: string, piece: string)
    requires Tight(piece)
    ensures Tokens(pre + piece, |pre|) == [piece]
  {
    hide Tight, Tokens;
    var s := pre + piece;
    assert s[|pre|..|pre| + |piece|] == piece;
    FirstToken(s, |pre|, piece);
    JoinOne(s);
  }

  lemma FrontPiece(pre: string, piece: string, rest: string)
    requires Tight(piece) && rest != "" && rest[0] != '+'
    ensures var s := pre + piece + "+" + rest;
            Tokens(s, |pre|) == [piece] + Tokens(s, |pre| + |piece| + 1)
  {
    hide Tight, Tokens;
    var s := pre + piece + "+" + rest;
    assert s[|pre|..|pre| + |piece|] == piece && s[|pre| + |piece|] == '+' && s[|pre| + |piece| + 1] == rest[0];
    FirstToken(s, |pre|, piece);
    SkipOne(s, |pre| + |piece|);
  }

  lemma {:induction false} JoinStarts(pieces: seq<string>)
    requires pieces != [] && forall i :: 0 <= i < |pieces| ==> Tight(pieces[i])
    ensures Join(pieces) != "" && Join(pieces)[0] != '+'
  {
    hide Tight;
    assert Tight(pieces[0]);
    TightChars(pieces[0]);
    if |pieces| > 1 {
      JoinFront(pieces);
    }
  }

  lemma TrimTight(s: string)
    requires Tight(s)
    ensures Trim(s) == s
  {
  }

  // ---- what a text means ----

  /** The token is this name, in any mixture of upper and lower case. */
  predicate Names(token: string, name: string) {
    && |token| == |name|
    && forall i :: 0 <= i < |token| ==>
         token[i] == name[i] || ('A' <= token[i] <= 'Z' && token[i] as int + 32 == name[i] as int)
  }

  predicate NamesModifier(token: string) {
    Names(token, "ctrl") || Names(token, "control") || Names(token, "shift") || Names(token, "alt") ||
    Names(token, "super")
  }

  ghost predicate Given(tokens: seq<string>, name: string) {
    exists i :: 0 <= i < |tokens| && Names(Trim(tokens[i]), name)
  }

  /** The bits of all the names given. */
  ghost function GivenMods(tokens: seq<string>): Mods {
    Mods(Given(tokens, "shift"), Given(tokens, "ctrl") || Given(tokens, "control"), Given(tokens, "alt"),
         Given(tokens, "super"), false, false)
  }

  /** The tokens that are no modifiers, as key symbols. */
  function KeySyms(tokens: seq<string>): seq<nat> {
    if tokens == [] then []
    else
      var token := Trim(tokens[0]);
      (if token == "" || NamesModifier(token) then [] else [ParseKeysym(token)]) + KeySyms(tokens[1..])
  }

  lemma NamesSame(token: string, name: string)
    requires forall i :: 0 <= i < |name| ==> 'a' <= name[i] <= 'z'
    ensures SameNoCase(token, name) <==> Names(token, name)
  {
    if SameNoCase(token, name) {
      forall i | 0 <= i < |token|
        ensures token[i] == name[i] || ('A' <= token[i] <= 'Z' && token[i] as int + 32 == name[i] as int)
      {
        assert Lower(token[i]) == Lower(name[i]);
      }
    }
  }

  lemma OneName(token: string)
    ensures Names(token, "ctrl") ==> |token| == 4
    ensures Names(token, "control") ==> |token| == 7
    ensures Names(token, "alt") ==> |token| == 3
    ensures Names(token, "shift") ==> |token| == 5 && token[1] in "hH"
    ensures Names(token, "super") ==> |token| == 5 && token[1] in "uU"
  {
    assert "shift"[1] == 'h' && "super"[1] == 'u';
  }

  lemma ModifierMeans(token: string)
    ensures ParseModifier(token) ==
            if NamesModifier(token) then
              Some(Mods(Names(token, "shift"), Names(token, "ctrl") || Names(token, "control"),
                        Names(token, "alt"), Names(token, "super"), false, false))
            else None
  {
    hide SameNoCase, Names;
    OneName(token);
    NamesSame(token, "ctrl");
    NamesSame(token, "control");
    NamesSame(token, "shift");
    NamesSame(token, "alt");
    NamesSame(token, "super");
  }

  lemma GivenFirst(tokens: seq<string>, name: string)
    requires tokens != []
    ensures Given(tokens, name) <==> Names(Trim(tokens[0]), name) || Given(tokens[1..], name)
  {
    hide Names, Trim;
    if Given(tokens, name) && !Names(Trim(tokens[0]), name) {
      var i :| 0 <= i < |tokens| && Names(Trim(tokens[i]), name);
      assert tokens[1..][i - 1] == tokens[i];
    }
    if Given(tokens[1..], name) {
      var i :| 0 <= i < |tokens[1..]| && Names(Trim(tokens[1..][i]), name);
      assert tokens[i + 1] == tokens[1..][i];
    }
  }

  lemma GivenModsFirst(tokens: seq<string>)
    requires tokens != []
    ensures var token := Trim(tokens[0]);
            var first := Mods(Names(token, "shift"), Names(token, "ctrl") || Names(token, "control"),
                              Names(token, "alt"), Names(token, "super"), false, false);
            GivenMods(tokens) == Union(first, GivenMods(tokens[1..]))
  {
    hide Names, Trim, Given;
    GivenFirst(tokens, "ctrl");
    GivenFirst(tokens, "control");
    GivenFirst(tokens, "shift");
    GivenFirst(tokens, "alt");
    GivenFirst(tokens, "super");
  }

  /** One token, in terms of its name. */
  lemma TokenMeans(b: Binding, raw: string)
    ensures var token := Trim(raw);
            AddToken(b, raw) ==
            if token == "" then Some(b)
            else if NamesModifier(token) then
              Some(b.(mods := Union(b.mods, Mods(Names(token, "shift"), Names(token, "ctrl") || Names(token, "control"),
                                                 Names(token, "alt"), Names(token, "super"), false, false))))
            else if ParseKeysym(token) == 0 || b.keysym != 0 then None
            else Some(b.(keysym := ParseKeysym(token)))
  {
    hide ParseModifier, Names, Trim, ParseKeysym, NamesModifier;
    ModifierMeans(Trim(raw));
  }

  lemma EmptyNames()
    ensures GivenMods([]) == NO_MODS
    ensures !Names("", "ctrl") && !Names("", "control") && !Names("", "shift") && !Names("", "alt")
    ensures !Names("", "super")
  {
  }

  lemma {:induction false} TokensMean(b: Binding, tokens: seq<string>)
    ensures var keys := KeySyms(tokens);
            AddTokens(b, tokens) ==
            if |keys| > (if b.keysym == 0 then 1 else 0) || 0 in keys then None
            else Some(Binding(Union(b.mods, GivenMods(tokens)), if keys == [] then b.keysym else keys[0]))
    decreases |tokens|
  {
    hide AddToken, Names, Trim, ParseKeysym, GivenMods;
    EmptyNames();
    if tokens != [] {
      var token := Trim(tokens[0]);
      TokenMeans(b, tokens[0]);
      GivenModsFirst(tokens);
      if AddToken(b, tokens[0]).Some? {
        TokensMean(AddToken(b, tokens[0]).value, tokens[1..]);
      }
    }
  }

  /** What a text means: at most 128 characters, every name of a modifier in any case, "control" as good as
      "ctrl", at least one of them, and at most one other token, which must name a key. The order is free. */
  lemma ParseMeans(s: string)
    ensures var tokens := Tokens(s, 0);
            var keys := KeySyms(tokens);
            Parse(s) ==
            if 0 < |s| <= 128 && |keys| <= 1 && 0 !in keys && GivenMods(tokens) != NO_MODS then
              Some(Binding(GivenMods(tokens), if keys == [] then 0 else keys[0]))
            else None
  {
    hide AddTokens, KeySyms, Given, Tokens;
    TokensMean(NOTHING, Tokens(s, 0));
  }

  // ---- what a parse can give ----

  /** No lock modifier, and a key that has a name. */
  predicate Writable(b: Binding) {
    !b.mods.caps && !b.mods.num && (b.keysym == 0 || Nameable(b.keysym))
  }

  lemma KeysymNameable(token: string)
    ensures ParseKeysym(token) != 0 ==> Nameable(ParseKeysym(token))
  {
    var i := ByName(token, 0);
    if i < KEY_COUNT {
      assert Keys()[i].keysym == ParseKeysym(token);
      assert ByKeysym(ParseKeysym(token), 0) <= i;
    }
  }

  lemma TokenWritable(b: Binding, raw: string)
    requires Writable(b)
    ensures AddToken(b, raw).Some? ==> Writable(AddToken(b, raw).value)
  {
    hide ParseKeysym, Nameable, SameNoCase, Trim;
    KeysymNameable(Trim(raw));
  }

  lemma {:induction false} TokensWritable(b: Binding, tokens: seq<string>)
    requires Writable(b)
    ensures AddTokens(b, tokens).Some? ==> Writable(AddTokens(b, tokens).value)
    decreases |tokens|
  {
    hide AddToken, Writable;
    if tokens != [] {
      TokenWritable(b, tokens[0]);
      if AddToken(b, tokens[0]).Some? {
        TokensWritable(AddToken(b, tokens[0]).value, tokens[1..]);
      }
    }
  }

  // ---- reading the formatter's text ----

  /** Where a lower-case name stands in the table. */
  function IndexOf(name: string): nat {
    if |name| < 2 then 0
    else if name[0] == 's' then 0
    else if name[0] == 'r' then if name[1] == 'e' then 1 else 11
    else if name[0] == 'e' then if name[1] == 'n' then 2 else if |name| == 6 then 4 else 5
    else if name[0] == 't' then 3
    else if name[0] == 'b' then 6
    else if name[0] == 'd' then if name[1] == 'e' then 7 else 9
    else if name[0] == 'u' then 8
    else if name[0] == 'l' then 10
    else if |name| == 2 && name[1] >= '0' then 11 + (name[1] as nat - '0' as nat)
    else if |name| == 3 && name[2] >= '0' then 21 + (name[2] as nat - '0' as nat)
    else 0
  }

  /** A table name: lower-case, of 2 to 9 letters and digits, standing where IndexOf says. */
  predicate WellNamed(k: KeyName, i: nat) {
    && 2 <= |k.name| <= 9 && IndexOf(k.name) == i && 0 < k.keysym < 0x1_0000
    && 'a' <= k.name[0] <= 'z'
    && forall j :: 0 <= j < |k.name| ==> 'a' <= k.name[j] <= 'z' || '0' <= k.name[j] <= '9'
  }

  lemma NamesFrom0(i: nat)
    requires 0 <= i < 8
    ensures WellNamed(Keys()[i], i)
  {
  }

  lemma NamesFrom8(i: nat)
    requires 8 <= i < 16
    ensures WellNamed(Keys()[i], i)
  {
  }

  lemma NamesFrom16(i: nat)
    requires 16 <= i < 24
    ensures WellNamed(Keys()[i], i)
  {
  }

  lemma NamesAt(i: nat)
    requires i < KEY_COUNT
    ensures WellNamed(Keys()[i], i)
  {
    hide WellNamed, Keys;
    if i < 8 {
      NamesFrom0(i);
    } else if i < 16 {
      NamesFrom8(i);
    } else {
      NamesFrom16(i);
    }
  }

  lemma CapitalizedSame(name: string, other: string)
    ensures SameNoCase(Capitalized(name), other) <==> SameNoCase(name, other)
    ensures |Capitalized(name)| == |name|
  {
    if name != "" {
      var c := Capitalized(name);
      assert forall i :: 0 <= i < |name| ==> Lower(c[i]) == Lower(name[i]);
    }
  }

  predicate LowerText(s: string) {
    forall i :: 0 <= i < |s| ==> Lower(s[i]) == s[i]
  }

  lemma LowerSame(a: string, b: string)
    requires LowerText(a) && LowerText(b)
    ensures SameNoCase(a, b) <==> a == b
  {
    if SameNoCase(a, b) {
      forall i | 0 <= i < |a| ensures a[i] == b[i] {
        assert Lower(a[i]) == a[i] && Lower(b[i]) == b[i];
      }
    }
  }

  lemma WellNamedMeans(k: KeyName, i: nat)
    requires WellNamed(k, i)
    ensures LowerText(k.name) && IndexOf(k.name) == i
  {
  }

  /** A capitalized table name is found where it stands. */
  lemma ReadsName(i: nat)
    requires i < KEY_COUNT
    ensures ByName(Capitalized(Keys()[i].name), 0) == i
  {
    hide WellNamed, Keys, SameNoCase, Capitalized, LowerText;
    var token := Capitalized(Keys()[i].name);
    NamesAt(i);
    WellNamedMeans(Keys()[i], i);
    forall j | 0 <= j < KEY_COUNT ensures SameNoCase(token, Keys()[j].name) <==> j == i {
      NamesAt(j);
      WellNamedMeans(Keys()[j], j);
      CapitalizedSame(Keys()[i].name, Keys()[j].name);
      LowerSame(Keys()[i].name, Keys()[j].name);
    }
    var r := ByName(token, 0);
    assert r == i;
  }

  lemma FirstName()
    ensures Keys()[0].name == "space"
  {
  }

  /** A modifier's name is no table name. */
  lemma NoModifierName(i: nat, name: string)
    requires i < KEY_COUNT && LowerText(name)
    requires (IndexOf(name) == 0 && name != "space") || IndexOf(name) >= KEY_COUNT
    ensures !SameNoCase(Capitalized(Keys()[i].name), name)
  {
    hide WellNamed, Keys, SameNoCase, Capitalized, LowerText, IndexOf;
    NamesAt(i);
    WellNamedMeans(Keys()[i], i);
    FirstName();
    CapitalizedSame(Keys()[i].name, name);
    LowerSame(Keys()[i].name, name);
  }

  lemma KeyIsNoModifier(i: nat)
    requires i < KEY_COUNT
    ensures ParseModifier(Capitalized(Keys()[i].name)) == None
  {
    hide Keys, SameNoCase, Capitalized;
    assert "shift"[0] == 's' && "super"[0] == 's' && "ctrl"[0] == 'c' && "control"[0] == 'c' && "alt"[0] == 'a';
    NoModifierName(i, "ctrl");
    NoModifierName(i, "control");
    NoModifierName(i, "shift");
    assert IndexOf("alt") >= KEY_COUNT by { assert "alt"[2] == 't'; }
    NoModifierName(i, "alt");
    NoModifierName(i, "super");
  }

  lemma LetterIsKey(c: char)
    requires 'a' <= c <= 'z' || '0' <= c <= '9'
    ensures ParseModifier([c]) == None && ParseKeysym([c]) == c as nat && Tight([c])
  {
    hide WellNamed, Keys;
    forall j | 0 <= j < KEY_COUNT ensures !SameNoCase([c], Keys()[j].name) {
      NamesAt(j);
      assert |Keys()[j].name| > 1 by { NamedLong(Keys()[j], j); }
    }
    assert ByName([c], 0) == KEY_COUNT;
  }

  lemma NamedLong(k: KeyName, i: nat)
    requires WellNamed(k, i)
    ensures 2 <= |k.name| <= 9 && Tight(k.name) && Tight(Capitalized(k.name))
  {
    var c := Capitalized(k.name);
    assert c == [Upper(k.name[0])] + k.name[1..];
    forall j | 0 <= j < |c| ensures c[j] != '+' && c[j] != ' ' {
      assert j > 0 ==> c[j] == k.name[j];
    }
  }

  /** The text of a key is one tight piece of at most nine characters that reads back as the key. */
  lemma KeyTextReads(keysym: nat)
    requires Nameable(keysym)
    ensures var s := KeyText(keysym);
            Tight(s) && |s| <= 9 && ParseModifier(s) == None && ParseKeysym(s) == keysym
  {
    hide WellNamed, Keys, SameNoCase, Capitalized, Tight, ParseModifier;
    var i := ByKeysym(keysym, 0);
    if i < KEY_COUNT {
      ReadsName(i);
      KeyIsNoModifier(i);
      NamesAt(i);
      NamedLong(Keys()[i], i);
      CapitalizedSame(Keys()[i].name, "");
    } else {
      LetterIsKey(keysym as char);
    }
  }

  lemma ModNamesRead()
    ensures ParseModifier("Ctrl") == Some(NO_MODS.(ctrl := true)) && Tight("Ctrl")
    ensures ParseModifier("Alt") == Some(NO_MODS.(alt := true)) && Tight("Alt")
    ensures ParseModifier("Super") == Some(NO_MODS.(super := true)) && Tight("Super")
    ensures ParseModifier("Shift") == Some(NO_MODS.(shift := true)) && Tight("Shift")
  {
    hide ParseModifier;
    ModifierMeans("Ctrl");
    ModifierMeans("Alt");
    ModifierMeans("Super");
    ModifierMeans("Shift");
  }

  /** A modifier token at the front. */
  lemma AddFront(b: Binding, name: string, m: Mods, rest: seq<string>)
    requires Tight(name) && ParseModifier(name) == Some(m)
    ensures AddTokens(b, [name] + rest) == AddTokens(b.(mods := Union(b.mods, m)), rest)
  {
    hide Tight, ParseModifier, Trim;
    TrimTight(name);
    assert ([name] + rest)[1..] == rest;
    assert name != "" by { TightChars(name); }
  }

  lemma AddMaybe(b: Binding, held: bool, name: string, m: Mods, rest: seq<string>)
    requires Tight(name) && ParseModifier(name) == Some(m)
    ensures AddTokens(b, (if held then [name] else []) + rest) ==
            AddTokens(if held then b.(mods := Union(b.mods, m)) else b, rest)
  {
    hide Tight, ParseModifier, AddTokens;
    if held {
      AddFront(b, name, m, rest);
    } else {
      assert [] + rest == rest;
    }
  }

  /** The written modifiers read back as the mask they were written from. */
  lemma AddModNames(m: Mods, rest: seq<string>)
    requires !m.caps && !m.num
    ensures AddTokens(NOTHING, ModNames(m) + rest) == AddTokens(Binding(m, 0), rest)
  {
    hide Tight, ParseModifier, AddTokens;
    ModNamesRead();
    var c := if m.ctrl then ["Ctrl"] else [];
    var a := if m.alt then ["Alt"] else [];
    var u := if m.super then ["Super"] else [];
    var h := if m.shift then ["Shift"] else [];
    assert ModNames(m) + rest == c + (a + (u + (h + rest)));
    var b1 := Binding(NO_MODS.(ctrl := m.ctrl), 0);
    var b2 := Binding(b1.mods.(alt := m.alt), 0);
    var b3 := Binding(b2.mods.(super := m.super), 0);
    AddMaybe(NOTHING, m.ctrl, "Ctrl", NO_MODS.(ctrl := true), a + (u + (h + rest)));
    AddMaybe(b1, m.alt, "Alt", NO_MODS.(alt := true), u + (h + rest));
    AddMaybe(b2, m.super, "Super", NO_MODS.(super := true), h + rest);
    AddMaybe(b3, m.shift, "Shift", NO_MODS.(shift := true), rest);
  }

  lemma AddKeyText(b: Binding, keysym: nat)
    requires Nameable(keysym) && keysym != 0 && b.keysym == 0
    ensures AddTokens(b, [KeyText(keysym)]) == Some(b.(keysym := keysym))
  {
    hide Tight, ParseModifier, ParseKeysym, Trim, KeyText, Nameable;
    var s := KeyText(keysym);
    KeyTextReads(keysym);
    TrimTight(s);
    TightChars(s);
    assert AddToken(b, s) == Some(b.(keysym := keysym));
    assert [s][1..] == [];
  }

  lemma {:induction false} JoinLength(pieces: seq<string>)
    requires forall i :: 0 <= i < |pieces| ==> |pieces[i]| <= 9
    ensures |Join(pieces)| <= 10 * |pieces|
  {
    if |pieces| > 1 {
      JoinLength(pieces[..|pieces| - 1]);
    }
  }

  lemma PiecesTight(b: Binding)
    requires Writable(b)
    ensures var ps := Pieces(b);
            |ps| <= 5 && forall i :: 0 <= i < |ps| ==> Tight(ps[i]) && |ps[i]| <= 9
    ensures b.mods != NO_MODS ==> Pieces(b) != []
  {
    hide Tight, KeyText, Nameable, ParseModifier;
    ModNamesRead();
    if b.keysym != 0 {
      KeyTextReads(b.keysym);
    }
    ModNamesTight(b.mods);
  }

  lemma ModNamesTight(m: Mods)
    ensures |ModNames(m)| <= 4 && forall i :: 0 <= i < |ModNames(m)| ==> Tight(ModNames(m)[i]) && |ModNames(m)[i]| <= 9
    ensures !m.caps && !m.num && m != NO_MODS ==> ModNames(m) != []
  {
    hide Tight, ParseModifier;
    ModNamesRead();
    var all := ["Ctrl", "Alt", "Super", "Shift"];
    assert forall i :: 0 <= i < |ModNames(m)| ==> ModNames(m)[i] in all;
  }

  /** Any lock-free binding with a modifier and a nameable key survives being written and read. */
  lemma FormatParses(b: Binding)
    requires Writable(b) && b.mods != NO_MODS
    ensures Parse(Format(b)) == Some(b) && 0 < |Format(b)| < 128
  {
    hide Tight, KeyText, Nameable, ParseModifier, AddTokens, Tokens, Pieces, Join, ModNames;
    var ps := Pieces(b);
    PiecesTight(b);
    SplitsJoin("", ps);
    assert "" + Join(ps) == Join(ps);
    JoinStarts(ps);
    JoinLength(ps);
    assert AddTokens(NOTHING, ps) == Some(b) by { PiecesAdd(b); }
  }

  lemma PiecesAdd(b: Binding)
    requires Writable(b)
    ensures AddTokens(NOTHING, Pieces(b)) == Some(b)
  {
    hide KeyText, Nameable, ParseModifier, ModNames, AddToken;
    if b.keysym == 0 {
      AddModNames(b.mods, []);
    } else {
      AddModNames(b.mods, [KeyText(b.keysym)]);
      AddKeyText(Binding(b.mods, 0), b.keysym);
    }
  }

  /** Canonical form. Whatever text the parser accepts, formatting its binding needs no hexadecimal
      fallback, fits the buffer and parses back to the same binding; so formatting again changes
      nothing. */
  lemma Canonical(s: string)
    requires Parse(s).Some?
    ensures var b := Parse(s).value;
            && (b.keysym == 0 || Nameable(b.keysym)) && 0 < |Format(b)| < 128
            && Parse(Format(b)) == Some(b)
  {
    hide AddTokens, Tokens, Nameable, Format;
    TokensWritable(NOTHING, Tokens(s, 0));
    FormatParses(Parse(s).value);
  }

  // ---- a text with the other spellings ----

  lemma PiecesTight3()
    ensures Tight("Control") && Tight("SHIFT") && Tight("Esc")
    ensures Join(["Control", "SHIFT", "Esc"]) == "Control+SHIFT+Esc"
  {
    assert Join(["Control"]) == "Control";
    assert ["Control", "SHIFT"][..1] == ["Control"];
    assert ["Control", "SHIFT", "Esc"][..2] == ["Control", "SHIFT"];
    assert Join(["Control", "SHIFT"]) == "Control" + "+" + "SHIFT";
    assert Join(["Control", "SHIFT", "Esc"]) == "Control" + "+" + "SHIFT" + "+" + "Esc";
  }

  lemma EscReads()
    ensures ParseModifier("Esc") == None && ParseKeysym("Esc") == 0xff1b
  {
    hide SameNoCase;
    assert Keys()[5] == KeyName("esc", 0xff1b);
    assert Capitalized("esc") == "Esc";
    ReadsName(5);
    KeyIsNoModifier(5);
  }

  /** The alias and the case of a name make no difference. */
  lemma ControlReads()
    ensures Parse("Control+SHIFT+Esc") == Some(Binding(NO_MODS.(ctrl := true, shift := true), 0xff1b))
  {
    hide Tight, Trim, ParseKeysym, ParseModifier, Tokens, Join, AddTokens;
    var ps := ["Control", "SHIFT", "Esc"];
    PiecesTight3();
    SplitsJoin("", ps);
    assert "" + Join(ps) == Join(ps);
    EscReads();
    ModifierMeans("Control");
    ModifierMeans("SHIFT");
    AddFront(NOTHING, "Control", NO_MODS.(ctrl := true), ["SHIFT", "Esc"]);
    assert ["Control"] + ["SHIFT", "Esc"] == ps;
    AddFront(Binding(NO_MODS.(ctrl := true), 0), "SHIFT", NO_MODS.(shift := true), ["Esc"]);
    assert ["SHIFT"] + ["Esc"] == ["SHIFT", "Esc"];
    AddOne(Binding(NO_MODS.(ctrl := true, shift := true), 0), "Esc");
  }

  lemma AddOne(b: Binding, token: string)
    requires Tight(token) && ParseModifier(token) == None && ParseKeysym(token) != 0 && b.keysym == 0
    ensures AddTokens(b, [token]) == Some(b.(keysym := ParseKeysym(token)))
  {
    hide Tight, ParseModifier, ParseKeysym, Trim;
    TrimTight(token);
    TightChars(token);
    assert [token][1..] == [];
    assert AddToken(b, token) == Some(b.(keysym := ParseKeysym(token)));
  }

  /** The written form: the modifiers in one order, then the key, its name capitalized. */
  lemma FormatsAs()
    ensures Format(Binding(Mods(true, true, true, true, false, false), 0x20)) == "Ctrl+Alt+Super+Shift+Space"
  {
    hide Join, KeyText;
    var all := ["Ctrl", "Alt", "Super", "Shift", "Space"];
    SpaceText();
    assert Pieces(Binding(Mods(true, true, true, true, false, false), 0x20)) == all;
    JoinFront(all);
    assert all[1..] == ["Alt", "Super", "Shift", "Space"];
    JoinFront(all[1..]);
    assert all[1..][1..] == ["Super", "Shift", "Space"];
    JoinFront(all[1..][1..]);
    assert all[1..][1..][1..] == ["Shift", "Space"];
    JoinFront(["Shift", "Space"]);
    assert ["Shift", "Space"][1..] == ["Space"];
    JoinOne("Space");
  }

  lemma SpaceText()
    ensures KeyText(0x20) == "Space"
  {
    assert Keys()[0] == KeyName("space", 0x20) && ByKeysym(0x20, 0) == 0;
  }

  function DigitValue(c: char): nat {
    if '0' <= c <= '9' then c as nat - '0' as nat else if 'a' <= c <= 'f' then c as nat - 'a' as nat + 10 else 0
  }

  /** The number that hexadecimal digits stand for. */
  function HexNumber(s: string): nat {
    if s == "" then 0 else 16 * HexNumber(s[..|s| - 1]) + DigitValue(s[|s| - 1])
  }

  lemma DigitRound(n: nat)
    requires n < 16
    ensures DigitValue("0123456789abcdef"[n]) == n && (n > 0 ==> "0123456789abcdef"[n] != '0')
  {
  }

  lemma HexLast(front: string, c: char)
    ensures HexNumber(front + [c]) == 16 * HexNumber(front) + DigitValue(c)
    ensures HexNumber("") == 0
  {
    hide DigitValue;
    assert (front + [c])[..|front|] == front;
  }

  /** A key without a name is written as its keysym: the digits stand for it, with no zero in front. */
  lemma {:induction false} HexTextMeans(n: nat)
    ensures HexNumber(HexText(n)) == n && HexText(n) != "" && (n > 0 ==> HexText(n)[0] != '0')
  {
    hide DigitValue, HexNumber;
    DigitRound(n % 16);
    var digit := "0123456789abcdef"[n % 16];
    if n < 16 {
      HexLast("", digit);
      assert "" + [digit] == HexText(n);
    } else {
      HexTextMeans(n / 16);
      HexLast(HexText(n / 16), digit);
    }
  }

}
