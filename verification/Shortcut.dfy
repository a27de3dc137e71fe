/**
 The shortcut parser and formatter in the program's own form: a loop over
 tokens, and a fixed buffer filled by position.
 */
module ShortcutText {
  import opened KeyTypes
  import opened ShortcutSpec

  const BUFFER: nat := 128

  lemma TokensFrom(s: string, i: nat)
    requires i <= |s|
    ensures var start := SkipPlus(s, i);
            if start == |s| then Tokens(s, i) == []
            else
              start < TokenEnd(s, start) &&
              Tokens(s, i) == [s[start..TokenEnd(s, start)]] + Tokens(s, TokenEnd(s, start))
  {
    SkipStops(s, i);
  }

  lemma SkipStops(s: string, i: nat)
    requires i <= |s|
    ensures var start := SkipPlus(s, i); start < |s| ==> s[start] != '+'
    decreases |s| - i
  {
    if i < |s| && s[i] == '+' {
      SkipStops(s, i + 1);
    }
  }

  /** Read one binding; a text the source refuses gives None. */
  method ParseShortcut(s: string) returns (r: Option<Binding>)
    ensures r == Parse(s)
  {
    hide AddToken;
    if s == "" || |s| > MAX_TEXT {
      return None;
    }
    var b := NOTHING;
    var cursor := SkipPlus(s, 0);
    TokensFrom(s, 0);
    while cursor < |s|
      invariant cursor <= |s|
      invariant cursor < |s| ==> s[cursor] != '+'
      invariant AddTokens(NOTHING, Tokens(s, 0)) == AddTokens(b, Tokens(s, cursor))
      decreases |s| - cursor
    {
      TokensFrom(s, cursor);
      var end := TokenEnd(s, cursor);
      var token := s[cursor..end];
      assert Tokens(s, cursor)[1..] == Tokens(s, end);
      var next := AddToken(b, token);
      if next == None {
        return None;
      }
      b := next.value;
      cursor := SkipPlus(s, end);
      TokensFrom(s, end);
      SkipTwice(s, end);
    }
    if b.mods == NO_MODS {
      return None;
    }
    return Some(b);
  }

  lemma SkipTwice(s: string, i: nat)
    requires i <= |s|
    ensures var start := SkipPlus(s, i);
            (start < |s| ==> s[start] != '+') && SkipPlus(s, start) == start && Tokens(s, start) == Tokens(s, i)
    decreases |s| - i
  {
    if i < |s| && s[i] == '+' {
      SkipTwice(s, i + 1);
    }
  }

  /** Append one piece, with a plus before it unless it is the first. */
  method AppendPiece(buf: array<char>, pos: nat, piece: string) returns (end: nat)
    requires pos + 1 + |piece| <= buf.Length
    modifies buf
    ensures end <= pos + 1 + |piece|
    ensures buf[..end] == old(buf[..pos]) + (if pos > 0 then "+" else "") + piece
  {
    end := pos;
    if pos > 0 {
      buf[end] := '+';
      end := end + 1;
    }
    forall i | 0 <= i < |piece| {
      buf[end + i] := piece[i];
    }
    end := end + |piece|;
  }

  ghost predicate NonEmptyPieces(pieces: seq<string>) {
    forall i :: 0 <= i < |pieces| ==> pieces[i] != ""
  }

  lemma JoinSnoc(pieces: seq<string>, piece: string)
    requires NonEmptyPieces(pieces)
    ensures Join(pieces + [piece]) == Join(pieces) + (if |Join(pieces)| > 0 then "+" else "") + piece
  {
    var all := pieces + [piece];
    if pieces == [] {
      assert all == [piece];
    } else {
      assert all[..|all| - 1] == pieces;
      assert Join(pieces) != "" by { JoinNonEmpty(pieces); }
    }
  }

  lemma JoinNonEmpty(pieces: seq<string>)
    requires NonEmptyPieces(pieces) && pieces != []
    ensures Join(pieces) != ""
  {
    assert pieces[|pieces| - 1] != "";
  }

  /** One modifier name, if its bit is set. */
  method AppendModifier(buf: array<char>, pos: nat, held: bool, name: string, ghost before: seq<string>)
    returns (end: nat)
    requires name != "" && pos + 1 + |name| <= buf.Length && NonEmptyPieces(before) && buf[..pos] == Join(before)
    modifies buf
    ensures NonEmptyPieces(before + (if held then [name] else []))
    ensures end <= pos + 1 + |name| && end <= buf.Length
    ensures buf[..end] == Join(before + (if held then [name] else []))
  {
    hide Join;
    if !held {
      assert before + [] == before;
      return pos;
    }
    JoinSnoc(before, name);
    end := AppendPiece(buf, pos, name);
  }

  /** The text of a key: at most nine characters for a named one, ten for a 32-bit hexadecimal one. */
  lemma KeyTextFits(keysym: nat)
    requires keysym < 0x1_0000_0000
    ensures 0 < |KeyText(keysym)| <= 10
  {
    hide Nameable, Keys, Tight, HexText;
    if Nameable(keysym) {
      KeyTextReads(keysym);
      TightChars(KeyText(keysym));
    } else {
      HexFits(keysym, 8, 0x1_0000_0000);
      assert KeyText(keysym) == "0x" + HexText(keysym) by { Unnamed(keysym); }
    }
  }

  lemma Unnamed(keysym: nat)
    requires !Nameable(keysym)
    ensures KeyText(keysym) == "0x" + HexText(keysym)
  {
  }

  lemma {:induction false} HexFits(n: nat, digits: nat, limit: nat)
    requires n < limit && digits > 0 && limit == Power(digits)
    ensures 0 < |HexText(n)| <= digits
    decreases digits
  {
    if n >= 16 {
      assert digits > 1;
      HexFits(n / 16, digits - 1, Power(digits - 1));
    }
  }

  function Power(digits: nat): nat {
    if digits == 0 then 1 else 16 * Power(digits - 1)
  }

  /** Write a binding; any 32-bit keysym fits. */
  method FormatShortcut(b: Binding) returns (s: string)
    requires b.keysym < 0x1_0000_0000
    ensures s == Format(b) && |s| < BUFFER
  {
    hide Join, KeyText, ModNames;
    var buf := new char[BUFFER](_ => '\0');
    var pos := 0;
    ghost var c := if b.mods.ctrl then ["Ctrl"] else [];
    ghost var a := if b.mods.alt then ["Alt"] else [];
    ghost var u := if b.mods.super then ["Super"] else [];
    assert buf[..0] == Join([]) by { JoinNil(); }
    pos := AppendModifier(buf, pos, b.mods.ctrl, "Ctrl", []);
    assert [] + c == c;
    pos := AppendModifier(buf, pos, b.mods.alt, "Alt", c);
    pos := AppendModifier(buf, pos, b.mods.super, "Super", c + a);
    pos := AppendModifier(buf, pos, b.mods.shift, "Shift", c + a + u);
    assert c + a + u + (if b.mods.shift then ["Shift"] else []) == ModNames(b.mods) by { NamesAre(b.mods); }
    if b.keysym != 0 {
      var key := KeyText(b.keysym);
      KeyTextFits(b.keysym);
      JoinSnoc(ModNames(b.mods), key);
      pos := AppendPiece(buf, pos, key);
    } else {
      assert ModNames(b.mods) + [] == ModNames(b.mods);
    }
    s := buf[..pos];
  }

  lemma NamesAre(m: Mods)
    ensures ModNames(m) == (if m.ctrl then ["Ctrl"] else []) + (if m.alt then ["Alt"] else []) +
                           (if m.super then ["Super"] else []) + (if m.shift then ["Shift"] else [])
  {
  }

  lemma JoinNil()
    ensures Join([]) == ""
  {
  }
}
