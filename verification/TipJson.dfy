/**
 The JSON helpers in the program's own form: a growable buffer, and scanners
 that advance a cursor. Each is proved to compute its function in JsonText or
 JsonParams.
 */
module TipJson {
  import opened KeyTypes
  import opened JsonText
  import opened JsonParams

  const NUL: char := 0 as char

  class Builder {
    var buf: array<char>
    var len: nat

    /** There is always room for the terminator, and it is in place. */
    ghost predicate Valid()
      reads this, buf
    {
      len < buf.Length && 256 <= buf.Length && buf[len] == NUL
    }

    ghost function Written(): string
      requires Valid()
      reads this, buf
    {
      buf[..len]
    }

    constructor ()
      ensures Valid() && Written() == "" && fresh(buf)
    {
      buf, len := new char[256](_ => NUL), 0;
    }

    /** Grow by doubling until `need` more characters fit. */
    method EnsureCap(need: nat)
      requires Valid()
      modifies this`buf
      ensures Valid() && Written() == old(Written()) && len + need < buf.Length
      ensures buf == old(buf) || fresh(buf)
    {
      if len + need >= buf.Length {
        var cap := buf.Length * 2;
        while cap < len + need + 1
          invariant cap >= 2 * buf.Length
          decreases len + need + 1 - cap
        {
          cap := cap * 2;
        }
        var grown := new char[cap](_ => NUL);
        forall i | 0 <= i <= len {
          grown[i] := buf[i];
        }
        assert grown[..len] == buf[..len];
        buf := grown;
      }
    }

    method AppendRaw(s: string)
      requires Valid()
      modifies this, buf
      ensures Valid() && Written() == old(Written()) + s
      ensures buf == old(buf) || fresh(buf)
    {
      EnsureCap(|s| + 1);
      forall i | 0 <= i < |s| {
        buf[len + i] := s[i];
      }
      buf[len + |s|] := NUL;
      len := len + |s|;
      assert buf[..len] == old(buf[..len]) + s;
    }

    /** A quoted, escaped string. */
    method AppendString(s: string)
      requires Valid()
      modifies this, buf
      ensures Valid() && Written() == old(Written()) + Quoted(s)
      ensures buf == old(buf) || fresh(buf)
    {
      hide EscapeChar;
      AppendRaw([QUOTE]);
      for i := 0 to |s|
        invariant Valid() && (buf == old(buf) || fresh(buf))
        invariant Written() + Escape(s[i..]) == old(Written()) + [QUOTE] + Escape(s)
      {
        assert s[i..][1..] == s[i + 1..];
        AppendRaw(EscapeChar(s[i]));
      }
      assert Written() == old(Written()) + [QUOTE] + Escape(s) by { assert Escape(s[|s|..]) == ""; }
      AppendRaw([QUOTE]);
    }
  }

  // ---- scanners ----

  method SkipSpaceFrom(s: string, i: nat) returns (r: nat)
    requires i <= |s|
    ensures r == SkipSpace(s, i)
  {
    r := i;
    while r < |s| && IsSpace(s[r])
      invariant r <= |s| && SkipSpace(s, r) == SkipSpace(s, i)
    {
      r := r + 1;
    }
  }

  /** Behind the member name at `at`, over a colon and white space, to the value. */
  method FindValue(s: string, behindName: nat) returns (r: Option<nat>)
    requires behindName <= |s|
    ensures r == ValueStart(s, behindName)
  {
    var cursor := SkipSpaceFrom(s, behindName);
    if cursor >= |s| || s[cursor] != ':' {
      return None;
    }
    cursor := SkipSpaceFrom(s, cursor + 1);
    return Some(cursor);
  }

  method ScanString(s: string, i: nat) returns (r: nat)
    requires i <= |s|
    ensures r == StringEnd(s, i, false)
  {
    var escaped := false;
    r := i;
    while r < |s| && (s[r] != QUOTE || escaped)
      invariant r <= |s| && StringEnd(s, r, escaped) == StringEnd(s, i, false)
    {
      escaped := s[r] == BACKSLASH && !escaped;
      r := r + 1;
    }
  }

  method FindString(json: string, key: string) returns (r: Option<string>)
    ensures r == ExtractString(json, key)
  {
    if |key| > MAX_KEY {
      return None;
    }
    var found := Find(json, Pattern(key), 0);
    if found == None {
      return None;
    }
    var value := FindValue(json, found.value + |Pattern(key)|);
    if value == None || value.value >= |json| || json[value.value] != QUOTE {
      return None;
    }
    var end := ScanString(json, value.value + 1);
    if end >= |json| {
      return None;
    }
    return Some(json[value.value + 1..end]);
  }

  method ScanLooseString(s: string, i: nat) returns (r: nat)
    requires 0 < i <= |s|
    ensures r == LooseEnd(s, i)
  {
    r := i;
    while r < |s| && (s[r] != QUOTE || s[r - 1] == BACKSLASH)
      invariant i <= r <= |s| && LooseEnd(s, r) == LooseEnd(s, i)
    {
      r := r + 1;
    }
  }

  method ScanObject(s: string, i: nat) returns (r: nat)
    requires 0 < i <= |s|
    ensures r == ObjectEnd(s, i, 1)
  {
    var depth := 1;
    r := i;
    while r < |s| && depth > 0
      invariant 0 < r <= |s| && depth >= 0 && ObjectEnd(s, r, depth) == ObjectEnd(s, i, 1)
      decreases |s| - r
    {
      if s[r] == QUOTE {
        r := ScanLooseString(s, r + 1);
        if r < |s| {
          r := r + 1;
        }
      } else {
        if s[r] == '{' {
          depth := depth + 1;
        } else if s[r] == '}' {
          depth := depth - 1;
        }
        r := r + 1;
      }
    }
  }

  method FindParams(json: string) returns (r: Params)
    ensures r == ExtractParams(json)
  {
    var found := Find(json, PARAMS, 0);
    if found == None {
      return Missing;
    }
    var value := FindValue(json, found.value + |PARAMS|);
    if value == None {
      return Malformed;
    }
    var start := value.value;
    var cursor := start;
    if cursor < |json| && json[cursor] == '{' {
      cursor := ScanObject(json, cursor + 1);
    } else {
      while cursor < |json| && json[cursor] != ',' && json[cursor] != '}'
        invariant start <= cursor <= |json| && ScalarEnd(json, cursor) == ScalarEnd(json, start)
      {
        cursor := cursor + 1;
      }
    }
    return Slice(start, cursor - start);
  }
}
