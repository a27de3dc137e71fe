/**
 The UTF-8 helpers on NUL-terminated byte strings, bit for bit, and the round
 trip between code points and bytes (section 3 of RFC 3629).
 */
module Utf8 {

  const REPLACEMENT: bv32 := 0xFFFD

  /** A byte 10xxxxxx. */
  predicate Continuation(b: bv8) {
    b & 0xC0 == 0x80
  }

  /** The cast to a byte keeps the low eight bits. */
  function Byte(x: bv32): bv8 {
    (x & 0xFF) as bv8
  }

  function Tail(x: bv32): bv8 {
    Byte(0x80 | (x & 0x3F))
  }

  /** The bytes of a code point; none above 0x10FFFF. */
  function Units(cp: bv32): seq<bv8> {
    if cp < 0x80 then [Byte(cp)]
    else if cp < 0x800 then [Byte(0xC0 | (cp >> 6)), Tail(cp)]
    else if cp < 0x10000 then [Byte(0xE0 | (cp >> 12)), Tail(cp >> 6), Tail(cp)]
    else if cp < 0x110000 then
      [Byte(0xF0 | (cp >> 18)), Tail(cp >> 12), Tail(cp >> 6), Tail(cp)]
    else []
  }

  /** How many continuation bytes a lead byte announces; none for a stray continuation. */
  function Remaining(c: bv8): int {
    if c < 0x80 then 0
    else if c & 0xE0 == 0xC0 then 1
    else if c & 0xF0 == 0xE0 then 2
    else if c & 0xF8 == 0xF0 then 3
    else -1
  }

  function LeadBits(c: bv8): bv32 {
    if c < 0x80 then c as bv32
    else if c & 0xE0 == 0xC0 then (c & 0x1F) as bv32
    else if c & 0xF0 == 0xE0 then (c & 0x0F) as bv32
    else (c & 0x07) as bv32
  }

  /** A NUL-terminated string. */
  predicate Terminated(s: seq<bv8>) {
    |s| > 0 && s[|s| - 1] == 0
  }

  /** Six more bits. */
  function Join(result: bv32, b: bv8): bv32 {
    (result << 6) | ((b & 0x3F) as bv32)
  }

  function Collect(s: seq<bv8>, p: nat, remaining: nat, result: bv32): bv32
    requires Terminated(s) && p < |s|
    decreases remaining
  {
    if remaining == 0 then result
    else if s[p] == 0 || !Continuation(s[p]) then REPLACEMENT
    else Collect(s, p + 1, remaining - 1, Join(result, s[p]))
  }

  function GetChar(s: seq<bv8>, i: nat): bv32
    requires Terminated(s) && i < |s|
  {
    if s[i] == 0 then 0
    else if Remaining(s[i]) < 0 then REPLACEMENT
    else if Remaining(s[i]) == 0 then LeadBits(s[i])
    else Collect(s, i + 1, Remaining(s[i]), LeadBits(s[i]))
  }

  function SkipContinuations(s: seq<bv8>, p: nat): (r: nat)
    requires Terminated(s) && p < |s|
    ensures p <= r < |s|
    decreases |s| - p
  {
    if s[p] != 0 && Continuation(s[p]) then SkipContinuations(s, p + 1) else p
  }

  function Next(s: seq<bv8>, i: nat): (r: nat)
    requires Terminated(s) && i < |s|
    ensures i <= r < |s| && (s[i] != 0 ==> i < r)
  {
    if s[i] == 0 then i else SkipContinuations(s, i + 1)
  }

  function BackOver(s: seq<bv8>, p: nat, start: nat): (r: nat)
    requires start <= p < |s|
    ensures start <= r <= p
    decreases p
  {
    if p > start && Continuation(s[p]) then BackOver(s, p - 1, start) else p
  }

  function Prev(s: seq<bv8>, i: nat, start: nat): (r: nat)
    requires start < |s| && i <= |s|
    ensures start <= r && (start < i ==> r < i)
  {
    if i <= start then start else BackOver(s, i - 1, start)
  }

  /** Bytes before the terminator that are not continuations. */
  function Strlen(s: seq<bv8>): nat {
    if s == [] || s[0] == 0 then 0
    else (if Continuation(s[0]) then 0 else 1) + Strlen(s[1..])
  }

  function Walk(s: seq<bv8>, i: nat): seq<bv32>
    requires Terminated(s) && i < |s|
    decreases |s| - i
  {
    if s[i] == 0 then [] else [GetChar(s, i)] + Walk(s, Next(s, i))
  }

  // ---- the program's loops ----

  /** Writes the bytes of a code point at the front of the buffer; at most four. */
  method Encode(cp: bv32, buf: array<bv8>) returns (n: nat)
    requires |Units(cp)| <= buf.Length
    modifies buf
    ensures n == |Units(cp)| && buf[..n] == Units(cp) && buf[n..] == old(buf[n..])
  {
    if cp < 0x80 {
      buf[0] := Byte(cp);
      return 1;
    }
    if cp < 0x800 {
      buf[0], buf[1] := Byte(0xC0 | (cp >> 6)), Tail(cp);
      return 2;
    }
    if cp < 0x10000 {
      buf[0], buf[1], buf[2] := Byte(0xE0 | (cp >> 12)), Tail(cp >> 6), Tail(cp);
      return 3;
    }
    if cp < 0x110000 {
      buf[0], buf[1] := Byte(0xF0 | (cp >> 18)), Tail(cp >> 12);
      buf[2], buf[3] := Tail(cp >> 6), Tail(cp);
      return 4;
    }
    return 0;
  }

  method NextChar(s: seq<bv8>, i: nat) returns (p: nat)
    requires Terminated(s) && i < |s|
    ensures p == Next(s, i)
  {
    if s[i] == 0 {
      return i;
    }
    p := i + 1;
    while s[p] != 0 && Continuation(s[p])
      invariant p < |s| && SkipContinuations(s, p) == SkipContinuations(s, i + 1)
      decreases |s| - p
    {
      p := p + 1;
    }
  }

  method PrevChar(s: seq<bv8>, i: nat, start: nat) returns (p: nat)
    requires start < |s| && i <= |s|
    ensures p == Prev(s, i, start)
  {
    if i <= start {
      return start;
    }
    p := i - 1;
    while p > start && Continuation(s[p])
      invariant start <= p < |s| && BackOver(s, p, start) == BackOver(s, i - 1, start)
    {
      p := p - 1;
    }
  }

  method ReadChar(s: seq<bv8>, i: nat) returns (r: bv32)
    requires Terminated(s) && i < |s|
    ensures r == GetChar(s, i)
  {
    var c := s[i];
    if c == 0 {
      return 0;
    }
    var remaining := Remaining(c);
    if remaining < 0 {
      return REPLACEMENT;
    }
    r := LeadBits(c);
    var p := i + 1;
    while remaining > 0
      invariant remaining >= 0 && (remaining > 0 ==> p < |s|)
      invariant remaining == 0 ==> r == GetChar(s, i)
      invariant remaining > 0 ==> Collect(s, p, remaining, r) == GetChar(s, i)
    {
      if s[p] == 0 || !Continuation(s[p]) {
        return REPLACEMENT;
      }
      r := Join(r, s[p]);
      p, remaining := p + 1, remaining - 1;
    }
  }

  // ---- one code point ----

  /** Encodable: a nonzero code point up to 0x10FFFF. */
  predicate Scalar(cp: bv32) {
    0 < cp < 0x110000
  }

  /** The shape of an encoding: a lead byte that announces its length, then continuations. */
  lemma UnitsShape(cp: bv32)
    requires Scalar(cp)
    ensures var u := Units(cp);
            && 1 <= |u| <= 4 && !Continuation(u[0]) && u[0] != 0 && Remaining(u[0]) == |u| - 1
            && forall k :: 1 <= k < |u| ==> u[k] != 0 && Continuation(u[k])
  {
  }

  /** The shortest form: ASCII as it is, the fewest bytes for the rest, nothing above 0x10FFFF. */
  lemma ShortestForm(cp: bv32)
    ensures |Units(cp)| == if cp < 128 then 1 else if cp < 2048 then 2 else if cp < 65536 then 3
                           else if cp <= 1114111 then 4 else 0
    ensures cp < 128 ==> Units(cp) == [cp as bv8]
  {
    hide Tail;
  }

  lemma TailBits(x: bv32)
    ensures (Tail(x) & 0x3F) as bv32 == x & 0x3F
  {
  }

  /** The lead byte gives its bits back. */
  lemma LeadBack(x: bv32)
    ensures x < 0x20 ==> LeadBits(Byte(0xC0 | x)) == x
    ensures x < 0x10 ==> LeadBits(Byte(0xE0 | x)) == x
    ensures x < 0x08 ==> LeadBits(Byte(0xF0 | x)) == x
  {
  }

  /** The pieces of a code point join to it. */
  lemma JoinBack(cp: bv32)
    ensures cp < 0x800 ==> ((cp >> 6) << 6) | (cp & 0x3F) == cp
    ensures cp < 0x10000 ==> ((((cp >> 12) << 6) | ((cp >> 6) & 0x3F)) << 6) | (cp & 0x3F) == cp
    ensures cp < 0x110000 ==>
              ((((((cp >> 18) << 6) | ((cp >> 12) & 0x3F)) << 6) | ((cp >> 6) & 0x3F)) << 6) | (cp & 0x3F) == cp
  {
  }

  // ---- one code point inside a string ----

  /** The encoding of cp stands at i. */
  ghost predicate Stands(s: seq<bv8>, i: nat, cp: bv32) {
    i + |Units(cp)| < |s| && forall k :: 0 <= k < |Units(cp)| ==> s[i + k] == Units(cp)[k]
  }

  lemma CollectNext(s: seq<bv8>, p: nat, remaining: nat, result: bv32)
    requires Terminated(s) && p < |s|
    ensures remaining == 0 ==> Collect(s, p, remaining, result) == result
    ensures remaining > 0 && s[p] != 0 && Continuation(s[p]) ==>
              p + 1 < |s| && Collect(s, p, remaining, result) == Collect(s, p + 1, remaining - 1, Join(result, s[p]))
  {
  }

  lemma CharStarts(s: seq<bv8>, i: nat, cp: bv32)
    requires Terminated(s) && Scalar(cp) && Stands(s, i, cp)
    ensures var u := Units(cp);
            GetChar(s, i) == if |u| == 1 then LeadBits(u[0]) else Collect(s, i + 1, |u| - 1, LeadBits(u[0]))
  {
    hide Units, LeadBits, Collect, Continuation, Remaining;
    UnitsShape(cp);
  }

  lemma UnitsParts(cp: bv32)
    ensures 0x80 <= cp < 0x800 ==> Units(cp) == [Byte(0xC0 | (cp >> 6)), Tail(cp)] && cp >> 6 < 0x20
    ensures 0x800 <= cp < 0x10000 ==>
              Units(cp) == [Byte(0xE0 | (cp >> 12)), Tail(cp >> 6), Tail(cp)] && cp >> 12 < 0x10
    ensures 0x10000 <= cp < 0x110000 ==>
              Units(cp) == [Byte(0xF0 | (cp >> 18)), Tail(cp >> 12), Tail(cp >> 6), Tail(cp)] && cp >> 18 < 0x08
  {
    hide Byte, Tail;
  }

  lemma BitsTwo(cp: bv32)
    requires 0x80 <= cp < 0x800
    ensures var u := Units(cp); |u| == 2 && Join(LeadBits(u[0]), u[1]) == cp
  {
    hide LeadBits, Byte, Tail, Units;
    UnitsParts(cp);
    LeadBack(cp >> 6);
    TailBits(cp);
    JoinBack(cp);
  }

  lemma BitsThree(cp: bv32)
    requires 0x800 <= cp < 0x10000
    ensures var u := Units(cp); |u| == 3 && Join(Join(LeadBits(u[0]), u[1]), u[2]) == cp
  {
    hide LeadBits, Byte, Tail, Units;
    UnitsParts(cp);
    LeadBack(cp >> 12);
    TailBits(cp >> 6);
    TailBits(cp);
    JoinBack(cp);
  }

  lemma BitsFour(cp: bv32)
    requires 0x10000 <= cp < 0x110000
    ensures var u := Units(cp); |u| == 4 && Join(Join(Join(LeadBits(u[0]), u[1]), u[2]), u[3]) == cp
  {
    hide LeadBits, Byte, Tail, Units;
    UnitsParts(cp);
    LeadBack(cp >> 18);
    TailBits(cp >> 12);
    TailBits(cp >> 6);
    TailBits(cp);
    JoinBack(cp);
  }

  /** The bits gathered from the continuations of an encoding. */
  lemma ReadsMany(s: seq<bv8>, i: nat, cp: bv32)
    requires Terminated(s) && Scalar(cp) && Stands(s, i, cp) && |Units(cp)| > 1
    ensures var u := Units(cp);
            GetChar(s, i) ==
            if |u| == 2 then Join(LeadBits(u[0]), u[1])
            else if |u| == 3 then Join(Join(LeadBits(u[0]), u[1]), u[2])
            else Join(Join(Join(LeadBits(u[0]), u[1]), u[2]), u[3])
  {
    hide Units, LeadBits, Join, Collect, Continuation, Remaining, GetChar, Scalar;
    var u := Units(cp);
    CharStarts(s, i, cp);
    UnitsShape(cp);
    assert s[i + 1] == u[1];
    var a := Join(LeadBits(u[0]), u[1]);
    CollectNext(s, i + 1, |u| - 1, LeadBits(u[0]));
    if |u| == 2 {
      CollectNext(s, i + 2, 0, a);
    } else {
      assert s[i + 2] == u[2];
      CollectNext(s, i + 2, |u| - 2, a);
      if |u| == 3 {
        CollectNext(s, i + 3, 0, Join(a, u[2]));
      } else {
        assert s[i + 3] == u[3];
        CollectNext(s, i + 3, 1, Join(a, u[2]));
        CollectNext(s, i + 4, 0, Join(Join(a, u[2]), u[3]));
      }
    }
  }

  lemma ReadsOne(s: seq<bv8>, i: nat, cp: bv32)
    requires Terminated(s) && 0 < cp < 0x80 && Stands(s, i, cp)
    ensures GetChar(s, i) == cp
  {
    CharStarts(s, i, cp);
  }

  /** Reading where an encoding stands gives its code point. */
  lemma ReadsBack(s: seq<bv8>, i: nat, cp: bv32)
    requires Terminated(s) && Scalar(cp) && Stands(s, i, cp)
    ensures GetChar(s, i) == cp
  {
    hide GetChar, Stands, Units, Join, LeadBits;
    if cp < 0x80 {
      ReadsOne(s, i, cp);
    } else if cp < 0x800 {
      BitsTwo(cp);
      ReadsMany(s, i, cp);
    } else if cp < 0x10000 {
      BitsThree(cp);
      ReadsMany(s, i, cp);
    } else {
      BitsFour(cp);
      ReadsMany(s, i, cp);
    }
  }

  /** How many bytes follow the first of a character; minus one where no character starts. */
  function Following(c: bv8): int {
    if c < 0x80 then 0 else if c < 0xC0 || c >= 0xF8 then -1 else if c < 0xE0 then 1 else if c < 0xF0 then 2 else 3
  }

  lemma ByteRanges(c: bv8)
    ensures Remaining(c) == Following(c) && (Continuation(c) <==> 0x80 <= c < 0xC0)
  {
  }

  lemma {:induction false} CollectBroken(s: seq<bv8>, p: nat, remaining: nat, result: bv32, k: nat)
    requires Terminated(s) && p <= k < |s| && k < p + remaining && (s[k] < 0x80 || s[k] >= 0xC0)
    ensures Collect(s, p, remaining, result) == REPLACEMENT
    decreases remaining
  {
    hide Join, Continuation;
    ByteRanges(s[k]);
    if p < k && s[p] != 0 && Continuation(s[p]) {
      CollectBroken(s, p + 1, remaining - 1, Join(result, s[p]), k);
    }
  }

  /** A byte that starts nothing, or a character broken off before its last byte, reads as U+FFFD. */
  lemma ReadsBroken(s: seq<bv8>, i: nat, k: nat)
    requires Terminated(s) && i < |s| && s[i] != 0
    requires Following(s[i]) < 0 ||
             (i < k < |s| && k <= i + Following(s[i]) && (s[k] < 0x80 || s[k] >= 0xC0))
    ensures GetChar(s, i) == 0xFFFD
  {
    hide Remaining, Collect, Following, Continuation, LeadBits;
    ByteRanges(s[i]);
    if Following(s[i]) >= 0 {
      CollectBroken(s, i + 1, Following(s[i]), LeadBits(s[i]), k);
    }
  }

  /** A step forward, in any text, ends at the next byte that is no continuation, a step back at the last
      one before, or at the start. */
  lemma StepsExactly(s: seq<bv8>, i: nat, start: nat)
    requires Terminated(s) && i < |s| && start <= i
    ensures var r := Next(s, i);
            && (s[i] == 0 ==> r == i)
            && (forall k :: i < k < r ==> 0x80 <= s[k] < 0xC0) && (s[i] != 0 ==> i < r && !(0x80 <= s[r] < 0xC0))
    ensures var r := Prev(s, i, start);
            && start <= r <= i && (forall k :: r < k < i ==> 0x80 <= s[k] < 0xC0)
            && (start < i ==> r < i && (r == start || !(0x80 <= s[r] < 0xC0)))
  {
    hide Continuation;
    if s[i] != 0 {
      SkippedExactly(s, i + 1);
    }
    if start < i {
      BackedExactly(s, i - 1, start);
    }
  }

  lemma {:induction false} SkippedExactly(s: seq<bv8>, p: nat)
    requires Terminated(s) && p < |s|
    ensures var r := SkipContinuations(s, p);
            (forall k :: p <= k < r ==> 0x80 <= s[k] < 0xC0) && !(0x80 <= s[r] < 0xC0)
    decreases |s| - p
  {
    hide Continuation;
    ByteRanges(s[p]);
    if s[p] != 0 && Continuation(s[p]) {
      SkippedExactly(s, p + 1);
    }
  }

  lemma {:induction false} BackedExactly(s: seq<bv8>, p: nat, start: nat)
    requires start <= p < |s|
    ensures var r := BackOver(s, p, start);
            (forall k :: r < k <= p ==> 0x80 <= s[k] < 0xC0) && (r == start || !(0x80 <= s[r] < 0xC0))
    decreases p
  {
    hide Continuation;
    ByteRanges(s[p]);
    if p > start && Continuation(s[p]) {
      BackedExactly(s, p - 1, start);
    }
  }

  lemma {:induction false} SkipsTo(s: seq<bv8>, p: nat, q: nat)
    requires Terminated(s) && p <= q < |s| && (s[q] == 0 || !Continuation(s[q]))
    requires forall k :: p <= k < q ==> s[k] != 0 && Continuation(s[k])
    ensures SkipContinuations(s, p) == q
    decreases q - p
  {
    hide Continuation;
    if p < q {
      SkipsTo(s, p + 1, q);
    }
  }

  lemma {:induction false} BacksTo(s: seq<bv8>, p: nat, q: nat, start: nat)
    requires start <= q <= p < |s| && !Continuation(s[q])
    requires forall k :: q < k <= p ==> Continuation(s[k])
    ensures BackOver(s, p, start) == q
    decreases p - q
  {
    hide Continuation;
    if q < p {
      BacksTo(s, p - 1, q, start);
    }
  }

  /** Forward over one encoding and back again. */
  lemma StepsOver(s: seq<bv8>, i: nat, cp: bv32, start: nat)
    requires Terminated(s) && Scalar(cp) && Stands(s, i, cp) && start <= i
    requires var j := i + |Units(cp)|; s[j] == 0 || !Continuation(s[j])
    ensures Next(s, i) == i + |Units(cp)| && Prev(s, i + |Units(cp)|, start) == i && s[i] != 0
  {
    hide Units, Continuation, Remaining, BackOver, SkipContinuations;
    UnitsShape(cp);
    var j := i + |Units(cp)|;
    forall k | i < k < j ensures s[k] != 0 && Continuation(s[k]) {
      assert s[i + (k - i)] == Units(cp)[k - i];
    }
    assert s[i + 0] == Units(cp)[0];
    SkipsTo(s, i + 1, j);
    BacksTo(s, j - 1, i, start);
  }

  // ---- whole strings ----

  ghost predicate AllScalar(cps: seq<bv32>) {
    forall i :: 0 <= i < |cps| ==> Scalar(cps[i])
  }

  function EncodeAll(cps: seq<bv32>): seq<bv8> {
    if cps == [] then [] else Units(cps[0]) + EncodeAll(cps[1..])
  }

  /** The NUL-terminated text of a sequence of code points. */
  function Text(cps: seq<bv32>): seq<bv8> {
    EncodeAll(cps) + [0]
  }

  /** Where the encoding of the rest begins, the next byte is no continuation. */
  lemma RestStarts(cps: seq<bv32>)
    requires AllScalar(cps)
    ensures Text(cps)[0] == 0 <==> cps == []
    ensures !Continuation(Text(cps)[0])
  {
    hide Units, Remaining;
    if cps != [] {
      UnitsShape(cps[0]);
    }
  }

  lemma TextCons(pre: seq<bv8>, cps: seq<bv32>)
    requires cps != [] && AllScalar(cps)
    ensures var s := pre + Text(cps); var u := Units(cps[0]);
            && Terminated(s) && Stands(s, |pre|, cps[0]) && s == (pre + u) + Text(cps[1..])
            && s[|pre| + |u|] == Text(cps[1..])[0]
  {
    hide Units;
    var s := pre + Text(cps);
    var u := Units(cps[0]);
    assert s == pre + u + Text(cps[1..]);
    assert |Text(cps[1..])| > 0;
  }

  /** Walking the text of any code points gives them back, one at a time and in order. */
  lemma {:induction false} WalkBack(pre: seq<bv8>, cps: seq<bv32>)
    requires AllScalar(cps)
    ensures Terminated(pre + Text(cps)) && Walk(pre + Text(cps), |pre|) == cps
    decreases |cps|
  {
    hide Units, GetChar, Next, Text, Stands, Continuation;
    var s := pre + Text(cps);
    RestStarts(cps);
    if cps == [] {
      EmptyText(pre);
    } else {
      TextCons(pre, cps);
      RestStarts(cps[1..]);
      ReadsBack(s, |pre|, cps[0]);
      StepsOver(s, |pre|, cps[0], |pre|);
      WalkBack(pre + Units(cps[0]), cps[1..]);
      assert cps == [cps[0]] + cps[1..];
    }
  }

  lemma EmptyText(pre: seq<bv8>)
    ensures Terminated(pre + Text([])) && |pre + Text([])| == |pre| + 1 && (pre + Text([]))[|pre|] == 0
    ensures Strlen(Text([])) == 0
  {
  }

  /** Round trip, whole. */
  lemma RoundTrip(cps: seq<bv32>)
    requires AllScalar(cps)
    ensures Walk(Text(cps), 0) == cps
  {
    hide Text, Walk;
    WalkBack([], cps);
    assert [] + Text(cps) == Text(cps);
  }

  lemma {:induction false} StrlenSkips(u: seq<bv8>, n: nat, tail: seq<bv8>)
    requires n <= |u| && forall k :: n <= k < |u| ==> u[k] != 0 && Continuation(u[k])
    ensures Strlen(u[n..] + tail) == Strlen(tail)
    decreases |u| - n
  {
    hide Continuation;
    if n == |u| {
      assert u[n..] + tail == tail;
    } else {
      StrlenSkips(u, n + 1, tail);
      assert (u[n..] + tail)[1..] == u[n + 1..] + tail;
    }
  }

  lemma StrlenLead(b: bv8, rest: seq<bv8>)
    requires b != 0 && !Continuation(b)
    ensures Strlen([b] + rest) == 1 + Strlen(rest)
  {
    hide Continuation;
    assert ([b] + rest)[1..] == rest;
  }

  /** The length of a text is its number of code points. */
  lemma {:induction false} StrlenCounts(cps: seq<bv32>)
    requires AllScalar(cps)
    ensures Strlen(Text(cps)) == |cps|
  {
    hide Units, Continuation, Remaining, Strlen;
    if cps == [] {
      EmptyText([]);
    } else {
      var u := Units(cps[0]);
      UnitsShape(cps[0]);
      StrlenCounts(cps[1..]);
      StrlenSkips(u, 1, Text(cps[1..]));
      StrlenLead(u[0], u[1..] + Text(cps[1..]));
      assert Text(cps) == [u[0]] + (u[1..] + Text(cps[1..]));
    }
  }

  /** Character boundaries reached by walking forwards from i. */
  function Boundaries(s: seq<bv8>, i: nat): seq<nat>
    requires Terminated(s) && i < |s|
    decreases |s| - i
  {
    if s[i] == 0 then [i] else [i] + Boundaries(s, Next(s, i))
  }

  /** Walking back from the end visits the same boundaries in reverse: each boundary's predecessor
      is the one before it. */
  lemma {:induction false} BackVisits(pre: seq<bv8>, cps: seq<bv32>, k: nat)
    requires AllScalar(cps) && k < |cps|
    ensures var s := pre + Text(cps);
            && Terminated(s)
            && var b := Boundaries(s, |pre|);
               |b| == |cps| + 1 && b[0] == |pre| && b[|cps|] == |s| - 1
               && b[k + 1] <= |s| && Prev(s, b[k + 1], |pre|) == b[k]
    decreases |cps|
  {
    hide Units, GetChar, Next, Text, Stands, Continuation, Prev, Boundaries;
    var s := pre + Text(cps);
    TextCons(pre, cps);
    RestStarts(cps[1..]);
    var j := |pre| + |Units(cps[0])|;
    StepsOver(s, |pre|, cps[0], |pre|);
    var b := Boundaries(s, |pre|);
    assert b == [|pre|] + Boundaries(s, j) by { BoundaryCons(s, |pre|); }
    var before := pre + Units(cps[0]);
    BoundaryEnds(before, cps[1..]);
    if k > 0 {
      BackVisits(before, cps[1..], k - 1);
      var c := Boundaries(s, j);
      assert Prev(s, c[k], j) == c[k - 1] && c[k - 1] >= j;
      PrevFloor(s, c[k], j, |pre|);
    }
  }

  lemma BoundaryCons(s: seq<bv8>, i: nat)
    requires Terminated(s) && i < |s|
    ensures s[i] == 0 ==> Boundaries(s, i) == [i]
    ensures s[i] != 0 ==> Boundaries(s, i) == [i] + Boundaries(s, Next(s, i))
  {
  }

  lemma {:induction false} BoundaryEnds(pre: seq<bv8>, cps: seq<bv32>)
    requires AllScalar(cps)
    ensures var s := pre + Text(cps);
            && Terminated(s)
            && var b := Boundaries(s, |pre|);
               && |b| == |cps| + 1 && b[0] == |pre| && b[|cps|] == |s| - 1
               && forall k :: 0 < k < |b| ==> |pre| < b[k] < |s|
    decreases |cps|
  {
    hide Units, GetChar, Next, Stands, Continuation, Text, Boundaries;
    var s := pre + Text(cps);
    RestStarts(cps);
    if cps == [] {
      EmptyText(pre);
      BoundaryCons(s, |pre|);
    } else {
      TextCons(pre, cps);
      RestStarts(cps[1..]);
      StepsOver(s, |pre|, cps[0], |pre|);
      BoundaryCons(s, |pre|);
      BoundaryEnds(pre + Units(cps[0]), cps[1..]);
    }
  }

  /** A lower floor does not matter when the walk back stops on a non-continuation above it. */
  lemma {:induction false} FloorAside(s: seq<bv8>, p: nat, high: nat, low: nat)
    requires low <= high <= p < |s| && !Continuation(s[high])
    ensures BackOver(s, p, low) == BackOver(s, p, high)
    decreases p
  {
    hide Continuation;
    if p > high && Continuation(s[p]) {
      FloorAside(s, p - 1, high, low);
    }
  }

  lemma PrevFloor(s: seq<bv8>, i: nat, high: nat, low: nat)
    requires low <= high < i <= |s| && high < |s| && !Continuation(s[high])
    ensures Prev(s, i, low) == Prev(s, i, high)
  {
    hide Continuation;
    FloorAside(s, i - 1, high, low);
  }
}
