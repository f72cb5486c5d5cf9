/** Truncation of prompt text to a byte budget without cutting a character (internal/exec/prompt.go). */
module Prompt {

  type Bytes = seq<bv8>

  predicate Tail(b: bv8) {
    b & 0xC0 == 0x80
  }

  /** The length of the character s starts with, by section 4 of RFC 3629; 0 when it starts with none. */
  function CharLen(s: Bytes): (n: nat)
    ensures n <= |s| && n <= 4
    ensures forall i :: 1 <= i < n ==> Tail(s[i])
    ensures n > 0 ==> !Tail(s[0])
  {
    if s == [] then 0
    else if s[0] <= 0x7F then 1
    else if 0xC2 <= s[0] <= 0xDF then
      if |s| >= 2 && Tail(s[1]) then 2 else 0
    else if 0xE0 <= s[0] <= 0xEF then
      if |s| >= 3 && SecondOfThree(s[0], s[1]) && Tail(s[2]) then 3 else 0
    else if 0xF0 <= s[0] <= 0xF4 then
      if |s| >= 4 && SecondOfFour(s[0], s[1]) && Tail(s[2]) && Tail(s[3]) then 4 else 0
    else 0
  }

  /** No overlong form, no surrogate. */
  predicate SecondOfThree(first: bv8, second: bv8) {
    Tail(second) && (first == 0xE0 ==> 0xA0 <= second) && (first == 0xED ==> second <= 0x9F)
  }

  /** No overlong form, nothing above U+10FFFF. */
  predicate SecondOfFour(first: bv8, second: bv8) {
    Tail(second) && (first == 0xF0 ==> 0x90 <= second) && (first == 0xF4 ==> second <= 0x8F)
  }

  predicate Within(s: Bytes, i: nat, low: bv8, high: bv8) {
    i < |s| && low <= s[i] <= high
  }

  lemma TailMeans(b: bv8)
    ensures Tail(b) <==> 0x80 <= b <= 0xBF
  {
  }

  /** The grammar of that section, rule by rule. */
  lemma CharLenIff(s: Bytes)
    ensures CharLen(s) == 1 <==> Within(s, 0, 0x00, 0x7F)
    ensures CharLen(s) == 2 <==> Within(s, 0, 0xC2, 0xDF) && Within(s, 1, 0x80, 0xBF)
    ensures CharLen(s) == 3 <==>
              || (Within(s, 0, 0xE0, 0xE0) && Within(s, 1, 0xA0, 0xBF) && Within(s, 2, 0x80, 0xBF))
              || (Within(s, 0, 0xE1, 0xEC) && Within(s, 1, 0x80, 0xBF) && Within(s, 2, 0x80, 0xBF))
              || (Within(s, 0, 0xED, 0xED) && Within(s, 1, 0x80, 0x9F) && Within(s, 2, 0x80, 0xBF))
              || (Within(s, 0, 0xEE, 0xEF) && Within(s, 1, 0x80, 0xBF) && Within(s, 2, 0x80, 0xBF))
    ensures CharLen(s) == 4 <==>
              || (Within(s, 0, 0xF0, 0xF0) && Within(s, 1, 0x90, 0xBF) && Within(s, 2, 0x80, 0xBF) && Within(s, 3, 0x80, 0xBF))
              || (Within(s, 0, 0xF1, 0xF3) && Within(s, 1, 0x80, 0xBF) && Within(s, 2, 0x80, 0xBF) && Within(s, 3, 0x80, 0xBF))
              || (Within(s, 0, 0xF4, 0xF4) && Within(s, 1, 0x80, 0x8F) && Within(s, 2, 0x80, 0xBF) && Within(s, 3, 0x80, 0xBF))
  {
    forall i | 0 <= i < |s| ensures Tail(s[i]) <==> 0x80 <= s[i] <= 0xBF { TailMeans(s[i]); }
    hide Tail;
  }

  predicate ValidUtf8(s: Bytes)
    decreases |s|
  {
    s == [] || (CharLen(s) > 0 && ValidUtf8(s[CharLen(s)..]))
  }

  /** "\n...[", "truncated", " for ", "context ", "limit" and "]\n". */
  const OPENING: Bytes := [10, 46, 46, 46, 91]
  const TRUNCATED: Bytes := [116, 114, 117, 110, 99, 97, 116, 101, 100]
  const FOR: Bytes := [32, 102, 111, 114, 32]
  const CONTEXT: Bytes := [99, 111, 110, 116, 101, 120, 116, 32]
  const LIMIT: Bytes := [108, 105, 109, 105, 116]
  const CLOSING: Bytes := [93, 10]

  const MARKER: Bytes := OPENING + TRUNCATED + FOR + CONTEXT + LIMIT + CLOSING

  predicate Spells(b: Bytes, text: string) {
    |b| == |text| && forall i :: 0 <= i < |b| ==> b[i] as int == text[i] as int
  }

  lemma SpellsOn(b: Bytes, text: string, c: Bytes, more: string)
    requires Spells(b, text) && Spells(c, more)
    ensures Spells(b + c, text + more)
  {
  }

  /** What the marker spells. */
  lemma MarkerSpells()
    ensures Spells(MARKER, "\n...[" + "truncated" + " for " + "context " + "limit" + "]\n")
  {
    assert Spells(OPENING, "\n...[") && Spells(TRUNCATED, "truncated") && Spells(FOR, " for ");
    assert Spells(CONTEXT, "context ") && Spells(LIMIT, "limit") && Spells(CLOSING, "]\n");
    hide Spells, OPENING, TRUNCATED, FOR, CONTEXT, LIMIT, CLOSING;
    SpellsOn(OPENING, "\n...[", TRUNCATED, "truncated");
    SpellsOn(OPENING + TRUNCATED, "\n...[" + "truncated", FOR, " for ");
    SpellsOn(OPENING + TRUNCATED + FOR, "\n...[" + "truncated" + " for ", CONTEXT, "context ");
    SpellsOn(OPENING + TRUNCATED + FOR + CONTEXT, "\n...[" + "truncated" + " for " + "context ", LIMIT, "limit");
    SpellsOn(OPENING + TRUNCATED + FOR + CONTEXT + LIMIT, "\n...[" + "truncated" + " for " + "context " + "limit",
             CLOSING, "]\n");
  }

  lemma {:induction false} AsciiIsValid(s: Bytes)
    requires forall i :: 0 <= i < |s| ==> s[i] <= 0x7F
    ensures ValidUtf8(s)
    decreases |s|
  {
    if s != [] { AsciiIsValid(s[1..]); }
  }

  lemma SameChar(s: Bytes, t: Bytes)
    requires s <= t && CharLen(s) > 0
    ensures CharLen(t) == CharLen(s)
  {
  }

  lemma {:induction false} ValidConcat(s: Bytes, t: Bytes)
    requires ValidUtf8(s) && ValidUtf8(t)
    ensures ValidUtf8(s + t)
    decreases |s|
  {
    if s == [] {
      assert s + t == t;
    } else {
      var n := CharLen(s);
      SameChar(s, s + t);
      assert (s + t)[n..] == s[n..] + t;
      ValidConcat(s[n..], t);
    }
  }

  /** A cut inside a valid text falls between characters iff the byte after it is no continuation byte. */
  lemma {:induction false} CutIsValidIff(s: Bytes, j: nat)
    requires ValidUtf8(s) && j < |s|
    ensures ValidUtf8(s[..j]) <==> !Tail(s[j])
    decreases |s|
  {
    var n := CharLen(s);
    if j < n {
      ShortCut(s, j);
    } else {
      CutIsValidIff(s[n..], j - n);
      assert s[..j][n..] == s[n..][..j - n];
      assert s[..j] == s[..n] + s[n..][..j - n];
      FirstChar(s, j);
    }
  }

  lemma FirstChar(s: Bytes, j: nat)
    requires 0 < CharLen(s) <= j <= |s|
    ensures CharLen(s[..j]) == CharLen(s)
  {
  }

  lemma ShortCut(s: Bytes, j: nat)
    requires j < CharLen(s)
    ensures ValidUtf8(s[..j]) <==> j == 0
  {
    if j > 0 { assert CharLen(s[..j]) == 0; }
  }

  /** A valid text has at most three continuation bytes in a row. */
  lemma {:induction false} TailsAreShort(s: Bytes, a: nat, b: nat)
    requires ValidUtf8(s) && a <= b <= |s| && forall k :: a <= k < b ==> Tail(s[k])
    ensures b - a <= 3
    decreases |s|
  {
    if s != [] {
      var n := CharLen(s);
      if a >= n {
        TailsAreShort(s[n..], a - n, b - n);
      } else if n < |s| {
        FirstIsNoTail(s[n..]);
      }
    }
  }

  lemma MarkerIsValid()
    ensures ValidUtf8(MARKER)
  {
    hide ValidUtf8;
    AsciiIsValid(OPENING);
    AsciiIsValid(TRUNCATED);
    AsciiIsValid(FOR);
    AsciiIsValid(CONTEXT);
    AsciiIsValid(LIMIT);
    AsciiIsValid(CLOSING);
    ValidConcat(OPENING, TRUNCATED);
    ValidConcat(OPENING + TRUNCATED, FOR);
    ValidConcat(OPENING + TRUNCATED + FOR, CONTEXT);
    ValidConcat(OPENING + TRUNCATED + FOR + CONTEXT, LIMIT);
    ValidConcat(OPENING + TRUNCATED + FOR + CONTEXT + LIMIT, CLOSING);
  }

  /** Stepping back over continuation bytes from the budget finds the longest valid prefix within it. */
  lemma LongestCut(s: Bytes, k: nat, budget: nat)
    requires ValidUtf8(s) && k <= budget < |s| && (k == 0 || !Tail(s[k]))
    requires forall j :: k < j <= budget ==> Tail(s[j])
    ensures ValidUtf8(s[..k]) && budget - k <= 3 && ValidUtf8(s[..k] + MARKER)
    ensures forall j :: k < j <= budget ==> !ValidUtf8(s[..j])
  {
    hide Tail, ValidUtf8, CharLen;
    FirstIsNoTail(s);
    CutIsValidIff(s, k);
    TailsAreShort(s, k + 1, budget + 1);
    forall j | k < j <= budget ensures !ValidUtf8(s[..j]) { CutIsValidIff(s, j); }
    MarkerIsValid();
    ValidConcat(s[..k], MARKER);
  }

  /** Text within the limit is unchanged. Otherwise the result is the longest prefix that is valid UTF-8 and fits
      in front of the marker, and the marker; a limit shorter than the marker leaves just the marker. Valid text
      uses the limit but for at most three bytes. */
  method TruncateForContext(s: Bytes, maxLen: int) returns (r: Bytes, ghost keep: nat)
    ensures maxLen <= 0 || |s| <= maxLen ==> r == s
    ensures 0 < maxLen < |s| ==> keep <= |s| && r == s[..keep] + MARKER
    ensures 0 < maxLen < |s| && maxLen < |MARKER| ==> r == MARKER
    ensures |MARKER| <= maxLen < |s| ==> |r| <= maxLen
    ensures |MARKER| <= maxLen < |s| && ValidUtf8(s) ==> maxLen - 3 <= |r|
    ensures 0 < maxLen < |s| && ValidUtf8(s) ==>
              ValidUtf8(s[..keep]) && forall j :: keep < j && j + |MARKER| <= maxLen ==> !ValidUtf8(s[..j])
    ensures ValidUtf8(s) ==> ValidUtf8(r)
  {
    keep := 0;
    if maxLen <= 0 || |s| <= maxLen {
      return s, keep;
    }
    var k := maxLen - |MARKER|;
    if k < 0 {
      k := 0;
    }
    ghost var budget := k;
    while k > 0 && s[k] & 0xC0 == 0x80
      invariant 0 <= k <= budget < |s|
      invariant forall j :: k < j <= budget ==> Tail(s[j])
    {
      k := k - 1;
    }
    keep := k;
    if ValidUtf8(s) { LongestCut(s, k, budget); }
    r := s[..k] + MARKER;
  }

  lemma FirstIsNoTail(s: Bytes)
    requires ValidUtf8(s) && s != []
    ensures !Tail(s[0])
  {
  }
}
