/**
 * Tokens: the strings carried by balloons and required by the target
 * sequence, the case-insensitive comparison between them, and the rule
 * that chooses the token of a newly spawned balloon (js/catch.js).
 */
module Tokens {
  import opened Optional

  /** ASCII upper-casing of one character; every other character is kept. */
  function UpperChar(c: char): char
  {
    if 'a' <= c <= 'z' then (c as int - 32) as char else c
  }

  /** `toUpperCase` restricted to ASCII letters. */
  function Upper(s: string): (r: string)
    ensures |r| == |s|
    ensures forall i :: 0 <= i < |s| ==> r[i] == UpperChar(s[i])
    ensures forall i :: 0 <= i < |r| ==> !('a' <= r[i] <= 'z')
  {
    seq(|s|, i requires 0 <= i < |s| => UpperChar(s[i]))
  }

  /** `String(x)` of a possibly missing token: a missing one reads "undefined". */
  function Show(t: Option<string>): (r: string)
    ensures t.Some? ==> r == t.value
    ensures t.None? ==> r == "undefined"
    ensures r == "" <==> t == Some("")
  {
    match t
    case Some(s) => s
    case None => "undefined"
  }

  /** `targetTokens[i]`: the token at `i`, or nothing past the end. */
  function NeedAt(targets: seq<string>, i: nat): (need: Option<string>)
    ensures need.Some? <==> i < |targets|
    ensures need.Some? ==> need.value == targets[i]
  {
    if i < |targets| then Some(targets[i]) else None
  }

  /** A caught token is the required one when both upper-case to the same string. */
  predicate Matches(token: string, need: Option<string>)
    ensures Matches(token, need) ==> |token| == |Show(need)|
    ensures need == Some(token) ==> Matches(token, need)
  {
    Upper(token) == Upper(Show(need))
  }

  /** Two characters that are equal up to the case of an ASCII letter. */
  predicate SameLetter(x: char, y: char)
  {
    || x == y
    || ('a' <= x <= 'z' && y as int == x as int - 32)
    || ('a' <= y <= 'z' && x as int == y as int - 32)
  }

  /** Reference definition of ASCII case-insensitive equality, character by character. */
  predicate EqualIgnoringCase(a: string, b: string)
  {
    |a| == |b| && forall i :: 0 <= i < |a| ==> SameLetter(a[i], b[i])
  }

  lemma UpperCharSame(x: char, y: char)
    ensures UpperChar(x) == UpperChar(y) <==> SameLetter(x, y)
  {
  }

  /** Matching against a present token is exactly case-insensitive equality. */
  lemma MatchesIffEqualIgnoringCase(token: string, need: string)
    ensures Matches(token, Some(need)) <==> EqualIgnoringCase(token, need)
  {
    var a, b := Upper(token), Upper(need);
    if a == b {
      forall i | 0 <= i < |token| ensures SameLetter(token[i], need[i]) {
        assert a[i] == b[i];
        UpperCharSame(token[i], need[i]);
      }
    }
    if EqualIgnoringCase(token, need) {
      forall i | 0 <= i < |a| ensures a[i] == b[i] {
        UpperCharSame(token[i], need[i]);
      }
    }
  }

  /** Upper-casing twice is upper-casing once, so the comparison ignores case on both sides. */
  lemma UpperIdempotent(s: string)
    ensures Upper(Upper(s)) == Upper(s)
  {
  }

  /** Past the end of the target the required token reads "undefined". */
  lemma MatchesPastEnd(token: string)
    ensures Matches(token, None) <==> Upper(token) == "UNDEFINED"
  {
  }

  /** A JavaScript-truthy token: present and not the empty string. */
  predicate Truthy(need: Option<string>)
  {
    need.Some? && need.value != ""
  }

  /**
   * The token of a new balloon: the needed one when the draw prefers it
   * and it is truthy; otherwise the pool member at the drawn index; with
   * an empty pool, the needed token or "?".
   */
  function ChooseToken(need: Option<string>, preferNeed: bool, pool: seq<string>, pick: nat): (token: string)
    requires pool == [] || pick < |pool|
    ensures preferNeed && Truthy(need) ==> token == need.value
    ensures !(preferNeed && Truthy(need)) && pool != [] ==> token == pool[pick]
    ensures token in pool || (Truthy(need) && token == need.value) || (pool == [] && !Truthy(need) && token == "?")
  {
    if preferNeed && Truthy(need) then need.value
    else if pool != [] then pool[pick]
    else if Truthy(need) then need.value
    else "?"
  }
}
