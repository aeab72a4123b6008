/**
 * The progress display: the caught prefix of the target, each token
 * HTML-escaped and wrapped in a pill, joined by spaces
 * (js/catch.js `renderProgress`). The DOM write itself is not modelled.
 */
module Progress {

  /** Every occurrence of `c` in `s` replaced by `rep`, like `replace(/c/g, rep)`. */
  function ReplaceAll(s: string, c: char, rep: string): string
    decreases |s|
  {
    if s == [] then []
    else (if s[0] == c then rep else [s[0]]) + ReplaceAll(s[1..], c, rep)
  }

  /**
   * The three replacements in the order the source applies them: `&`
   * first, then `<`, then `>`. The result is the one-pass escape, so no
   * entity is escaped twice.
   */
  function Escape(s: string): (r: string)
    ensures r == EscapeOnce(s)
  {
    EscapeIsOnePass(s);
    ReplaceAll(ReplaceAll(ReplaceAll(s, '&', "&amp;"), '<', "&lt;"), '>', "&gt;")
  }

  function EscapeChar(c: char): string
  {
    if c == '&' then "&amp;" else if c == '<' then "&lt;" else if c == '>' then "&gt;" else [c]
  }

  /** Reference definition: each character escaped on its own, in one pass. */
  function EscapeOnce(s: string): (r: string)
    ensures forall i :: 0 <= i < |r| ==> r[i] != '<' && r[i] != '>'
    ensures |r| >= |s|
    decreases |s|
  {
    if s == [] then [] else EscapeChar(s[0]) + EscapeOnce(s[1..])
  }

  /** Decoding of the three entities; every other character stands for itself. */
  function Unescape(t: string): string
    decreases |t|
  {
    if t == [] then []
    else if |t| >= 5 && t[..5] == "&amp;" then "&" + Unescape(t[5..])
    else if |t| >= 4 && t[..4] == "&lt;" then "<" + Unescape(t[4..])
    else if |t| >= 4 && t[..4] == "&gt;" then ">" + Unescape(t[4..])
    else [t[0]] + Unescape(t[1..])
  }

  lemma {:induction false} ReplaceAllAppend(a: string, b: string, c: char, rep: string)
    ensures ReplaceAll(a + b, c, rep) == ReplaceAll(a, c, rep) + ReplaceAll(b, c, rep)
    decreases |a|
  {
    if a == [] {
      assert a + b == b;
    } else {
      assert (a + b)[0] == a[0] && (a + b)[1..] == a[1..] + b;
      ReplaceAllAppend(a[1..], b, c, rep);
    }
  }

  /** The sequential replacements equal the one-pass escape: no entity is escaped twice. */
  lemma {:induction false} EscapeIsOnePass(s: string)
    ensures ReplaceAll(ReplaceAll(ReplaceAll(s, '&', "&amp;"), '<', "&lt;"), '>', "&gt;") == EscapeOnce(s)
    decreases |s|
  {
    if s != [] {
      EscapeIsOnePass(s[1..]);
      var c, rest := s[0], s[1..];
      assert s == [c] + rest;
      ReplaceAllAppend([c], rest, '&', "&amp;");
      var a1 := ReplaceAll([c], '&', "&amp;");
      var a2 := ReplaceAll(rest, '&', "&amp;");
      ReplaceAllAppend(a1, a2, '<', "&lt;");
      var b1 := ReplaceAll(a1, '<', "&lt;");
      var b2 := ReplaceAll(a2, '<', "&lt;");
      ReplaceAllAppend(b1, b2, '>', "&gt;");
      EscapeOneChar(c);
    }
  }

  /** For a single character the three replacements give its escape. */
  lemma EscapeOneChar(c: char)
    ensures ReplaceAll(ReplaceAll(ReplaceAll([c], '&', "&amp;"), '<', "&lt;"), '>', "&gt;") == EscapeChar(c)
  {
    assert [c][1..] == [];
    if c == '&' {
      assert ReplaceAll([c], '&', "&amp;") == "&amp;";
      assert '<' !in "&amp;" && '>' !in "&amp;";
      NoBracketsStay("&amp;");
    } else if c == '<' {
      assert ReplaceAll([c], '&', "&amp;") == [c];
      assert ReplaceAll([c], '<', "&lt;") == "&lt;";
    } else if c == '>' {
      assert ReplaceAll([c], '&', "&amp;") == [c];
      assert ReplaceAll([c], '<', "&lt;") == [c];
      assert ReplaceAll([c], '>', "&gt;") == "&gt;";
    } else {
      assert ReplaceAll([c], '&', "&amp;") == [c];
      assert ReplaceAll([c], '<', "&lt;") == [c];
      assert ReplaceAll([c], '>', "&gt;") == [c];
    }
  }

  /** Text without angle brackets (such as the entity for `&`) is kept by the later replacements. */
  lemma NoBracketsStay(s: string)
    requires '<' !in s && '>' !in s
    ensures ReplaceAll(ReplaceAll(s, '<', "&lt;"), '>', "&gt;") == s
  {
  }


  /** Decoding the escaped text gives back the token. */
  lemma {:induction false} UnescapeEscapeOnce(s: string)
    ensures Unescape(EscapeOnce(s)) == s
    decreases |s|
  {
    if s != [] {
      var c, rest := s[0], s[1..];
      var t := EscapeOnce(s);
      var e := EscapeOnce(rest);
      assert t == EscapeChar(c) + e;
      UnescapeEscapeOnce(rest);
      if c == '&' {
        assert t[..5] == "&amp;" && t[5..] == e;
      } else if c == '<' {
        assert t[1] == 'l' && "&amp;"[1] == 'a';
        assert t[..4] == "&lt;" && t[4..] == e;
      } else if c == '>' {
        assert t[1] == 'g' && "&amp;"[1] == 'a' && "&lt;"[1] == 'l';
        assert t[..4] == "&gt;" && t[4..] == e;
      } else {
        assert t[0] == c && t[1..] == e;
        assert |t| >= 4 ==> t[..4][0] != '&';
        assert |t| >= 5 ==> t[..5][0] != '&';
      }
      assert s == [c] + rest;
    }
  }

  /** Escaping is undone by decoding, and the escaped text holds no angle bracket. */
  lemma EscapeRoundTrip(s: string)
    ensures Unescape(Escape(s)) == s
    ensures forall i :: 0 <= i < |Escape(s)| ==> Escape(s)[i] != '<' && Escape(s)[i] != '>'
  {
    EscapeIsOnePass(s);
    UnescapeEscapeOnce(s);
  }

  const PILL_OPEN: string := "<span class=\"target-token caught\">"
  const PILL_CLOSE: string := "</span>"

  /** One caught token as displayed. */
  function Pill(token: string): string
  {
    PILL_OPEN + Escape(token) + PILL_CLOSE
  }

  /** The pills of `tokens` joined by single spaces, like `map(...).join(' ')`. */
  function JoinPills(tokens: seq<string>): (r: string)
    ensures tokens != [] ==> |r| >= |PILL_OPEN| + |PILL_CLOSE|
    ensures tokens != [] ==> Pill(tokens[0]) <= r
    ensures tokens == [] ==> r == ""
    decreases |tokens|
  {
    if tokens == [] then ""
    else if |tokens| == 1 then Pill(tokens[0])
    else JoinPills(tokens[..|tokens| - 1]) + " " + Pill(tokens[|tokens| - 1])
  }

  /** The progress display for the first `nextIndex` tokens of the target (`slice` clamps at the end). */
  function RenderProgress(targets: seq<string>, nextIndex: int): (r: string)
    ensures nextIndex <= 0 || targets == [] <==> r == ""
    ensures nextIndex > 0 && targets != [] ==> |r| >= |PILL_OPEN| + |PILL_CLOSE|
    ensures nextIndex > 0 && targets != [] ==> Pill(targets[0]) <= r
  {
    if nextIndex <= 0 then ""
    else JoinPills(targets[..if nextIndex <= |targets| then nextIndex else |targets|])
  }

  /** Nothing is shown before the first catch; the first catch shows one pill. */
  lemma RenderStart(targets: seq<string>)
    requires targets != []
    ensures RenderProgress(targets, 0) == ""
    ensures RenderProgress(targets, 1) == Pill(targets[0])
  {
  }

  /** Each correct catch appends exactly the newly caught token to the display. */
  lemma RenderGrows(targets: seq<string>, n: int)
    requires 0 < n < |targets|
    ensures RenderProgress(targets, n + 1) == RenderProgress(targets, n) + " " + Pill(targets[n])
  {
    var t := targets[..n + 1];
    assert t[..|t| - 1] == targets[..n];
  }

  /** Past the end of the target the display no longer changes. */
  lemma RenderSaturates(targets: seq<string>, n: int)
    requires n >= |targets|
    ensures RenderProgress(targets, n) == RenderProgress(targets, |targets|)
  {
  }

  /** Only caught tokens are shown: tokens still pending after `n` do not change the display. */
  lemma RenderShowsOnlyCaught(targets: seq<string>, pending: seq<string>, n: int)
    requires n <= |targets|
    ensures RenderProgress(targets + pending, n) == RenderProgress(targets, n)
  {
    if n > 0 {
      assert (targets + pending)[..n] == targets[..n];
    }
  }
}
