/**
 * Round setup: choosing the configuration item for the selected mode and
 * deriving the spawn pool, the target tokens, the fall speed and the
 * spawn interval from it (js/catch.js `pickItem`).
 */
module Setup {
  import opened Optional
  import opened Geometry

  /**
   * One configuration item as the data file gives it; absent fields are
   * None. `mode` is "letter" or "word" (anything but "letter" is read as
   * a word item).
   */
  datatype Item = Item(mode: string, target: Option<string>, targetWords: Option<seq<string>>,
                       alphabet: Option<string>, distractors: Option<string>,
                       wordBank: Option<seq<string>>, speed: Option<real>, spawnRate: Option<real>)

  /** What a round is played with: the mode, the spawn pool, the target tokens and the two rates. */
  datatype Config = Config(mode: string, pool: seq<string>, targets: seq<string>,
                           fallSpeed: real, spawnInterval: real)

  const DEFAULT_ALPHABET: string := "ABCDEFGHIJKLMNOPQRSTUVWXYZ"
  const DEFAULT_SPAWN_INTERVAL: real := 1200.0

  /** `s || fallback` for a string: an absent or empty string gives the fallback. */
  function TextOr(s: Option<string>, fallback: string): (r: string)
    ensures s.Some? && s.value != "" ==> r == s.value
    ensures !(s.Some? && s.value != "") ==> r == fallback
  {
    if s.Some? && s.value != "" then s.value else fallback
  }

  /** `n || fallback` for a number: an absent or zero number gives the fallback. */
  function NumberOr(n: Option<real>, fallback: real): (r: real)
    ensures n.Some? && n.value != 0.0 ==> r == n.value
    ensures !(n.Some? && n.value != 0.0) ==> r == fallback
  {
    if n.Some? && n.value != 0.0 then n.value else fallback
  }

  /** `s.split('')`: one single-character token per character. */
  function Chars(s: string): (r: seq<string>)
    ensures |r| == |s|
    ensures forall i :: 0 <= i < |s| ==> r[i] == [s[i]]
  {
    seq(|s|, i requires 0 <= i < |s| => [s[i]])
  }

  /** `tokens.join('')`. */
  function Concat(tokens: seq<string>): string
    decreases |tokens|
  {
    if tokens == [] then "" else tokens[0] + Concat(tokens[1..])
  }

  /** Splitting into characters and joining them back gives the string again. */
  lemma {:induction false} ConcatChars(s: string)
    ensures Concat(Chars(s)) == s
    decreases |s|
  {
    if s != [] {
      ConcatChars(s[1..]);
      assert Chars(s)[1..] == Chars(s[1..]);
      assert s == [s[0]] + s[1..];
    }
  }

  /** `selMode.value || 'letter'`: the selected mode, `letter` when none is selected; never empty. */
  function SelectedMode(selected: string): (mode: string)
    ensures mode != ""
    ensures selected != "" ==> mode == selected
    ensures selected == "" ==> mode == "letter"
  {
    TextOr(Some(selected), "letter")
  }

  /** `list.find(x => x.mode === mode)`, as an index. */
  function FirstWithMode(list: seq<Item>, mode: string): (k: Option<nat>)
    ensures k.Some? ==> k.value < |list| && list[k.value].mode == mode
    ensures k.Some? ==> forall j :: 0 <= j < k.value ==> list[j].mode != mode
    ensures k.None? ==> forall j :: 0 <= j < |list| ==> list[j].mode != mode
    decreases |list|
  {
    if list == [] then None
    else if list[0].mode == mode then Some(0)
    else
      match FirstWithMode(list[1..], mode)
      case Some(k) => Some(k + 1)
      case None => None
  }

  /** The item's pool and target tokens and its two rates. */
  function Configure(item: Item): (c: Config)
    ensures c.mode == item.mode
    ensures item.mode == "letter" ==>
      && Concat(c.targets) == TextOr(item.target, "")
      && Concat(c.pool) == TextOr(item.alphabet, DEFAULT_ALPHABET) + TextOr(item.distractors, "")
      && (forall i :: 0 <= i < |c.targets| ==> |c.targets[i]| == 1)
      && (forall i :: 0 <= i < |c.pool| ==> |c.pool[i]| == 1)
    ensures item.mode != "letter" ==>
      && c.targets == (if item.targetWords.Some? then item.targetWords.value else [])
      && c.pool == (if item.wordBank.Some? && item.wordBank.value != [] then item.wordBank.value else c.targets)
    ensures c.fallSpeed == BASE_FALL_SPEED * NumberOr(item.speed, 1.0)
    ensures c.spawnInterval == NumberOr(item.spawnRate, DEFAULT_SPAWN_INTERVAL)
  {
    if item.mode == "letter" then
      var alphabet := TextOr(item.alphabet, DEFAULT_ALPHABET);
      var distractors := TextOr(item.distractors, "");
      ConcatChars(alphabet + distractors);
      ConcatChars(TextOr(item.target, ""));
      Config(item.mode, Chars(alphabet + distractors), Chars(TextOr(item.target, "")),
             BASE_FALL_SPEED * NumberOr(item.speed, 1.0), NumberOr(item.spawnRate, DEFAULT_SPAWN_INTERVAL))
    else
      var targets := if item.targetWords.Some? then item.targetWords.value else [];
      var pool := if item.wordBank.Some? && item.wordBank.value != [] then item.wordBank.value else targets;
      Config(item.mode, pool, targets,
             BASE_FALL_SPEED * NumberOr(item.speed, 1.0), NumberOr(item.spawnRate, DEFAULT_SPAWN_INTERVAL))
  }

  /**
   * The configuration of a round for the items of the current selection:
   * nothing for an empty list; otherwise the first item of the selected
   * mode, or the first item when none has that mode.
   */
  function PickItem(list: seq<Item>, selected: string): (r: Option<Config>)
    ensures r.None? <==> list == []
    ensures r.Some? ==>
      exists k :: (0 <= k < |list| && r.value == Configure(list[k])
        && (forall j :: 0 <= j < k ==> list[j].mode != SelectedMode(selected))
        && (list[k].mode == SelectedMode(selected)
            || (k == 0 && forall j :: 0 <= j < |list| ==> list[j].mode != SelectedMode(selected))))
  {
    if list == [] then None
    else
      var k := match FirstWithMode(list, SelectedMode(selected)) case Some(k) => k case None => 0;
      Some(Configure(list[k]))
  }

  /**
   * The target tokens of an item, or none without an item
   * (`buildTokensForDisplay`): exactly the targets a round with the item
   * must collect.
   */
  function DisplayTokens(item: Option<Item>): (r: seq<string>)
    ensures item.None? ==> r == []
    ensures item.Some? ==> r == Configure(item.value).targets
    ensures item.Some? && item.value.mode == "letter" ==> Concat(r) == TextOr(item.value.target, "")
  {
    match item
    case None => []
    case Some(it) =>
      if it.mode == "letter" then Chars(TextOr(it.target, ""))
      else if it.targetWords.Some? then it.targetWords.value else []
  }

  /** In word mode without a word bank every target word can be spawned. */
  lemma WordPoolCoversTargets(item: Item)
    requires item.mode != "letter"
    requires item.wordBank.None? || item.wordBank.value == []
    ensures forall i :: 0 <= i < |Configure(item).targets| ==> Configure(item).targets[i] in Configure(item).pool
  {
  }

  /** In letter mode every alphabet and distractor character is a pool token, in order. */
  lemma LetterPoolSpellsAlphabet(item: Item)
    requires item.mode == "letter"
    ensures var alphabet := TextOr(item.alphabet, DEFAULT_ALPHABET) + TextOr(item.distractors, "");
      |Configure(item).pool| == |alphabet|
      && forall i :: 0 <= i < |alphabet| ==> Configure(item).pool[i] == [alphabet[i]]
  {
  }

  /** A missing or positive rate yields a positive spawn interval and fall speed. */
  lemma RatesPositive(item: Item)
    requires item.spawnRate.None? || item.spawnRate.value > 0.0
    requires item.speed.None? || item.speed.value > 0.0
    ensures Configure(item).spawnInterval > 0.0 && Configure(item).fallSpeed > 0.0
  {
  }
}
