# Catch game: a Dafny model of the round simulation

This project models the core of the browser mini-game "Catch" (`js/catch.js`).
Balloons carrying letters or words fall down the stage. The player moves a sprite
left and right along the bottom of the stage and must catch the tokens of a target
sequence in order, for example T, I, G, E, R. Each animation frame the game:

- may spawn a balloon;
- moves every balloon down;
- catches each balloon that overlaps the player, and compares its token with the
  next required one, ignoring case;
- updates score, combo, correct count and progress;
- drops balloons more than 10 px below the stage;
- ends the round when the target sequence is used up.

The project has one module per component:

- `Tokens` (tokens.dfy): ASCII upper-casing, the match rule, the spawn-token rule.
- `Geometry` (geometry.dfy): sizes and speeds, the strict box-overlap test, the
  clamped moves.
- `Scoring` (scoring.dfy): the award/penalty rule and the end of a round, stated
  on a `Play` value that holds the counters.
- `Balloons` (balloons.dfy): balloon movement and the single collision/cleanup
  pass (`Sweep`), with its lemmas.
- `Progress` (progress.dfy): the HTML escape and the caught-token display.
- `Setup` (setup.dfy): choosing the configuration item and building the pool and
  targets.
- `Game` (round.dfy): the class `Round`. Its fields are the game's module-level
  state (`running`, `balloons`, `spawnPool`, `score`, `correct`, `combo`,
  `playerX`, `targetTokens`, `nextIndex`, `spawnTimer`, `spawnInterval`,
  `fallSpeed`, `lastTs`) plus the stored highscore and last result. Its methods
  change them step by step, as the source does. Each method is specified by the
  pure functions above.

Behaviour kept as the code has it:

- A balloon is off-screen only when `y > h + 10`, not when `y > h`.
- The round can finish part-way through the cleanup pass. Balloons later in the
  same pass are still tested. For them the required token is past the end of the
  target, and it reads `"undefined"`. So they are normally wrong catches, and
  their penalty lands after the highscore was saved (`PenaltyAfterFinish`). A
  balloon whose token upper-cases to `UNDEFINED` counts as correct there. It then
  moves progress past the end of the target (`UndefinedTokenPastEnd`). So "progress
  never exceeds the target length" holds only without such a token
  (`SweepIndexBound`).
- Key presses move the player only while the round runs; button taps move it
  always.
- `Start` with an empty selection, or with an item that has no target tokens,
  resets the counters and balloons but leaves `running` as it was. With an empty
  list the previous target tokens, fall speed and spawn interval stay.
- JavaScript `x || default` treats an absent value, an empty string and the
  number 0 as missing; `TextOr` and `NumberOr` do the same.

## Model

| member | source | states |
|---|---|---|
| `Tokens.Upper` | js/catch.js:321 | upper-casing keeps the length, maps each character through ASCII upper-casing and leaves no lower-case letter |
| `Tokens.NeedAt` | js/catch.js:320 | the required token is present exactly when the index is inside the target, and is then the token at that index |
| `Tokens.Show` | js/catch.js:320-321 | `String` of a present token is the token, of a missing one "undefined"; it is empty only for a present empty token |
| `Tokens.Matches` | js/catch.js:319-321 | a token always matches itself, and a match has the length of the required token's text |
| `Tokens.MatchesIffEqualIgnoringCase` | js/catch.js:319-322 | a catch is correct exactly when the token equals the required one up to ASCII letter case (both directions, against a character-wise reference definition) |
| `Tokens.UpperIdempotent` | js/catch.js:321 | upper-casing twice equals upper-casing once |
| `Tokens.MatchesPastEnd` | js/catch.js:320-321 | past the end of the target a token matches exactly when it upper-cases to "UNDEFINED" |
| `Tokens.ChooseToken` | js/catch.js:299-304 | the spawned token is the needed one when the draw prefers it and it is non-empty; otherwise the pool member at the drawn index; with an empty pool the needed token or "?"; it always comes from the pool, the need or "?" |
| `Geometry.Collides` | js/catch.js:254-268 | overlap holds exactly when the balloon's corner lies in the open window left of the player's right edge, right of one balloon width before the player, and vertically above the stage bottom and less than one balloon height above the player's top |
| `Geometry.CollidesIffSharedPoint` | js/catch.js:262-267 | the overlap test holds exactly when some point lies strictly inside both boxes |
| `Geometry.TouchingIsNoCollision` | js/catch.js:262-267 | boxes that only touch along an edge do not collide |
| `Geometry.MoveLeft` | js/catch.js:376 | a left move never goes below 0; it moves the full step when there is room and stops at 0 otherwise |
| `Geometry.MoveRight` | js/catch.js:380 | a right move never passes `width - PLAYER_W`; it moves the full step when there is room and stops at that bound otherwise |
| `Geometry.MovesStayInside` | js/catch.js:372-403 | a player inside `[0, width - PLAYER_W]` stays inside after any left or right move, and moves in the right direction |
| `Scoring.Points` | js/catch.js:274 | the n-th consecutive correct catch is worth 40 + 10n up to n = 6 and 100 from then on, always between 50 and 100 |
| `Scoring.Award` | js/catch.js:271-285 | a correct catch adds one to combo and correct count and `Points(combo)` to the score; a wrong one zeroes the combo and takes 10 off the score, floored at 0; a non-negative score stays non-negative; nothing else changes |
| `Scoring.Finish` | js/catch.js:345-363 | the round stops, the highscore becomes the larger of the saved one and the score, and the score and correct count are recorded |
| `Scoring.AwardAllScoreNonNegative` | js/catch.js:279-282 | no sequence of scoring events makes the score negative |
| `Scoring.CorrectRun` | js/catch.js:272-276 | n correct catches in a row add n to combo and correct count and the sum of the combo-step points to the score |
| `Scoring.FiveInARow` | js/catch.js:271-285 | five correct catches from a fresh round score 350 |
| `Scoring.CorrectThenTwoWrong` | js/catch.js:279-282 | correct, wrong, wrong from a fresh round gives 30 points and a broken combo |
| `Balloons.NewBalloon` | js/catch.js:244-250 | a new balloon carries the token and x, starts one balloon height above the stage and falls at the round's speed |
| `Balloons.Fall` | js/catch.js:309-314 | moving keeps the number, order, tokens, x and speeds of the balloons and moves each by `vy * dt / 1000` |
| `Balloons.FallIsDownward` | js/catch.js:311 | with a non-negative delta and speeds, no balloon moves up |
| `Balloons.Catch` | js/catch.js:319-333 | a matching catch advances progress, correct count and combo by one and adds the correct-catch points; it stops the round exactly when progress reaches the end of the target, and then the highscore becomes the larger of the saved one and the score and the result (score, correct count) is recorded; otherwise highscore and last result are kept; a wrong catch is only the penalty |
| `Balloons.Sweep` | js/catch.js:316-338 | the pass keeps no more balloons than it was given; which ones it keeps, and what the catches do, is stated by `SweepIsCatchesAndFilter` and `SurvivorsMembership` |
| `Balloons.SweepIsCatchesAndFilter` | js/catch.js:318-338 | the pass keeps exactly the surviving balloons in their order, and its effect on the counters is one catch per colliding balloon, in order; off-screen balloons change nothing |
| `Balloons.SurvivorsMembership` | js/catch.js:336-337 | a balloon is kept exactly when it is in the list, does not collide and is at most 10 px below the stage; so every colliding balloon is removed |
| `Balloons.NoCatchNoChange` | js/catch.js:336 | a pass without a collision leaves score, combo, correct count and progress unchanged |
| `Balloons.CatchAllProgress` | js/catch.js:325-327 | progress never decreases, grows by exactly the number of correct catches, by at most one per catch, and the score stays non-negative |
| `Balloons.CatchAllIndexBound` | js/catch.js:320-330 | without a token reading "undefined", progress never passes the end of the target |
| `Balloons.CatchAllKeepsInvariant` | js/catch.js:325-330 | catches keep "running exactly while the target is not used up, and once stopped the highscore covers the score", and never lower the highscore |
| `Balloons.SweepFinishes` | js/catch.js:328-330 | after a pass of a running round, the round runs exactly while the target is not used up; once stopped the saved highscore covers the score |
| `Balloons.SweepProgress` | js/catch.js:319-327 | in one pass progress never decreases, moves together with the correct count, and the score stays non-negative |
| `Balloons.CaughtFromBalloons` | js/catch.js:318-322 | every caught token is the token of one of the balloons |
| `Balloons.SweepIndexBound` | js/catch.js:320-330 | unless a balloon's token reads "undefined", a pass never moves progress past the end of the target |
| `Balloons.SpellTiger` | js/catch.js:318-333 | catching T, I, G, E, R in order scores 350 with 5 correct and ends the round with highscore max(previous, 350) |
| `Balloons.WrongOrderIsWrong` | js/catch.js:319-322 | T, then X, then T again against TIGER gives 50, 40, 30; the second T is wrong because I is required |
| `Balloons.PenaltyAfterFinish` | js/catch.js:318-356 | a wrong catch later in the pass that finished the round lowers the score after the highscore (50) was saved: score 40, highscore 50 |
| `Balloons.UndefinedTokenPastEnd` | js/catch.js:320-330 | a balloon reading "undefined" caught after the end counts as correct and moves progress to 2 for a one-token target |
| `Progress.Escape` | js/catch.js:146-149 | the `&`, `<`, `>` replacements in source order equal the one-pass escape of each character |
| `Progress.EscapeOnce` | js/catch.js:146-149 | the escaped text contains no angle bracket and is no shorter than the input |
| `Progress.EscapeIsOnePass` | js/catch.js:146-149 | the three sequential replacements equal escaping each character once: no entity is escaped twice |
| `Progress.EscapeOneChar` | js/catch.js:146-149 | on a single character the three replacements in source order give exactly its entity (or the character itself) |
| `Progress.UnescapeEscapeOnce` | js/catch.js:146-149 | decoding the one-pass escape gives the token back |
| `Progress.EscapeRoundTrip` | js/catch.js:145-151 | decoding the escaped token gives it back, and the escaped token has no angle bracket |
| `Progress.RenderProgress` | js/catch.js:135-152 | the display is empty exactly when nothing was caught (or the target is empty); otherwise it begins with the pill of the first target token |
| `Progress.RenderShowsOnlyCaught` | js/catch.js:128-141 | tokens still pending do not change the display: only the caught prefix is shown |
| `Progress.RenderStart` | js/catch.js:136-142 | nothing is shown before the first catch, and one pill after it |
| `Progress.RenderGrows` | js/catch.js:142-151 | each correct catch appends a space and exactly the pill of the newly caught token |
| `Progress.RenderSaturates` | js/catch.js:142 | past the end of the target the display does not change |
| `Setup.TextOr` | js/catch.js:167-168 | `s or default` for strings: the default, or the string when it is present and non-empty |
| `Setup.NumberOr` | js/catch.js:177-178 | `n or default` for numbers: the default, or the number when it is present and non-zero |
| `Setup.Chars` | js/catch.js:169-170 | splitting gives one single-character token per character, in order |
| `Setup.ConcatChars` | js/catch.js:169-170 | joining the split characters gives the string back |
| `Setup.SelectedMode` | js/catch.js:160 | the selected mode when one is selected, "letter" otherwise; never empty |
| `Setup.FirstWithMode` | js/catch.js:162 | the index found is the first item with the mode, or there is none with it |
| `Setup.Configure` | js/catch.js:164-178 | letter mode: targets spell the target text and the pool spells alphabet (A-Z by default) plus distractors, one character each; word mode: targets are the target words and the pool is the word bank when non-empty, else the targets; fall speed is 80 times the speed (default 1); spawn interval is the spawn rate (default 1200) |
| `Setup.PickItem` | js/catch.js:157-180 | nothing exactly for an empty list; otherwise the configuration of the first item of the selected mode ("letter" when none is selected), or of the first item when none has that mode |
| `Setup.DisplayTokens` | js/catch.js:120-126 | no item displays no tokens; an item displays exactly the targets a round with it collects, which for a letter item spell its target text |
| `Setup.WordPoolCoversTargets` | js/catch.js:172-174 | in word mode without a word bank every target word can be spawned |
| `Setup.LetterPoolSpellsAlphabet` | js/catch.js:166-169 | in letter mode the pool is the alphabet and distractor characters in order |
| `Setup.RatesPositive` | js/catch.js:177-178 | absent or positive rates give a positive spawn interval and fall speed |
| `Game.FrameDelta` | js/catch.js:291 | the frame delta is the elapsed time capped at 40 |
| `Game.Round.constructor` | js/catch.js:50-70 | the initial state: not running, no balloons, counters 0, spawn interval 1200, fall speed 80; the stored highscore and last result are those under the initial selection's keys |
| `Game.Round.Select` | js/catch.js:79-80 | a change of selection makes the records under the new selection's `hsKey()` and `lbKey()` current: the highscore that the next finish reads and overwrites, and the last result it overwrites |
| `Game.Round.Start` | js/catch.js:184-227 | counters, balloons and spawn timer reset always; the configuration is applied when the list is non-empty; the round starts exactly when there is an item with target tokens, with the player centred and the round invariant holding; otherwise `running`, pool and player position keep their old values |
| `Game.Round.ApplyConfig` | js/catch.js:168-178 | the target tokens, fall speed and spawn interval become those of the chosen configuration |
| `Game.Round.Reset` | js/catch.js:187-196 | balloons are cleared, score, correct count, combo and progress are 0, the spawn timer is 0 and the clock is the current time |
| `Game.Round.Begin` | js/catch.js:203-222 | the pool is cached, the player is centred (inside the stage when it is wide enough) and the round runs |
| `Game.Round.Award` | js/catch.js:271-285 | the counters become `Scoring.Award` of the old counters; the score stays non-negative |
| `Game.Round.CatchBalloon` | js/catch.js:319-333 | the counters become `Balloons.Catch` of the old counters |
| `Game.Round.Finish` | js/catch.js:345-363 | the counters become `Scoring.Finish` of the old counters, comparing with the highscore of the selection current at that time (loaded by `Select`, updated by earlier finishes) |
| `Game.Round.SpawnBalloon` | js/catch.js:230-251 | one new balloon is appended just above the stage |
| `Game.Round.SpawnStep` | js/catch.js:294-307 | the timer advances by the delta; when it reaches the interval it resets to 0 and exactly one balloon with `ChooseToken`'s token for the next required token is appended; otherwise the list is unchanged |
| `Game.Round.MoveBalloons` | js/catch.js:309-314 | the balloon list becomes `Fall` of the old list, moving one balloon at a time |
| `Game.Round.Cleanup` | js/catch.js:316-338 | counters and balloon list become `Sweep` of the old ones |
| `Game.Round.Tick` | js/catch.js:288-341 | a stopped round is unchanged; otherwise the clock advances by the capped delta, a balloon with `ChooseToken`'s token spawns exactly when the timer reaches the interval (resetting it), all balloons fall, and counters and balloons become `Sweep` of the result |
| `Game.Round.Advance` | js/catch.js:291-340 | one frame of a running round: the clock becomes the frame time, the spawn step, the fall and the cleanup pass run in that order, with the capped delta, and the score stays non-negative |
| `Game.Round.OnKey` | js/catch.js:372-384 | arrow keys and A/D move the player by 6 px, clamped, only while the round runs; other keys and a stopped round change nothing |
| `Game.Round.TapLeft` | js/catch.js:391-397 | the left button moves the player 24 px left, clamped at 0, whether or not the round runs |
| `Game.Round.TapRight` | js/catch.js:398-404 | the right button moves the player 24 px right, clamped at `width - PLAYER_W`, whether or not the round runs |

## Left out

- Loading `data/catch.json` and building the select boxes (`fill`, `updateSub`, `updateModeOptions`): I/O and UI. The item list and the selected mode are parameters of `Start`.
- DOM and style writes (balloon elements, `innerHTML`, `textContent`, `remove`, `getBoundingClientRect`): stage width and height are parameters.
- Local storage: the highscore and the last result stored under the current selection's keys are fields of `Round`; `Select` makes the new selection's records current on each change of selection (the source reads the highscore under `hsKey()` only when a round finishes, and `loadHigh` merely shows it); the other selections' records, the key strings (`hsKey`, `lbKey`) and the parsing of the stored text are not modelled.
- `Setup.Chars`: `split('')` splits into UTF-16 code units, while a Dafny `char` is a Unicode scalar value, so a character outside the Basic Multilingual Plane (an emoji) is one token here and two in the source; a target containing one would end the round at a different length.
- `Timer`, `SFX` and `showPreview`: foreign calls. The last-result record therefore has no elapsed time.
- `requestAnimationFrame` / `cancelAnimationFrame`: one call of `Tick` is one frame.
- `Math.random`: the spawn x, the `preferNeed` draw and the pool index are parameters of `Tick`.
- Floating point: positions, speeds and times are reals with exact arithmetic. NaN, which JavaScript also treats as a missing speed or spawn rate, is not modelled.
- `Tokens.Upper`: only ASCII letters are upper-cased; JavaScript's full Unicode `toUpperCase` (which can change the length of a string) is not modelled.
- The preview listing (js/catch.js:407-424): UI formatting.
- Token font size and the sprite's element sizes are display-only.
