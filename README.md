# NeonType run engine in Dafny

A model of the core of NeonType, a browser typing game. Each run types against
a deterministic word stream. The core has seven parts, one Dafny module each:

- **Rng** (`rng.dfy`): the mulberry32 generator and the date-string hash.
  The generator's 32-bit state is a `bv32`. It is a class whose methods draw
  from it. Every method is proved against functions of the state:
  `Advance`, `Output`, `Draws` and `ShuffleSpec`.
- **TextGen** (`textgen.dfy`): `generateText`.
  - A loop fills the word list from a shuffled sentence pool. It injects boss
    words on a 4% roll and numbers on a 6% roll, and reshuffles the pool when it
    runs out.
  - The loop is an imperative method over the generator and an array. It is
    proved equal to a recursive function of the loop state (`GenText`).
  - The function is proved to keep the invariants of the text. These are the
    length, the boss indices, and the provenance of each word.
- **Glitch** (`glitch.dfy`): `glitchWord`, the glyph corruption of the Glitch
  mode.
- **GameEngine** (`gameengine.dfy`): the keystroke reducer of `useGameEngine`
  (`handleInput`), the timer tick, `finishGame`, and the reset state.
  - The reducer is a pure function over a `GameState` datatype, with its laws as
    lemmas.
  - The hook's refs and state are the class `Engine`. Its methods are proved
    against the reducer.
- **Difficulty** (`difficulty.dfy`): the adaptive-difficulty hook. It keeps a
  window of the ten latest accuracy readings and a profile object that is
  adjusted in place.
- **Daily** (`daily.dfy`): the daily challenge drawn from the date's hash, and
  the rank tiers and colors.
- **Storage** (`storage.dfy`): the store.
  - It is a class over the blob under the storage key. Each operation loads,
    merges over the defaults, changes and writes back the blob.
  - The pure transforms it applies are proved: the capped newest-first run list,
    the best score per `mode-timer` key, the ghost run, and the streak and
    best-daily bookkeeping.
- **Ghost** (`ghost.dfy`): the ghost overlay. It shows the wpm of the previous
  run's snapshot closest to the current time.

`types.dfy` holds the shared records of `src/types.ts` and the integer helpers.

Modelling choices:

- Clocks are parameters in integer milliseconds (`now`, `startMs`,
  `wordStartMs`).
- The theme's sentence pool is a parameter (`sentences`).
- The generator's float `next()` is its 32-bit output word `u`. The float itself
  is `Fraction(u) = u / 2^32`. `nextInt(min, max)` is `ScaleInt`, computed
  exactly.
- `Math.round(x / y)` is `RoundDiv`, computed exactly with halves rounded up.

## Model

| member | source | states |
|---|---|---|
| Rng.SeededRNG.constructor | src/utils/rng.ts:7-9 | the state is the seed reduced to 32 bits |
| Rng.SeededRNG.Next | src/utils/rng.ts:12-18 | the state moves on by the odd increment modulo 2^32; the draw is the mixed output of the new state |
| Rng.FirstDrawOfSeedOne | src/utils/rng.ts:12-18 | the first draw from seed 1 moves the state to 0x6D2B79F6 and outputs 0xA087EAF3, a `next()` of about 0.627 |
| Rng.Fraction | src/utils/rng.ts:17 | the float a draw returns lies in [0, 1) |
| Rng.BelowFraction | src/utils/rng.ts:17 | the integer roll test on the output word agrees with comparing the float against percent/100 |
| Rng.ScaleInt | src/utils/rng.ts:21-23 | `nextInt(min, max)` lies in [min, max) when min < max, and is min when the range is empty |
| Rng.SeededRNG.NextInt | src/utils/rng.ts:21-23 | one draw; the result is the draw scaled to [min, max) |
| Rng.SeededRNG.Pick | src/utils/rng.ts:26-28 | one draw; the result is an element of the list, the one at the drawn index |
| Rng.Swap | src/utils/rng.ts:34 | exchanging two cells is a permutation that changes only those two cells |
| Rng.ShuffleFrom | src/utils/rng.ts:31-37 | the Fisher-Yates pass from index i down is a permutation and consumes exactly i draws |
| Rng.SeededRNG.Shuffle | src/utils/rng.ts:31-37 | shuffles the array in place and returns it; the result is a permutation; the state has advanced length - 1 draws |
| Rng.ToInt32 | src/utils/rng.ts:45 | `\| 0` gives the signed 32-bit integer congruent to its argument modulo 2^32 |
| Rng.ShiftStep | src/utils/rng.ts:45 | the step `((hash << 5) - hash + char) \| 0` equals the wrapped `31 * hash + char` |
| Rng.HashOf | src/utils/rng.ts:41-48 | the rolling hash is a signed 32-bit value |
| Rng.DateSeed | src/utils/rng.ts:41-48 | the loop computes the absolute value of the rolling hash, a seed in [0, 2^31] |
| Rng.CongruentSeedsSameDraws | src/utils/rng.ts:7-18 | seeds congruent modulo 2^32 give the same draws, so the same seed always replays the same stream |
| Rng.DrawsSplit | src/utils/rng.ts:12-18 | n + m draws are n draws followed by m draws from where they stopped |
| TextGen.Split | src/utils/textgen.ts:196 | a sentence splits into at least one word, none holding a space |
| TextGen.JoinSplit | src/utils/textgen.ts:196 | joining the split words with spaces gives the sentence back |
| TextGen.ParseDecStr | src/utils/textgen.ts:189 | an injected number written as a word reads back as the same number |
| TextGen.Fill | src/utils/textgen.ts:196-200 | the sentence's words are appended in order until there are wordCount words; the old words stay a prefix |
| TextGen.PushWords | src/utils/textgen.ts:196-200 | the push loop computes Fill |
| TextGen.BossPass | src/utils/textgen.ts:171-175 | a boss pass appends exactly one word, a boss word, and records its index; the sentence order is untouched |
| TextGen.NextSentence | src/utils/textgen.ts:179-185 | the sentence taken is the one before the new index; a used-up order is reshuffled into a permutation of itself |
| TextGen.TakeSentence | src/utils/textgen.ts:179-185 | taking a sentence, with the in-place reshuffle, computes NextSentence |
| TextGen.SentenceWords | src/utils/textgen.ts:188-200 | a sentence pass appends at least one word and never passes wordCount; the old words stay a prefix |
| TextGen.AppendSentence | src/utils/textgen.ts:188-200 | the number roll and the push loop compute SentenceWords, draws included |
| TextGen.SentencePass | src/utils/textgen.ts:178-200 | a sentence pass grows the words within wordCount, leaves the boss indices alone, and keeps the order a permutation of the pool |
| TextGen.Step | src/utils/textgen.ts:169-201 | every pass of the loop appends at least one word and stays within wordCount |
| TextGen.GeneratePass | src/utils/textgen.ts:169-201 | one pass of the loop over the array and the generator computes Step |
| TextGen.Loop | src/utils/textgen.ts:169-201 | the loop ends with exactly wordCount words |
| TextGen.Start | src/utils/textgen.ts:160-167 | the loop starts with no words and a permutation of the pool |
| TextGen.GenText | src/utils/textgen.ts:154-204 | the text has exactly wordCount words, and none for a negative count |
| TextGen.GenerateText | src/utils/textgen.ts:154-204 | the method with its loop computes GenText |
| TextGen.ExtendValid | src/utils/textgen.ts:196-200 | appending pool words or numbers keeps a valid text valid |
| TextGen.BossPassValid | src/utils/textgen.ts:171-175 | a boss pass keeps the text valid: its index is at least 4 and after the earlier ones |
| TextGen.SentenceWordsValid | src/utils/textgen.ts:188-200 | a sentence pass adds only the sentence's words and, when enabled, a number |
| TextGen.SentencePassValid | src/utils/textgen.ts:178-200 | a sentence pass takes its sentence from the pool and keeps the text valid |
| TextGen.StepValid | src/utils/textgen.ts:169-201 | every pass keeps the loop invariant: order a permutation of the pool, text valid |
| TextGen.LoopValid | src/utils/textgen.ts:169-201 | the loop run to completion keeps the invariant |
| TextGen.GenTextValid | src/utils/textgen.ts:154-204 | a generated text has wordCount words; its boss indices increase, lie in [4, wordCount) and name boss words; every other word is a pool word, or a number only when numbers are enabled |
| TextGen.GenTextIgnoresBiases | src/utils/textgen.ts:154-204 | the text depends on the difficulty only through numbersEnabled |
| Glitch.GlitchPos | src/utils/textgen.ts:213 | the overwritten position lies inside a non-empty word |
| Glitch.GlitchGlyphIsGlyph | src/utils/textgen.ts:214 | every written glyph is one of the sixteen glitch glyphs |
| Glitch.PassesBounds | src/utils/textgen.ts:210 | a word of three or more letters gets one or two passes, a shorter one exactly one, the empty word at most one |
| Glitch.GlitchSpec | src/utils/textgen.ts:207-218 | the transform consumes one draw plus two per pass and keeps the length of a non-empty word |
| Glitch.GlitchLoop | src/utils/textgen.ts:212-215 | the passes keep the length of a non-empty word |
| Glitch.ChangedPut | src/utils/textgen.ts:214 | one overwrite changes at most one more position |
| Glitch.GlyphsOnlyPut | src/utils/textgen.ts:214 | an overwrite with a glyph keeps every changed position a glyph |
| Glitch.GlitchLoopGlyphs | src/utils/textgen.ts:212-215 | after the passes every changed position holds a glitch glyph |
| Glitch.GlitchLoopChanged | src/utils/textgen.ts:212-215 | each pass changes at most one position |
| Glitch.GlitchSpecBound | src/utils/textgen.ts:207-218 | a glitched non-empty word keeps its length, differs in at most two positions, and holds a glitch glyph at each |
| Glitch.GlitchWord | src/utils/textgen.ts:207-218 | the method computes GlitchSpec: one draw for the pass count, then two per pass |
| GameEngine.RoundDiv | src/hooks/useGameEngine.ts:77 | `Math.round(a / b)` is the integer nearest a / b, halves up |
| GameEngine.Wpm | src/hooks/useGameEngine.ts:75-78 | the rate is the nearest integer to chars / 5 per minute; 0 when no time has passed |
| GameEngine.RoundDivBetween | src/hooks/useGameEngine.ts:79-81 | rounding keeps a quotient inside integer bounds the exact quotient respects |
| GameEngine.RoundDivMonotone | src/hooks/useGameEngine.ts:77-81 | rounding keeps the order of numerators |
| GameEngine.Accuracy | src/hooks/useGameEngine.ts:79-81 | accuracy is a percentage in [0, 100], and 100 before anything is typed |
| GameEngine.AccuracyMonotone | src/hooks/useGameEngine.ts:265-267 | accuracy grows with the correct count, is 100 when all are correct and 0 when none is |
| GameEngine.WpmMonotone | src/hooks/useGameEngine.ts:263-264 | more characters never give a lower rate, so wpm <= raw wpm |
| GameEngine.Fresh | src/hooks/useGameEngine.ts:40-55 | a fresh run is idle, consistent, holds the generated text and the full timer |
| GameEngine.InitialState | src/hooks/useGameEngine.ts:40-55 | the initial state holds 80 generated words, zeroed stats, the cursor at the start |
| GameEngine.Space | src/hooks/useGameEngine.ts:153-203 | a space on no input changes nothing; otherwise it logs one word result, correct iff the input is the word, clears the input, moves to the next word and restarts the word clock; status and marks are kept and the old words stay a prefix |
| GameEngine.Backspace | src/hooks/useGameEngine.ts:206-217 | backspace on no input changes nothing; otherwise the input loses exactly its last character; the stats, status and word cursor are kept |
| GameEngine.TypeChar | src/hooks/useGameEngine.ts:222-289 | the character is appended to the input and counted once, as correct iff it is the expected one, and its position gets the mark it earns; status and words are kept |
| GameEngine.HandleInput | src/hooks/useGameEngine.ts:130-291 | no key changes the status or rewrites a word; the word cursor moves by at most one; the word clock is kept or restarted at `now` |
| GameEngine.Extended | src/hooks/useGameEngine.ts:172-182 | within 10 words of the end the text grows by the 40 words generated from seed + cursor; otherwise it is unchanged; old words are never rewritten |
| GameEngine.IgnoredWhenFinishedOrNoWord | src/hooks/useGameEngine.ts:132-139 | a finished run, or a cursor on no word or an empty one, ignores every key |
| GameEngine.SpaceIgnoredWhenEmpty | src/hooks/useGameEngine.ts:153-154 | a space with no input changes nothing |
| GameEngine.SpaceStep | src/hooks/useGameEngine.ts:153-203 | a space logs one word result (correct iff input equals the word, boss flag, times), advances the word cursor, clears the input, restarts the word clock, and leaves counters, combo and marks alone |
| GameEngine.SpaceExtension | src/hooks/useGameEngine.ts:172-186 | after a space the text is the extended text |
| GameEngine.BossDefeat | src/hooks/useGameEngine.ts:165-168 | the boss count grows by one exactly when a boss word is typed exactly |
| GameEngine.BackspaceStep | src/hooks/useGameEngine.ts:206-217 | backspace on no input changes nothing; otherwise it drops the last character and its mark and keeps every counter |
| GameEngine.SpecialKeyIgnored | src/hooks/useGameEngine.ts:220 | a key name longer than one character, other than Backspace, changes nothing |
| GameEngine.TypeStep | src/hooks/useGameEngine.ts:222-289 | a character counts once, correct iff it is the expected one; a hit grows the combo and the best combo and starts overdrive at 20 (counted once); a miss clears combo and overdrive and tallies the expected key |
| GameEngine.HandleInputConsistent | src/hooks/useGameEngine.ts:130-291 | every reducer step keeps the invariant: total = correct + incorrect, combo <= maxCombo, overdrive only at combo >= 20, accuracy a percentage, marks only on typed positions, no space in the input, and each typed position marked as its character earns |
| GameEngine.SpaceConsistent | src/hooks/useGameEngine.ts:153-203 | finishing a word keeps the invariant |
| GameEngine.BackspaceConsistent | src/hooks/useGameEngine.ts:206-217 | backspace keeps the invariant |
| GameEngine.TypeCharConsistent | src/hooks/useGameEngine.ts:222-289 | typing a character other than a space keeps the invariant |
| GameEngine.TypeThenBackspace | src/hooks/useGameEngine.ts:206-258 | typing a character then deleting it restores the input, the cursor and the marks; the total count remembers the keystroke |
| GameEngine.BackspaceThenRetype | src/hooks/useGameEngine.ts:206-258 | deleting the last character and typing it again restores the input, the cursor and the marks: the retyped character gets the mark it had |
| GameEngine.ReplayConsistent | src/hooks/useGameEngine.ts:130-291 | any sequence of keys keeps the invariant |
| GameEngine.ReplayMonotone | src/hooks/useGameEngine.ts:153-203 | keys never take the word cursor back; the word log grows by one entry per word passed; words already there are never rewritten |
| GameEngine.Snapshot | src/hooks/useGameEngine.ts:117-123 | a snapshot records the elapsed time and the correct and raw rates at that time; the correct rate never exceeds the raw one, and both are 0 when no time has passed |
| GameEngine.TickState | src/hooks/useGameEngine.ts:111-125 | only the time left changes: it drops by one second, and reaches 0 exactly when at most one second was left, never going negative; the invariant is kept |
| GameEngine.Finish | src/hooks/useGameEngine.ts:74-95 | only the status and the stats change: the run is finished with the recorded history and the elapsed time, and the counters and word log are kept |
| GameEngine.FinishStats | src/hooks/useGameEngine.ts:74-95 | finishing marks the run finished with rates over the whole elapsed time (wpm <= raw, 0 without elapsed time), accuracy a percentage, the recorded history, and the counters kept |
| GameEngine.TickClock | src/hooks/useGameEngine.ts:110-127 | without the interval nothing happens; a tick with more than one second left appends one snapshot and keeps the interval; the last second clears it and finishes the run with the history unchanged |
| GameEngine.TickKeepsIncreasing | src/hooks/useGameEngine.ts:117-121 | a tick later than the last snapshot keeps the snapshot times strictly increasing |
| GameEngine.TicksFinish | src/hooks/useGameEngine.ts:110-127 | from T seconds left, fewer than T ticks leave the run running with one second less and one more snapshot per tick; after T ticks the run is finished at 0 with exactly T - 1 snapshots, which become its history; the history is only appended to |
| GameEngine.TicksStopped | src/hooks/useGameEngine.ts:70-71 | once the interval is cleared, ticks change nothing |
| GameEngine.Engine.constructor | src/hooks/useGameEngine.ts:40-61 | the hook starts in the initial state with zeroed refs and no timer |
| GameEngine.Engine.StartGame | src/hooks/useGameEngine.ts:98-110 | both clocks restart, the history is cleared, the run is running with the full timer, and the interval is set |
| GameEngine.Engine.FinishGame | src/hooks/useGameEngine.ts:70-96 | the interval is cleared, the state is the finished state over the recorded history, and the refs are unchanged |
| GameEngine.Engine.Tick | src/hooks/useGameEngine.ts:110-127 | one step of TickClock: the last second clears the interval and finishes the run; any other tick takes a second off and appends one snapshot; the snapshot times stay increasing and the start refs are unchanged |
| GameEngine.Engine.HandleKey | src/hooks/useGameEngine.ts:130-136 | a key applies the reducer and leaves the history and the interval alone; a key in an idle run then starts the run: both clocks at `now`, history cleared, interval set |
| GameEngine.Engine.Reset | src/hooks/useGameEngine.ts:293-311 | the interval is cleared, the history emptied, and the state regenerated as the initial state |
| Difficulty.PushWindowShape | src/components/hooks/useAdaptiveDifficulty.ts:11-14 | a push keeps at most ten readings, ending with the new one, after a suffix of the old ones |
| Difficulty.PushAllKeepsLatest | src/components/hooks/useAdaptiveDifficulty.ts:11-14 | after any series of pushes the window holds exactly the latest ten readings, in order |
| Difficulty.SumBounds | src/components/hooks/useAdaptiveDifficulty.ts:16-17 | the sum of bounded readings is bounded by count times the bounds |
| Difficulty.AverageBounds | src/components/hooks/useAdaptiveDifficulty.ts:16-17 | the average of readings in [lo, hi] lies in [lo, hi] |
| Difficulty.WindowAverageIsPercentage | src/components/hooks/useAdaptiveDifficulty.ts:11-17 | when every reading is a percentage, the average of the window after any non-empty series of readings is a percentage, so the thresholds 95 and 80 compare against a value in [0, 100] |
| Difficulty.Adjust | src/components/hooks/useAdaptiveDifficulty.ts:19-33 | the adjustment never touches numbersEnabled, and between the two thresholds changes nothing |
| Difficulty.AdjustInBand | src/components/hooks/useAdaptiveDifficulty.ts:21-32 | a profile in the band stays in it; ramping up never lowers an axis, easing off never raises one, and no axis moves by more than a step |
| Difficulty.RampUpNCapped | src/components/hooks/useAdaptiveDifficulty.ts:22-26 | n ramp-ups in a row raise each axis by n steps, capped at its ceiling |
| Difficulty.Profile.constructor | src/components/hooks/useAdaptiveDifficulty.ts:7 | the copy holds the given values |
| Difficulty.AdaptiveDifficulty.constructor | src/components/hooks/useAdaptiveDifficulty.ts:6-8 | the hook starts from a fresh copy of the base profile and an empty window |
| Difficulty.AdaptiveDifficulty.UpdateDifficulty | src/components/hooks/useAdaptiveDifficulty.ts:10-36 | the window is the pushed window; the profile is adjusted in place by its average and returned |
| Difficulty.AdaptiveDifficulty.GetDifficulty | src/components/hooks/useAdaptiveDifficulty.ts:38-40 | the result is a new object holding the profile's values |
| Difficulty.CopyIsIndependent | src/components/hooks/useAdaptiveDifficulty.ts:38-40 | changing the returned copy leaves the hook's profile as it was |
| Daily.PickIndex | src/utils/dailyChallenge.ts:22-24 | a pick lands inside the list |
| Daily.DailyDifficulty | src/utils/dailyChallenge.ts:31-37 | punctuation in [0.15, 0.5), rare letters in [0.1, 0.4), word length in [0.3, 0.7), numbers on iff the draw exceeds 0.6 |
| Daily.DailyConfig | src/utils/dailyChallenge.ts:19-38 | the drawn mode, theme and timer come from their lists, and the seed is kept |
| Daily.DrawDifficulty | src/utils/dailyChallenge.ts:31-37 | the four draws, in the source's order, give DailyDifficulty, and the generator has moved on exactly four draws |
| Daily.DrawConfig | src/utils/dailyChallenge.ts:20-38 | the seven draws from a generator fresh from the seed give DailyConfig, and the generator has moved on exactly seven draws |
| Daily.FreshChallenge | src/utils/dailyChallenge.ts:19-47 | a new challenge is filed under its date, uncompleted and unscored, with the date hash as seed |
| Daily.GenerateDailyChallenge | src/utils/dailyChallenge.ts:12-48 | a stored record for the date is returned unchanged; otherwise the fresh challenge, so the same date always gives the same challenge |
| Daily.SameHashSameChallenge | src/utils/dailyChallenge.ts:19-38 | dates with the same hash get the same configuration |
| Daily.RankTierOf | src/utils/dailyChallenge.ts:64-69 | neon at 120 and up, gold in [80, 120), silver in [50, 80), bronze below 50, each both ways |
| Daily.RankTierMonotone | src/utils/dailyChallenge.ts:64-69 | a higher wpm never earns a lower tier |
| Daily.RankColor | src/utils/dailyChallenge.ts:71-78 | each tier name has its color, and every other string has the bronze color, each both ways |
| Daily.RankColorsDistinct | src/utils/dailyChallenge.ts:71-78 | different tiers have different colors |
| Storage.LoadData | src/utils/storage.ts:21-29 | a missing or unparsable blob loads as the defaults |
| Storage.Encode | src/utils/storage.ts:31-33 | saving writes a parsed blob |
| Storage.LoadEncode | src/utils/storage.ts:21-33 | what is saved loads back unchanged |
| Storage.LoadFieldByField | src/utils/storage.ts:8-25 | a blob without fields loads as the defaults; for each of the eight fields, a present field overrides its default and an absent one keeps it |
| Storage.BestScore | src/utils/storage.ts:62-65 | an unknown key has best score 0 |
| Storage.PushRun | src/utils/storage.ts:37-38 | the new run comes first, then the previous runs in order, at most twenty in all |
| Storage.AfterSaveRun | src/utils/storage.ts:35-50 | the run becomes the ghost and the first of at most twenty runs; settings, daily history, last date, streak and best daily score are kept |
| Storage.SaveRunEffect | src/utils/storage.ts:35-50 | saveRun puts the run first within the cap, makes it the ghost, sets the best score under its key when there was none or it is beaten, and changes nothing else |
| Storage.BestScoreIsMax | src/utils/storage.ts:41-44 | with non-negative scores the best score becomes the maximum of the old one and the run's wpm |
| Storage.PushRunsNewestFirst | src/utils/storage.ts:35-38 | after any series of saves the list holds the twenty most recent runs, newest first |
| Storage.SaveDailyEffect | src/utils/storage.ts:82-102 | the record is filed under its date; the streak grows by one only for a completed challenge whose date is yesterday, or from 0, and never falls; the best daily score is a running maximum; nothing else changes |
| Storage.AfterSaveDaily | src/utils/storage.ts:82-102 | the record is filed under its date, which becomes the last date; the streak grows by at most one and the best daily score never falls, and neither moves for an uncompleted challenge; runs, best scores, ghost and settings are kept |
| Storage.StreakStallsOnConsecutiveDays | src/utils/storage.ts:85-95 | as written, completing the day after a completed day leaves a streak of 1 at 1 |
| Storage.IntendedSaveDaily | src/utils/storage.ts:92-95 | with the test on the previous last date, a completion the day after it extends the streak |
| Storage.Store.constructor | src/utils/storage.ts:21-24 | the store holds the given blob under the storage key |
| Storage.Store.SaveRun | src/utils/storage.ts:35-50 | the stored data becomes AfterSaveRun of what was stored |
| Storage.Store.SaveSettings | src/utils/storage.ts:56-60 | only the settings change |
| Storage.Store.SaveDailyChallenge | src/utils/storage.ts:82-102 | the stored data becomes AfterSaveDaily of what was stored |
| Storage.Store.GetSettings | src/utils/storage.ts:52-54 | the stored settings, or the defaults when the blob is missing, corrupt or has none |
| Storage.Store.GetBestScore | src/utils/storage.ts:62-65 | the score under "mode-timer", or 0 when there is none |
| Storage.Store.GetRuns | src/utils/storage.ts:67-69 | the stored runs, or none |
| Storage.Store.GetGhostRun | src/utils/storage.ts:71-73 | the stored ghost, or none |
| Storage.Store.GetDailyChallenge | src/utils/storage.ts:77-80 | a record is returned exactly when one is stored under the date, and it is that record |
| Storage.Store.GetStreak | src/utils/storage.ts:104-106 | the stored streak, or 0 |
| Storage.Store.GetBestDailyScore | src/utils/storage.ts:108-110 | the stored best daily score, or 0 |
| Storage.SavesReadBack | src/utils/storage.ts:35-110 | after the saves the getters read back the settings, the run as ghost and newest run, the daily record under its date, and a streak no lower |
| Ghost.ClosestIndex | src/components/GhostRun.tsx:15-17 | the reduce lands on a snapshot closest in time, the earliest of those that are closest |
| Ghost.ClosestIndexUnique | src/components/GhostRun.tsx:15-17 | that index is the only one that is closest and earlier than every other closest one |
| Ghost.GhostWpm | src/components/GhostRun.tsx:12-19 | nothing exactly when there is no run or its history is empty; otherwise the wpm of the snapshot closest in time, the earliest one on a tie |
| Ghost.Shown | src/components/GhostRun.tsx:21 | the overlay shows the ghost wpm exactly when it exists and is not 0 |

## Left out

- The sentence pools' text (`SENTENCE_POOLS`) is not in the model. The theme's pool is the parameter `sentences`, and the results hold for every non-empty pool.
- TextGen.Split: `split(/\s+/)` is modelled as a split on single spaces. The pools' sentences have no other whitespace.
- Sound effects (`src/utils/sound.ts`) are not part of this model. They have no effect on the state.
- Timer ordering:
  - `setInterval` and `setTimeout` are left out.
  - Engine.Tick finishes the run within the same tick, where the source defers `finishGame` with `setTimeout(…, 0)`.
  - Engine.HandleKey starts an idle run right after the reducer step. The source defers `startGame` the same way.
- `Date.now()` is a parameter `now` in integer milliseconds.
  - The source keeps snapshot times and `elapsedTime` in seconds (`ms / 1000`). The model keeps milliseconds.
  - Ghost compares `ms` with `1000 * seconds`, which orders the distances the same way in exact arithmetic (see Ghost.GhostWpm below for doubles).
  - `lastSnapshotRef` is written but never read, and is left out.
- Engine.Tick: the model assumes the clock has moved past the last snapshot at every tick (its `requires`). The source reads a wall clock that can step back and records the snapshot anyway; its snapshots are ordered only under that assumption.
- Floating point:
  - Rates, accuracy and `nextInt` use exact integer or rational arithmetic. The source uses doubles.
  - `nextInt` agrees with the doubles for the ranges used. The products stay below 2^53.
  - `Math.round` of a double that lands just below a half can differ from `RoundDiv`.
  - Difficulty values are `real`. So the clamps are exact, where the source's repeated `+ 0.02` accumulates rounding error.
- Rng.SeededRNG.constructor reduces any integer seed to 32 bits. The source's `|= 0` does so only for seeds within the double range.
- Characters are Dafny `char`s. The source indexes UTF-16 code units for the typed text and in `dateSeed`'s `charCodeAt`, and code points in `glitchWord`. They agree on the ASCII date strings that are hashed.
- `localStorage` and JSON:
  - The blob is the datatype `Blob`: missing, unparsable, or its parsed top-level fields.
  - Fields of the wrong JSON type are not modelled.
  - `todayString`, `getTimeUntilNextChallenge` and the yesterday computation read the clock. They are left out; `today` and `yesterday` are parameters.
- React, the screens and `GameScreen` glue are not part of this model. Neither is the `glitchActiveWord` field beyond its initial `null`; the source never updates it.
- Streak reset: the source never resets the streak after a gap (src/utils/storage.ts:92-95 only increments it); the model follows the source.
- Ghost.GhostWpm: distances are compared exactly. The source compares doubles of `time - elapsed` in seconds, which can break an exact tie either way: at 2 s, snapshots at 1.503 s and 2.497 s are equally close, and the source picks the later one where the model keeps the earlier.

## Findings

| source | as written | input that shows it | evidently intended | confidence | as-written member | corrected member |
|---|---|---|---|---|---|---|
| src/utils/storage.ts:85-95 | `lastDailyChallengeDate` is overwritten with the challenge's date before it is compared with yesterday, so the streak grows on consecutive days only when the challenge's own date is yesterday | stored last date "2026-10-14" with streak 1; completing the "2026-10-15" challenge when yesterday is "2026-10-14" leaves the streak at 1 | compare the previous last date with yesterday, so a completion the day after the last one extends the streak | not executed | Storage.StreakStallsOnConsecutiveDays | Storage.IntendedSaveDaily |
