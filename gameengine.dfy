/** The keystroke state machine of a run: the `handleInput` reducer, the timer
    tick, `finishGame` and the reset state (src/hooks/useGameEngine.ts). Times
    are integer milliseconds passed in by the caller. */
module GameEngine {
  import opened Types
  import opened TextGen

  datatype Status = Idle | Running | Finished

  /** The mark a typed position gets. */
  datatype Mark = Correct | Incorrect

  /** The engine's state record. A typed-char mark is keyed by (word index,
      char index), the pair the source writes as the string "word-char". */
  datatype GameState = GameState(
    status: Status,
    words: seq<string>,
    bossWordIndices: seq<int>,
    currentWordIndex: nat,
    currentCharIndex: nat,
    typedChars: map<(nat, nat), Mark>,
    input: string,
    timeLeft: int,
    stats: GameStats,
    overdriveActive: bool,
    glitchActiveWord: Option<int>)

  /** The state a reducer step leaves and the word start time it leaves in its ref. */
  datatype Outcome = Outcome(state: GameState, wordStartMs: int)

  /** The number of words of a fresh run's text. */
  const INITIAL_WORDS := 80

  /** The number of words added when the cursor nears the end of the text. */
  const EXTENSION_WORDS := 40

  // ---------------------------------------------------------------------------
  // Rates

  /** `Math.round(a / b)` for b > 0: the nearest integer, halves rounded up. */
  function RoundDiv(a: int, b: int): (r: int)
    requires b > 0
    ensures 2 * b * r <= 2 * a + b < 2 * b * (r + 1)
    ensures a >= 0 ==> r >= 0
  {
    (2 * a + b) / (2 * b)
  }

  /** Words per minute for `chars` characters in `elapsedMs` milliseconds:
      round(chars / 5 / minutes), or 0 when no time has passed. */
  function Wpm(chars: nat, elapsedMs: int): (r: nat)
    ensures elapsedMs <= 0 ==> r == 0
    ensures elapsedMs > 0 ==> 2 * elapsedMs * r <= 24000 * chars + elapsedMs < 2 * elapsedMs * (r + 1)
  {
    if elapsedMs > 0 then RoundDiv(12000 * chars, elapsedMs) else 0
  }

  /** A quotient rounded to the nearest integer stays between bounds the exact quotient respects. */
  lemma {:induction false} RoundDivBetween(a: int, b: int, lo: int, hi: int)
    requires b > 0 && lo * b <= a <= hi * b
    ensures lo <= RoundDiv(a, b) <= hi
  {
    var r := RoundDiv(a, b);
    if r < lo {
      assert 2 * b * (r + 1) <= 2 * b * lo by {
        MulLeft(2 * b, r + 1, lo);
      }
    }
    if r > hi {
      assert 2 * b * (hi + 1) <= 2 * b * r by {
        MulLeft(2 * b, hi + 1, r);
      }
    }
  }

  /** Scaling by a non-negative factor keeps an order; it closes the rounding bounds above. */
  lemma MulLeft(k: int, x: int, y: int)
    requires k >= 0 && x <= y
    ensures k * x <= k * y
  {
  }

  /** round(100 * correct / total), or 100 before anything was typed. */
  function Accuracy(correct: nat, total: nat): (r: int)
    requires correct <= total
    ensures 0 <= r <= 100
    ensures total == 0 ==> r == 100
  {
    if total > 0 then
      RoundDivBetween(100 * correct, total, 0, 100);
      RoundDiv(100 * correct, total)
    else 100
  }

  /** Accuracy is a percentage that grows with the number of correct characters,
      is 100 when all of them are correct, and 0 when none is. */
  lemma {:induction false} AccuracyMonotone(c1: nat, c2: nat, total: nat)
    requires c1 <= c2 <= total
    ensures Accuracy(c1, total) <= Accuracy(c2, total)
    ensures total > 0 ==> (Accuracy(c2, total) == 100 <== c2 == total)
    ensures total > 0 && c1 == 0 ==> Accuracy(c1, total) == 0
  {
    if total > 0 {
      RoundDivMonotone(100 * c1, 100 * c2, total);
      if c2 == total {
        RoundDivBetween(100 * c2, total, 100, 100);
      }
      if c1 == 0 {
        RoundDivBetween(0, total, 0, 0);
      }
    }
  }

  /** Rounding keeps the order of numerators. */
  lemma {:induction false} RoundDivMonotone(a1: int, a2: int, b: int)
    requires a1 <= a2 && b > 0
    ensures RoundDiv(a1, b) <= RoundDiv(a2, b)
  {
    var r1, r2 := RoundDiv(a1, b), RoundDiv(a2, b);
    if r1 > r2 {
      assert 2 * b * (r2 + 1) <= 2 * b * r1 by {
        MulLeft(2 * b, r2 + 1, r1);
      }
    }
  }

  // ---------------------------------------------------------------------------
  // The state invariant

  /** What every reachable state satisfies: the counters add up, the best combo
      bounds the combo, overdrive is on only at a combo of 20 or more and both
      copies of the flag agree, accuracy is a percentage, the char cursor is the
      input's end, and only typed positions carry a mark. */
  ghost predicate Consistent(s: GameState)
  {
    && s.stats.totalChars == s.stats.correctChars + s.stats.incorrectChars
    && s.stats.combo <= s.stats.maxCombo
    && 0 <= s.stats.accuracy <= 100
    && 0 <= s.stats.wpm && 0 <= s.stats.rawWpm
    && s.stats.overdrive == s.overdriveActive
    && (s.overdriveActive ==> s.stats.combo >= 20)
    && s.currentCharIndex == |s.input|
    && (forall k :: k in s.typedChars ==>
          k.0 < s.currentWordIndex || (k.0 == s.currentWordIndex && k.1 < |s.input|))
    && (forall i :: 0 <= i < |s.input| ==> s.input[i] != ' ')
    && MarksMatch(s)
  }

  /** The mark a character typed at position i of `word` gets. */
  function MarkFor(word: string, i: nat, c: char): Mark
  {
    if i < |word| && word[i] == c then Correct else Incorrect
  }

  /** Every typed position of the current word carries the mark its character
      earns against the word. */
  ghost predicate MarksMatch(s: GameState)
  {
    s.currentWordIndex < |s.words| ==>
      forall i :: 0 <= i < |s.input| ==>
        (s.currentWordIndex, i) in s.typedChars
        && s.typedChars[(s.currentWordIndex, i)] == MarkFor(s.words[s.currentWordIndex], i, s.input[i])
  }

  /** The state of a fresh run over the text `words`. */
  function Fresh(config: GameConfig, text: GeneratedText): (s: GameState)
    ensures Consistent(s) && s.status == Idle && s.timeLeft == config.timer
    ensures s.words == text.words && s.bossWordIndices == text.bossWordIndices
  {
    GameState(Idle, text.words, text.bossWordIndices, 0, 0, map[], "", config.timer,
              INITIAL_STATS, false, None)
  }

  /** The initial state and `resetGame`'s state: 80 words generated from the run's seed. */
  function InitialState(config: GameConfig, sentences: seq<string>): (s: GameState)
    requires |sentences| > 0
    ensures Consistent(s) && s.status == Idle && |s.words| == INITIAL_WORDS
    ensures s.stats == INITIAL_STATS && s.currentWordIndex == 0 && s.input == []
  {
    Fresh(config, GenText(config.seed, sentences, config.difficulty, INITIAL_WORDS))
  }

  // ---------------------------------------------------------------------------
  // handleInput

  /** The word at the cursor, when there is one and it is not empty. */
  function CurrentWord(s: GameState): Option<string>
  {
    if s.currentWordIndex < |s.words| && s.words[s.currentWordIndex] != "" then
      Some(s.words[s.currentWordIndex])
    else None
  }

  /** The text after a finished word: 40 more words from seed + cursor when the
      cursor is within 10 words of the end. */
  function Extended(config: GameConfig, sentences: seq<string>, words: seq<string>, cursor: nat): (r: seq<string>)
    requires |sentences| > 0
    ensures cursor >= |words| - 10 ==> |r| == |words| + EXTENSION_WORDS
    ensures cursor < |words| - 10 ==> r == words
    ensures cursor >= |words| - 10 ==> r[|words|..] == GenText(config.seed + cursor, sentences, config.difficulty, EXTENSION_WORDS).words
    ensures r[..|words|] == words
  {
    if cursor >= |words| - 10 then
      words + GenText(config.seed + cursor, sentences, config.difficulty, EXTENSION_WORDS).words
    else words
  }

  /** Space: log the word, move to the next one and clear the input. */
  function Space(config: GameConfig, sentences: seq<string>, prev: GameState, word: string, now: int, wordStartMs: int)
    : (r: Outcome)
    requires |sentences| > 0
    ensures prev.input == [] ==> r == Outcome(prev, wordStartMs)
    ensures prev.input != [] ==>
      && r.wordStartMs == now && r.state.input == []
      && r.state.currentWordIndex == prev.currentWordIndex + 1
      && |r.state.stats.wordResults| == |prev.stats.wordResults| + 1
      && (r.state.stats.wordResults[|prev.stats.wordResults|].correct <==> prev.input == word)
    ensures r.state.status == prev.status && r.state.typedChars == prev.typedChars
    ensures |prev.words| <= |r.state.words| && r.state.words[..|prev.words|] == prev.words
  {
    if prev.input == [] then Outcome(prev, wordStartMs)
    else
      var isBoss := prev.currentWordIndex in prev.bossWordIndices;
      var correct := prev.input == word;
      var result := WordResult(word, prev.input, correct, isBoss, wordStartMs, now);
      var stats := prev.stats.(
        wordResults := prev.stats.wordResults + [result],
        bossWordsDefeated := prev.stats.bossWordsDefeated + (if isBoss && correct then 1 else 0));
      var next := prev.(
        words := Extended(config, sentences, prev.words, prev.currentWordIndex),
        currentWordIndex := prev.currentWordIndex + 1,
        currentCharIndex := 0,
        input := [],
        stats := stats);
      Outcome(next, now)
  }

  /** Backspace: drop the last input character and its mark. */
  function Backspace(prev: GameState): (r: GameState)
    ensures prev.input == [] ==> r == prev
    ensures prev.input != [] ==> r.input + [prev.input[|prev.input| - 1]] == prev.input
    ensures r.stats == prev.stats && r.status == prev.status
    ensures r.words == prev.words && r.currentWordIndex == prev.currentWordIndex
  {
    if prev.input == [] then prev
    else
      var del := |prev.input| - 1;
      prev.(input := prev.input[..del], currentCharIndex := del,
            typedChars := prev.typedChars - {(prev.currentWordIndex, del)})
  }

  /** One printable character: mark it, count it, move the combo and overdrive,
      tally a missed key, and recompute the live rates. */
  function TypeChar(prev: GameState, word: string, c: char, now: int, startMs: int): (r: GameState)
    ensures r.input == prev.input + [c]
    ensures r.stats.totalChars == prev.stats.totalChars + 1
    ensures r.stats.correctChars == prev.stats.correctChars + 1 <==> |prev.input| < |word| && word[|prev.input|] == c
    ensures (prev.currentWordIndex, |prev.input|) in r.typedChars
      && r.typedChars[(prev.currentWordIndex, |prev.input|)] == MarkFor(word, |prev.input|, c)
    ensures r.status == prev.status && r.words == prev.words && r.currentWordIndex == prev.currentWordIndex
  {
    var charIdx := |prev.input|;
    var expected: Option<char> := if charIdx < |word| then Some(word[charIdx]) else None;
    var st := prev.stats;
    var total := st.totalChars + 1;
    var isCorrect := expected == Some(c);
    var correct := st.correctChars + (if isCorrect then 1 else 0);
    var incorrect := st.incorrectChars + (if isCorrect then 0 else 1);
    var combo := if isCorrect then st.combo + 1 else 0;
    var maxCombo := if combo > st.maxCombo then combo else st.maxCombo;
    var turnsOn := isCorrect && combo >= 20 && !prev.overdriveActive;
    var overdrive := if isCorrect then prev.overdriveActive || turnsOn else false;
    var overdriveCount := st.overdriveCount + (if turnsOn then 1 else 0);
    var missed :=
      if !isCorrect && expected.Some? then
        var e := expected.value;
        st.missedKeys[e := (if e in st.missedKeys then st.missedKeys[e] else 0) + 1]
      else st.missedKeys;
    var elapsed := now - startMs;
    prev.(
      input := prev.input + [c],
      currentCharIndex := charIdx + 1,
      typedChars := prev.typedChars[(prev.currentWordIndex, charIdx) := if isCorrect then Correct else Incorrect],
      stats := st.(
        wpm := Wpm(correct, elapsed),
        rawWpm := Wpm(total, elapsed),
        accuracy := if correct <= total then Accuracy(correct, total) else 100,
        correctChars := correct,
        incorrectChars := incorrect,
        totalChars := total,
        combo := combo,
        maxCombo := maxCombo,
        missedKeys := missed,
        overdrive := overdrive,
        overdriveCount := overdriveCount),
      overdriveActive := overdrive)
  }

  /** The `handleInput(char)` updater: a finished run or a missing word ignores
      the key; " " finishes the word, "Backspace" deletes, any other key of more
      than one character is ignored, and a single character is typed. `startMs`
      and `wordStartMs` are the run's and the word's start times. */
  function HandleInput(config: GameConfig, sentences: seq<string>, prev: GameState, key: string,
                       now: int, startMs: int, wordStartMs: int): (r: Outcome)
    requires |sentences| > 0
    ensures r.state.status == prev.status
    ensures |prev.words| <= |r.state.words| && r.state.words[..|prev.words|] == prev.words
    ensures r.state.currentWordIndex == prev.currentWordIndex || r.state.currentWordIndex == prev.currentWordIndex + 1
    ensures r.wordStartMs == wordStartMs || r.wordStartMs == now
  {
    if prev.status == Finished || CurrentWord(prev).None? then Outcome(prev, wordStartMs)
    else
      var word := CurrentWord(prev).value;
      if key == " " then Space(config, sentences, prev, word, now, wordStartMs)
      else if key == "Backspace" then Outcome(Backspace(prev), wordStartMs)
      else if |key| != 1 then Outcome(prev, wordStartMs)
      else Outcome(TypeChar(prev, word, key[0], now, startMs), wordStartMs)
  }

  // ---------------------------------------------------------------------------
  // The timer tick and finishGame

  /** The WPM snapshot of the tick at `now`: the elapsed time with the correct
      and the raw rate at that time; the correct rate never exceeds the raw one,
      and both are 0 when no time has passed. */
  function Snapshot(stats: GameStats, now: int, startMs: int): (r: WpmSnapshot)
    ensures r.timeMs == now - startMs
    ensures r.wpm == Wpm(stats.correctChars, now - startMs) && r.raw == Wpm(stats.totalChars, now - startMs)
    ensures stats.correctChars <= stats.totalChars ==> 0 <= r.wpm <= r.raw
    ensures now - startMs <= 0 ==> r.wpm == 0 && r.raw == 0
  {
    var elapsed := now - startMs;
    if stats.correctChars <= stats.totalChars && elapsed > 0 then
      WpmMonotone(stats.correctChars, stats.totalChars, elapsed);
      WpmSnapshot(elapsed, Wpm(stats.correctChars, elapsed), Wpm(stats.totalChars, elapsed))
    else
      WpmSnapshot(elapsed, Wpm(stats.correctChars, elapsed), Wpm(stats.totalChars, elapsed))
  }

  /** `finishGame`'s updater: final rates over the elapsed time and the recorded history. */
  function Finish(prev: GameState, now: int, startMs: int, history: seq<WpmSnapshot>): (r: GameState)
    ensures r == prev.(status := Finished, stats := r.stats)
    ensures r.stats.wpmHistory == history && r.stats.elapsedMs == now - startMs
    ensures r.stats.correctChars == prev.stats.correctChars && r.stats.totalChars == prev.stats.totalChars
    ensures r.stats.wordResults == prev.stats.wordResults && r.stats.maxCombo == prev.stats.maxCombo
  {
    var st := prev.stats;
    var elapsed := now - startMs;
    prev.(
      status := Finished,
      stats := st.(
        wpm := Wpm(st.correctChars, elapsed),
        rawWpm := Wpm(st.totalChars, elapsed),
        accuracy := if st.correctChars <= st.totalChars then Accuracy(st.correctChars, st.totalChars) else 100,
        elapsedMs := elapsed,
        wpmHistory := history))
  }

  // ---------------------------------------------------------------------------
  // What the reducer promises

  /** A finished run, or a cursor past the words or on an empty word, ignores every key. */
  lemma IgnoredWhenFinishedOrNoWord(config: GameConfig, sentences: seq<string>, prev: GameState, key: string,
                                    now: int, startMs: int, wordStartMs: int)
    requires |sentences| > 0
    requires prev.status == Finished || prev.currentWordIndex >= |prev.words| || prev.words[prev.currentWordIndex] == ""
    ensures HandleInput(config, sentences, prev, key, now, startMs, wordStartMs) == Outcome(prev, wordStartMs)
  {
  }

  /** Space with empty input changes nothing. */
  lemma SpaceIgnoredWhenEmpty(config: GameConfig, sentences: seq<string>, prev: GameState, now: int, startMs: int, wordStartMs: int)
    requires |sentences| > 0 && prev.input == []
    ensures HandleInput(config, sentences, prev, " ", now, startMs, wordStartMs) == Outcome(prev, wordStartMs)
  {
  }

  /** Otherwise Space logs exactly one word result, whose `correct` is whether
      the input equals the word, moves the word cursor by one, clears the input,
      restarts the word clock, and leaves the char counters, combo and marks alone. */
  lemma SpaceStep(config: GameConfig, sentences: seq<string>, prev: GameState, now: int, startMs: int, wordStartMs: int)
    requires |sentences| > 0 && prev.status != Finished && CurrentWord(prev).Some? && prev.input != []
    ensures var r := HandleInput(config, sentences, prev, " ", now, startMs, wordStartMs);
      var word := prev.words[prev.currentWordIndex];
      && r.wordStartMs == now
      && r.state.stats.wordResults
         == prev.stats.wordResults + [WordResult(word, prev.input, prev.input == word,
                                                 prev.currentWordIndex in prev.bossWordIndices, wordStartMs, now)]
      && r.state.currentWordIndex == prev.currentWordIndex + 1
      && r.state.currentCharIndex == 0 && r.state.input == []
      && r.state.stats.correctChars == prev.stats.correctChars
      && r.state.stats.incorrectChars == prev.stats.incorrectChars
      && r.state.stats.totalChars == prev.stats.totalChars
      && r.state.stats.combo == prev.stats.combo
      && r.state.typedChars == prev.typedChars
      && r.state.bossWordIndices == prev.bossWordIndices
  {
  }

  /** After a space on a word with input the text is the extended text: the
      old words as a prefix, unchanged while the cursor is more than 10 words
      from the end, and otherwise followed by the 40 words generated from
      seed + cursor (see Extended). */
  lemma SpaceExtension(config: GameConfig, sentences: seq<string>, prev: GameState, now: int, startMs: int, wordStartMs: int)
    requires |sentences| > 0 && prev.status != Finished && CurrentWord(prev).Some? && prev.input != []
    ensures HandleInput(config, sentences, prev, " ", now, startMs, wordStartMs).state.words
         == Extended(config, sentences, prev.words, prev.currentWordIndex)
  {
  }

  /** A boss is defeated exactly when a finished word is a boss word typed exactly. */
  lemma BossDefeat(config: GameConfig, sentences: seq<string>, prev: GameState, now: int, startMs: int, wordStartMs: int)
    requires |sentences| > 0 && prev.status != Finished && CurrentWord(prev).Some? && prev.input != []
    ensures var r := HandleInput(config, sentences, prev, " ", now, startMs, wordStartMs);
      r.state.stats.bossWordsDefeated ==
        prev.stats.bossWordsDefeated
        + (if prev.currentWordIndex in prev.bossWordIndices && prev.input == prev.words[prev.currentWordIndex]
           then 1 else 0)
  {
  }

  /** Backspace with empty input changes nothing; otherwise it drops the last
      input character, puts the char cursor on it, removes its mark, and leaves
      every counter alone. */
  lemma BackspaceStep(config: GameConfig, sentences: seq<string>, prev: GameState, now: int, startMs: int, wordStartMs: int)
    requires |sentences| > 0 && prev.status != Finished && CurrentWord(prev).Some?
    ensures var r := HandleInput(config, sentences, prev, "Backspace", now, startMs, wordStartMs);
      && r.wordStartMs == wordStartMs
      && (prev.input == [] ==> r.state == prev)
      && (prev.input != [] ==>
            && r.state.input == prev.input[..|prev.input| - 1]
            && r.state.currentCharIndex == |prev.input| - 1
            && r.state.typedChars == prev.typedChars - {(prev.currentWordIndex, |prev.input| - 1)}
            && r.state.stats == prev.stats
            && r.state.words == prev.words && r.state.currentWordIndex == prev.currentWordIndex)
  {
  }

  /** A key of more than one character other than "Backspace", or the empty key, changes nothing. */
  lemma SpecialKeyIgnored(config: GameConfig, sentences: seq<string>, prev: GameState, key: string,
                          now: int, startMs: int, wordStartMs: int)
    requires |sentences| > 0 && |key| != 1 && key != "Backspace"
    ensures HandleInput(config, sentences, prev, key, now, startMs, wordStartMs) == Outcome(prev, wordStartMs)
  {
  }

  /** A typed character counts once, as correct exactly when it is the expected
      character of the word; a match grows the combo and the best combo and turns
      overdrive on (counting it) when the combo reaches 20 with overdrive off; a
      mismatch clears combo and overdrive and tallies the expected character as
      missed when there is one. */
  lemma TypeStep(config: GameConfig, sentences: seq<string>, prev: GameState, c: char,
                 now: int, startMs: int, wordStartMs: int)
    requires |sentences| > 0 && prev.status != Finished && CurrentWord(prev).Some? && c != ' '
    ensures var r := HandleInput(config, sentences, prev, [c], now, startMs, wordStartMs).state;
      var word := prev.words[prev.currentWordIndex];
      var i := |prev.input|;
      var hit := i < |word| && word[i] == c;
      var st, st' := prev.stats, r.stats;
      && r.input == prev.input + [c] && r.currentCharIndex == i + 1
      && r.typedChars == prev.typedChars[(prev.currentWordIndex, i) := if hit then Correct else Incorrect]
      && st'.totalChars == st.totalChars + 1
      && st'.correctChars == st.correctChars + (if hit then 1 else 0)
      && st'.incorrectChars == st.incorrectChars + (if hit then 0 else 1)
      && (hit ==> st'.combo == st.combo + 1 && st'.maxCombo == (if st.combo + 1 > st.maxCombo then st.combo + 1 else st.maxCombo))
      && (hit ==> (r.overdriveActive <==> prev.overdriveActive || st.combo + 1 >= 20))
      && (st'.overdriveCount == st.overdriveCount + 1 <==> hit && st.combo + 1 >= 20 && !prev.overdriveActive)
      && (st'.overdriveCount == st.overdriveCount || st'.overdriveCount == st.overdriveCount + 1)
      && (!hit ==> st'.combo == 0 && !r.overdriveActive && st'.maxCombo == st.maxCombo)
      && (!hit && i < |word| ==> st'.missedKeys == st.missedKeys[word[i] := MissCount(st.missedKeys, word[i]) + 1])
      && (!hit && i >= |word| ==> st'.missedKeys == st.missedKeys)
      && (hit ==> st'.missedKeys == st.missedKeys)
      && r.words == prev.words && r.currentWordIndex == prev.currentWordIndex
  {
    assert [c] != " ";
    assert [c] != "Backspace";
  }

  /** The number of misses tallied for `c`, 0 when it was never missed. */
  function MissCount(missed: map<char, nat>, c: char): nat
  {
    if c in missed then missed[c] else 0
  }

  /** Every reducer step keeps the state invariant. */
  lemma HandleInputConsistent(config: GameConfig, sentences: seq<string>, prev: GameState, key: string,
                              now: int, startMs: int, wordStartMs: int)
    requires |sentences| > 0 && Consistent(prev)
    ensures Consistent(HandleInput(config, sentences, prev, key, now, startMs, wordStartMs).state)
  {
    if prev.status != Finished && CurrentWord(prev).Some? {
      var word := CurrentWord(prev).value;
      if key == " " {
        SpaceConsistent(config, sentences, prev, word, now, wordStartMs);
      } else if key == "Backspace" {
        BackspaceConsistent(prev);
      } else if |key| == 1 {
        TypeCharConsistent(prev, word, key[0], now, startMs);
      }
    }
  }

  lemma SpaceConsistent(config: GameConfig, sentences: seq<string>, prev: GameState, word: string, now: int, wordStartMs: int)
    requires |sentences| > 0 && Consistent(prev)
    ensures Consistent(Space(config, sentences, prev, word, now, wordStartMs).state)
  {
    var r := Space(config, sentences, prev, word, now, wordStartMs).state;
    assert forall k :: k in r.typedChars ==> k in prev.typedChars;
  }

  lemma BackspaceConsistent(prev: GameState)
    requires Consistent(prev)
    ensures Consistent(Backspace(prev))
  {
    var r := Backspace(prev);
    assert forall k :: k in r.typedChars ==> k in prev.typedChars;
  }

  lemma TypeCharConsistent(prev: GameState, word: string, c: char, now: int, startMs: int)
    requires Consistent(prev) && c != ' '
    requires prev.currentWordIndex < |prev.words| && word == prev.words[prev.currentWordIndex]
    ensures Consistent(TypeChar(prev, word, c, now, startMs))
  {
  }

  /** Typing a character and deleting it gives back the input, the char cursor
      and the marks; only the counters remember the keystroke. */
  lemma TypeThenBackspace(config: GameConfig, sentences: seq<string>, prev: GameState, c: char,
                          now: int, later: int, startMs: int, wordStartMs: int)
    requires |sentences| > 0 && Consistent(prev) && prev.status != Finished && CurrentWord(prev).Some? && c != ' '
    ensures var typed := HandleInput(config, sentences, prev, [c], now, startMs, wordStartMs);
      var back := HandleInput(config, sentences, typed.state, "Backspace", later, startMs, typed.wordStartMs).state;
      && back.input == prev.input
      && back.currentCharIndex == prev.currentCharIndex
      && back.typedChars == prev.typedChars
      && back.currentWordIndex == prev.currentWordIndex
      && back.stats.totalChars == prev.stats.totalChars + 1
  {
    TypeStep(config, sentences, prev, c, now, startMs, wordStartMs);
    var typed := HandleInput(config, sentences, prev, [c], now, startMs, wordStartMs);
    var key := (prev.currentWordIndex, |prev.input|);
    assert key !in prev.typedChars;
    assert CurrentWord(typed.state) == CurrentWord(prev);
    assert (prev.input + [c])[..|prev.input|] == prev.input;
    assert typed.state.typedChars - {key} == prev.typedChars;
  }

  /** Deleting the last character and typing it again gives back the input, the
      char cursor and the marks: the retyped character gets the mark it had. */
  lemma BackspaceThenRetype(config: GameConfig, sentences: seq<string>, prev: GameState,
                            now: int, later: int, startMs: int, wordStartMs: int)
    requires |sentences| > 0 && Consistent(prev) && prev.status != Finished && CurrentWord(prev).Some?
    requires prev.input != []
    ensures var c := prev.input[|prev.input| - 1];
      var back := HandleInput(config, sentences, prev, "Backspace", now, startMs, wordStartMs);
      var again := HandleInput(config, sentences, back.state, [c], later, startMs, back.wordStartMs).state;
      && again.input == prev.input
      && again.currentCharIndex == prev.currentCharIndex
      && again.typedChars == prev.typedChars
      && again.currentWordIndex == prev.currentWordIndex
  {
    var n := |prev.input| - 1;
    var c := prev.input[n];
    var key := (prev.currentWordIndex, n);
    BackspaceStep(config, sentences, prev, now, startMs, wordStartMs);
    var back := HandleInput(config, sentences, prev, "Backspace", now, startMs, wordStartMs);
    assert CurrentWord(back.state) == CurrentWord(prev);
    TypeStep(config, sentences, back.state, c, later, startMs, back.wordStartMs);
    assert prev.input[..n] + [c] == prev.input;
    assert key in prev.typedChars && prev.typedChars[key] == MarkFor(prev.words[prev.currentWordIndex], n, c);
    assert (prev.typedChars - {key})[key := prev.typedChars[key]] == prev.typedChars;
  }

  /** The tick's updater: at one second left or less the clock stops at 0 (and
      the run is finished); otherwise one second is taken off. */
  function TickState(prev: GameState): (r: GameState)
    ensures r == prev.(timeLeft := r.timeLeft)
    ensures r.timeLeft >= 0
    ensures prev.timeLeft >= 1 ==> r.timeLeft == prev.timeLeft - 1
    ensures r.timeLeft == 0 <==> prev.timeLeft <= 1
    ensures Consistent(prev) ==> Consistent(r)
  {
    if prev.timeLeft <= 1 then prev.(timeLeft := 0) else prev.(timeLeft := prev.timeLeft - 1)
  }

  /** `finishGame` ends the run with rates over the whole elapsed time: accuracy
      a percentage (100 when nothing was typed), rates never negative and 0 when
      no time has passed, and the counters kept. */
  lemma FinishStats(prev: GameState, now: int, startMs: int, history: seq<WpmSnapshot>)
    requires Consistent(prev)
    ensures var r := Finish(prev, now, startMs, history);
      && Consistent(r) && r.status == Finished
      && 0 <= r.stats.accuracy <= 100
      && (prev.stats.totalChars == 0 ==> r.stats.accuracy == 100)
      && (now - startMs <= 0 ==> r.stats.wpm == 0 && r.stats.rawWpm == 0)
      && r.stats.wpm <= r.stats.rawWpm
      && r.stats.wpmHistory == history && r.stats.elapsedMs == now - startMs
      && r.stats.correctChars == prev.stats.correctChars && r.stats.totalChars == prev.stats.totalChars
  {
    var elapsed := now - startMs;
    if elapsed > 0 {
      WpmMonotone(prev.stats.correctChars, prev.stats.totalChars, elapsed);
    }
  }

  /** More characters never give a lower rate. */
  lemma WpmMonotone(c1: nat, c2: nat, elapsedMs: int)
    requires c1 <= c2 && elapsedMs > 0
    ensures Wpm(c1, elapsedMs) <= Wpm(c2, elapsedMs)
  {
    RoundDivMonotone(12000 * c1, 12000 * c2, elapsedMs);
  }

  // ---------------------------------------------------------------------------
  // The interval timer

  /** What the interval reads and writes: the state, the recorded snapshots and
      whether the interval is set. */
  datatype Clock = Clock(state: GameState, history: seq<WpmSnapshot>, ticking: bool)

  /** Snapshot times strictly increase. */
  ghost predicate Increasing(h: seq<WpmSnapshot>)
  {
    forall i, j :: 0 <= i < j < |h| ==> h[i].timeMs < h[j].timeMs
  }

  /** One tick of the interval at `now`, and `finishGame` on the last second.
      Once the interval is cleared no tick arrives. */
  function TickClock(c: Clock, now: int, startMs: int): (r: Clock)
    ensures !c.ticking ==> r == c
    ensures c.ticking && c.state.timeLeft > 1 ==>
      r.ticking && r.history == c.history + [Snapshot(c.state.stats, now, startMs)]
    ensures c.ticking && c.state.timeLeft <= 1 ==>
      !r.ticking && r.state.status == Finished && r.history == c.history && r.state.stats.wpmHistory == c.history
    ensures r.state.timeLeft == if c.ticking then TickState(c.state).timeLeft else c.state.timeLeft
  {
    if !c.ticking then c
    else if c.state.timeLeft <= 1 then
      Clock(Finish(TickState(c.state), now, startMs, c.history), c.history, false)
    else
      Clock(TickState(c.state), c.history + [Snapshot(c.state.stats, now, startMs)], true)
  }

  /** A tick later than every recorded snapshot keeps the snapshot times increasing. */
  lemma TickKeepsIncreasing(c: Clock, now: int, startMs: int)
    requires Increasing(c.history)
    requires c.history == [] || now - startMs > c.history[|c.history| - 1].timeMs
    ensures Increasing(TickClock(c, now, startMs).history)
  {
    var r := TickClock(c, now, startMs);
    if c.ticking && c.state.timeLeft > 1 {
      forall i, j | 0 <= i < j < |r.history|
        ensures r.history[i].timeMs < r.history[j].timeMs
      {
        if j == |c.history| && i < |c.history| - 1 {
          assert c.history[i].timeMs < c.history[|c.history| - 1].timeMs;
        }
      }
    }
  }

  /** The ticks at the times `nows`, in turn. */
  function Ticks(c: Clock, nows: seq<int>, startMs: int): Clock
    decreases |nows|
  {
    if nows == [] then c else Ticks(TickClock(c, nows[0], startMs), nows[1..], startMs)
  }

  /** A running clock with T seconds left: fewer than T ticks leave it running with
      one second less and one more snapshot per tick; the T-th tick finishes the
      run after exactly T - 1 snapshots and clears the interval, and later ticks
      change nothing. The recorded snapshots are only ever appended to. */
  lemma {:induction false} TicksFinish(c: Clock, nows: seq<int>, startMs: int)
    requires c.ticking && c.state.status == Running && c.state.timeLeft >= 1
    ensures var r := Ticks(c, nows, startMs);
      && |c.history| <= |r.history| && r.history[..|c.history|] == c.history
      && (|nows| < c.state.timeLeft ==>
            && r.ticking && r.state.status == Running
            && r.state.timeLeft == c.state.timeLeft - |nows|
            && |r.history| == |c.history| + |nows|)
      && (|nows| >= c.state.timeLeft ==>
            && !r.ticking && r.state.status == Finished && r.state.timeLeft == 0
            && |r.history| == |c.history| + c.state.timeLeft - 1
            && r.state.stats.wpmHistory == r.history)
    decreases |nows|
  {
    if nows != [] {
      var c' := TickClock(c, nows[0], startMs);
      if c.state.timeLeft <= 1 {
        TicksStopped(c', nows[1..], startMs);
      } else {
        TicksFinish(c', nows[1..], startMs);
        var r := Ticks(c', nows[1..], startMs);
        assert r.history[..|c.history|] == r.history[..|c'.history|][..|c.history|];
      }
    }
  }

  /** Without the interval, ticks change nothing. */
  lemma {:induction false} TicksStopped(c: Clock, nows: seq<int>, startMs: int)
    requires !c.ticking
    ensures Ticks(c, nows, startMs) == c
    decreases |nows|
  {
    if nows != [] {
      TicksStopped(TickClock(c, nows[0], startMs), nows[1..], startMs);
    }
  }

  // ---------------------------------------------------------------------------
  // A run as a sequence of keystrokes

  datatype KeyEvent = KeyEvent(key: string, now: int)

  /** The reducer applied to each key in turn, threading the word start time. */
  function Replay(config: GameConfig, sentences: seq<string>, s: GameState, events: seq<KeyEvent>,
                  startMs: int, wordStartMs: int): (r: Outcome)
    requires |sentences| > 0
    decreases |events|
  {
    if events == [] then Outcome(s, wordStartMs)
    else
      var o := HandleInput(config, sentences, s, events[0].key, events[0].now, startMs, wordStartMs);
      Replay(config, sentences, o.state, events[1..], startMs, o.wordStartMs)
  }

  /** However the keys fall, the state stays consistent: in particular
      total == correct + incorrect and maxCombo >= combo after any run. */
  lemma {:induction false} ReplayConsistent(config: GameConfig, sentences: seq<string>, s: GameState,
                                            events: seq<KeyEvent>, startMs: int, wordStartMs: int)
    requires |sentences| > 0 && Consistent(s)
    ensures Consistent(Replay(config, sentences, s, events, startMs, wordStartMs).state)
    decreases |events|
  {
    if events != [] {
      HandleInputConsistent(config, sentences, s, events[0].key, events[0].now, startMs, wordStartMs);
      var o := HandleInput(config, sentences, s, events[0].key, events[0].now, startMs, wordStartMs);
      ReplayConsistent(config, sentences, o.state, events[1..], startMs, o.wordStartMs);
    }
  }

  /** Keys never shrink the word log and never take the word cursor back. */
  lemma {:induction false} ReplayMonotone(config: GameConfig, sentences: seq<string>, s: GameState,
                                          events: seq<KeyEvent>, startMs: int, wordStartMs: int)
    requires |sentences| > 0
    ensures var r := Replay(config, sentences, s, events, startMs, wordStartMs).state;
      && r.currentWordIndex >= s.currentWordIndex
      && |r.stats.wordResults| - |s.stats.wordResults| == r.currentWordIndex - s.currentWordIndex
      && |r.words| >= |s.words|
      && r.stats.wordResults[..|s.stats.wordResults|] == s.stats.wordResults
      && r.words[..|s.words|] == s.words
    decreases |events|
  {
    if events != [] {
      var o := HandleInput(config, sentences, s, events[0].key, events[0].now, startMs, wordStartMs);
      assert o.state.currentWordIndex >= s.currentWordIndex;
      assert |o.state.stats.wordResults| - |s.stats.wordResults| == o.state.currentWordIndex - s.currentWordIndex;
      assert o.state.stats.wordResults[..|s.stats.wordResults|] == s.stats.wordResults;
      assert |o.state.words| >= |s.words| && o.state.words[..|s.words|] == s.words;
      ReplayMonotone(config, sentences, o.state, events[1..], startMs, o.wordStartMs);
      var r := Replay(config, sentences, o.state, events[1..], startMs, o.wordStartMs).state;
      assert r.stats.wordResults[..|s.stats.wordResults|]
          == r.stats.wordResults[..|o.state.stats.wordResults|][..|s.stats.wordResults|];
      assert r.words[..|s.words|] == r.words[..|o.state.words|][..|s.words|];
    }
  }

  // ---------------------------------------------------------------------------
  // The hook: the state plus the refs the callbacks share

  class Engine {
    const config: GameConfig
    /** The theme's sentence pool generateText draws from. */
    const sentences: seq<string>
    var state: GameState
    /** `startTimeRef`, `wordStartTimeRef` and `wpmHistoryRef`. */
    var startTime: int
    var wordStartTime: int
    var wpmHistory: seq<WpmSnapshot>
    /** Whether the interval timer is set (`timerRef.current` is not null). */
    var ticking: bool

    ghost predicate Valid()
      reads this
    {
      && |sentences| > 0 && Consistent(state)
      && (ticking ==> state.status == Running)
      && Increasing(wpmHistory)
    }

    constructor (config: GameConfig, sentences: seq<string>)
      requires |sentences| > 0
      ensures Valid() && this.config == config && this.sentences == sentences
      ensures state == InitialState(config, sentences)
      ensures startTime == 0 && wordStartTime == 0 && wpmHistory == [] && !ticking
    {
      this.config := config;
      this.sentences := sentences;
      state := InitialState(config, sentences);
      startTime := 0;
      wordStartTime := 0;
      wpmHistory := [];
      ticking := false;
    }

    /** `startGame` at time `now`: both clocks restart, the history is cleared,
        the run is running with a full timer, and the interval is set. */
    method StartGame(now: int)
      requires Valid()
      modifies this
      ensures Valid()
      ensures startTime == now && wordStartTime == now && wpmHistory == [] && ticking
      ensures state == old(state).(status := Running, timeLeft := config.timer)
    {
      startTime := now;
      wordStartTime := now;
      wpmHistory := [];
      state := state.(status := Running, timeLeft := config.timer);
      ticking := true;
    }

    /** `finishGame` at time `now`: the interval is cleared and the final stats computed. */
    method FinishGame(now: int)
      requires Valid()
      modifies this
      ensures Valid() && !ticking && state.status == Finished
      ensures state == Finish(old(state), now, startTime, wpmHistory)
      ensures startTime == old(startTime) && wordStartTime == old(wordStartTime) && wpmHistory == old(wpmHistory)
    {
      ticking := false;
      FinishStats(state, now, startTime, wpmHistory);
      state := Finish(state, now, startTime, wpmHistory);
    }

    /** One interval tick at time `now`, which is later than every recorded
        snapshot: the last second stops the clock and finishes the run; any
        other takes a second off and records a snapshot. */
    method Tick(now: int)
      requires Valid() && ticking
      requires wpmHistory == [] || now - startTime > wpmHistory[|wpmHistory| - 1].timeMs
      modifies this
      ensures Valid()
      ensures Clock(state, wpmHistory, ticking) == TickClock(old(Clock(state, wpmHistory, ticking)), now, startTime)
      ensures old(state.timeLeft) <= 1 ==>
                state == Finish(TickState(old(state)), now, startTime, wpmHistory)
                && wpmHistory == old(wpmHistory) && !ticking
      ensures old(state.timeLeft) > 1 ==>
                state == TickState(old(state)) && ticking
                && wpmHistory == old(wpmHistory) + [Snapshot(old(state.stats), now, startTime)]
      ensures startTime == old(startTime) && wordStartTime == old(wordStartTime)
    {
      TickKeepsIncreasing(Clock(state, wpmHistory, ticking), now, startTime);
      if state.timeLeft <= 1 {
        state := TickState(state);
        FinishGame(now);
      } else {
        wpmHistory := wpmHistory + [Snapshot(state.stats, now, startTime)];
        state := TickState(state);
      }
    }

    /** A keystroke at time `now`: the reducer step, then `startGame` when the run was idle. */
    method HandleKey(key: string, now: int)
      requires Valid()
      modifies this
      ensures Valid()
      ensures old(state.status) != Idle ==>
                Outcome(state, wordStartTime)
                == HandleInput(config, sentences, old(state), key, now, old(startTime), old(wordStartTime))
                && startTime == old(startTime) && wpmHistory == old(wpmHistory) && ticking == old(ticking)
      ensures old(state.status) == Idle ==>
                var o := HandleInput(config, sentences, old(state), key, now, old(startTime), old(wordStartTime));
                && state == o.state.(status := Running, timeLeft := config.timer)
                && startTime == now && wordStartTime == now && wpmHistory == [] && ticking
    {
      var wasIdle := state.status == Idle;
      HandleInputConsistent(config, sentences, state, key, now, startTime, wordStartTime);
      var o := HandleInput(config, sentences, state, key, now, startTime, wordStartTime);
      state := o.state;
      wordStartTime := o.wordStartMs;
      if wasIdle {
        StartGame(now);
      }
    }

    /** `resetGame`: the interval is cleared, the history emptied and the text regenerated. */
    method Reset()
      requires Valid()
      modifies this
      ensures Valid() && state == InitialState(config, sentences) && wpmHistory == [] && !ticking
      ensures startTime == old(startTime) && wordStartTime == old(wordStartTime)
    {
      ticking := false;
      wpmHistory := [];
      state := InitialState(config, sentences);
    }
  }
}
