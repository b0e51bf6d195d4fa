/** The word-stream generator (src/utils/textgen.ts). */
module TextGen {
  import opened Types
  import opened Rng

  // ---------------------------------------------------------------------------
  // Constant vocabularies

  /** The rare long words injected between sentences. */
  const BOSS_WORDS: seq<string> := [
    "electromagnetic", "synchronization", "cryptocurrency", "extraterrestrial",
    "nanotechnology", "transcendence", "decentralized", "consciousness",
    "photosynthesis", "hyperventilate", "authentication", "infrastructure",
    "metamorphosis", "comprehensive", "revolutionary", "interdimensional"
  ]

  // ---------------------------------------------------------------------------
  // Words of a sentence and numbers as words

  /** `split(/\s+/)` of a sentence whose words are separated by single spaces. */
  function Split(s: string): (r: seq<string>)
    ensures |r| >= 1
    ensures forall t :: t in r ==> ' ' !in t
    decreases |s|
  {
    if s == [] then [""]
    else
      var rest := Split(s[1..]);
      if s[0] == ' ' then [""] + rest else [[s[0]] + rest[0]] + rest[1..]
  }

  /** The words joined back with single spaces. */
  function Join(ws: seq<string>): string
    requires |ws| >= 1
    decreases |ws|
  {
    if |ws| == 1 then ws[0] else ws[0] + " " + Join(ws[1..])
  }

  /** Splitting loses nothing: joining the words gives the sentence back. */
  lemma {:induction false} JoinSplit(s: string)
    ensures Join(Split(s)) == s
    decreases |s|
  {
    if s != [] {
      JoinSplit(s[1..]);
      var rest := Split(s[1..]);
      if s[0] == ' ' {
        assert Split(s) == [""] + rest;
        assert s == [s[0]] + s[1..];
      } else {
        var r := Split(s);
        assert r == [[s[0]] + rest[0]] + rest[1..];
        if |rest| == 1 {
          assert s == [s[0]] + s[1..];
        } else {
          assert r[1..] == rest[1..];
          assert Join(r) == [s[0]] + rest[0] + " " + Join(rest[1..]);
          assert s == [s[0]] + s[1..];
        }
      }
    }
  }

  function DigitChar(d: nat): char
    requires d < 10
  {
    "0123456789"[d]
  }

  function DigitValue(c: char): nat
  {
    if '0' <= c <= '9' then (c - '0') as nat else 0
  }

  /** `String(n)` for a natural number: its decimal digits, no leading zero. */
  function DecStr(n: nat): (r: string)
    ensures |r| >= 1
    decreases n
  {
    if n < 10 then [DigitChar(n)] else DecStr(n / 10) + [DigitChar(n % 10)]
  }

  /** The value of a string of decimal digits. */
  function ParseDec(s: string): nat
    decreases |s|
  {
    if s == [] then 0 else 10 * ParseDec(s[..|s| - 1]) + DigitValue(s[|s| - 1])
  }

  /** A number written as a word reads back as the same number. */
  lemma {:induction false} ParseDecStr(n: nat)
    ensures ParseDec(DecStr(n)) == n
    decreases n
  {
    var s := DecStr(n);
    if n >= 10 {
      ParseDecStr(n / 10);
      assert s[..|s| - 1] == DecStr(n / 10);
    }
  }

  /** A word that is `String(n)` for an injected number n in [10, 9999). */
  ghost predicate IsNumeral(w: string)
  {
    exists n: nat :: 10 <= n < 9999 && DecStr(n) == w
  }

  // ---------------------------------------------------------------------------
  // generateText as a function of its inputs

  datatype GeneratedText = GeneratedText(words: seq<string>, bossWordIndices: seq<int>)

  /** The variables of the generation loop: the words so far, the boss indices,
      the shuffled sentences, the next sentence and the generator's state. */
  datatype GenState = GenState(
    words: seq<string>,
    bossWordIndices: seq<int>,
    shuffled: seq<string>,
    sentenceIndex: int,
    rng: bv32)

  ghost predicate Shape(g: GenState)
  {
    0 < |g.shuffled| && 0 <= g.sentenceIndex <= |g.shuffled|
  }

  /** The inner loop: push the tokens in order, stopping at `wordCount` words. */
  function Fill(words: seq<string>, tokens: seq<string>, wordCount: int): (r: seq<string>)
    ensures |r| == if |words| >= wordCount then |words|
                   else if wordCount - |words| < |tokens| then wordCount else |words| + |tokens|
    ensures r[..|words|] == words
    ensures forall i :: |words| <= i < |r| ==> r[i] == tokens[i - |words|]
  {
    if |words| >= wordCount then words
    else if wordCount - |words| < |tokens| then words + tokens[..wordCount - |words|]
    else words + tokens
  }

  /** The boss-word roll, made at the top of a pass once more than three words are there. */
  predicate BossRolled(g: GenState)
  {
    |g.words| > 3 && Below(Output(Advance(g.rng)), 4)
  }

  /** A pass that appends a boss word picked by one more draw; no sentence is used. */
  function BossPass(g: GenState): (r: GenState)
    ensures |r.words| == |g.words| + 1 && r.words[..|g.words|] == g.words
    ensures r.words[|g.words|] in BOSS_WORDS
    ensures r.bossWordIndices == g.bossWordIndices + [|g.words|]
    ensures r.shuffled == g.shuffled && r.sentenceIndex == g.sentenceIndex
  {
    var s := Advance(Advance(g.rng));
    var boss := BOSS_WORDS[ScaleInt(Output(s), 0, |BOSS_WORDS|)];
    g.(words := g.words + [boss], bossWordIndices := g.bossWordIndices + [|g.words|], rng := s)
  }

  /** The next sentence, the sentence order, the index after the sentence and the
      state: a used-up order is reshuffled in place (|order| - 1 draws) first. */
  function NextSentence(shuffled: seq<string>, index: int, st: bv32): (r: (string, seq<string>, int, bv32))
    requires 0 < |shuffled| && 0 <= index <= |shuffled|
    ensures |r.1| == |shuffled| && multiset(r.1) == multiset(shuffled)
    ensures 0 < r.2 <= |r.1| && r.0 == r.1[r.2 - 1]
  {
    if index >= |shuffled| then
      var sh := ShuffleSpec(shuffled, st);
      (sh.0[0], sh.0, 1, sh.1)
    else
      (shuffled[index], shuffled, index + 1, st)
  }

  /** The words a sentence pass appends and the state after them: a number first
      when numbers are enabled and the number roll succeeds, then the sentence's
      words, stopping at `wordCount` words. */
  function SentenceWords(words: seq<string>, sentence: string, numbersEnabled: bool, st: bv32, wordCount: int)
    : (r: (seq<string>, bv32))
    requires |words| < wordCount
    ensures |words| < |r.0| <= wordCount && r.0[..|words|] == words
  {
    var tokens := Split(sentence);
    if numbersEnabled && Below(Output(Advance(st)), 6) then
      var st' := Advance(Advance(st));
      var w := words + [DecStr(ScaleInt(Output(st'), 10, 9999))];
      (Fill(w, tokens, wordCount), st')
    else
      (Fill(words, tokens, wordCount), if numbersEnabled then Advance(st) else st)
  }

  /** A pass that takes the next sentence. */
  function SentencePass(g: GenState, numbersEnabled: bool, wordCount: int): (r: GenState)
    requires Shape(g) && |g.words| < wordCount
    ensures Shape(r) && |g.words| < |r.words| <= wordCount
    ensures r.bossWordIndices == g.bossWordIndices && multiset(r.shuffled) == multiset(g.shuffled)
  {
    var s := if |g.words| > 3 then Advance(g.rng) else g.rng;
    var next := NextSentence(g.shuffled, g.sentenceIndex, s);
    var appended := SentenceWords(g.words, next.0, numbersEnabled, next.3, wordCount);
    GenState(appended.0, g.bossWordIndices, next.1, next.2, appended.1)
  }

  /** One pass of the `while (words.length < wordCount)` loop. */
  function Step(g: GenState, numbersEnabled: bool, wordCount: int): (r: GenState)
    requires Shape(g) && |g.words| < wordCount
    ensures Shape(r) && |g.words| < |r.words| <= wordCount
  {
    if BossRolled(g) then BossPass(g) else SentencePass(g, numbersEnabled, wordCount)
  }

  /** The loop run to completion. */
  function Loop(g: GenState, numbersEnabled: bool, wordCount: int): (r: GenState)
    requires Shape(g)
    ensures |g.words| <= wordCount ==> |r.words| == wordCount
    ensures |g.words| >= wordCount ==> r == g
    decreases wordCount - |g.words|
  {
    if |g.words| >= wordCount then g else Loop(Step(g, numbersEnabled, wordCount), numbersEnabled, wordCount)
  }

  /** The loop's starting point: the sentence pool shuffled by a fresh generator. */
  function Start(seed: int, pool: seq<string>): (g: GenState)
    requires |pool| > 0
    ensures Shape(g) && g.words == [] && g.bossWordIndices == []
    ensures multiset(g.shuffled) == multiset(pool)
  {
    var sh := ShuffleSpec(pool, SeedState(seed));
    GenState([], [], sh.0, 0, sh.1)
  }

  /** `words.slice(0, end)`. */
  function SliceTo<T>(s: seq<T>, end: int): seq<T>
  {
    if end < 0 then (if |s| + end <= 0 then [] else s[..|s| + end])
    else if end < |s| then s[..end] else s
  }

  /** `generateText(seed, theme, difficulty, wordCount)` where `sentences` is the
      theme's sentence pool. */
  function GenText(seed: int, sentences: seq<string>, difficulty: DifficultyConfig, wordCount: int): (r: GeneratedText)
    requires |sentences| > 0
    ensures wordCount >= 0 ==> |r.words| == wordCount
    ensures wordCount < 0 ==> r.words == [] && r.bossWordIndices == []
  {
    var g := Loop(Start(seed, sentences), difficulty.numbersEnabled, wordCount);
    GeneratedText(SliceTo(g.words, wordCount), g.bossWordIndices)
  }

  // ---------------------------------------------------------------------------
  // What every generated text satisfies

  /** A word of one of the sentences of `pool`. */
  ghost predicate IsPoolWord(pool: seq<string>, w: string)
  {
    exists s :: s in pool && w in Split(s)
  }

  /** Boss indices are increasing, at least 4, inside the words and name boss
      words; every other word is a number (only when numbers are enabled) or a
      word of one of the pool's sentences. */
  ghost predicate WordsValid(words: seq<string>, boss: seq<int>, pool: seq<string>, numbersEnabled: bool)
  {
    && (forall k :: 0 <= k < |boss| ==> 4 <= boss[k] < |words| && words[boss[k]] in BOSS_WORDS)
    && (forall k1, k2 :: 0 <= k1 < k2 < |boss| ==> boss[k1] < boss[k2])
    && (forall i :: 0 <= i < |words| && i !in boss ==>
          (numbersEnabled && IsNumeral(words[i])) || IsPoolWord(pool, words[i]))
  }

  ghost predicate GenInv(g: GenState, pool: seq<string>, numbersEnabled: bool)
  {
    && Shape(g)
    && multiset(g.shuffled) == multiset(pool)
    && WordsValid(g.words, g.bossWordIndices, pool, numbersEnabled)
  }

  /** Words appended after a valid prefix that are all pool words or numbers keep it valid. */
  lemma ExtendValid(words: seq<string>, r: seq<string>, boss: seq<int>, pool: seq<string>, ne: bool)
    requires WordsValid(words, boss, pool, ne) && |words| <= |r| && r[..|words|] == words
    requires forall i :: |words| <= i < |r| ==> (ne && IsNumeral(r[i])) || IsPoolWord(pool, r[i])
    ensures WordsValid(r, boss, pool, ne)
  {
    forall i | 0 <= i < |words|
      ensures r[i] == words[i]
    {
      assert r[i] == r[..|words|][i];
    }
  }

  lemma BossPassValid(g: GenState, pool: seq<string>, ne: bool)
    requires GenInv(g, pool, ne) && |g.words| > 3
    ensures GenInv(BossPass(g), pool, ne)
  {
    var r := BossPass(g);
    forall i | 0 <= i < |g.words|
      ensures r.words[i] == g.words[i]
    {
      assert r.words[i] == r.words[..|g.words|][i];
    }
  }

  lemma SentenceWordsValid(words: seq<string>, boss: seq<int>, sentence: string, pool: seq<string>,
                           ne: bool, st: bv32, wordCount: int)
    requires WordsValid(words, boss, pool, ne) && sentence in pool && |words| < wordCount
    ensures WordsValid(SentenceWords(words, sentence, ne, st, wordCount).0, boss, pool, ne)
  {
    var tokens := Split(sentence);
    assert forall t :: t in tokens ==> IsPoolWord(pool, t);
    if ne && Below(Output(Advance(st)), 6) {
      var st' := Advance(Advance(st));
      var w := words + [DecStr(ScaleInt(Output(st'), 10, 9999))];
      assert IsNumeral(w[|words|]);
      ExtendValid(words, w, boss, pool, ne);
      ExtendValid(w, Fill(w, tokens, wordCount), boss, pool, ne);
    } else {
      ExtendValid(words, Fill(words, tokens, wordCount), boss, pool, ne);
    }
  }

  lemma SentencePassValid(g: GenState, pool: seq<string>, ne: bool, wordCount: int)
    requires GenInv(g, pool, ne) && |g.words| < wordCount
    ensures GenInv(SentencePass(g, ne, wordCount), pool, ne)
  {
    var s := if |g.words| > 3 then Advance(g.rng) else g.rng;
    var next := NextSentence(g.shuffled, g.sentenceIndex, s);
    assert next.0 in pool by {
      assert next.0 in multiset(next.1);
    }
    SentenceWordsValid(g.words, g.bossWordIndices, next.0, pool, ne, next.3, wordCount);
  }

  /** Every pass keeps the shape, the pool's sentences and the validity of the words. */
  lemma StepValid(g: GenState, pool: seq<string>, ne: bool, wordCount: int)
    requires GenInv(g, pool, ne) && |g.words| < wordCount
    ensures GenInv(Step(g, ne, wordCount), pool, ne)
  {
    if BossRolled(g) {
      BossPassValid(g, pool, ne);
    } else {
      SentencePassValid(g, pool, ne, wordCount);
    }
  }

  lemma {:induction false} LoopValid(g: GenState, pool: seq<string>, ne: bool, wordCount: int)
    requires GenInv(g, pool, ne)
    ensures GenInv(Loop(g, ne, wordCount), pool, ne)
    decreases wordCount - |g.words|
  {
    if |g.words| < wordCount {
      StepValid(g, pool, ne, wordCount);
      LoopValid(Step(g, ne, wordCount), pool, ne, wordCount);
    }
  }

  /** The properties of every generated text: exactly `wordCount` words; boss
      indices increasing, in [4, wordCount) and naming boss words; numbers only
      when enabled; every other word a word of the pool's sentences. */
  lemma GenTextValid(seed: int, sentences: seq<string>, difficulty: DifficultyConfig, wordCount: int)
    requires |sentences| > 0
    ensures var r := GenText(seed, sentences, difficulty, wordCount);
      && |r.words| == (if wordCount < 0 then 0 else wordCount)
      && (forall k :: 0 <= k < |r.bossWordIndices| ==> 4 <= r.bossWordIndices[k] < wordCount)
      && WordsValid(r.words, r.bossWordIndices, sentences, difficulty.numbersEnabled)
  {
    var ne := difficulty.numbersEnabled;
    var g0 := Start(seed, sentences);
    LoopValid(g0, sentences, ne, wordCount);
    var g := Loop(g0, ne, wordCount);
    if wordCount >= 0 {
      assert SliceTo(g.words, wordCount) == g.words;
    }
  }

  /** The text depends on the difficulty only through `numbersEnabled`. */
  lemma GenTextIgnoresBiases(seed: int, sentences: seq<string>, d1: DifficultyConfig, d2: DifficultyConfig, wordCount: int)
    requires |sentences| > 0 && d1.numbersEnabled == d2.numbersEnabled
    ensures GenText(seed, sentences, d1, wordCount) == GenText(seed, sentences, d2, wordCount)
  {
  }

  // ---------------------------------------------------------------------------
  // generateText as the source runs it

  method GenerateText(seed: int, sentences: seq<string>, difficulty: DifficultyConfig, wordCount: int)
    returns (r: GeneratedText)
    requires |sentences| > 0
    ensures r == GenText(seed, sentences, difficulty, wordCount)
  {
    var rng := new SeededRNG(seed);
    var shuffled := new string[|sentences|](i requires 0 <= i < |sentences| => sentences[i]);
    assert shuffled[..] == sentences;
    var _ := rng.Shuffle(shuffled);
    var words: seq<string> := [];
    var bossWordIndices: seq<int> := [];
    var sentenceIndex := 0;
    ghost var final := Loop(Start(seed, sentences), difficulty.numbersEnabled, wordCount);

    while |words| < wordCount
      invariant fresh(rng) && fresh(shuffled)
      invariant shuffled.Length > 0 && 0 <= sentenceIndex <= shuffled.Length
      invariant Loop(GenState(words, bossWordIndices, shuffled[..], sentenceIndex, rng.state),
                     difficulty.numbersEnabled, wordCount) == final
      decreases wordCount - |words|
    {
      words, bossWordIndices, sentenceIndex := GeneratePass(words, bossWordIndices, shuffled, sentenceIndex,
                                                            difficulty.numbersEnabled, wordCount, rng);
    }
    r := GeneratedText(SliceTo(words, wordCount), bossWordIndices);
  }

  /** One pass of the loop: a boss word when the roll succeeds (then `continue`),
      otherwise the next sentence. */
  method GeneratePass(words: seq<string>, bossWordIndices: seq<int>, shuffled: array<string>, sentenceIndex: int,
                      numbersEnabled: bool, wordCount: int, rng: SeededRNG)
    returns (words': seq<string>, bossWordIndices': seq<int>, sentenceIndex': int)
    requires shuffled.Length > 0 && 0 <= sentenceIndex <= shuffled.Length && |words| < wordCount
    modifies shuffled, rng
    ensures 0 <= sentenceIndex' <= shuffled.Length
    ensures GenState(words', bossWordIndices', shuffled[..], sentenceIndex', rng.state)
         == Step(GenState(words, bossWordIndices, old(shuffled[..]), sentenceIndex, old(rng.state)), numbersEnabled, wordCount)
  {
    if |words| > 3 {
      var u := rng.Next();
      if Below(u, 4) {
        var bossWord := rng.Pick(BOSS_WORDS);
        bossWordIndices' := bossWordIndices + [|words|];
        words' := words + [bossWord];
        sentenceIndex' := sentenceIndex;
        return;
      }
    }
    var sentence;
    sentence, sentenceIndex' := TakeSentence(shuffled, sentenceIndex, rng);
    words' := AppendSentence(words, sentence, numbersEnabled, wordCount, rng);
    bossWordIndices' := bossWordIndices;
  }

  /** The next sentence of the loop, reshuffling the order in place when it is used up. */
  method TakeSentence(shuffled: array<string>, sentenceIndex: int, rng: SeededRNG)
    returns (sentence: string, nextIndex: int)
    requires shuffled.Length > 0 && 0 <= sentenceIndex <= shuffled.Length
    modifies shuffled, rng
    ensures (sentence, shuffled[..], nextIndex, rng.state)
         == NextSentence(old(shuffled[..]), sentenceIndex, old(rng.state))
  {
    nextIndex := sentenceIndex;
    if nextIndex >= shuffled.Length {
      var _ := rng.Shuffle(shuffled);
      nextIndex := 0;
    }
    sentence := shuffled[nextIndex];
    nextIndex := nextIndex + 1;
  }

  /** A number between sentences when the roll succeeds, then the sentence's
      words, each pushed only while fewer than `wordCount` words are there. */
  method AppendSentence(words: seq<string>, sentence: string, numbersEnabled: bool, wordCount: int, rng: SeededRNG)
    returns (r: seq<string>)
    requires |words| < wordCount
    modifies rng
    ensures (r, rng.state) == SentenceWords(words, sentence, numbersEnabled, old(rng.state), wordCount)
  {
    r := words;
    if numbersEnabled {
      var u := rng.Next();
      if Below(u, 6) {
        var num := rng.NextInt(10, 9999);
        r := r + [DecStr(num)];
        if |r| >= wordCount {
          return;
        }
      }
    }
    r := PushWords(r, Split(sentence), wordCount);
  }

  /** The `for (const w of sentenceWords)` loop: push each word while fewer than
      `wordCount` words are there. */
  method PushWords(words: seq<string>, sentenceWords: seq<string>, wordCount: int) returns (r: seq<string>)
    ensures r == Fill(words, sentenceWords, wordCount)
  {
    r := words;
    var k := 0;
    while k < |sentenceWords|
      invariant 0 <= k <= |sentenceWords|
      invariant r == words + sentenceWords[..k]
      invariant k == 0 || |r| <= wordCount
    {
      if |r| >= wordCount {
        break;
      }
      assert sentenceWords[..k + 1] == sentenceWords[..k] + [sentenceWords[k]];
      r := r + [sentenceWords[k]];
      k := k + 1;
    }
    assert r == Fill(words, sentenceWords, wordCount);
  }
}
