/** The daily challenge (src/utils/dailyChallenge.ts): a configuration drawn from a
    generator seeded by the date string, and the rank tiers a score falls into. */
module Daily {
  import opened Types
  import opened Rng
  import Storage

  const MODES: seq<GameMode> := [Classic, Rhythm, Glitch]
  const THEMES: seq<Theme> := [Cyberpunk, SciFi, Fantasy, Philosophy]
  const TIMERS: seq<nat> := [30, 60, 120]

  /** `pick` on a list of n entries: the index the draw u selects. */
  function PickIndex(u: bv32, n: nat): (i: nat)
    requires n > 0
    ensures i < n
  {
    ScaleInt(u, 0, n)
  }

  /** The difficulty four consecutive draws give: punctuation in [0.15, 0.5),
      numbers on when the draw exceeds 0.6, rare letters in [0.1, 0.4) and word
      length in [0.3, 0.7). */
  function DailyDifficulty(u4: bv32, u5: bv32, u6: bv32, u7: bv32): (d: DifficultyConfig)
    ensures 0.15 <= d.punctuationLevel < 0.5
    ensures d.numbersEnabled <==> Fraction(u5) > 0.6
    ensures 0.1 <= d.rareLetterBias < 0.4
    ensures 0.3 <= d.wordLengthBias < 0.7
  {
    DEFAULT_DIFFICULTY.(
      punctuationLevel := 0.15 + Fraction(u4) * 0.35,
      numbersEnabled := Fraction(u5) > 0.6,
      rareLetterBias := 0.1 + Fraction(u6) * 0.3,
      wordLengthBias := 0.3 + Fraction(u7) * 0.4)
  }

  /** The configuration seven draws from a generator seeded with `seed` give:
      mode, theme and timer picked in that order, then the four difficulty axes. */
  function DailyConfig(seed: int): (c: GameConfig)
    ensures c.mode in MODES && c.theme in THEMES && c.timer in TIMERS && c.seed == seed
  {
    var s1 := Advance(SeedState(seed));
    var s2 := Advance(s1);
    var s3 := Advance(s2);
    var s4 := Advance(s3);
    var s5 := Advance(s4);
    var s6 := Advance(s5);
    var s7 := Advance(s6);
    GameConfig(
      MODES[PickIndex(Output(s1), |MODES|)],
      THEMES[PickIndex(Output(s2), |THEMES|)],
      TIMERS[PickIndex(Output(s3), |TIMERS|)],
      DailyDifficulty(Output(s4), Output(s5), Output(s6), Output(s7)),
      seed)
  }

  /** The challenge for `date` when none is stored: not completed, no score,
      and the configuration drawn from the date's hash. */
  function FreshChallenge(date: string): (r: DailyChallengeData)
    ensures r.date == date && !r.completed && r.score.None? && r.stats.None? && r.rankTier.None?
    ensures r.config.seed == Abs(HashOf(date)) && r.config.timer in TIMERS
  {
    DailyChallengeData(date, DailyConfig(Abs(HashOf(date))), false, None, None, None)
  }

  /** `generateDailyChallenge`: the record stored for the date if there is one,
      otherwise the fresh challenge; an empty date stands for `today`. */
  method GenerateDailyChallenge(store: Storage.Store, date: string, today: string) returns (r: DailyChallengeData)
    ensures var d := if date == "" then today else date;
      var history := Storage.LoadData(store.blob).dailyChallengeHistory;
      && (d in history ==> r == history[d])
      && (d !in history ==> r == FreshChallenge(d))
  {
    var d := if date == "" then today else date;
    var existing := store.GetDailyChallenge(d);
    if existing.Some? {
      return existing.value;
    }
    var seed := DateSeed(d);
    var rng := new SeededRNG(seed);
    var config := DrawConfig(rng, seed);
    r := DailyChallengeData(d, config, false, None, None, None);
  }

  /** The draws of `generateDailyChallenge` from a generator fresh from `seed`. */
  method DrawConfig(rng: SeededRNG, seed: int) returns (c: GameConfig)
    requires rng.state == SeedState(seed)
    modifies rng
    ensures c == DailyConfig(seed)
    ensures rng.state == AdvanceN(SeedState(seed), 7)
  {
    var mode := rng.Pick(MODES);
    var theme := rng.Pick(THEMES);
    var timer := rng.Pick(TIMERS);
    var difficulty := DrawDifficulty(rng);
    c := GameConfig(mode, theme, timer, difficulty, seed);
  }

  /** The four draws that set the difficulty axes, in the source's order
      (punctuation, numbers, rare letters, word length). */
  method DrawDifficulty(rng: SeededRNG) returns (d: DifficultyConfig)
    modifies rng
    ensures var s4 := Advance(old(rng.state));
      var s5 := Advance(s4);
      var s6 := Advance(s5);
      d == DailyDifficulty(Output(s4), Output(s5), Output(s6), Output(Advance(s6)))
    ensures rng.state == AdvanceN(old(rng.state), 4)
  {
    var u4 := rng.Next();
    var u5 := rng.Next();
    var u6 := rng.Next();
    var u7 := rng.Next();
    d := DailyDifficulty(u4, u5, u6, u7);
  }

  /** Date strings whose hashes agree give the same fresh challenge, apart from the
      date it is filed under. */
  lemma SameHashSameChallenge(a: string, b: string)
    requires HashOf(a) == HashOf(b)
    ensures FreshChallenge(a).config == FreshChallenge(b).config
  {
  }

  // ---------------------------------------------------------------------------
  // Rank tiers

  /** `getRankTier`. */
  function RankTierOf(wpm: int): (r: RankTier)
    ensures r == Neon <==> wpm >= 120
    ensures r == Gold <==> 80 <= wpm < 120
    ensures r == Silver <==> 50 <= wpm < 80
    ensures r == Bronze <==> wpm < 50
  {
    if wpm >= 120 then Neon
    else if wpm >= 80 then Gold
    else if wpm >= 50 then Silver
    else Bronze
  }

  function TierLevel(t: RankTier): nat
  {
    match t
    case Bronze => 0
    case Silver => 1
    case Gold => 2
    case Neon => 3
  }

  /** A higher wpm never earns a lower tier. */
  lemma RankTierMonotone(a: int, b: int)
    requires a <= b
    ensures TierLevel(RankTierOf(a)) <= TierLevel(RankTierOf(b))
  {
  }

  /** The name a tier has in the records and the UI. */
  function TierName(t: RankTier): string
  {
    match t
    case Bronze => "bronze"
    case Silver => "silver"
    case Gold => "gold"
    case Neon => "neon"
  }

  const BRONZE_COLOR := "#cd7f32"

  /** `getRankColor`: the color of a tier name; any other string gets the bronze color. */
  function RankColor(tier: string): (c: string)
    ensures tier == "neon" <==> c == "#00f0ff"
    ensures tier == "gold" <==> c == "#ffe600"
    ensures tier == "silver" <==> c == "#c0c0c0"
    ensures tier != "neon" && tier != "gold" && tier != "silver" <==> c == BRONZE_COLOR
  {
    if tier == "neon" then "#00f0ff"
    else if tier == "gold" then "#ffe600"
    else if tier == "silver" then "#c0c0c0"
    else BRONZE_COLOR
  }

  /** Each tier has a color of its own. */
  lemma RankColorsDistinct(t: RankTier, u: RankTier)
    requires t != u
    ensures RankColor(TierName(t)) != RankColor(TierName(u))
  {
  }
}
