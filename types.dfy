/** The records shared by the engine, the generators and the store (src/types.ts). */
module Types {

  datatype Option<T> = None | Some(value: T)

  datatype GameMode = Classic | Rhythm | Glitch
  datatype Theme = Cyberpunk | SciFi | Fantasy | Philosophy
  datatype RankTier = Bronze | Silver | Gold | Neon
  datatype CaretStyle = Line | Block | Underline

  /** The name a mode has in stored keys such as "classic-60". */
  function ModeName(m: GameMode): string
  {
    match m
    case Classic => "classic"
    case Rhythm => "rhythm"
    case Glitch => "glitch"
  }

  /** The continuous axes are reals in [0, 1]; the source keeps them as doubles. */
  datatype DifficultyConfig = DifficultyConfig(
    punctuationLevel: real,
    numbersEnabled: bool,
    rareLetterBias: real,
    wordLengthBias: real)

  const DEFAULT_DIFFICULTY := DifficultyConfig(0.2, false, 0.1, 0.4)

  /** `timer` is one of 15, 30, 60, 120 seconds; `seed` is any integer (the UI uses the wall clock). */
  datatype GameConfig = GameConfig(
    mode: GameMode,
    theme: Theme,
    timer: nat,
    difficulty: DifficultyConfig,
    seed: int)

  /** Times are integer milliseconds. */
  datatype WordResult = WordResult(
    word: string,
    typed: string,
    correct: bool,
    isBossWord: bool,
    startTime: int,
    endTime: int)

  /** `timeMs` is the elapsed run time of the snapshot, in milliseconds. */
  datatype WpmSnapshot = WpmSnapshot(timeMs: int, wpm: int, raw: int)

  datatype GameStats = GameStats(
    wpm: int,
    rawWpm: int,
    accuracy: int,
    correctChars: nat,
    incorrectChars: nat,
    totalChars: nat,
    combo: nat,
    maxCombo: nat,
    overdrive: bool,
    overdriveCount: nat,
    wpmHistory: seq<WpmSnapshot>,
    missedKeys: map<char, nat>,
    wordResults: seq<WordResult>,
    elapsedMs: int,
    bossWordsDefeated: nat)

  const INITIAL_STATS := GameStats(0, 0, 100, 0, 0, 0, 0, 0, false, 0, [], map[], [], 0, 0)

  datatype GameRun = GameRun(
    id: string,
    config: GameConfig,
    stats: GameStats,
    timestamp: int,
    isDaily: bool)

  datatype DailyChallengeData = DailyChallengeData(
    date: string,
    config: GameConfig,
    completed: bool,
    score: Option<int>,
    stats: Option<GameStats>,
    rankTier: Option<RankTier>)

  datatype UserSettings = UserSettings(
    soundEnabled: bool,
    keypressSounds: bool,
    errorSound: bool,
    ambientSound: bool,
    volume: real,
    showKeyboardHeatmap: bool,
    smoothCaret: bool,
    fontSize: int,
    caretStyle: CaretStyle)

  const DEFAULT_SETTINGS := UserSettings(true, true, true, false, 0.5, true, true, 24, Line)

  datatype StoredData = StoredData(
    bestScores: map<string, int>,
    runs: seq<GameRun>,
    settings: UserSettings,
    dailyChallengeHistory: map<string, DailyChallengeData>,
    lastDailyChallengeDate: string,
    streakCount: int,
    bestDailyScore: int,
    ghostRun: Option<GameRun>)

  // ---------------------------------------------------------------------------
  // Math.min, Math.max and Math.abs on integers

  function Min(a: int, b: int): int
  {
    if a < b then a else b
  }

  function Max(a: int, b: int): int
  {
    if a < b then b else a
  }

  function Abs(x: int): nat
  {
    if x < 0 then -x else x
  }
}
