/** The persistent store (src/utils/storage.ts): one blob under one key, read and
    merged over the defaults by every operation, changed, and written back whole. */
module Storage {
  import opened Types
  import TextGen

  /** The number of recent runs the store keeps. */
  const MAX_RUNS: nat := 20

  const DEFAULT_DATA := StoredData(map[], [], DEFAULT_SETTINGS, map[], "", 0, 0, None)

  /** The top-level fields a parsed blob may carry, each present or absent. */
  datatype Fields = Fields(
    bestScores: Option<map<string, int>>,
    runs: Option<seq<GameRun>>,
    settings: Option<UserSettings>,
    dailyChallengeHistory: Option<map<string, DailyChallengeData>>,
    lastDailyChallengeDate: Option<string>,
    streakCount: Option<int>,
    bestDailyScore: Option<int>,
    ghostRun: Option<Option<GameRun>>)

  const NO_FIELDS := Fields(None, None, None, None, None, None, None, None)

  /** The blob under the storage key: missing or empty, text that does not parse,
      or the fields it parses to. */
  datatype Blob = Missing | Corrupt | Parsed(fields: Fields)

  function Or<T>(o: Option<T>, default: T): T
  {
    if o.Some? then o.value else default
  }

  /** `loadData`: the defaults, with every field the blob carries laid over them. */
  function LoadData(b: Blob): (d: StoredData)
    ensures !b.Parsed? ==> d == DEFAULT_DATA
  {
    match b
    case Missing => DEFAULT_DATA
    case Corrupt => DEFAULT_DATA
    case Parsed(f) =>
      StoredData(
        Or(f.bestScores, DEFAULT_DATA.bestScores),
        Or(f.runs, DEFAULT_DATA.runs),
        Or(f.settings, DEFAULT_DATA.settings),
        Or(f.dailyChallengeHistory, DEFAULT_DATA.dailyChallengeHistory),
        Or(f.lastDailyChallengeDate, DEFAULT_DATA.lastDailyChallengeDate),
        Or(f.streakCount, DEFAULT_DATA.streakCount),
        Or(f.bestDailyScore, DEFAULT_DATA.bestDailyScore),
        Or(f.ghostRun, DEFAULT_DATA.ghostRun))
  }

  /** `saveData`: the blob holding every field of `d`. */
  function Encode(d: StoredData): (b: Blob)
    ensures b.Parsed?
  {
    Parsed(Fields(Some(d.bestScores), Some(d.runs), Some(d.settings), Some(d.dailyChallengeHistory),
                  Some(d.lastDailyChallengeDate), Some(d.streakCount), Some(d.bestDailyScore), Some(d.ghostRun)))
  }

  /** What is saved loads back unchanged. */
  lemma LoadEncode(d: StoredData)
    ensures LoadData(Encode(d)) == d
  {
  }

  /** A parsed blob that carries no field loads as the defaults; each field the
      blob carries overrides that field, and each field it lacks keeps its default. */
  lemma LoadFieldByField(f: Fields)
    ensures LoadData(Parsed(NO_FIELDS)) == DEFAULT_DATA
    ensures var d := LoadData(Parsed(f));
      && (f.bestScores.Some? ==> d.bestScores == f.bestScores.value)
      && (f.bestScores.None? ==> d.bestScores == map[])
      && (f.runs.Some? ==> d.runs == f.runs.value)
      && (f.runs.None? ==> d.runs == [])
      && (f.settings.Some? ==> d.settings == f.settings.value)
      && (f.settings.None? ==> d.settings == DEFAULT_SETTINGS)
      && (f.dailyChallengeHistory.Some? ==> d.dailyChallengeHistory == f.dailyChallengeHistory.value)
      && (f.dailyChallengeHistory.None? ==> d.dailyChallengeHistory == map[])
      && (f.lastDailyChallengeDate.Some? ==> d.lastDailyChallengeDate == f.lastDailyChallengeDate.value)
      && (f.lastDailyChallengeDate.None? ==> d.lastDailyChallengeDate == "")
      && (f.streakCount.Some? ==> d.streakCount == f.streakCount.value)
      && (f.streakCount.None? ==> d.streakCount == 0)
      && (f.bestDailyScore.Some? ==> d.bestDailyScore == f.bestDailyScore.value)
      && (f.bestDailyScore.None? ==> d.bestDailyScore == 0)
      && (f.ghostRun.Some? ==> d.ghostRun == f.ghostRun.value)
      && (f.ghostRun.None? ==> d.ghostRun == None)
  {
  }

  // ---------------------------------------------------------------------------
  // Runs and best scores

  /** The best-score key, such as "classic-60". */
  function BestKey(mode: string, timer: nat): string
  {
    mode + "-" + TextGen.DecStr(timer)
  }

  /** `getBestScore`: the stored score, or 0 when there is none. */
  function BestScore(d: StoredData, key: string): (r: int)
    ensures key !in d.bestScores ==> r == 0
  {
    if key in d.bestScores then d.bestScores[key] else 0
  }

  /** The run list after `unshift` and the cut back to twenty. */
  function PushRun(runs: seq<GameRun>, run: GameRun): (r: seq<GameRun>)
    ensures |r| == Min(|runs| + 1, MAX_RUNS) && r[0] == run
    ensures r[1..] == runs[..|r| - 1]
  {
    var p := [run] + runs;
    if |p| > MAX_RUNS then p[..MAX_RUNS] else p
  }

  /** The data `saveRun` leaves. */
  function AfterSaveRun(d: StoredData, run: GameRun): (r: StoredData)
    ensures r.ghostRun == Some(run) && 0 < |r.runs| <= MAX_RUNS && r.runs[0] == run
    ensures r.settings == d.settings && r.dailyChallengeHistory == d.dailyChallengeHistory
    ensures r.lastDailyChallengeDate == d.lastDailyChallengeDate
    ensures r.streakCount == d.streakCount && r.bestDailyScore == d.bestDailyScore
  {
    var key := BestKey(ModeName(run.config.mode), run.config.timer);
    var best := if key !in d.bestScores || d.bestScores[key] == 0 || run.stats.wpm > d.bestScores[key]
                then d.bestScores[key := run.stats.wpm] else d.bestScores;
    d.(runs := PushRun(d.runs, run), bestScores := best, ghostRun := Some(run))
  }

  /** saveRun puts the run first and keeps at most twenty, the rest being the
      previous list's head in order; the ghost is the run just saved; the best
      score under the run's key becomes the run's wpm when there was none, it was
      0, or the run beat it, and no other key changes; nothing else changes. */
  lemma SaveRunEffect(d: StoredData, run: GameRun)
    ensures var r := AfterSaveRun(d, run);
      var key := BestKey(ModeName(run.config.mode), run.config.timer);
      && r.runs[0] == run && |r.runs| <= MAX_RUNS && r.runs[1..] == d.runs[..|r.runs| - 1]
      && r.ghostRun == Some(run)
      && BestScore(r, key) == (if BestScore(d, key) == 0 || run.stats.wpm > BestScore(d, key)
                               then run.stats.wpm else BestScore(d, key))
      && r.bestScores.Keys == d.bestScores.Keys + {key}
      && (forall k :: k in d.bestScores && k != key ==> r.bestScores[k] == d.bestScores[k])
      && r.settings == d.settings && r.dailyChallengeHistory == d.dailyChallengeHistory
      && r.streakCount == d.streakCount && r.bestDailyScore == d.bestDailyScore
  {
  }

  /** With non-negative scores, the best score under a key is the maximum of
      what it was and the new run's wpm. */
  lemma BestScoreIsMax(d: StoredData, run: GameRun)
    requires run.stats.wpm >= 0
    requires BestScore(d, BestKey(ModeName(run.config.mode), run.config.timer)) >= 0
    ensures var key := BestKey(ModeName(run.config.mode), run.config.timer);
      BestScore(AfterSaveRun(d, run), key) == Max(BestScore(d, key), run.stats.wpm)
  {
  }

  function Reverse<T>(s: seq<T>): (r: seq<T>)
    ensures |r| == |s|
    decreases |s|
  {
    if s == [] then [] else Reverse(s[1..]) + [s[0]]
  }

  /** The run list after saving each run of `xs` in turn. */
  function PushRuns(runs: seq<GameRun>, xs: seq<GameRun>): seq<GameRun>
    decreases |xs|
  {
    if xs == [] then runs else PushRun(PushRuns(runs, xs[..|xs| - 1]), xs[|xs| - 1])
  }

  /** After a series of saves the list holds the twenty most recent runs, newest
      first, followed by what fits of the old list. */
  lemma {:induction false} PushRunsNewestFirst(runs: seq<GameRun>, xs: seq<GameRun>)
    requires |runs| <= MAX_RUNS
    ensures PushRuns(runs, xs) == (Reverse(xs) + runs)[..Min(|xs| + |runs|, MAX_RUNS)]
    decreases |xs|
  {
    if xs != [] {
      var init, x := xs[..|xs| - 1], xs[|xs| - 1];
      PushRunsNewestFirst(runs, init);
      assert Reverse(xs) == [x] + Reverse(init) by {
        ReverseSnoc(init, x);
        assert init + [x] == xs;
      }
      var all := Reverse(init) + runs;
      var n := Min(|init| + |runs|, MAX_RUNS);
      assert ([x] + all[..n])[..Min(n + 1, MAX_RUNS)] == ([x] + all)[..Min(|xs| + |runs|, MAX_RUNS)];
      assert Reverse(xs) + runs == [x] + all;
    }
  }

  lemma {:induction false} ReverseSnoc<T>(s: seq<T>, x: T)
    ensures Reverse(s + [x]) == [x] + Reverse(s)
    decreases |s|
  {
    if s != [] {
      assert (s + [x])[1..] == s[1..] + [x];
      ReverseSnoc(s[1..], x);
    }
  }

  // ---------------------------------------------------------------------------
  // Daily challenges

  /** `challenge.score` read as a truth value: present and not zero. */
  predicate Truthy(score: Option<int>)
  {
    score.Some? && score.value != 0
  }

  /** The data `saveDailyChallenge` leaves, `yesterday` being the date string of
      the day before the clock's day. The streak test reads the last-challenge
      date after it has been overwritten with the challenge's own date. */
  function AfterSaveDaily(d: StoredData, c: DailyChallengeData, yesterday: string): (r: StoredData)
    ensures r.dailyChallengeHistory == d.dailyChallengeHistory[c.date := c] && r.lastDailyChallengeDate == c.date
    ensures d.streakCount <= r.streakCount <= d.streakCount + 1
    ensures r.bestDailyScore >= d.bestDailyScore
    ensures !c.completed ==> r.streakCount == d.streakCount && r.bestDailyScore == d.bestDailyScore
    ensures r.runs == d.runs && r.bestScores == d.bestScores && r.ghostRun == d.ghostRun && r.settings == d.settings
  {
    var d1 := d.(dailyChallengeHistory := d.dailyChallengeHistory[c.date := c], lastDailyChallengeDate := c.date);
    if !c.completed then d1
    else
      var d2 := if d1.lastDailyChallengeDate == yesterday || d1.streakCount == 0
                then d1.(streakCount := d1.streakCount + 1) else d1;
      if Truthy(c.score) && c.score.value > d2.bestDailyScore then d2.(bestDailyScore := c.score.value) else d2
  }

  /** The record is stored under its date and becomes the last challenge date; the
      streak grows by exactly one when the challenge is completed and its own date
      is `yesterday` or the streak was 0, and otherwise stays, so it never falls;
      the best daily score is the maximum of the old one and a completed, non-zero score. */
  lemma SaveDailyEffect(d: StoredData, c: DailyChallengeData, yesterday: string)
    ensures var r := AfterSaveDaily(d, c, yesterday);
      && r.dailyChallengeHistory == d.dailyChallengeHistory[c.date := c]
      && r.lastDailyChallengeDate == c.date
      && r.streakCount == (if c.completed && (c.date == yesterday || d.streakCount == 0)
                           then d.streakCount + 1 else d.streakCount)
      && r.streakCount >= d.streakCount
      && r.bestDailyScore == (if c.completed && Truthy(c.score) then Max(d.bestDailyScore, c.score.value)
                              else d.bestDailyScore)
      && r.runs == d.runs && r.bestScores == d.bestScores && r.ghostRun == d.ghostRun
      && r.settings == d.settings
  {
  }

  /** As written, completing today's challenge the day after completing
      yesterday's does not extend a streak of 1: the test compares today's date
      with yesterday's. */
  lemma StreakStallsOnConsecutiveDays()
    ensures var d := DEFAULT_DATA.(lastDailyChallengeDate := "2026-10-14", streakCount := 1);
      var c := DailyChallengeData("2026-10-15", GameConfig(Classic, Cyberpunk, 60, DEFAULT_DIFFICULTY, 0),
                                  true, Some(90), None, Some(Gold));
      AfterSaveDaily(d, c, "2026-10-14").streakCount == 1
  {
    var c := DailyChallengeData("2026-10-15", GameConfig(Classic, Cyberpunk, 60, DEFAULT_DIFFICULTY, 0),
                                true, Some(90), None, Some(Gold));
    assert c.date != "2026-10-14" by { assert c.date[9] != "2026-10-14"[9]; }
  }

  /** The streak rule with the test on the previous last-challenge date: a
      challenge completed the day after the last one extends the streak. */
  function IntendedSaveDaily(d: StoredData, c: DailyChallengeData, yesterday: string): (r: StoredData)
    ensures c.completed && d.lastDailyChallengeDate == yesterday ==> r.streakCount == d.streakCount + 1
    ensures r.streakCount >= d.streakCount
    ensures r.lastDailyChallengeDate == c.date && r.dailyChallengeHistory == d.dailyChallengeHistory[c.date := c]
  {
    var continues := d.lastDailyChallengeDate == yesterday || d.streakCount == 0;
    var d1 := d.(dailyChallengeHistory := d.dailyChallengeHistory[c.date := c], lastDailyChallengeDate := c.date);
    if !c.completed then d1
    else
      var d2 := if continues then d1.(streakCount := d1.streakCount + 1) else d1;
      if Truthy(c.score) && c.score.value > d2.bestDailyScore then d2.(bestDailyScore := c.score.value) else d2
  }

  // ---------------------------------------------------------------------------
  // The store

  class Store {
    /** The blob under the storage key. */
    var blob: Blob

    constructor (b: Blob)
      ensures blob == b
    {
      blob := b;
    }

    /** `saveRun`. */
    method SaveRun(run: GameRun)
      modifies this
      ensures LoadData(blob) == AfterSaveRun(LoadData(old(blob)), run)
      ensures blob == Encode(LoadData(blob))
    {
      var data := LoadData(blob);
      data := data.(runs := [run] + data.runs);
      if |data.runs| > MAX_RUNS {
        data := data.(runs := data.runs[..MAX_RUNS]);
      }
      var key := BestKey(ModeName(run.config.mode), run.config.timer);
      if key !in data.bestScores || data.bestScores[key] == 0 || run.stats.wpm > data.bestScores[key] {
        data := data.(bestScores := data.bestScores[key := run.stats.wpm]);
      }
      data := data.(ghostRun := Some(run));
      blob := Encode(data);
    }

    /** `saveSettings`. */
    method SaveSettings(settings: UserSettings)
      modifies this
      ensures LoadData(blob) == LoadData(old(blob)).(settings := settings)
      ensures blob == Encode(LoadData(blob))
    {
      var data := LoadData(blob);
      data := data.(settings := settings);
      blob := Encode(data);
    }

    /** `saveDailyChallenge`, with the day before the clock's day passed in. */
    method SaveDailyChallenge(challenge: DailyChallengeData, yesterday: string)
      modifies this
      ensures LoadData(blob) == AfterSaveDaily(LoadData(old(blob)), challenge, yesterday)
      ensures blob == Encode(LoadData(blob))
    {
      var data := LoadData(blob);
      data := data.(dailyChallengeHistory := data.dailyChallengeHistory[challenge.date := challenge]);
      data := data.(lastDailyChallengeDate := challenge.date);
      if challenge.completed {
        if data.lastDailyChallengeDate == yesterday || data.streakCount == 0 {
          data := data.(streakCount := data.streakCount + 1);
        }
        if Truthy(challenge.score) && challenge.score.value > data.bestDailyScore {
          data := data.(bestDailyScore := challenge.score.value);
        }
      }
      blob := Encode(data);
    }

    /** `getSettings`: the stored settings, or the defaults. */
    function GetSettings(): (r: UserSettings)
      reads this
      ensures !blob.Parsed? || blob.fields.settings.None? ==> r == DEFAULT_SETTINGS
      ensures blob.Parsed? && blob.fields.settings.Some? ==> r == blob.fields.settings.value
    {
      LoadData(blob).settings
    }

    /** `getBestScore`: the score stored under "mode-timer", or 0. */
    function GetBestScore(mode: string, timer: nat): (r: int)
      reads this
      ensures !blob.Parsed? ==> r == 0
      ensures BestKey(mode, timer) !in LoadData(blob).bestScores ==> r == 0
      ensures BestKey(mode, timer) in LoadData(blob).bestScores ==> r == LoadData(blob).bestScores[BestKey(mode, timer)]
    {
      BestScore(LoadData(blob), BestKey(mode, timer))
    }

    /** `getRuns`: the stored runs, or none. */
    function GetRuns(): (r: seq<GameRun>)
      reads this
      ensures !blob.Parsed? || blob.fields.runs.None? ==> r == []
      ensures blob.Parsed? && blob.fields.runs.Some? ==> r == blob.fields.runs.value
    {
      LoadData(blob).runs
    }

    /** `getGhostRun`: the stored ghost, or none. */
    function GetGhostRun(): (r: Option<GameRun>)
      reads this
      ensures !blob.Parsed? || blob.fields.ghostRun.None? ==> r == None
      ensures blob.Parsed? && blob.fields.ghostRun.Some? ==> r == blob.fields.ghostRun.value
    {
      LoadData(blob).ghostRun
    }

    /** `getDailyChallenge`: the record stored under the date, if any. */
    function GetDailyChallenge(date: string): (r: Option<DailyChallengeData>)
      reads this
      ensures r.Some? <==> date in LoadData(blob).dailyChallengeHistory
      ensures r.Some? ==> r.value == LoadData(blob).dailyChallengeHistory[date]
    {
      var h := LoadData(blob).dailyChallengeHistory;
      if date in h then Some(h[date]) else None
    }

    /** `getStreak`: the stored streak, or 0. */
    function GetStreak(): (r: int)
      reads this
      ensures !blob.Parsed? || blob.fields.streakCount.None? ==> r == 0
      ensures blob.Parsed? && blob.fields.streakCount.Some? ==> r == blob.fields.streakCount.value
    {
      LoadData(blob).streakCount
    }

    /** `getBestDailyScore`: the stored best daily score, or 0. */
    function GetBestDailyScore(): (r: int)
      reads this
      ensures !blob.Parsed? || blob.fields.bestDailyScore.None? ==> r == 0
      ensures blob.Parsed? && blob.fields.bestDailyScore.Some? ==> r == blob.fields.bestDailyScore.value
    {
      LoadData(blob).bestDailyScore
    }
  }

  /** What the getters read back after each save: the saved settings, the run
      just saved as ghost and newest run, and the daily record under its date. */
  method SavesReadBack(s: Store, run: GameRun, settings: UserSettings, c: DailyChallengeData, yesterday: string)
    modifies s
    ensures s.GetSettings() == settings
    ensures s.GetGhostRun() == Some(run) && |s.GetRuns()| > 0 && s.GetRuns()[0] == run
    ensures s.GetDailyChallenge(c.date) == Some(c)
    ensures s.GetStreak() >= old(s.GetStreak())
  {
    s.SaveRun(run);
    s.SaveSettings(settings);
    s.SaveDailyChallenge(c, yesterday);
  }
}
