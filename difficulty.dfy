/** Adaptive difficulty (src/components/hooks/useAdaptiveDifficulty.ts): a window of
    the last ten accuracy readings, and a difficulty profile whose three continuous
    axes are nudged up when the player does very well and down when they struggle. */
module Difficulty {
  import opened Types

  /** The number of recent accuracy readings the hook keeps. */
  const WINDOW: nat := 10

  // ---------------------------------------------------------------------------
  // The window

  /** `push` then, when the window has grown past ten, `shift`. */
  function PushWindow(w: seq<real>, a: real): seq<real>
  {
    var p := w + [a];
    if |p| > WINDOW then p[1..] else p
  }

  /** The window after pushing every reading of `xs` in turn, starting from `w`. */
  function PushAll(w: seq<real>, xs: seq<real>): seq<real>
    decreases |xs|
  {
    if xs == [] then w else PushWindow(PushAll(w, xs[..|xs| - 1]), xs[|xs| - 1])
  }

  /** One push keeps the window within ten readings, ends with the new reading,
      and is a suffix of the old window followed by the new reading. */
  lemma PushWindowShape(w: seq<real>, a: real)
    requires |w| <= WINDOW
    ensures var r := PushWindow(w, a);
      && |r| == (if |w| < WINDOW then |w| + 1 else WINDOW)
      && r == (w + [a])[|w| + 1 - |r|..]
      && r[|r| - 1] == a
  {
  }

  /** Starting from an empty window, the window holds exactly the last
      min(|xs|, 10) readings, in the order they arrived. */
  lemma {:induction false} PushAllKeepsLatest(xs: seq<real>)
    ensures |PushAll([], xs)| <= WINDOW
    ensures PushAll([], xs) == xs[Max(0, |xs| - WINDOW)..]
    decreases |xs|
  {
    if xs != [] {
      var init := xs[..|xs| - 1];
      PushAllKeepsLatest(init);
      assert init[Max(0, |init| - WINDOW)..] + [xs[|xs| - 1]] == xs[Max(0, |init| - WINDOW)..];
    }
  }

  // ---------------------------------------------------------------------------
  // The average

  /** The left fold `reduce((a, b) => a + b, 0)`. */
  function Sum(w: seq<real>): real
    decreases |w|
  {
    if w == [] then 0.0 else Sum(w[..|w| - 1]) + w[|w| - 1]
  }

  function Average(w: seq<real>): real
    requires |w| > 0
  {
    Sum(w) / |w| as real
  }

  /** The sum of readings that are all at most `hi` is at most `hi` per reading,
      and likewise from below. */
  lemma {:induction false} SumBounds(w: seq<real>, lo: real, hi: real)
    requires forall i :: 0 <= i < |w| ==> lo <= w[i] <= hi
    ensures lo * |w| as real <= Sum(w) <= hi * |w| as real
    decreases |w|
  {
    if w != [] {
      SumBounds(w[..|w| - 1], lo, hi);
      var n := (|w| - 1) as real;
      assert lo * (n + 1.0) == lo * n + lo;
      assert hi * (n + 1.0) == hi * n + hi;
    }
  }

  /** The average of readings that all lie in [lo, hi] lies in [lo, hi]. */
  lemma AverageBounds(w: seq<real>, lo: real, hi: real)
    requires |w| > 0
    requires forall i :: 0 <= i < |w| ==> lo <= w[i] <= hi
    ensures lo <= Average(w) <= hi
  {
    SumBounds(w, lo, hi);
    var n := |w| as real;
    assert Sum(w) / n * n == Sum(w);
  }
  /** When every accuracy reading is a percentage, the average of the window the
      hook keeps after any non-empty series of readings is a percentage too, so
      the thresholds 95 and 80 are compared against a value in [0, 100]. */
  lemma {:induction false} WindowAverageIsPercentage(xs: seq<real>)
    requires |xs| > 0
    requires forall i :: 0 <= i < |xs| ==> 0.0 <= xs[i] <= 100.0
    ensures |PushAll([], xs)| > 0
    ensures 0.0 <= Average(PushAll([], xs)) <= 100.0
  {
    PushAllKeepsLatest(xs);
    var w := PushAll([], xs);
    var k := Max(0, |xs| - WINDOW);
    assert forall i :: 0 <= i < |w| ==> w[i] == xs[k + i];
    AverageBounds(w, 0.0, 100.0);
  }


  // ---------------------------------------------------------------------------
  // The adjustment

  function MinR(a: real, b: real): real
  {
    if a < b then a else b
  }

  function MaxR(a: real, b: real): real
  {
    if a < b then b else a
  }

  predicate RampsUp(avg: real, combo: int)
  {
    avg > 95.0 && combo > 15
  }

  predicate EasesOff(avg: real, combo: int)
  {
    !RampsUp(avg, combo) && avg < 80.0
  }

  /** The profile one update leaves: ramp up, ease off, or keep. */
  function Adjust(d: DifficultyConfig, avg: real, combo: int): (r: DifficultyConfig)
    ensures r.numbersEnabled == d.numbersEnabled
    ensures !RampsUp(avg, combo) && !EasesOff(avg, combo) ==> r == d
  {
    if RampsUp(avg, combo) then
      d.(punctuationLevel := MinR(0.6, d.punctuationLevel + 0.02),
         wordLengthBias := MinR(0.8, d.wordLengthBias + 0.02),
         rareLetterBias := MinR(0.5, d.rareLetterBias + 0.01))
    else if avg < 80.0 then
      d.(punctuationLevel := MaxR(0.05, d.punctuationLevel - 0.02),
         wordLengthBias := MaxR(0.2, d.wordLengthBias - 0.02),
         rareLetterBias := MaxR(0.05, d.rareLetterBias - 0.01))
    else d
  }

  /** The band the adjustment keeps a profile in: punctuation in [0.05, 0.6],
      word length in [0.2, 0.8], rare letters in [0.05, 0.5]. */
  predicate InBand(d: DifficultyConfig)
  {
    && 0.05 <= d.punctuationLevel <= 0.6
    && 0.2 <= d.wordLengthBias <= 0.8
    && 0.05 <= d.rareLetterBias <= 0.5
  }

  /** A profile inside the band stays inside it; ramping up never lowers an axis,
      easing off never raises one, and no axis moves by more than one step. */
  lemma AdjustInBand(d: DifficultyConfig, avg: real, combo: int)
    requires InBand(d)
    ensures var r := Adjust(d, avg, combo);
      && InBand(r)
      && (RampsUp(avg, combo) ==>
            && d.punctuationLevel <= r.punctuationLevel <= d.punctuationLevel + 0.02
            && d.wordLengthBias <= r.wordLengthBias <= d.wordLengthBias + 0.02
            && d.rareLetterBias <= r.rareLetterBias <= d.rareLetterBias + 0.01)
      && (EasesOff(avg, combo) ==>
            && d.punctuationLevel - 0.02 <= r.punctuationLevel <= d.punctuationLevel
            && d.wordLengthBias - 0.02 <= r.wordLengthBias <= d.wordLengthBias
            && d.rareLetterBias - 0.01 <= r.rareLetterBias <= d.rareLetterBias)
  {
  }

  /** The profile after `n` ramp-up updates in a row. */
  function RampUpN(d: DifficultyConfig, n: nat): DifficultyConfig
    decreases n
  {
    if n == 0 then d else Adjust(RampUpN(d, n - 1), 100.0, 16)
  }

  /** n ramp-ups in a row, from a profile in the band, raise each axis by n
      steps capped at its ceiling; so 45 of them bring every axis to its ceiling. */
  lemma {:induction false} RampUpNCapped(d: DifficultyConfig, n: nat)
    requires InBand(d)
    ensures var r := RampUpN(d, n);
      && r.punctuationLevel == MinR(0.6, d.punctuationLevel + 0.02 * n as real)
      && r.wordLengthBias == MinR(0.8, d.wordLengthBias + 0.02 * n as real)
      && r.rareLetterBias == MinR(0.5, d.rareLetterBias + 0.01 * n as real)
      && r.numbersEnabled == d.numbersEnabled
    decreases n
  {
    if n > 0 {
      RampUpNCapped(d, n - 1);
      var m := (n - 1) as real;
      assert 0.02 * n as real == 0.02 * m + 0.02 && 0.01 * n as real == 0.01 * m + 0.01;
    }
  }

  // ---------------------------------------------------------------------------
  // The hook's state

  /** The mutable profile object the hook keeps and hands out. */
  class Profile {
    var punctuationLevel: real
    var numbersEnabled: bool
    var rareLetterBias: real
    var wordLengthBias: real

    function Value(): DifficultyConfig
      reads this
    {
      DifficultyConfig(punctuationLevel, numbersEnabled, rareLetterBias, wordLengthBias)
    }

    /** `{ ...d }`: a new object with the same fields. */
    constructor (d: DifficultyConfig)
      ensures Value() == d
    {
      punctuationLevel := d.punctuationLevel;
      numbersEnabled := d.numbersEnabled;
      rareLetterBias := d.rareLetterBias;
      wordLengthBias := d.wordLengthBias;
    }
  }

  class AdaptiveDifficulty {
    /** The recent accuracy readings, oldest first. */
    var recentAccuracy: seq<real>
    /** The profile the hook updates in place; the hook never replaces it. */
    const profile: Profile

    ghost predicate Valid()
      reads this
    {
      |recentAccuracy| <= WINDOW
    }

    /** The hook starts from a copy of the base profile and an empty window. */
    constructor (base: DifficultyConfig)
      ensures Valid() && recentAccuracy == []
      ensures fresh(profile) && profile.Value() == base
    {
      recentAccuracy := [];
      profile := new Profile(base);
    }

    /** `updateDifficulty`: push the reading, drop the oldest past ten, then
        adjust the profile in place by the window's average, and return it. */
    method UpdateDifficulty(accuracy: real, combo: int) returns (d: Profile)
      requires Valid()
      modifies this, profile
      ensures Valid()
      ensures recentAccuracy == PushWindow(old(recentAccuracy), accuracy)
      ensures profile.Value() == Adjust(old(profile.Value()), Average(recentAccuracy), combo)
      ensures d == profile
    {
      recentAccuracy := recentAccuracy + [accuracy];
      if |recentAccuracy| > WINDOW {
        recentAccuracy := recentAccuracy[1..];
      }
      var avg := Average(recentAccuracy);
      d := profile;
      if avg > 95.0 && combo > 15 {
        d.punctuationLevel := MinR(0.6, d.punctuationLevel + 0.02);
        d.wordLengthBias := MinR(0.8, d.wordLengthBias + 0.02);
        d.rareLetterBias := MinR(0.5, d.rareLetterBias + 0.01);
      } else if avg < 80.0 {
        d.punctuationLevel := MaxR(0.05, d.punctuationLevel - 0.02);
        d.wordLengthBias := MaxR(0.2, d.wordLengthBias - 0.02);
        d.rareLetterBias := MaxR(0.05, d.rareLetterBias - 0.01);
      }
    }

    /** `getDifficulty`: a new object holding the profile's current values. */
    method GetDifficulty() returns (c: Profile)
      ensures fresh(c) && c.Value() == profile.Value()
    {
      c := new Profile(profile.Value());
    }
  }

  /** A caller that changes the copy `getDifficulty` hands out leaves the hook's
      profile as it was. */
  method CopyIsIndependent(h: AdaptiveDifficulty, level: real) returns (c: Profile)
    ensures fresh(c) && c.punctuationLevel == level
    ensures h.profile.Value() == old(h.profile.Value())
  {
    c := h.GetDifficulty();
    c.punctuationLevel := level;
  }
}
