/** The glitch transform of src/utils/textgen.ts (`glitchWord`), which the Glitch
    mode applies to the words on screen. It draws from the shared generator and is
    independent of the word-stream generator, so it has a module of its own. */
module Glitch {
  import opened Types
  import opened Rng

  /** The glyphs a glitched character may become. */
  const GLITCH_CHARS: seq<char> := [
    '\U{2593}', '\U{2591}', '\U{2592}', '\U{2588}', '\U{00A6}', '\U{00A1}', '\U{00BF}', '\U{00D7}',
    '\U{00F7}', '\U{00B1}', '\U{2260}', '\U{2248}', '\U{221E}', '\U{2211}', '\U{220F}', '\U{2202}'
  ]

  // ---------------------------------------------------------------------------
  // The glitch passes

  /** `chars[pos] = glyph`: an overwrite, or an append when `pos` is one past the
      end (only for the empty word). */
  function PutGlyph(chars: seq<char>, pos: int, glyph: char): seq<char>
    requires 0 <= pos <= |chars|
  {
    if pos < |chars| then chars[pos := glyph] else chars + [glyph]
  }

  /** The position a glitch pass overwrites, from its first draw u: in range for a
      non-empty word, and 0 (one past the end) for the empty one. */
  function GlitchPos(n: nat, u: bv32): (p: int)
    ensures 0 <= p <= n && (n > 0 ==> p < n)
  {
    ScaleInt(u, 0, n)
  }

  /** The glyph a glitch pass writes, from its second draw u. */
  function GlitchGlyph(u: bv32): char
  {
    GLITCH_CHARS[ScaleInt(u, 0, |GLITCH_CHARS|)]
  }

  /** Every glyph a glitch pass writes is one of the glitch glyphs. */
  lemma GlitchGlyphIsGlyph(u: bv32)
    ensures IsGlyph(GlitchGlyph(u))
  {
  }

  /** Membership in the glitch glyphs. It is a function value so that proofs about
      the glitch loop do not split on each of the sixteen glyphs. */
  const IsGlyph: char -> bool := c => c in GLITCH_CHARS

  /** The glitch passes over the output words `ds`, two words per pass: one for
      the position, one for the glyph. */
  function GlitchLoop(chars: seq<char>, ds: seq<bv32>): (r: seq<char>)
    ensures |chars| > 0 ==> |r| == |chars|
    decreases |ds|
  {
    if |ds| < 2 then chars
    else GlitchLoop(PutGlyph(chars, GlitchPos(|chars|, ds[0]), GlitchGlyph(ds[1])), ds[2..])
  }

  /** The number of passes: `nextInt(1, min(3, length))`, none when that is negative. */
  function Passes(word: string, u: bv32): nat
  {
    var count := ScaleInt(u, 1, Min(3, |word|));
    if count < 0 then 0 else count
  }

  /** A word of three or more letters gets one or two passes, a shorter one
      exactly one, and the empty word (where the range is reversed) at most one. */
  lemma PassesBounds(word: string, u: bv32)
    ensures |word| >= 3 ==> 1 <= Passes(word, u) <= 2
    ensures 1 <= |word| <= 2 ==> Passes(word, u) == 1
    ensures |word| == 0 ==> Passes(word, u) <= 1
  {
    assert |word| == 0 ==> ScaleInt(u, 1, Min(3, |word|)) == (U32(u) * -1) / TWO_32 + 1;
  }

  /** `glitchWord(word, rng)`: the word and the state it leaves the generator in.
      The first draw sets the number of passes, each pass takes two more. */
  function GlitchSpec(word: string, st: bv32): (r: (seq<char>, bv32))
    ensures r.1 == AdvanceN(st, 1 + 2 * Passes(word, Output(Advance(st))))
    ensures |word| > 0 ==> |r.0| == |word|
  {
    var s1 := Advance(st);
    var passes := Passes(word, Output(s1));
    (GlitchLoop(word, Draws(s1, 2 * passes)), AdvanceN(s1, 2 * passes))
  }

  /** The number of positions where two equally long strings differ. */
  function Changed(a: seq<char>, b: seq<char>): nat
    requires |a| == |b|
    decreases |a|
  {
    if a == [] then 0 else (if a[0] != b[0] then 1 else 0) + Changed(a[1..], b[1..])
  }

  lemma {:induction false} ChangedPut(w: seq<char>, s: seq<char>, p: nat, g: char)
    requires |w| == |s| && p < |s|
    ensures Changed(w, s[p := g]) <= Changed(w, s) + 1
    decreases |w|
  {
    if p > 0 {
      ChangedPut(w[1..], s[1..], p - 1, g);
      assert s[p := g][1..] == s[1..][p - 1 := g];
    } else {
      assert s[p := g][1..] == s[1..];
    }
  }

  /** Every position where `r` differs from `w` holds a glitch glyph (stated
      position by position, so that proofs unfold it one position at a time). */
  ghost predicate GlyphsOnly(w: seq<char>, r: seq<char>)
    requires |w| == |r|
    decreases |w|
  {
    w == [] || ((r[0] == w[0] || IsGlyph(r[0])) && GlyphsOnly(w[1..], r[1..]))
  }

  lemma {:induction false} GlyphsOnlySelf(w: seq<char>)
    ensures GlyphsOnly(w, w)
    decreases |w|
  {
    if w != [] {
      GlyphsOnlySelf(w[1..]);
    }
  }

  /** Overwriting one position with a glyph keeps every difference a glyph. */
  lemma {:induction false} GlyphsOnlyPut(w: seq<char>, s: seq<char>, p: nat, g: char)
    requires |w| == |s| && p < |s| && GlyphsOnly(w, s) && IsGlyph(g)
    ensures GlyphsOnly(w, s[p := g])
    decreases |w|
  {
    if p > 0 {
      GlyphsOnlyPut(w[1..], s[1..], p - 1, g);
      assert s[p := g][1..] == s[1..][p - 1 := g];
    } else {
      assert s[p := g][1..] == s[1..];
    }
  }

  /** What `GlyphsOnly` means at each position. */
  lemma {:induction false} GlyphsOnlyAt(w: seq<char>, r: seq<char>, k: nat)
    requires |w| == |r| && GlyphsOnly(w, r) && k < |r| && r[k] != w[k]
    ensures r[k] in GLITCH_CHARS
    decreases k
  {
    if k > 0 {
      GlyphsOnlyAt(w[1..], r[1..], k - 1);
    }
  }

  /** Each pass of the glitch loop writes a glitch glyph, so positions that
      differ from the word keep holding glyphs. */
  lemma {:induction false} GlitchLoopGlyphs(w: seq<char>, chars: seq<char>, ds: seq<bv32>)
    requires |w| == |chars| > 0 && GlyphsOnly(w, chars)
    ensures GlyphsOnly(w, GlitchLoop(chars, ds))
    decreases |ds|
  {
    if |ds| >= 2 {
      var pos, glyph := GlitchPos(|chars|, ds[0]), GlitchGlyph(ds[1]);
      GlitchGlyphIsGlyph(ds[1]);
      GlyphsOnlyPut(w, chars, pos, glyph);
      GlitchLoopGlyphs(w, chars[pos := glyph], ds[2..]);
    }
  }

  /** Each pass of the glitch loop changes at most one more position. */
  lemma {:induction false} GlitchLoopChanged(w: seq<char>, chars: seq<char>, ds: seq<bv32>)
    requires |w| == |chars| > 0
    ensures Changed(w, GlitchLoop(chars, ds)) <= Changed(w, chars) + |ds| / 2
    decreases |ds|
  {
    if |ds| >= 2 {
      var pos, glyph := GlitchPos(|chars|, ds[0]), GlitchGlyph(ds[1]);
      ChangedPut(w, chars, pos, glyph);
      GlitchLoopChanged(w, chars[pos := glyph], ds[2..]);
    }
  }

  lemma {:induction false} ChangedSelf(w: seq<char>)
    ensures Changed(w, w) == 0
    decreases |w|
  {
    if w != [] {
      ChangedSelf(w[1..]);
    }
  }

  /** A glitched non-empty word keeps its length, differs in at most two
      positions, and holds a glitch glyph at each of them. */
  lemma GlitchSpecBound(word: string, st: bv32)
    requires |word| > 0
    ensures var r := GlitchSpec(word, st).0;
      && |r| == |word| && Changed(word, r) <= 2
      && forall k :: 0 <= k < |r| && r[k] != word[k] ==> r[k] in GLITCH_CHARS
  {
    var s1 := Advance(st);
    var ds := Draws(s1, 2 * Passes(word, Output(s1)));
    ChangedSelf(word);
    GlyphsOnlySelf(word);
    GlitchLoopGlyphs(word, word, ds);
    GlitchLoopChanged(word, word, ds);
    var r := GlitchSpec(word, st).0;
    forall k | 0 <= k < |r| && r[k] != word[k]
      ensures r[k] in GLITCH_CHARS
    {
      GlyphsOnlyAt(word, r, k);
    }
  }

  /** `glitchWord`: replaces one or two positions of the word (one position of a
      one-letter word) with random glyphs, drawing from the shared generator. */
  method GlitchWord(word: string, rng: SeededRNG) returns (r: string)
    modifies rng
    ensures (r, rng.state) == GlitchSpec(word, old(rng.state))
  {
    var chars := word;
    var numGlitches := rng.NextInt(1, Min(3, |chars|));
    ghost var s1 := rng.state;
    ghost var passes := Passes(word, Output(s1));
    var i := 0;
    while i < numGlitches
      invariant 0 <= i <= passes
      invariant GlitchLoop(chars, Draws(rng.state, 2 * (passes - i))) == GlitchLoop(word, Draws(s1, 2 * passes))
      invariant AdvanceN(rng.state, 2 * (passes - i)) == AdvanceN(s1, 2 * passes)
    {
      ghost var st := rng.state;
      var pos := rng.NextInt(0, |chars|);
      var glyph := rng.Pick(GLITCH_CHARS);
      DrawsTwo(st, 2 * (passes - i));
      chars := PutGlyph(chars, pos, glyph);
      i := i + 1;
    }
    r := chars;
  }
}
