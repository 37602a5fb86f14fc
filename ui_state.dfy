/** The immutable snapshot of the game that the view model publishes
    (`GameUiState`), its default values, and the masked answer it carries. */
module UiState {
  import opened Kotlin

  /** One published snapshot. `currentWord` is NOT the answer: it is the masked
      answer shown to the player ("_ _ _" with letters revealed by hints). */
  datatype GameUiState = GameUiState(
    currentScrambledWord: string,
    isGuessedWordWrong: bool,
    isGuessedWordTrue: bool,
    score: Int32,
    currentWordCount: Int32,
    isGameOver: bool,
    isFirstHint: bool,
    isLastHint: bool,
    isRandomHint: bool,
    currentWord: string,
    lives: Int32)

  const StartingLives: Int32 := 3

  /** The default masked answer for a scrambled word of length `n`:
      `"_ ".repeat(n).trim()`. */
  function Mask(n: nat): string
  {
    Trim(Repeat("_ ", n))
  }

  /** `m` alternates '_' (even indices) and ' ' (odd indices). */
  predicate Alternating(m: string)
  {
    forall k :: 0 <= k < |m| ==> m[k] == (if k % 2 == 0 then '_' else ' ')
  }

  /** `m` is the blank mask for `n` letters: empty when `n` is 0, otherwise
      2n - 1 characters with one '_' per letter, separated by spaces. */
  predicate IsBlankMask(m: string, n: nat)
  {
    if n == 0 then m == [] else |m| == 2 * n - 1 && Alternating(m)
  }

  /** The number of occurrences of `c` in `s`. */
  function Count(s: string, c: char): nat
  {
    if s == [] then 0 else (if s[0] == c then 1 else 0) + Count(s[1..], c)
  }

  /** `mask` shows `answer` with some letters hidden: letter i sits at index 2i,
      either still '_' or the answer's own letter, with spaces in between. */
  predicate MaskedView(mask: string, answer: string)
  {
    && |answer| >= 1
    && |mask| == 2 * |answer| - 1
    && forall k :: 0 <= k < |mask| ==>
         if k % 2 == 0 then mask[k] == '_' || mask[k] == answer[k / 2] else mask[k] == ' '
  }

  /** `s` is the default snapshot for the scramble `scrambled`: no guess or
      hint flag set, score 0, first word, game running, three lives, and the
      blank mask for the scramble's length. */
  predicate IsInitial(s: GameUiState, scrambled: string)
  {
    && s.currentScrambledWord == scrambled
    && !s.isGuessedWordWrong && !s.isGuessedWordTrue
    && s.score == 0 && s.currentWordCount == 1 && !s.isGameOver
    && !s.isFirstHint && !s.isLastHint && !s.isRandomHint
    && IsBlankMask(s.currentWord, |scrambled|)
    && s.lives == StartingLives
  }

  /** The snapshot `GameUiState(currentScrambledWord = scrambled)`: every other
      field takes its declared default. */
  function InitialUiState(scrambled: string): (s: GameUiState)
    ensures IsInitial(s, scrambled)
  {
    MaskIsBlank(|scrambled|);
    GameUiState(
      currentScrambledWord := scrambled,
      isGuessedWordWrong := false,
      isGuessedWordTrue := false,
      score := 0,
      currentWordCount := 1,
      isGameOver := false,
      isFirstHint := false,
      isLastHint := false,
      isRandomHint := false,
      currentWord := Mask(|scrambled|),
      lives := StartingLives)
  }

  /** The default snapshot is the only one: `IsInitial` fixes every field. */
  lemma IsInitialIsUnique(s: GameUiState, t: GameUiState, scrambled: string)
    requires IsInitial(s, scrambled) && IsInitial(t, scrambled)
    ensures s == t
  {
    assert s.currentWord == t.currentWord;
  }

  lemma {:induction false} RepeatUnderscoreSpace(n: nat)
    ensures |Repeat("_ ", n)| == 2 * n
    ensures Alternating(Repeat("_ ", n))
  {
    if n > 0 {
      RepeatUnderscoreSpace(n - 1);
      var r := Repeat("_ ", n);
      assert r == "_ " + Repeat("_ ", n - 1);
      forall k | 2 <= k < |r|
        ensures r[k] == (if k % 2 == 0 then '_' else ' ')
      {
        assert r[k] == Repeat("_ ", n - 1)[k - 2];
      }
    }
  }

  /** The default mask is blank: 2n - 1 characters, '_' at even and ' ' at odd
      indices, and the empty string for an empty word. */
  lemma MaskIsBlank(n: nat)
    ensures IsBlankMask(Mask(n), n)
  {
    RepeatUnderscoreSpace(n);
    var r := Repeat("_ ", n);
    if n > 0 {
      assert TrimStart(r) == r;
      assert r[2 * n - 1] == ' ' && r[2 * n - 2] == '_';
      assert TrimEnd(r) == TrimEnd(r[..2 * n - 1]);
      assert TrimEnd(r[..2 * n - 1]) == r[..2 * n - 1];
    }
  }

  lemma {:induction false} AlternatingUnderscores(m: string)
    requires Alternating(m)
    ensures Count(m, '_') == (|m| + 1) / 2
  {
    if |m| >= 2 {
      assert Alternating(m[2..]) by {
        forall k | 0 <= k < |m| - 2
          ensures m[2..][k] == (if k % 2 == 0 then '_' else ' ')
        {
          assert m[2..][k] == m[k + 2];
        }
      }
      AlternatingUnderscores(m[2..]);
      assert m[1..][1..] == m[2..];
    } else if |m| == 1 {
      assert m[1..] == [];
    }
  }

  /** The default mask for n letters holds exactly n underscores. */
  lemma MaskUnderscores(n: nat)
    ensures Count(Mask(n), '_') == n
  {
    MaskIsBlank(n);
    if n > 0 {
      AlternatingUnderscores(Mask(n));
    }
  }

  /** A blank mask of the answer's length is a masked view of that answer. */
  lemma BlankMaskIsMaskedView(mask: string, answer: string)
    requires |answer| >= 1 && IsBlankMask(mask, |answer|)
    ensures MaskedView(mask, answer)
  {
  }
}
