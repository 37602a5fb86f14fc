/** The game's state machine: word selection and shuffling, guess checking,
    round advance, skipping with lives, and the hint engine. */
module Game {
  import opened Kotlin
  import opened UiState

  /** Points charged for every hint. */
  const HintPenalty: Int32 := 5

  predicate IsPermutation(s: string, t: string)
  {
    multiset(s) == multiset(t)
  }

  /** `s` is a valid scramble of `w`: the same letters, in a different order. */
  predicate IsShuffle(s: string, w: string)
  {
    IsPermutation(s, w) && s != w
  }

  /** Some letter of `w` differs from its first letter. */
  predicate HasTwoDistinctLetters(w: string)
  {
    exists i :: 0 < i < |w| && w[i] != w[0]
  }

  /** The successive contents of the character array in `shuffleCurrentWord`,
      one per call of `shuffle()`: all permutations of `word`, all but the last
      equal to `word`, the last one different. */
  predicate ShuffleTrace(word: string, tries: seq<string>)
  {
    && |tries| >= 1
    && (forall k :: 0 <= k < |tries| ==> IsPermutation(tries[k], word))
    && (forall k :: 0 <= k < |tries| - 1 ==> tries[k] == word)
    && tries[|tries| - 1] != word
  }

  /** The successive results of `allWords.random()` in `pickRandomWordAndShuffle`:
      all drawn from the bank, all but the last already used, the last unused. */
  predicate RetryTrace(picks: seq<string>, bank: set<string>, used: set<string>)
  {
    && |picks| >= 1
    && (forall k :: 0 <= k < |picks| ==> picks[k] in bank)
    && (forall k :: 0 <= k < |picks| - 1 ==> picks[k] in used)
    && picks[|picks| - 1] !in used
  }

  /** The random outcomes of one call of `pickRandomWordAndShuffle`. */
  datatype Draw = Draw(picks: seq<string>, shuffles: seq<string>)
  {
    /** The word the draw settles on. */
    function Chosen(): string
      requires |picks| >= 1
    {
      picks[|picks| - 1]
    }

    /** The scramble the draw settles on. */
    function Scrambled(): string
      requires |shuffles| >= 1
    {
      shuffles[|shuffles| - 1]
    }
  }

  predicate CanDraw(d: Draw, bank: set<string>, used: set<string>)
  {
    RetryTrace(d.picks, bank, used) && ShuffleTrace(d.Chosen(), d.shuffles)
  }

  // ---------------------------------------------------------------------------
  // Shuffling

  /** A word whose letters are all the same is its own only permutation. */
  lemma UniformWordIsOwnOnlyPermutation(w: string, t: string)
    requires !HasTwoDistinctLetters(w) && IsPermutation(t, w)
    ensures t == w
  {
    assert |t| == |multiset(t)| == |multiset(w)| == |w|;
    forall k | 0 <= k < |t|
      ensures t[k] == w[k]
    {
      assert t[k] in multiset(w);
      var j :| 0 <= j < |w| && w[j] == t[k];
      assert j == 0 || w[j] == w[0];
    }
  }

  /** The reshuffle loop can only stop on a word with two distinct letters:
      for "a" or "aa" every shuffle returns the word itself. */
  lemma ShuffleNeedsTwoDistinctLetters(w: string, tries: seq<string>)
    requires ShuffleTrace(w, tries)
    ensures HasTwoDistinctLetters(w) && |w| >= 2
  {
    var last := tries[|tries| - 1];
    if !HasTwoDistinctLetters(w) {
      UniformWordIsOwnOnlyPermutation(w, last);
    }
  }

  /** A scrambled word differs from its answer, so the answer has two
      distinct letters and the same length as the scramble. */
  lemma ShuffleLength(s: string, w: string)
    requires IsShuffle(s, w)
    ensures HasTwoDistinctLetters(w) && |w| >= 2 && |s| == |w|
  {
    ShuffleNeedsTwoDistinctLetters(w, [s]);
    assert |s| == |multiset(s)|;
  }

  /** Conversely, every word with two distinct letters has a scramble (swap
      its first letter with a different one), so the reshuffle loop has a
      terminating run. */
  lemma TwoDistinctLettersAdmitShuffle(w: string)
    requires HasTwoDistinctLetters(w)
    ensures exists t :: IsShuffle(t, w)
  {
    var i :| 0 < i < |w| && w[i] != w[0];
    var u := w[0 := w[i]];
    var t := u[i := w[0]];
    assert w[0] in multiset(w);
    assert multiset(u) == multiset(w) - multiset{w[0]} + multiset{w[i]};
    assert multiset(t) == multiset(u) - multiset{w[i]} + multiset{w[0]};
    assert t[0] != w[0];
    assert IsShuffle(t, w);
  }

  /** A draw exists when the bank holds an unused word with two distinct
      letters (which the shuffle needs). */
  lemma DrawExists(bank: set<string>, used: set<string>, w: string)
    requires w in bank && w !in used && HasTwoDistinctLetters(w)
    ensures exists d :: CanDraw(d, bank, used)
  {
    TwoDistinctLettersAdmitShuffle(w);
    var t :| IsShuffle(t, w);
    assert ShuffleTrace(w, [t]);
    assert CanDraw(Draw([w], [t]), bank, used);
  }

  /** Conversely, every draw settles on an unused bank word with two distinct
      letters. */
  lemma DrawNeedsUnusedWord(d: Draw, bank: set<string>, used: set<string>)
    requires CanDraw(d, bank, used)
    ensures d.Chosen() in bank && d.Chosen() !in used && HasTwoDistinctLetters(d.Chosen())
  {
    ShuffleNeedsTwoDistinctLetters(d.Chosen(), d.shuffles);
  }

  /** Once every word of the bank is used no draw exists: the retry recursion
      of `pickRandomWordAndShuffle` never succeeds, and the source recurses
      until the stack overflows. */
  lemma ExhaustedBankHasNoDraw(bank: set<string>, used: set<string>, d: Draw)
    requires bank <= used
    ensures !CanDraw(d, bank, used)
  {
  }

  /** `shuffleCurrentWord`: shuffle until the result differs from `word`. */
  method ShuffleCurrentWord(word: string, tries: seq<string>) returns (s: string)
    requires ShuffleTrace(word, tries)
    ensures IsShuffle(s, word)
    ensures s == tries[|tries| - 1]
  {
    var i := 0;
    var tempWord := tries[0];
    while tempWord == word
      invariant 0 <= i < |tries| && tempWord == tries[i]
      decreases |tries| - i
    {
      i := i + 1;
      tempWord := tries[i];
    }
    s := tempWord;
  }

  // ---------------------------------------------------------------------------
  // Hint helpers (pure: they read the answer and the mask and build a string)

  /** `firstChar()`: `answer.take(1) + mask.substring(1)`. */
  function FirstChar(answer: string, mask: string): (r: Result<string>)
    ensures r.Ok? <==> |mask| >= 1
    ensures r.Ok? && |answer| >= 1 ==>
              && |r.value| == |mask|
              && r.value[0] == answer[0]
              && forall k :: 1 <= k < |mask| ==> r.value[k] == mask[k]
    ensures r.Ok? && |answer| == 0 ==> r.value == mask[1..]
  {
    if |mask| < 1 then Err(IndexOutOfBounds)
    else Ok((if |answer| >= 1 then answer[..1] else "") + mask[1..])
  }

  /** `lastChar()`: `mask.substring(0, mask.length - 1) + answer.last()`. */
  function LastChar(answer: string, mask: string): (r: Result<string>)
    ensures r.Err? <==> |mask| < 1 || |answer| < 1
    ensures |mask| < 1 ==> r == Err(IndexOutOfBounds)
    ensures |mask| >= 1 && |answer| < 1 ==> r == Err(NoSuchElement)
    ensures r.Ok? ==>
              && |r.value| == |mask|
              && r.value[|mask| - 1] == answer[|answer| - 1]
              && forall k :: 0 <= k < |mask| - 1 ==> r.value[k] == mask[k]
  {
    if |mask| < 1 then Err(IndexOutOfBounds)
    else if |answer| < 1 then Err(NoSuchElement)
    else Ok(mask[..|mask| - 1] + [answer[|answer| - 1]])
  }

  /** `getRandomIndexAndSubstring(input)`, with the value of
      `Random.nextInt(1, input.length - 1)` given as `choice`. Lengths below 2
      are rejected explicitly; length 2 makes `nextInt` see an empty range. */
  function GetRandomIndexAndSubstring(input: string, choice: int): (r: Result<(int, string)>)
    requires |input| >= 3 ==> 1 <= choice < |input| - 1
    ensures r.Ok? <==> |input| >= 3
    ensures r.Err? ==> r.error == IllegalArgument
    ensures r.Ok? ==>
              && 1 <= r.value.0 <= |input| - 2
              && r.value.1 == [input[r.value.0]]
  {
    if |input| < 2 then Err(IllegalArgument)
    else if |input| - 1 <= 1 then Err(IllegalArgument)
    else Ok((choice, [input[choice]]))
  }

  /** The new mask of `hintRandomChar`:
      `mask.subSequence(0, 2 * index) + text + mask.subSequence(2 * index + 1, mask.length)`. */
  function RevealSlot(mask: string, index: int, text: string): (r: Result<string>)
    ensures r.Ok? <==> 0 <= index && 2 * index + 1 <= |mask|
    ensures r.Err? ==> r.error == IndexOutOfBounds
    ensures r.Ok? ==> |r.value| == |mask| - 1 + |text|
    ensures r.Ok? && |text| == 1 ==>
              && r.value[2 * index] == text[0]
              && forall k :: 0 <= k < |mask| && k != 2 * index ==> r.value[k] == mask[k]
  {
    if index < 0 || 2 * index + 1 > |mask| then Err(IndexOutOfBounds)
    else Ok(mask[..2 * index] + text + mask[2 * index + 1..])
  }

  /** Revealing the first letter keeps the mask a masked view of the answer. */
  lemma FirstCharKeepsMaskedView(mask: string, answer: string)
    requires MaskedView(mask, answer)
    ensures FirstChar(answer, mask).Ok?
    ensures MaskedView(FirstChar(answer, mask).value, answer)
  {
    var m := FirstChar(answer, mask).value;
    forall k | 0 <= k < |m|
      ensures if k % 2 == 0 then m[k] == '_' || m[k] == answer[k / 2] else m[k] == ' '
    {
      if k > 0 {
        assert m[k] == mask[k];
      }
    }
  }

  /** Revealing the last letter keeps the mask a masked view of the answer. */
  lemma LastCharKeepsMaskedView(mask: string, answer: string)
    requires MaskedView(mask, answer)
    ensures LastChar(answer, mask).Ok?
    ensures MaskedView(LastChar(answer, mask).value, answer)
  {
    var m := LastChar(answer, mask).value;
    var n := |answer|;
    forall k | 0 <= k < |m|
      ensures if k % 2 == 0 then m[k] == '_' || m[k] == answer[k / 2] else m[k] == ' '
    {
      if k < |m| - 1 {
        assert m[k] == mask[k];
      } else {
        assert k == 2 * (n - 1);
      }
    }
  }

  /** Revealing an interior letter keeps the mask a masked view of the answer;
      on a masked view of an answer of length 3 or more the hint cannot fail. */
  lemma RandomCharKeepsMaskedView(mask: string, answer: string, choice: int)
    requires MaskedView(mask, answer) && |answer| >= 3
    requires 1 <= choice < |answer| - 1
    ensures GetRandomIndexAndSubstring(answer, choice).Ok?
    ensures RevealSlot(mask, choice, [answer[choice]]).Ok?
    ensures MaskedView(RevealSlot(mask, choice, [answer[choice]]).value, answer)
  {
    var m := RevealSlot(mask, choice, [answer[choice]]).value;
    forall k | 0 <= k < |m|
      ensures if k % 2 == 0 then m[k] == '_' || m[k] == answer[k / 2] else m[k] == ' '
    {
      if k != 2 * choice {
        assert m[k] == mask[k];
      }
    }
  }

  // ---------------------------------------------------------------------------
  // The view model

  /** `after` is the snapshot `updateGameState` publishes from `before` for a
      new round: guess and hint flags cleared, the new scramble with a blank
      mask of its length, one more word counted and the given score; lives and
      game over untouched. */
  predicate StartsRound(before: GameUiState, after: GameUiState, newWord: string, updatedScore: Int32)
  {
    && !after.isGuessedWordWrong && !after.isGuessedWordTrue
    && !after.isFirstHint && !after.isLastHint && !after.isRandomHint
    && after.currentScrambledWord == newWord && IsBlankMask(after.currentWord, |newWord|)
    && after.currentWordCount == Wrap(before.currentWordCount + 1) && after.score == updatedScore
    && after.lives == before.lives && after.isGameOver == before.isGameOver
  }

  /** The copy `updateGameState` makes of the snapshot for a new round. */
  function NextRound(s: GameUiState, newWord: string, updatedScore: Int32): (r: GameUiState)
    ensures StartsRound(s, r, newWord, updatedScore)
  {
    MaskIsBlank(|newWord|);
    s.(
      isGuessedWordWrong := false,
      isFirstHint := false,
      isLastHint := false,
      isRandomHint := false,
      isGuessedWordTrue := false,
      currentScrambledWord := newWord,
      currentWordCount := Wrap(s.currentWordCount + 1),
      score := updatedScore,
      currentWord := Mask(|newWord|))
  }

  class GameViewModel {
    /** The word bank (`allWords`) and the points per correct guess
        (`SCORE_INCREASE`). */
    const allWords: set<string>
    const scoreIncrease: Int32

    /** The published snapshot (`_uiState.value`). */
    var uiState: GameUiState
    /** The player's in-progress guess. */
    var userGuess: string
    /** The answer of the current round. */
    var currentWord: string
    /** The words presented since the last reset. */
    var usedWords: set<string>

    ghost predicate Valid()
      reads this
    {
      && currentWord in usedWords
      && usedWords <= allWords
      && IsShuffle(uiState.currentScrambledWord, currentWord)
      && |uiState.currentWord| >= 1
    }

    /** `init { resetGame() }` */
    constructor (allWords: set<string>, scoreIncrease: Int32, d: Draw)
      requires CanDraw(d, allWords, {})
      ensures this.allWords == allWords && this.scoreIncrease == scoreIncrease
      ensures Valid()
      ensures usedWords == {currentWord} && currentWord == d.Chosen()
      ensures IsInitial(uiState, d.Scrambled())
      ensures MaskedView(uiState.currentWord, currentWord)
      ensures userGuess == ""
    {
      this.allWords := allWords;
      this.scoreIncrease := scoreIncrease;
      uiState := InitialUiState("");
      userGuess := "";
      currentWord := "";
      usedWords := {};
      new;
      ResetGame(d);
    }

    /** `resetGame`: forget the used words and start from the default snapshot
        with a freshly drawn word. */
    method ResetGame(d: Draw)
      requires CanDraw(d, allWords, {})
      modifies this`usedWords, this`currentWord, this`uiState
      ensures Valid()
      ensures usedWords == {currentWord} && currentWord == d.Chosen()
      ensures IsInitial(uiState, d.Scrambled())
      ensures MaskedView(uiState.currentWord, currentWord)
    {
      usedWords := {};
      var scrambled := PickRandomWordAndShuffle(d);
      uiState := InitialUiState(scrambled);
      ShuffleLength(scrambled, currentWord);
      BlankMaskIsMaskedView(uiState.currentWord, currentWord);
    }

    /** `pickRandomWordAndShuffle`: draw until an unused word comes up, record
        it, and return a scramble of it. */
    method PickRandomWordAndShuffle(d: Draw) returns (scrambled: string)
      requires CanDraw(d, allWords, usedWords)
      modifies this`currentWord, this`usedWords
      decreases |d.picks|
      ensures currentWord == d.Chosen()
      ensures currentWord in allWords && currentWord !in old(usedWords)
      ensures usedWords == old(usedWords) + {currentWord}
      ensures IsShuffle(scrambled, currentWord) && scrambled == d.Scrambled()
    {
      currentWord := d.picks[0];
      if currentWord in usedWords {
        scrambled := PickRandomWordAndShuffle(Draw(d.picks[1..], d.shuffles));
      } else {
        usedWords := usedWords + {currentWord};
        scrambled := ShuffleCurrentWord(currentWord, d.shuffles);
      }
    }

    /** `updateUserGuess` */
    method UpdateUserGuess(guessedWord: string)
      modifies this`userGuess
      ensures userGuess == guessedWord
    {
      userGuess := guessedWord;
    }

    /** `checkUserGuess`: a case-insensitive match scores and advances the
        round (while lives remain); a mismatch only raises the wrong flag. */
    method CheckUserGuess(d: Draw)
      requires Valid()
      requires EqualsIgnoreCase(userGuess, currentWord) && uiState.lives > 0 ==>
                 CanDraw(d, allWords, usedWords)
      modifies this`uiState, this`currentWord, this`usedWords, this`userGuess
      ensures Valid()
      ensures userGuess == ""
      ensures !EqualsIgnoreCase(old(userGuess), old(currentWord)) ==>
                && uiState == old(uiState).(isGuessedWordWrong := true)
                && currentWord == old(currentWord) && usedWords == old(usedWords)
      ensures EqualsIgnoreCase(old(userGuess), old(currentWord)) && old(uiState.lives) > 0 ==>
                && currentWord == d.Chosen() && currentWord !in old(usedWords)
                && usedWords == old(usedWords) + {currentWord}
                && StartsRound(old(uiState), uiState, d.Scrambled(), Wrap(old(uiState.score) + scoreIncrease))
                && MaskedView(uiState.currentWord, currentWord)
      ensures EqualsIgnoreCase(old(userGuess), old(currentWord)) && old(uiState.lives) <= 0 ==>
                && uiState == old(uiState).(isGuessedWordTrue := true)
                && currentWord == old(currentWord) && usedWords == old(usedWords)
      ensures old(MaskedView(uiState.currentWord, currentWord)) ==> MaskedView(uiState.currentWord, currentWord)
    {
      if EqualsIgnoreCase(userGuess, currentWord) {
        uiState := uiState.(isGuessedWordTrue := true);
        var updatedScore := Wrap(uiState.score + scoreIncrease);
        UpdateGameState(updatedScore, d);
        UpdateUserGuess("");
      } else {
        uiState := uiState.(isGuessedWordWrong := true);
        UpdateUserGuess("");
      }
    }

    /** `updateGameState`: while lives remain, start the next round with the
        given score; otherwise change nothing. */
    method UpdateGameState(updatedScore: Int32, d: Draw)
      requires Valid()
      requires uiState.lives > 0 ==> CanDraw(d, allWords, usedWords)
      modifies this`uiState, this`currentWord, this`usedWords
      ensures Valid()
      ensures old(uiState.lives) > 0 ==>
                && currentWord == d.Chosen() && currentWord !in old(usedWords)
                && usedWords == old(usedWords) + {currentWord}
                && StartsRound(old(uiState), uiState, d.Scrambled(), updatedScore)
                && MaskedView(uiState.currentWord, currentWord)
      ensures old(uiState.lives) <= 0 ==>
                uiState == old(uiState) && currentWord == old(currentWord) && usedWords == old(usedWords)
    {
      if uiState.lives > 0 {
        var newWord := PickRandomWordAndShuffle(d);
        ShuffleLength(newWord, currentWord);
        ghost var before := uiState;
        uiState := NextRound(uiState, newWord, updatedScore);
        assert StartsRound(before, uiState, newWord, updatedScore);
        BlankMaskIsMaskedView(uiState.currentWord, currentWord);
      }
    }

    /** `skipWord`, as one step: reveal the answer, advance the round with the
        score unchanged, lose a life, and end the game when none are left. */
    method SkipWord(d: Draw)
      requires Valid()
      requires uiState.lives > 0 ==> CanDraw(d, allWords, usedWords)
      modifies this`uiState, this`currentWord, this`usedWords, this`userGuess
      ensures Valid()
      ensures userGuess == ""
      ensures uiState.score == old(uiState.score)
      ensures uiState.lives == Wrap(old(uiState.lives) - 1)
      ensures uiState.isGameOver <==> old(uiState.isGameOver) || uiState.lives == 0
      ensures old(uiState.lives) > 0 ==>
                && currentWord == d.Chosen() && currentWord !in old(usedWords)
                && usedWords == old(usedWords) + {currentWord}
                && StartsRound(old(uiState), uiState.(lives := old(uiState.lives), isGameOver := old(uiState.isGameOver)),
                               d.Scrambled(), old(uiState.score))
                && MaskedView(uiState.currentWord, currentWord)
      ensures old(uiState.lives) <= 0 ==>
                && currentWord == old(currentWord) && usedWords == old(usedWords)
                && uiState == old(uiState).(
                     currentWord := old(currentWord),
                     lives := Wrap(old(uiState.lives) - 1))
    {
      CorrectWord();
      UpdateGameState(uiState.score, d);
      uiState := uiState.(lives := Wrap(uiState.lives - 1));
      if uiState.lives == 0 {
        uiState := uiState.(isGameOver := true);
      }
      UpdateUserGuess("");
    }

    /** `correctWord`: show the answer in place of the mask. */
    method CorrectWord()
      requires Valid()
      modifies this`uiState
      ensures Valid()
      ensures uiState == old(uiState).(currentWord := currentWord)
    {
      ShuffleLength(uiState.currentScrambledWord, currentWord);
      uiState := uiState.(currentWord := currentWord);
    }

    /** `hintFirstChar`: reveal the answer's first letter and charge a hint. */
    method HintFirstChar()
      requires Valid()
      modifies this`uiState
      ensures Valid()
      ensures FirstChar(currentWord, old(uiState.currentWord)).Ok?
      ensures uiState == old(uiState).(
                currentWord := FirstChar(currentWord, old(uiState.currentWord)).value,
                isFirstHint := true,
                score := Wrap(old(uiState.score) - HintPenalty))
      ensures |uiState.currentWord| == |old(uiState.currentWord)|
      ensures uiState.currentWord[0] == currentWord[0]
      ensures forall k :: 1 <= k < |uiState.currentWord| ==>
                uiState.currentWord[k] == old(uiState.currentWord)[k]
      ensures old(MaskedView(uiState.currentWord, currentWord)) ==> MaskedView(uiState.currentWord, currentWord)
    {
      ShuffleLength(uiState.currentScrambledWord, currentWord);
      if MaskedView(uiState.currentWord, currentWord) {
        FirstCharKeepsMaskedView(uiState.currentWord, currentWord);
      }
      var r := FirstChar(currentWord, uiState.currentWord);
      uiState := uiState.(currentWord := r.value, isFirstHint := true, score := Wrap(uiState.score - HintPenalty));
    }

    /** `hintLastChar`: reveal the answer's last letter and charge a hint. */
    method HintLastChar()
      requires Valid()
      modifies this`uiState
      ensures Valid()
      ensures LastChar(currentWord, old(uiState.currentWord)).Ok?
      ensures uiState == old(uiState).(
                currentWord := LastChar(currentWord, old(uiState.currentWord)).value,
                isLastHint := true,
                score := Wrap(old(uiState.score) - HintPenalty))
      ensures |uiState.currentWord| == |old(uiState.currentWord)|
      ensures uiState.currentWord[|uiState.currentWord| - 1] == currentWord[|currentWord| - 1]
      ensures forall k :: 0 <= k < |uiState.currentWord| - 1 ==>
                uiState.currentWord[k] == old(uiState.currentWord)[k]
      ensures old(MaskedView(uiState.currentWord, currentWord)) ==> MaskedView(uiState.currentWord, currentWord)
    {
      ShuffleLength(uiState.currentScrambledWord, currentWord);
      if MaskedView(uiState.currentWord, currentWord) {
        LastCharKeepsMaskedView(uiState.currentWord, currentWord);
      }
      var r := LastChar(currentWord, uiState.currentWord);
      uiState := uiState.(currentWord := r.value, isLastHint := true, score := Wrap(uiState.score - HintPenalty));
    }

    /** `hintRandomChar`, with `Random.nextInt` given as `choice`: reveal the
        answer's letter at an interior index i at mask index 2i and charge a
        hint. It throws (and changes nothing) for answers shorter than 3 and
        when the mask is too short for index 2i. */
    method HintRandomChar(choice: int) returns (outcome: Outcome)
      requires Valid()
      requires |currentWord| >= 3 ==> 1 <= choice < |currentWord| - 1
      modifies this`uiState
      ensures Valid()
      ensures outcome.Pass? <==> |currentWord| >= 3 && 2 * choice + 1 <= |old(uiState.currentWord)|
      ensures outcome.Fail? ==> uiState == old(uiState)
      ensures |currentWord| < 3 ==> outcome == Fail(IllegalArgument)
      ensures |currentWord| >= 3 && 2 * choice + 1 > |old(uiState.currentWord)| ==> outcome == Fail(IndexOutOfBounds)
      ensures outcome.Pass? ==>
                && 1 <= choice <= |currentWord| - 2
                && RevealSlot(old(uiState.currentWord), choice, [currentWord[choice]]).Ok?
                && uiState == old(uiState).(
                     currentWord := RevealSlot(old(uiState.currentWord), choice, [currentWord[choice]]).value,
                     isRandomHint := true,
                     score := Wrap(old(uiState.score) - HintPenalty))
                && |uiState.currentWord| == |old(uiState.currentWord)|
                && uiState.currentWord[2 * choice] == currentWord[choice]
                && forall k :: 0 <= k < |uiState.currentWord| && k != 2 * choice ==>
                     uiState.currentWord[k] == old(uiState.currentWord)[k]
      ensures old(MaskedView(uiState.currentWord, currentWord)) && |currentWord| >= 3 ==>
                outcome.Pass? && MaskedView(uiState.currentWord, currentWord)
    {
      var picked := GetRandomIndexAndSubstring(currentWord, choice);
      if picked.Err? {
        return Fail(picked.error);
      }
      var (index, text) := picked.value;
      var newWord := RevealSlot(uiState.currentWord, index, text);
      if newWord.Err? {
        return Fail(newWord.error);
      }
      if MaskedView(uiState.currentWord, currentWord) {
        RandomCharKeepsMaskedView(uiState.currentWord, currentWord, choice);
      }
      uiState := uiState.(currentWord := newWord.value, isRandomHint := true, score := Wrap(uiState.score - HintPenalty));
      outcome := Pass;
    }
  }
}
