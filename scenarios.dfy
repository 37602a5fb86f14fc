/** Two runs of the view model, as a caller of its public operations sees them. */
module Scenarios {
  import opened Kotlin
  import opened UiState
  import opened Game

  /** From a fresh game, three skips in a row use up all lives and end the
      game; the score is untouched and every skip drew a new word. */
  method ThreeSkipsEndTheGame(allWords: set<string>, scoreIncrease: Int32, d0: Draw, d1: Draw, d2: Draw, d3: Draw)
    returns (g: GameViewModel)
    requires CanDraw(d0, allWords, {})
    requires CanDraw(d1, allWords, {d0.Chosen()})
    requires CanDraw(d2, allWords, {d0.Chosen(), d1.Chosen()})
    requires CanDraw(d3, allWords, {d0.Chosen(), d1.Chosen(), d2.Chosen()})
    ensures g.uiState.lives == 0 && g.uiState.isGameOver
    ensures g.uiState.score == 0 && g.uiState.currentWordCount == 4
    ensures g.usedWords == {d0.Chosen(), d1.Chosen(), d2.Chosen(), d3.Chosen()}
    ensures g.currentWord == d3.Chosen()
  {
    g := new GameViewModel(allWords, scoreIncrease, d0);
    assert g.usedWords == {d0.Chosen()} && g.uiState.lives == 3 && g.uiState.score == 0;
    g.SkipWord(d1);
    assert g.usedWords == {d0.Chosen(), d1.Chosen()};
    assert g.uiState.lives == 2 && !g.uiState.isGameOver && g.uiState.score == 0;
    g.SkipWord(d2);
    assert g.usedWords == {d0.Chosen(), d1.Chosen(), d2.Chosen()};
    assert g.uiState.lives == 1 && !g.uiState.isGameOver && g.uiState.score == 0;
    g.SkipWord(d3);
  }

  /** A first round in which the player takes the first-letter and the
      last-letter hint and then guesses right (in any letter case): each hint
      costs 5 points and reveals its letter, and the guess adds the score
      increase and starts round two with every flag cleared. */
  method HintsThenCorrectGuess(allWords: set<string>, scoreIncrease: Int32, d0: Draw, guess: string, d1: Draw)
    returns (afterHints: GameUiState, afterGuess: GameUiState)
    requires CanDraw(d0, allWords, {})
    requires EqualsIgnoreCase(guess, d0.Chosen())
    requires CanDraw(d1, allWords, {d0.Chosen()})
    ensures afterHints.score == -10 && afterHints.isFirstHint && afterHints.isLastHint
    ensures var w := d0.Chosen(); var m := afterHints.currentWord;
      |m| == 2 * |w| - 1 && m[0] == w[0] && m[|m| - 1] == w[|w| - 1]
    ensures afterGuess.score == Wrap(-10 + scoreIncrease) && afterGuess.currentWordCount == 2
    ensures !afterGuess.isFirstHint && !afterGuess.isLastHint && !afterGuess.isRandomHint
    ensures !afterGuess.isGuessedWordTrue && !afterGuess.isGuessedWordWrong
    ensures afterGuess.currentScrambledWord == d1.Scrambled()
    ensures afterGuess.lives == StartingLives && !afterGuess.isGameOver
  {
    var g := new GameViewModel(allWords, scoreIncrease, d0);
    assert g.uiState.score == 0 && g.usedWords == {d0.Chosen()};
    ShuffleLength(d0.Scrambled(), d0.Chosen());
    ghost var w := d0.Chosen();
    g.HintFirstChar();
    assert g.uiState.score == -5 && g.uiState.isFirstHint;
    assert |g.uiState.currentWord| == 2 * |w| - 1 && g.uiState.currentWord[0] == w[0];
    g.HintLastChar();
    afterHints := g.uiState;
    assert afterHints.score == -10 && afterHints.lives == StartingLives;
    g.UpdateUserGuess(guess);
    g.CheckUserGuess(d1);
    afterGuess := g.uiState;
  }
}
