# Unscramble: a verified model of the game view model

Unscramble is a single-player word game. The view model draws an unused
word from a word bank and shows the player a scrambled copy of it. The
player then does one of three things:

- guesses the word, compared ignoring case;
- skips the word, which costs a life;
- buys hints. Each hint reveals one letter of a masked copy of the answer
  (`"_ _ _ _ _"`) and costs 5 points.

The game is over when a skip brings the lives to 0.

This project models that state machine in Dafny and proves what it does:

- `kotlin.dfy` (module `Kotlin`) holds the Kotlin standard-library
  behaviour the game relies on:
  - 32-bit `Int` wrap-around;
  - `String.repeat` and `String.trim`;
  - `equals(ignoreCase = true)`;
  - the exceptions of `substring`, `last()` and `Random.nextInt`, modelled
    as `Result`/`Outcome` values.
- `ui_state.dfy` (module `UiState`) holds the immutable snapshot
  `GameUiState` and its default values, including the default mask
  `"_ ".repeat(n).trim()`.
- `game_view_model.dfy` (module `Game`) models `GameViewModel`:
  - a class with the mutable fields `uiState`, `userGuess`, `currentWord`
    and `usedWords`;
  - the pure hint helpers as functions;
  - the reshuffle loop as a method with a `while` loop.
- `scenarios.dfy` (module `Scenarios`) holds two client runs:
  - three skips that end the game;
  - a round with two hints followed by a correct guess.

The random choices are inputs to the model:

- `allWords.random()` and `CharArray.shuffle()` become a `Draw`. It lists
  every word drawn in one call of `pickRandomWordAndShuffle`:
  - all but the last were already used, and the last was not;
  - every array content after each `shuffle()` is a permutation of the
    word;
  - all array contents but the last equal the word.
- `Random.nextInt` becomes a `choice` parameter in its range.

The word bank and `SCORE_INCREASE` are constructor parameters, because the
data module is not part of this model.

The view model keeps an invariant, `Valid()`:

- the answer is a used word from the bank;
- the scramble on screen is a permutation of the answer that differs from
  it;
- the mask is never empty.

Every state-changing operation preserves `Valid()`.

Each hint method also keeps `MaskedView`: letter `i` of the answer sits at
mask index `2i`, either still `'_'` or revealed, with spaces between the
letters.

## Model

| member | source | states |
|---|---|---|
| `Kotlin.Wrap` | app/src/main/java/com/example/unscramble/ui/GameViewModel.kt:106 | Kotlin `Int` arithmetic: in range the result is the exact value; otherwise it is congruent to it modulo 2^32 |
| `Kotlin.Repeat` | app/src/main/java/com/example/unscramble/ui/GameUiState.kt:13 | `s.repeat(n)`: the result has length n times the length of `s`; its content for `"_ "` is stated by `UiState.RepeatUnderscoreSpace` |
| `Kotlin.TrimStart` | app/src/main/java/com/example/unscramble/ui/GameUiState.kt:13 | no contract of its own; `Kotlin.TrimStartSpec` states what it removes |
| `Kotlin.TrimEnd` | app/src/main/java/com/example/unscramble/ui/GameUiState.kt:13 | no contract of its own; `Kotlin.TrimEndSpec` states what it removes |
| `Kotlin.Trim` | app/src/main/java/com/example/unscramble/ui/GameUiState.kt:13 | no contract of its own; `Kotlin.TrimSpec` states what `trim()` returns |
| `Kotlin.TrimStartSpec` | app/src/main/java/com/example/unscramble/ui/GameUiState.kt:13 | trimming the front removes exactly the leading white space: the result is a suffix, what was cut is white space, and the result starts with a non-space or is empty |
| `Kotlin.TrimEndSpec` | app/src/main/java/com/example/unscramble/ui/GameUiState.kt:13 | trimming the end removes exactly the trailing white space: the result is a prefix, what was cut is white space, and the result ends with a non-space or is empty |
| `Kotlin.TrimSpec` | app/src/main/java/com/example/unscramble/ui/GameUiState.kt:13 | `trim()` returns a slice of its input whose cut-off ends are all white space and which neither starts nor ends with white space |
| `Kotlin.ToUpper` | app/src/main/java/com/example/unscramble/ui/GameViewModel.kt:62 | upper-casing maps every ASCII lower-case letter to the upper-case letter at the same alphabet position and leaves every other character as it is |
| `Kotlin.ToLower` | app/src/main/java/com/example/unscramble/ui/GameViewModel.kt:62 | lower-casing maps every ASCII upper-case letter to the lower-case letter at the same alphabet position and leaves every other character as it is |
| `Kotlin.UpperCase` | app/src/main/java/com/example/unscramble/ui/GameViewModel.kt:62 | the reference upper-cased string: same length, each character upper-cased |
| `Kotlin.CharEqualsIgnoreCase` | app/src/main/java/com/example/unscramble/ui/GameViewModel.kt:62 | no contract of its own: the per-character test of `equals(ignoreCase = true)` (equal, equal upper-cased, or equal lower-cased after upper-casing); `Kotlin.CharEqualsIgnoreCaseIsUpperEquality` characterises it |
| `Kotlin.EqualsIgnoreCase` | app/src/main/java/com/example/unscramble/ui/GameViewModel.kt:62 | no contract of its own: same length and characters pairwise equal ignoring case; `Kotlin.EqualsIgnoreCaseIsUpperCaseEquality` and `Kotlin.EqualsIgnoreCaseIsEquivalence` state its meaning |
| `Kotlin.CharEqualsIgnoreCaseIsUpperEquality` | app/src/main/java/com/example/unscramble/ui/GameViewModel.kt:62 | two characters match ignoring case exactly when their upper cases are equal (both directions) |
| `Kotlin.EqualsIgnoreCaseIsUpperCaseEquality` | app/src/main/java/com/example/unscramble/ui/GameViewModel.kt:62 | a guess matches ignoring case exactly when the upper-cased guess equals the upper-cased answer (both directions) |
| `Kotlin.EqualsIgnoreCaseIsEquivalence` | app/src/main/java/com/example/unscramble/ui/GameViewModel.kt:62 | case-insensitive comparison is reflexive, symmetric and transitive |
| `UiState.Mask` | app/src/main/java/com/example/unscramble/ui/GameUiState.kt:13 | no contract of its own: `"_ ".repeat(n).trim()`; `UiState.MaskIsBlank` and `UiState.MaskUnderscores` state its shape |
| `UiState.InitialUiState` | app/src/main/java/com/example/unscramble/ui/GameUiState.kt:3-15 | the default snapshot for a scramble: no guess or hint flag, score 0, word count 1, game running, 3 lives, and a blank mask of the scramble's length |
| `UiState.IsInitialIsUnique` | app/src/main/java/com/example/unscramble/ui/GameUiState.kt:3-15 | the defaults fix every field: two default snapshots for the same scramble are equal |
| `UiState.RepeatUnderscoreSpace` | app/src/main/java/com/example/unscramble/ui/GameUiState.kt:13 | `"_ ".repeat(n)` has length 2n and alternates '_' and ' ' |
| `UiState.MaskIsBlank` | app/src/main/java/com/example/unscramble/ui/GameUiState.kt:13 | the default mask for n letters has length 2n - 1 with '_' at even and ' ' at odd indices; for n = 0 it is the empty string |
| `UiState.MaskUnderscores` | app/src/main/java/com/example/unscramble/ui/GameUiState.kt:13 | the default mask for n letters contains exactly n underscores |
| `UiState.BlankMaskIsMaskedView` | app/src/main/java/com/example/unscramble/ui/GameViewModel.kt:92 | a blank mask built from a length equal to the answer's lines up with the answer: letter i at index 2i |
| `Game.UniformWordIsOwnOnlyPermutation` | app/src/main/java/com/example/unscramble/ui/GameViewModel.kt:41-43 | a word made of one repeated letter has no permutation other than itself |
| `Game.ShuffleNeedsTwoDistinctLetters` | app/src/main/java/com/example/unscramble/ui/GameViewModel.kt:37-45 | the reshuffle loop can only finish on a word with two distinct letters, so of length at least 2 |
| `Game.ShuffleLength` | app/src/main/java/com/example/unscramble/ui/GameViewModel.kt:37-45 | a scramble has the answer's length, and that answer has two distinct letters |
| `Game.TwoDistinctLettersAdmitShuffle` | app/src/main/java/com/example/unscramble/ui/GameViewModel.kt:37-45 | every word with two distinct letters has a scramble, so the loop has a terminating run |
| `Game.DrawExists` | app/src/main/java/com/example/unscramble/ui/GameViewModel.kt:47-56 | an unused bank word with two distinct letters makes a complete draw possible |
| `Game.DrawNeedsUnusedWord` | app/src/main/java/com/example/unscramble/ui/GameViewModel.kt:47-56 | every complete draw settles on a bank word that was unused and has two distinct letters (the converse of `Game.DrawExists`) |
| `Game.ExhaustedBankHasNoDraw` | app/src/main/java/com/example/unscramble/ui/GameViewModel.kt:50-51 | for a non-empty bank, once every bank word is used no draw completes: the retry never succeeds, and the source recurses until the stack overflows (`StackOverflowError`) |
| `Game.ShuffleCurrentWord` | app/src/main/java/com/example/unscramble/ui/GameViewModel.kt:37-45 | returns a permutation of the word that differs from it, namely the first array content that differs |
| `Game.FirstChar` | app/src/main/java/com/example/unscramble/ui/GameViewModel.kt:120-122 | fails exactly on an empty mask; otherwise, for a non-empty answer, it keeps the mask's length, puts the answer's first letter at index 0 and leaves every other index unchanged |
| `Game.LastChar` | app/src/main/java/com/example/unscramble/ui/GameViewModel.kt:123-125 | fails on an empty mask (index error) or an empty answer (no such element); otherwise it keeps the length, puts the answer's last letter at the last index and leaves the rest unchanged |
| `Game.GetRandomIndexAndSubstring` | app/src/main/java/com/example/unscramble/ui/GameViewModel.kt:127-137 | succeeds exactly for inputs of length at least 3, with an index in 1..n-2 and that index's letter; shorter inputs raise an illegal-argument error |
| `Game.RevealSlot` | app/src/main/java/com/example/unscramble/ui/GameViewModel.kt:148 | succeeds exactly when slot 2i lies inside the mask; a one-letter text then replaces index 2i and leaves every other index unchanged |
| `Game.FirstCharKeepsMaskedView` | app/src/main/java/com/example/unscramble/ui/GameViewModel.kt:120-122 | on a masked view of the answer the first-letter hint succeeds and yields a masked view again |
| `Game.LastCharKeepsMaskedView` | app/src/main/java/com/example/unscramble/ui/GameViewModel.kt:123-125 | on a masked view of the answer the last-letter hint succeeds and yields a masked view again |
| `Game.RandomCharKeepsMaskedView` | app/src/main/java/com/example/unscramble/ui/GameViewModel.kt:146-152 | on a masked view of an answer of length 3 or more the random hint cannot fail and yields a masked view again |
| `Game.NextRound` | app/src/main/java/com/example/unscramble/ui/GameViewModel.kt:82-94 | the new-round copy clears all guess and hint flags, shows the new scramble with a blank mask of its length, counts one more word, sets the given score, and keeps lives and game over |
| `Game.GameViewModel.constructor` | app/src/main/java/com/example/unscramble/ui/GameViewModel.kt:20-31 | a new view model holds exactly one used word, shows its scramble in the default snapshot, and has an empty guess |
| `Game.GameViewModel.ResetGame` | app/src/main/java/com/example/unscramble/ui/GameViewModel.kt:33-36 | the used words become exactly the new answer, and the snapshot is the default one for its scramble |
| `Game.GameViewModel.PickRandomWordAndShuffle` | app/src/main/java/com/example/unscramble/ui/GameViewModel.kt:47-56 | the chosen word is from the bank and was unused; the used words grow by exactly that word; the result is a scramble of it |
| `Game.GameViewModel.UpdateUserGuess` | app/src/main/java/com/example/unscramble/ui/GameViewModel.kt:57-59 | stores the guess |
| `Game.GameViewModel.CheckUserGuess` | app/src/main/java/com/example/unscramble/ui/GameViewModel.kt:60-76 | a mismatch only raises the wrong flag. A match with lives left adds the score increase and starts a new round with a fresh word. A match with no lives left only raises the correct flag. The guess is always cleared |
| `Game.GameViewModel.UpdateGameState` | app/src/main/java/com/example/unscramble/ui/GameViewModel.kt:77-96 | with lives left it draws an unused word and starts a new round with the given score; otherwise nothing changes |
| `Game.GameViewModel.SkipWord` | app/src/main/java/com/example/unscramble/ui/GameViewModel.kt:97-111 | the score is unchanged and lives drop by exactly one. The game is over exactly when it already was or the lives reach 0. With lives left a new round starts; without, the answer stays revealed |
| `Game.GameViewModel.CorrectWord` | app/src/main/java/com/example/unscramble/ui/GameViewModel.kt:113-115 | the mask is replaced by the answer and nothing else changes |
| `Game.GameViewModel.HintFirstChar` | app/src/main/java/com/example/unscramble/ui/GameViewModel.kt:138-141 | the answer's first letter appears at index 0, all other slots and the length are kept, the score drops by 5, and the first-hint flag is set |
| `Game.GameViewModel.HintLastChar` | app/src/main/java/com/example/unscramble/ui/GameViewModel.kt:142-145 | the answer's last letter appears at the last index, all other slots and the length are kept, the score drops by 5, and the last-hint flag is set |
| `Game.GameViewModel.HintRandomChar` | app/src/main/java/com/example/unscramble/ui/GameViewModel.kt:146-152 | the answer's letter i (1 <= i <= n-2) appears at index 2i, all other slots and the length are kept, the score drops by 5, and the random-hint flag is set; it throws and changes nothing for answers shorter than 3 |
| `Scenarios.ThreeSkipsEndTheGame` | app/src/main/java/com/example/unscramble/ui/GameViewModel.kt:97-111 | from a fresh game three skips give 0 lives and game over, with score 0, word count 4 and four distinct used words |
| `Scenarios.HintsThenCorrectGuess` | app/src/main/java/com/example/unscramble/ui/GameViewModel.kt:138-145 | first- and last-letter hints cost 10 points and reveal both end letters; a correct guess then adds the increase and starts round 2 with every flag cleared |

## Left out

- Coroutine timing in `skipWord` (`viewModelScope.launch`, `delay(1500)`): a skip is one atomic step. Hints or guesses that interleave during the delay are not modelled.
- The random generators themselves: the outcomes of `allWords.random()`, `shuffle()` and `Random.nextInt` are parameters. Nothing is said about their distribution.
- Termination of the retry recursion and of the reshuffle loop is not proved for the real generators. Each run is bounded by its finite `Draw`. `ExhaustedBankHasNoDraw` shows that no draw exists once the bank is used up.
- `Kotlin.TrimSpec` and the case helpers: only the ASCII white-space characters (tab through carriage return, U+001C..U+001F, space) and ASCII letters are modelled, not the Unicode space separators of `isWhitespace` or Unicode case mapping.
- Recursion depth: the retry recursion of `pickRandomWordAndShuffle` is not a tail call the runtime removes, so a long run of used picks can overflow the stack. The model does not bound recursion depth: a `Draw` may hold any number of picks.
- An empty bank: `allWords.random()` throws `NoSuchElementException`. Every operation that draws requires a draw, and an empty bank has none, so this exception is not modelled.
- `Game.RevealSlot`: `index * 2` is computed on unbounded integers. The index is below the answer's length, so it cannot overflow here.
- `lateinit` access before initialisation, `StateFlow`/`mutableStateOf` publication, the `ViewModel` lifecycle, and logging are not modelled.
- The data module (`allWords`, `SCORE_INCREASE`, `MAX_NO_OF_WORDS`) is not part of this model. The first two are constructor parameters; `MAX_NO_OF_WORDS` is unused by the view model.
- GameScreen.kt is not part of this model, including its "one hint of each kind per round" button guard. The view model itself charges every hint call.
- In these places the code does not do what a player might expect, and the model follows the code:
  - one might expect guesses to be ignored after game over; the code does not ignore them. A wrong guess still raises `isGuessedWordWrong`, and a right one raises `isGuessedWordTrue`, which then stays set.
  - one might expect a reset to draw a word not played before; `resetGame` clears the used words before drawing, so the new word may be one already played.
  - a skip with no lives left still decrements the lives, below 0, and leaves the answer revealed in the mask.
- `Game.GameViewModel.HintRandomChar`: `MaskedView` is guaranteed only when the mask was a masked view before. After a skip at 0 lives the mask holds the answer itself, and the hint writes the letter at index 2i of that shorter string.
