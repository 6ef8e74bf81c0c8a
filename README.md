# Geez Bingo client core, modelled in Dafny

This project models the browser-side game engine of the Geez Bingo Telegram
web app (`GameManager` in `js/game.js`) and the small pure pieces of the
application shell (`GeezBingoApp` in `js/app.js`) that decide something rather
than draw it.

- **CardGenerator** (`card_generator.dfy`) covers the seeded number generator
  `generateBingoNumber` and the card generator `generateBingoCard`.
  - The linear-congruential recurrence `(seed * 9301 + 49297) % 233280` is
    scaled into a letter's range: B 1-15, I 16-30, N 31-45, G 46-60, O 61-75.
  - Each column is drawn, deduplicated and sorted numerically.
  - The generator as written never finishes (see Findings), so it appears
    twice: once as written, proved to diverge, and once corrected, proved to
    finish and to give a well-formed card.
- **PatternDetector** (`pattern_detector.dfy`) covers the five pattern
  checkers and the precedence `checkForBingo` applies to them.
  - The checkers are horizontal lines, vertical lines, diagonals, four corners
    and full house. The centre cell is free.
  - Each checker is proved equal to a reference definition: the first complete
    shape of its group. Their combination is proved equal to the first
    complete shape in overall precedence order.
  - `formatPattern` is included.
- **GameEngine** (`game_manager.dfy`) has the class `GameManager`, with the
  fields the engine updates in place:
  - phase, current game, selected card, grid, marked numbers (a JavaScript
    `Set`, kept as an insertion-ordered sequence without repeats), called
    numbers, winning pattern, winners, next game id, auto-mark setting and
    player statistics.
  - Socket emits are appended to an `outbox`.
  - Every method is proved to produce the state that a transition function of
    the old state describes. The properties are proved about those functions.
- **AppShell** (`app_shell.dfy`) has the class `GeezBingoApp`:
  - the card-list filter, the time-left clamp and the quick-play pick;
  - the claim guard, and the selection and reset of the shell's own game state.
  - The shell's card-selection and claim requests are appended to
    `requests`. Each server answer is a parameter, and an accepted claim adds
    its prize to `balance`.

JavaScript's unset values are written as the falsy value of the field's type:
- `selectedCard == 0` means no card is selected;
- an empty game id means an undefined one.

JavaScript's `%` truncates toward zero. It is modelled by `JsRem`.

## Model

| member | source | states |
|---|---|---|
| CardGenerator.LetterRange | js/game.js:494-500 | each of the five letters has its range; letter `Letters[col]` ranges over 15·col+1 .. 15·col+15 |
| CardGenerator.JsRem | js/game.js:507 | JavaScript `%`: equal to the mathematical remainder for a non-negative dividend, in (-b, 0] for a negative one |
| CardGenerator.JsRemOdd | js/game.js:507 | the truncating remainder of a negative dividend is minus that of its absolute value, which fixes its value |
| CardGenerator.GenerateBingoNumber | js/game.js:493-513 | an unknown letter gives 0; a seed of 0 is falsy and leaves the deterministic path; for seeds from -5 up the number lies in the letter's range |
| CardGenerator.Draw | js/game.js:505-508 | a draw lies in its column's range |
| CardGenerator.DrawIsGenerated | js/game.js:505-508 | `generateBingoNumber(letter, cardNumber + col + k)` returns exactly the level-based draw: the bucket is the level mod 15 |
| CardGenerator.LevelGrowth | js/game.js:507-508 | the recurrence level is monotone in the seed, and grows by at most 1 per step, at most 2 per 3 steps and 4 to 5 per 7 steps |
| CardGenerator.Insert | js/game.js:486 | insertion keeps every element and adds one |
| CardGenerator.InsertKeepsOrder | js/game.js:486 | inserting into an ascending column keeps it ascending, strictly so for a new number |
| CardGenerator.Sort | js/game.js:486 | `sort((a, b) => a - b)` is a permutation |
| CardGenerator.SortOrders | js/game.js:486 | the sorted column is ascending, and strictly ascending when its numbers are distinct |
| CardGenerator.ColumnLoopExitsIff | js/game.js:479-484 | the column loop as written exits iff the five seeds `cardNumber + col + 0..4` give five distinct numbers |
| CardGenerator.SeededColumnRepeats | js/game.js:479-484 | for every card number from 1 up, two of those five seeds give the same number |
| CardGenerator.ColumnLoopNeverExits | js/game.js:479-484 | hence the column loop as written never exits, for any card number from 1 up |
| CardGenerator.CardOneColumnB | js/game.js:479-484 | card 1, column B: seeds 1, 2, 3 draw 4, 5, 5 |
| CardGenerator.ColumnLoop | js/game.js:479-484 | the column loop as written exits iff its seeds give five distinct numbers, and then holds exactly the first five draws |
| CardGenerator.GenerateBingoCard | js/game.js:469-491 | as written: yields a grid iff every column loop exits, each column the sorted first five draws; otherwise names the first column that spins forever |
| CardGenerator.Dedup | js/game.js:481-483 | keeping only new numbers yields a repeat-free list with the same members |
| CardGenerator.DedupStep | js/game.js:479-484 | with the seed advancing per attempt, one more attempt adds a distinct number exactly when the level rises |
| CardGenerator.DedupLength | js/game.js:479-484 | with the seed advancing per attempt, the distinct draws after a attempts number one more than the rise of the level |
| CardGenerator.DedupCoversFive | js/game.js:479-484 | eight attempts always yield five distinct numbers |
| CardGenerator.CorrectedColumnOk | js/game.js:476-487 | a corrected column holds five distinct numbers of its range, ascending |
| CardGenerator.CorrectedCardWellFormed | js/game.js:469-491 | every corrected card has five well-formed columns |
| CardGenerator.CorrectedColumnLoop | js/game.js:479-484 | the corrected column loop finishes within eight attempts with the first five distinct draws |
| CardGenerator.CorrectedSortedColumn | js/game.js:479-487 | one corrected column: the first five distinct draws, sorted numerically |
| CardGenerator.GenerateBingoCardCorrected | js/game.js:469-491 | the corrected generator returns a well-formed card that depends only on the card number |
| PatternDetector.CompleteIffMarkedExceptCentre | js/game.js:1123-1262 | a shape is complete iff every cell it covers, except the free centre, holds a marked number |
| PatternDetector.FullHouseCompleteIff | js/game.js:1245-1262 | full house is complete iff all 24 non-centre numbers are marked |
| PatternDetector.FirstWhere | js/game.js:558 | the first element passing a test: none iff no element passes |
| PatternDetector.FirstPatternNone | js/game.js:1123-1262 | a checker reports nothing iff no shape of its group is complete |
| PatternDetector.FirstPatternAt | js/game.js:1123-1262 | when shape i is complete and no earlier one is, a checker reports shape i's name and numbers |
| PatternDetector.ScanLine | js/game.js:1125-1137 | a checker's inner loop collects the numbers of the visited cells in order, skipping the centre, and flags exactly whether all are marked |
| PatternDetector.ScanLines | js/game.js:1124-1146 | the outer loop over a group of lines returns at the first complete line with its name and numbers, and null when none is complete |
| PatternDetector.CornerNumbers | js/game.js:1226-1231 | the four corners, in the order the checker lists them: top-left, top-right, bottom-left, bottom-right |
| PatternDetector.CheckHorizontalLines | js/game.js:1123-1147 | reports the first complete row, top to bottom, with its name and numbers, or nothing when no row is complete |
| PatternDetector.CheckVerticalLines | js/game.js:1149-1175 | reports the first complete column, B to O, or nothing |
| PatternDetector.CheckDiagonals | js/game.js:1177-1223 | reports the main diagonal if complete, else the anti-diagonal if complete, else nothing |
| PatternDetector.CheckFourCorners | js/game.js:1225-1243 | reports the four corners iff all four are marked |
| PatternDetector.CheckFullHouse | js/game.js:1245-1262 | reports the whole marked list iff every non-centre number is marked |
| PatternDetector.FirstFound | js/game.js:558 | `find(p => p !== null)`: nothing iff every result is null, otherwise one of them |
| PatternDetector.CheckOrderIsPrecedence | js/game.js:543-573 | the first non-null checker result is the pattern of the first complete shape in the order rows, columns, main diagonal, anti-diagonal, corners, full house |
| PatternDetector.FindWinningPattern | js/game.js:546-558 | running the five checkers in order and taking the first non-null result gives the first complete shape in precedence order |
| PatternDetector.FullHouseShadowedByTopLine | js/game.js:550-558 | a completed full house is never what a check reports: the top line wins |
| PatternDetector.FormatPattern | js/game.js:998-1017 | a known pattern name gets its non-empty label; any other name is shown as is |
| PatternDetector.EveryReportedNameHasLabel | js/game.js:998-1017 | every name a checker can report has a label different from the name |
| GameEngine.Remove | js/game.js:533 | `Set.delete`: removes exactly the number and keeps the set repeat-free |
| GameEngine.WinnerByUserId | js/game.js:1314-1326 | `some`/`find`: none iff no winner has the user's id, otherwise the first winner in the list that has it |
| GameEngine.WinnerByTelegramId | js/game.js:352-356 | `some`/`find`: none iff no winner has the user's Telegram id, otherwise the first winner that has it |
| GameEngine.StatsUpdatesPreserveValid | js/game.js:1309-1350 | both statistics updates keep 0 ≤ current streak ≤ best streak ≤ games won ≤ games played |
| GameEngine.RecordGame | js/game.js:1311-1332 | the field-by-field updates of `updatePlayerStats` produce the after-game statistics and keep the invariant |
| GameEngine.LossResetsStreak | js/game.js:1311-1332 | a game not won counts as played, resets the streak, and leaves wins and winnings alone |
| GameEngine.WinUpdatesAgree | js/game.js:1309-1350 | a won game counts the same through either update |
| GameEngine.WinCountedTwice | js/game.js:320-359 | a win reported by both the game-ended event and the winner announcement is counted twice, games played included |
| GameEngine.CheckedMeans | js/game.js:543-573 | the check runs only with a selected card and five marks, never clears a pattern, changes nothing else, and records exactly the first complete pattern |
| GameEngine.MarkIdempotent | js/game.js:515-524 | marking a number twice is marking it once |
| GameEngine.MarkAddsOnlyCardNumbers | js/game.js:515-524 | a number is added iff it is on the card outside the centre and not yet marked; nothing else changes but the pattern |
| GameEngine.ToggleFlips | js/game.js:526-541 | the free cell is ignored; otherwise the cell's number changes membership and every other number keeps it |
| GameEngine.ToggleTwiceRestoresMarks | js/game.js:526-541 | toggling a cell twice restores the set of marked numbers |
| GameEngine.ClearedResetsBingo | js/game.js:1077-1093 | clearing leaves no marks and no pattern, and a check right after finds nothing |
| GameEngine.ClaimSendsOne | js/game.js:575-597 | a claim is sent, once, iff a card is selected and a pattern recorded; it carries that card, name and numbers |
| GameEngine.NumberCalledAppends | js/game.js:285-318 | every call is appended unchecked; with auto-mark on and a card selected a number on the card becomes marked, otherwise marks are untouched |
| GameEngine.GeneratedCardCellsDistinct | js/game.js:469-491 | on a generated card every number sits in exactly one cell |
| GameEngine.CardSelectedMeans | js/game.js:1372-1397 | selecting installs the generated, well-formed card, keeps the marks, and emits one selection naming the current or next game |
| GameEngine.GameManager.constructor | js/game.js:7-47 | a fresh engine is idle, with no card, no marks, auto-mark on and zero counters |
| GameEngine.GameManager.CheckForBingo | js/game.js:543-573 | calling the five checkers and taking the first result yields the reference check; the invariant is kept |
| GameEngine.GameManager.MarkNumberOnCard | js/game.js:515-524 | the state becomes the reference marking; the marked set stays repeat-free |
| GameEngine.GameManager.ToggleNumberMark | js/game.js:526-541 | the state becomes the reference toggle; the marked set stays repeat-free |
| GameEngine.GameManager.ClearAllMarks | js/game.js:1077-1093 | marks and pattern are cleared, nothing else changes |
| GameEngine.GameManager.ClaimBingo | js/game.js:575-597 | the state becomes the reference claim |
| GameEngine.GameManager.SelectCard | js/game.js:1372-1397 | the state becomes the reference selection, with the grid from the corrected generator |
| GameEngine.GameManager.JoinGame | js/game.js:1425-1429 | emits one join with the default bet of 10 |
| GameEngine.GameManager.QuickPlay | js/game.js:1414-1423 | selects the drawn card only when none is selected, and joins only when there is no current game |
| GameEngine.GameManager.ToggleAutoMark | js/game.js:1095-1105 | flips auto-mark, nothing else |
| GameEngine.GameManager.HandleGameState | js/game.js:227-243 | takes the phase and game verbatim, nothing else changes |
| GameEngine.GameManager.HandleGameCountdown | js/game.js:245-258 | the phase becomes countdown, nothing else changes |
| GameEngine.GameManager.HandleGameStarted | js/game.js:260-283 | the phase becomes active, the game is stored, and marks and pattern are cleared |
| GameEngine.GameManager.HandleNumberCalled | js/game.js:285-318 | the state becomes the reference call handling: append, auto-mark, check |
| GameEngine.GameManager.HandleGameEnded | js/game.js:320-345 | announcing phase; winners default to empty; the game records end time and winners; one game is counted, won iff the user is among the winners |
| GameEngine.GameManager.HandleWinnerAnnouncement | js/game.js:347-359 | missing winners throw and change nothing; otherwise a win is counted, with the first matching winner's prize, iff the user's Telegram id is among the announced winners |
| GameEngine.GameManager.HandleCardSelectionStarted | js/game.js:361-375 | the phase becomes card selection and the next game id is stored |
| GameEngine.GameManager.HandleReconnect | js/game.js:417-423 | emits one game-state request |
| GameEngine.GameManager.UpdatePlayerStats | js/game.js:1309-1336 | statistics become the after-game update for whether the user's id is among the winners, keeping the invariant |
| GameEngine.GameManager.UpdateStatsAfterWin | js/game.js:1338-1350 | statistics become the after-win update, keeping the invariant |
| AppShell.ContainsIff | js/app.js:362 | the recursive `includes` holds iff the term occurs at some offset of the card number |
| AppShell.EmptySearchShowsAll | js/app.js:362-363 | an empty search with the `all` filter shows every card |
| AppShell.StatusFiltersPartition | js/app.js:360-363 | among matching cards each is shown under exactly one of `taken` and `available` |
| AppShell.UnknownFilterHidesAll | js/app.js:363 | any other filter value hides every card |
| AppShell.PrefixMatches | js/app.js:362 | a search term that is a prefix of the card number always matches |
| AppShell.TimeLeft | js/app.js:557 | whole seconds left: never negative, the floor of the remaining milliseconds / 1000 when positive, zero iff under a second remains |
| AppShell.TimeLeftMonotone | js/app.js:557 | time left never grows as the clock advances |
| AppShell.FirstAvailable | js/app.js:421 | the position of the first available card; none iff no card is available |
| AppShell.QuickPlayPicksFirstAvailable | js/app.js:417-432 | the selection quick play sends names the first available card, with the user and the current game |
| AppShell.SelectionKeptOnSuccess | js/app.js:389-395 | an accepted selection stores the game and the card, although `selectCard` then throws |
| AppShell.ClaimCreditsOnlyAcceptedPrize | js/app.js:468-503 | a claim is sent iff there is a game; the balance moves only for an accepted claim, by exactly its prize; nothing else changes |
| AppShell.GeezBingoApp.constructor | js/app.js:14-23 | a shell after start-up has no game and no cards, with the signed-in user and the loaded balance |
| AppShell.GeezBingoApp.FilterCards | js/app.js:354-371 | each card is shown iff it passes the search and the status filter; nothing else changes |
| AppShell.GeezBingoApp.HandleGameState | js/app.js:546-560 | stores the game; a time left is shown iff the game's end time is present and not falsy (not 0), and is then the clamp |
| AppShell.GeezBingoApp.HandleGameEnded | js/app.js:586-593 | the shell forgets the game |
| AppShell.GeezBingoApp.ClaimBingo | js/app.js:468-503 | warns iff there is no game, and then changes nothing; otherwise the state becomes the reference claim outcome: one claim for the current game, and the prize credited iff accepted |
| AppShell.GeezBingoApp.SelectCard | js/app.js:373-415 | always throws: sends the selection, on success stores the game and card, and never reaches the join |
| AppShell.GeezBingoApp.QuickPlay | js/app.js:417-432 | selects the first available card, or changes nothing when none is available |

## Left out

- Rendering, the DOM, sounds, notifications, toasts, modals and CSS classes are not modelled. They do not affect the engine's state.
- Timers are not modelled: next call, selection countdown, game duration, `clearAllTimers`.
- Socket and HTTP transport are not modelled. Emits and requests are appended to `outbox` and `requests`. Server answers are method parameters.
- `Math.random` is not modelled:
  - The unseeded branch of `generateBingoNumber` is `None` (seed 0).
  - `initializeBingoCard`'s random grid is the constructor's parameter.
  - `selectRandomCard`'s draw is `QuickPlay`'s `randomCard` parameter.
- Loading the user's data (`loadUserData` and `syncUserData`, js/app.js:72-96, 128-153) is abstracted: the shell's constructor takes the signed-in user and the resulting balance (1000 in demo mode, else the server's balance or 0) as parameters.
- `localStorage` loading and saving of settings and statistics is not modelled.
- The floating-point win rate shown with the statistics is not modelled.
- GenerateBingoNumber: the float expression `Math.floor((random / 233280) * width)` is modelled as the integer quotient `(random * width) / 233280`. They agree except where rounding of the float division would cross an integer, which the model does not capture.
- Cell highlighting: the engine marks a cell by its CSS class and reads the grid back from the DOM (`getCardNumbers`). The model identifies a marked cell with its number being in the marked set and uses the grid directly. These differ when a number appears in two cells and when `selectCard` replaces the grid without clearing marks. Two cells cannot share a number on a card from the seeded generator (`GeneratedCardCellsDistinct`). They can on the initial grid, whose cells come from unseeded draws with no duplicate check (js/game.js:446-448) and are clickable: toggling one such cell shows the model's mark on both.
- `showBingoCelebration` returning early when its container element is missing: the win is always counted.
- An undefined `prizeAmount` (which makes the total NaN in `updateStatsAfterWin`): prizes are integers.
- The shell calls engine methods the engine does not define: `initializeCard`, `markNumber`, `reset`, `clearMarks`, `setAutoMark`. The model stops where such a call throws, so `GeezBingoApp.SelectCard` always ends by throwing and `GeezBingoApp.HandleGameEnded` ends after forgetting the game.
- UI-only handlers are not modelled: `handleCardSelectionUpdate`, `handlePlayerJoined`, `handleBingoClaimed`, `handleDisconnect`, and the shell's handler for drawn numbers.
- The shell's celebration after an accepted claim is display only and is not modelled; the balance update is (`ClaimOutcome`). An undefined `prizeAmount` in the answer would make the balance NaN; prizes are integers here.
- The shell's `joinGame` request is not modelled: its only caller, `selectCard`, always throws before reaching it.
- The GET request of `loadAvailableCards` (js/app.js:312-321) is not appended to `requests`. Its answer is `QuickPlay`'s `available` parameter, and a failed load is not modelled.
- `filterCards` computes a lower-cased copy of the search term and never uses it; the search is case-sensitive.
- `formatPattern` looks labels up in an object literal, so inherited property names such as `constructor` would also hit; the model's label table has only the fourteen pattern names.
- CardGenerator.LetterRange: the source looks the letter up in an object literal, so inherited property names such as `constructor` or `__proto__` also find a (non-range) value there. The model gives them no range.
- CardGenerator.GenerateBingoNumber: for such an inherited name the source computes NaN; the model returns `Some(0)`, as for any other unknown letter. The engine only ever passes `B`, `I`, `N`, `G` and `O`.
- GameEngine.GameManager.SelectCard: models the intended selection, installing the grid of the corrected generator. As written, `selectCard` calls `generateBingoCard`, which never returns for any card number from 1 up (`ColumnLoopNeverExits`), so the grid change and the `select_card` emit never happen in the source.
- GameEngine.GameManager.QuickPlay: with no card selected it goes through the intended `SelectCard` above. As written, that call never returns, so neither the selection nor the following `joinGame` happens in the source.
- GameEngine.GameManager.SelectCard: card numbers below 1 are excluded. The only caller draws from 1 to 400, and seed 0 would take the random path.

## Findings

| source | as written | input that shows it | evidently intended | confidence | as-written member | corrected member |
|---|---|---|---|---|---|---|
| js/game.js:479-484 | the seed is `cardNumber + col + column.length`, so a rejected duplicate leaves the loop state unchanged and every later iteration draws the same duplicate: the loop never exits | card 1, column B: seeds 1, 2, 3 draw 4, 5, 5, and the third draw repeats forever (`CardOneColumnB`); every card number from 1 up has such a column (`ColumnLoopNeverExits`) | the seed advances on every attempt (`cardNumber + col + attempt`), so duplicates are skipped and the column fills | not executed | CardGenerator.GenerateBingoCard | CardGenerator.GenerateBingoCardCorrected |

The corrected generator is the one `GameEngine.GameManager.SelectCard` uses. It finishes within eight attempts per column and yields a well-formed card (`CorrectedColumnLoop`, `CorrectedCardWellFormed`). The intent is evident in the source itself: the loop is headed "Generate 5 unique numbers for this column" and skips duplicates (js/game.js:478-483), which only makes sense if a later attempt can draw a different number. The code seeds by the column's current length, so it cannot. `GenerateBingoCard` follows the code, and the corrected member follows that intent.
