/** The client-side game engine: the state a `GameManager` keeps, the handlers
    that change it, and the player statistics.

    Every outbound socket message is appended to `outbox` instead of being sent.
    JavaScript's "unset" values are written as the falsy value of the field's
    type: `selectedCard == 0` is "no card selected", an empty game id is an
    undefined one. */
module GameEngine {
  import opened Wrappers
  import opened PatternDetector
  import CardGenerator

  /** An entry of `calledNumbers` (the wall-clock timestamp is not kept). */
  datatype Call = Call(number: int, letter: string, callNumber: int)

  /** A winner as the server reports it. */
  datatype Winner = Winner(userId: string, telegramId: string, prizeAmount: int)

  /** The fields of the current game the engine reads or writes. */
  datatype GameInfo = GameInfo(gameId: string, endTime: Option<int>, winners: seq<Winner>)

  datatype Stats = Stats(gamesPlayed: int, gamesWon: int, totalWinnings: int, currentStreak: int, bestStreak: int)

  /** An outbound socket message. */
  datatype Intent =
    | SelectCardEvent(cardNumber: int, gameId: string)
    | ClaimBingoEvent(gameId: string, cardNumber: int, winningPattern: string, winningNumbers: seq<int>)
    | JoinGameEvent(betAmount: int)
    | GetGameStateEvent

  /** The default bet `joinGame` sends. */
  const DefaultBet := 10

  /** The whole engine state, as one value. */
  datatype State = State(
    gamePhase: string,
    currentGame: Option<GameInfo>,
    selectedCard: int,
    grid: seq<seq<int>>,
    markedNumbers: seq<int>,
    calledNumbers: seq<Call>,
    winningPattern: Option<Pattern>,
    winners: seq<Winner>,
    nextGameId: string,
    autoMark: bool,
    stats: Stats,
    outbox: seq<Intent>)

  // ---------------------------------------------------------------------------
  // The marked set: a JavaScript `Set`, iterated in insertion order.

  /** `Set.prototype.delete`. */
  function Remove(s: seq<int>, x: int): (r: seq<int>)
    ensures forall y :: y in r <==> y in s && y != x
    ensures CardGenerator.Distinct(s) ==> CardGenerator.Distinct(r)
  {
    if s == [] then []
    else
      var rest := Remove(s[1..], x);
      assert forall y :: y in s <==> y == s[0] || y in s[1..];
      assert CardGenerator.Distinct(s) ==> CardGenerator.Distinct(s[1..]) && s[0] !in s[1..] by {
        assert forall k :: 0 <= k < |s| - 1 ==> s[1..][k] == s[k + 1];
      }
      PrependFresh(s[0], rest);
      if s[0] == x then rest else [s[0]] + rest
  }

  lemma PrependFresh(x: int, s: seq<int>)
    ensures CardGenerator.Distinct(s) && x !in s ==> CardGenerator.Distinct([x] + s)
  {
    if CardGenerator.Distinct(s) && x !in s {
      forall i, j | 0 <= i < j < |[x] + s| ensures ([x] + s)[i] != ([x] + s)[j] {
        if i > 0 {
          assert ([x] + s)[i] == s[i - 1] && ([x] + s)[j] == s[j - 1];
        } else {
          assert ([x] + s)[j] == s[j - 1];
        }
      }
    }
  }

  /** The number appears in a cell of the grid other than the free centre:
      a cell `markNumberOnCard` can find. */
  predicate OnCard(grid: seq<seq<int>>, n: int)
    requires ValidGrid(grid)
  {
    exists c, r :: 0 <= c < 5 && 0 <= r < 5 && !(c == 2 && r == 2) && grid[c][r] == n
  }

  // ---------------------------------------------------------------------------
  // State transitions, as functions of the state before.

  /** `checkForBingo`: with a card selected and at least five numbers marked,
      records the first winning pattern; never clears an earlier one. */
  function Checked(st: State): State
    requires ValidGrid(st.grid)
  {
    if st.selectedCard == 0 || |st.markedNumbers| < 5 then st
    else
      match Evaluate(st.grid, st.markedNumbers)
      case None => st
      case Some(p) => st.(winningPattern := Some(p))
  }

  /** `markNumberOnCard`. */
  function MarkedOnCard(st: State, n: int): State
    requires ValidGrid(st.grid)
  {
    if OnCard(st.grid, n) && n !in st.markedNumbers then Checked(st.(markedNumbers := st.markedNumbers + [n]))
    else st
  }

  /** `toggleNumberMark` on the cell at (col, row). */
  function Toggled(st: State, col: Index, row: Index): State
    requires ValidGrid(st.grid)
  {
    if Cell(col, row) == Free then st
    else
      var n := st.grid[col][row];
      var marked := if n in st.markedNumbers then Remove(st.markedNumbers, n) else st.markedNumbers + [n];
      Checked(st.(markedNumbers := marked))
  }

  /** `clearAllMarks`. */
  function Cleared(st: State): State
  {
    st.(markedNumbers := [], winningPattern := None)
  }

  /** `this.currentGame?.gameId`. */
  function CurrentGameId(game: Option<GameInfo>): string
  {
    if game.Some? then game.value.gameId else ""
  }

  /** `claimBingo`. */
  function Claimed(st: State): State
  {
    if st.selectedCard == 0 || st.winningPattern.None? then st
    else
      var claim := ClaimBingoEvent(CurrentGameId(st.currentGame), st.selectedCard,
                                   st.winningPattern.value.pattern, st.winningPattern.value.numbers);
      st.(outbox := st.outbox + [claim])
  }

  /** `this.currentGame?.gameId || this.nextGameId`. */
  function SelectionGameId(st: State): string
  {
    var current := CurrentGameId(st.currentGame);
    if current != "" then current else st.nextGameId
  }

  /** `selectCard`: the grid becomes the card generated for the number. */
  function CardSelected(st: State, cardNumber: int): State
    requires cardNumber >= 1
  {
    st.(selectedCard := cardNumber, grid := CardGenerator.CorrectedCard(cardNumber),
        outbox := st.outbox + [SelectCardEvent(cardNumber, SelectionGameId(st))])
  }

  /** `handleNumberCalled`. */
  function NumberCalled(st: State, call: Call): State
    requires ValidGrid(st.grid)
  {
    var appended := st.(calledNumbers := st.calledNumbers + [call]);
    var marked := if appended.autoMark && appended.selectedCard != 0 then MarkedOnCard(appended, call.number)
                  else appended;
    Checked(marked)
  }

  // ---------------------------------------------------------------------------
  // Player statistics.

  /** What both updates maintain, starting from the all-zero counters. */
  predicate StatsValid(s: Stats)
  {
    0 <= s.currentStreak <= s.bestStreak <= s.gamesWon <= s.gamesPlayed
  }

  /** `updatePlayerStats`: one more game played; a win extends the streak and
      adds the prize (a zero prize is falsy and adds nothing either way), a
      loss resets the streak. */
  function AfterGame(s: Stats, won: bool, prize: int): Stats
  {
    if won then
      var streak := s.currentStreak + 1;
      Stats(s.gamesPlayed + 1, s.gamesWon + 1, s.totalWinnings + prize, streak,
            if streak > s.bestStreak then streak else s.bestStreak)
    else
      s.(gamesPlayed := s.gamesPlayed + 1, currentStreak := 0)
  }

  /** `updateStatsAfterWin`. */
  function AfterWin(s: Stats, prize: int): Stats
  {
    var streak := s.currentStreak + 1;
    Stats(s.gamesPlayed + 1, s.gamesWon + 1, s.totalWinnings + prize, streak,
          if streak > s.bestStreak then streak else s.bestStreak)
  }

  /** The first winner with the given user id (`winners.find(w => w.userId === id)`). */
  function WinnerByUserId(winners: seq<Winner>, id: string): (r: Option<Winner>)
    ensures r.None? <==> forall i :: 0 <= i < |winners| ==> winners[i].userId != id
    ensures r.Some? ==> r.value in winners && r.value.userId == id
    ensures r.Some? ==> exists i :: 0 <= i < |winners| && winners[i] == r.value
                                   && forall j :: 0 <= j < i ==> winners[j].userId != id
  {
    if winners == [] then None
    else if winners[0].userId == id then Some(winners[0])
    else
      var r := WinnerByUserId(winners[1..], id);
      assert forall i :: 1 <= i < |winners| ==> winners[i] == winners[1..][i - 1];
      r
  }

  /** The first winner with the given Telegram id. */
  function WinnerByTelegramId(winners: seq<Winner>, id: string): (r: Option<Winner>)
    ensures r.None? <==> forall i :: 0 <= i < |winners| ==> winners[i].telegramId != id
    ensures r.Some? ==> r.value in winners && r.value.telegramId == id
    ensures r.Some? ==> exists i :: 0 <= i < |winners| && winners[i] == r.value
                                   && forall j :: 0 <= j < i ==> winners[j].telegramId != id
  {
    if winners == [] then None
    else if winners[0].telegramId == id then Some(winners[0])
    else
      var r := WinnerByTelegramId(winners[1..], id);
      assert forall i :: 1 <= i < |winners| ==> winners[i] == winners[1..][i - 1];
      r
  }

  /** Both updates keep the counters consistent. */
  lemma StatsUpdatesPreserveValid(s: Stats, won: bool, prize: int)
    requires StatsValid(s)
    ensures StatsValid(AfterGame(s, won, prize))
    ensures StatsValid(AfterWin(s, prize))
  {
  }

  /** The counter updates of `updatePlayerStats`, field by field as the source
      makes them. */
  method RecordGame(s: Stats, won: bool, prize: int) returns (t: Stats)
    ensures t == AfterGame(s, won, prize)
    ensures StatsValid(s) ==> StatsValid(t)
  {
    t := s.(gamesPlayed := s.gamesPlayed + 1);
    if won {
      t := t.(gamesWon := t.gamesWon + 1, currentStreak := t.currentStreak + 1);
      if t.currentStreak > t.bestStreak {
        t := t.(bestStreak := t.currentStreak);
      }
      if prize != 0 {
        t := t.(totalWinnings := t.totalWinnings + prize);
      }
    } else {
      t := t.(currentStreak := 0);
    }
  }

  /** A game not won resets the streak and leaves wins and winnings alone. */
  lemma LossResetsStreak(s: Stats, prize: int)
    ensures AfterGame(s, false, prize).currentStreak == 0
    ensures AfterGame(s, false, prize).gamesWon == s.gamesWon
    ensures AfterGame(s, false, prize).totalWinnings == s.totalWinnings
    ensures AfterGame(s, false, prize).gamesPlayed == s.gamesPlayed + 1
  {
  }

  /** A won game counts the same through either update. */
  lemma WinUpdatesAgree(s: Stats, prize: int)
    ensures AfterGame(s, true, prize) == AfterWin(s, prize)
  {
  }

  /** A win reported both by the game-ended event and by the winner
      announcement is counted twice. */
  lemma WinCountedTwice(s: Stats, prize: int)
    ensures AfterWin(AfterGame(s, true, prize), prize).gamesPlayed == s.gamesPlayed + 2
    ensures AfterWin(AfterGame(s, true, prize), prize).gamesWon == s.gamesWon + 2
    ensures AfterWin(AfterGame(s, true, prize), prize).totalWinnings == s.totalWinnings + 2 * prize
  {
  }

  // ---------------------------------------------------------------------------
  // Properties of the transitions.

  /** `checkForBingo` is guarded, never clears a pattern, and otherwise
      records exactly the first complete pattern. */
  lemma CheckedMeans(st: State)
    requires ValidGrid(st.grid)
    ensures Checked(st).(winningPattern := st.winningPattern) == st
    ensures st.selectedCard == 0 || |st.markedNumbers| < 5 ==> Checked(st) == st
    ensures st.winningPattern.Some? ==> Checked(st).winningPattern.Some?
    ensures st.selectedCard != 0 && |st.markedNumbers| >= 5 && Evaluate(st.grid, st.markedNumbers).Some? ==>
              Checked(st).winningPattern == Evaluate(st.grid, st.markedNumbers)
    ensures Evaluate(st.grid, st.markedNumbers).None? ==> Checked(st) == st
  {
  }

  /** Marking a number twice is marking it once. */
  lemma MarkIdempotent(st: State, n: int)
    requires ValidGrid(st.grid)
    ensures MarkedOnCard(MarkedOnCard(st, n), n) == MarkedOnCard(st, n)
  {
  }

  /** Marking adds the number exactly when it is on the card and not yet marked,
      and changes nothing else but the winning pattern. */
  lemma MarkAddsOnlyCardNumbers(st: State, n: int)
    requires ValidGrid(st.grid)
    ensures MarkedOnCard(st, n).markedNumbers ==
              if OnCard(st.grid, n) && n !in st.markedNumbers then st.markedNumbers + [n] else st.markedNumbers
    ensures MarkedOnCard(st, n).(winningPattern := st.winningPattern, markedNumbers := st.markedNumbers) == st
    ensures CardGenerator.Distinct(st.markedNumbers) ==> CardGenerator.Distinct(MarkedOnCard(st, n).markedNumbers)
  {
  }

  /** Toggling ignores the free cell and otherwise flips the membership of the
      cell's number, leaving every other number as it was. */
  lemma ToggleFlips(st: State, col: Index, row: Index)
    requires ValidGrid(st.grid)
    ensures Cell(col, row) == Free ==> Toggled(st, col, row) == st
    ensures Cell(col, row) != Free ==>
              (st.grid[col][row] in Toggled(st, col, row).markedNumbers <==> st.grid[col][row] !in st.markedNumbers)
    ensures forall x :: x != st.grid[col][row] ==>
              (x in Toggled(st, col, row).markedNumbers <==> x in st.markedNumbers)
    ensures CardGenerator.Distinct(st.markedNumbers) ==> CardGenerator.Distinct(Toggled(st, col, row).markedNumbers)
  {
  }

  /** Toggling a cell twice restores which numbers are marked (not their order). */
  lemma ToggleTwiceRestoresMarks(st: State, col: Index, row: Index)
    requires ValidGrid(st.grid)
    ensures forall x :: x in Toggled(Toggled(st, col, row), col, row).markedNumbers <==> x in st.markedNumbers
  {
    ToggleFlips(st, col, row);
    ToggleFlips(Toggled(st, col, row), col, row);
  }

  /** After clearing, no pattern is recorded and a check finds nothing until
      five numbers are marked again. */
  lemma ClearedResetsBingo(st: State)
    requires ValidGrid(st.grid)
    ensures Cleared(st).markedNumbers == [] && Cleared(st).winningPattern.None?
    ensures Checked(Cleared(st)).winningPattern.None?
  {
  }

  /** A claim is sent, exactly once, iff a card is selected and a pattern recorded,
      and it carries that card and pattern. */
  lemma ClaimSendsOne(st: State)
    ensures Claimed(st).(outbox := st.outbox) == st
    ensures st.selectedCard == 0 || st.winningPattern.None? ==> Claimed(st).outbox == st.outbox
    ensures st.selectedCard != 0 && st.winningPattern.Some? ==>
              && |Claimed(st).outbox| == |st.outbox| + 1
              && Claimed(st).outbox[..|st.outbox|] == st.outbox
              && var claim := Claimed(st).outbox[|st.outbox|];
                 claim.ClaimBingoEvent? && claim.cardNumber == st.selectedCard
                 && claim.winningPattern == st.winningPattern.value.pattern
                 && claim.winningNumbers == st.winningPattern.value.numbers
  {
    if st.selectedCard != 0 && st.winningPattern.Some? {
      assert Claimed(st).outbox[..|st.outbox|] == st.outbox;
    }
  }

  /** A called number is appended with no ordering or gap check, and earlier calls are kept. */
  lemma NumberCalledAppends(st: State, call: Call)
    requires ValidGrid(st.grid)
    ensures NumberCalled(st, call).calledNumbers == st.calledNumbers + [call]
    ensures !st.autoMark || st.selectedCard == 0 ==> NumberCalled(st, call).markedNumbers == st.markedNumbers
    ensures st.autoMark && st.selectedCard != 0 && OnCard(st.grid, call.number) ==>
              call.number in NumberCalled(st, call).markedNumbers
  {
    var appended := st.(calledNumbers := st.calledNumbers + [call]);
    if appended.autoMark && appended.selectedCard != 0 {
      MarkAddsOnlyCardNumbers(appended, call.number);
      CheckedMeans(MarkedOnCard(appended, call.number));
    } else {
      CheckedMeans(appended);
    }
  }

  /** On a card from the generator every number sits in exactly one cell, so a
      number identifies its cell. */
  lemma GeneratedCardCellsDistinct(card: seq<seq<int>>)
    requires CardGenerator.WellFormedCard(card)
    ensures ValidGrid(card)
    ensures forall c1: Index, r1: Index, c2: Index, r2: Index ::
              card[c1][r1] == card[c2][r2] ==> c1 == c2 && r1 == r2
  {
    forall c1: Index, r1: Index, c2: Index, r2: Index | card[c1][r1] == card[c2][r2]
      ensures c1 == c2 && r1 == r2
    {
      assert CardGenerator.ColumnOk(card[c1], c1) && CardGenerator.ColumnOk(card[c2], c2);
    }
  }

  /** Selecting a card sends one message naming it, and installs its generated grid. */
  lemma CardSelectedMeans(st: State, cardNumber: int)
    requires cardNumber >= 1
    ensures ValidGrid(CardSelected(st, cardNumber).grid)
    ensures CardGenerator.WellFormedCard(CardSelected(st, cardNumber).grid)
    ensures CardSelected(st, cardNumber).selectedCard == cardNumber
    ensures CardSelected(st, cardNumber).outbox == st.outbox + [SelectCardEvent(cardNumber, SelectionGameId(st))]
    ensures CardSelected(st, cardNumber).markedNumbers == st.markedNumbers
  {
    CardGenerator.CorrectedCardWellFormed(cardNumber);
  }

  // ---------------------------------------------------------------------------
  // The engine object.

  class GameManager {
    var gamePhase: string
    var currentGame: Option<GameInfo>
    var selectedCard: int
    var grid: seq<seq<int>>
    var markedNumbers: seq<int>
    var calledNumbers: seq<Call>
    var winningPattern: Option<Pattern>
    var winners: seq<Winner>
    var nextGameId: string
    var autoMark: bool
    var stats: Stats
    var outbox: seq<Intent>

    function Snapshot(): State
      reads this
    {
      State(gamePhase, currentGame, selectedCard, grid, markedNumbers, calledNumbers, winningPattern,
            winners, nextGameId, autoMark, stats, outbox)
    }

    /** The object invariant: a 5x5 grid, a marked set without repeats, consistent counters. */
    predicate Valid()
      reads this
    {
      ValidGrid(grid) && CardGenerator.Distinct(markedNumbers) && StatsValid(stats)
    }

    /** A fresh engine showing the initial random grid, with default settings
        and zero counters. */
    constructor(initialGrid: seq<seq<int>>)
      requires ValidGrid(initialGrid)
      ensures Valid()
      ensures Snapshot() == State("idle", None, 0, initialGrid, [], [], None, [], "", true, Stats(0, 0, 0, 0, 0), [])
    {
      gamePhase := "idle";
      currentGame := None;
      selectedCard := 0;
      grid := initialGrid;
      markedNumbers := [];
      calledNumbers := [];
      winningPattern := None;
      winners := [];
      nextGameId := "";
      autoMark := true;
      stats := Stats(0, 0, 0, 0, 0);
      outbox := [];
    }

    // ----- marking and claiming -----

    method CheckForBingo()
      requires Valid()
      modifies this
      ensures Valid()
      ensures Snapshot() == Checked(old(Snapshot()))
    {
      CheckedMeans(Snapshot());
      if selectedCard == 0 || |markedNumbers| < 5 {
        return;
      }
      var found := FindWinningPattern(grid, markedNumbers);
      if found.Some? {
        winningPattern := found;
      }
    }

    method MarkNumberOnCard(number: int)
      requires Valid()
      modifies this
      ensures Valid()
      ensures Snapshot() == MarkedOnCard(old(Snapshot()), number)
    {
      if OnCard(grid, number) && number !in markedNumbers {
        CardGenerator.DistinctSnoc(markedNumbers, number);
        markedNumbers := markedNumbers + [number];
        CheckForBingo();
      }
    }

    method ToggleNumberMark(col: Index, row: Index)
      requires Valid()
      modifies this
      ensures Valid()
      ensures Snapshot() == Toggled(old(Snapshot()), col, row)
    {
      if Cell(col, row) == Free {
        return;
      }
      var number := grid[col][row];
      if number in markedNumbers {
        markedNumbers := Remove(markedNumbers, number);
      } else {
        CardGenerator.DistinctSnoc(markedNumbers, number);
        markedNumbers := markedNumbers + [number];
      }
      CheckForBingo();
    }

    method ClearAllMarks()
      requires Valid()
      modifies this
      ensures Valid()
      ensures Snapshot() == Cleared(old(Snapshot()))
    {
      markedNumbers := [];
      winningPattern := None;
    }

    method ClaimBingo()
      modifies this
      ensures Snapshot() == Claimed(old(Snapshot()))
    {
      if selectedCard == 0 || winningPattern.None? {
        return;
      }
      outbox := outbox + [ClaimBingoEvent(CurrentGameId(currentGame), selectedCard,
                                          winningPattern.value.pattern, winningPattern.value.numbers)];
    }

    // ----- card selection and play -----

    /** `selectCard`, generating the grid with the corrected generator. */
    method SelectCard(cardNumber: int)
      requires Valid() && cardNumber >= 1
      modifies this
      ensures Valid()
      ensures Snapshot() == CardSelected(old(Snapshot()), cardNumber)
    {
      selectedCard := cardNumber;
      var card := CardGenerator.GenerateBingoCardCorrected(cardNumber);
      GeneratedCardCellsDistinct(card);
      grid := card;
      var gameId := CurrentGameId(currentGame);
      if gameId == "" {
        gameId := nextGameId;
      }
      outbox := outbox + [SelectCardEvent(cardNumber, gameId)];
    }

    method JoinGame()
      modifies this
      ensures Snapshot() == old(Snapshot()).(outbox := old(outbox) + [JoinGameEvent(DefaultBet)])
    {
      outbox := outbox + [JoinGameEvent(DefaultBet)];
    }

    /** `quickPlay`: `randomCard` is the draw `selectRandomCard` makes. */
    method QuickPlay(randomCard: int)
      requires Valid() && 1 <= randomCard <= 400
      modifies this
      ensures Valid()
      ensures var selected := if old(selectedCard) == 0 then CardSelected(old(Snapshot()), randomCard)
                              else old(Snapshot());
              Snapshot() == if old(currentGame).None? then selected.(outbox := selected.outbox + [JoinGameEvent(DefaultBet)])
                            else selected
    {
      if selectedCard == 0 {
        SelectCard(randomCard);
      }
      if currentGame.None? {
        JoinGame();
      }
    }

    method ToggleAutoMark()
      modifies this
      ensures Snapshot() == old(Snapshot()).(autoMark := !old(autoMark))
    {
      autoMark := !autoMark;
    }

    // ----- inbound events -----

    /** `handleGameState`: takes the phase and game verbatim; the called-number
        list is left as it is. */
    method HandleGameState(phase: string, activeGame: Option<GameInfo>)
      modifies this
      ensures Snapshot() == old(Snapshot()).(gamePhase := phase, currentGame := activeGame)
    {
      gamePhase := phase;
      currentGame := activeGame;
    }

    method HandleGameCountdown()
      modifies this
      ensures Snapshot() == old(Snapshot()).(gamePhase := "countdown")
    {
      gamePhase := "countdown";
    }

    method HandleGameStarted(game: GameInfo)
      requires Valid()
      modifies this
      ensures Valid()
      ensures Snapshot() == Cleared(old(Snapshot()).(gamePhase := "active", currentGame := Some(game)))
    {
      gamePhase := "active";
      currentGame := Some(game);
      ClearAllMarks();
    }

    method HandleNumberCalled(number: int, letter: string, callNumber: int)
      requires Valid()
      modifies this
      ensures Valid()
      ensures Snapshot() == NumberCalled(old(Snapshot()), Call(number, letter, callNumber))
    {
      calledNumbers := calledNumbers + [Call(number, letter, callNumber)];
      if autoMark && selectedCard != 0 {
        MarkNumberOnCard(number);
      }
      CheckForBingo();
    }

    /** `handleGameEnded`: `reported` is `data.winners`, `userId` the current user's id. */
    method HandleGameEnded(reported: Option<seq<Winner>>, endTime: Option<int>, userId: string)
      requires Valid()
      modifies this
      ensures Valid()
      ensures gamePhase == "announcing"
      ensures winners == if reported.Some? then reported.value else []
      ensures currentGame == if old(currentGame).Some? then Some(old(currentGame).value.(endTime := endTime, winners := winners))
                             else None
      ensures var win := WinnerByUserId(winners, userId);
              stats == AfterGame(old(stats), win.Some?, if win.Some? then win.value.prizeAmount else 0)
      ensures Snapshot().(gamePhase := old(gamePhase), winners := old(winners), currentGame := old(currentGame),
                          stats := old(stats)) == old(Snapshot())
    {
      gamePhase := "announcing";
      winners := if reported.Some? then reported.value else [];
      if currentGame.Some? {
        currentGame := Some(currentGame.value.(endTime := endTime, winners := winners));
      }
      UpdatePlayerStats(userId);
    }

    /** `handleWinnerAnnouncement`: when the current user is among the announced
        winners, the celebration counts their win. Missing winners (`None`) make
        `data.winners.some` throw before anything changes. */
    method HandleWinnerAnnouncement(announced: Option<seq<Winner>>, userId: string) returns (threw: bool)
      requires Valid()
      modifies this
      ensures Valid()
      ensures threw <==> announced.None?
      ensures threw ==> Snapshot() == old(Snapshot())
      ensures announced.Some? ==>
                var win := WinnerByTelegramId(announced.value, userId);
                Snapshot() == if win.Some? then old(Snapshot()).(stats := AfterWin(old(stats), win.value.prizeAmount))
                              else old(Snapshot())
    {
      if announced.None? {
        return true;
      }
      threw := false;
      var userWin := WinnerByTelegramId(announced.value, userId);
      if userWin.Some? {
        UpdateStatsAfterWin(userWin.value.prizeAmount);
      }
    }

    method HandleCardSelectionStarted(nextId: string)
      modifies this
      ensures Snapshot() == old(Snapshot()).(gamePhase := "card_selection", nextGameId := nextId)
    {
      gamePhase := "card_selection";
      nextGameId := nextId;
    }

    method HandleReconnect()
      modifies this
      ensures Snapshot() == old(Snapshot()).(outbox := old(outbox) + [GetGameStateEvent])
    {
      outbox := outbox + [GetGameStateEvent];
    }

    // ----- statistics -----

    method UpdatePlayerStats(userId: string)
      requires Valid()
      modifies this
      ensures Valid()
      ensures var win := WinnerByUserId(winners, userId);
              Snapshot() == old(Snapshot()).(stats := AfterGame(old(stats), win.Some?,
                                                                 if win.Some? then win.value.prizeAmount else 0))
    {
      var userWin := WinnerByUserId(winners, userId);
      stats := RecordGame(stats, userWin.Some?, if userWin.Some? then userWin.value.prizeAmount else 0);
    }

    method UpdateStatsAfterWin(prizeAmount: int)
      requires Valid()
      modifies this
      ensures Valid()
      ensures Snapshot() == old(Snapshot()).(stats := AfterWin(old(stats), prizeAmount))
    {
      StatsUpdatesPreserveValid(stats, true, prizeAmount);
      var s := stats;
      s := s.(gamesWon := s.gamesWon + 1, gamesPlayed := s.gamesPlayed + 1,
              totalWinnings := s.totalWinnings + prizeAmount, currentStreak := s.currentStreak + 1);
      if s.currentStreak > s.bestStreak {
        s := s.(bestStreak := s.currentStreak);
      }
      stats := s;
    }
  }
}
