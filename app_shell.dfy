/** The application shell around the game engine: the card-list filter, the
    time-left clamp, the quick-play pick, and the guards and resets on the
    shell's own game state.

    Every outbound HTTP request is appended to `requests` instead of being
    sent; each awaited response is a parameter. */
module AppShell {
  import opened Wrappers

  // ---------------------------------------------------------------------------
  // The card-list filter.

  /** A tile of the card list: the card number as its text, whether it carries
      the `taken` class, and whether it is displayed. */
  datatype CardTile = CardTile(card: string, taken: bool, shown: bool)

  /** The status `filterCards` reads off a tile. */
  function Status(tile: CardTile): string
  {
    if tile.taken then "taken" else "available"
  }

  /** `String.prototype.includes`: `t` occurs somewhere in `s`. */
  function Contains(s: string, t: string): bool
    decreases |s|
  {
    |t| <= |s| && (s[..|t|] == t || Contains(s[1..], t))
  }

  /** `t` occurs in `s` at offset `i`. */
  predicate OccursAt(s: string, t: string, i: int)
  {
    0 <= i <= |s| - |t| && s[i..i + |t|] == t
  }

  /** An occurrence in `s` one place to the right is an occurrence in `s[1..]`. */
  lemma ShiftOccurs(s: string, t: string, i: int)
    requires |s| > 0 && i >= 0
    ensures OccursAt(s, t, i + 1) <==> OccursAt(s[1..], t, i)
  {
    if 0 <= i <= |s| - 1 - |t| {
      assert s[1..][i..i + |t|] == s[i + 1..i + 1 + |t|];
    }
  }

  /** `Contains` agrees with the substring definition. */
  lemma {:induction false} ContainsIff(s: string, t: string)
    ensures Contains(s, t) <==> exists i :: OccursAt(s, t, i)
    decreases |s|
  {
    if |t| <= |s| && s[..|t|] != t {
      ContainsIff(s[1..], t);
      forall i | OccursAt(s[1..], t, i) ensures OccursAt(s, t, i + 1) {
        ShiftOccurs(s, t, i);
      }
      forall i | OccursAt(s, t, i) ensures OccursAt(s[1..], t, i - 1) {
        assert 0 < i;
        ShiftOccurs(s, t, i - 1);
      }
    } else if |t| <= |s| {
      assert OccursAt(s, t, 0);
    }
  }

  /** The test `filterCards` applies to each tile: the search term is empty or
      occurs in the card number (case-sensitively), and the filter is `all` or
      the tile's status. */
  predicate Visible(tile: CardTile, searchTerm: string, filter: string)
  {
    (searchTerm == "" || Contains(tile.card, searchTerm)) && (filter == "all" || Status(tile) == filter)
  }

  /** An empty search with the `all` filter shows every tile. */
  lemma EmptySearchShowsAll(tile: CardTile)
    ensures Visible(tile, "", "all")
  {
  }

  /** Among the tiles the search matches, each is shown under exactly one of
      the `taken` and `available` filters; the others under neither. */
  lemma StatusFiltersPartition(tile: CardTile, searchTerm: string)
    ensures searchTerm == "" || Contains(tile.card, searchTerm) ==>
              Visible(tile, searchTerm, "taken") != Visible(tile, searchTerm, "available")
    ensures !(searchTerm == "" || Contains(tile.card, searchTerm)) ==>
              !Visible(tile, searchTerm, "taken") && !Visible(tile, searchTerm, "available")
    ensures Visible(tile, searchTerm, "taken") ==> tile.taken
    ensures Visible(tile, searchTerm, "available") ==> !tile.taken
  {
  }

  /** A filter other than `all`, `taken` or `available` hides every tile. */
  lemma UnknownFilterHidesAll(tile: CardTile, searchTerm: string, filter: string)
    requires filter != "all" && filter != "taken" && filter != "available"
    ensures !Visible(tile, searchTerm, filter)
  {
  }

  /** A search term that is a prefix of the card number always matches it. */
  lemma PrefixMatches(tile: CardTile, searchTerm: string, filter: string)
    requires |searchTerm| <= |tile.card| && tile.card[..|searchTerm|] == searchTerm
    ensures Visible(tile, searchTerm, filter) <==> filter == "all" || Status(tile) == filter
  {
  }

  // ---------------------------------------------------------------------------
  // The time-left clamp.

  /** `Math.max(0, Math.floor((endTime - now) / 1000))`, in whole seconds from
      millisecond timestamps. */
  function TimeLeft(endTime: int, now: int): (seconds: int)
    ensures seconds >= 0
    ensures seconds > 0 ==> seconds * 1000 <= endTime - now < (seconds + 1) * 1000
    ensures seconds == 0 <==> endTime - now < 1000
  {
    var whole := (endTime - now) / 1000;
    if whole > 0 then whole else 0
  }

  /** Time left never grows as the clock advances. */
  lemma TimeLeftMonotone(endTime: int, now: int, later: int)
    requires now <= later
    ensures TimeLeft(endTime, later) <= TimeLeft(endTime, now)
  {
  }

  // ---------------------------------------------------------------------------
  // The quick-play pick.

  /** An entry of the available-cards list the server returns. */
  datatype CardEntry = CardEntry(number: int, status: string)

  /** `availableCards.find(card => card.status === 'available')`, as a position. */
  function FirstAvailable(cards: seq<CardEntry>): (r: Option<nat>)
    ensures r.None? <==> forall i :: 0 <= i < |cards| ==> cards[i].status != "available"
    ensures r.Some? ==> r.value < |cards| && cards[r.value].status == "available"
                        && forall j :: 0 <= j < r.value ==> cards[j].status != "available"
  {
    if cards == [] then None
    else if cards[0].status == "available" then Some(0)
    else
      match FirstAvailable(cards[1..])
      case None => None
      case Some(i) => Some(i + 1)
  }

  // ---------------------------------------------------------------------------
  // The shell's own state.

  /** The fields of `state.game` the shell reads. */
  datatype AppGame = AppGame(id: string, endTime: Option<int>)

  /** A card the player holds: `{ number, card }`. */
  datatype OwnedCard = OwnedCard(number: int, card: seq<seq<int>>)

  /** An outbound HTTP request. */
  datatype Request =
    | SelectCardRequest(userId: string, cardNumber: int, gameId: Option<string>)
    | ClaimBingoRequest(userId: string, claimedGameId: string)

  /** The server's answer to a card selection. */
  datatype SelectResponse = Selected(game: Option<AppGame>, card: seq<seq<int>>) | Rejected(message: string)

  /** The server's answer to a claim: accepted with a prize, refused with a
      message, or a failed request or unreadable answer (`catch`). */
  datatype ClaimResponse = ClaimAccepted(prizeAmount: int) | ClaimRefused(reason: string) | ClaimFailed

  /** The shell state, as one value. */
  datatype AppState = AppState(userId: string, game: Option<AppGame>, cards: seq<OwnedCard>,
                               tiles: seq<CardTile>, requests: seq<Request>, balance: int)

  function GameIdOf(game: Option<AppGame>): Option<string>
  {
    if game.Some? then Some(game.value.id) else None
  }

  /** `selectCard` up to the point where it throws. A success stores the game
      and the card and then calls `initializeCard`, which the game engine does
      not define: the call throws and the join below it is never reached.
      A rejection throws with the server's message. */
  function CardSelection(st: AppState, cardNumber: int, response: SelectResponse): AppState
  {
    var sent := st.(requests := st.requests + [SelectCardRequest(st.userId, cardNumber, GameIdOf(st.game))]);
    match response
    case Selected(game, card) => sent.(game := game, cards := sent.cards + [OwnedCard(cardNumber, card)])
    case Rejected(_) => sent
  }

  /** `claimBingo`: without a game nothing is sent; otherwise one claim for the
      current game is sent, and an accepted claim adds its prize to the balance. */
  function ClaimOutcome(st: AppState, response: ClaimResponse): AppState
  {
    if st.game.None? then st
    else
      var sent := st.(requests := st.requests + [ClaimBingoRequest(st.userId, st.game.value.id)]);
      if response.ClaimAccepted? then sent.(balance := sent.balance + response.prizeAmount) else sent
  }

  /** Only an accepted claim for a current game moves the balance, by exactly
      its prize; a claim is sent iff there is a game, and nothing else changes. */
  lemma ClaimCreditsOnlyAcceptedPrize(st: AppState, response: ClaimResponse)
    ensures ClaimOutcome(st, response).balance ==
              st.balance + if st.game.Some? && response.ClaimAccepted? then response.prizeAmount else 0
    ensures |ClaimOutcome(st, response).requests| == |st.requests| + if st.game.Some? then 1 else 0
    ensures ClaimOutcome(st, response).(requests := st.requests, balance := st.balance) == st
  {
  }

  /** `quickPlay` selects the first available card, and nothing when none is. */
  lemma QuickPlayPicksFirstAvailable(st: AppState, available: seq<CardEntry>, response: SelectResponse)
    ensures var pick := FirstAvailable(available);
            pick.Some? ==>
              && CardSelection(st, available[pick.value].number, response).requests[|st.requests|]
                 == SelectCardRequest(st.userId, available[pick.value].number, GameIdOf(st.game))
  {
  }

  /** A successful selection is kept even though `selectCard` then throws. */
  lemma SelectionKeptOnSuccess(st: AppState, cardNumber: int, game: Option<AppGame>, card: seq<seq<int>>)
    ensures CardSelection(st, cardNumber, Selected(game, card)).game == game
    ensures CardSelection(st, cardNumber, Selected(game, card)).cards == st.cards + [OwnedCard(cardNumber, card)]
    ensures |CardSelection(st, cardNumber, Selected(game, card)).requests| == |st.requests| + 1
  {
  }

  class GeezBingoApp {
    var userId: string
    var game: Option<AppGame>
    var cards: seq<OwnedCard>
    var tiles: seq<CardTile>
    var requests: seq<Request>
    var balance: int

    function Snapshot(): AppState
      reads this
    {
      AppState(userId, game, cards, tiles, requests, balance)
    }

    /** The shell after start-up, with no game and no cards yet: the signed-in
        user and the balance that loading the user's data produced. */
    constructor(user: string, startBalance: int, cardTiles: seq<CardTile>)
      ensures Snapshot() == AppState(user, None, [], cardTiles, [], startBalance)
    {
      balance := startBalance;
      userId := user;
      game := None;
      cards := [];
      tiles := cardTiles;
      requests := [];
    }

    /** `filterCards`: shows exactly the tiles `Visible` accepts. */
    method FilterCards(searchTerm: string, filter: string)
      modifies this
      ensures |tiles| == |old(tiles)|
      ensures forall i :: 0 <= i < |tiles| ==>
                tiles[i] == old(tiles[i]).(shown := Visible(old(tiles[i]), searchTerm, filter))
      ensures Snapshot().(tiles := old(tiles)) == old(Snapshot())
    {
      var i := 0;
      while i < |tiles|
        invariant 0 <= i <= |tiles| == |old(tiles)|
        invariant forall k :: 0 <= k < i ==> tiles[k] == old(tiles[k]).(shown := Visible(old(tiles[k]), searchTerm, filter))
        invariant forall k :: i <= k < |tiles| ==> tiles[k] == old(tiles[k])
        invariant Snapshot().(tiles := old(tiles)) == old(Snapshot())
      {
        var tile := tiles[i];
        var matchesSearch := searchTerm == "" || Contains(tile.card, searchTerm);
        var matchesFilter := filter == "all" || Status(tile) == filter;
        tiles := tiles[i := tile.(shown := matchesSearch && matchesFilter)];
        i := i + 1;
      }
    }

    /** `handleGameState`: stores the game, and returns the time left it
        displays when the game has an end time that is not falsy (an end time
        of 0 shows nothing). */
    method HandleGameState(state: AppGame, now: int) returns (timeLeft: Option<int>)
      modifies this
      ensures Snapshot() == old(Snapshot()).(game := Some(state))
      ensures timeLeft.Some? <==> state.endTime.Some? && state.endTime.value != 0
      ensures timeLeft.Some? ==> timeLeft.value == TimeLeft(state.endTime.value, now)
    {
      game := Some(state);
      timeLeft := None;
      if state.endTime.Some? && state.endTime.value != 0 {
        timeLeft := Some(TimeLeft(state.endTime.value, now));
      }
    }

    /** `handleGameEnded`: the shell forgets the game. */
    method HandleGameEnded()
      modifies this
      ensures Snapshot() == old(Snapshot()).(game := None)
    {
      game := None;
    }

    /** `claimBingo`, with the server's answer as `response`: without a game it
        only warns; otherwise it sends one claim for the current game and, when
        the claim is accepted, adds the prize to the balance. */
    method ClaimBingo(response: ClaimResponse) returns (warned: bool)
      modifies this
      ensures warned <==> old(game).None?
      ensures Snapshot() == ClaimOutcome(old(Snapshot()), response)
    {
      if game.None? {
        return true;
      }
      requests := requests + [ClaimBingoRequest(userId, game.value.id)];
      if response.ClaimAccepted? {
        balance := balance + response.prizeAmount;
      }
      return false;
    }

    /** `selectCard`, with the server's answer as `response`. */
    method SelectCard(cardNumber: int, response: SelectResponse) returns (threw: bool)
      modifies this
      ensures Snapshot() == CardSelection(old(Snapshot()), cardNumber, response)
      ensures threw
    {
      requests := requests + [SelectCardRequest(userId, cardNumber, GameIdOf(game))];
      if response.Rejected? {
        return true;
      }
      game := response.game;
      cards := cards + [OwnedCard(cardNumber, response.card)];
      return true;
    }

    /** `quickPlay`, with the list `loadAvailableCards` returns as `available`. */
    method QuickPlay(available: seq<CardEntry>, response: SelectResponse)
      modifies this
      ensures var pick := FirstAvailable(available);
              Snapshot() == if pick.Some? then CardSelection(old(Snapshot()), available[pick.value].number, response)
                            else old(Snapshot())
    {
      var pick := FirstAvailable(available);
      if pick.Some? {
        var _ := SelectCard(available[pick.value].number, response);
      }
    }
  }
}
