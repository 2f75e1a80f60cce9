/** The game engine: the shared state of one match (draw pile, graveyard, two
    players, the game log), updated in place by the game's operations. Each
    operation is proved to change the piles exactly as its counterpart in
    module Rules says. */
module Engine {
  import opened Units
  import opened Piles
  import opened Rules

  /** A player: a name, a hand and a board, both updated in place. */
  class Player {
    const name: string
    var hand: seq<Unit>
    var board: seq<Unit>

    constructor (name: string)
      ensures this.name == name && hand == [] && board == []
    {
      this.name := name;
      hand := [];
      board := [];
    }
  }

  /** The state of a match. The top of `deck` is its last element. */
  class Game {
    const player1: Player
    const player2: Player
    var deck: seq<Unit>
    var graveyard: seq<Unit>
    var gameLog: seq<string>

    /** The two players are two different objects. */
    predicate TwoPlayers()
      reads this
    {
      player1 != player2
    }

    /** Where every card lies now. */
    function Snapshot(): Table
      reads this`deck, this`graveyard, player1, player2
    {
      Table(deck, graveyard, Side(player1.hand, player1.board), Side(player2.hand, player2.board))
    }

    /** The seat of one of the two players. */
    function SeatOf(p: Player): Seat
      reads this
      requires p == player1 || p == player2
    {
      if p == player1 then First else Second
    }

    /** The state before the game is set up: the 30-card deck, empty hands,
        boards, graveyard and log. */
    constructor ()
      ensures TwoPlayers() && fresh(player1) && fresh(player2)
      ensures player1.name == "Player 1" && player2.name == "Player 2"
      ensures Snapshot() == Start() && gameLog == []
    {
      player1 := new Player("Player 1");
      player2 := new Player("Player 2");
      deck := InitialDeck();
      graveyard := [];
      gameLog := [];
    }

    /** Appends one message to the game log. */
    method Log(message: string)
      modifies this`gameLog
      ensures gameLog == old(gameLog) + [message]
    {
      gameLog := gameLog + [message];
    }

    /** `p.hand.push(deck.pop())`, or `p.board.push(deck.pop())` when
        `toBoard` holds: the top card of a non-empty deck moves to the end of
        the hand (board) of `p`. */
    method PushTop(p: Player, toBoard: bool)
      requires TwoPlayers() && (p == player1 || p == player2)
      requires deck != []
      modifies this`deck, p
      ensures Snapshot() == TakeTop(old(Snapshot()), SeatOf(p), toBoard)
      ensures old(deck) == deck + [if toBoard then p.board[|p.board| - 1] else p.hand[|p.hand| - 1]]
    {
      var card := deck[|deck| - 1];
      deck := deck[..|deck| - 1];
      if toBoard {
        p.board := p.board + [card];
      } else {
        p.hand := p.hand + [card];
      }
      ghost var before := old(Snapshot());
      if p == player1 {
        assert Snapshot() == TakeTop(before, First, toBoard);
      } else {
        assert Snapshot() == TakeTop(before, Second, toBoard);
      }
    }

    /** Shuffles the deck with a Fisher-Yates swap loop. When the deck is
        empty, the graveyard becomes the new deck, in some order, and is
        emptied. */
    method ShuffleDeck()
      modifies this`deck, this`graveyard, this`gameLog
      ensures IsShuffleOf(old(Snapshot()), deck)
      ensures Snapshot() == Shuffled(old(Snapshot()), deck)
      ensures old(gameLog) <= gameLog && |gameLog| == |old(gameLog)| + 2
    {
      Log("Shuffling the deck");
      var i := |deck| - 1;
      while i > 0
        invariant -1 <= i < |deck|
        invariant |deck| == |old(deck)| && multiset(deck) == multiset(old(deck))
        invariant graveyard == old(graveyard)
        invariant gameLog == old(gameLog) + ["Shuffling the deck"]
      {
        // Math.random() picks any position from 0 to i
        var j :| 0 <= j <= i;
        deck := deck[i := deck[j]][j := deck[i]];
        i := i - 1;
      }
      if |deck| == 0 {
        assert old(deck) == [];
        deck := graveyard;
        graveyard := [];
        // sorting with a random comparator leaves the cards in some order
        var sorted :| multiset(sorted) == multiset(deck);
        deck := sorted;
      }
      Log("Deck: " + Show(deck));
    }

    /** One round of the dealing loops of `setup`: the top card goes to
        player 1, then the next one to player 2, into their hands or onto
        their boards. */
    method DealRound(toBoard: bool)
      requires TwoPlayers() && |deck| >= 2
      modifies this`deck, player1, player2
      ensures Snapshot() == TakeTop(TakeTop(old(Snapshot()), First, toBoard), Second, toBoard)
    {
      PushTop(player1, toBoard);
      PushTop(player2, toBoard);
    }

    /** `n` rounds of dealing. */
    method DealInto(n: nat, toBoard: bool)
      requires TwoPlayers() && 2 * n <= |deck|
      modifies this`deck, player1, player2
      ensures Snapshot() == DealRounds(old(Snapshot()), n, toBoard)
    {
      ghost var start := Snapshot();
      var i := 0;
      while i < n
        invariant 0 <= i <= n
        invariant |deck| == |start.deck| - 2 * i
        invariant Snapshot() == DealRounds(start, i, toBoard)
      {
        DealRound(toBoard);
        i := i + 1;
      }
    }

    /** Gives each player five cards in hand and six on the board, taking them
        from the top of the freshly shuffled deck, first player 1 and then
        player 2 in each round. `order` is the deck the shuffle produced. */
    method Setup() returns (ghost order: seq<Unit>)
      requires TwoPlayers()
      requires |deck| >= 2 * (HandDeal + BoardDeal) || (deck == [] && |graveyard| >= 2 * (HandDeal + BoardDeal))
      modifies this`deck, this`graveyard, this`gameLog, player1, player2
      ensures IsShuffleOf(old(Snapshot()), order) && |order| >= 2 * (HandDeal + BoardDeal)
      ensures Snapshot() == SetUp(old(Snapshot()), order)
      ensures old(gameLog) <= gameLog && |gameLog| == |old(gameLog)| + 6
    {
      Log("Setting up the game");
      ShuffleDeck();
      order := deck;
      assert |order| >= 2 * (HandDeal + BoardDeal) by { ShuffledKeepsCards(old(Snapshot()), order); }
      Log("Giving each player 5 cards");
      DealInto(HandDeal, false);
      Log("Placing 6 cards on the board");
      DealInto(BoardDeal, true);
      Log("Populating the player's hand and board");
    }

    /** Draws the top card of the freshly shuffled deck (recycled from the
        graveyard when the deck was empty) into the hand of `p`. There is no
        limit on the size of a hand. `order` is the deck the shuffle
        produced. */
    method DrawCard(p: Player) returns (ghost order: seq<Unit>)
      requires TwoPlayers() && (p == player1 || p == player2)
      requires deck != [] || graveyard != []
      modifies this, p
      ensures IsShuffleOf(old(Snapshot()), order) && order != []
      ensures Snapshot() == Drawn(old(Snapshot()), SeatOf(p), order)
      ensures p.hand == old(p.hand) + [order[|order| - 1]] && deck == order[..|order| - 1]
      ensures old(gameLog) <= gameLog && |gameLog| == |old(gameLog)| + 4
    {
      Log(p.name + " is drawing a card");
      ShuffleDeck();
      order := deck;
      PushTop(p, false);
      Log(p.name + "'s hand: " + Show(p.hand));
    }

    /** Moves the first `card` of the hand of `p` to the end of its board,
        unless the board already holds six cards, in which case hand and board
        stay as they are. */
    method AddCardToBoard(p: Player, card: Unit)
      requires TwoPlayers() && (p == player1 || p == player2)
      requires |p.board| < BoardCapacity ==> card in p.hand
      modifies this`gameLog, p
      ensures Snapshot() == Played(old(Snapshot()), SeatOf(p), card)
      ensures old(|p.board|) < BoardCapacity ==>
                p.hand == RemoveFirst(old(p.hand), card) && p.board == old(p.board) + [card]
      ensures old(|p.board|) >= BoardCapacity ==> p.hand == old(p.hand) && p.board == old(p.board)
      ensures old(gameLog) <= gameLog && |gameLog| == |old(gameLog)| + 2
    {
      Log(p.name + " is adding a card to the board");
      if |p.board| < BoardCapacity {
        var (rest, taken) := SpliceOne(p.hand, IndexOf(p.hand, card));
        SpliceOnPresentIsRemoveFirst(p.hand, card);
        p.hand := rest;
        p.board := p.board + [taken.value];
      }
      ghost var before := old(Snapshot());
      if p == player1 {
        assert Snapshot() == Played(before, First, card);
      } else {
        assert Snapshot() == Played(before, Second, card);
      }
      Log(p.name + "'s board: " + Show(p.board));
    }

    /** Moves the first `card` on the board of `p` to the graveyard. */
    method RemoveCardFromBoard(p: Player, card: Unit)
      requires TwoPlayers() && (p == player1 || p == player2)
      requires card in p.board
      modifies this`graveyard, this`gameLog, p
      ensures Snapshot() == Buried(old(Snapshot()), SeatOf(p), card)
      ensures p.board == RemoveFirst(old(p.board), card) && p.hand == old(p.hand)
      ensures graveyard == old(graveyard) + [card]
      ensures old(gameLog) <= gameLog && |gameLog| == |old(gameLog)| + 2
    {
      Log(p.name + " is removing a card from the board");
      var (rest, taken) := SpliceOne(p.board, IndexOf(p.board, card));
      SpliceOnPresentIsRemoveFirst(p.board, card);
      p.board := rest;
      graveyard := graveyard + [taken.value];
      ghost var before := old(Snapshot());
      if p == player1 {
        assert Snapshot() == Buried(before, First, card);
      } else {
        assert Snapshot() == Buried(before, Second, card);
      }
      Log(p.name + "'s board: " + Show(p.board));
    }

    /** An attack of a unit of kind `attacker` on a unit of kind `defender`.
        Exactly one of three things happens: on a tie one `attacker` leaves the
        board of player 1 and one `defender` the board of player 2, both into
        the graveyard; when the attacker beats the defender only the
        `defender` leaves the board of player 2; when the defender beats the
        attacker nothing moves. Only the log records the attempt. */
    method Attack(attacker: Unit, defender: Unit)
      requires TwoPlayers() && CanAttack(Snapshot(), attacker, defender)
      modifies this`graveyard, this`gameLog, player1, player2
      ensures Snapshot() == Attacked(old(Snapshot()), attacker, defender)
      ensures Resolve(attacker, defender) == Tie ==>
                player1.board == RemoveFirst(old(player1.board), attacker)
                && player2.board == RemoveFirst(old(player2.board), defender)
                && graveyard == old(graveyard) + [attacker, defender]
      ensures Resolve(attacker, defender) == Wins ==>
                player1.board == old(player1.board)
                && player2.board == RemoveFirst(old(player2.board), defender)
                && graveyard == old(graveyard) + [defender]
      ensures Resolve(attacker, defender) == Rejected ==>
                player1.board == old(player1.board) && player2.board == old(player2.board)
                && graveyard == old(graveyard)
      ensures player1.hand == old(player1.hand) && player2.hand == old(player2.hand)
      ensures old(gameLog) <= gameLog
      ensures |gameLog| == |old(gameLog)| + match Resolve(attacker, defender)
                                             case Tie => 5
                                             case Wins => 3
                                             case Rejected => 1
    {
      if attacker == defender {
        Log("It's a tie, both cards are destroyed");
        RemoveCardFromBoard(player1, attacker);
        RemoveCardFromBoard(player2, defender);
      }
      if CanBeat(attacker) == defender {
        Log(Name(attacker) + " beats " + Name(defender));
        RemoveCardFromBoard(player2, defender);
      }
      if CanBeatBy(attacker) == defender {
        Log(Name(attacker) + " can't beat " + Name(defender) + "! Try again");
      }
    }

    /** The game is over when either board is empty. */
    predicate IsGameOver()
      reads this, player1, player2
      ensures IsGameOver() <==> exists s: Seat :: Snapshot().Of(s).board == []
    {
      assert Snapshot().Of(First).board == player1.board;
      assert Snapshot().Of(Second).board == player2.board;
      |player1.board| == 0 || |player2.board| == 0
    }

    /** The winner: player 2 when the board of player 1 is empty, otherwise
        player 1. */
    function GetWinner(): (w: Player)
      reads this, player1
      ensures w == player1 || w == player2
    {
      if |player1.board| == 0 then player2 else player1
    }

    /** Once the game is over the winner is a player whose board is not empty
        and the other player's board is empty, unless both boards are empty,
        in which case player 2 is reported as the winner. */
    lemma WinnerOfFinishedGame()
      requires TwoPlayers() && IsGameOver()
      ensures player1.board != [] || player2.board != [] ==>
                GetWinner().board != []
                && (if GetWinner() == player1 then player2.board else player1.board) == []
      ensures player1.board == [] && player2.board == [] ==> GetWinner() == player2
    {
    }
  }

  /** `play()`: a new game is set up. Both boards then hold six units, so the
      game is not over and the branch that logs a winner is never taken.
      `order` is the deck the shuffle of the setup produced. */
  method Play() returns (g: Game, ghost order: seq<Unit>)
    ensures fresh(g) && g.TwoPlayers()
    ensures |order| == 30
    ensures g.Snapshot() == SetUp(Start(), order)
    ensures |g.player1.hand| == HandDeal && |g.player2.hand| == HandDeal
    ensures |g.player1.board| == BoardDeal && |g.player2.board| == BoardDeal
    ensures Total(g.Snapshot()) == multiset{}[Soldier := 10][Horseman := 10][Canon := 10]
    ensures !g.IsGameOver()
    ensures |g.gameLog| == 6
  {
    g := new Game();
    order := g.Setup();
    SetUpFromStart(order);
    var over := g.IsGameOver();
    assert !over;
  }
}
