/** What each operation of the engine does to the piles, stated on values: a
    `Table` records where every card lies at one moment, and each operation
    is a function from the table before to the table after. The engine's
    methods are proved to perform exactly these functions; the lemmas here
    prove that none of them creates or loses a card and that boards stay
    within their capacity. */
module Rules {
  import opened Units
  import opened Piles

  /** Number of places on a board. */
  const BoardCapacity := 6
  /** Cards dealt to each hand by the setup. */
  const HandDeal := 5
  /** Cards dealt to each board by the setup. */
  const BoardDeal := 6

  /** Which of the two players. */
  datatype Seat = First | Second

  /** The cards one player holds. */
  datatype Side = Side(hand: seq<Unit>, board: seq<Unit>)

  /** Every pile of the match; the top of `deck` is its last element. */
  datatype Table = Table(deck: seq<Unit>, graveyard: seq<Unit>, one: Side, two: Side)
  {
    function Of(s: Seat): Side
    {
      if s == First then one else two
    }

    function With(s: Seat, side: Side): Table
    {
      if s == First then this.(one := side) else this.(two := side)
    }
  }

  /** The cards of one player, hand and board together. */
  ghost function Held(side: Side): multiset<Unit>
  {
    multiset(side.hand) + multiset(side.board)
  }

  /** All cards on the table. */
  ghost function Total(t: Table): multiset<Unit>
  {
    multiset(t.deck) + multiset(t.graveyard) + Held(t.one) + Held(t.two)
  }

  /** Neither board holds more than six cards. */
  predicate Fits(t: Table)
  {
    |t.one.board| <= BoardCapacity && |t.two.board| <= BoardCapacity
  }

  // ----- shuffleDeck -----

  /** `order` is an order the shuffle can produce: a permutation of the deck,
      or of the graveyard when the deck is empty. */
  ghost predicate IsShuffleOf(t: Table, order: seq<Unit>)
  {
    multiset(order) == if t.deck != [] then multiset(t.deck) else multiset(t.graveyard)
  }

  /** The table after a shuffle that produced `order`: the graveyard is
      emptied exactly when it was recycled into the empty deck. */
  function Shuffled(t: Table, order: seq<Unit>): Table
  {
    t.(deck := order, graveyard := if t.deck != [] then t.graveyard else [])
  }

  /** Shuffling moves no card in or out of play and touches no hand or board. */
  lemma ShuffledKeepsCards(t: Table, order: seq<Unit>)
    requires IsShuffleOf(t, order)
    ensures Total(Shuffled(t, order)) == Total(t)
    ensures |order| == if t.deck != [] then |t.deck| else |t.graveyard|
    ensures Shuffled(t, order).one == t.one && Shuffled(t, order).two == t.two
  {
    assert |multiset(order)| == |order|;
  }

  // ----- deck.pop() into a hand or onto a board -----

  /** The top card of the deck moves to the end of the hand (or board) of `s`. */
  function TakeTop(t: Table, s: Seat, toBoard: bool): (r: Table)
    requires t.deck != []
    ensures |r.deck| == |t.deck| - 1 && r.graveyard == t.graveyard
  {
    var card := t.deck[|t.deck| - 1];
    var side := t.Of(s);
    var side' := if toBoard then side.(board := side.board + [card])
                 else side.(hand := side.hand + [card]);
    t.With(s, side').(deck := t.deck[..|t.deck| - 1])
  }

  /** Taking the top card moves it and nothing else. */
  lemma TakeTopKeepsCards(t: Table, s: Seat, toBoard: bool)
    requires t.deck != []
    ensures Total(TakeTop(t, s, toBoard)) == Total(t)
  {
    var n := |t.deck|;
    assert t.deck == t.deck[..n - 1] + [t.deck[n - 1]];
  }

  // ----- setup -----

  /** `n` rounds of dealing, each giving the top card to the first player and
      the next to the second player, into hands or onto boards. */
  function DealRounds(t: Table, n: nat, toBoard: bool): (r: Table)
    requires 2 * n <= |t.deck|
    ensures |r.deck| == |t.deck| - 2 * n && r.graveyard == t.graveyard
  {
    if n == 0 then t
    else TakeTop(TakeTop(DealRounds(t, n - 1, toBoard), First, toBoard), Second, toBoard)
  }

  /** Dealing moves cards from the deck only. */
  lemma {:induction false} DealRoundsKeepsCards(t: Table, n: nat, toBoard: bool)
    requires 2 * n <= |t.deck|
    ensures Total(DealRounds(t, n, toBoard)) == Total(t)
    ensures var r := DealRounds(t, n, toBoard);
      if toBoard then
        r.one.hand == t.one.hand && r.two.hand == t.two.hand
        && |r.one.board| == |t.one.board| + n && |r.two.board| == |t.two.board| + n
      else
        r.one.board == t.one.board && r.two.board == t.two.board
        && |r.one.hand| == |t.one.hand| + n && |r.two.hand| == |t.two.hand| + n
  {
    if n > 0 {
      DealRoundsKeepsCards(t, n - 1, toBoard);
      var u := DealRounds(t, n - 1, toBoard);
      TakeTopKeepsCards(u, First, toBoard);
      TakeTopKeepsCards(TakeTop(u, First, toBoard), Second, toBoard);
    }
  }

  /** The table after `setup` with a shuffle that produced `order`: five
      rounds into the hands, then six rounds onto the boards. */
  function SetUp(t: Table, order: seq<Unit>): Table
    requires |order| >= 2 * (HandDeal + BoardDeal)
  {
    DealRounds(DealRounds(Shuffled(t, order), HandDeal, false), BoardDeal, true)
  }

  /** Setup deals 22 cards, five into each hand and six onto each board, and
      creates or loses none. */
  lemma SetUpKeepsCards(t: Table, order: seq<Unit>)
    requires IsShuffleOf(t, order) && |order| >= 2 * (HandDeal + BoardDeal)
    ensures Total(SetUp(t, order)) == Total(t)
    ensures |SetUp(t, order).deck| == |order| - 2 * (HandDeal + BoardDeal)
    ensures |SetUp(t, order).one.hand| == |t.one.hand| + HandDeal
    ensures |SetUp(t, order).two.hand| == |t.two.hand| + HandDeal
    ensures |SetUp(t, order).one.board| == |t.one.board| + BoardDeal
    ensures |SetUp(t, order).two.board| == |t.two.board| + BoardDeal
  {
    ShuffledKeepsCards(t, order);
    var u := Shuffled(t, order);
    DealRoundsKeepsCards(u, HandDeal, false);
    DealRoundsKeepsCards(DealRounds(u, HandDeal, false), BoardDeal, true);
  }

  /** The table of a new match: the 30-card deck, nothing else. */
  function Start(): Table
  {
    Table(InitialDeck(), [], Side([], []), Side([], []))
  }

  /** Set up from the starting table, every hand holds 5 cards, every board 6,
      8 cards remain in the deck, and the 30 cards are still ten of each kind. */
  lemma SetUpFromStart(order: seq<Unit>)
    requires IsShuffleOf(Start(), order)
    ensures |order| == 30
    ensures |SetUp(Start(), order).one.hand| == 5 && |SetUp(Start(), order).two.hand| == 5
    ensures |SetUp(Start(), order).one.board| == 6 && |SetUp(Start(), order).two.board| == 6
    ensures |SetUp(Start(), order).deck| == 8
    ensures Fits(SetUp(Start(), order))
    ensures Total(SetUp(Start(), order)) == multiset{}[Soldier := 10][Horseman := 10][Canon := 10]
  {
    var t := Start();
    InitialDeckCounts();
    assert Total(t) == multiset(InitialDeck()) by {
      assert Held(t.one) == multiset{} && Held(t.two) == multiset{};
    }
    ShuffledKeepsCards(t, order);
    SetUpKeepsCards(t, order);
  }

  // ----- drawCard -----

  /** The table after `drawCard` for `s` with a shuffle that produced `order`. */
  function Drawn(t: Table, s: Seat, order: seq<Unit>): Table
    requires order != []
  {
    TakeTop(Shuffled(t, order), s, false)
  }

  /** A draw adds one card to one hand: the top card of the shuffled deck. It
      creates or loses no card and leaves the boards alone. */
  lemma DrawnKeepsCards(t: Table, s: Seat, order: seq<Unit>)
    requires IsShuffleOf(t, order) && order != []
    ensures Total(Drawn(t, s, order)) == Total(t)
    ensures Drawn(t, s, order).Of(s).hand == t.Of(s).hand + [order[|order| - 1]]
    ensures Drawn(t, s, order).one.board == t.one.board && Drawn(t, s, order).two.board == t.two.board
    ensures Fits(t) ==> Fits(Drawn(t, s, order))
  {
    ShuffledKeepsCards(t, order);
    TakeTopKeepsCards(Shuffled(t, order), s, false);
  }

  // ----- addCardToBoard -----

  /** The table after `addCardToBoard(s, card)`: when the board of `s` has a
      free place, the first `card` of the hand goes to the end of the board;
      otherwise nothing changes. */
  function Played(t: Table, s: Seat, card: Unit): Table
    requires |t.Of(s).board| < BoardCapacity ==> card in t.Of(s).hand
  {
    var side := t.Of(s);
    if |side.board| < BoardCapacity then
      t.With(s, Side(RemoveFirst(side.hand, card), side.board + [card]))
    else t
  }

  /** Playing a card moves it from hand to board and keeps the board within
      its six places. */
  lemma PlayedKeepsCards(t: Table, s: Seat, card: Unit)
    requires |t.Of(s).board| < BoardCapacity ==> card in t.Of(s).hand
    ensures Total(Played(t, s, card)) == Total(t)
    ensures |Played(t, s, card).Of(s).board| <= BoardCapacity || Played(t, s, card) == t
    ensures Fits(t) ==> Fits(Played(t, s, card))
  {
    var side := t.Of(s);
    if |side.board| < BoardCapacity {
      var side' := Side(RemoveFirst(side.hand, card), side.board + [card]);
      assert Held(side') == Held(side) by {
        RemoveFirstCounts(side.hand, card);
        assert multiset(side.hand) == multiset(side'.hand) + multiset{card};
      }
    }
  }

  // ----- removeCardFromBoard -----

  /** The table after `removeCardFromBoard(s, card)`: the first `card` of the
      board of `s` goes on top of the graveyard. */
  function Buried(t: Table, s: Seat, card: Unit): Table
    requires card in t.Of(s).board
  {
    var side := t.Of(s);
    t.With(s, side.(board := RemoveFirst(side.board, card))).(graveyard := t.graveyard + [card])
  }

  /** Removing a card from a board puts it in the graveyard and keeps the
      boards within capacity. */
  lemma BuriedKeepsCards(t: Table, s: Seat, card: Unit)
    requires card in t.Of(s).board
    ensures Total(Buried(t, s, card)) == Total(t)
    ensures Fits(t) ==> Fits(Buried(t, s, card))
  {
    RemoveFirstCounts(t.Of(s).board, card);
  }

  // ----- attack -----

  /** What `attack` may be given: on a tie, the attacking kind is on the
      first board; whenever the attack is not rejected, the defending kind is
      on the second board. */
  predicate CanAttack(t: Table, attacker: Unit, defender: Unit)
  {
    (attacker == defender ==> attacker in t.one.board)
    && (IsTarget(attacker, defender) ==> defender in t.two.board)
  }

  /** The table after `attack(attacker, defender)`. The attacker is always
      taken from the first board and the defender from the second. */
  function Attacked(t: Table, attacker: Unit, defender: Unit): Table
    requires CanAttack(t, attacker, defender)
  {
    match Resolve(attacker, defender)
    case Tie => Buried(Buried(t, First, attacker), Second, defender)
    case Wins => Buried(t, Second, defender)
    case Rejected => t
  }

  /** An attack only moves destroyed units to the graveyard: one from each
      board on a tie, one from the second board on a win, none when rejected. */
  lemma AttackedKeepsCards(t: Table, attacker: Unit, defender: Unit)
    requires CanAttack(t, attacker, defender)
    ensures Total(Attacked(t, attacker, defender)) == Total(t)
    ensures Fits(t) ==> Fits(Attacked(t, attacker, defender))
    ensures |Attacked(t, attacker, defender).graveyard| == |t.graveyard| + match Resolve(attacker, defender)
                                                                           case Tie => 2
                                                                           case Wins => 1
                                                                           case Rejected => 0
  {
    match Resolve(attacker, defender)
    case Tie =>
      BuriedKeepsCards(t, First, attacker);
      BuriedKeepsCards(Buried(t, First, attacker), Second, defender);
    case Wins =>
      BuriedKeepsCards(t, Second, defender);
    case Rejected =>
  }
}
