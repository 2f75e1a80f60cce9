# Soldier, horseman, canon — a verified model of the game engine

The game is a two-player card game with three kinds of unit: a soldier beats a
horseman, a horseman beats a canon and a canon beats a soldier. A deck of
thirty cards (ten of each kind) is shuffled. Each player gets five cards in
hand and six on the board. Players then draw cards, put cards from hand on the
board (at most six) and attack the opponent's units. Destroyed units go to the
graveyard, and the graveyard is reshuffled into the deck once the deck is
empty. The game is over when a board is empty.

The model covers the engine of the browser client: the unit table, the piles
(deck, graveyard, hands, boards), the game log and the operations `shuffleDeck`,
`setup`, `drawCard`, `addCardToBoard`, `removeCardFromBoard`, `attack`,
`isGameOver`, `getWinner` and `play`, plus the target test of the board click
handler.

It has four modules:

- `Units` (`units.dfy`): the unit kinds and their `can_beat` / `can_beat_by`
  table. It proves the two columns describe the same three-cycle, and that
  every attack falls into exactly one of the three branches of `attack`.
- `Piles` (`piles.dfy`): a card is its kind, and a pile is a sequence of kinds
  whose top is its last element. It models `indexOf` and `splice(i, 1)` with
  JavaScript's rules (a negative start counts from the end, and a start past
  the end removes nothing), plus `RemoveFirst`, an independent element-wise
  definition of "take out the first `x`", and the starting deck.
- `Rules` (`rules.dfy`): one pure transition function per operation on a
  `Table` value, which records where every card lies. The lemmas prove that no
  operation creates or loses a card (the multiset of all cards is kept) and
  that boards stay within their six places.
- `Engine` (`engine.dfy`): the mutable state as classes, `Player` with `hand`
  and `board` and `Game` with `deck`, `graveyard` and `gameLog`, plus the
  operations as methods. Each method is proved to change the piles exactly
  as its `Rules` function says (through `Game.Snapshot()`), and states how
  many messages it appends to the log, keeping the earlier ones. The
  module-level method `Play` models `play()`: a new game is set up.

Randomness is a free choice. The swap loop of the shuffle picks any index
`j` with `0 <= j <= i`, which is what `Math.floor(Math.random() * (i + 1))`
can yield. Sorting the recycled graveyard with a random comparator yields some
permutation. So the shuffle is specified by "the new deck is a permutation of
the old deck, or of the graveyard when the deck was empty". The order a
shuffle produced is a ghost out-parameter of the methods that shuffle.

## Model

| member | source | states |
|---|---|---|
| Units.CanBeat | src/js/main.js:39-52 | the `can_beat` entry of a kind is never the kind itself |
| Units.CanBeatBy | src/js/main.js:39-52 | the `can_beat_by` entry is the third kind, and its `can_beat` entry is the original kind |
| Units.BeatsIsThreeCycle | src/js/main.js:39-52 | the `can_beat` column is the cycle soldier, horseman, canon: following it twice from a kind reaches the kind that beats it, and three times returns to the start |
| Units.BeatenByIsConverse | src/js/main.js:39-52 | `can_beat_by[x] == y` exactly when `can_beat[y] == x`: the two columns of the table are one relation |
| Units.Resolve | src/js/main.js:164-183 | every pair of kinds is exactly one of tie (same kind), win (`can_beat`) or rejected (`can_beat_by`), each stated as an if-and-only-if |
| Units.IsTarget | src/js/main.js:289 | the click handler highlights an opponent unit exactly when `attack` would not reject it, i.e. unless the opponent is the kind that beats the attacker |
| Piles.IndexOf | src/js/main.js:150 | `indexOf` yields -1 exactly when the element is absent, and otherwise a position holding it with no earlier occurrence |
| Piles.SpliceOne | src/js/main.js:150 | `splice(start, 1)` returns nothing exactly when the array is empty or start is past the end (and then changes nothing); otherwise it removes one element and keeps the multiset of the rest |
| Piles.RemoveFirst | src/js/main.js:159 | removing the first occurrence shortens the pile by one |
| Piles.RemoveFirstCounts | src/js/main.js:159 | removing the first `x` takes exactly one `x` out and keeps every other card |
| Piles.RemoveFirstAt | src/js/main.js:159 | when the first `x` stands at position `i`, removing it leaves exactly the cards before and after `i` |
| Piles.SpliceOnPresentIsRemoveFirst | src/js/main.js:150 | for a present card, `splice(indexOf(card), 1)` removes exactly its first occurrence and returns that card |
| Piles.SpliceOnMissingTakesLast | src/js/main.js:159 | for an absent card, `splice(indexOf(card), 1)` removes and returns the last card of the pile, which is of another kind |
| Piles.SpliceOnMissingExample | src/js/main.js:159 | removing a horseman from a board holding only a soldier destroys the soldier |
| Piles.Repeat | src/js/main.js:71-73 | `Array(n).fill(x)` has `n` elements, all equal to `x` |
| Piles.RepeatCounts | src/js/main.js:71-73 | `Array(n).fill(x)` holds `n` copies of `x` and nothing else |
| Piles.InitialDeckCounts | src/js/main.js:70-74 | the starting deck has 30 cards, ten of each kind |
| Rules.ShuffledKeepsCards | src/js/main.js:87-103 | a shuffle keeps every card in play, leaves hands and boards alone, and the new deck is as long as the old deck (or the graveyard when the deck was empty) |
| Rules.TakeTop | src/js/main.js:113 | `deck.pop()` into a pile shortens the deck by one and leaves the graveyard alone |
| Rules.TakeTopKeepsCards | src/js/main.js:113-121 | moving the top card of the deck to a hand or board keeps every card in play |
| Rules.DealRounds | src/js/main.js:112-122 | `n` rounds of dealing take `2n` cards off the deck and leave the graveyard alone |
| Rules.DealRoundsKeepsCards | src/js/main.js:112-122 | dealing keeps every card in play; dealing to hands adds `n` cards to each hand and leaves boards alone, dealing to boards adds `n` cards to each board and leaves hands alone |
| Rules.SetUpKeepsCards | src/js/main.js:106-122 | setup keeps every card in play, deals five cards to each hand and six to each board, and leaves 22 fewer cards in the deck |
| Rules.SetUpFromStart | src/js/main.js:70-122 | from the starting table, setup leaves hands of 5, boards of 6, a deck of 8, boards within capacity, and still ten cards of each kind |
| Rules.DrawnKeepsCards | src/js/main.js:133-143 | a draw keeps every card in play, appends the top card of the shuffled deck to the hand, leaves both boards alone and keeps boards within capacity |
| Rules.PlayedKeepsCards | src/js/main.js:146-154 | adding a card to the board keeps every card in play, and the board never grows past six places |
| Rules.BuriedKeepsCards | src/js/main.js:157-161 | removing a card from a board moves it to the graveyard, keeps every card in play and keeps boards within capacity |
| Rules.AttackedKeepsCards | src/js/main.js:164-183 | an attack keeps every card in play and boards within capacity, and adds two cards to the graveyard on a tie, one on a win and none when rejected |
| Engine.Player.constructor | src/js/main.js:56-68 | a player starts with its name and an empty hand and board |
| Engine.Game.constructor | src/js/main.js:54-77 | a new game holds two distinct, newly created players named "Player 1" and "Player 2" (so callers may run the operations on them), the 30-card starting deck, an empty graveyard, empty hands and boards and an empty log |
| Engine.Game.Log | src/js/main.js:78-79 | a message is appended to the game log |
| Engine.Game.PushTop | src/js/main.js:113-121 | `pile.push(deck.pop())` moves the top card of the deck to the end of one player's hand or board and changes nothing else |
| Engine.Game.ShuffleDeck | src/js/main.js:87-103 | the swap loop and the recycling of the graveyard leave the deck a permutation of the old deck (of the graveyard when the deck was empty), empty the graveyard only in that case, and log two messages |
| Engine.Game.DealRound | src/js/main.js:113-121 | one round deals the top card to player 1 and the next card to player 2 |
| Engine.Game.DealInto | src/js/main.js:112-122 | the dealing loop performs `n` rounds exactly as `Rules.DealRounds` says |
| Engine.Game.Setup | src/js/main.js:106-130 | setup shuffles, then deals five rounds into the hands and six onto the boards, exactly as `Rules.SetUp` says, and logs six messages |
| Engine.Game.DrawCard | src/js/main.js:133-143 | a draw shuffles and then moves the top card of the shuffled deck to the end of the player's hand, exactly as `Rules.Drawn` says, and logs four messages |
| Engine.Game.AddCardToBoard | src/js/main.js:146-154 | with a free place on the board, the first copy of the card leaves the hand and goes to the end of the board; with a full board nothing moves; two messages are logged |
| Engine.Game.RemoveCardFromBoard | src/js/main.js:157-161 | the first copy of the card leaves the board and goes on top of the graveyard, the hand is untouched, and two messages are logged |
| Engine.Game.Attack | src/js/main.js:164-183 | on a tie one attacker leaves board 1 and one defender leaves board 2, both into the graveyard; on a win only the defender leaves board 2; on a rejected attack no pile changes; hands never change; the log grows by 5, 3 or 1 messages |
| Engine.Game.IsGameOver | src/js/main.js:186-188 | the game is over exactly when some player's board is empty |
| Engine.Game.GetWinner | src/js/main.js:191-193 | the winner is always one of the two players |
| Engine.Game.WinnerOfFinishedGame | src/js/main.js:186-193 | once the game is over the winner still has units and the other board is empty; when both boards are empty, player 2 is reported |
| Engine.Play | src/js/main.js:223-233 | a new game after setup has hands of 5, boards of 6 and still ten cards of each kind, is therefore not over (so no winner is logged), and its log holds the six setup messages |

## Left out

- The DOM side of `log` (creating the log element) and the rendering functions `populateHand` and `populateBoard` are not modelled. They only draw the state.
- The click handler of the boards is not modelled, except the target test at line 289 (`Units.IsTarget`). It only toggles CSS classes on card elements; nothing in `main.js` calls `attack`, `drawCard`, `addCardToBoard` or `removeCardFromBoard`.
- Engine.Play: the branch of `play()` that logs the winner is left out, because `Engine.Play` proves that the game is never over right after setup.
- The socket.io connection, `server.js` and `socketId` are not modelled. They are network I/O and hold no game state the engine reads.
- `Math.random` is replaced by a free choice. The model says nothing about how likely each order of the deck is.
- The log messages are built from the same parts as in the source. The model does not claim that JavaScript's `${array}` text is exactly `Piles.Show`; the proofs only count log entries and keep the earlier ones.
- Engine.Game.Setup: requires at least 22 cards to deal (`2 * (HandDeal + BoardDeal)`). With fewer, `deck.pop()` yields `undefined` and pushes it into a hand or board, which a pile of kinds cannot hold.
- Engine.Game.DrawCard: requires a card in the deck or the graveyard, for the same reason.
- Engine.Game.AddCardToBoard: requires the card in the hand when the board has a free place. Engine.Game.RemoveCardFromBoard requires the card on the board, and Engine.Game.Attack requires the units it removes (`Rules.CanAttack`). The as-written behaviour for a missing card is recorded under Findings.
- The conservation of cards is proved on the `Rules` functions (`Rules.*KeepsCards`), and each method is proved equal to its function. The methods do not restate it in their own contracts.
- Where the code departs from the header comment of `main.js` (lines 14 and 18) or from what a reader might expect, the model follows the code:
  - a hand has no maximum size (the header comment says five);
  - there is no turn alternation;
  - when both boards are empty, player 2 is reported as the winner;
  - cards carry no identity beyond their kind;
  - on a tie, `attack` removes the attacker from player 1's board, and on a tie or a win it removes the defender from player 2's board, while the click handler selects player 2's units as attackers against player 1's units.

## Findings

| source | as written | input that shows it | evidently intended | confidence | as-written member | corrected member |
|---|---|---|---|---|---|---|
| src/js/main.js:150,159 | the card is removed with `splice(indexOf(card), 1)`; for a card that is not in the pile `indexOf` yields -1, and `splice(-1, 1)` removes the last card of the pile | board `[soldier]`, `removeCardFromBoard(player, "horseman")`: the soldier goes to the graveyard | removal is only asked for a card that is present (the model requires it), and then the first copy of that card is removed | not executed | Piles.SpliceOnMissingTakesLast | Piles.SpliceOnPresentIsRemoveFirst |
