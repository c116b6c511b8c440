# The 21-card trick, modelled in Dafny

`21_card_trick.py` is a small Streamlit app that performs the classic
21-card trick:

1. The app shows 21 distinct cards, and the spectator silently memorises one.
2. Three times, the app deals the deck round-robin into three piles of
   seven. The spectator points at the pile holding their card, and the app
   stacks the piles again with that pile in the middle.
3. After the third round, the app reveals the 11th card (index 10).

This project models the position-only core of that program and proves
why the trick works.

- `piles.dfy` (module `Piles`) models the two list operations.
  - `deal_into_piles` is a loop method, `DealIntoPiles`. It is proved equal
    to the specification function `Dealt`, in which pile `k` holds the cards
    at positions `k, k+3, k+6, ...`.
  - `gather_piles` is the function `Gather`. It uses `RemoveFirst`, a model
    of Python's `list.remove`. A pile index outside 0..2 yields the error
    value `InvalidPileSelection`, where Python would raise `ValueError`.
- `trick.dfy` (module `Trick`) follows one card through the rounds.
  - `Round` is one deal followed by one gather, and `Play` is several
    rounds in order.
  - When the spectator points truthfully, the card moves from position `p`
    to `7 + p / 3` (`NextPosition`).
  - Every start position 0..20 reaches index 10 after three such moves.
  - Hence three truthful answers leave the chosen card at index 10 of a
    deck that is still a reordering of the original.
- `session.dfy` (module `Session`) models the app's session state.
  - The class `GameSession` holds the fields `step`, `round` and `deck`.
    Each button handler that changes them is a method.
  - Three ghost fields follow the spectator's card, which the program
    never sees: `picked`, `tracking` and `position`.
  - The class invariant `Valid()` is preserved by every method. From it,
    `ShowCard` proves that after truthful answers the revealed card is the
    memorised one.

Cards are a type parameter `T`. No operation looks at a card's value, so
the image file names of the original are not needed.

## Model

| member | source | states |
|---|---|---|
| Piles.DealtPlaces | 21_card_trick.py:29-30 | the card at deck index `i` is on pile `i % 3` at position `i / 3` |
| Piles.DealtTwentyOne | 21_card_trick.py:27-31 | a 21-card deck is dealt into three piles of seven cards each |
| Piles.PileAppend | 21_card_trick.py:30 | dealing one more card appends it to pile `|deck| % 3` and leaves the other piles unchanged |
| Piles.DealtAppend | 21_card_trick.py:29-30 | one loop iteration appends the next card to pile `i % 3` of the three piles |
| Piles.DealtPreservesCards | 21_card_trick.py:28-31 | the three piles together hold exactly the deck's cards, with multiplicity |
| Piles.DealIntoPiles | 21_card_trick.py:26-31 | the loop returns exactly `Dealt(deck)`: three piles, `piles[i % 3][i / 3] == deck[i]` for every index, and together the same multiset of cards (`CardsOf`) as the deck, for a deck of any length |
| Piles.FirstIndex | 21_card_trick.py:36 | returns the first position of `x` in `xs`: `xs[i] == x`, and `x` does not occur before `i` |
| Piles.RemoveFirst | 21_card_trick.py:36 | `list.remove` succeeds exactly when `x` occurs in the list; on success one element is gone |
| Piles.RemoveFirstDropsFirstOccurrence | 21_card_trick.py:36 | `remove` deletes the first occurrence of `x` and keeps every other element in order |
| Piles.OtherPiles | 21_card_trick.py:35-38 | the two piles other than `chosen`, both in 0..2, lower index first |
| Piles.RemoveFromPileOrder | 21_card_trick.py:35-36 | `[0, 1, 2].remove(chosen)` fails exactly when `chosen` is outside 0..2; otherwise it leaves the two other indices in increasing order |
| Piles.Gather | 21_card_trick.py:33-38 | the result is an error exactly when the index is outside 0..2; otherwise it is the lower other pile, then the chosen pile, then the higher other pile, with the piles' total length and multiset of cards |
| Trick.DistinctPositions | 21_card_trick.py:44 | in a deck of distinct cards (as `random.sample` draws it), two different positions hold different cards |
| Trick.Round | 21_card_trick.py:26-38 | a round (deal, then gather) fails exactly for a pile index outside 0..2; otherwise it keeps the deck's length and multiset of cards, for any deck length |
| Trick.PileHoldingCard | 21_card_trick.py:29-30 | a card that occurs once is on pile `k` if and only if `k` is its position modulo 3 |
| Trick.PileOf | 21_card_trick.py:67 | in a deck of distinct cards, exactly one pile holds a given card, so a truthful answer is a single pile |
| Trick.NextPosition | 21_card_trick.py:38 | after a round, a card at position `p` is in the middle third, positions 7..13 |
| Trick.PositionAfter | 21_card_trick.py:69-72 | the position after any number of rounds stays within 0..20 |
| Trick.RoundMovesCard | 21_card_trick.py:33-38 | on a 21-card deck, gathering pile `p % 3` in the middle moves the card at `p` to `7 + p / 3` |
| Trick.ThreeRoundsReachTen | 21_card_trick.py:124-126 | every start position 0..20 is at index 10 after three rounds |
| Trick.Play | 21_card_trick.py:67-73 | a sequence of rounds fails exactly when some pile index is outside 0..2; otherwise it keeps length and multiset |
| Trick.TruthfulRound | 21_card_trick.py:67-69 | pointing at a pile that holds a card occurring once succeeds and moves that card to `NextPosition` |
| Trick.FollowingTracksCard | 21_card_trick.py:67-73 | truthful answers succeed and move the card exactly as `PositionAfter` says |
| Trick.RoundKeepsDistinct | 21_card_trick.py:69 | a round keeps a deck of distinct cards distinct |
| Trick.TruthfulRoundStaysOnCourse | 21_card_trick.py:67-73 | a card on course for index 10 in `r` rounds is, after a truthful round, on course in `r - 1` rounds |
| Trick.TrickRevealsChosenCard | 21_card_trick.py:67-73 | for every deck of 21 distinct cards, three truthful answers succeed, keep the cards distinct, and put the chosen card at index 10 |
| Trick.NumberedDeckDealt | 21_card_trick.py:26-31 | cards 1..21 are dealt as 1, 4, ..., 19 / 2, 5, ..., 20 / 3, 6, ..., 21 |
| Trick.NumberedDeckExample | 21_card_trick.py:33-38 | choosing the middle pile of cards 1..21 stacks 1, 4, ..., 19, then 2, ..., 20, then 3, ..., 21 |
| Session.SelectionStep | 21_card_trick.py:67-73 | a pile selection in a consistent session leaves 21 distinct cards; after a truthful answer the card is at `NextPosition` and on course for index 10 |
| Session.PlayRound | 21_card_trick.py:69 | the deal shown on the rounds screen, then gather with the pressed pile, is exactly `Round(deck, idx)` |
| Session.GameSession.constructor | 21_card_trick.py:83-84 | the first page run resets the game: welcome screen, round 1, the sampled deck, and the invariant holds |
| Session.GameSession.ResetGame | 21_card_trick.py:40-44 | `reset_game`: step 0, round 1, a new deck of 21 distinct cards; the invariant holds |
| Session.GameSession.StartTrick | 21_card_trick.py:93-94 | the start button moves from step 0 to step 1 and changes nothing else |
| Session.GameSession.ConfirmCard | 21_card_trick.py:105-106 | the confirm button moves from step 1 to step 2 without touching the deck; the memorised card starts being tracked |
| Session.GameSession.SelectPile | 21_card_trick.py:67-73 | the new deck is `Round(old deck, idx)`; the round count goes up by one; the step becomes 3 once the count exceeds 3; the invariant is kept; tracking continues exactly when the pointed pile holds the card |
| Session.GameSession.ShowCard | 21_card_trick.py:124-130 | the reveal shows `deck[10]` exactly when the deck has more than 10 cards, and an error otherwise; in a consistent session the card is always there; after truthful answers it is the memorised card |

Proof helpers without a row, because they state general facts about
sequences or about the model's own definitions rather than anything the
program does: `SkipOneAfterHead` (slicing around one removed position),
`TwoPlaces` (a value at two positions occurs twice) and `PositionAfterStep`
(one unfolding of `PositionAfter`). `FirstIndex` is also used by the ghost
tracking of the spectator's card, to find where the memorised card sits.

## Left out

- The Streamlit user interface is not modelled: titles, images, columns, containers, balloons, `st.rerun()` and the button widgets themselves. Each button handler is a method that the caller invokes.
- Loading the card images (lines 7-22), including the folder scan, the joker filter and the "not enough cards" stop, is not modelled. The deck is a parameter of the constructor and of `ResetGame`, and the caller promises 21 distinct cards.
- `random.sample` (line 44) is not modelled; the randomness becomes the `newDeck` parameter.
- The debug `print` in `reset_game` (line 46) is I/O and is not modelled.
- Line 69 passes the undefined name `pile_idx` to `gather_piles`. As written, Python raises a `NameError` there. `SelectPile` models the evidently intended argument, the loop variable `idx` of line 54. The crash is not modelled.
- `gather_piles` indexes `piles[0..2]`, so handing it fewer than three piles is a Python `IndexError`. `Gather` requires at least three piles instead; every caller passes the output of a deal.
- `deal_into_piles` accepts decks of any length and never rejects a deck that is not 21 cards. The model follows the code: `DealIntoPiles`, `Gather`, `Round` and `Play` hold for every deck length, and only the theorems about positions assume 21 cards.
- The spectator's secret choice is not program state. It is modelled by ghost fields. `ConfirmCard` takes the memorised card as a ghost parameter.
- Session.GameSession.SelectPile: requires `step == 2` and a pile index in 0..2, because the buttons exist only on that screen and only for piles 0..2.
- Session.GameSession.ShowCard: requires `step == 3`, because the reveal screen renders only there.
