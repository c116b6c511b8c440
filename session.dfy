/** The game session: the three fields the app keeps between page runs
    (`step`, `round`, `deck`) and the actions that change them. Three ghost
    fields follow the spectator's silently chosen card, which the program
    never sees, so that the reveal can be proved to show it. */
module Session {
  import opened Piles
  import opened Trick

  /** The screens, in the order the game walks through them. */
  const Welcome := 0
  const Memorize := 1
  const Rounds := 2
  const Reveal := 3

  /** What one pile selection does to the deck and to the tracked card. */
  lemma SelectionStep<T>(deck: seq<T>, next: seq<T>, picked: T, tracking: bool, position: int, round: int, idx: int)
    requires |deck| == 21 && Distinct(deck) && 1 <= round <= 3 && 0 <= idx < 3
    requires tracking ==> 0 <= position < 21 && deck[position] == picked && PositionAfter(position, 4 - round) == 10
    requires Round(deck, idx) == Ok(next)
    ensures var truthful := tracking && picked in Dealt(deck)[idx];
            var moved := if truthful then NextPosition(position) else position;
            |next| == 21 && Distinct(next) &&
            (truthful ==> 0 <= moved < 21 && next[moved] == picked && PositionAfter(moved, 4 - (round + 1)) == 10)
  {
    RoundKeepsDistinct(deck, idx);
    if tracking && picked in Dealt(deck)[idx] {
      assert multiset(deck)[picked] <= 1;
      TruthfulRoundStaysOnCourse(deck, position, idx, 4 - round);
    }
  }

  /** The body of a pile button: deal the deck, gather with pile `idx` in
      the middle. */
  method PlayRound<T>(deck: seq<T>, idx: int) returns (next: seq<T>)
    requires 0 <= idx < 3
    ensures Round(deck, idx) == Ok(next)
  {
    var piles := DealIntoPiles(deck);
    var gathered := Gather(piles, idx);
    next := gathered.value;
  }

  class GameSession<T> {
    var step: int
    var round: int
    var deck: seq<T>

    /** The card the spectator memorised. */
    ghost var picked: T
    /** The spectator has memorised `picked` and so far has always pointed
        at the pile that holds it. */
    ghost var tracking: bool
    /** Where `picked` sits in `deck` while tracking. */
    ghost var position: int

    /** A 21-card deck of distinct cards; `round` is 1 before the rounds,
        1..3 during them and 4 at the reveal; while the spectator answers
        truthfully, the rounds still to come bring the card to index 10. */
    ghost predicate Valid()
      reads this
    {
      |deck| == 21 && Distinct(deck) &&
      Welcome <= step <= Reveal &&
      (step < Rounds ==> round == 1) &&
      (step == Rounds ==> 1 <= round <= 3) &&
      (step == Reveal ==> round == 4) &&
      (tracking ==>
         step >= Rounds && 0 <= position < 21 && deck[position] == picked &&
         PositionAfter(position, 4 - round) == 10)
    }

    /** The first page run: the session has no `step` yet, so the game is
        reset with the deck the caller sampled. */
    constructor (initial: seq<T>)
      requires |initial| == 21 && Distinct(initial)
      ensures Valid()
      ensures step == Welcome && round == 1 && deck == initial && !tracking
    {
      step, round, deck := Welcome, 1, initial;
      picked, tracking := initial[0], false;
    }

    /** reset_game: back to the welcome screen, round 1, a freshly sampled deck. */
    method ResetGame(newDeck: seq<T>)
      requires |newDeck| == 21 && Distinct(newDeck)
      modifies this
      ensures Valid()
      ensures step == Welcome && round == 1 && deck == newDeck && !tracking
    {
      step, round, deck := Welcome, 1, newDeck;
      tracking := false;
    }

    /** The start button on the welcome screen. */
    method StartTrick()
      requires Valid() && step == Welcome
      modifies this
      ensures Valid()
      ensures step == Memorize && round == old(round) && deck == old(deck)
      ensures tracking == old(tracking) && picked == old(picked)
    {
      step := Memorize;
    }

    /** The confirmation button after the spectator memorised `card`; the
        deck is not touched. */
    method ConfirmCard(ghost card: T)
      requires Valid() && step == Memorize && card in deck
      modifies this
      ensures Valid()
      ensures step == Rounds && round == 1 && deck == old(deck)
      ensures picked == card && tracking
    {
      step := Rounds;
      picked, tracking, position := card, true, FirstIndex(deck, card);
      ThreeRoundsReachTen(position);
    }

    /** The button under pile `idx`: gather the piles that were dealt from
        the current deck with that pile in the middle, count the round, and
        after the third round go to the reveal. */
    method SelectPile(idx: int)
      requires Valid() && step == Rounds && 0 <= idx < 3
      modifies this
      ensures Valid()
      ensures Round(old(deck), idx) == Ok(deck)
      ensures round == old(round) + 1
      ensures step == if round > 3 then Reveal else Rounds
      ensures picked == old(picked)
      ensures tracking == (old(tracking) && picked in Dealt(old(deck))[idx])
    {
      var next := PlayRound(deck, idx);
      SelectionStep(deck, next, picked, tracking, position, round, idx);
      ghost var truthful := tracking && picked in Dealt(deck)[idx];
      deck, round, step := next, round + 1, if round + 1 > 3 then Reveal else Rounds;
      tracking, position := truthful, if truthful then NextPosition(position) else position;
    }

    /** The reveal screen: the 11th card when the deck has one, nothing
        (the error message) otherwise. In a consistent session the card is
        always there, and after truthful answers it is the memorised card. */
    method ShowCard() returns (card: Option<T>)
      requires step == Reveal
      ensures card.Some? <==> |deck| > 10
      ensures card.Some? ==> card.value == deck[10]
      ensures Valid() ==> card.Some?
      ensures Valid() && tracking ==> card == Some(picked)
    {
      if |deck| > 10 {
        card := Some(deck[10]);
      } else {
        card := None;
      }
    }
  }
}
