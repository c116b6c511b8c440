/** One round of the trick is a deal followed by a gather on the pile the
    spectator points at. This module follows one card through the rounds
    and proves that after three honest answers it sits at index 10, the
    card the reveal shows. */
module Trick {
  import opened Piles

  /** No card occurs twice. */
  ghost predicate Distinct<T>(s: seq<T>)
  {
    forall x | x in multiset(s) :: multiset(s)[x] == 1
  }

  /** In a distinct sequence two different positions hold different
      cards. */
  lemma DistinctPositions<T>(s: seq<T>, i: int, j: int)
    requires Distinct(s) && 0 <= i < |s| && 0 <= j < |s| && i != j
    ensures s[i] != s[j]
  {
    if s[i] == s[j] {
      if i < j {
        TwoPlaces(s, i, j);
      } else {
        TwoPlaces(s, j, i);
      }
    }
  }

  /** One round: deal the deck, then gather with pile `chosen` in the
      middle. For every deck length a round only reorders the deck, and
      only an index outside 0..2 makes it fail. */
  function Round<T>(deck: seq<T>, chosen: int): (r: Result<seq<T>>)
    ensures r.Ok? <==> 0 <= chosen < 3
    ensures r.Ok? ==> |r.value| == |deck| && multiset(r.value) == multiset(deck)
  {
    var piles := Dealt(deck);
    DealtPreservesCards(deck);
    Gather(piles, chosen)
  }

  /** A value found at two different places occurs at least twice. */
  lemma TwoPlaces<T>(s: seq<T>, i: int, j: int)
    requires 0 <= i < j < |s| && s[i] == s[j]
    ensures multiset(s)[s[i]] >= 2
  {
    assert s == s[..j] + s[j..];
    assert s[i] in s[..j] && s[j] in s[j..];
  }

  /** When the card at position p occurs only once, it is on pile p % 3
      and on no other pile, so pointing at "the pile that holds my card"
      is pointing at pile p % 3. */
  lemma PileHoldingCard<T>(deck: seq<T>, p: int, k: int)
    requires 0 <= p < |deck| && multiset(deck)[deck[p]] == 1 && 0 <= k < 3
    ensures deck[p] in Dealt(deck)[k] <==> k == p % 3
  {
    DealtPlaces(deck, p);
    if deck[p] in Dealt(deck)[k] {
      var j :| 0 <= j < |Dealt(deck)[k]| && Dealt(deck)[k][j] == deck[p];
      var q := 3 * j + k;
      assert deck[q] == deck[p];
      if q < p {
        TwoPlaces(deck, q, p);
      } else if p < q {
        TwoPlaces(deck, p, q);
      }
    }
  }

  /** The pile a truthful spectator points at: the one holding `c`, which
      exists and is unique. */
  ghost function PileOf<T>(deck: seq<T>, c: T): (k: int)
    requires Distinct(deck) && c in deck
    ensures 0 <= k < 3 && c in Dealt(deck)[k]
    ensures forall k' :: 0 <= k' < 3 && c in Dealt(deck)[k'] ==> k' == k
  {
    var p := FirstIndex(deck, c);
    assert multiset(deck)[c] <= 1;
    forall k' | 0 <= k' < 3 ensures c in Dealt(deck)[k'] <==> k' == p % 3 {
      PileHoldingCard(deck, p, k');
    }
    p % 3
  }

  /** Where a card at position p of a 21-card deck is after its pile has
      been gathered in the middle: behind the 7 cards of the lower other
      pile, at its own place p / 3 within its pile. */
  function NextPosition(p: int): (q: int)
    requires 0 <= p < 21
    ensures 7 <= q <= 13
  {
    7 + p / 3
  }

  /** The card's position after `rounds` more rounds. */
  function PositionAfter(p: int, rounds: nat): (q: int)
    requires 0 <= p < 21
    ensures 0 <= q < 21
    decreases rounds
  {
    if rounds == 0 then p else PositionAfter(NextPosition(p), rounds - 1)
  }

  /** One round of PositionAfter, peeled off the front. */
  lemma PositionAfterStep(p: int, rounds: nat)
    requires 0 <= p < 21 && rounds > 0
    ensures PositionAfter(p, rounds) == PositionAfter(NextPosition(p), rounds - 1)
  {
  }

  /** The position-update theorem: gathering the pile that holds the card
      at position p moves that card to 7 + p / 3. */
  lemma RoundMovesCard<T>(deck: seq<T>, p: int)
    requires |deck| == 21 && 0 <= p < 21
    ensures Round(deck, p % 3).Ok?
    ensures |Round(deck, p % 3).value| == 21
    ensures Round(deck, p % 3).value[NextPosition(p)] == deck[p]
  {
    DealtPlaces(deck, p);
    var piles := Dealt(deck);
    var k := p % 3;
    var r := Round(deck, k).value;
    assert r == piles[OtherPiles(k).0] + piles[k] + piles[OtherPiles(k).1];
    assert |piles[OtherPiles(k).0]| == 7;
    assert r[7 + p / 3] == piles[k][p / 3];
  }

  /** Every start position reaches index 10 in three rounds: 0..20 narrows
      to 7..13, then to 9..11, then to 10. */
  lemma ThreeRoundsReachTen(p: int)
    requires 0 <= p < 21
    ensures PositionAfter(p, 3) == 10
  {
    assert 7 <= NextPosition(p) <= 13;
    assert 9 <= NextPosition(NextPosition(p)) <= 11;
  }

  /** Play the rounds in order, one pile index per round; the first index
      outside 0..2 stops the game with its error. */
  function Play<T>(deck: seq<T>, choices: seq<int>): (r: Result<seq<T>>)
    ensures r.Ok? <==> forall k :: k in choices ==> 0 <= k < 3
    ensures r.Ok? ==> |r.value| == |deck| && multiset(r.value) == multiset(deck)
    decreases |choices|
  {
    if choices == [] then Ok(deck)
    else
      var first, rest := choices[0], choices[1..];
      assert forall k :: k in choices <==> k == first || k in rest by {
        assert choices == [first] + rest;
      }
      match Round(deck, first)
      case Err(e) =>
        assert !(0 <= first < 3) && first in choices;
        Err(e)
      case Ok(next) => Play(next, rest)
  }

  /** Every choice is the pile that holds `c` in that round's deal. */
  ghost predicate FollowsCard<T>(deck: seq<T>, c: T, choices: seq<int>)
    decreases |choices|
  {
    choices == [] ||
    (0 <= choices[0] < 3 && c in Dealt(deck)[choices[0]] &&
     FollowsCard(Round(deck, choices[0]).value, c, choices[1..]))
  }

  /** One truthful answer about a card that occurs once: the round
      succeeds and moves the card from p to NextPosition(p). */
  lemma TruthfulRound<T>(deck: seq<T>, p: int, k: int)
    requires |deck| == 21 && 0 <= p < 21 && multiset(deck)[deck[p]] == 1
    requires 0 <= k < 3 && deck[p] in Dealt(deck)[k]
    ensures Round(deck, k).Ok?
    ensures Round(deck, k).value[NextPosition(p)] == deck[p]
  {
    PileHoldingCard(deck, p, k);
    RoundMovesCard(deck, p);
  }

  /** Truthful answers about a card that occurs once move it exactly as
      PositionAfter says. */
  lemma {:induction false} FollowingTracksCard<T>(deck: seq<T>, p: int, choices: seq<int>)
    requires |deck| == 21 && 0 <= p < 21 && multiset(deck)[deck[p]] == 1
    requires FollowsCard(deck, deck[p], choices)
    ensures Play(deck, choices).Ok?
    ensures |Play(deck, choices).value| == 21
    ensures Play(deck, choices).value[PositionAfter(p, |choices|)] == deck[p]
    decreases |choices|
  {
    if choices != [] {
      TruthfulRound(deck, p, choices[0]);
      var next, rest := Round(deck, choices[0]).value, choices[1..];
      var q := NextPosition(p);
      FollowingTracksCard(next, q, rest);
      assert Play(deck, choices) == Play(next, rest);
      PositionAfterStep(p, |choices|);
      assert |rest| == |choices| - 1;
    }
  }

  /** A round keeps a deck of distinct cards distinct. */
  lemma RoundKeepsDistinct<T>(deck: seq<T>, k: int)
    requires Distinct(deck) && 0 <= k < 3
    ensures Round(deck, k).Ok? && Distinct(Round(deck, k).value)
  {
  }

  /** The round-by-round form of the trick: if the card at position p
      occurs once and would reach index 10 in `remaining` more rounds, then
      after a truthful answer it is at NextPosition(p) and reaches index 10
      in one round fewer. */
  lemma TruthfulRoundStaysOnCourse<T>(deck: seq<T>, p: int, k: int, remaining: nat)
    requires |deck| == 21 && 0 <= p < 21 && multiset(deck)[deck[p]] == 1
    requires 0 <= k < 3 && deck[p] in Dealt(deck)[k]
    requires remaining > 0 && PositionAfter(p, remaining) == 10
    ensures Round(deck, k).Ok?
    ensures var next := Round(deck, k).value;
            |next| == 21 && next[NextPosition(p)] == deck[p] &&
            PositionAfter(NextPosition(p), remaining - 1) == 10
  {
    TruthfulRound(deck, p, k);
    PositionAfterStep(p, remaining);
  }

  /** The trick: whatever the deck of 21 distinct cards and the
      spectator's card, three truthful answers leave that card at index 10
      of a deck that is still a reordering of the original. */
  lemma TrickRevealsChosenCard<T>(deck: seq<T>, c: T, choices: seq<int>)
    requires |deck| == 21 && Distinct(deck) && c in deck
    requires |choices| == 3 && FollowsCard(deck, c, choices)
    ensures Play(deck, choices).Ok?
    ensures Distinct(Play(deck, choices).value)
    ensures Play(deck, choices).value[10] == c
  {
    var p := FirstIndex(deck, c);
    assert multiset(deck)[c] <= 1;
    FollowingTracksCard(deck, p, choices);
    ThreeRoundsReachTen(p);
  }

  /** Cards 1..21 in order. */
  predicate IsNumberedDeck(deck: seq<int>)
  {
    |deck| == 21 && forall i :: 0 <= i < 21 ==> deck[i] == i + 1
  }

  /** The numbered deck is dealt into 1, 4, ..., 19 / 2, 5, ..., 20 /
      3, 6, ..., 21. */
  lemma NumberedDeckDealt(deck: seq<int>)
    requires IsNumberedDeck(deck)
    ensures Dealt(deck)[0] == [1, 4, 7, 10, 13, 16, 19]
    ensures Dealt(deck)[1] == [2, 5, 8, 11, 14, 17, 20]
    ensures Dealt(deck)[2] == [3, 6, 9, 12, 15, 18, 21]
  {
    forall k | 0 <= k < 3
      ensures |Dealt(deck)[k]| == 7
      ensures forall j :: 0 <= j < 7 ==> Dealt(deck)[k][j] == 3 * j + k + 1
    {
    }
  }

  /** With card 11 on pile 1, the first round gathers the numbered deck
      into 1, 4, ..., 19, then 2, 5, ..., 20, then 3, 6, ..., 21, so card
      11 stays at index 10 (= 7 + 10 / 3). */
  lemma NumberedDeckExample(deck: seq<int>)
    requires IsNumberedDeck(deck)
    ensures Round(deck, 1) == Ok([1, 4, 7, 10, 13, 16, 19] +
                                 [2, 5, 8, 11, 14, 17, 20] +
                                 [3, 6, 9, 12, 15, 18, 21])
  {
    NumberedDeckDealt(deck);
    var piles := Dealt(deck);
    assert Round(deck, 1) == Ok(piles[0] + piles[1] + piles[2]);
  }
}
