/** Dealing a deck into three piles and gathering them back, the two
    position-only operations the 21-card trick is built from. Cards are
    an opaque type parameter: neither operation ever looks at a card. */
module Piles {

  datatype Option<T> = None | Some(value: T)

  /** The one failure of gathering: the chosen index is not a pile
      (Python's `list.remove` raises ValueError). */
  datatype PileError = InvalidPileSelection

  datatype Result<T> = Ok(value: T) | Err(error: PileError)

  /** How many of the first `n` positions 0, 1, ..., n - 1 are congruent to
      `k` modulo 3, i.e. how many cards a round-robin deal of `n` cards puts
      on pile `k`. */
  function PileSize(n: nat, k: nat): nat
    requires k < 3
  {
    (n + 2 - k) / 3
  }

  /** Pile `k` of a round-robin deal: the cards at positions k, k + 3,
      k + 6, ... of `deck`, in deck order. */
  function Pile<T>(deck: seq<T>, k: nat): seq<T>
    requires k < 3
  {
    seq(PileSize(|deck|, k), j requires 0 <= j < PileSize(|deck|, k) => deck[3 * j + k])
  }

  /** The three piles a round-robin deal of `deck` produces. */
  function Dealt<T>(deck: seq<T>): seq<seq<T>>
  {
    [Pile(deck, 0), Pile(deck, 1), Pile(deck, 2)]
  }

  /** Seen from the deck: the card at index i lands on pile i % 3, at
      position i / 3, and nothing else lands there. */
  lemma DealtPlaces<T>(deck: seq<T>, i: int)
    requires 0 <= i < |deck|
    ensures i / 3 < |Dealt(deck)[i % 3]| && Dealt(deck)[i % 3][i / 3] == deck[i]
  {
  }

  /** A 21-card deck is dealt into three piles of seven. */
  lemma DealtTwentyOne<T>(deck: seq<T>)
    requires |deck| == 21
    ensures |Dealt(deck)[0]| == 7 && |Dealt(deck)[1]| == 7 && |Dealt(deck)[2]| == 7
  {
  }

  /** Dealing one more card, at index |deck|, puts it on top of pile
      |deck| % 3 and leaves the other two piles alone. */
  lemma PileAppend<T>(deck: seq<T>, card: T, k: nat)
    requires k < 3
    ensures Pile(deck + [card], k) == if k == |deck| % 3 then Pile(deck, k) + [card] else Pile(deck, k)
  {
    var longer, n := deck + [card], |deck|;
    var after, before := Pile(longer, k), Pile(deck, k);
    if k == n % 3 {
      assert PileSize(n + 1, k) == PileSize(n, k) + 1;
      assert 3 * PileSize(n, k) + k == n;
      assert after[|before|] == card;
      assert forall j :: 0 <= j < |before| ==> after[j] == longer[3 * j + k] == before[j];
      assert after == before + [card];
    } else {
      assert PileSize(n + 1, k) == PileSize(n, k);
      assert forall j :: 0 <= j < |before| ==> after[j] == longer[3 * j + k] == before[j];
    }
  }

  /** The step the dealing loop takes, on all three piles at once. */
  lemma DealtAppend<T>(deck: seq<T>, card: T)
    ensures Dealt(deck + [card]) ==
              Dealt(deck)[|deck| % 3 := Dealt(deck)[|deck| % 3] + [card]]
  {
    PileAppend(deck, card, 0);
    PileAppend(deck, card, 1);
    PileAppend(deck, card, 2);
  }

  /** The cards on the three piles, counted with multiplicity. */
  ghost function CardsOf<T>(piles: seq<seq<T>>): multiset<T>
    requires |piles| >= 3
  {
    multiset(piles[0]) + multiset(piles[1]) + multiset(piles[2])
  }

  /** Dealing neither creates, drops nor duplicates a card. */
  lemma {:induction false} DealtPreservesCards<T>(deck: seq<T>)
    ensures CardsOf(Dealt(deck)) == multiset(deck)
    decreases |deck|
  {
    if deck != [] {
      var last := |deck| - 1;
      var before := deck[..last];
      DealtPreservesCards(before);
      assert deck == before + [deck[last]];
      DealtAppend(before, deck[last]);
    }
  }

  /** deal_into_piles: walk the deck once, appending each card to pile
      i % 3. */
  method DealIntoPiles<T>(deck: seq<T>) returns (piles: seq<seq<T>>)
    ensures piles == Dealt(deck)
    ensures |piles| == 3
    ensures forall i :: 0 <= i < |deck| ==> i / 3 < |piles[i % 3]| && piles[i % 3][i / 3] == deck[i]
    ensures CardsOf(piles) == multiset(deck)
  {
    piles := [[], [], []];
    for i := 0 to |deck|
      invariant piles == Dealt(deck[..i])
    {
      assert deck[..i + 1] == deck[..i] + [deck[i]];
      DealtAppend(deck[..i], deck[i]);
      piles := piles[i % 3 := piles[i % 3] + [deck[i]]];
    }
    assert deck[..|deck|] == deck;
    forall i | 0 <= i < |deck|
      ensures i / 3 < |piles[i % 3]| && piles[i % 3][i / 3] == deck[i]
    {
      DealtPlaces(deck, i);
    }
    DealtPreservesCards(deck);
  }

  /** The index of the first occurrence of `x` in `xs`. */
  ghost function FirstIndex<T>(xs: seq<T>, x: T): (i: nat)
    requires x in xs
    ensures i < |xs| && xs[i] == x && x !in xs[..i]
  {
    if xs[0] == x then 0
    else
      var i := FirstIndex(xs[1..], x);
      assert xs[..i + 1] == [xs[0]] + xs[1..][..i];
      i + 1
  }

  /** Python's `list.remove(x)`: drop the first occurrence of `x`, or fail
      (None) when `x` does not occur. */
  function RemoveFirst(xs: seq<int>, x: int): (r: Option<seq<int>>)
    ensures r.Some? <==> x in xs
    ensures r.Some? ==> |r.value| == |xs| - 1
  {
    if xs == [] then None
    else if xs[0] == x then Some(xs[1..])
    else
      match RemoveFirst(xs[1..], x)
      case None => None
      case Some(rest) => Some([xs[0]] + rest)
  }

  /** What `remove` leaves: everything before the first occurrence of `x`,
      then everything after it. */
  lemma {:induction false} RemoveFirstDropsFirstOccurrence(xs: seq<int>, x: int)
    requires x in xs
    ensures RemoveFirst(xs, x) == Some(xs[..FirstIndex(xs, x)] + xs[FirstIndex(xs, x) + 1..])
  {
    if xs[0] == x {
      assert xs[..0] + xs[1..] == xs[1..];
    } else {
      var tail := xs[1..];
      RemoveFirstDropsFirstOccurrence(tail, x);
      var i := FirstIndex(tail, x);
      assert FirstIndex(xs, x) == i + 1;
      assert RemoveFirst(xs, x) == Some([xs[0]] + (tail[..i] + tail[i + 1..]));
      SkipOneAfterHead(xs, i);
    }
  }

  /** Removing position i + 1 of `xs` is keeping its head and removing
      position i of its tail. */
  lemma SkipOneAfterHead(xs: seq<int>, i: nat)
    requires i + 1 < |xs|
    ensures xs[..i + 1] + xs[i + 2..] == [xs[0]] + (xs[1..][..i] + xs[1..][i + 1..])
  {
    assert xs[..i + 1] == [xs[0]] + xs[1..][..i];
    assert xs[i + 2..] == xs[1..][i + 1..];
  }

  /** The two piles that were not chosen, lower index first. */
  function OtherPiles(chosen: int): (other: (int, int))
    requires 0 <= chosen < 3
    ensures 0 <= other.0 < other.1 < 3 && other.0 != chosen && other.1 != chosen
  {
    if chosen == 0 then (1, 2) else if chosen == 1 then (0, 2) else (0, 1)
  }

  /** What `[0, 1, 2].remove(chosen)` leaves behind. */
  lemma RemoveFromPileOrder(chosen: int)
    ensures RemoveFirst([0, 1, 2], chosen).Some? <==> 0 <= chosen < 3
    ensures 0 <= chosen < 3 ==>
              RemoveFirst([0, 1, 2], chosen).value == [OtherPiles(chosen).0, OtherPiles(chosen).1]
  {
    var xs := [0, 1, 2];
    if chosen == 0 {
      assert RemoveFirst(xs, 0) == Some(xs[1..]);
      assert xs[1..] == [1, 2];
    } else if chosen == 1 {
      assert RemoveFirst(xs, 1) == Some([0] + RemoveFirst(xs[1..], 1).value);
      assert xs[1..][1..] == [2];
    } else if chosen == 2 {
      assert RemoveFirst(xs, 2) == Some([0] + RemoveFirst(xs[1..], 2).value);
      assert RemoveFirst(xs[1..], 2) == Some([1] + RemoveFirst(xs[1..][1..], 2).value);
      assert xs[1..][1..] == [2];
    } else {
      assert chosen !in xs;
    }
  }

  /** gather_piles: put the chosen pile between the two others, the lower
      of those first. */
  function Gather<T>(piles: seq<seq<T>>, chosen: int): (r: Result<seq<T>>)
    requires |piles| >= 3
    ensures r.Ok? <==> 0 <= chosen < 3
    ensures r.Ok? ==>
              r.value == piles[OtherPiles(chosen).0] + piles[chosen] + piles[OtherPiles(chosen).1]
    ensures r.Ok? ==> |r.value| == |piles[0]| + |piles[1]| + |piles[2]|
    ensures r.Ok? ==> multiset(r.value) == CardsOf(piles)
  {
    RemoveFromPileOrder(chosen);
    match RemoveFirst([0, 1, 2], chosen)
    case None => Err(InvalidPileSelection)
    case Some(order) => Ok(piles[order[0]] + piles[chosen] + piles[order[1]])
  }
}
