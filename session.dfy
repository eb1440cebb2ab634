/**
 * The session object `appState` shared by both variants: its five fields, the
 * transitions the event handlers apply to them, and the pairing of drawn cards
 * with position labels that `renderResults` shows.
 */
module Session {
  import opened Cards
  import opened Spreads
  import opened Shuffle

  /** The five fields of `appState`, as a value. */
  datatype State = State(
    currentDeck: Option<Deck>,
    currentSpread: Option<Spread>,
    shuffledDeck: seq<Card>,
    drawnCards: seq<Card>,
    cardsToDraw: int)

  /** The value `appState` starts with, and the one `resetApp` restores. */
  const Initial: State := State(None, None, [], [], 0)

  /** The successful end of `loadDeck`: the parsed deck becomes the current deck. */
  function LoadedDeck(s: State, deck: Deck): State {
    s.(currentDeck := Some(deck))
  }

  /**
   * Choosing a spread: it becomes the current spread, its card count becomes the
   * countdown, and the shuffle of the current deck's cards becomes the pool.
   * The drawn cards are not touched.
   */
  function SpreadSelected(s: State, spread: Spread, js: seq<nat>): State
    requires s.currentDeck.Some? && IsOracle(js, |s.currentDeck.value.cards|)
  {
    s.(currentSpread := Some(spread),
       cardsToDraw := spread.cardsToDraw,
       shuffledDeck := FisherYates(s.currentDeck.value.cards, js))
  }

  /** One card-back click: pop the tail of the pool, push it onto the drawn cards, count down. */
  function CardDrawn(s: State): State
    requires |s.shuffledDeck| > 0
  {
    var n := |s.shuffledDeck|;
    s.(shuffledDeck := s.shuffledDeck[..n - 1],
       drawnCards := s.drawnCards + [s.shuffledDeck[n - 1]],
       cardsToDraw := s.cardsToDraw - 1)
  }

  /** `k` card-back clicks in a row. */
  function CardsDrawn(s: State, k: nat): (r: State)
    requires k <= |s.shuffledDeck|
    ensures |r.shuffledDeck| == |s.shuffledDeck| - k
    decreases k
  {
    if k == 0 then s else CardDrawn(CardsDrawn(s, k - 1))
  }

  /** The last `k` elements of `xs`, last one first: the order in which pops return them. */
  function TailReversed<T>(xs: seq<T>, k: nat): seq<T>
    requires k <= |xs|
  {
    seq(k, i requires 0 <= i < k => xs[|xs| - 1 - i])
  }

  /**
   * The session invariant: a deck and a spread are chosen, the drawn cards and
   * the pool together are exactly the deck's cards, and every drawn card has
   * been counted down from the spread's card count.
   */
  predicate Consistent(s: State) {
    && s.currentDeck.Some?
    && s.currentSpread.Some?
    && multiset(s.drawnCards + s.shuffledDeck) == multiset(s.currentDeck.value.cards)
    && |s.drawnCards| + s.cardsToDraw == s.currentSpread.value.cardsToDraw
  }

  /** One entry of the result screen: `${index + 1}. ${position}` above the card. */
  datatype ResultEntry = ResultEntry(number: nat, position: Option<string>, card: Card)

  /**
   * `renderResults`: the drawn card at index `i` is shown under the spread's
   * position `i`, which is `undefined` (here `None`) past the end of the positions.
   */
  function Results(s: State): seq<ResultEntry>
    requires s.currentSpread.Some?
  {
    var drawn, positions := s.drawnCards, s.currentSpread.value.positions;
    seq(|drawn|, i requires 0 <= i < |drawn| =>
      ResultEntry(i + 1, if i < |positions| then Some(positions[i]) else None, drawn[i]))
  }

  /** Selecting a spread before anything is drawn starts a consistent session on a permutation of the deck. */
  lemma SpreadSelectedConsistent(s: State, spread: Spread, js: seq<nat>)
    requires s.currentDeck.Some? && IsOracle(js, |s.currentDeck.value.cards|)
    requires s.drawnCards == []
    ensures var r := SpreadSelected(s, spread, js);
            Consistent(r) && r.cardsToDraw == spread.cardsToDraw
            && multiset(r.shuffledDeck) == multiset(s.currentDeck.value.cards)
  {
    FisherYatesPermutes(s.currentDeck.value.cards, js);
    assert SpreadSelected(s, spread, js).drawnCards + FisherYates(s.currentDeck.value.cards, js)
        == FisherYates(s.currentDeck.value.cards, js);
  }

  /** A click keeps the drawn cards and the pool a permutation of the deck, and counts one card. */
  lemma CardDrawnConsistent(s: State)
    requires Consistent(s) && |s.shuffledDeck| > 0
    ensures Consistent(CardDrawn(s))
    ensures |CardDrawn(s).drawnCards| == |s.drawnCards| + 1
  {
    var n := |s.shuffledDeck|;
    var r := CardDrawn(s);
    assert s.shuffledDeck == r.shuffledDeck + [s.shuffledDeck[n - 1]];
    assert multiset(s.drawnCards + s.shuffledDeck) == multiset(r.drawnCards + r.shuffledDeck);
  }

  /** After `k` clicks the pool has lost its last `k` cards, which were drawn last one first. */
  lemma {:induction false} CardsDrawnFromTail(s: State, k: nat)
    requires k <= |s.shuffledDeck|
    ensures var n, r := |s.shuffledDeck|, CardsDrawn(s, k);
            && r.shuffledDeck == s.shuffledDeck[..n - k]
            && r.drawnCards == s.drawnCards + TailReversed(s.shuffledDeck, k)
            && r.cardsToDraw == s.cardsToDraw - k
            && r.currentDeck == s.currentDeck && r.currentSpread == s.currentSpread
    decreases k
  {
    var n := |s.shuffledDeck|;
    if k == 0 {
      assert s.shuffledDeck[..n] == s.shuffledDeck;
    } else {
      CardsDrawnFromTail(s, k - 1);
      var p := CardsDrawn(s, k - 1);
      assert p.shuffledDeck[|p.shuffledDeck| - 1] == s.shuffledDeck[n - k];
      assert p.shuffledDeck[..|p.shuffledDeck| - 1] == s.shuffledDeck[..n - k];
      assert TailReversed(s.shuffledDeck, k)
          == TailReversed(s.shuffledDeck, k - 1) + [s.shuffledDeck[n - k]];
    }
  }

  /** Any number of clicks keeps the session invariant. */
  lemma {:induction false} CardsDrawnConsistent(s: State, k: nat)
    requires Consistent(s) && k <= |s.shuffledDeck|
    ensures Consistent(CardsDrawn(s, k))
    decreases k
  {
    if k > 0 {
      CardsDrawnConsistent(s, k - 1);
      CardDrawnConsistent(CardsDrawn(s, k - 1));
    }
  }

  /**
   * In a consistent session nothing is drawn that the deck did not hold: the
   * drawn cards and the pool together number exactly the deck's cards.
   */
  lemma PopsBounded(s: State)
    requires Consistent(s)
    ensures |s.drawnCards| + |s.shuffledDeck| == |s.currentDeck.value.cards|
    ensures |s.drawnCards| <= |s.currentDeck.value.cards|
  {
    assert |multiset(s.drawnCards + s.shuffledDeck)| == |multiset(s.currentDeck.value.cards)|;
  }

  /** If the deck holds no card twice, no card is drawn twice or both drawn and still in the pool. */
  lemma DrawnCardsDistinct(s: State)
    requires Consistent(s) && NoDuplicates(s.currentDeck.value.cards)
    ensures NoDuplicates(s.drawnCards + s.shuffledDeck)
    ensures NoDuplicates(s.drawnCards)
  {
    NoDuplicatesMultiset(s.currentDeck.value.cards);
    NoDuplicatesMultiset(s.drawnCards + s.shuffledDeck);
    var all := s.drawnCards + s.shuffledDeck;
    forall i, j | 0 <= i < j < |s.drawnCards|
      ensures s.drawnCards[i] != s.drawnCards[j]
    {
      assert all[i] == s.drawnCards[i] && all[j] == s.drawnCards[j];
    }
  }

  /** The session right after a deck is loaded into the reset state and a spread is chosen. */
  function Started(deck: Deck, spread: Spread, js: seq<nat>): (s: State)
    requires IsOracle(js, |deck.cards|)
    ensures Consistent(s) && s.drawnCards == [] && s.cardsToDraw == spread.cardsToDraw
    ensures s.shuffledDeck == FisherYates(deck.cards, js)
  {
    SpreadSelectedConsistent(LoadedDeck(Initial, deck), spread, js);
    SpreadSelected(LoadedDeck(Initial, deck), spread, js)
  }

  /**
   * A whole session. The card backs number the deck's cards and each fires once,
   * so there are at most `|deck.cards|` clicks. The `k`-th click schedules the
   * results exactly when `k` is the spread's card count; so a spread of no cards,
   * or of more cards than the deck holds, never shows its results. The cards
   * drawn so far are the tail of the shuffled deck, last card first.
   */
  lemma SessionRun(deck: Deck, spread: Spread, js: seq<nat>, k: nat)
    requires IsOracle(js, |deck.cards|)
    requires 1 <= k <= |deck.cards|
    ensures var r := CardsDrawn(Started(deck, spread, js), k);
            && Consistent(r)
            && r.currentDeck == Some(deck) && r.currentSpread == Some(spread)
            && (r.cardsToDraw == 0 <==> k == spread.cardsToDraw)
            && r.drawnCards == TailReversed(FisherYates(deck.cards, js), k)
  {
    var s := Started(deck, spread, js);
    CardsDrawnFromTail(s, k);
    CardsDrawnConsistent(s, k);
  }

  /**
   * Once a consistent session of a spread with one label per card has counted
   * down to 0, the result screen shows one entry per position, the `i`-th
   * drawn card under the `i`-th label.
   */
  lemma ResultsPairPositions(s: State)
    requires Consistent(s) && WellFormed(s.currentSpread.value) && s.cardsToDraw == 0
    ensures |Results(s)| == |s.currentSpread.value.positions| == |s.drawnCards|
    ensures forall i | 0 <= i < |s.drawnCards| ::
              Results(s)[i] == ResultEntry(i + 1, Some(s.currentSpread.value.positions[i]), s.drawnCards[i])
  {
  }

  /**
   * A spread with one label per card and no more cards than the deck completes
   * after exactly its card count of clicks, and the result screen then pairs
   * every position label, in order, with the card drawn for it; when the deck
   * holds no card twice, the drawn cards are all different.
   */
  lemma CompletedResults(deck: Deck, spread: Spread, js: seq<nat>)
    requires IsOracle(js, |deck.cards|)
    requires WellFormed(spread) && 1 <= spread.cardsToDraw <= |deck.cards|
    ensures var r := CardsDrawn(Started(deck, spread, js), spread.cardsToDraw);
            && Consistent(r) && r.currentSpread == Some(spread) && r.cardsToDraw == 0
            && |Results(r)| == |spread.positions|
            && (forall i | 0 <= i < |spread.positions| ::
                  Results(r)[i] == ResultEntry(i + 1, Some(spread.positions[i]), r.drawnCards[i]))
            && (NoDuplicates(deck.cards) ==> NoDuplicates(r.drawnCards))
  {
    var r := CardsDrawn(Started(deck, spread, js), spread.cardsToDraw);
    SessionRun(deck, spread, js, spread.cardsToDraw);
    ResultsPairPositions(r);
    if NoDuplicates(deck.cards) {
      DrawnCardsDistinct(r);
    }
  }

  /** The mutable `appState` object of the page script. */
  class AppState {
    var currentDeck: Option<Deck>
    var currentSpread: Option<Spread>
    var shuffledDeck: seq<Card>
    var drawnCards: seq<Card>
    var cardsToDraw: int

    /** The fields as one value. */
    function Value(): State
      reads this
    {
      State(currentDeck, currentSpread, shuffledDeck, drawnCards, cardsToDraw)
    }

    /** The object literal `appState` is created with. */
    constructor ()
      ensures Value() == Initial
    {
      currentDeck, currentSpread := None, None;
      shuffledDeck, drawnCards := [], [];
      cardsToDraw := 0;
    }

    /** `appState.currentDeck = data` once `loadDeck` has parsed a deck. */
    method DeckLoaded(deck: Deck)
      modifies this
      ensures Value() == LoadedDeck(old(Value()), deck)
    {
      currentDeck := Some(deck);
    }

    /**
     * The assignments the spread handlers make: the spread, its card count, and
     * `shuffleDeck(appState.currentDeck.cards)` stored as the pool.
     */
    method SelectSpread(spread: Spread, js: seq<nat>)
      requires currentDeck.Some? && IsOracle(js, |currentDeck.value.cards|)
      modifies this
      ensures Value() == SpreadSelected(old(Value()), spread, js)
      ensures multiset(shuffledDeck) == multiset(currentDeck.value.cards)
      ensures old(drawnCards) == [] ==> Consistent(Value())
    {
      currentSpread := Some(spread);
      cardsToDraw := spread.cardsToDraw;
      shuffledDeck := ShuffleDeck(currentDeck.value.cards, js);
      FisherYatesPermutes(currentDeck.value.cards, js);
      if old(drawnCards) == [] {
        SpreadSelectedConsistent(old(Value()), spread, js);
      }
    }

    /**
     * `handleCardSelection`: pops the tail of the pool, appends it to the drawn
     * cards and counts down; the results are scheduled when the count reaches 0.
     */
    method HandleCardSelection() returns (drawn: Card, showResults: bool)
      requires cardsToDraw > 0 && |shuffledDeck| > 0
      modifies this
      ensures Value() == CardDrawn(old(Value()))
      ensures drawn == old(shuffledDeck)[|old(shuffledDeck)| - 1]
      ensures drawnCards == old(drawnCards) + [drawn]
      ensures cardsToDraw == old(cardsToDraw) - 1 >= 0
      ensures showResults <==> cardsToDraw == 0
      ensures old(Consistent(Value())) ==> Consistent(Value())
    {
      drawn := shuffledDeck[|shuffledDeck| - 1];
      shuffledDeck := shuffledDeck[..|shuffledDeck| - 1];
      drawnCards := drawnCards + [drawn];
      cardsToDraw := cardsToDraw - 1;
      showResults := cardsToDraw == 0;
      if old(Consistent(Value())) {
        CardDrawnConsistent(old(Value()));
      }
    }

    /** `resetApp`: every field back to its initial value; resetting a reset state changes nothing. */
    method ResetApp()
      modifies this
      ensures Value() == Initial
      ensures old(Value()) == Initial ==> Value() == old(Value())
    {
      currentDeck := None;
      currentSpread := None;
      shuffledDeck := [];
      drawnCards := [];
      cardsToDraw := 0;
    }
  }
}
