/**
 * The custom spread of `script.js`: a creator screen whose count field is
 * checked against 1..20 and which creates one label input per card; its start
 * button turns the inputs into a spread whose empty labels read `카드 i`.
 */
module CreatorVariant {
  import opened Cards
  import opened Spreads
  import opened Shuffle
  import opened Session

  /** The largest card count the creator accepts. */
  const MaxCustomCards: int := 20

  /** The name the start button gives the custom spread. */
  const CustomSpreadName: string := "나만의 커스텀 스프레드"

  /** Default labels read `카드 1`, `카드 2`, and so on. */
  const DefaultPrefix: string := "카드 "

  /**
   * What `setupCustomSpreadCreator` leaves on the screen: the numbers of the
   * label inputs it created (input `i` is `pos-input-i`), and the value it wrote
   * back into the count field after rejecting the count, if it did.
   */
  datatype CreatorSetup = CreatorSetup(inputs: seq<nat>, countFieldReset: Option<int>)

  /**
   * The screen `setupCustomSpreadCreator(cardCount)` leaves for a deck of
   * `deckSize` cards: a rejected count leaves no input and puts 3 (or 1 for a
   * deck of at most 3 cards) back into the count field; otherwise there is one
   * input per number from 1 up to the count, which is none for `NaN`.
   */
  function CreatorInputs(cardCount: ParsedCount, deckSize: nat): CreatorSetup {
    if CountBelow(cardCount, 1) || CountAbove(cardCount, MaxCustomCards) then
      CreatorSetup([], Some(if deckSize > 3 then 3 else 1))
    else if cardCount.NaN? then
      CreatorSetup([], None)
    else
      CreatorSetup(seq(cardCount.n, k requires 0 <= k < cardCount.n => k + 1), None)
  }

  /**
   * `setupCustomSpreadCreator(cardCount)`: clears the inputs; a count below 1 or
   * above 20 is rejected and the count field is set to 3, or to 1 for a deck of
   * at most 3 cards; otherwise inputs 1..cardCount are created. `NaN` fails both
   * comparisons, so it is not rejected, and the loop creates no input.
   */
  method SetupCustomSpreadCreator(cardCount: ParsedCount, deckSize: nat) returns (r: CreatorSetup)
    ensures r == CreatorInputs(cardCount, deckSize)
    ensures CountBelow(cardCount, 1) || CountAbove(cardCount, MaxCustomCards) ==>
              r == CreatorSetup([], Some(if deckSize > 3 then 3 else 1))
    ensures cardCount.Number? && 1 <= cardCount.n <= MaxCustomCards ==>
              && r.countFieldReset == None
              && |r.inputs| == cardCount.n
              && forall k | 0 <= k < |r.inputs| :: r.inputs[k] == k + 1
    ensures cardCount.NaN? ==> r == CreatorSetup([], None)
  {
    var inputs: seq<nat> := [];
    if CountBelow(cardCount, 1) || CountAbove(cardCount, MaxCustomCards) {
      return CreatorSetup(inputs, Some(if deckSize > 3 then 3 else 1));
    }
    var i := 1;
    while CountAtLeast(cardCount, i)
      invariant cardCount.Number? ==> 1 <= i <= cardCount.n + 1
      invariant cardCount.NaN? ==> i == 1
      invariant |inputs| == i - 1
      invariant forall k | 0 <= k < |inputs| :: inputs[k] == k + 1
      decreases if cardCount.Number? then cardCount.n - i + 1 else 0
    {
      inputs := inputs + [i];
      i := i + 1;
    }
    return CreatorSetup(inputs, None);
  }

  /**
   * The spread the start button builds from the texts of the label inputs:
   * `values[k]` is the text of input `k + 1`. There is one position per input,
   * in input order, and the card count is the number of inputs; an input left
   * empty reads `카드 i`. Nothing stops this for zero inputs, which gives a
   * spread of no cards.
   */
  function CreatorSpread(values: seq<string>): (spread: Spread)
    ensures spread.name == CustomSpreadName
    ensures spread.cardsToDraw == |values| && WellFormed(spread)
    ensures forall k | 0 <= k < |values| && values[k] != "" :: spread.positions[k] == values[k]
    ensures forall k | 0 <= k < |values| && values[k] == "" ::
              spread.positions[k] == DefaultLabel(DefaultPrefix, k + 1)
    ensures forall k | 0 <= k < |values| :: spread.positions[k] != ""
  {
    Spread(CustomSpreadName, |values|,
      seq(|values|, k requires 0 <= k < |values| => LabelOr(values[k], DefaultLabel(DefaultPrefix, k + 1))))
  }

  /** The start button's loop, which pushes one label per input, numbering them from 1. */
  method ConfirmCustomSpread(values: seq<string>) returns (spread: Spread)
    ensures spread == CreatorSpread(values)
  {
    var numCards := |values|;
    var positions: seq<string> := [];
    var i := 1;
    while i <= numCards
      invariant 1 <= i <= numCards + 1
      invariant positions == CreatorSpread(values).positions[..i - 1]
    {
      positions := positions + [LabelOr(values[i - 1], DefaultLabel(DefaultPrefix, i))];
      i := i + 1;
    }
    spread := Spread(CustomSpreadName, numCards, positions);
  }

  /**
   * As written, a start with no inputs (after a rejected or `NaN` count) begins a
   * session of `CreatorSpread([])`, whose count is 0: no number of clicks brings
   * the countdown to 0 after a click, so the results never show.
   */
  lemma EmptyCreatorNeverShowsResults(deck: Deck, js: seq<nat>, k: nat)
    requires IsOracle(js, |deck.cards|)
    requires 1 <= k <= |deck.cards|
    ensures CardsDrawn(Started(deck, CreatorSpread([]), js), k).cardsToDraw != 0
  {
    SessionRun(deck, CreatorSpread([]), js, k);
  }

  /**
   * The start button, with the guard the 1..20 rule calls for: with at least one
   * label input, the custom spread becomes the current spread, its count the
   * countdown and the shuffled deck the pool; with none, nothing changes.
   */
  method StartCustomSpread(app: AppState, values: seq<string>, js: seq<nat>) returns (started: bool)
    requires app.currentDeck.Some? && IsOracle(js, |app.currentDeck.value.cards|)
    modifies app
    ensures started <==> |values| >= 1
    ensures !started ==> app.Value() == old(app.Value())
    ensures started ==>
              && app.Value() == SpreadSelected(old(app.Value()), CreatorSpread(values), js)
              && app.cardsToDraw == |values| >= 1
    ensures started && old(app.drawnCards) == [] ==> Consistent(app.Value())
  {
    if |values| == 0 {
      return false;
    }
    var spread := ConfirmCustomSpread(values);
    app.SelectSpread(spread, js);
    started := true;
  }

  /** The spread buttons of `script.js`. */
  datatype SpreadButton = PredefinedButton(key: SpreadKey) | CustomButton

  /**
   * The spread-list click handler: the custom button opens the creator set up
   * with the count field's current value and leaves `appState` alone; a
   * predefined spread is selected and the deck shuffled.
   */
  method SpreadClick(app: AppState, button: SpreadButton, countField: ParsedCount, js: seq<nat>)
    returns (creator: Option<CreatorSetup>)
    requires app.currentDeck.Some? && IsOracle(js, |app.currentDeck.value.cards|)
    modifies app
    ensures button.CustomButton? ==>
              && app.Value() == old(app.Value())
              && creator == Some(CreatorInputs(countField, |app.currentDeck.value.cards|))
    ensures button.CustomButton? ==>
              (creator.value.countFieldReset.Some? <==>
                 CountBelow(countField, 1) || CountAbove(countField, MaxCustomCards))
    ensures button.PredefinedButton? ==>
              && creator.None?
              && app.Value() == SpreadSelected(old(app.Value()), Predefined(button.key), js)
              && app.cardsToDraw == |app.currentSpread.value.positions| >= 1
    ensures button.PredefinedButton? && old(app.drawnCards) == [] ==> Consistent(app.Value())
  {
    match button
    case CustomButton =>
      var setup := SetupCustomSpreadCreator(countField, |app.currentDeck.value.cards|);
      creator := Some(setup);
    case PredefinedButton(key) =>
      app.SelectSpread(Predefined(key), js);
      creator := None;
  }
}
