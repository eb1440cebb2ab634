/**
 * The custom spread of `tarot-project/script.js`: the count comes from a prompt
 * and is rejected only when it is `NaN` or not positive; each label comes from
 * one more prompt, and an empty or cancelled one reads `위치 i`.
 */
module PromptVariant {
  import opened Cards
  import opened Spreads
  import opened Shuffle
  import opened Session

  /** The name the handler gives the custom spread. */
  const CustomSpreadName: string := "커스텀 스프레드"

  /** Default labels read `위치 1`, `위치 2`, and so on. */
  const DefaultPrefix: string := "위치 "

  /** `isNaN(numCards) || numCards <= 0`: there is no upper bound. */
  predicate CountRejected(count: ParsedCount) {
    count.NaN? || count.n <= 0
  }

  /** `pos || fallback` on a prompt answer: a cancelled prompt (`null`) and the empty string are falsy. */
  function AnswerOr(answer: Option<string>, fallback: string): string {
    match answer
    case None => fallback
    case Some(text) => LabelOr(text, fallback)
  }

  /**
   * The custom spread built from the answers to the label prompts, `answers[i]`
   * being the answer for position `i + 1`: one position per answer, in order; an
   * answer kept as given unless it is empty or the prompt was cancelled, in
   * which case it reads `위치 i+1`.
   */
  function PromptSpread(answers: seq<Option<string>>): (spread: Spread)
    ensures spread.name == CustomSpreadName
    ensures spread.cardsToDraw == |answers| && WellFormed(spread)
    ensures forall k | 0 <= k < |answers| && answers[k].Some? && answers[k].value != "" ::
              spread.positions[k] == answers[k].value
    ensures forall k | 0 <= k < |answers| && (answers[k].None? || answers[k].value == "") ::
              spread.positions[k] == DefaultLabel(DefaultPrefix, k + 1)
    ensures forall k | 0 <= k < |answers| :: spread.positions[k] != ""
  {
    Spread(CustomSpreadName, |answers|,
      seq(|answers|, k requires 0 <= k < |answers| => AnswerOr(answers[k], DefaultLabel(DefaultPrefix, k + 1))))
  }

  /**
   * The custom branch of the spread handler: `count` is the parsed first prompt,
   * `answers[i]` the answer to the prompt for position `i + 1`. A rejected count
   * builds nothing; otherwise there is one position per card.
   */
  method PromptCustomSpread(count: ParsedCount, answers: seq<Option<string>>) returns (r: Option<Spread>)
    requires !CountRejected(count) ==> |answers| == count.n
    ensures r.None? <==> CountRejected(count)
    ensures r.Some? ==> r.value == PromptSpread(answers) && r.value.cardsToDraw == count.n >= 1
  {
    if CountRejected(count) {
      return None;
    }
    var numCards := count.n;
    var positions: seq<string> := [];
    var i := 0;
    while i < numCards
      invariant 0 <= i <= numCards
      invariant |positions| == i
      invariant positions == PromptSpread(answers).positions[..i]
    {
      positions := positions + [AnswerOr(answers[i], DefaultLabel(DefaultPrefix, i + 1))];
      i := i + 1;
    }
    r := Some(Spread(CustomSpreadName, numCards, positions));
  }

  /**
   * With no upper bound on the count, a custom spread may ask for more cards
   * than the deck holds; every card back fires once, and no click of a session
   * on such a spread brings the countdown to 0, so its results never show.
   */
  lemma OversizedSpreadNeverCompletes(deck: Deck, spread: Spread, js: seq<nat>, k: nat)
    requires IsOracle(js, |deck.cards|)
    requires spread.cardsToDraw > |deck.cards|
    requires 1 <= k <= |deck.cards|
    ensures CardsDrawn(Started(deck, spread, js), k).cardsToDraw > 0
  {
    SessionRun(deck, spread, js, k);
  }

  /** The spread buttons of `tarot-project/script.js`, with the prompt answers a custom click collects. */
  datatype SpreadButton =
    | PredefinedButton(key: SpreadKey)
    | CustomButton(count: ParsedCount, answers: seq<Option<string>>)

  /**
   * The spread-list click handler: a rejected custom count returns early and
   * leaves `appState` unchanged; otherwise the chosen spread becomes current,
   * its card count the countdown, and the shuffled deck the pool.
   */
  method SpreadClick(app: AppState, button: SpreadButton, js: seq<nat>) returns (accepted: bool)
    requires app.currentDeck.Some? && IsOracle(js, |app.currentDeck.value.cards|)
    requires button.CustomButton? && !CountRejected(button.count) ==> |button.answers| == button.count.n
    modifies app
    ensures accepted <==> !(button.CustomButton? && CountRejected(button.count))
    ensures !accepted ==> app.Value() == old(app.Value())
    ensures accepted ==>
              && app.currentSpread.Some?
              && app.Value() == SpreadSelected(old(app.Value()), app.currentSpread.value, js)
              && WellFormed(app.currentSpread.value)
              && app.cardsToDraw == app.currentSpread.value.cardsToDraw >= 1
    ensures button.PredefinedButton? ==> app.currentSpread == Some(Predefined(button.key))
    ensures button.CustomButton? && accepted ==>
              app.currentSpread == Some(PromptSpread(button.answers)) && app.cardsToDraw == button.count.n
    ensures accepted && old(app.drawnCards) == [] ==> Consistent(app.Value())
  {
    var spread: Spread;
    match button {
      case PredefinedButton(key) =>
        spread := Predefined(key);
      case CustomButton(count, answers) =>
        var custom := PromptCustomSpread(count, answers);
        if custom.None? {
          return false;
        }
        spread := custom.value;
    }
    app.SelectSpread(spread, js);
    accepted := true;
  }
}
