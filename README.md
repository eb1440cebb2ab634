# Tarot draw session, modelled in Dafny

This project models the draw-session logic of a small browser tarot reader. The page script
exists in two variants: `script.js` and `tarot-project/script.js`. A user loads a deck of cards,
chooses a spread, and clicks card backs until the spread's card count is reached. The page then
shows each drawn card under its position label. The modelled parts are:

- **Shuffle** (`shuffle.dfy`): `shuffleDeck`, a Fisher–Yates shuffle. It copies the deck into an
  array, then for `i` from `length - 1` down to `1` swaps position `i` with a random
  `j` in `0..i`. `Math.random` becomes a caller-supplied sequence of choices `js`, with
  `0 <= js[i] <= i`. The loop method `ShuffleDeck` is proved equal to the recursive specification
  `FisherYates`. That function is proved to be a permutation, and every permutation is reachable
  by some choices.
- **Spreads** (`spreads.dfy`): the `SPREADS` table and a custom spread's shape, plus
  - the JavaScript comparisons a `parseInt` result may fail (`NaN`);
  - the default labels `카드 i` / `위치 i`, with `${i}` written out as decimal digits.
- **Session** (`session.dfy`): the `appState` object. It is a value `State`, with one function per
  transition: select a spread, click a card back, reset. It is also a class `AppState` whose
  methods make the same assignments and are proved to produce those transitions. The lemmas
  prove:
  - the invariant that drawn cards plus pool are a permutation of the deck, and
    `|drawnCards| + cardsToDraw == cards_to_draw`;
  - the bound of at most one pop per card back;
  - a whole session: the results are scheduled on the `k`-th click exactly when `k` is the card
    count, and the drawn cards are the tail of the shuffle;
  - the result pairing of `renderResults`.
- **The two custom-spread rules**, kept apart:
  - `creator_variant.dfy` (`script.js`): a creator screen whose count field must lie in 1..20,
    one label input per card, and a start button whose empty labels read `카드 i`.
  - `prompt_variant.dfy` (`tarot-project/script.js`): a count prompt that rejects only `NaN` and
    values `<= 0`, one label prompt per card, and empty or cancelled labels reading `위치 i`.

The shuffle, `SPREADS`, `handleCardSelection`'s state changes, `resetApp` and the pairing in
`renderResults` do the same thing in both variants, so each is modelled once. The table cites both
files where a member covers both.

Inputs the page gets from outside become parameters:
- the deck parsed by `loadDeck`;
- the random choices;
- the number `parseInt` produced (`ParsedCount`: a number or `NaN`);
- the texts of the label inputs (`seq<string>`);
- the prompt answers (`Option<string>`, where `None` is a cancelled prompt).

## Model

| member | source | states |
|---|---|---|
| Shuffle.FisherYates | script.js:72-79 | the shuffled deck has as many cards as the deck |
| Shuffle.SwapPermutes | script.js:77 | the destructuring swap keeps every card, each as often as before |
| Shuffle.SwapInPlace | script.js:77 | the array after the exchange is the old array with positions `i` and `j` swapped |
| Shuffle.FisherYatesPermutes | script.js:72-79 | for all choices with `0 <= j <= i`, the shuffle is a permutation of the deck (same multiset of cards); tarot-project/script.js has the same code at lines 66-73 |
| Shuffle.ShuffleLoopIsFisherYates | script.js:75-78 | the countdown loop resumed at `i` shuffles the first `i + 1` cards and leaves the cards after `i` where they are |
| Shuffle.ShuffleDeck | script.js:72-79 | the copy-then-swap loop over an array returns exactly `FisherYates(deck, js)`; the deck passed in is a value and stays unchanged; every swap index is within the array; tarot-project/script.js has the same code at lines 66-73 |
| Shuffle.FisherYatesUsesPrefix | script.js:75-76 | the shuffle depends only on the choices made at the positions the loop visits |
| Shuffle.EveryPermutationReachable | script.js:75-77 | every ordering of the deck is produced by some choices with `0 <= j <= i` |
| Spreads.Predefined | script.js:13-17 | every predefined spread has `cards_to_draw` equal to its number of positions: 1, 3 and 10; tarot-project/script.js has the same code at lines 13-17 |
| Spreads.DecimalString | script.js:313 | `${i}` is a non-empty string of decimal digits with no leading zero |
| Spreads.DecimalRoundTrip | script.js:313 | reading `${n}` back as a decimal number gives `n` |
| Spreads.DefaultLabelsDistinct | script.js:313 | two different positions never get the same default label; tarot-project/script.js has the same code at line 161 |
| Session.SpreadSelectedConsistent | script.js:245-247 | choosing a spread before anything is drawn sets the spread and `cardsToDraw = cards_to_draw`, and the pool is a permutation of the deck's cards, so the session invariant holds; tarot-project/script.js has the same code at lines 165-171 |
| Session.CardDrawnConsistent | script.js:258-271 | a click appends one card to `drawnCards` and keeps drawn plus pool a permutation of the deck and `|drawnCards| + cardsToDraw == cards_to_draw`; tarot-project/script.js has the same code at lines 186-189 |
| Session.CardsDrawn | script.js:258 | `k` clicks remove exactly `k` cards from the pool |
| Session.CardsDrawnFromTail | script.js:258-259 | after `k` clicks, the pool has lost its last `k` cards, which were appended to `drawnCards` last card first; `cardsToDraw` went down by `k`; deck and spread are unchanged |
| Session.CardsDrawnConsistent | script.js:254-271 | any number of clicks keeps the session invariant |
| Session.PopsBounded | script.js:90-116 | in a consistent session, drawn plus remaining cards number exactly the deck's cards, so the pops never exceed the deck size; tarot-project/script.js has the same code at lines 81-84 |
| Session.DrawnCardsDistinct | script.js:258-259 | when the deck has no duplicate card, no card is drawn twice |
| Session.Started | script.js:245-247 | a session started from a freshly loaded deck is consistent, has drawn nothing, counts down from the spread's count and holds the shuffled deck |
| Session.SessionRun | script.js:271-287 | the `k`-th click (for `k` up to the number of card backs) brings `cardsToDraw` to 0, which schedules the results, exactly when `k == cards_to_draw`; the drawn cards are the last `k` cards of the shuffle, last first; tarot-project/script.js makes the same state changes at lines 189-197, testing `=== 0` right after the decrement rather than inside a timeout |
| Session.ResultsPairPositions | script.js:125-126 | once the countdown of a well-formed spread is 0, the result screen has one entry per position, the `i`-th drawn card under the `i`-th label |
| Session.CompletedResults | script.js:125-126 | a well-formed spread of at most deck-size cards completes after exactly `cards_to_draw` clicks; result `i` is drawn card `i` labelled `positions[i]`, numbered `i + 1`; with a duplicate-free deck the drawn cards are distinct; tarot-project/script.js has the same code at lines 92-100 |
| Session.AppState.constructor | script.js:4-10 | `appState` starts as `null`, `null`, `[]`, `[]`, `0` |
| Session.AppState.DeckLoaded | script.js:61 | a loaded deck becomes `currentDeck`; nothing else changes |
| Session.AppState.SelectSpread | script.js:245-247 | sets the spread, `cardsToDraw = cards_to_draw` and the pool to the shuffle of the deck, a permutation of it; the drawn cards are untouched |
| Session.AppState.HandleCardSelection | script.js:254-290 | pops the last card of the pool, appends exactly that card to `drawnCards`, decrements `cardsToDraw`, and reports that results are due exactly when it reached 0; the session invariant is kept; tarot-project/script.js makes the same state changes at lines 179-199, without the pointer lock and the 800 ms timeout |
| Session.AppState.ResetApp | script.js:177-183 | every field returns to its initial value; resetting twice is the same as resetting once; tarot-project/script.js has the same code at lines 120-126 |
| CreatorVariant.SetupCustomSpreadCreator | script.js:187-214 | a count below 1 or above 20 creates no input and sets the count field to 3, or to 1 if the deck has at most 3 cards; a count in 1..20 creates inputs numbered 1..count; `NaN` passes the check and creates no input; the result is exactly `CreatorInputs(cardCount, deckSize)` |
| CreatorVariant.CreatorSpread | script.js:308-320 | the custom spread has `cards_to_draw` equal to the number of inputs and to its number of positions; a non-empty text is kept, and an empty input `i` becomes `카드 i`; no label is empty |
| CreatorVariant.ConfirmCustomSpread | script.js:308-320 | the label loop builds exactly `CreatorSpread(values)` |
| CreatorVariant.EmptyCreatorNeverShowsResults | script.js:307-327 | a session started from zero inputs never brings the countdown to 0 after a click |
| CreatorVariant.StartCustomSpread | script.js:307-327 | corrected start button (see ## Findings): with at least one input, `CreatorSpread(values)` becomes current with `cardsToDraw` equal to the number of inputs and the deck shuffled; with none, `appState` is unchanged. script.js itself starts a 0-card spread in that case, which `CreatorVariant.EmptyCreatorNeverShowsResults` models |
| CreatorVariant.SpreadClick | script.js:232-251 | the custom button only sets up the creator, whose screen is exactly `CreatorInputs(countField, deck size)` (count field reset exactly when the count is outside 1..20), and leaves `appState` unchanged; a predefined button selects its spread and shuffles |
| PromptVariant.PromptSpread | tarot-project/script.js:158-163 | the spread is named `커스텀 스프레드` and has one position per answer, in order; a non-empty answer is kept, and a cancelled or empty answer `i` becomes `위치 i+1`; no label is empty |
| PromptVariant.PromptCustomSpread | tarot-project/script.js:151-163 | the count is rejected exactly when it is `NaN` or `<= 0`, with no upper bound; an accepted count gives exactly `PromptSpread(answers)`, with `numCards` cards |
| PromptVariant.OversizedSpreadNeverCompletes | tarot-project/script.js:153-157 | a custom count above the deck size never brings the countdown to 0 on any of the deck's clicks |
| PromptVariant.SpreadClick | tarot-project/script.js:145-176 | a rejected custom count leaves `appState` unchanged; any accepted spread becomes current, with `cardsToDraw == cards_to_draw >= 1` and the pool a shuffle of the deck; an accepted custom spread is exactly `PromptSpread(answers)` with `numCards` cards |

## Left out

- `loadDeck` is left out: it does an async `fetch` and a JSON parse. `DeckLoaded` takes the parsed deck, and the failure path (alert, `false`) is not modelled.
- The DOM and screen switching are left out. That covers `showScreen`, `setupCardDrawingScreen`'s elements, CSS flip classes, `pointerEvents` and the result markup. The card backs enter the model only as the bound of one click per card of the deck.
- The `setTimeout` delays are left out. Scheduling the results is the flag `showResults`, and what they show is `Results`.
- `Math.random` becomes the choice sequence `js`. Its probability distribution is not modelled.
- `alert`, `console.log` and the parsing done by `parseInt` are left out. The prompts and the inputs' texts are parameters.
- The back button is left out, because it only switches screens. The "설정" button calls `setupCustomSpreadCreator` with the parsed count, which is `SetupCustomSpreadCreator`.
- A `spreadType` outside the three keys and `custom` is left out. The page's buttons carry no other value.
- The result screen shows an `undefined` position past the end of `positions` as the text `undefined`. The model uses `None` for it.
- Card fields other than `id`, `name`, `keywords` and `image` are not modelled.
- `script 수정2.js` is not part of this model.
- Session.AppState.HandleCardSelection: requires `cardsToDraw > 0` and a non-empty pool, which the page does not check. Clicks made after the countdown are covered by `Session.CardDrawn` and `Session.CardsDrawn`, which only need a non-empty pool.

## Findings

| source | as written | input that shows it | evidently intended | confidence | as-written member | corrected member |
|---|---|---|---|---|---|---|
| script.js:192, script.js:307-322 | The guard `cardCount < 1 \|\| cardCount > 20` is false for `NaN`, and a rejected count leaves the creator with no inputs. The start button then builds a spread from however many inputs there are, with no check. | Clear the count field (`parseInt` gives `NaN`), or enter `0` and press 설정, then press the start button. The spread has `cards_to_draw` 0, the first click makes `cardsToDraw` -1, and the `=== 0` test at script.js:282 never holds, so the results never show. | A custom spread has 1 to 20 cards, so the start button refuses to start without label inputs. | not executed | CreatorVariant.EmptyCreatorNeverShowsResults | CreatorVariant.StartCustomSpread |
