# Flashcard viewer core, in Dafny

A model of the logic of a single-page flashcard viewer for Slovenian–English vocabulary
(`script.js`). The viewer loads one of four datasets. A dataset is one JSON file, or two
files concatenated. It shuffles the records with Fisher–Yates and turns each record into a
card whose direction (Slovenian→English or English→Slovenian) is drawn at random. It then
runs a study session: next, previous, flip, swipe, keyboard shortcuts and spoken English.

Modules (one per component of `script.js`):

- `Wrappers` (`wrappers.dfy`): `Option` for absent JSON fields, `Result` for thrown errors.
- `Shuffler` (`shuffler.dfy`): `shuffle`, an in-place method on an `array`. It is specified
  by the function `ShuffledWith` on sequences. `Math.random()` becomes a caller-supplied
  sequence of draws in [0, 1). `draws[i]` is the draw made when the pass is at index `i`.
  The pass stops at index 1, so `draws[0]` is never read.
- `Cards` (`cards.dfy`): records, cards, the field fallbacks and the per-record `map`.
- `Loader` (`loader.dfy`): the dataset table, `currentDataset`, and `fetchCards`. The
  network is a function `fetch(url)` that returns the status and the parsed records.
- `Session` (`session.dfy`): `class FlashcardApp` with the fields `cards`,
  `currentIndex`, `isFlipped`, `touchStartX` and `touchEndX`. A pure transition function
  `Step` over a `View` (index, flip) specifies every navigation method. A ghost counter
  `refreshes` records each display refresh.

Three things a reader might expect that the code does not do, and the model does not do either:

- The code has no separate "empty dataset" error. If the loaded data are empty, the
  `FlashcardApp` constructor throws when `updateDisplay` reads `front` of a missing card.
  The reload handler catches this and shows the same message as a transport failure. The
  model's `UpdateDisplay` returns `None` on an empty deck and changes nothing.
- The transport error carries only the HTTP status, not the failing URL.
- The code never removes input listeners and does not guard against concurrent reloads.
  Neither is modelled (see below).

## Model

| member | source | states |
|---|---|---|
| `Shuffler.Pick` | script.js:34 | `Math.floor(r * (i + 1))` for a draw `r` in [0, 1) is an index `j` with `0 <= j <= i` |
| `Shuffler.SwapIndices` | script.js:33-34 | the draws select one swap partner per position, each at or below its position |
| `Shuffler.Swap` | script.js:35 | the destructuring swap exchanges positions `i` and `j` and keeps every other element and the length |
| `Shuffler.ShuffleDown` | script.js:33-36 | the remaining steps of the pass keep the length |
| `Shuffler.ShuffledWith` | script.js:32-38 | the pass keeps the length, and sequences of length 0 or 1 come back unchanged |
| `Shuffler.ShuffleDownPermutes` | script.js:33-36 | each remaining step of the pass keeps the multiset of elements |
| `Shuffler.ShufflePermutes` | script.js:32-38 | the shuffle result is a permutation of its input (same multiset) |
| `Shuffler.ShuffleDownMap` | script.js:33-36 | the remaining steps commute with mapping a function over the elements |
| `Shuffler.ShuffleMap` | script.js:32-38 | the order produced depends only on positions and draws: shuffling then mapping equals mapping then shuffling |
| `Shuffler.Shuffle` | script.js:32-38 | the in-place loop leaves the array equal to `ShuffledWith` of its old contents and the drawn partners, so it is a permutation of them |
| `Cards.SloSide` | script.js:62 | Slovenian text is `question` when present (even if empty), else `slovenian` when present, else `""` |
| `Cards.EngSide` | script.js:63 | English text is `answer` when present (even if empty), else `english` when present, else `""` |
| `Cards.MakeCard` | script.js:61-74 | a card has the given id and direction; a true draw puts Slovenian in front and English in back, a false draw the reverse; `english` is always the English text; the term pair read back from the card is the record's |
| `Cards.DirectionSwapsFaces` | script.js:66-73 | the two directions give the same id and spoken text with front and back exchanged |
| `Cards.BuildCards` | script.js:61-75 | one card per record; the card at position k has id k and direction k; a true draw puts record k's Slovenian text in front and its English text in back, a false draw the reverse; its spoken text is record k's English text |
| `Cards.DeckPairs` | script.js:59-75 | the term pairs of the built deck are the loaded pairs in shuffled order, whatever the directions |
| `Cards.DeckHoldsLoadedPairs` | script.js:59-75 | the deck holds exactly the loaded term pairs, each as often as loaded |
| `Loader.FindById` | script.js:28 | `find` yields a descriptor exactly when one has the id, and then the first one with it |
| `Loader.CurrentDataset` | script.js:25-29 | the selected descriptor when its id exists, otherwise the first descriptor |
| `Loader.RequestUrl` | script.js:53 | the url requested for a descriptor: its `url`, or "null" when it has none (`fetch(null)` requests "null") |
| `Loader.LoadAll` | script.js:44-50 | the reference definition of a combined load (urls fetched in order, the first non-OK response ends the load, otherwise the parsed records are concatenated); an empty url list loads nothing, and a failure always carries the status of a non-OK response |
| `Loader.LoadRecords` | script.js:43-56 | the records gathered before shuffling: a combined descriptor succeeds exactly when every response is OK; any other descriptor succeeds exactly when its single response is OK, yielding that response's records, and otherwise fails with its status |
| `Loader.LoadAllOk` | script.js:44-50 | a combined load succeeds exactly when every response is OK |
| `Loader.LoadAllFirstFailure` | script.js:45-47 | a failed combined load is the error of the first non-OK response, with no partial data |
| `Loader.LoadAllAppend` | script.js:45-49 | records are concatenated in url order: loading `u + v` gives the records of `u`, then those of `v` |
| `Loader.FetchCards` | script.js:40-76 | fails exactly when the load fails, with that error; otherwise the cards are built from a shuffled copy of the loaded records |
| `Session.NextIndex` | script.js:199-207 | the next index stays in `[0, n)` and equals `(i + 1) mod n`, so the last card wraps to 0 |
| `Session.PreviousIndex` | script.js:189-197 | the previous index stays in `[0, n)` and equals `(i - 1 + n) mod n`, so card 0 wraps to the last |
| `Session.Step` | script.js:184-217 | every action keeps the index valid; flip toggles only the flip state; navigation on a non-empty deck ends unflipped; navigation on an empty deck and ignored input change nothing |
| `Session.Run` | script.js:150-207 | any sequence of navigations and flips keeps the index valid |
| `Session.NextPreviousInverse` | script.js:189-207 | previous undoes next and next undoes previous, both ending unflipped |
| `Session.FlipTwice` | script.js:184-187 | flipping twice restores the view |
| `Session.NextCycles` | script.js:199-207 | k presses of next move k places round the deck and end unflipped |
| `Session.FullCircle` | script.js:199-207 | n presses of next on an n-card deck return to the starting card |
| `Session.SwipeAction` | script.js:169-182 | a swipe moves next exactly when start − end > 50, previous exactly when start − end < −50, and nothing when the distance is at most 50 |
| `Session.KeyAction` | script.js:150-156 | ArrowLeft means previous, ArrowRight next, Space flip, and only these three keys do anything |
| `Session.FlashcardApp.constructor` | script.js:92-103 | a new session holds the deck, starts at index 0 unflipped with both touch points 0, and refreshes the display once when the deck is non-empty |
| `Session.FlashcardApp.UpdateDisplay` | script.js:209-226 | shows the current card's front and back and resets the flip; on an empty deck shows nothing and changes nothing |
| `Session.FlashcardApp.NextCard` | script.js:199-207 | the new view is `Step(old view, Next)`, with one refresh on a non-empty deck and none on an empty one |
| `Session.FlashcardApp.PreviousCard` | script.js:189-197 | the new view is `Step(old view, Previous)`, with one refresh on a non-empty deck and none on an empty one |
| `Session.FlashcardApp.FlipCard` | script.js:184-187 | the new view is `Step(old view, Flip)`: flip toggled, index unchanged |
| `Session.FlashcardApp.TouchStart` | script.js:159-161 | records the start coordinate |
| `Session.FlashcardApp.HandleSwipe` | script.js:169-182 | the new view is `Step` of the old one by the swipe's classification, with one refresh when a non-empty deck navigates |
| `Session.FlashcardApp.TouchEnd` | script.js:163-166 | records the end coordinate, then applies the swipe it completes, with one refresh when a non-empty deck navigates |
| `Session.FlashcardApp.KeyDown` | script.js:150-156 | applies the key's action, with one refresh when an arrow key navigates a non-empty deck, and suppresses the default action exactly for the three handled keys |
| `Session.FlashcardApp.PlayAudio` | script.js:125-142 | speaks the current card's English text (en-US, rate 0.9, pitch 1) exactly when that text is non-empty and speech synthesis exists |

## Left out

- Network I/O and JSON parsing (script.js:46-48, 53-55): `fetch` is a parameter that returns
  the status and the already-parsed records. Cache control (`no-store`) is not modelled.
  Records whose JSON is not an array of objects with string fields are not modelled.
  A `fetch` that rejects (network failure) or a `resp.json()` that rejects also aborts the
  load, with an error other than the non-OK message; the model has only the non-OK case.
- `Math.random` (script.js:34, 66): replaced by caller-supplied draws. Uniformity and fairness
  are not modelled.
- DOM work: `buildDatasetSelect`, `setLoadingUI`, `initializeElements`, the `flipped` CSS
  class, the "Kartica i od n" counter text and button enabling (script.js:10-23, 78-89,
  105-114, 186, 217-225). The model keeps only the faces written and a ghost count of
  refreshes.
- `localStorage` persistence of the selected dataset (script.js:19-22, 235, 249-251).
- Speech synthesis: `setupAudio` and the cancel/speak calls (script.js:116-123, 133, 140).
  `PlayAudio` returns the utterance instead of speaking it.
- Listener registration and the asynchronous reload handler (script.js:144-167, 232-247).
  The code adds a fresh `document` keydown listener on every reload and never removes it. It
  has no teardown and no guard against reload races. The model therefore has no
  listener-uniqueness, teardown or reload-ordering property.
- Session.FlashcardApp.constructor: on an empty deck the source constructor throws after
  attaching listeners. The model instead builds the session and records that no refresh
  happened.
- JavaScript numbers are doubles. Indices and statuses are modelled as unbounded integers,
  and touch coordinates as reals. Rounding is not modelled.
