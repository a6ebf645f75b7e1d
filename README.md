# 30 Seconds card generator — a Dafny model

The "30 Seconds Generator" is a small web application. A teacher pastes a
list of concepts ("begrippen"). The application removes duplicates and blank
entries and shuffles the list. It deals the concepts five to a card, reusing
the list cyclically when the requested number of cards needs more concepts
than there are. You can preview the deck on screen or download it as an A4
PDF with eight cards per page.

This project models the core of that program and proves properties of it:

- **Deck builder** (`deck.dfy`, module `Deck`) — the nested loop of
  `generateCards`. It is an imperative method, proved equal to a closed-form
  deck. Lemmas cover cyclic fairness, the source of the concepts,
  distinctness within a card, and when the deck repeats a concept.
- **Application state** (`app.dfy`, module `App`) — the page's state as a
  class `AppState` and its handlers:
  - the concept list clean-up: a JavaScript `Set` followed by the
    `trim()` filter;
  - the default card count, set by an effect that React re-runs only when
    the concept count or hasGenerated changes; the slider and number-input
    handlers;
  - the repeat warning;
  - deck generation.
- **PDF layout** (`layout.dfy`, module `PdfLayout`) — `generatePDF` as a
  loop over a `Document` object whose pages collect drawing operations. It
  covers the grid geometry, the font-fit loop for the rotated title, and the
  concept lines with their dividers. The whole result is proved equal to a
  closed-form `Layout`: ceil(n/8) pages, with card i on page i div 8.
- **Card preview** (`preview.dfy`, module `CardPreview`) — the displayed
  title, its size class chosen from the title's JavaScript length, and the
  rows of each tile, padded with placeholders up to five.
- **Shared modules**:
  - `strings.dfy` (`Strings`): JavaScript `trim` with its exact whitespace
    set, the `trim() || "wiskunde"` default, and UTF-16 length;
  - `types.dfy` (`Types`): the card record;
  - `sequences.dfy` (`Sequences`): distinctness and first-occurrence order.

Randomness and the clock are inputs of the model:

- The shuffled copy of the concept list is a parameter `shuffled`. It is
  constrained only to be a permutation of the list.
- `Date.now()`, read once per card, is a parameter `stamps: nat -> int`.
  A card's id is the record `CardId(index, stamp)` rather than the string
  `card-<index>-<stamp>`.
- Text measurement by the embedded bold Helvetica (`widthOfTextAtSize`) is a
  parameter `width: (string, real) -> real`.

Lengths are points (1 mm = 2.83465 pt) and are computed exactly with reals.

## Model

| member | source | states |
|---|---|---|
| Strings.TrimStartSpec | App.tsx:24 | trimStart removes exactly a whitespace prefix; the result is a suffix of the input and starts with a non-whitespace character, or is empty |
| Strings.TrimEndSpec | App.tsx:24 | trimEnd removes exactly a whitespace suffix; the result is a prefix of the input and ends with a non-whitespace character, or is empty |
| Strings.TrimShape | App.tsx:24 | trim keeps a contiguous middle part of the string; everything cut off is whitespace, and both ends of the result are non-whitespace |
| Strings.TrimEmptyIff | App.tsx:24 | a string trims to "" exactly when every character is JavaScript whitespace |
| Strings.TrimIdempotent | App.tsx:24 | trimming twice equals trimming once |
| Strings.TrimOr | utils/pdfGenerator.ts:81 | `x.trim() \|\| d` is either d or the trimmed text |
| Strings.TitleOrDefault | components/CardPreview.tsx:10 | the title shown on every card is never empty |
| Strings.TitleOrDefaultCases | utils/pdfGenerator.ts:81 | the title is "wiskunde" when the entered title is all whitespace, and otherwise the trimmed title |
| Strings.Utf16Length | components/CardPreview.tsx:22 | a string's JavaScript length lies between its number of characters and twice that |
| Strings.Utf16LengthAppend | components/CardPreview.tsx:22 | the JavaScript length of a concatenation is the sum of the lengths |
| Deck.CardCount | App.tsx:51 | the loop `i < targetCardCount` makes targetCardCount cards when that is positive, and none otherwise |
| Deck.Slots | App.tsx:53-57 | card i takes five concepts; concept j is shuffled[(5i + j) mod length] |
| Deck.CyclicDeck | App.tsx:49-62 | the closed-form deck: as many cards as the loop makes, and card i has id (i, stamp i) and the slots of card i |
| Deck.BuildDeck | App.tsx:49-62 | the nested card/concept loop returns exactly CyclicDeck: the card count, five concepts per card, `shuffled[conceptIndex % length]` with conceptIndex = 5i + j, and ids (i, stamp i) |
| Deck.FlattenAt | App.tsx:55-56 | all concepts of the deck, card after card, are the shuffled list read cyclically, 5·count entries in total |
| Deck.FlattenIsRepetition | App.tsx:49-62 | the deck's concepts are q whole copies of the shuffled list followed by a prefix of it |
| Deck.DeckFairness | App.tsx:49-62 | with distinct concepts, each concept is used q or q + 1 times, where q = 5·count div length; exactly q + 1 times for the first (5·count mod length) shuffled concepts |
| Deck.DeckDrawsFromConcepts | App.tsx:40-55 | every concept on every card comes from the concept list |
| Deck.CardsHoldDistinctConcepts | App.tsx:46-47 | with at least five distinct concepts, the five concepts of each card are pairwise different |
| Deck.NoRepeatsIff | App.tsx:49-62 | a deck from distinct concepts repeats no concept exactly when 5·count is at most the number of concepts |
| Deck.ExactSupplyUsesEachOnce | App.tsx:49-62 | when 5·count equals the number of concepts, the deck uses every concept exactly once |
| Deck.FiveConceptsFillEveryCard | App.tsx:53-57 | with exactly five concepts, every card holds the whole shuffled list in order |
| App.Dedup | App.tsx:24 | `Array.from(new Set(xs))` holds each value of xs exactly once and nothing else |
| App.KeepNonBlank | App.tsx:24 | the filter keeps exactly the entries that are not blank after trimming |
| App.DedupOrder | App.tsx:24 | the Set keeps values in the order of their first occurrence |
| App.ConceptsUpdateSpec | App.tsx:22-25 | the stored list has no duplicates and no blank entries, holds exactly the non-blank inputs, and keeps their first-occurrence order |
| App.MaxPossibleCards | App.tsx:20 | floor(total / 5) is the largest number of cards the concepts fill: 5n ≤ total < 5n + 5 |
| App.DefaultTarget | App.tsx:84-88 | the default count is maxPossibleCards when that is positive, and 1 otherwise; it is always at least 1 |
| App.ClampCount | App.tsx:181 | `Math.max(1, parseInt(v) \|\| 0)`: a number of at least 1 is kept; NaN, 0 and negatives become 1 |
| App.SliderMax | App.tsx:169 | the slider's maximum is at least 50 and at least ceil(total / 5) + 10, and it is 50 unless ceil(total / 5) + 10 is larger |
| App.RepeatWarning | App.tsx:188-189 | "Begrippen worden herhaald" shows exactly when the target exceeds maxPossibleCards |
| App.DefaultTargetIsLargestWithoutRepeats | App.tsx:84-89 | with at least five concepts, the default target shows no warning, and one card more would show it |
| App.DefaultTargetOnSlider | App.tsx:84-89 | the default target always lies within the slider's range |
| App.RepeatWarningExact | App.tsx:188-189 | the warning shows exactly when the generated deck repeats a concept |
| App.AppState.constructor | App.tsx:9-13 | initial state: no concepts, no cards, target 8, title "wiskunde", nothing generated |
| App.AppState.HandleConceptsUpdate | App.tsx:22-27 | stores the cleaned list, clears hasGenerated, and keeps the state invariant (distinct, non-blank concepts; target ≥ 1) |
| App.AppState.ClearConcepts | App.tsx:29-34 | empties the concepts and the cards and clears hasGenerated |
| App.AppState.GenerateCards | App.tsx:36-66 | with fewer than five concepts nothing changes; otherwise the deck is CyclicDeck over the shuffled list, with targetCardCount cards, distinct concepts on each card, and no repeated concept exactly when no warning shows |
| App.AppState.ApplyDefaultTarget | App.tsx:84-88 | the effect's body: while nothing is generated and there are concepts, the target becomes the default; otherwise it is unchanged |
| App.AppState.Commit | App.tsx:83-89 | the render after a handler: the effect's body runs exactly when the concept count or hasGenerated differs from the effect's last run, and both are then recorded |
| App.SliderBeforeGeneration | App.tsx:83-89 | after entering concepts the target is the default (8 with no concepts); a slider move before generating then stays, since no dependency of the effect changes |
| App.SliderAfterGeneration | App.tsx:83-89 | after generating, the first slider move flips hasGenerated back to false, so the effect replaces the chosen value with the default; a second move stays |
| App.AppState.SetCountFromSlider | App.tsx:166-174 | the slider value (1 to its maximum) becomes the target, and hasGenerated is cleared |
| App.AppState.SetCountFromInput | App.tsx:177-183 | the clamped number becomes the target, and hasGenerated is cleared |
| App.AppState.SetCardTitle | App.tsx:149-153 | the typed title is stored; nothing else changes |
| PdfLayout.MarginsCentre | utils/pdfGenerator.ts:13-31 | the grid is centred: equal margins of 10 mm across and 26 mm down |
| PdfLayout.GridSlot | utils/pdfGenerator.ts:46-48 | column < 2 and row < 4, and slot i mod 8 = 2·row + column |
| PdfLayout.CardCorner | utils/pdfGenerator.ts:52-58 | the card's lower-left corner is at x = 10 mm or 110 mm and y = 221 − 65·row mm |
| PdfLayout.CardInsidePage | utils/pdfGenerator.ts:52-58 | every card lies inside the centred content block, hence inside the page |
| PdfLayout.CardsDisjoint | utils/pdfGenerator.ts:46-58 | cards in different slots do not overlap |
| PdfLayout.GridOrder | utils/pdfGenerator.ts:46-58 | rows run down the page, columns run across it, with the gaps between neighbours |
| PdfLayout.FitSteps | utils/pdfGenerator.ts:87-90 | the loop stops at the first half-point step where the title fits or the size reaches 4; every earlier step overflows |
| PdfLayout.FittedSize | utils/pdfGenerator.ts:82-90 | the title size is between 4 and 12 and on the half-point ladder; above 4 the title fits; every larger ladder size overflows |
| PdfLayout.FitTitleSize | utils/pdfGenerator.ts:82-90 | the font-fit while loop returns FittedSize and the width measured at it |
| PdfLayout.FittedSizeMonotone | utils/pdfGenerator.ts:82-90 | a title that is nowhere wider than another gets a size at least as large |
| PdfLayout.Shown | utils/pdfGenerator.ts:129 | `slice(0, 5)`: the first min(5, n) concepts |
| PdfLayout.ConceptRowsAt | utils/pdfGenerator.ts:129-151 | the concept part holds each shown concept's text, followed by a divider for the first four |
| PdfLayout.CardOpsShape | utils/pdfGenerator.ts:60-120 | a card draws 3 + k + min(k, 4) operations: the bordered white background, the yellow strip, and then the rotated title |
| PdfLayout.TitlePlacement | utils/pdfGenerator.ts:104-120 | the title's size is the fitted size; its midpoint is the card's vertical middle; its baseline is 0.7·size/2.2 right of the strip's centre, inside the strip; above size 4 it stays 4 mm from the card's ends |
| PdfLayout.ConceptSlots | utils/pdfGenerator.ts:122-151 | operation 3 + 2·idx is the text of concept idx, and operation 4 + 2·idx is the divider under it for idx < 4 |
| PdfLayout.ConceptGeometry | utils/pdfGenerator.ts:123-149 | concept idx is drawn in 11 pt, 15 mm from the left edge and 10 + 8·idx mm below the top; its divider is 3 mm lower, runs to 85 mm, and stays inside the card |
| PdfLayout.DrawOnLast | utils/pdfGenerator.ts:43 | drawing appends to the last page only |
| PdfLayout.DrawOnLastTwice | utils/pdfGenerator.ts:61-151 | two successive draws on the last page equal one draw of both, in order |
| PdfLayout.Document.constructor | utils/pdfGenerator.ts:5 | a new document has no pages |
| PdfLayout.Document.AddPage | utils/pdfGenerator.ts:41 | adds one empty page of the given size at the end |
| PdfLayout.Document.Draw | utils/pdfGenerator.ts:61-149 | appends one operation to the last page |
| PdfLayout.DrawConcepts | utils/pdfGenerator.ts:123-151 | the forEach loop draws exactly the ConceptRows of the shown concepts |
| PdfLayout.DrawTitle | utils/pdfGenerator.ts:81-120 | trims, fits and draws exactly the title operation TitleAt |
| PdfLayout.DrawCard | utils/pdfGenerator.ts:46-151 | the card body appends exactly CardOps(card, i) to the last page |
| PdfLayout.CardsOps | utils/pdfGenerator.ts:37 | the operations of card i are CardOps of card i at position i, in deck order |
| PdfLayout.Pages | utils/pdfGenerator.ts:37-44 | after n cards there are ceil(n / 8) pages |
| PdfLayout.Opened | utils/pdfGenerator.ts:40-44 | before card i is drawn there is a last page; a fresh one is added when i is a multiple of 8 |
| PdfLayout.PagesStep | utils/pdfGenerator.ts:37-44 | opening a page when needed and drawing card i gives the pages of i + 1 cards |
| PdfLayout.PlaceCard | utils/pdfGenerator.ts:38-151 | one pass of the card loop takes the pages of i cards to the pages of i + 1 cards |
| PdfLayout.GeneratePdf | utils/pdfGenerator.ts:4-152 | the whole loop produces exactly Layout(cards, title, width) |
| PdfLayout.PagesShape | utils/pdfGenerator.ts:37-44 | page p holds the items 8p to min(n, 8p + 8) − 1, between one and eight of them; there are no pages exactly when n = 0 |
| PdfLayout.PageOfItem | utils/pdfGenerator.ts:40-46 | item i is drawn on page i div 8, after the earlier items of that page and before the later ones |
| PdfLayout.CardsOpsNonEmpty | utils/pdfGenerator.ts:60-120 | every card draws at least one operation |
| PdfLayout.LayoutPages | utils/pdfGenerator.ts:33-44 | a deck of n cards makes ceil(n / 8) A4 pages; each holds the operations of 1 to 8 consecutive cards and none is blank; no cards means no pages |
| PdfLayout.CardOnPage | utils/pdfGenerator.ts:40-58 | card i is on page i div 8, in deck order among its page's cards |
| CardPreview.TitleClassBuckets | components/CardPreview.tsx:21-26 | the class is text-[8px] above 18 UTF-16 units, text-[10px] from 13 to 18, and text-xs at most 12 |
| CardPreview.TitleClassMonotone | components/CardPreview.tsx:21-26 | a longer title never gets a larger font |
| CardPreview.TitleClassExtend | components/CardPreview.tsx:21-26 | extending a title never makes its font larger |
| CardPreview.Utf16LengthBmp | components/CardPreview.tsx:22 | without characters outside the Basic Multilingual Plane, the length is the number of characters |
| CardPreview.Fillers | components/CardPreview.tsx:52 | `Array.from({length: 5 - n})` has max(0, 5 − n) entries, so the rows reach max(5, n) |
| CardPreview.Rows | components/CardPreview.tsx:46-54 | every concept row in order, then placeholders up to five rows |
| CardPreview.RowsShowConcepts | components/CardPreview.tsx:46-54 | a tile lists exactly the card's concepts, in order, in at least five rows; exactly five when the card has at most five concepts |
| CardPreview.Render | components/CardPreview.tsx:10-30 | the "nothing generated" notice exactly when there are no cards; otherwise one tile per card, in order, keyed by its id, with the displayed title and its class |
| CardPreview.GeneratedDeckTiles | components/CardPreview.tsx:10-54 | every tile of a generated deck lists its five concepts with no placeholder, under a non-empty title; the title is "wiskunde" when the entered title is all whitespace, and the trimmed title otherwise |

## Left out

- The random shuffle (App.tsx:40) is the parameter `shuffled`, constrained only to be a permutation of the concept list. The distribution produced by `sort(() => 0.5 - Math.random())` is not modelled.
- `Date.now()` (App.tsx:59) is the parameter `stamps`. The id is a record of index and stamp rather than the formatted string, so the uniqueness of ids within one deck comes from the index.
- React rendering: markup, CSS classes other than the title's size class, `useCallback` memoisation, the `resetKey` remount of the input component (App.tsx:16, 33), and the ConceptInput component. These are presentation, not logic.
- The effect (App.tsx:83-89) runs in `AppState.Commit`, which the caller runs after each handler, as React renders after each event. Commit compares the effect's dependency list `[totalConcepts, hasGenerated]` with its values at the effect's last run. React's batching of state updates and its scheduling beyond this comparison are not modelled.
- The title input's `maxLength={25}` (App.tsx:153) is enforced by the browser while typing, so `SetCardTitle` accepts any string.
- `handleDownloadPdf` (App.tsx:68-80): the `isGeneratingPdf` flag, `async`/`await`, and the error alert. These are UI concurrency and error reporting around `generatePDF`.
- App.ClampCount: `parseInt` returns a double, and the model's `Number(value: int)` is an unbounded integer. A long digit string parses to Infinity, which `Math.max(1, …)` keeps, so the card loop `i < targetCardCount` (App.tsx:51) would not end. Counts above 2^53 also lose precision. Neither case is modelled.
- PdfLayout.GeneratePdf: it always returns the layout, but `generatePDF` can throw, for instance when a title or concept holds a character the standard Helvetica encoding cannot represent. App.tsx:71-78 catches that. The model has no failure path for it.
- pdf-lib itself: drawing calls are recorded as `Op` values on pages, rather than rendered.
  - The regular Helvetica embedded at utils/pdfGenerator.ts:6 is never used for drawing, so it is not modelled.
  - `widthOfTextAtSize` is the parameter `width`. Nothing is assumed about it, so whether a title fits is stated relative to it.
- The save-and-download at the end of `generatePDF` (utils/pdfGenerator.ts:155-160): byte serialisation, Blob, and the link click are I/O.
- Floating-point rounding: metric arithmetic uses exact reals, and the font loop's 0.5 steps are exact in binary as well.
- PdfLayout.TitlePlacement: states that the title lies within 4 mm of the card's ends only for sizes above 4. At size 4 the source draws a title that may overflow, and the model says nothing more.
- types.ts:6-14 (`InputMode`, `GenerationConfig`) is not used by the modelled code.
- Cards built by `generateCards` hold exactly five concepts (`GeneratedDeckTiles`). For any other card, the preview lists every concept and pads to five rows (CardPreview.tsx:46-52), and the PDF draws only the first five (pdfGenerator.ts:129). `Rows` and `Shown` follow the code.
