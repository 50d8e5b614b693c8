# Single-page fitting engine of pdf-generator

This project is a Dafny model of the layout-fitting engine in `app/utils/pdfUtils.ts`
of the markdown-to-PDF generator.

- `estimatePDFPages` guesses how many pages some pdfmake content needs. It divides the
  length of the content's JSON serialisation by half the usable page area. The usable
  area is `(width - 80) * (height - 120)` points.
- `adjustContentForSinglePage` starts from the font-size tiers 18/16/14/12 and line
  spacing 1.2. While the estimate exceeds one page and the normal size exceeds 8, it
  lowers every tier by 0.5 and the spacing by 0.05. On each pass it also rewrites, in
  place, every content object that has a `text` key:
  - the font size is reclassified by exact match against 18, 16 and 14;
  - every margin entry m becomes `max(1, m - 1)`.
  Each pass then overwrites the document's `defaultStyle` size and line height.

Files:

- `estimate.dfy`, module `PageEstimate`: the page heuristic on a content length and a
  page geometry, with its arithmetic laws.
- `typography.dfy`, modules `Wrappers` (an `Option` type) and `Typography`: what one pass
  does to one item, stated on values (`ItemValue`, `Tiers`), and lemmas about any number
  of passes.
- `fit.dfy`, module `SinglePageFit`: the imperative model.
  - `ContentItem` is a class whose `fontSize` and `margin` fields the loop assigns.
  - `DocDefinition` is a class whose `defaultStyle` field the loop assigns.
  - `RescalePass` is the `map` over the content.
  - `AdjustContentForSinglePage` is the `while` loop, proved against the specification
    function `PassesRun` and the value-level `ContentAfter`.
  - `EstimatePDFPages` reads the current items and applies `PageEstimate.EstimatePages`.

Modelling choices:

- Sizes, margins, line spacing and page dimensions are `real` (exact rationals). This lets
  any number be a font size or a margin. Sizes on the 0.5 grid are also exact in
  JavaScript numbers.
- The serialised length (`JSON.stringify(content).length`) is the parameter
  `measure: seq<ItemValue> -> nat`. The loop's termination does not depend on it: it
  follows from the normal size falling by 0.5 from 12 to the floor of 8.
- The same object may sit at several positions of the content array. Each pass visits it
  once per position (`Visits`, `RescaleTimes`), and the model tracks this.
- `passes` is a ghost out-parameter that counts loop iterations. The source has no such
  counter.

Behaviour of `pdfUtils.ts` worth noting:

- The formula `Math.ceil(length / (area * 0.5))` gives 0 only for a length of 0
  (`EstimateSign`). No serialised array is that short: `JSON.stringify` of an array is
  at least `[]`, two characters. So every estimate the code actually computes for a
  geometry wider than 80 and taller than 120 is at least 1 (`SerialisedContentNeedsAPage`,
  and the second postcondition of `SinglePageFit.EstimatePDFPages`).
- Reclassification compares each size against the literals 18, 16 and 14, never against
  the sizes of the previous pass. From the second pass on, no size an item can carry
  matches a literal, so every text item gets the normal size, headings included
  (`AllNormalAfterTwoPasses`).
- The engine assigns `fontSize` and `margin` on the caller's content objects and overwrites
  the `defaultStyle` of the caller's `docDefinition`.
- Every run starts again from 18/16/14/12 and line spacing 1.2. A second run on the output
  of a run of two or more passes therefore lifts every text item back to 11.5 on its first
  pass, and takes another point off each margin entry above 1 (`RerunRestartsAtFirstTier`).

## Model

| member | source | states |
|---|---|---|
| PageEstimate.UsableArea | app/utils/pdfUtils.ts:6 | the page area minus the 80pt and 120pt allowances is positive for any geometry wider than 80 and taller than 120 |
| PageEstimate.PageCapacity | app/utils/pdfUtils.ts:7 | half the usable area, the content one page is assumed to hold, is positive |
| PageEstimate.Ceil | app/utils/pdfUtils.ts:7 | `Math.ceil`: the result is an integer at least x and less than x + 1 |
| PageEstimate.EstimatePages | app/utils/pdfUtils.ts:3-10 | the estimate is exactly the ceiling of length / (area * 0.5): that many pages hold the content, one fewer does not |
| PageEstimate.EstimateSign | app/utils/pdfUtils.ts:7 | the formula is never negative, and it is 0 exactly for a length of 0 |
| PageEstimate.SerialisedContentNeedsAPage | app/utils/pdfUtils.ts:4-7 | for a length of at least 2, the length of the shortest serialised array `[]`, the estimate is at least one page |
| PageEstimate.FitsOnOnePage | app/utils/pdfUtils.ts:7 | the estimate is at most 1 if and only if the length is at most one page's capacity |
| PageEstimate.EstimateMonotone | app/utils/pdfUtils.ts:4-9 | for fixed geometry, a longer serialisation never gives fewer pages |
| PageEstimate.EstimateDoubling | app/utils/pdfUtils.ts:7 | doubling the length gives twice the estimate or one less |
| Typography.TiersAfter | app/utils/pdfUtils.ts:19-29 | after k passes the tiers stay 2pt apart at every step, start at 18/16/14/12, keep normal above 8 exactly while k < 8, and never below 8 for k ≤ 8 |
| Typography.ClassifySize | app/utils/pdfUtils.ts:35-38 | with strictly ordered tiers, the new size is the title, subtitle or subsubtitle tier if and only if the old size was exactly 18, 16 or 14, and the normal tier if and only if it was none of them (a missing size included) |
| Typography.LineSpacingAfter | app/utils/pdfUtils.ts:23-30 | the line spacing after k passes starts at 1.2, is always a tenth of that pass's normal size, and stays between 0.8 and 1.2 for k ≤ 8 |
| Typography.ShrinkMargins | app/utils/pdfUtils.ts:40-42 | the margin keeps its length, and every entry is at least 1 and at most max(1, old entry) |
| Typography.RescaleItem | app/utils/pdfUtils.ts:33-43 | one callback visit keeps an item's kind, other properties and margin shape; leaves non-objects and objects without `text` unchanged; puts a text item on one of the pass's four tiers with every margin entry at least 1 |
| Typography.RescaleTimesShape | app/utils/pdfUtils.ts:33-43 | visits within a pass keep an item's kind, its other properties, margin presence and margin length |
| Typography.AfterPassesShape | app/utils/pdfUtils.ts:32-45 | the same holds after any number of passes |
| Typography.NonTextVisits | app/utils/pdfUtils.ts:33 | visits leave an item without a `text` key, or a non-object, unchanged |
| Typography.NonTextUntouched | app/utils/pdfUtils.ts:33-44 | items without a `text` key, and non-objects, are unchanged by any number of passes |
| Typography.MarginsAfterVisits | app/utils/pdfUtils.ts:40-42 | n visits turn each margin entry m into max(1, m - n), and an item without a margin gains none |
| Typography.MarginsAfterPasses | app/utils/pdfUtils.ts:40-42 | after k ≥ 1 passes, each margin entry m of a text item is max(1, m - k * visits), so at least 1, and the length is unchanged |
| Typography.VisitsLandOnTiers | app/utils/pdfUtils.ts:35-38 | however often a text item is visited in a pass, its size ends on one of that pass's four tiers |
| Typography.UnmatchedVisits | app/utils/pdfUtils.ts:35-38 | an item whose size matches none of 18/16/14 ends on the normal tier of a pass whose normal size matches none either |
| Typography.AllNormalAfterTwoPasses | app/utils/pdfUtils.ts:25-38 | after two or more passes every text item carries that pass's normal size, headings included |
| Typography.FirstPassKeepsRank | app/utils/pdfUtils.ts:35-38 | for an item that occurs once in the content array: on the first pass, sizes 18, 16 and 14 go to 17.5, 15.5 and 13.5, each if and only if it was that size, and every other size goes to 11.5 |
| Typography.RerunRestartsAtFirstTier | app/utils/pdfUtils.ts:19-43 | running the engine again on the result of two or more passes puts every text item back on 11.5 after the new run's first pass, each margin entry losing another point per visit, floored at 1 |
| Typography.HeadingDemotedOnSecondPass | app/utils/pdfUtils.ts:35-38 | a heading at 18 is on the title tier after one pass but on the normal tier, below the title tier, after two |
| SinglePageFit.ContentItem.Rescale | app/utils/pdfUtils.ts:33-43 | one callback visit changes the object exactly as the value-level `RescaleItem` says |
| SinglePageFit.EstimatePDFPages | app/utils/pdfUtils.ts:3-10 | the estimate of the current items is at most 1 if and only if their serialised length is within one page's capacity, and at least 1 whenever that length is at least 2 |
| SinglePageFit.Visits | app/utils/pdfUtils.ts:32 | each position's object is visited at least once per pass |
| SinglePageFit.PassesRun | app/utils/pdfUtils.ts:25 | the pass count is at most 8; at that count the estimate is at most 1 or the floor is reached; before it, every estimate exceeded 1 |
| SinglePageFit.NoPassesIffFits | app/utils/pdfUtils.ts:25 | no pass runs if and only if the initial content is within one page's capacity |
| SinglePageFit.FitOutcome | app/utils/pdfUtils.ts:32-45 | after any number of passes, at every position: items keep kind and shape; items without `text` are unchanged; text items have the normal size after two passes; their margins are max(1, m - passes * visits) ≥ 1 after one |
| SinglePageFit.RescalePass | app/utils/pdfUtils.ts:32-45 | one `map` rescales each text object once per position at which it occurs, leaving the array's elements and order as they were |
| SinglePageFit.ShrinkPass | app/utils/pdfUtils.ts:32-51 | one pass rescales the content, sets defaultStyle's size and line height, and keeps defaultStyle's other properties |
| SinglePageFit.AdjustContentForSinglePage | app/utils/pdfUtils.ts:12-61 | the returned content is the same sequence. The pass count is the one `PassesRun` specifies, at most 8. The returned sizes are the tiers after that many passes, so normal ≥ 8. On exit the estimate is ≤ 1 or normal ≤ 8. Zero passes happen iff the initial estimate is ≤ 1, and then nothing changes. Otherwise defaultStyle has the normal size and line height 1.2 - 0.05k, its other properties kept. The items equal `ContentAfter` |

## Left out

- The React components, markdown-to-HTML and HTML-to-pdfmake conversion, `pdfMake.createPdf`, `localStorage` and download links. They are UI, foreign libraries or browser I/O.
- `JSON.stringify(content).length` is the abstract parameter `measure`. The model says nothing about how a font-size or margin change alters the serialised length, and `measure` may return 0 or 1, which the serialisation of an array never does; the one-page lower bound is therefore stated for lengths of at least 2 rather than for every `measure`.
- The caller passes `pageSize: 'A4'` (app/components/MainContent.tsx:104). JavaScript then computes a NaN estimate, and the loop never runs. NaN is not modelled: `EstimatePDFPages` and `AdjustContentForSinglePage` require numeric geometry wider than 80 and taller than 120.
- IEEE-754 rounding is not modelled. Sizes on the 0.5 grid are exact there too, but line spacing `1.2 - 0.05k` and margins `m - 1` for non-integral m can differ from the model's exact values in the last binary digits.
- A `margin` that is a single number rather than an array is not modelled. The source casts it to `number[]`. A margin of `0` is falsy, so the `if (textItem.margin)` test skips it and it stays 0; any other number makes `.map` throw. A `fontSize` that is not a number is not modelled either.
- `content.map` returns a new array holding the same objects in the same order. The model returns the same sequence of object references.
- A fit/give-up status is not modelled: the source does not return one. The exit condition is stated in `AdjustContentForSinglePage`'s postcondition instead.
