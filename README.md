# Carousel and benefit rotator of the lighting storefront, modelled in Dafny

Two small state machines from the storefront's front-end widgets.

**Recommended-products slider** (module `Slider`, `slider.dfy`). A carousel keeps an integer
offset `currentIndex` into `totalCards` cards, `cardsPerView` of which are visible; the view
size comes from the viewport width (1, 2, 4 or 5 cards). Previous/Next — from the buttons,
the ArrowLeft/ArrowRight keys or a horizontal swipe — move the offset by one card, clamped to
`0 .. max(0, totalCards - cardsPerView)`; `goToSlide` clamps an arbitrary target; a resize
recomputes the view size and returns to the first card. The pure layer (`SliderState`,
`Event`, `Step`, `Run`) is the specification; the class `RecommendedProductsSlider` holds the
widget's fields (including the touch handlers' closure variables `startX`, `startY`,
`isDragging`). Its methods `PreviousSlide`, `NextSlide`, `GoToSlide`, `OnResize`, `OnKeyDown`,
`OnTouchStart` and `OnTouchEnd` are each proved to perform exactly one `Step` and to keep the
invariant `Inv`; `UpdateCardsPerView` only sets `cardsPerView` (it is called where the offset
is 0 or is reset right after), and `GetStatus` changes nothing.

**Benefit rotator** (module `Rotator`, `rotator.dfy`). The viewport width selects mobile
(up to 480), tablet (481 to 1200) or desktop. On desktop all items are visible and nothing
rotates. On tablet and mobile a periodic tick walks one of two fixed five-entry tables of
item indices (three items per entry on tablet, one on mobile): it hides the visible items not
in the current entry, shows the entry's items that were hidden, and advances the counter
`currentRotation` modulo 5. `resetBenefits` restarts the counter, restores the initial
visibility and restarts the interval only when rotating; `pause` and `resume` control the
interval. Each DOM item is modelled by its two classes (`ItemClasses(visible, hidden)`) in an
array the class updates in place with the source's `forEach` loops; the host's interval table
is modelled by `TimerTable`, the set of live interval ids, so that "no interval leaks" is a
checked invariant (`NoLeak`).

`wrappers.dfy` holds the `Option` datatype.

Behaviour worth noting:

- A rotating tick shows `patterns[currentRotation]` and only then increments the counter, so
  the first tick after a reset shows pattern 0 again (`FirstTickAfterResetIsQuiet`).
- The rotator's resize handler calls `resetBenefits` on every (debounced) resize, whether or
  not the breakpoint changed.
- The rotator starts only with at least five items, and there may be more than five; items past
  index 4 are hidden on tablet and mobile and never rotate in.

## Model

| member | source | states |
|---|---|---|
| `Slider.CardsPerView` | assets/recommended-products-slider/recommended-products-slider.js:35-45 | the number of cards per view is between 1 and 5 for every width |
| `Slider.CardsPerViewBands` | assets/recommended-products-slider/recommended-products-slider.js:35-45 | widths up to 480 give 1, 481-768 give 2, 769-1200 give 4, above 1200 give 5, each in both directions |
| `Slider.CardsPerViewMonotone` | assets/recommended-products-slider/recommended-products-slider.js:35-45 | a wider viewport never shows fewer cards |
| `Slider.MaxIndex` | assets/recommended-products-slider/recommended-products-slider.js:68 | the largest offset is non-negative, at least `totalCards - cardsPerView`, and equal to 0 or to that difference |
| `Slider.ClampIndex` | assets/recommended-products-slider/recommended-products-slider.js:162-166 | the goToSlide target lies in `0..maxIndex`; an in-range request is kept exactly, a negative one gives 0, a too-large one gives maxIndex |
| `Slider.ClampIndexIdempotent` | assets/recommended-products-slider/recommended-products-slider.js:162-166 | clamping a clamped index changes nothing |
| `Slider.KeyCommand` | assets/recommended-products-slider/recommended-products-slider.js:89-97 | ArrowLeft and only ArrowLeft means Previous; ArrowRight and only ArrowRight means Next |
| `Slider.SwipeDirectionCharacterized` | assets/recommended-products-slider/recommended-products-slider.js:140-151 | a gesture navigates iff its horizontal travel beats both its vertical travel and 50 pixels, strictly; Next means the finger moved left by more than 50, Previous right by more than 50 |
| `Slider.SwipeOfExactlyMinDistanceIgnored` | assets/recommended-products-slider/recommended-products-slider.js:113-144 | a horizontal move of exactly 50 pixels does nothing in either direction, 51 pixels navigates |
| `Slider.DiagonalSwipeIgnored` | assets/recommended-products-slider/recommended-products-slider.js:143-144 | a move whose horizontal part is not longer than its vertical part never navigates |
| `Slider.SwipeDirectionTranslationInvariant` | assets/recommended-products-slider/recommended-products-slider.js:138-141 | the decision depends only on the displacement, not on where the gesture happens |
| `Slider.SwipeDirectionReversed` | assets/recommended-products-slider/recommended-products-slider.js:140-151 | the same gesture played backwards navigates iff the original does, in the opposite direction |
| `Slider.SwipeExamples` | assets/recommended-products-slider/recommended-products-slider.js:140-151 | (100,100) to (40,105) is Next, to (160,105) is Previous, to (120,180) is nothing |
| `Slider.Init` | assets/recommended-products-slider/recommended-products-slider.js:21-30 | the state after init satisfies the invariant, starts at offset 0 and is not dragging |
| `Slider.Move` | assets/recommended-products-slider/recommended-products-slider.js:59-71 | only the offset changes; Previous at 0 stays at 0 and otherwise goes back exactly one; Next at maxIndex stays and otherwise goes forward exactly one; the invariant is kept |
| `Slider.Step` | assets/recommended-products-slider/recommended-products-slider.js:59-166 | every event keeps the card count and the invariant `0 <= currentIndex <= max(0, totalCards - cardsPerView)` |
| `Slider.RunPreservesInv` | assets/recommended-products-slider/recommended-products-slider.js:59-166 | the invariant and the card count survive any sequence of navigation, goToSlide, resize, key and touch events |
| `Slider.RepeatedNext` | assets/recommended-products-slider/recommended-products-slider.js:67-71 | k Next steps from offset i reach `min(i + k, maxIndex)` |
| `Slider.RepeatedPrevious` | assets/recommended-products-slider/recommended-products-slider.js:59-62 | k Previous steps from offset i reach `max(0, i - k)` |
| `Slider.TwelveCardsFivePerView` | assets/recommended-products-slider/recommended-products-slider.js:67-71 | with 12 cards and 5 per view, k Next presses from offset 0 reach `min(k, 7)` |
| `Slider.NextWhenAllCardsFit` | assets/recommended-products-slider/recommended-products-slider.js:68-69 | when all cards fit in one view, Next keeps the offset at 0 |
| `Slider.GoToSlideProperties` | assets/recommended-products-slider/recommended-products-slider.js:162-166 | goToSlide is idempotent and lands exactly on any in-range target |
| `Slider.ResizeResets` | assets/recommended-products-slider/recommended-products-slider.js:82-86 | a resize recomputes cardsPerView, sets the offset to 0 whatever it was, and changes nothing else |
| `Slider.KeysActAsButtons` | assets/recommended-products-slider/recommended-products-slider.js:89-97 | ArrowLeft acts exactly as previousSlide, ArrowRight exactly as nextSlide, any other key leaves the state unchanged |
| `Slider.TouchEndRules` | assets/recommended-products-slider/recommended-products-slider.js:135-155 | touchend without a preceding touchstart changes nothing, always clears isDragging, and otherwise navigates as the swipe classifier says |
| `Slider.SwipeGesture` | assets/recommended-products-slider/recommended-products-slider.js:115-155 | a touchstart followed by a touchend moves the offset exactly as the classified swipe does |
| `Slider.RecommendedProductsSlider.constructor` | assets/recommended-products-slider/recommended-products-slider.js:21-30 | the fields hold the initial state: offset 0, the card count, the view size for the width |
| `Slider.RecommendedProductsSlider.UpdateCardsPerView` | assets/recommended-products-slider/recommended-products-slider.js:35-45 | sets cardsPerView to the band of the width and nothing else |
| `Slider.RecommendedProductsSlider.PreviousSlide` | assets/recommended-products-slider/recommended-products-slider.js:59-62 | performs one Previous step and keeps the invariant |
| `Slider.RecommendedProductsSlider.NextSlide` | assets/recommended-products-slider/recommended-products-slider.js:67-71 | performs one Next step and keeps the invariant |
| `Slider.RecommendedProductsSlider.GoToSlide` | assets/recommended-products-slider/recommended-products-slider.js:162-166 | sets the offset to the clamped target and keeps the invariant |
| `Slider.RecommendedProductsSlider.OnResize` | assets/recommended-products-slider/recommended-products-slider.js:82-86 | performs the resize step: new view size, offset 0 |
| `Slider.RecommendedProductsSlider.OnKeyDown` | assets/recommended-products-slider/recommended-products-slider.js:89-97 | performs the key step by calling previousSlide or nextSlide |
| `Slider.RecommendedProductsSlider.OnTouchStart` | assets/recommended-products-slider/recommended-products-slider.js:115-119 | records the start point and starts dragging |
| `Slider.RecommendedProductsSlider.OnTouchEnd` | assets/recommended-products-slider/recommended-products-slider.js:135-155 | performs the touchend step: classify, navigate, stop dragging |
| `Slider.RecommendedProductsSlider.GetStatus` | assets/recommended-products-slider/recommended-products-slider.js:171-178 | reports the fields and `maxIndex = max(0, totalCards - cardsPerView)`, which bounds the reported offset |
| `Rotator.CurrentBreakpoint` | assets/benefit-rotator/benefit-rotator.js:36-41 | mobile exactly up to 480, desktop exactly above 1200, tablet in between |
| `Rotator.ShouldRotateBelowDesktop` | assets/benefit-rotator/benefit-rotator.js:43-46 | rotation is on exactly for widths up to 1200, i.e. tablet and mobile |
| `Rotator.PatternsFor` | assets/benefit-rotator/benefit-rotator.js:23-34 | each table the tick reads has 5 entries, every index in them is in 0..4, and the indices of an entry are distinct |
| `Rotator.VisibleCount` | assets/benefit-rotator/benefit-rotator.js:48-53 | the count is 5 on desktop, and on a rotating breakpoint equals the size of every entry of its table (1 on mobile, 3 on tablet) |
| `Rotator.Without` | assets/benefit-rotator/benefit-rotator.js:102-110 | the filter keeps exactly the entries of the first list that are not in the second |
| `Rotator.HideAndShowPartition` | assets/benefit-rotator/benefit-rotator.js:102-110 | elementsToHide and elementsToShow are disjoint, and hiding the one and showing the other yields the new pattern |
| `Rotator.TickShowsTarget` | assets/benefit-rotator/benefit-rotator.js:92-120 | after a rotating tick the visible items are exactly the pattern, and every item still carries exactly one of visible and hidden |
| `Rotator.ResetShowsFirstPattern` | assets/benefit-rotator/benefit-rotator.js:136-157 | after a reset every item has exactly one class; on desktop all are visible, otherwise the visible items are exactly entry 0 of the table |
| `Rotator.FirstTickAfterResetIsQuiet` | assets/benefit-rotator/benefit-rotator.js:130-157 | the first tick after a reset has empty hide and show sets and leaves the items unchanged |
| `Rotator.NextRotation` | assets/benefit-rotator/benefit-rotator.js:127 | the counter stays below 5, goes up by one below 4 and wraps from 4 to 0 |
| `Rotator.RotationStaysInRange` | assets/benefit-rotator/benefit-rotator.js:127 | the counter stays in [0, 5) over any sequence of ticks, including breakpoint switches without a reset |
| `Rotator.RotatingTicksAdvance` | assets/benefit-rotator/benefit-rotator.js:127 | n rotating ticks move the counter from r to `(r + n) mod 5`, whichever rotating breakpoints they see |
| `Rotator.FiveRotatingTicksReturn` | assets/benefit-rotator/benefit-rotator.js:127 | five rotating ticks return the counter to its starting value |
| `Rotator.ClearInterval` | assets/benefit-rotator/benefit-rotator.js:131 | clearing stops the handle's interval and no other |
| `Rotator.SetInterval` | assets/benefit-rotator/benefit-rotator.js:160 | starting adds the returned id to the live intervals and nothing else; the id is new when ids are issued in order |
| `Rotator.NoLeakAtMostOneInterval` | assets/benefit-rotator/benefit-rotator.js:185-189 | when no interval but the handle's is live, at most one interval is live |
| `Rotator.RestartLeavesOneInterval` | assets/benefit-rotator/benefit-rotator.js:186-188 | clearing and then starting leaves exactly the new interval live, referenced by the handle |
| `Rotator.BenefitRotator.constructor` | assets/benefit-rotator/benefit-rotator.js:15-20 | takes the items and runs the initial reset: counter 0, reset visibility, one interval live exactly when rotating |
| `Rotator.BenefitRotator.ResetBenefits` | assets/benefit-rotator/benefit-rotator.js:130-161 | clears the interval, sets the counter to 0, gives the items the reset visibility, and starts a new interval only when rotating, so the live intervals are the handle's when rotating and none otherwise |
| `Rotator.BenefitRotator.CurrentVisible` | assets/benefit-rotator/benefit-rotator.js:95-97 | returns exactly the indices of the items carrying the visible class |
| `Rotator.BenefitRotator.AnimateOut` | assets/benefit-rotator/benefit-rotator.js:55-69 | conceals exactly the given items and leaves the others as they were |
| `Rotator.BenefitRotator.AnimateIn` | assets/benefit-rotator/benefit-rotator.js:71-85 | shows exactly the given items and leaves the others as they were |
| `Rotator.BenefitRotator.RotateBenefits` | assets/benefit-rotator/benefit-rotator.js:87-128 | the counter becomes `TickRotation` of the old one (the function the counter lemmas are about); on desktop nothing changes; otherwise moves the items to the pattern at the counter's old value, so the visible set equals that pattern, and advances the counter modulo 5 |
| `Rotator.BenefitRotator.Pause` | assets/benefit-rotator/benefit-rotator.js:185 | stops the interval, leaving none live |
| `Rotator.BenefitRotator.Resume` | assets/benefit-rotator/benefit-rotator.js:186-189 | clears and then starts an interval, leaving exactly the new one live |
| `Rotator.Start` | assets/benefit-rotator/benefit-rotator.js:15-17 | with fewer than five items nothing starts and the items are untouched; otherwise a rotator in its reset state: counter 0, the reset visibility, one interval live exactly when rotating |

## Left out

- Viewport widths, touch coordinates and the argument of `goToSlide` are modelled as
  integers; the browser reports widths and coordinates as floating-point numbers, and
  `goToSlide` accepts any number: a fractional target (which would leave a fractional offset)
  and a `NaN` or missing target (which `Math.min`/`Math.max` would store as `NaN`) are not
  modelled. Widths are passed to each operation instead of being read from `window.innerWidth`.
- The keydown handler's `e.preventDefault()` calls and the `tabindex` attribute set on the
  slider only affect the browser's default handling and focus, not the carousel's state.
- `updateSliderPosition` (recommended-products-slider.js:50-54) is left out: it only renders a
  CSS `translateX` percentage, a floating-point function of `currentIndex` and `cardsPerView`.
- The `touchmove` handler (recommended-products-slider.js:121-133) is left out: it only
  suppresses browser scrolling and changes no state.
- DOM lookups and guards in the slider's constructor, `initRecommendedProductsSliders`,
  `initSpecificSliders`, the `DOMContentLoaded` wiring and `module.exports` are host plumbing;
  the model's constructor receives the card count directly.
- The rotator's animations are modelled by their effect on the classes only: the inline
  `style.animation` values, the 300 ms and 400 ms delays and the awaiting of the Promises are
  left out, and a tick is treated as one atomic step. A reset or resume arriving while a tick
  is still awaiting its animations is not modelled.
- The 250 ms resize debounce is left out; the resize handler is modelled as a call of
  `ResetBenefits` with the new width.
- The interval calling `rotateBenefits` every 3000 ms is modelled only by the live-interval
  table; the passing of time, and which live interval fires when, are not modelled.
- The debug `console.log` output, the `window.location` checks and the debug interval that
  logs every 2000 ms are left out.
- `getVisibleCount` of the public `window.BenefitRotator` object counts DOM nodes and is left
  out; its `reset` and `getCurrentBreakpoint` are `ResetBenefits` and `CurrentBreakpoint`.
- All of footer-lighting-interactions.js is left out: it is hover, click, focus and scroll
  animation class toggling with no state logic.
- Rotator.BenefitRotator.CurrentVisible: states which indices are returned, not that they come
  in document order, because the tick only uses membership.
- Rotator.Without: states which entries the filter keeps, not that it keeps them in their
  original order, because the tick only uses membership.
