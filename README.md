# Alphabet scrubber, modelled in Dafny

The widget is a vertical strip of 27 symbols: `#`, then `A` to `Z`. The user
drags a finger along it. The widget turns the touch position into one symbol.
It calls the host's `onScrub(symbol)` each time the symbol changes. It moves a
round tooltip so that it follows the finger. Releasing the finger clears the
selection, which hides the tooltip.

`scrubber.dfy` holds one module, `AlphabetScrubber`, in two layers:

- Pure functions:
  - the alphabet and the pixel constants;
  - the clamp, band and symbol mapping (`Clamp`, `SafeIndex`, `Symbol`, `Location`);
  - the tooltip formula (`TooltipOffset`);
  - the widget's whole state as a value (`Snapshot`), with one transition
    per pan-responder callback (`Scrub`, `Stop`, `Handle`) and a whole event
    sequence (`Run`).
- The class `Scrubber`. It has the source's fields: `character`, `tooltip`,
  `outerHeight`, `innerHeight` and `alphabetY`. A ghost `notifications`
  field logs the arguments of the `onScrub` calls. Each method states its new
  `State()` as one of the pure transitions applied to the old state. The
  lemmas about those transitions then carry over to the class.

Modelling choices:

- Pixel values are `real`. The widget's numbers are doubles, and rounding is
  not modelled. The band index uses `.Floor`, as `Math.floor` does.
- A layout value not yet reported is `None`, like JavaScript's `undefined`.
  The guard `!this.alphabetY` becomes `Measured`. Because the guard tests
  truthiness, a strip whose screen top is exactly 0 also counts as not
  measured. The model keeps that behaviour.
- The tooltip offset is `Option<real>`. `None` stands for the not-a-number
  that the formula gives when the container height is still `undefined`.
  The tooltip value starts at `Some(0.0)`, as `new Animated.Value(0)` does.
- `setState` is treated as a synchronous assignment. In React, two quick
  moves could both read the old `character` and both notify. The model does
  not capture that.
- The strip's screen position is measured only after its height has been
  stored (index.js:96-100). So `OnStripMeasured` requires `innerHeight` to be
  known, and `LayoutConsistent` records this ordering.
- index.js:40 has an extra `)`, which is a syntax error as written. The model
  uses the evident condition, `!this.alphabetY`.
- The source hard-codes a band height of 14 units (index.js:6). So on a strip
  270 units high, a touch at 269 selects `S` (band 19), not `Z`. A strip
  shorter than 26 bands can never reach `Z` (`ShortStripNeverReachesZ`).

## Model

| member | source | states |
|---|---|---|
| AlphabetScrubber.AlphabetShape | index.js:5 | the alphabet has 27 entries, `#` at index 0 and the capital letters `A`..`Z` at indices 1..26, so the last index is 26 |
| AlphabetScrubber.SymbolsAreSingleCharacters | index.js:5 | every symbol is a one-character string, so the empty "no selection" value `''` is not a symbol |
| AlphabetScrubber.AlphabetDistinct | index.js:5 | symbols at different positions differ |
| AlphabetScrubber.RawOffset | index.js:44-51 | on a grant the offset is the event's strip-relative `locationY` moved by `dy`; on a move the offset plus the strip's screen top is the finger's current screen position `y0 + dy` |
| AlphabetScrubber.Measured | index.js:40 | a strip top that is missing or exactly 0 counts as unmeasured; any other value counts as measured |
| AlphabetScrubber.Clamp | index.js:52 | `max(lo, min(hi, x))` is at least `lo`, at most `hi` when `lo <= hi`, is `x` inside the range, and is the nearer bound outside it |
| AlphabetScrubber.Location | index.js:44-52 | the clamped touch offset is in `[0, innerHeight]` for any touch, whether it comes from a grant or a move |
| AlphabetScrubber.SafeIndex | index.js:54-55 | the band index is in `[0, 26]`; on the strip `14k <= y < 14(k+1)`; for `y >= 14*26` it is 26; for `y < 14` it is 0 |
| AlphabetScrubber.Symbol | index.js:54-56 | the selected symbol is always a member of the alphabet and one character long |
| AlphabetScrubber.BandSelectsSymbol | index.js:54-56 | an offset `y` with `14k <= y < 14(k+1)` and `k <= 26` selects `alphabet[k]` |
| AlphabetScrubber.SafeIndexMonotone | index.js:54-55 | a lower touch never selects an earlier symbol |
| AlphabetScrubber.StripEnds | index.js:45-56 | a raw offset under 14, negative ones included, selects `#`; a raw offset at or past the bottom of a strip at least `14*26` high selects `Z` |
| AlphabetScrubber.FullStripBottomIsZ | index.js:52-56 | at the bottom of a full 378-unit strip the band index is 27, and clamping it to 26 selects `Z` |
| AlphabetScrubber.ShortStripNeverReachesZ | index.js:6 | on a strip shorter than 26 bands of 14 units, no touch selects `Z` |
| AlphabetScrubber.TooltipOffset | index.js:74-81 | the offset is defined exactly when the container height is known; the tooltip's bottom edge then sits one margin (20) above the finger, measured from the centred strip's top `(outer - inner)/2` |
| AlphabetScrubber.TooltipTracksFinger | index.js:74-81 | the tooltip moves by exactly as much as the finger |
| AlphabetScrubber.TooltipExample | index.js:74-81 | container 300, strip 270, offset 28 selects `B` and gives a tooltip offset of -27 |
| AlphabetScrubber.NewCharacter | index.js:66-72 | `onScrub(c)` is logged once and `c` becomes the selection; layout and tooltip are unchanged |
| AlphabetScrubber.Scrub | index.js:39-64 | one touch event never changes the layout; its effects are stated by the two lemmas below |
| AlphabetScrubber.ScrubInertUntilMeasured | index.js:40-42 | while the strip top is unknown or 0, a touch changes nothing: no call, same selection, same tooltip |
| AlphabetScrubber.ScrubSelectsAndNotifiesOnChange | index.js:44-63 | a measured touch selects the symbol under the finger, logs exactly one call iff that symbol differs from the previous selection, and always resets the tooltip to the offset of the clamped position |
| AlphabetScrubber.Stop | index.js:35-37 | release clears the selection to `''`; layout, tooltip and log are unchanged |
| AlphabetScrubber.StopIdempotent | index.js:35-37 | stopping twice is the same as stopping once |
| AlphabetScrubber.Handle | index.js:28-31 | grant scrubs with `onGrant = true`, move with `onGrant = false`; release and terminate stop |
| AlphabetScrubber.HandlePreservesWellFormed | index.js:18 | every event keeps the selection `''` or a symbol, and every logged call carries a symbol |
| AlphabetScrubber.ScrubIdempotent | index.js:58-63 | repeating a touch event gives the same state as handling it once, so the repeat makes no call |
| AlphabetScrubber.SameSymbolIsSilent | index.js:58-60 | a second touch that maps to the same symbol makes no call |
| AlphabetScrubber.TouchAfterStopNotifies | index.js:35-37 | the first measured touch after a release always makes one call, with the touched symbol |
| AlphabetScrubber.Run | index.js:24-32 | handling a sequence of events never changes the layout |
| AlphabetScrubber.RunPreservesWellFormed | index.js:24-37 | any sequence of events keeps the selection `''` or a symbol, and every logged call carries a symbol |
| AlphabetScrubber.TransitionsNeverRepeat | index.js:58-60 | the calls made during a drag never repeat a symbol twice in a row, and the first differs from the selection before the drag |
| AlphabetScrubber.DragNotifiesTransitions | index.js:58-60 | during a drag, the log grows by exactly the changes of symbol along the touched symbols |
| AlphabetScrubber.DragSelectsLastTouched | index.js:58-71 | after a drag the selection is the symbol under the last event |
| AlphabetScrubber.NewCharacterAsWritten | index.js:66-71 | as written, `onScrub(c)` is always logged, but with a truthy interaction handle the selection keeps its old value |
| AlphabetScrubber.ScrubAsWritten | index.js:39-71 | as written, a touch never changes the layout; with a truthy handle, a measured touch on a new symbol logs one `onScrub` call but leaves both the selection and the tooltip as they were |
| AlphabetScrubber.AsWrittenWithoutHandleIsScrub | index.js:68 | when the pan responder has no interaction handle, the code as written behaves exactly as `Scrub` |
| AlphabetScrubber.AsWrittenRepeatsCall | index.js:58-71 | with a truthy handle the selection never advances, so repeating the same touch calls `onScrub` twice with the same symbol |
| AlphabetScrubber.DragScenario | index.js:28-37 | press at the top of a full strip, drag to 377, release: the calls are `#` then `Z`, and the selection ends as `''` |
| AlphabetScrubber.Scrubber.constructor | index.js:16-21 | a new widget has no selection, tooltip at 0, no layout and no calls |
| AlphabetScrubber.Scrubber.OnContainerLayout | index.js:90 | stores the container height; nothing else changes |
| AlphabetScrubber.Scrubber.OnStripLayout | index.js:96-97 | stores the strip height; nothing else changes |
| AlphabetScrubber.Scrubber.OnStripMeasured | index.js:98-100 | stores the strip's screen top; nothing else changes |
| AlphabetScrubber.Scrubber.ScrubStop | index.js:35-37 | the new state is `Stop` of the old one |
| AlphabetScrubber.Scrubber.OnNewCharacter | index.js:66-72 | the new state is `NewCharacter` of the old one |
| AlphabetScrubber.Scrubber.ScrubMove | index.js:39-64 | the new state is `Scrub` of the old one: unchanged when unmeasured, otherwise the touched symbol selected and logged only on change |
| AlphabetScrubber.Scrubber.HandlePan | index.js:24-32 | the new state is `Handle` of the old one for each pan-responder callback |

## Left out

- Rendering, styles and the letter views (index.js:83-161) are presentation only.
- `PanResponder.create` and responder negotiation (index.js:24-27) are left out. The start and move checks always return `true`, and the termination request always returns `false`. Only the wiring of grant, move, release and terminate is modelled, in `Handle` and `HandlePan`.
- `InteractionManager.clearInteractionHandle` (index.js:68-70) is left out of the main model (`NewCharacter`, `Scrub`, `Scrubber.ScrubMove`). `InteractionManager` is never imported, so when the pan responder holds an interaction handle, line 69 throws after `onScrub` and before the selection is stored. The main model assumes the handle is falsy, or that the import exists. The "notify only on change" results (`ScrubSelectsAndNotifiesOnChange`, `ScrubIdempotent`, `SameSymbolIsSilent`, `DragNotifiesTransitions`) hold only under that assumption. The behaviour as written is modelled separately in `NewCharacterAsWritten` and `ScrubAsWritten`; see "## Findings".
- `Animated.Value` is a plain field that is assigned. Animation and interpolation belong to the renderer.
- `onLayout` and `measure` are modelled only as setter methods. The asynchronous native layout is not modelled.
- Floating-point rounding is not modelled, and neither is a NaN coming from the toolkit.
- React's batched and asynchronous `setState` is not modelled. The model treats it as a synchronous assignment.
- `scrubberWidth` (index.js:7) is used only by styles and is not modelled.

## Findings

| source | as written | input that shows it | evidently intended | confidence | as-written member | corrected member |
|---|---|---|---|---|---|---|
| index.js:68-71 | `InteractionManager` is used but never imported. When the pan responder holds an interaction handle, line 69 throws after `onScrub(char)` and before `setState`. The selection keeps its old value, and the tooltip is not updated. | any measured touch whose symbol differs from the selection while the pan responder holds an interaction handle; repeating the same touch calls `onScrub` again with the same symbol (`AsWrittenRepeatsCall`) | release the handle through an imported `InteractionManager`, then store the new selection, so that a repeated touch makes no call (`ScrubIdempotent`, `SameSymbolIsSilent`) | not executed; medium | AlphabetScrubber.NewCharacterAsWritten | AlphabetScrubber.NewCharacter |
