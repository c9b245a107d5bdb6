/**
 * A model of the alphabet scrubber widget: a vertical strip of 27 symbols
 * (`#`, `A`..`Z`) that turns a touch position into a selected symbol,
 * notifies the host on every change of symbol, and positions a tooltip
 * beside the finger.
 *
 * Pixel values are `real` (the widget's numbers are doubles; rounding is
 * not modelled).  A layout value the host has not reported yet is `None`,
 * and a tooltip offset of `None` stands for the not-a-number the widget
 * computes from a missing container height.
 */
module AlphabetScrubber {

  datatype Option<T> = None | Some(value: T)

  // ---------------------------------------------------------------------
  // Constants
  // ---------------------------------------------------------------------

  /** The strip's symbols, in order from top to bottom. */
  const Letters: string := "#ABCDEFGHIJKLMNOPQRSTUVWXYZ"

  /** The alphabet as the widget keeps it: `Letters` split into one-character strings. */
  const Alphabet: seq<string> :=
    ["#", "A", "B", "C", "D", "E", "F", "G", "H", "I", "J", "K", "L", "M",
     "N", "O", "P", "Q", "R", "S", "T", "U", "V", "W", "X", "Y", "Z"]

  /** Height of one symbol's band on the strip. */
  const CharacterHeight: real := 14.0

  /** Size of the round tooltip, and its gap from the strip. */
  const TooltipWidth: real := 50.0
  const TooltipMargin: real := 20.0

  /** Index of the last symbol, `Z`. */
  const LastIndex: int := |Alphabet| - 1

  lemma AlphabetShape()
    ensures |Alphabet| == |Letters| && forall k :: 0 <= k < |Letters| ==> Alphabet[k] == [Letters[k]]
    ensures |Alphabet| == 27 && LastIndex == 26
    ensures Alphabet[0] == "#"
    ensures forall k :: 1 <= k <= LastIndex ==> Alphabet[k] == [(('A' as int) + k - 1) as char]
  {
  }

  /** Every symbol is a single character, so the empty "no selection" string is none of them. */
  lemma SymbolsAreSingleCharacters()
    ensures forall k :: 0 <= k < |Alphabet| ==> |Alphabet[k]| == 1
    ensures "" !in Alphabet
  {
  }

  /** Distinct positions on the strip hold distinct symbols. */
  lemma AlphabetDistinct(i: int, j: int)
    requires 0 <= i < j < |Alphabet|
    ensures Alphabet[i] != Alphabet[j]
  {
  }

  // ---------------------------------------------------------------------
  // From a touch position to a symbol
  // ---------------------------------------------------------------------

  function Min(a: real, b: real): real { if a <= b then a else b }
  function Max(a: real, b: real): real { if a <= b then b else a }
  function MinInt(a: int, b: int): int { if a <= b then a else b }
  function MaxInt(a: int, b: int): int { if a <= b then b else a }

  /** `Math.max(lo, Math.min(hi, x))`: the offset pulled back onto the strip. */
  function Clamp(lo: real, hi: real, x: real): (r: real)
    ensures lo <= r
    ensures lo <= hi ==> r <= hi
    ensures lo <= x <= hi ==> r == x
    ensures x <= lo ==> r == lo
    ensures lo <= hi <= x ==> r == hi
  {
    Max(lo, Min(hi, x))
  }

  /**
   * The offset of a touch from the strip's top edge, before clamping.  The
   * grant event reports a reliable strip-relative `localY`; later move
   * events use the gesture's start on screen minus the strip's screen top.
   */
  function RawOffset(g: Gesture, onGrant: bool, stripY: real): (r: real)
    ensures onGrant ==> r - g.dy == g.localY
    ensures !onGrant ==> stripY + r == g.y0 + g.dy
  {
    if onGrant then g.localY + g.dy else g.y0 - stripY + g.dy
  }

  /** The symbol band a clamped offset falls in, pulled into `[0, LastIndex]`. */
  function SafeIndex(y: real): (k: int)
    ensures 0 <= k <= LastIndex
    ensures 0.0 <= y < CharacterHeight * ((LastIndex + 1) as real) ==>
              CharacterHeight * (k as real) <= y < CharacterHeight * ((k + 1) as real)
    ensures y >= CharacterHeight * (LastIndex as real) ==> k == LastIndex
    ensures y < CharacterHeight ==> k == 0
  {
    AlphabetShape();
    MinInt(LastIndex, MaxInt(0, (y / CharacterHeight).Floor))
  }

  /** The symbol selected at clamped offset `y`. */
  function Symbol(y: real): (c: string)
    ensures c in Alphabet && |c| == 1
  {
    SymbolsAreSingleCharacters();
    Alphabet[SafeIndex(y)]
  }

  /** A touch anywhere in band `k` selects symbol `k`. */
  lemma BandSelectsSymbol(y: real, k: int)
    requires 0 <= k <= LastIndex
    requires CharacterHeight * (k as real) <= y < CharacterHeight * ((k + 1) as real)
    ensures Symbol(y) == Alphabet[k]
  {
  }

  /** Moving the finger down never selects an earlier symbol. */
  lemma SafeIndexMonotone(y1: real, y2: real)
    requires y1 <= y2
    ensures SafeIndex(y1) <= SafeIndex(y2)
  {
    assert y1 / CharacterHeight <= y2 / CharacterHeight;
  }

  /** The touch offset clamped to the strip, given the strip's layout. */
  function Location(g: Gesture, onGrant: bool, innerHeight: real, stripY: real): (y: real)
    ensures 0.0 <= y
    ensures 0.0 <= innerHeight ==> y <= innerHeight
  {
    Clamp(0.0, innerHeight, RawOffset(g, onGrant, stripY))
  }

  /** Touches above the strip select `#`; touches below a full-height strip select `Z`. */
  lemma StripEnds(g: Gesture, onGrant: bool, innerHeight: real, stripY: real)
    ensures RawOffset(g, onGrant, stripY) < CharacterHeight ==> Symbol(Location(g, onGrant, innerHeight, stripY)) == "#"
    ensures CharacterHeight * (LastIndex as real) <= innerHeight <= RawOffset(g, onGrant, stripY) ==>
              Symbol(Location(g, onGrant, innerHeight, stripY)) == "Z"
  {
    AlphabetShape();
    var raw := RawOffset(g, onGrant, stripY);
    var y := Location(g, onGrant, innerHeight, stripY);
    if raw < CharacterHeight {
      assert y < CharacterHeight;
    }
  }

  /** At the very bottom of a full strip the band index is 27; it is pulled back to `Z`. */
  lemma FullStripBottomIsZ()
    ensures (Clamp(0.0, 378.0, 378.0) / CharacterHeight).Floor == 27
    ensures Symbol(Clamp(0.0, 378.0, 378.0)) == "Z"
  {
    AlphabetShape();
  }

  /** A strip shorter than 26 bands cannot reach `Z`, whatever the touch. */
  lemma ShortStripNeverReachesZ(g: Gesture, onGrant: bool, innerHeight: real, stripY: real)
    requires 0.0 <= innerHeight < CharacterHeight * (LastIndex as real)
    ensures Symbol(Location(g, onGrant, innerHeight, stripY)) != "Z"
  {
    AlphabetShape();
    var y := Location(g, onGrant, innerHeight, stripY);
    var k := SafeIndex(y);
    assert k < LastIndex;
    AlphabetDistinct(k, LastIndex);
  }

  // ---------------------------------------------------------------------
  // The tooltip
  // ---------------------------------------------------------------------

  /** Where the strip starts inside the container, which centres it vertically. */
  function StripTop(outerHeight: real, innerHeight: real): real
  {
    (outerHeight - innerHeight) / 2.0
  }

  /**
   * The tooltip's vertical offset for clamped touch offset `y`: its bottom
   * edge sits one margin above the finger's position in the container.  An
   * unknown container height gives not-a-number (`None`).
   */
  function TooltipOffset(outerHeight: Option<real>, innerHeight: real, y: real): (r: Option<real>)
    ensures r.Some? <==> outerHeight.Some?
    ensures r.Some? ==> r.value + TooltipWidth + TooltipMargin == StripTop(outerHeight.value, innerHeight) + y
  {
    match outerHeight
    case None => None
    case Some(outer) =>
      var alphabetOffset := (outer - innerHeight) / 2.0;
      var activeOffset := alphabetOffset + y;
      var negativeTooltipOffset := TooltipWidth + TooltipMargin;
      Some(activeOffset - negativeTooltipOffset)
  }

  /** The tooltip moves exactly as far as the finger does. */
  lemma TooltipTracksFinger(outer: real, innerHeight: real, y1: real, y2: real)
    ensures TooltipOffset(Some(outer), innerHeight, y2).value - TooltipOffset(Some(outer), innerHeight, y1).value == y2 - y1
  {
  }

  /** Container 300, strip 270, touch 28: symbol `B`, tooltip at -27. */
  lemma TooltipExample()
    ensures Symbol(28.0) == "B"
    ensures TooltipOffset(Some(300.0), 270.0, 28.0) == Some(-27.0)
  {
    AlphabetShape();
    BandSelectsSymbol(28.0, 2);
  }

  // ---------------------------------------------------------------------
  // The widget's state as a value
  // ---------------------------------------------------------------------

  /** What the gesture system reports: strip-relative start, screen start, vertical travel. */
  datatype Gesture = Gesture(localY: real, y0: real, dy: real)

  /** The pan responder's callbacks that reach the widget. */
  datatype PanEvent = PanGrant(g: Gesture) | PanMove(g: Gesture) | PanRelease | PanTerminate

  /** Heights of the container and the strip, and the strip's top on screen. */
  datatype Layout = Layout(outerHeight: Option<real>, innerHeight: Option<real>, alphabetY: Option<real>)

  /** Everything the widget keeps, plus the log of `onScrub` calls it made. */
  datatype Snapshot = Snapshot(layout: Layout, character: string, tooltip: Option<real>, notifications: seq<string>)

  /** The widget's guard: a strip top that is missing or zero counts as not yet measured. */
  predicate Measured(alphabetY: Option<real>): (b: bool)
    ensures alphabetY == None ==> !b
    ensures alphabetY == Some(0.0) ==> !b
    ensures alphabetY.Some? && alphabetY.value != 0.0 ==> b
  {
    alphabetY.Some? && alphabetY.value != 0.0
  }

  /** The strip's height is reported before its screen position is asked for. */
  predicate LayoutConsistent(l: Layout)
  {
    l.alphabetY.Some? ==> l.innerHeight.Some?
  }

  /** The selection is empty or a symbol, and every notification carried a symbol. */
  ghost predicate WellFormed(s: Snapshot)
  {
    LayoutConsistent(s.layout) &&
    (s.character == "" || s.character in Alphabet) &&
    forall i :: 0 <= i < |s.notifications| ==> s.notifications[i] in Alphabet
  }

  const Initial: Snapshot := Snapshot(Layout(None, None, None), "", Some(0.0), [])

  /** The symbol a touch selects under a measured layout. */
  function TouchSymbol(l: Layout, g: Gesture, onGrant: bool): string
    requires LayoutConsistent(l) && Measured(l.alphabetY)
  {
    Symbol(Location(g, onGrant, l.innerHeight.value, l.alphabetY.value))
  }

  /** The host is told about `c`, which becomes the selection. */
  function NewCharacter(s: Snapshot, c: string): (t: Snapshot)
    ensures t.notifications == s.notifications + [c] && t.character == c
    ensures t.layout == s.layout && t.tooltip == s.tooltip
  {
    s.(notifications := s.notifications + [c], character := c)
  }

  /** One touch event, press or drag. */
  function Scrub(s: Snapshot, g: Gesture, onGrant: bool): (t: Snapshot)
    requires LayoutConsistent(s.layout)
    ensures t.layout == s.layout
  {
    if !Measured(s.layout.alphabetY) then s
    else
      var y := Location(g, onGrant, s.layout.innerHeight.value, s.layout.alphabetY.value);
      var c := Symbol(y);
      var s' := if c != s.character then NewCharacter(s, c) else s;
      s'.(tooltip := TooltipOffset(s.layout.outerHeight, s.layout.innerHeight.value, y))
  }

  /** Release or termination: the selection is cleared, nothing else changes. */
  function Stop(s: Snapshot): (t: Snapshot)
    ensures t.character == ""
    ensures t.layout == s.layout && t.tooltip == s.tooltip && t.notifications == s.notifications
  {
    s.(character := "")
  }

  /** The pan responder's wiring: grant and move scrub, release and terminate stop. */
  function Handle(s: Snapshot, e: PanEvent): (t: Snapshot)
    requires LayoutConsistent(s.layout)
    ensures t.layout == s.layout
    ensures e.PanRelease? || e.PanTerminate? ==> t == Stop(s)
    ensures e.PanGrant? ==> t == Scrub(s, e.g, true)
    ensures e.PanMove? ==> t == Scrub(s, e.g, false)
  {
    match e
    case PanGrant(g) => Scrub(s, g, true)
    case PanMove(g) => Scrub(s, g, false)
    case PanRelease => Stop(s)
    case PanTerminate => Stop(s)
  }

  // ---------------------------------------------------------------------
  // Properties of one event
  // ---------------------------------------------------------------------

  /** Before the strip is measured a touch changes nothing: no call, same selection, same tooltip. */
  lemma ScrubInertUntilMeasured(s: Snapshot, g: Gesture, onGrant: bool)
    requires LayoutConsistent(s.layout) && !Measured(s.layout.alphabetY)
    ensures Scrub(s, g, onGrant) == s
  {
  }

  /**
   * A measured touch selects the symbol under the finger, calls `onScrub`
   * exactly when that symbol differs from the selection (appending it to
   * the log), and always moves the tooltip.
   */
  lemma ScrubSelectsAndNotifiesOnChange(s: Snapshot, g: Gesture, onGrant: bool)
    requires LayoutConsistent(s.layout) && Measured(s.layout.alphabetY)
    ensures var t := Scrub(s, g, onGrant);
      var c := TouchSymbol(s.layout, g, onGrant);
      && t.character == c
      && (c != s.character <==> |t.notifications| == |s.notifications| + 1)
      && (c == s.character <==> t.notifications == s.notifications)
      && t.notifications == s.notifications + (if c != s.character then [c] else [])
      && t.tooltip == TooltipOffset(s.layout.outerHeight, s.layout.innerHeight.value,
                                    Location(g, onGrant, s.layout.innerHeight.value, s.layout.alphabetY.value))
  {
  }

  /** Every event keeps the selection a symbol or empty, and the log made of symbols. */
  lemma HandlePreservesWellFormed(s: Snapshot, e: PanEvent)
    requires WellFormed(s)
    ensures WellFormed(Handle(s, e))
  {
    var t := Handle(s, e);
    if e.PanGrant? || e.PanMove? {
      var onGrant := e.PanGrant?;
      if Measured(s.layout.alphabetY) {
        ScrubSelectsAndNotifiesOnChange(s, e.g, onGrant);
        forall i | 0 <= i < |t.notifications|
          ensures t.notifications[i] in Alphabet
        {
          if i < |s.notifications| {
            assert t.notifications[i] == s.notifications[i];
          }
        }
      }
    }
  }

  /** Repeating a touch event is the same as handling it once: the second call is silent. */
  lemma ScrubIdempotent(s: Snapshot, g: Gesture, onGrant: bool)
    requires LayoutConsistent(s.layout)
    ensures Scrub(Scrub(s, g, onGrant), g, onGrant) == Scrub(s, g, onGrant)
  {
    if Measured(s.layout.alphabetY) {
      ScrubSelectsAndNotifiesOnChange(s, g, onGrant);
      ScrubSelectsAndNotifiesOnChange(Scrub(s, g, onGrant), g, onGrant);
    }
  }

  /** A second touch that lands on the selected symbol calls nothing. */
  lemma SameSymbolIsSilent(s: Snapshot, g1: Gesture, b1: bool, g2: Gesture, b2: bool)
    requires LayoutConsistent(s.layout) && Measured(s.layout.alphabetY)
    requires TouchSymbol(s.layout, g1, b1) == TouchSymbol(s.layout, g2, b2)
    ensures Scrub(Scrub(s, g1, b1), g2, b2).notifications == Scrub(s, g1, b1).notifications
  {
    ScrubSelectsAndNotifiesOnChange(s, g1, b1);
    ScrubSelectsAndNotifiesOnChange(Scrub(s, g1, b1), g2, b2);
  }

  /** Stopping clears the selection whatever it was, and stopping again changes nothing. */
  lemma StopIdempotent(s: Snapshot)
    ensures Stop(Stop(s)) == Stop(s)
  {
  }

  /** The first measured touch after a stop always calls `onScrub`, with the touched symbol. */
  lemma TouchAfterStopNotifies(s: Snapshot, g: Gesture, onGrant: bool)
    requires LayoutConsistent(s.layout) && Measured(s.layout.alphabetY)
    ensures Scrub(Stop(s), g, onGrant).notifications == s.notifications + [TouchSymbol(s.layout, g, onGrant)]
  {
    SymbolsAreSingleCharacters();
    ScrubSelectsAndNotifiesOnChange(Stop(s), g, onGrant);
  }

  // ---------------------------------------------------------------------
  // The interaction-handle release as written
  // ---------------------------------------------------------------------

  /**
   * `onNewCharacter` as written: after calling `onScrub`, a truthy
   * interaction handle makes it read `InteractionManager`, which is not
   * imported, so it throws before the selection is stored.
   */
  function NewCharacterAsWritten(s: Snapshot, c: string, handle: bool): (t: Snapshot)
    ensures t.notifications == s.notifications + [c]
    ensures t.character == (if handle then s.character else c)
    ensures t.layout == s.layout && t.tooltip == s.tooltip
  {
    var called := s.(notifications := s.notifications + [c]);
    if handle then called else called.(character := c)
  }

  /**
   * `scrubMove` as written: when the symbol changes under a truthy handle,
   * the throw also skips the tooltip update.
   */
  function ScrubAsWritten(s: Snapshot, g: Gesture, onGrant: bool, handle: bool): (t: Snapshot)
    requires LayoutConsistent(s.layout)
    ensures t.layout == s.layout
    ensures handle && Measured(s.layout.alphabetY) && TouchSymbol(s.layout, g, onGrant) != s.character ==>
              t.tooltip == s.tooltip && t.character == s.character &&
              t.notifications == s.notifications + [TouchSymbol(s.layout, g, onGrant)]
  {
    if !Measured(s.layout.alphabetY) then s
    else
      var y := Location(g, onGrant, s.layout.innerHeight.value, s.layout.alphabetY.value);
      var c := Symbol(y);
      if c != s.character && handle then NewCharacterAsWritten(s, c, handle)
      else
        var s' := if c != s.character then NewCharacterAsWritten(s, c, handle) else s;
        s'.(tooltip := TooltipOffset(s.layout.outerHeight, s.layout.innerHeight.value, y))
  }

  /** Without an interaction handle the code as written behaves as the model. */
  lemma AsWrittenWithoutHandleIsScrub(s: Snapshot, g: Gesture, onGrant: bool)
    requires LayoutConsistent(s.layout)
    ensures ScrubAsWritten(s, g, onGrant, false) == Scrub(s, g, onGrant)
  {
  }

  /**
   * With a handle, the selection never advances, so the same touch repeated
   * calls `onScrub` again with the same symbol.
   */
  lemma AsWrittenRepeatsCall(s: Snapshot, g: Gesture, onGrant: bool)
    requires LayoutConsistent(s.layout) && Measured(s.layout.alphabetY)
    requires TouchSymbol(s.layout, g, onGrant) != s.character
    ensures var c := TouchSymbol(s.layout, g, onGrant);
      var t := ScrubAsWritten(s, g, onGrant, true);
      t.character == s.character &&
      ScrubAsWritten(t, g, onGrant, true).notifications == s.notifications + [c, c]
  {
    var c := TouchSymbol(s.layout, g, onGrant);
    var t := ScrubAsWritten(s, g, onGrant, true);
    assert t.character == s.character && t.notifications == s.notifications + [c];
    assert t.layout == s.layout;
  }

  // ---------------------------------------------------------------------
  // A whole drag
  // ---------------------------------------------------------------------

  /** A sequence of pan events handled in order. */
  function Run(s: Snapshot, es: seq<PanEvent>): (t: Snapshot)
    requires LayoutConsistent(s.layout)
    ensures t.layout == s.layout
    decreases |es|
  {
    if es == [] then s else Run(Handle(s, es[0]), es[1..])
  }

  /** Every sequence of events keeps the selection a symbol or empty, and the log made of symbols. */
  lemma {:induction false} RunPreservesWellFormed(s: Snapshot, es: seq<PanEvent>)
    requires WellFormed(s)
    ensures WellFormed(Run(s, es))
    decreases |es|
  {
    if es != [] {
      HandlePreservesWellFormed(s, es[0]);
      RunPreservesWellFormed(Handle(s, es[0]), es[1..]);
      RunFirst(s, es);
    }
  }

  /** Only presses and drags: no release or termination in between. */
  predicate Touching(es: seq<PanEvent>)
  {
    forall i :: 0 <= i < |es| ==> es[i].PanGrant? || es[i].PanMove?
  }

  /** The symbol under each event of a drag. */
  function Touched(l: Layout, es: seq<PanEvent>): (cs: seq<string>)
    requires LayoutConsistent(l) && Measured(l.alphabetY) && Touching(es)
    ensures |cs| == |es|
    decreases |es|
  {
    if es == [] then [] else [TouchSymbol(l, es[0].g, es[0].PanGrant?)] + Touched(l, es[1..])
  }

  /** The symbols of `cs` at which the selection changes, starting from selection `prev`. */
  function Transitions(prev: string, cs: seq<string>): seq<string>
    decreases |cs|
  {
    if cs == [] then []
    else if cs[0] != prev then [cs[0]] + Transitions(cs[0], cs[1..])
    else Transitions(prev, cs[1..])
  }

  /** The last selection after following `cs` from `prev`. */
  function LastOf(prev: string, cs: seq<string>): string
  {
    if cs == [] then prev else cs[|cs| - 1]
  }

  /** Transitions never repeat a symbol twice in a row, nor repeat the starting selection. */
  lemma {:induction false} TransitionsNeverRepeat(prev: string, cs: seq<string>)
    ensures var ts := Transitions(prev, cs);
      (ts != [] ==> ts[0] != prev) &&
      forall i :: 0 < i < |ts| ==> ts[i - 1] != ts[i]
    decreases |cs|
  {
    if cs != [] {
      TransitionsNeverRepeat(if cs[0] != prev then cs[0] else prev, cs[1..]);
    }
  }

  /** One press or drag event inside a drag, as seen by the log and the selection. */
  lemma TouchStep(s: Snapshot, e: PanEvent)
    requires LayoutConsistent(s.layout) && Measured(s.layout.alphabetY) && (e.PanGrant? || e.PanMove?)
    ensures var c := TouchSymbol(s.layout, e.g, e.PanGrant?);
      Handle(s, e).character == c &&
      Handle(s, e).notifications == s.notifications + (if c != s.character then [c] else [])
  {
    ScrubSelectsAndNotifiesOnChange(s, e.g, e.PanGrant?);
  }

  /** How a drag's symbols and transitions split at its first event. */
  lemma DragSplit(l: Layout, prev: string, es: seq<PanEvent>)
    requires LayoutConsistent(l) && Measured(l.alphabetY) && Touching(es) && es != []
    ensures Touching(es[1..])
    ensures var cs := Touched(l, es);
      cs[0] == TouchSymbol(l, es[0].g, es[0].PanGrant?) &&
      cs[1..] == Touched(l, es[1..]) &&
      LastOf(prev, cs) == LastOf(cs[0], cs[1..]) &&
      Transitions(prev, cs) == (if cs[0] != prev then [cs[0]] else []) + Transitions(cs[0], cs[1..])
  {
    assert forall i :: 0 <= i < |es[1..]| ==> es[1..][i] == es[i + 1];
  }

  /**
   * During a drag, `onScrub` is called once per change of symbol and never
   * for a repeated symbol: the log grows by exactly the transitions.
   */
  lemma {:induction false} DragNotifiesTransitions(s: Snapshot, es: seq<PanEvent>)
    requires LayoutConsistent(s.layout) && Measured(s.layout.alphabetY) && Touching(es)
    ensures Run(s, es).notifications == s.notifications + Transitions(s.character, Touched(s.layout, es))
    decreases |es|
  {
    if es != [] {
      var t := Handle(s, es[0]);
      var cs := Touched(s.layout, es);
      TouchStep(s, es[0]);
      DragSplit(s.layout, s.character, es);
      DragNotifiesTransitions(t, es[1..]);
      RunFirst(s, es);
      LogGrowsByTransitions(s.notifications, s.character, cs, t.notifications, Run(t, es[1..]).notifications);
    } else {
      assert Touched(s.layout, es) == [];
      assert Run(s, es) == s;
    }
  }

  /** During a drag the selection is always the symbol under the latest event. */
  lemma {:induction false} DragSelectsLastTouched(s: Snapshot, es: seq<PanEvent>)
    requires LayoutConsistent(s.layout) && Measured(s.layout.alphabetY) && Touching(es)
    ensures Run(s, es).character == LastOf(s.character, Touched(s.layout, es))
    decreases |es|
  {
    if es != [] {
      TouchStep(s, es[0]);
      DragSplit(s.layout, s.character, es);
      DragSelectsLastTouched(Handle(s, es[0]), es[1..]);
      RunFirst(s, es);
    } else {
      assert Run(s, es) == s;
    }
  }

  /** The log after the first event, then the rest, grows by the transitions of the whole. */
  lemma LogGrowsByTransitions(log0: seq<string>, prev: string, cs: seq<string>, log1: seq<string>, log2: seq<string>)
    requires cs != []
    requires log1 == log0 + (if cs[0] != prev then [cs[0]] else [])
    requires log2 == log1 + Transitions(cs[0], cs[1..])
    ensures log2 == log0 + Transitions(prev, cs)
  {
  }

  lemma RunFirst(s: Snapshot, es: seq<PanEvent>)
    requires LayoutConsistent(s.layout) && es != []
    ensures Run(s, es) == Run(Handle(s, es[0]), es[1..])
  {
  }

  /** Drag from the top of a full strip to its bottom, then release. */
  lemma DragScenario(s: Snapshot, stripY: real)
    requires s.layout == Layout(Some(400.0), Some(378.0), Some(stripY)) && stripY != 0.0
    requires s.character == ""
    ensures var es := [PanGrant(Gesture(0.0, stripY, 0.0)), PanMove(Gesture(0.0, stripY, 377.0)), PanRelease];
      Run(s, es[..2]).notifications == s.notifications + ["#", "Z"] &&
      Run(s, es).character == "" &&
      Run(s, es).notifications == s.notifications + ["#", "Z"]
  {
    AlphabetShape();
    var es := [PanGrant(Gesture(0.0, stripY, 0.0)), PanMove(Gesture(0.0, stripY, 377.0)), PanRelease];
    var s1 := Handle(s, es[0]);
    BandSelectsSymbol(0.0, 0);
    assert s1.character == "#" && s1.notifications == s.notifications + ["#"];
    var s2 := Handle(s1, es[1]);
    BandSelectsSymbol(377.0, 26);
    assert s2.character == "Z" && s2.notifications == s.notifications + ["#", "Z"];
    var s3 := Handle(s2, es[2]);
    assert s3 == Stop(s2);
    assert es[..2][1..] == es[1..2] && es[1..2][1..] == [] && es[1..][1..] == es[2..] && es[2..][1..] == [];
    RunFirst(s, es[..2]);
    RunFirst(s1, es[1..2]);
    assert Run(s, es[..2]) == s2;
    RunFirst(s, es);
    RunFirst(s1, es[1..]);
    RunFirst(s2, es[2..]);
    assert Run(s, es) == s3;
  }

  // ---------------------------------------------------------------------
  // The component
  // ---------------------------------------------------------------------

  class Scrubber {
    /** The selected symbol; `""` when no touch is active and the tooltip is hidden. */
    var character: string
    /** The tooltip's animated offset, as last set. */
    var tooltip: Option<real>
    var outerHeight: Option<real>
    var innerHeight: Option<real>
    var alphabetY: Option<real>
    /** The arguments of every `onScrub` call so far. */
    ghost var notifications: seq<string>

    ghost function State(): Snapshot
      reads this
    {
      Snapshot(Layout(outerHeight, innerHeight, alphabetY), character, tooltip, notifications)
    }

    ghost predicate Valid()
      reads this
    {
      WellFormed(State())
    }

    constructor ()
      ensures Valid() && State() == Initial
    {
      character := "";
      tooltip := Some(0.0);
      outerHeight, innerHeight, alphabetY := None, None, None;
      notifications := [];
    }

    /** The container reported its height. */
    method OnContainerLayout(height: real)
      requires Valid()
      modifies this
      ensures Valid()
      ensures State() == old(State()).(layout := old(State()).layout.(outerHeight := Some(height)))
    {
      outerHeight := Some(height);
    }

    /** The strip reported its height; its screen position is asked for next. */
    method OnStripLayout(height: real)
      requires Valid()
      modifies this
      ensures Valid()
      ensures State() == old(State()).(layout := old(State()).layout.(innerHeight := Some(height)))
    {
      innerHeight := Some(height);
    }

    /** The strip's screen position arrived. */
    method OnStripMeasured(pageY: real)
      requires Valid() && innerHeight.Some?
      modifies this
      ensures Valid()
      ensures State() == old(State()).(layout := old(State()).layout.(alphabetY := Some(pageY)))
    {
      alphabetY := Some(pageY);
    }

    /** Release or termination of the gesture. */
    method ScrubStop()
      requires Valid()
      modifies this
      ensures Valid()
      ensures State() == Stop(old(State()))
      ensures character == ""
    {
      character := "";
    }

    /** Tell the host about a new symbol, then select it. */
    method OnNewCharacter(c: string)
      requires Valid() && c in Alphabet
      modifies this
      ensures Valid()
      ensures State() == NewCharacter(old(State()), c)
    {
      notifications := notifications + [c];
      character := c;
    }

    /** A press (`onGrant`) or a drag over the strip. */
    method ScrubMove(g: Gesture, onGrant: bool)
      requires Valid()
      modifies this
      ensures Valid()
      ensures State() == Scrub(old(State()), g, onGrant)
      ensures !Measured(old(alphabetY)) ==> State() == old(State())
      ensures Measured(old(alphabetY)) ==> character == TouchSymbol(old(State()).layout, g, onGrant)
      ensures notifications == old(notifications) + (if character != old(character) then [character] else [])
    {
      if !Measured(alphabetY) {
        return;
      }
      var locationY: real;
      if onGrant {
        locationY := g.localY + g.dy;
      } else {
        locationY := g.y0 - alphabetY.value + g.dy;
      }
      locationY := Max(0.0, Min(innerHeight.value, locationY));

      var scrubIndex := (locationY / CharacterHeight).Floor;
      var safeIndex := MinInt(|Alphabet| - 1, MaxInt(0, scrubIndex));
      var newChar := Alphabet[safeIndex];

      if newChar != character {
        OnNewCharacter(newChar);
      }

      tooltip := TooltipOffset(outerHeight, innerHeight.value, locationY);
    }

    /** The pan responder's handlers. */
    method HandlePan(e: PanEvent)
      requires Valid()
      modifies this
      ensures Valid()
      ensures State() == Handle(old(State()), e)
    {
      match e
      case PanGrant(g) => ScrubMove(g, true);
      case PanMove(g) => ScrubMove(g, false);
      case PanRelease => ScrubStop();
      case PanTerminate => ScrubStop();
    }
  }

  /** A host's view: a touch before layout is ignored; then the host lays the widget out. */
  method LaidOutScrubber(stripY: real) returns (w: Scrubber)
    requires stripY != 0.0
    ensures fresh(w) && w.Valid()
    ensures w.State() == Snapshot(Layout(Some(400.0), Some(378.0), Some(stripY)), "", Some(0.0), [])
  {
    w := new Scrubber();
    w.ScrubMove(Gesture(5.0, stripY, 0.0), true);
    assert w.character == "" && w.notifications == [];
    w.OnContainerLayout(400.0);
    w.OnStripLayout(378.0);
    w.OnStripMeasured(stripY);
  }

  /** A host's view: press at the top, move within the band, drag to the bottom, release. */
  method ScrubberClient(stripY: real)
    requires stripY != 0.0
  {
    var w := LaidOutScrubber(stripY);
    var l := w.State().layout;

    BandSelectsSymbol(0.0, 0);
    assert TouchSymbol(l, Gesture(0.0, stripY, 0.0), true) == "#";
    w.ScrubMove(Gesture(0.0, stripY, 0.0), true);
    assert w.character == "#" && w.notifications == ["#"];

    BandSelectsSymbol(6.0, 0);
    assert TouchSymbol(l, Gesture(0.0, stripY, 6.0), false) == "#";
    w.ScrubMove(Gesture(0.0, stripY, 6.0), false);
    assert w.notifications == ["#"];

    BandSelectsSymbol(377.0, 26);
    assert TouchSymbol(l, Gesture(0.0, stripY, 377.0), false) == "Z";
    w.ScrubMove(Gesture(0.0, stripY, 377.0), false);
    assert w.character == "Z" && w.notifications == ["#", "Z"];

    w.ScrubStop();
    assert w.character == "" && w.notifications == ["#", "Z"];
  }
}
