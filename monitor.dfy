/**
 * The text overlay of the spaceship: a typewriter readout that reveals a fixed
 * message one character per timer tick, and a screen overlay whose rotation the
 * controller sets every frame.
 *
 * The interval timer and the one-shot delay are not modelled as time: the
 * interval callback is the method `Tick`, the delayed callback is `Finish`, and
 * `phase` records which of the two the scheduler can still deliver.
 */
module Monitor {

  /** The glyph drawn after the revealed text on every redraw. */
  const CURSOR: char := '█'

  /** The message the typewriter reveals. */
  const GREETING: string := "Hello World"

  function Min(a: int, b: int): int { if a <= b then a else b }

  /** The string handed to the canvas for a given revealed text. */
  function Drawn(display: string): (r: string)
    ensures |r| == |display| + 1
    ensures r[..|display|] == display && r[|display|] == CURSOR
  {
    display + [CURSOR]
  }

  /** The three typewriter fields: the message, how many characters are shown, and what is shown. */
  datatype Typewriter = Typewriter(text: string, index: nat, display: string)

  /** What is shown is always the first `index` characters of the message. */
  predicate Revealed(t: Typewriter)
  {
    t.index <= |t.text| && t.display == t.text[..t.index]
  }

  /** The state the constructor leaves: nothing shown yet. */
  function Start(text: string): (t: Typewriter)
    ensures Revealed(t) && t.text == text && t.index == 0 && t.display == []
  {
    Typewriter(text, 0, "")
  }

  /**
   * One tick of the interval: show the next character while some remain;
   * once the whole message is shown, the tick changes nothing (it only stops the timer).
   */
  function TypeStep(t: Typewriter): (r: Typewriter)
    requires Revealed(t)
    ensures Revealed(r) && r.text == t.text
    ensures t.index < |t.text| ==> r.index == t.index + 1
    ensures t.index == |t.text| ==> r == t
    ensures t.display <= r.display
  {
    if t.index < |t.text| then
      assert t.text[..t.index + 1] == t.text[..t.index] + [t.text[t.index]];
      t.(display := t.display + [t.text[t.index]], index := t.index + 1)
    else
      t
  }

  /** The delayed step after completion: show the whole message again. */
  function Hold(t: Typewriter): (r: Typewriter)
    requires Revealed(t) && t.index == |t.text|
    ensures r == t && r.display == t.text
  {
    t.(display := t.text)
  }

  /** The state after `n` ticks. */
  function Ticks(t: Typewriter, n: nat): (r: Typewriter)
    requires Revealed(t)
    ensures Revealed(r) && r.text == t.text
    decreases n
  {
    if n == 0 then t else Ticks(TypeStep(t), n - 1)
  }

  /** After `n` ticks exactly `min(index + n, |text|)` characters are shown. */
  lemma {:induction false} TicksReveal(t: Typewriter, n: nat)
    requires Revealed(t)
    ensures Ticks(t, n).index == Min(t.index + n, |t.text|)
    ensures Ticks(t, n).display == t.text[..Min(t.index + n, |t.text|)]
    decreases n
  {
    if n > 0 {
      TicksReveal(TypeStep(t), n - 1);
    }
  }

  /** Shown text only grows: a later tick shows an extension of what an earlier one showed. */
  lemma {:induction false} TicksMonotone(t: Typewriter, m: nat, n: nat)
    requires Revealed(t) && m <= n
    ensures Ticks(t, m).display <= Ticks(t, n).display
  {
    TicksReveal(t, m);
    TicksReveal(t, n);
  }

  /** From the start, the whole message is shown after exactly `|text|` ticks and never before. */
  lemma {:induction false} TicksComplete(text: string, n: nat)
    ensures Ticks(Start(text), n).display == text <==> n >= |text|
  {
    TicksReveal(Start(text), n);
  }

  /** For the greeting that is eleven ticks. */
  lemma GreetingTypedInElevenTicks()
    ensures |GREETING| == 11
    ensures Ticks(Start(GREETING), 11).display == GREETING
    ensures forall n: nat :: n < 11 ==> Ticks(Start(GREETING), n).display != GREETING
  {
    forall n: nat | n <= 11
      ensures Ticks(Start(GREETING), n).display == GREETING <==> n == 11
    {
      TicksComplete(GREETING, n);
    }
  }

  /** Which timer callback the scheduler can deliver next. */
  datatype Phase = Typing | Holding | Done

  /** The translucent hemisphere added to the scene beside the sphere. */
  class Overlay {
    var rotationX: real
    var rotationY: real

    constructor ()
      ensures rotationX == 0.0 && rotationY == 0.0
    {
      rotationX, rotationY := 0.0, 0.0;
    }
  }

  class Monitor {
    var screenOverlay: Overlay?
    const typewriterText: string
    var typewriterIndex: nat
    var typewriterDisplay: string
    /** Typing: the interval is live; Holding: it is cleared and the delay is pending; Done: the delay ran. */
    var phase: Phase
    /** Every string passed to the canvas, oldest first. */
    var drawn: seq<string>

    function State(): Typewriter
      reads this
    {
      Typewriter(typewriterText, typewriterIndex, typewriterDisplay)
    }

    /** The prefix invariant, and the canvas history it implies. */
    ghost predicate Valid()
      reads this
    {
      && Revealed(State())
      && (phase != Typing ==> typewriterIndex == |typewriterText|)
      && |drawn| == typewriterIndex + (if phase == Done then 1 else 0)
      && (forall i :: 0 <= i < typewriterIndex ==> drawn[i] == Drawn(typewriterText[..i + 1]))
      && (phase == Done ==> drawn[typewriterIndex] == Drawn(typewriterText))
    }

    /** Creates the overlay and the canvas, and starts the interval. */
    constructor ()
      ensures Valid() && State() == Start(GREETING)
      ensures phase == Typing && drawn == []
      ensures screenOverlay != null && fresh(screenOverlay)
      ensures screenOverlay.rotationX == 0.0 && screenOverlay.rotationY == 0.0
    {
      typewriterText := GREETING;
      typewriterIndex := 0;
      typewriterDisplay := "";
      screenOverlay := new Overlay();
      drawn := [];
      phase := Typing;
    }

    /** Clears the canvas and draws the shown text followed by the cursor. */
    method UpdateTextCanvas()
      modifies this`drawn
      ensures drawn == old(drawn) + [Drawn(typewriterDisplay)]
    {
      drawn := drawn + [Drawn(typewriterDisplay)];
    }

    /** The interval callback. */
    method Tick()
      requires Valid() && phase == Typing
      modifies this
      ensures Valid() && State() == TypeStep(old(State()))
      ensures screenOverlay == old(screenOverlay)
      ensures old(typewriterIndex) < |typewriterText| ==>
                phase == Typing && drawn == old(drawn) + [Drawn(typewriterDisplay)]
      ensures old(typewriterIndex) == |typewriterText| ==>
                phase == Holding && drawn == old(drawn)
    {
      if typewriterIndex < |typewriterText| {
        typewriterDisplay := typewriterDisplay + [typewriterText[typewriterIndex]];
        typewriterIndex := typewriterIndex + 1;
        UpdateTextCanvas();
        assert typewriterText[..typewriterIndex] == typewriterDisplay;
      } else {
        // clearInterval, then schedule the delayed redraw
        phase := Holding;
      }
    }

    /** The delayed callback scheduled when the interval stops. */
    method Finish()
      requires Valid() && phase == Holding
      modifies this
      ensures Valid() && phase == Done
      ensures State() == Hold(old(State())) == old(State())
      ensures drawn == old(drawn) + [Drawn(typewriterText)]
      ensures screenOverlay == old(screenOverlay)
    {
      typewriterDisplay := typewriterText;
      UpdateTextCanvas();
      phase := Done;
    }

    /** Mirrors the sphere's rotation onto the overlay, when there is one. */
    method UpdateRotation(rotationX: real, rotationY: real)
      modifies screenOverlay
      ensures screenOverlay != null ==>
                screenOverlay.rotationX == rotationX && screenOverlay.rotationY == rotationY
    {
      if screenOverlay != null {
        screenOverlay.rotationX := rotationX;
        screenOverlay.rotationY := rotationY;
      }
    }
  }
}
