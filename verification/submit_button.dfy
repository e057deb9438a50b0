/**
 * The submit button: a styled wrapper around a native submit button whose
 * only state is the scale its spring animates towards. Pressing the mouse
 * on the wrapper shrinks the target to 90 %, releasing it restores 100 %.
 */
module SubmitButton {
  import opened Css

  datatype ButtonProps = ButtonProps(
    backgroundColor: Option<CssValue>,
    fontWeight: Option<CssValue>,
    color: Option<CssValue>,
    width: Option<CssValue>,
    borderRadius: Option<CssValue>,
    padding: Option<CssValue>)

  const Rest: string := "scale(1)"
  const Pressed: string := "scale(0.9)"

  /** A mouse button going down or up over the wrapper. */
  datatype MouseEvent = MouseDown | MouseUp

  /** The new scale target after an event; the old target is overwritten. */
  function OnMouse(current: string, e: MouseEvent): (r: string)
    ensures e.MouseDown? ==> r == Pressed
    ensures e.MouseUp? ==> r == Rest
  {
    match e
    case MouseDown => Pressed
    case MouseUp => Rest
  }

  /** The scale target after a sequence of events, starting at rest. */
  function Run(events: seq<MouseEvent>): string
    decreases |events|
  {
    if events == [] then Rest else OnMouse(Run(events[..|events| - 1]), events[|events| - 1])
  }

  /** The target only ever takes the two values `scale(1)` and `scale(0.9)`,
      and it is pressed exactly when the last event was a mouse-down. */
  lemma RunTwoValued(events: seq<MouseEvent>)
    ensures Run(events) == Rest || Run(events) == Pressed
    ensures Run(events) == Pressed <==> events != [] && events[|events| - 1].MouseDown?
  {
  }

  /** A second mouse-down changes nothing. */
  lemma MouseDownIdempotent(events: seq<MouseEvent>)
    ensures Run(events + [MouseDown, MouseDown]) == Run(events + [MouseDown]) == Pressed
  {
  }

  /** A press followed by a release returns to the initial target. */
  lemma PressReleaseReturnsToRest(events: seq<MouseEvent>)
    ensures Run(events + [MouseDown, MouseUp]) == Run([]) == Rest
  {
  }

  /** The styles of the wrapper `div`; the margin is fixed. */
  datatype WrapperStyle = WrapperStyle(width: Style, margin: string, backgroundColor: Style, borderRadius: Style)

  function ResolveWrapper(p: ButtonProps): (w: WrapperStyle)
    ensures w.width == Fallback(p.width, Lit(Str("10%")))
    ensures w.backgroundColor == Fallback(p.backgroundColor, Lit(Str("#0994CC")))
    ensures w.borderRadius == Fallback(p.borderRadius, Lit(Str("0.3em")))
    ensures w.margin == "1em auto"
  {
    WrapperStyle(
      Fallback(p.width, Lit(Str("10%"))),
      "1em auto",
      Fallback(p.backgroundColor, Lit(Str("#0994CC"))),
      Fallback(p.borderRadius, Lit(Str("0.3em"))))
  }

  /** The inline style of the button, the spring's transform included. */
  datatype ButtonStyle = ButtonStyle(
    cursor: string,
    width: string,
    color: Style,
    fontWeight: Style,
    padding: Style,
    backgroundColor: string,
    border: string,
    outline: string,
    fontFamily: Style,
    transform: string)

  function ResolveButton(p: ButtonProps, transform: string): (b: ButtonStyle)
    ensures b.color == Fallback(p.color, Lit(Str("white")))
    ensures b.fontWeight == Fallback(p.fontWeight, Lit(Str("bold")))
    ensures b.padding == Fallback(p.padding, Lit(Str("0.3em")))
    ensures b.cursor == "pointer" && b.width == "100%" && b.fontFamily == Const(FontsStandard)
    ensures b.backgroundColor == "transparent" && b.border == "none" && b.outline == "none"
    ensures b.transform == transform
  {
    ButtonStyle(
      "pointer",
      "100%",
      Fallback(p.color, Lit(Str("white"))),
      Fallback(p.fontWeight, Lit(Str("bold"))),
      Fallback(p.padding, Lit(Str("0.3em"))),
      "transparent",
      "none",
      "none",
      Const(FontsStandard),
      transform)
  }

  /** The wrapper's and the button's style props do not affect each other. */
  lemma WrapperAndButtonIndependent(p: ButtonProps, q: ButtonProps, t: string)
    requires p.width == q.width && p.backgroundColor == q.backgroundColor && p.borderRadius == q.borderRadius
    ensures ResolveWrapper(p) == ResolveWrapper(q)
    ensures p.color == q.color && p.fontWeight == q.fontWeight && p.padding == q.padding ==>
              ResolveButton(p, t) == ResolveButton(q, t)
  {
  }

  /** The button's attributes: every prop is spread onto it, then
      `aria-label` is set, so a caller's `aria-label` is always replaced. */
  function ButtonAttributes(spread: map<string, string>): (a: map<string, string>)
    ensures a.Keys == spread.Keys + {"aria-label"}
    ensures a["aria-label"] == "submit"
    ensures forall k :: k in spread && k != "aria-label" ==> a[k] == spread[k]
  {
    spread["aria-label" := "submit"]
  }

  class Button {
    const props: ButtonProps
    /** The transform the spring animates towards. */
    var transform: string
    /** The mouse events the wrapper has handled. */
    ghost var events: seq<MouseEvent>

    ghost predicate Valid()
      reads this
    {
      transform == Run(events)
    }

    constructor (p: ButtonProps)
      ensures Valid() && props == p && events == [] && transform == Rest
    {
      props := p;
      transform := "scale(1)";
      events := [];
    }

    method OnMouseDown()
      requires Valid()
      modifies this
      ensures Valid() && events == old(events) + [MouseDown]
      ensures transform == Pressed
    {
      transform := "scale(0.9)";
      events := events + [MouseDown];
      assert events[..|events| - 1] == old(events);
    }

    method OnMouseUp()
      requires Valid()
      modifies this
      ensures Valid() && events == old(events) + [MouseUp]
      ensures transform == Rest
    {
      transform := "scale(1)";
      events := events + [MouseUp];
      assert events[..|events| - 1] == old(events);
    }

    /** The inline style the button is rendered with right now. */
    function CurrentStyle(): (s: ButtonStyle)
      reads this
      requires Valid()
      ensures s.transform == Rest || s.transform == Pressed
    {
      RunTwoValued(events);
      ResolveButton(props, transform)
    }
  }
}
