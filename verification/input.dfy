/**
 * The animated text field. Its only state is two animation targets: the
 * label target (font size, colour, vertical offset, line height) and the
 * border target (border, border colour, radius). Focus and blur replace
 * them; the spring animation that follows a target over time is not modelled.
 *
 * This follows the component as written: focus gives the border the
 * highlight colour even when `error` is set, and the border's error colour is
 * always `Colors.error`; the `errorColor` prop only colours the error text.
 */
module InputField {
  import opened Css

  /** The props that decide what the field shows. `error` and `required` are
      optional booleans in the component; absent reads as false. */
  datatype InputProps = InputProps(
    labelText: string,
    labelSubtleColor: Option<CssValue>,
    labelHighlightColor: Option<CssValue>,
    labelFontFamily: Option<CssValue>,
    borderSubtleColor: Option<CssValue>,
    borderHighlightColor: Option<CssValue>,
    textColor: Option<CssValue>,
    asteriskColor: Option<CssValue>,
    errorColor: Option<CssValue>,
    width: Option<CssValue>,
    fontFamily: Option<CssValue>,
    error: bool,
    errorText: Option<string>,
    required: bool,
    inputType: Option<string>)

  datatype LabelTarget = LabelTarget(fontSize: string, color: Style, transform: string, lineHeight: string)
  datatype BorderTarget = BorderTarget(border: string, borderColor: Style, borderRadius: string)
  datatype Targets = Targets(labelSpring: LabelTarget, borderSpring: BorderTarget)

  /** The label sits inside the box, large, like a placeholder. */
  predicate AtPlaceholder(l: LabelTarget)
  {
    l.fontSize == "1.5em" && l.transform == "translateY(1.15em)" && l.lineHeight == "1em"
  }

  /** The label is raised above the text, small. */
  predicate Raised(l: LabelTarget)
  {
    l.fontSize == "1em" && l.transform == "translateY(0em)" && l.lineHeight == "1.5em"
  }

  function PlaceholderLabel(color: Style): (l: LabelTarget)
    ensures AtPlaceholder(l) && !Raised(l) && l.color == color
  {
    LabelTarget("1.5em", color, "translateY(1.15em)", "1em")
  }

  function RaisedLabel(color: Style): (l: LabelTarget)
    ensures Raised(l) && !AtPlaceholder(l) && l.color == color
  {
    LabelTarget("1em", color, "translateY(0em)", "1.5em")
  }

  function SubtleLabelColor(p: InputProps): Style
  {
    Fallback(p.labelSubtleColor, Const(ColorsSubtle))
  }

  function HighlightLabelColor(p: InputProps): Style
  {
    Fallback(p.labelHighlightColor, Const(ColorsHighlight))
  }

  function HighlightBorderColor(p: InputProps): Style
  {
    Fallback(p.borderHighlightColor, Const(ColorsHighlight))
  }

  /** The border colour at start and after blur: `Colors.error` when `error`
      is set (never the `errorColor` prop), else the subtle colour. */
  function RestingBorderColor(p: InputProps): (c: Style)
    ensures p.error ==> c == Const(ColorsError)
    ensures !p.error ==> c == Fallback(p.borderSubtleColor, Const(ColorsSubtle))
  {
    if p.error then Const(ColorsError) else Fallback(p.borderSubtleColor, Const(ColorsSubtle))
  }

  /** The targets the two springs start from. */
  function InitialTargets(p: InputProps): (t: Targets)
    ensures AtPlaceholder(t.labelSpring) && t.labelSpring.color == SubtleLabelColor(p)
    ensures t.borderSpring.borderColor == RestingBorderColor(p)
    ensures t.borderSpring.border == "1px solid" && t.borderSpring.borderRadius == "5px"
  {
    Targets(PlaceholderLabel(SubtleLabelColor(p)), BorderTarget("1px solid", RestingBorderColor(p), "5px"))
  }

  /** `handleFocus`: the label rises and takes the highlight colour; the
      border takes the highlight colour whatever `error` says, and only its
      colour changes. */
  function OnFocus(p: InputProps, t: Targets): (r: Targets)
    ensures Raised(r.labelSpring) && r.labelSpring.color == Fallback(p.labelHighlightColor, Const(ColorsHighlight))
    ensures r.borderSpring.borderColor == Fallback(p.borderHighlightColor, Const(ColorsHighlight))
    ensures r.borderSpring.border == t.borderSpring.border && r.borderSpring.borderRadius == t.borderSpring.borderRadius
  {
    Targets(RaisedLabel(HighlightLabelColor(p)), t.borderSpring.(borderColor := HighlightBorderColor(p)))
  }

  /** `handleUnFocus`: the label returns to the placeholder position exactly
      when the text is empty and stays raised otherwise; its colour is the
      subtle colour in every case; the border takes its resting colour. */
  function OnBlur(p: InputProps, value: string, t: Targets): (r: Targets)
    ensures AtPlaceholder(r.labelSpring) <==> value == ""
    ensures Raised(r.labelSpring) <==> value != ""
    ensures r.labelSpring.color == Fallback(p.labelSubtleColor, Const(ColorsSubtle))
    ensures r.borderSpring.borderColor == RestingBorderColor(p)
    ensures r.borderSpring.border == t.borderSpring.border && r.borderSpring.borderRadius == t.borderSpring.borderRadius
  {
    var color := SubtleLabelColor(p);
    Targets(if value == "" then PlaceholderLabel(color) else RaisedLabel(color),
            t.borderSpring.(borderColor := RestingBorderColor(p)))
  }

  /** A focus event, or a blur event carrying the text the field holds. */
  datatype FieldEvent = Focus | Blur(value: string)

  function Step(p: InputProps, t: Targets, e: FieldEvent): Targets
  {
    match e
    case Focus => OnFocus(p, t)
    case Blur(value) => OnBlur(p, value, t)
  }

  /** The targets after a sequence of events, starting from the initial ones. */
  function Run(p: InputProps, events: seq<FieldEvent>): Targets
    decreases |events|
  {
    if events == [] then InitialTargets(p)
    else Step(p, Run(p, events[..|events| - 1]), events[|events| - 1])
  }

  /** In every reachable state the border keeps its shape and radius, and its
      colour is either the resting colour or the highlight colour. */
  lemma {:induction false} BorderStaysInPalette(p: InputProps, events: seq<FieldEvent>)
    ensures Run(p, events).borderSpring.border == "1px solid"
    ensures Run(p, events).borderSpring.borderRadius == "5px"
    ensures Run(p, events).borderSpring.borderColor in {RestingBorderColor(p), HighlightBorderColor(p)}
    decreases |events|
  {
    if events != [] {
      BorderStaysInPalette(p, events[..|events| - 1]);
    }
  }

  /** The `errorColor` prop never reaches either spring target, whatever
      events happen. */
  lemma {:induction false} ErrorColorNeverAnimated(p: InputProps, c: Option<CssValue>, events: seq<FieldEvent>)
    ensures Run(p, events) == Run(p.(errorColor := c), events)
    decreases |events|
  {
    if events != [] {
      ErrorColorNeverAnimated(p, c, events[..|events| - 1]);
    }
  }

  /** With `error` set the border shows `Colors.error` at start and after
      every blur, but after a focus it shows the highlight colour, which
      differs from `Colors.error` unless `borderHighlightColor` is given. */
  lemma ErrorBorderOnlyAtRest(p: InputProps, events: seq<FieldEvent>)
    requires p.error
    ensures events == [] || events[|events| - 1].Blur? ==>
              Run(p, events).borderSpring.borderColor == Const(ColorsError)
    ensures events != [] && events[|events| - 1].Focus? && !Truthy(p.borderHighlightColor) ==>
              Run(p, events).borderSpring.borderColor == Const(ColorsHighlight) != Const(ColorsError)
  {
  }

  /** The label target is decided by the last event alone. */
  lemma LabelFollowsLastEvent(p: InputProps, events: seq<FieldEvent>, t: Targets)
    requires events != []
    ensures Run(p, events).labelSpring == Step(p, t, events[|events| - 1]).labelSpring
  {
  }

  /** The fixed-look properties, each resolved from its own prop alone; the
      error line's font is always `Fonts.error`. */
  datatype InputStyle = InputStyle(
    width: Style,
    textColor: Style,
    fontFamily: Style,
    labelFontFamily: Style,
    asteriskColor: Style,
    errorColor: Style,
    errorFontFamily: Style)

  function ResolveStyle(p: InputProps): (s: InputStyle)
    ensures s.width == Fallback(p.width, Lit(Str("100%")))
    ensures s.textColor == Fallback(p.textColor, Lit(Str("black")))
    ensures s.fontFamily == Fallback(p.fontFamily, Const(FontsStandard))
    ensures s.labelFontFamily == Fallback(p.labelFontFamily, Const(FontsStandard))
    ensures s.asteriskColor == Fallback(p.asteriskColor, Lit(Str("black")))
    ensures s.errorColor == Fallback(p.errorColor, Const(ColorsError))
    ensures s.errorFontFamily == Const(FontsError)
  {
    InputStyle(
      Fallback(p.width, Lit(Str("100%"))),
      Fallback(p.textColor, Lit(Str("black"))),
      Fallback(p.fontFamily, Const(FontsStandard)),
      Fallback(p.labelFontFamily, Const(FontsStandard)),
      Fallback(p.asteriskColor, Lit(Str("black"))),
      Fallback(p.errorColor, Const(ColorsError)),
      Const(FontsError))
  }

  /** Changing one style prop changes at most the property it resolves. */
  lemma StyleFallbacksIndependent(p: InputProps, c: Option<CssValue>)
    ensures var s, s' := ResolveStyle(p), ResolveStyle(p.(width := c));
            s'.(width := s.width) == s
    ensures var s, s' := ResolveStyle(p), ResolveStyle(p.(errorColor := c));
            s'.(errorColor := s.errorColor) == s
  {
  }

  /** The error line under the field, when shown: its text and colour. */
  datatype ErrorLine = NoErrorLine | ErrorLine(text: Option<string>, color: Style)

  /** The conditional parts of the rendered field. */
  datatype InputView = InputView(labelText: string, asterisk: bool, errorLine: ErrorLine, ariaLabel: string)

  function View(p: InputProps): (v: InputView)
    ensures v.labelText == p.labelText
    ensures v.asterisk <==> p.required
    ensures v.errorLine.ErrorLine? <==> p.error
    ensures v.errorLine.ErrorLine? ==>
              v.errorLine.text == p.errorText && v.errorLine.color == ResolveStyle(p).errorColor
    ensures p.inputType.Some? && p.inputType.value != "" ==> v.ariaLabel == p.inputType.value
    ensures p.inputType.None? || p.inputType.value == "" ==> v.ariaLabel == "text"
  {
    InputView(
      p.labelText,
      p.required,
      if p.error then ErrorLine(p.errorText, ResolveStyle(p).errorColor) else NoErrorLine,
      if p.inputType.Some? && p.inputType.value != "" then p.inputType.value else "text")
  }

  class Input {
    const props: InputProps
    var labelSpring: LabelTarget
    var borderSpring: BorderTarget
    /** The focus and blur events handled so far. */
    ghost var events: seq<FieldEvent>

    ghost predicate Valid()
      reads this
    {
      Targets(labelSpring, borderSpring) == Run(props, events)
    }

    constructor (p: InputProps)
      ensures Valid() && props == p && events == []
      ensures Targets(labelSpring, borderSpring) == InitialTargets(p)
    {
      props := p;
      labelSpring := LabelTarget("1.5em", Fallback(p.labelSubtleColor, Const(ColorsSubtle)), "translateY(1.15em)", "1em");
      borderSpring := BorderTarget("1px solid",
                             if p.error then Const(ColorsError) else Fallback(p.borderSubtleColor, Const(ColorsSubtle)),
                             "5px");
      events := [];
    }

    method HandleFocus()
      requires Valid()
      modifies this
      ensures Valid() && events == old(events) + [Focus]
      ensures Targets(labelSpring, borderSpring) == OnFocus(props, old(Targets(labelSpring, borderSpring)))
    {
      labelSpring := LabelTarget("1em", Fallback(props.labelHighlightColor, Const(ColorsHighlight)),
                           "translateY(0em)", "1.5em");
      borderSpring := borderSpring.(borderColor := Fallback(props.borderHighlightColor, Const(ColorsHighlight)));
      events := events + [Focus];
      assert events[..|events| - 1] == old(events);
    }

    /** `value` is the text of the field at the time of the blur event. */
    method HandleUnFocus(value: string)
      requires Valid()
      modifies this
      ensures Valid() && events == old(events) + [Blur(value)]
      ensures Targets(labelSpring, borderSpring) == OnBlur(props, value, old(Targets(labelSpring, borderSpring)))
    {
      labelSpring := LabelTarget(if value == "" then "1.5em" else "1em",
                           Fallback(props.labelSubtleColor, Const(ColorsSubtle)),
                           if value == "" then "translateY(1.15em)" else "translateY(0em)",
                           if value == "" then "1em" else "1.5em");
      borderSpring := borderSpring.(borderColor := if props.error then Const(ColorsError)
                                       else Fallback(props.borderSubtleColor, Const(ColorsSubtle)));
      events := events + [Blur(value)];
      assert events[..|events| - 1] == old(events);
    }
  }
}
