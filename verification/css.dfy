/**
 * Style values shared by the three widgets.
 *
 * Every optional style prop of the widgets is resolved with the JavaScript
 * idiom `props.x || fallback`. `||` yields its left operand when that
 * operand is truthy and its right operand otherwise; the falsy values a style
 * prop can hold are `undefined` (an absent prop), the empty string and the
 * number 0. The colour and font constants of the shared style sheet are
 * opaque tokens here.
 */
module Css {

  datatype Option<T> = None | Some(value: T)

  /** A value a caller may pass for a CSS property: a string or a number. */
  datatype CssValue = Str(s: string) | Num(n: int)

  /** The named constants `Colors.subtle`, `Colors.highlight`, `Colors.error`,
      `Fonts.standard` and `Fonts.error` of the shared style sheet. */
  datatype Token = ColorsSubtle | ColorsHighlight | ColorsError | FontsStandard | FontsError

  /** A resolved style value: either a literal or a style-sheet constant. */
  datatype Style = Lit(v: CssValue) | Const(t: Token)

  /** JavaScript truthiness of an optional prop. */
  predicate Truthy(v: Option<CssValue>)
  {
    match v
    case None => false
    case Some(Str(s)) => s != ""
    case Some(Num(n)) => n != 0
  }

  /** `prop || fallback`: the prop wins exactly when it is truthy. */
  function Fallback(prop: Option<CssValue>, fallback: Style): (r: Style)
    ensures Truthy(prop) ==> r == Lit(prop.value)
    ensures !Truthy(prop) ==> r == fallback
    ensures r != fallback ==> prop.Some? && r == Lit(prop.value)
  {
    if Truthy(prop) then Lit(prop.value) else fallback
  }
}
