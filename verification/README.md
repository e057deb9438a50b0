# Form widgets: a Dafny model

This project models the behaviour of three React form widgets: `Form`, `Input` and `SubmitButton`.

- **`Form`** owns one aggregate that maps field keys to values. It starts empty. `update(key, value)` replaces the aggregate with a copy in which one key is overwritten or added. When an `onChange` listener exists, `update` then calls it once with `{FormState: aggregate}`. The form displays its `render` prop first, else function children, else static children. It publishes the state and `update` through a context.
- **`Input`** keeps two animation targets: the label (size, offset, line height, colour) and the border (colour). Focus and blur replace them. They depend on the props, the `error` flag and the current text. Every optional style prop falls back to its own default.
- **`SubmitButton`** keeps one animation target, `scale(1)` or `scale(0.9)`. Mouse-down and mouse-up on its wrapper switch between the two. Its style props fall back to defaults independently.

Files:

- `css.dfy` (module `Css`) handles style values and `props.x || default`. The falsy values are an absent prop, `""` and `0`. `Colors.*` and `Fonts.*` are opaque tokens.
- `form.dfy` (module `FormStore`) is the form.
- `input.dfy` (module `InputField`) is the input field.
- `submit_button.dfy` (module `SubmitButton`) is the button.

Each component that changes state is a class whose methods assign its fields. A ghost history of handled calls, held in `Valid()`, ties the fields to a pure run function. The lemmas about that run function state the invariants.

Where the design description and the code disagree, the model follows the code:

- **Focus with `error` set.** The design says the error colour wins over the focus highlight. In the code, `handleFocus` gives the border `borderHighlightColor || Colors.highlight` without reading `error` (src/components/Input.tsx:82-84). `InputField.ErrorBorderOnlyAtRest` states this behaviour.
- **Border error colour.** The border's error colour is always `Colors.error`. The `errorColor` prop only colours the error text. `InputField.ErrorColorNeverAnimated` states this.
- **Submission.** The design says the form intercepts submission, prevents navigation and passes the aggregate to `onSubmit`. The code does none of this. `onSubmit` is spread onto the native `<form>` as a DOM handler (src/components/Form.tsx:44), so there is no submission contract to model.
- **`error` toggled after mount.** The design says that setting `error` forces the border to the error colour at once. In the code, the spring targets are set up once, at mount (src/components/Input.tsx:33-45). After that, only the focus and blur handlers move them (src/components/Input.tsx:74-100). A later change of `error` moves no target until the next focus or blur. The model keeps each instance's props fixed (see `InputField.Input` under "Left out").
- **Release outside the button.** The design says a pointer-up anywhere ends the press. In the code, the mouse-down and mouse-up handlers sit on the wrapper only (src/components/SubmitButton.tsx:54). A press released outside the wrapper stays at `scale(0.9)`. `SubmitButton.MouseEvent` is an event over the wrapper.

## Model

| member | source | states |
|---|---|---|
| Css.Fallback | src/components/Input.tsx:47 | `prop \|\| fallback`: the prop is used exactly when it is truthy (present, not `""`, not `0`); otherwise the fallback is used |
| FormStore.Assign | src/components/Form.tsx:23 | the copied aggregate has the old keys plus `key`; `key` maps to `value`; every other key keeps its old value |
| FormStore.LastWriteWins | src/components/Form.tsx:22-23 | after any sequence of updates, the key set is the old keys plus all updated keys; each updated key holds the value of its last update; a key that was not updated keeps its value |
| FormStore.NotifiedAt | src/components/Form.tsx:24-27 | with a listener, there is exactly one notification per update, and notification `i` carries the aggregate stored by update `i` |
| FormStore.GetContent | src/components/Form.tsx:29-37 | `render` wins; otherwise function children are called; otherwise static children are shown; both functions receive the state record, which carries no `update` |
| FormStore.RenderShadowsChildren | src/components/Form.tsx:30-32 | when `render` is given, the children never affect the content |
| FormStore.StaticChildrenIgnoreState | src/components/Form.tsx:36 | static children are shown unchanged whatever the aggregate |
| FormStore.Form.constructor | src/components/Form.tsx:21 | a new form holds the empty aggregate, has sent no notification and keeps its props |
| FormStore.Form.Update | src/components/Form.tsx:22-28 | the new aggregate is the copy with `key` set to `value`; with a listener, exactly one notification is appended, carrying the stored aggregate; without one, nothing is appended; the history invariant is kept |
| FormStore.Form.OnChange | src/components/Form.tsx:38-41 | the form's DOM change handler writes the event and its target to the console and changes no field (it has no `modifies` clause) |
| FormStore.Form.Content | src/components/Form.tsx:48 | what the form displays is its own `render` applied to its state when `render` is given; otherwise its function children applied to its state; otherwise its static children |
| FormStore.Form.Context | src/components/Form.tsx:45-47 | the context value is the current state together with the form whose `update` descendants call |
| FormStore.SignUpExample | src/components/Form.tsx:22-27 | updating `name` and then `email` gives both keys and two notifications, the second with both keys; a snapshot taken between the updates still holds only `name` |
| InputField.RestingBorderColor | src/components/Input.tsx:41-43 | the border colour at start and after blur is `Colors.error` when `error` is set, never `errorColor`; otherwise `borderSubtleColor \|\| Colors.subtle` |
| InputField.InitialTargets | src/components/Input.tsx:33-45 | the label starts at the placeholder position in the subtle colour; the border starts at `1px solid`, radius `5px`, in the resting colour |
| InputField.OnFocus | src/components/Input.tsx:74-85 | focus raises the label in `labelHighlightColor \|\| Colors.highlight`; the border colour becomes `borderHighlightColor \|\| Colors.highlight` whatever `error` says; the border's shape is unchanged |
| InputField.OnBlur | src/components/Input.tsx:86-100 | blur puts the label at the placeholder position iff the text is empty and raises it iff the text is not empty; the label colour is always the subtle one; the border takes the resting colour |
| InputField.BorderStaysInPalette | src/components/Input.tsx:39-45 | after any focus/blur sequence, the border keeps `1px solid` and `5px`, and its colour is the resting colour or the highlight colour |
| InputField.ErrorColorNeverAnimated | src/components/Input.tsx:95-99 | after any event sequence, the `errorColor` prop has no effect on either animation target |
| InputField.ErrorBorderOnlyAtRest | src/components/Input.tsx:82-84 | with `error` set, the border is `Colors.error` at start and after every blur; after a focus it is the highlight colour, which differs from `Colors.error` when no `borderHighlightColor` is given |
| InputField.LabelFollowsLastEvent | src/components/Input.tsx:76-93 | the label target depends only on the last focus or blur event |
| InputField.ResolveStyle | src/components/Input.tsx:46-73 | width falls back to `100%`, text colour to `black`, both fonts to `Fonts.standard`, asterisk colour to `black` and error text colour to `errorColor \|\| Colors.error`, each from its own prop; the error line's font is always `Fonts.error` |
| InputField.StyleFallbacksIndependent | src/components/Input.tsx:47-71 | changing the `width` or `errorColor` prop changes no other resolved style property |
| InputField.View | src/components/Input.tsx:102-118 | the asterisk is shown iff `required`; the error line is shown iff `error`, with `errorText` in the resolved error colour; `aria-label` is the `type` string when it is present and not empty, else `"text"` |
| InputField.Input.constructor | src/components/Input.tsx:33-45 | a new field's two spring targets are the initial targets |
| InputField.Input.HandleFocus | src/components/Input.tsx:74-85 | the targets become `OnFocus` of the old targets, and the event history grows by one focus |
| InputField.Input.HandleUnFocus | src/components/Input.tsx:86-100 | the targets become `OnBlur` of the current text and the old targets, and the history grows by one blur |
| SubmitButton.OnMouse | src/components/SubmitButton.tsx:47-52 | mouse-down sets the target to `scale(0.9)` and mouse-up sets it to `scale(1)`, whatever it was |
| SubmitButton.RunTwoValued | src/components/SubmitButton.tsx:43-54 | after any event sequence the target is `scale(1)` or `scale(0.9)`; it is `scale(0.9)` exactly when the last event was a mouse-down |
| SubmitButton.MouseDownIdempotent | src/components/SubmitButton.tsx:47-49 | a second mouse-down changes nothing |
| SubmitButton.PressReleaseReturnsToRest | src/components/SubmitButton.tsx:47-52 | a mouse-down followed by a mouse-up returns to the initial target `scale(1)` |
| SubmitButton.ResolveWrapper | src/components/SubmitButton.tsx:25-30 | width falls back to `10%`, background to `#0994CC` and radius to `0.3em`; the margin is fixed |
| SubmitButton.ResolveButton | src/components/SubmitButton.tsx:31-41 | colour falls back to `white`, weight to `bold` and padding to `0.3em`; cursor, width, background, border, outline and font are fixed; the spring's transform is added |
| SubmitButton.WrapperAndButtonIndependent | src/components/SubmitButton.tsx:25-41 | the wrapper style depends only on its three props and the button style only on its three props |
| SubmitButton.ButtonAttributes | src/components/SubmitButton.tsx:55-58 | every spread prop is kept except `aria-label`, which is always `submit` because it comes after the spread |
| SubmitButton.Button.constructor | src/components/SubmitButton.tsx:43-45 | the initial target is `scale(1)` |
| SubmitButton.Button.OnMouseDown | src/components/SubmitButton.tsx:47-49 | the target becomes `scale(0.9)` and the history grows by one mouse-down |
| SubmitButton.Button.OnMouseUp | src/components/SubmitButton.tsx:50-52 | the target becomes `scale(1)` and the history grows by one mouse-up |
| SubmitButton.Button.CurrentStyle | src/components/SubmitButton.tsx:55-58 | the button's inline style always carries one of the two scale transforms |

## Left out

- Spring animation: react-spring's interpolation over wall-clock time is floating-point and driven by a timer. Only the targets given to `setLabelSpring`, `setBorderSpring` and `set` are modelled.
- styled-components and JSX: CSS generation and element trees are left out. Only the resolved property values and the conditional parts of the view are kept.
- The values of `Colors` and `Fonts`: `../styles` is not part of this model. Its constants are opaque tokens. They are assumed truthy and pairwise distinct: `InputField.ErrorBorderOnlyAtRest` relies on `Colors.highlight` differing from `Colors.error`.
- The context object: `./context/context` is not part of this model. The context is the plain record `FormContext`.
- Native form submission: the code spreads `onSubmit` onto the DOM `<form>` (src/components/Form.tsx:44). It gets a DOM event and no aggregate, and nothing prevents the default action.
- DOM event routing: a caller's `onChange` on the form replaces the logging handler on the `<form>` element (src/components/Form.tsx:44), and `Input` spreads its props onto the native input (src/components/Input.tsx:111). Both are DOM plumbing. The same spread means a caller's `onChange` on the form also receives every DOM change event that bubbles up to the `<form>`. `FormStore.Form.notifications`, and the "one per update" of `FormStore.NotifiedAt`, count only the calls that `update` makes.
- React `setState` batching: `update` reads `this.state` at lines 23 and 26. Each `update` is modelled as seeing the state committed by the previous one. Several updates batched in one React render could drop writes.
- Console output: the console is modelled as the lines `FormStore.Form.OnChange` returns.
- `e.preventDefault()` in the focus and blur handlers: it has no effect on the targets. The blur event is reduced to the field's current text.
- Numeric prop values are integers: a fractional or `NaN` number (a falsy value) is not represented.
- `props.onChange` being a function is reduced to whether it is present. What the listener does with a payload is outside the form.
- InputField.Input: the props are fixed for the instance's whole life (`const props`). In the component, the initial targets are computed once from the props at mount, and the handlers read the props of the latest render. The model therefore does not capture a prop changing between events. In particular, setting `error` after mount leaves the border at its old colour until the next focus or blur. `InputField.BorderStaysInPalette` and the "at start" half of `InputField.ErrorBorderOnlyAtRest` hold only while the props stay the same.
- FormStore.Form: `onChange`, `render` and the children are fixed for the instance's whole life (`const` fields). In the component, each `update` and each render reads the current props, so a listener added or removed later is not modelled.
- SubmitButton.Button: the style props are fixed for the instance's whole life. A mouse-up outside the wrapper is not an event of this model, because the component never sees it.
