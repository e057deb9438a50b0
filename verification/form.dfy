/**
 * The form container: it owns one aggregate mapping field keys to field
 * values, offers `update(key, value)` to its descendants through a context,
 * tells an optional `onChange` listener about every new aggregate, and
 * chooses what to display from a `render` prop, function children or static
 * children.
 *
 * React's `setState` is taken to commit before the next `update` call
 * starts; the DOM `<form>` element itself is not modelled.
 */
module FormStore {
  import opened Css

  /** The component state `{FormState: aggregate}`; it is also the payload
      given to `onChange`, to `render` and to function children. */
  datatype FormState<V> = FormState(formState: map<string, V>)

  /** `props.children`: a function of the state, or anything else (shown as is). */
  datatype Children<!V, N> = FunctionChild(f: FormState<V> -> N) | StaticChildren(node: N)

  /** The value given to the context provider: the state plus the form whose
      `update` descendants may call. */
  datatype FormContext<!V, !N> = FormContext(state: FormState<V>, update: Form<V, N>)

  /** What the form's own DOM change handler writes to the console. */
  datatype EventTarget = EventTarget(name: string, value: string)
  datatype ChangeEvent = ChangeEvent(target: EventTarget)
  datatype ConsoleLine = EventLine(e: ChangeEvent) | TargetLine(t: EventTarget)

  /** `{...m, [key]: value}`: a new map in which `key` is overwritten or added
      and every other key keeps its value; `m` itself is a value and cannot change. */
  function Assign<V>(m: map<string, V>, key: string, value: V): (r: map<string, V>)
    ensures r.Keys == m.Keys + {key}
    ensures r[key] == value
    ensures forall k :: k in m && k != key ==> r[k] == m[k]
  {
    m[key := value]
  }

  /** The aggregate reached from `m` by a sequence of updates, in order. */
  ghost function ApplyAll<V>(m: map<string, V>, us: seq<(string, V)>): map<string, V>
    decreases |us|
  {
    if us == [] then m
    else Assign(ApplyAll(m, us[..|us| - 1]), us[|us| - 1].0, us[|us| - 1].1)
  }

  /** The keys a sequence of updates writes. */
  ghost function KeysOf<V>(us: seq<(string, V)>): set<string>
  {
    set i | 0 <= i < |us| :: us[i].0
  }

  /** Update `i` is the last one in `us` that writes `key`. */
  ghost predicate IsLastWrite<V>(us: seq<(string, V)>, key: string, i: int)
  {
    0 <= i < |us| && us[i].0 == key && forall j :: i < j < |us| ==> us[j].0 != key
  }

  /** The payloads `onChange` receives for a sequence of updates from the empty form. */
  ghost function Notified<V>(us: seq<(string, V)>): seq<FormState<V>>
    decreases |us|
  {
    if us == [] then []
    else Notified(us[..|us| - 1]) + [FormState(ApplyAll(map[], us))]
  }

  /** After any sequence of updates the key set is the old keys plus the
      updated keys, each updated key holds the value of its last update, and
      every key not updated keeps its old value. */
  lemma {:induction false} LastWriteWins<V>(m: map<string, V>, us: seq<(string, V)>, key: string)
    ensures ApplyAll(m, us).Keys == m.Keys + KeysOf(us)
    ensures forall i :: IsLastWrite(us, key, i) ==>
              key in ApplyAll(m, us) && ApplyAll(m, us)[key] == us[i].1
    ensures key in m && key !in KeysOf(us) ==> ApplyAll(m, us)[key] == m[key]
    decreases |us|
  {
    if us != [] {
      var init, last := us[..|us| - 1], us[|us| - 1];
      LastWriteWins(m, init, key);
      assert KeysOf(us) == KeysOf(init) + {last.0} by {
        forall k | k in KeysOf(us) ensures k in KeysOf(init) + {last.0} {
          var i :| 0 <= i < |us| && us[i].0 == k;
          if i < |init| { assert init[i] == us[i]; }
        }
        forall k | k in KeysOf(init) ensures k in KeysOf(us) {
          var i :| 0 <= i < |init| && init[i].0 == k;
          assert us[i] == init[i];
        }
      }
      forall i | IsLastWrite(us, key, i)
        ensures key in ApplyAll(m, us) && ApplyAll(m, us)[key] == us[i].1
      {
        if i < |init| {
          assert IsLastWrite(init, key, i);
        }
      }
    }
  }

  /** `onChange` has been called once per update, and call `i` carried the
      aggregate stored by update `i`. */
  lemma {:induction false} NotifiedAt<V>(us: seq<(string, V)>, i: int)
    requires 0 <= i < |us|
    ensures |Notified(us)| == |us|
    ensures Notified(us)[i] == FormState(ApplyAll(map[], us[..i + 1]))
    decreases |us|
  {
    var init := us[..|us| - 1];
    if i < |init| {
      NotifiedAt(init, i);
      assert init[..i + 1] == us[..i + 1];
    } else {
      assert us[..i + 1] == us;
      if init != [] {
        NotifiedAt(init, 0);
      }
    }
  }

  /** `getContent`: `render` first, then function children, then static
      children; both functions receive the state record, never `update`. */
  function GetContent<V, N>(render: Option<FormState<V> -> N>, children: Children<V, N>,
                            state: FormState<V>): (n: N)
    ensures render.Some? ==> n == render.value(state)
    ensures render.None? && children.FunctionChild? ==> n == children.f(state)
    ensures render.None? && children.StaticChildren? ==> n == children.node
  {
    if render.Some? then render.value(state)
    else match children
      case FunctionChild(f) => f(state)
      case StaticChildren(node) => node
  }

  /** When `render` is given the children are never looked at. */
  lemma RenderShadowsChildren<V, N>(f: FormState<V> -> N, c1: Children<V, N>, c2: Children<V, N>,
                                    state: FormState<V>)
    ensures GetContent(Some(f), c1, state) == GetContent(Some(f), c2, state) == f(state)
  {
  }

  /** Static children do not depend on the aggregate. */
  lemma StaticChildrenIgnoreState<V, N>(node: N, s1: FormState<V>, s2: FormState<V>)
    ensures GetContent(None, StaticChildren(node), s1) == GetContent(None, StaticChildren(node), s2) == node
  {
  }

  class Form<V, N> {
    /** Whether `props.onChange` is supplied. */
    const hasOnChange: bool
    const render: Option<FormState<V> -> N>
    const children: Children<V, N>

    var state: FormState<V>
    /** The payloads handed to `props.onChange`, oldest first. */
    var notifications: seq<FormState<V>>
    /** Every `update(key, value)` call so far, in order. */
    ghost var updates: seq<(string, V)>

    ghost predicate Valid()
      reads this
    {
      && state.formState == ApplyAll(map[], updates)
      && notifications == (if hasOnChange then Notified(updates) else [])
    }

    /** A fresh form holds the empty aggregate and has notified nobody. */
    constructor (hasOnChange: bool, render: Option<FormState<V> -> N>, children: Children<V, N>)
      ensures Valid()
      ensures this.hasOnChange == hasOnChange && this.render == render && this.children == children
      ensures state == FormState(map[]) && notifications == [] && updates == []
    {
      this.hasOnChange := hasOnChange;
      this.render := render;
      this.children := children;
      state := FormState(map[]);
      notifications := [];
      updates := [];
    }

    /** `update(key, value)`: store a copy of the aggregate with `key` set to
        `value`, then, when there is a listener, notify it once with exactly
        the stored aggregate. */
    method Update(key: string, value: V)
      requires Valid()
      modifies this
      ensures Valid()
      ensures updates == old(updates) + [(key, value)]
      ensures state.formState == Assign(old(state.formState), key, value)
      ensures notifications == old(notifications) + (if hasOnChange then [state] else [])
    {
      var committed := state.formState;
      state := FormState(Assign(committed, key, value));
      if hasOnChange {
        notifications := notifications + [FormState(Assign(committed, key, value))];
      }
      updates := updates + [(key, value)];
      assert updates[..|updates| - 1] == old(updates);
    }

    /** The form's own DOM change handler: it writes the event and its target
        to the console and touches nothing else. */
    method OnChange(e: ChangeEvent) returns (logged: seq<ConsoleLine>)
      ensures logged == [EventLine(e), TargetLine(e.target)]
    {
      logged := [EventLine(e)];
      logged := logged + [TargetLine(e.target)];
    }

    /** The context value built in `render`: the state spread plus `update`. */
    function Context(): (c: FormContext<V, N>)
      reads this
      ensures c.state == state && c.update == this
    {
      FormContext(state, this)
    }

    /** What the form displays inside the context provider: its own `render`
        prop first, then function children, then static children. */
    function Content(): (n: N)
      reads this
      ensures render.Some? ==> n == render.value(state)
      ensures render.None? && children.FunctionChild? ==> n == children.f(state)
      ensures render.None? && children.StaticChildren? ==> n == children.node
    {
      GetContent(render, children, state)
    }
  }

  /** Two updates on an empty form with a listener: the aggregate holds both
      keys, the listener was called twice, the second time with both keys, and
      a snapshot taken between the updates still holds only the first key. */
  method SignUpExample() returns (aggregate: map<string, string>, snapshot: map<string, string>,
                                  sent: seq<FormState<string>>)
    ensures aggregate == map["name" := "Alice", "email" := "a@x.com"]
    ensures snapshot == map["name" := "Alice"]
    ensures |sent| == 2 && sent[0].formState == snapshot && sent[1].formState == aggregate
  {
    var form := new Form<string, string>(true, None, StaticChildren("fields"));
    form.Update("name", "Alice");
    snapshot := form.state.formState;
    form.Update("email", "a@x.com");
    aggregate := form.state.formState;
    sent := form.notifications;
  }
}
