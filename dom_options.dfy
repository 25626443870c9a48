/** The options object of the current revision (src/dom-builder.ts) and
    the chain of builder calls loadOptions turns it into. C is the child
    handle type; loadOptions never appends children. */
module DomOptions {
  import opened DomTree
  import opened BuilderCalls

  /** The options passed to addEventListener: on and once pass an object holding `once`. */
  datatype EventOptions = EventOptions(once: bool)

  /** A stored listener record: its type, callback and options. */
  datatype Listener = Listener(event: string, cb: Callback, options: EventOptions)

  /** The `class` option: absent, a single string, or an array of strings. */
  datatype ClassOption = NoClass | ClassString(name: string) | ClassArray(names: seq<string>)

  /** What an event type is bound to in `on` or `once`: a callback or an array of them. */
  datatype Binding = Single(cb: Callback) | Many(cbs: seq<Callback>)

  /** One entry `type: binding` of the `on` or `once` map. */
  datatype EventBinding = EventBinding(event: string, binding: Binding)

  /** The options object. The `attrs`, `on` and `once` maps are sequences
      of pairs in key order; an absent map is an empty one. */
  datatype ElementOptions = ElementOptions(id: Option<string>, classes: ClassOption,
                                           attrs: seq<Attribute>,
                                           on: seq<EventBinding>,
                                           once: seq<EventBinding>)

  function Callbacks(b: Binding): seq<Callback>
  {
    match b
    case Single(cb) => [cb]
    case Many(cbs) => cbs
  }

  /** `if (options.id) this.id(options.id)`: an empty id is falsy and skipped. */
  function IdOptionCalls<C>(id: Option<string>): seq<Call<C, Listener>>
  {
    if id.Some? && id.value != "" then [IdCall(id.value)] else []
  }

  /** `if (options.class)`: a non-empty string is one class name, an array
      (even an empty one, which is truthy) is spread into one `class` call. */
  function ClassOptionCalls<C>(c: ClassOption): seq<Call<C, Listener>>
  {
    match c
    case NoClass => []
    case ClassString(s) => if s != "" then [ClassCall([s])] else []
    case ClassArray(ns) => [ClassCall(ns)]
  }

  /** One `attr(name, value)` per entry of `attrs`, in key order. */
  function AttrCalls<C>(attrs: seq<Attribute>): seq<Call<C, Listener>>
  {
    seq(|attrs|, i requires 0 <= i < |attrs| => AttrCall(attrs[i]))
  }

  /** One `on(type, cb)` (or `once`) per callback bound to one event type, in array order. */
  function ListenCalls<C>(event: string, cbs: seq<Callback>, once: bool): seq<Call<C, Listener>>
  {
    seq(|cbs|, k requires 0 <= k < |cbs| => ListenerCall(Listener(event, cbs[k], EventOptions(once))))
  }

  /** The calls for a whole `on` (or `once`) map, key by key. */
  function BindingCalls<C>(bindings: seq<EventBinding>, once: bool): seq<Call<C, Listener>>
    decreases |bindings|
  {
    if bindings == [] then []
    else BindingCalls(bindings[..|bindings| - 1], once) + EntryCalls(bindings[|bindings| - 1], once)
  }

  /** The calls for one entry of the map. */
  function EntryCalls<C>(b: EventBinding, once: bool): seq<Call<C, Listener>>
  {
    ListenCalls(b.event, Callbacks(b.binding), once)
  }

  lemma AttrCallsSnoc<C>(attrs: seq<Attribute>, i: nat)
    requires i < |attrs|
    ensures AttrCalls<C>(attrs[..i + 1]) == AttrCalls<C>(attrs[..i]) + [AttrCall(attrs[i])]
  {
  }

  lemma ListenCallsSnoc<C>(event: string, cbs: seq<Callback>, k: nat, once: bool)
    requires k < |cbs|
    ensures ListenCalls<C>(event, cbs[..k + 1], once)
         == ListenCalls<C>(event, cbs[..k], once) + [ListenerCall(Listener(event, cbs[k], EventOptions(once)))]
  {
  }

  lemma BindingCallsSnoc<C>(bindings: seq<EventBinding>, i: nat, once: bool)
    requires i < |bindings|
    ensures BindingCalls<C>(bindings[..i + 1], once)
         == BindingCalls<C>(bindings[..i], once) + ListenCalls(bindings[i].event, Callbacks(bindings[i].binding), once)
  {
    assert bindings[..i + 1][..i] == bindings[..i];
  }

  /** The calls for an `on` (or `once`) map are all listener calls whose
      records carry the map's `once` flag. */
  lemma {:induction false} BindingCallsListen<C>(bindings: seq<EventBinding>, once: bool)
    ensures forall i :: 0 <= i < |BindingCalls<C>(bindings, once)| ==>
      BindingCalls<C>(bindings, once)[i].ListenerCall? && BindingCalls<C>(bindings, once)[i].listener.options.once == once
    decreases |bindings|
  {
    if bindings != [] {
      BindingCallsListen<C>(bindings[..|bindings| - 1], once);
    }
  }

  /** The builder calls `loadOptions(options)` makes, in order: the id, the
      classes, the attributes, the `on` listeners, the `once` listeners. */
  function OptionCalls<C>(o: ElementOptions): seq<Call<C, Listener>>
  {
    IdOptionCalls(o.id) + ClassOptionCalls(o.classes) + AttrCalls(o.attrs)
    + BindingCalls(o.on, false) + BindingCalls(o.once, true)
  }

  // ---------------------------------------------------------------------
  // The effect of loadOptions, stated without the calls

  /** The listener records `events` stands for: one per callback, event
      type by event type, each with the given `once`. */
  function Registrations(events: seq<EventBinding>, once: bool): (r: seq<Listener>)
    decreases |events|
  {
    if events == [] then []
    else Records(events[0].event, Callbacks(events[0].binding), once) + Registrations(events[1..], once)
  }

  /** The records for one event type: one per callback, in order. */
  function Records(event: string, cbs: seq<Callback>, once: bool): seq<Listener>
  {
    seq(|cbs|, k requires 0 <= k < |cbs| => Listener(event, cbs[k], EventOptions(once)))
  }

  /** Whether loadOptions calls `class` at all. */
  predicate ClassSet(c: ClassOption)
  {
    c.ClassArray? || (c.ClassString? && c.name != "")
  }

  function ClassNames(c: ClassOption): seq<string>
  {
    match c
    case NoClass => []
    case ClassString(s) => [s]
    case ClassArray(ns) => ns
  }

  lemma {:induction false} RegistrationsSnoc(events: seq<EventBinding>, e: EventBinding, once: bool)
    ensures Registrations(events + [e], once) == Registrations(events, once) + Records(e.event, Callbacks(e.binding), once)
    decreases |events|
  {
    if events == [] {
      assert Registrations([e][1..], once) == [];
    } else {
      assert (events + [e])[1..] == events[1..] + [e];
      RegistrationsSnoc(events[1..], e, once);
    }
  }

  lemma {:induction false} CollectAttrCalls<C>(attrs: seq<Attribute>)
    ensures Collect(AttrCalls<C>(attrs), AttrPart) == attrs
    decreases |attrs|
  {
    if attrs != [] {
      var init := attrs[..|attrs| - 1];
      assert AttrCalls<C>(attrs)[..|attrs| - 1] == AttrCalls<C>(init);
      CollectAttrCalls<C>(init);
      assert init + [attrs[|attrs| - 1]] == attrs;
    }
  }

  lemma {:induction false} CollectListenCalls<C>(event: string, cbs: seq<Callback>, once: bool)
    ensures Collect(ListenCalls<C>(event, cbs, once), ListenerPart) == Records(event, cbs, once)
    decreases |cbs|
  {
    if cbs != [] {
      var init := cbs[..|cbs| - 1];
      assert ListenCalls<C>(event, cbs, once)[..|cbs| - 1] == ListenCalls<C>(event, init, once);
      CollectListenCalls<C>(event, init, once);
      assert Records(event, init, once) + [Listener(event, cbs[|cbs| - 1], EventOptions(once))]
          == Records(event, cbs, once);
    }
  }

  lemma {:induction false} CollectBindingCalls<C>(events: seq<EventBinding>, once: bool)
    ensures Collect(BindingCalls<C>(events, once), ListenerPart) == Registrations(events, once)
    decreases |events|
  {
    if events != [] {
      var init := events[..|events| - 1];
      var last := events[|events| - 1];
      var bc: seq<Call<C, Listener>> := BindingCalls(init, once);
      var lc: seq<Call<C, Listener>> := ListenCalls(last.event, Callbacks(last.binding), once);
      calc {
        Collect(BindingCalls<C>(events, once), ListenerPart);
        Collect(bc + lc, ListenerPart);
        { CollectConcat(bc, lc, ListenerPart); }
        Collect(bc, ListenerPart) + Collect(lc, ListenerPart);
        { CollectBindingCalls<C>(init, once); CollectListenCalls<C>(last.event, Callbacks(last.binding), once); }
        Registrations(init, once) + Records(last.event, Callbacks(last.binding), once);
        { RegistrationsSnoc(init, last, once); assert init + [last] == events; }
        Registrations(events, once);
      }
    }
  }

  lemma OptionIds<C>(o: ElementOptions)
    ensures IdsSet(OptionCalls<C>(o)) == if o.id.Some? && o.id.value != "" then [o.id.value] else []
  {
    BindingCallsListen<C>(o.on, false);
    BindingCallsListen<C>(o.once, true);
    var a: seq<Call<C, Listener>> := IdOptionCalls(o.id);
    var rest: seq<Call<C, Listener>> := ClassOptionCalls(o.classes) + AttrCalls(o.attrs)
                                        + BindingCalls(o.on, false) + BindingCalls(o.once, true);
    assert OptionCalls<C>(o) == [] + a + rest;
    CollectNothing(rest, IdPart);
    CollectMiddle([], a, rest, IdPart);
    if a != [] { CollectOne(a[0], IdPart); }
  }

  /** What the class option alone contributes: one `class` call, with one
      name for a non-empty string and the whole array for an array. */
  lemma ClassOptionCollect<C>(c: ClassOption)
    ensures (Collect(ClassOptionCalls<C>(c), ClassCallPart) != []) == ClassSet(c)
    ensures ClassSet(c) ==> Collect(ClassOptionCalls<C>(c), ClassPart) == ClassNames(c)
  {
    match c
    case NoClass =>
    case ClassString(s) =>
      if s != "" {
        CollectOne(Call<C, Listener>.ClassCall([s]), ClassCallPart);
        CollectOne(Call<C, Listener>.ClassCall([s]), ClassPart);
      }
    case ClassArray(ns) =>
      CollectOne(Call<C, Listener>.ClassCall(ns), ClassCallPart);
      CollectOne(Call<C, Listener>.ClassCall(ns), ClassPart);
  }

  lemma OptionClasses<C>(o: ElementOptions)
    ensures ClassCalled(OptionCalls<C>(o)) == ClassSet(o.classes)
    ensures ClassSet(o.classes) ==> ClassesAdded(OptionCalls<C>(o)) == ClassNames(o.classes)
  {
    BindingCallsListen<C>(o.on, false);
    BindingCallsListen<C>(o.once, true);
    var a: seq<Call<C, Listener>> := IdOptionCalls(o.id);
    var b: seq<Call<C, Listener>> := ClassOptionCalls(o.classes);
    var rest: seq<Call<C, Listener>> := AttrCalls(o.attrs) + BindingCalls(o.on, false) + BindingCalls(o.once, true);
    assert OptionCalls<C>(o) == a + b + rest;
    CollectNothing(a, ClassCallPart);
    CollectNothing(rest, ClassCallPart);
    CollectMiddle(a, b, rest, ClassCallPart);
    CollectNothing(a, ClassPart);
    CollectNothing(rest, ClassPart);
    CollectMiddle(a, b, rest, ClassPart);
    ClassOptionCollect<C>(o.classes);
  }

  lemma OptionKids<C>(o: ElementOptions)
    ensures !AppendCalled(OptionCalls<C>(o))
  {
    BindingCallsListen<C>(o.on, false);
    BindingCallsListen<C>(o.once, true);
    CollectNothing(OptionCalls<C>(o), AppendCallPart);
  }

  lemma OptionAttrs<C>(o: ElementOptions)
    ensures AttrsAdded(OptionCalls<C>(o)) == o.attrs
  {
    BindingCallsListen<C>(o.on, false);
    BindingCallsListen<C>(o.once, true);
    var head: seq<Call<C, Listener>> := IdOptionCalls(o.id) + ClassOptionCalls(o.classes);
    var b: seq<Call<C, Listener>> := AttrCalls(o.attrs);
    var rest: seq<Call<C, Listener>> := BindingCalls(o.on, false) + BindingCalls(o.once, true);
    assert OptionCalls<C>(o) == head + b + rest;
    CollectNothing(head, AttrPart);
    CollectNothing(rest, AttrPart);
    CollectMiddle(head, b, rest, AttrPart);
    CollectAttrCalls<C>(o.attrs);
  }

  lemma OptionListeners<C>(o: ElementOptions)
    ensures ListenersAdded(OptionCalls<C>(o)) == Registrations(o.on, false) + Registrations(o.once, true)
  {
    var head: seq<Call<C, Listener>> := IdOptionCalls(o.id) + ClassOptionCalls(o.classes) + AttrCalls(o.attrs);
    var d: seq<Call<C, Listener>> := BindingCalls(o.on, false);
    var e: seq<Call<C, Listener>> := BindingCalls(o.once, true);
    calc {
      Collect(OptionCalls<C>(o), ListenerPart);
      { assert OptionCalls<C>(o) == head + (d + e); }
      Collect(head + (d + e), ListenerPart);
      { CollectConcat(head, d + e, ListenerPart); }
      Collect(head, ListenerPart) + Collect(d + e, ListenerPart);
      { CollectNothing(head, ListenerPart); }
      [] + Collect(d + e, ListenerPart);
      { assert [] + Collect(d + e, ListenerPart) == Collect(d + e, ListenerPart); }
      Collect(d + e, ListenerPart);
      { CollectConcat(d, e, ListenerPart); }
      Collect(d, ListenerPart) + Collect(e, ListenerPart);
      { CollectBindingCalls<C>(o.on, false); CollectBindingCalls<C>(o.once, true); }
      Registrations(o.on, false) + Registrations(o.once, true);
    }
  }

  /** The position of a builder call in loadOptions' fixed order. */
  function Rank<C>(call: Call<C, Listener>): nat
  {
    match call
    case IdCall(_) => 0
    case ClassCall(_) => 1
    case AttrCall(_) => 2
    case ListenerCall(l) => if l.options.once then 4 else 3
    case AppendCall(_) => 5
  }

  /** The rank of the i-th option call is that of the group it falls in. */
  lemma OptionCallRank<C>(o: ElementOptions, i: nat)
    requires i < |OptionCalls<C>(o)|
    ensures var a := |IdOptionCalls<C>(o.id)|;
      var b := a + |ClassOptionCalls<C>(o.classes)|;
      var c := b + |o.attrs|;
      var d := c + |BindingCalls<C>(o.on, false)|;
      Rank(OptionCalls<C>(o)[i]) == if i < a then 0 else if i < b then 1 else if i < c then 2
                                    else if i < d then 3 else 4
  {
    BindingCallsListen<C>(o.on, false);
    BindingCallsListen<C>(o.once, true);
    var a: seq<Call<C, Listener>> := IdOptionCalls(o.id);
    var b: seq<Call<C, Listener>> := ClassOptionCalls(o.classes);
    var cs: seq<Call<C, Listener>> := AttrCalls(o.attrs);
    var d: seq<Call<C, Listener>> := BindingCalls(o.on, false);
    var e: seq<Call<C, Listener>> := BindingCalls(o.once, true);
    var calls := a + b + cs + d + e;
    assert OptionCalls<C>(o) == calls;
    if i >= |a + b + cs + d| {
      assert calls[i] == e[i - |a + b + cs + d|];
    } else if i >= |a + b + cs| {
      assert calls[i] == d[i - |a + b + cs|];
    } else if i >= |a + b| {
      assert calls[i] == cs[i - |a + b|];
    } else if i >= |a| {
      assert calls[i] == b[i - |a|];
    } else {
      assert calls[i] == a[i];
    }
  }

  /** loadOptions never goes back to an earlier group: the id, then the
      classes, then the attributes, then the `on` listeners, then the
      `once` listeners. */
  lemma OptionCallsOrder<C>(o: ElementOptions)
    ensures var calls := OptionCalls<C>(o);
      forall i, j :: 0 <= i < j < |calls| ==> Rank(calls[i]) <= Rank(calls[j])
  {
    var calls := OptionCalls<C>(o);
    forall i, j | 0 <= i < j < |calls|
      ensures Rank(calls[i]) <= Rank(calls[j])
    {
      OptionCallRank<C>(o, i);
      OptionCallRank<C>(o, j);
    }
  }

  /** Making the option calls is making each group of them in turn. */
  lemma RunOptionCalls<C>(c: Config<C, Listener>, o: ElementOptions)
    ensures Run(c, OptionCalls<C>(o))
         == Run(Run(Run(Run(Run(c, IdOptionCalls<C>(o.id)), ClassOptionCalls<C>(o.classes)),
                        AttrCalls<C>(o.attrs)), BindingCalls<C>(o.on, false)), BindingCalls<C>(o.once, true))
  {
    var a: seq<Call<C, Listener>> := IdOptionCalls(o.id);
    var b: seq<Call<C, Listener>> := ClassOptionCalls(o.classes);
    var cs: seq<Call<C, Listener>> := AttrCalls(o.attrs);
    var d: seq<Call<C, Listener>> := BindingCalls(o.on, false);
    var e: seq<Call<C, Listener>> := BindingCalls(o.once, true);
    RunConcat(c, a + b + cs + d, e);
    RunConcat(c, a + b + cs, d);
    RunConcat(c, a + b, cs);
    RunConcat(c, a, b);
  }

  /** loadOptions sets the id only when it is a non-empty string, calls
      `class` only for a non-empty string or an array, adds exactly the
      given attributes in order, then one listener per `on` callback
      (`once: false`) followed by one per `once` callback (`once: true`),
      and never touches the children. */
  lemma LoadOptionsEffect<C>(c: Config<C, Listener>, o: ElementOptions)
    ensures var ls := Registrations(o.on, false) + Registrations(o.once, true);
      Run(c, OptionCalls<C>(o)) == Config(
        if o.id.Some? && o.id.value != "" then o.id else c.id,
        Grown(c.classNames, ClassSet(o.classes), ClassNames(o.classes)),
        c.childs,
        Grown(c.attrs, o.attrs != [], o.attrs),
        Grown(c.listeners, ls != [], ls))
  {
    RunFields(c, OptionCalls<C>(o));
    OptionIds<C>(o);
    OptionClasses<C>(o);
    OptionKids<C>(o);
    OptionAttrs<C>(o);
    OptionListeners<C>(o);
  }
}
