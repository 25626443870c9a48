/** The options object of the earlier revision (dom-builder.ts) and the
    chain of builder calls its loadOptions turns it into. That revision has
    no listener options: loadOptions sets the id, the classes and the
    attributes only. C is the child handle type. */
module LegacyOptions {
  import opened DomTree
  import opened BuilderCalls

  /** A stored listener record: its type, callback and once flag. */
  datatype Listener = Listener(event: string, cb: Callback, once: bool)

  /** The options object: the id (undefined or null is None), the class
      array (undefined or null is None) and the `attrs` map as a sequence of
      pairs in key order, an absent map being an empty one. */
  datatype ElementOptions = ElementOptions(id: Option<string>, classes: Option<seq<string>>,
                                           attrs: seq<Attribute>)

  /** `if (options.id) this.id(options.id)`: an empty id is falsy and skipped. */
  function LegacyIdOptionCalls<C>(id: Option<string>): seq<Call<C, Listener>>
  {
    if id.Some? && id.value != "" then [IdCall(id.value)] else []
  }

  /** `if (options.class) this.class(...options.class)`: an array is truthy
      even when it is empty, so `class` is then still called. */
  function LegacyClassOptionCalls<C>(classes: Option<seq<string>>): seq<Call<C, Listener>>
  {
    if classes.Some? then [ClassCall(classes.value)] else []
  }

  /** One `attr(name, value)` per entry of `attrs`, in key order. */
  function LegacyAttrCalls<C>(attrs: seq<Attribute>): seq<Call<C, Listener>>
  {
    seq(|attrs|, i requires 0 <= i < |attrs| => AttrCall(attrs[i]))
  }

  lemma LegacyAttrCallsSnoc<C>(attrs: seq<Attribute>, i: nat)
    requires i < |attrs|
    ensures LegacyAttrCalls<C>(attrs[..i + 1]) == LegacyAttrCalls<C>(attrs[..i]) + [AttrCall(attrs[i])]
  {
  }

  /** The builder calls `loadOptions(options)` makes, in order: the id, the
      classes, the attributes. */
  function LegacyOptionCalls<C>(o: ElementOptions): seq<Call<C, Listener>>
  {
    LegacyIdOptionCalls(o.id) + LegacyClassOptionCalls(o.classes) + LegacyAttrCalls(o.attrs)
  }

  lemma {:induction false} LegacyCollectAttrCalls<C>(attrs: seq<Attribute>)
    ensures Collect(LegacyAttrCalls<C>(attrs), AttrPart) == attrs
    decreases |attrs|
  {
    if attrs != [] {
      var init := attrs[..|attrs| - 1];
      assert LegacyAttrCalls<C>(attrs)[..|attrs| - 1] == LegacyAttrCalls<C>(init);
      LegacyCollectAttrCalls<C>(init);
      assert init + [attrs[|attrs| - 1]] == attrs;
    }
  }

  lemma LegacyOptionIds<C>(o: ElementOptions)
    ensures IdsSet(LegacyOptionCalls<C>(o)) == if o.id.Some? && o.id.value != "" then [o.id.value] else []
  {
    var a: seq<Call<C, Listener>> := LegacyIdOptionCalls(o.id);
    var rest: seq<Call<C, Listener>> := LegacyClassOptionCalls(o.classes) + LegacyAttrCalls(o.attrs);
    calc {
      Collect(LegacyOptionCalls<C>(o), IdPart);
      { assert LegacyOptionCalls<C>(o) == a + rest; }
      Collect(a + rest, IdPart);
      { CollectConcat(a, rest, IdPart); CollectNothing(rest, IdPart); }
      Collect(a, IdPart) + [];
      { assert Collect(a, IdPart) + [] == Collect(a, IdPart); }
      Collect(a, IdPart);
    }
    if a != [] { CollectOne(a[0], IdPart); }
  }

  /** What the class option alone contributes: one `class` call with the
      whole array when an array is given. */
  lemma LegacyClassOptionCollect<C>(classes: Option<seq<string>>)
    ensures (Collect(LegacyClassOptionCalls<C>(classes), ClassCallPart) != []) == classes.Some?
    ensures Collect(LegacyClassOptionCalls<C>(classes), ClassPart) == Items(classes)
  {
    if classes.Some? {
      CollectOne(Call<C, Listener>.ClassCall(classes.value), ClassCallPart);
      CollectOne(Call<C, Listener>.ClassCall(classes.value), ClassPart);
    }
  }

  lemma LegacyOptionClasses<C>(o: ElementOptions)
    ensures ClassCalled(LegacyOptionCalls<C>(o)) == o.classes.Some?
    ensures ClassesAdded(LegacyOptionCalls<C>(o)) == Items(o.classes)
  {
    var a: seq<Call<C, Listener>> := LegacyIdOptionCalls(o.id);
    var b: seq<Call<C, Listener>> := LegacyClassOptionCalls(o.classes);
    var rest: seq<Call<C, Listener>> := LegacyAttrCalls(o.attrs);
    assert LegacyOptionCalls<C>(o) == a + b + rest;
    CollectNothing(a, ClassCallPart);
    CollectNothing(rest, ClassCallPart);
    CollectMiddle(a, b, rest, ClassCallPart);
    CollectNothing(a, ClassPart);
    CollectNothing(rest, ClassPart);
    CollectMiddle(a, b, rest, ClassPart);
    LegacyClassOptionCollect<C>(o.classes);
  }

  lemma LegacyOptionAttrs<C>(o: ElementOptions)
    ensures AttrsAdded(LegacyOptionCalls<C>(o)) == o.attrs
  {
    var head: seq<Call<C, Listener>> := LegacyIdOptionCalls(o.id) + LegacyClassOptionCalls(o.classes);
    var c: seq<Call<C, Listener>> := LegacyAttrCalls(o.attrs);
    calc {
      Collect(LegacyOptionCalls<C>(o), AttrPart);
      { assert LegacyOptionCalls<C>(o) == head + c; }
      Collect(head + c, AttrPart);
      { CollectConcat(head, c, AttrPart); CollectNothing(head, AttrPart); }
      [] + Collect(c, AttrPart);
      { assert [] + Collect(c, AttrPart) == Collect(c, AttrPart); }
      Collect(c, AttrPart);
      { LegacyCollectAttrCalls<C>(o.attrs); }
      o.attrs;
    }
  }

  lemma OptionKidsListeners<C>(o: ElementOptions)
    ensures !AppendCalled(LegacyOptionCalls<C>(o)) && ListenersAdded(LegacyOptionCalls<C>(o)) == []
  {
    CollectNothing(LegacyOptionCalls<C>(o), AppendCallPart);
    CollectNothing(LegacyOptionCalls<C>(o), ListenerPart);
  }

  /** loadOptions sets the id only when it is a non-empty string, calls
      `class` whenever a class array is given (an empty one included, which
      creates the class list), adds exactly the given attributes in key
      order, and never touches the children or the listeners. */
  lemma LegacyLoadOptionsEffect<C>(c: Config<C, Listener>, o: ElementOptions)
    ensures Run(c, LegacyOptionCalls<C>(o)) == Config(
        if o.id.Some? && o.id.value != "" then o.id else c.id,
        Grown(c.classNames, o.classes.Some?, Items(o.classes)),
        c.childs,
        Grown(c.attrs, o.attrs != [], o.attrs),
        c.listeners)
  {
    RunFields(c, LegacyOptionCalls<C>(o));
    LegacyOptionIds<C>(o);
    LegacyOptionClasses<C>(o);
    LegacyOptionAttrs<C>(o);
    OptionKidsListeners<C>(o);
  }

  /** Making the option calls is making each group of them in turn. */
  lemma LegacyRunOptionCalls<C>(c: Config<C, Listener>, o: ElementOptions)
    ensures Run(c, LegacyOptionCalls<C>(o))
         == Run(Run(Run(c, LegacyIdOptionCalls<C>(o.id)), LegacyClassOptionCalls<C>(o.classes)), LegacyAttrCalls<C>(o.attrs))
  {
    var a: seq<Call<C, Listener>> := LegacyIdOptionCalls(o.id);
    var b: seq<Call<C, Listener>> := LegacyClassOptionCalls(o.classes);
    RunConcat(c, a + b, LegacyAttrCalls(o.attrs));
    RunConcat(c, a, b);
  }
}
