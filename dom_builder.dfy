/** The current revision of the DOM builder: src/dom-builder.ts, and
    dom-builder.js, which is its compiled form and behaves the same.

    Handles are objects whose builder methods change their fields in place
    and return the handle itself. Children are kept by reference, so a child
    configured after it was appended is materialised in its final state; the
    ghost footprint Repr and Valid() keep the child graph acyclic, which is
    what lets get() terminate. */
module DomBuilder {
  import opened DomTree
  import opened BuilderCalls
  import opened ArgDispatch
  import opened DomOptions

  /** A reference to a child handle of one of the three kinds. */
  datatype Child = TextChild(t: DomText) | FragmentChild(f: DomFragment) | ElementChild(e: DomElement)
  {
    function Handle(): object
    {
      match this
      case TextChild(t) => t
      case FragmentChild(f) => f
      case ElementChild(e) => e
    }
  }

  type State = Config<Child, Listener>

  // ---------------------------------------------------------------------
  // Footprints and validity of the child graph

  /** The objects a child handle is made of: itself and, for a fragment or
      an element, everything reachable through its children. */
  ghost function Footprint(c: Child): set<object>
    reads c.Handle()
  {
    match c
    case TextChild(t) => {t}
    case FragmentChild(f) => f.Repr
    case ElementChild(e) => e.Repr
  }

  ghost predicate ChildValid(c: Child)
    reads c.Handle(), Footprint(c)
    decreases Footprint(c), 3, 0
  {
    c.Handle() in Footprint(c) &&
    match c
    case TextChild(_) => true
    case FragmentChild(f) => f.Valid()
    case ElementChild(e) => e.Valid()
  }

  /** The children of `owner` are valid handles inside `repr` that do not
      reach back to `owner`. */
  ghost predicate KidsValid(kids: seq<Child>, repr: set<object>, owner: object)
    reads repr
    decreases repr, 1, 0
  {
    owner in repr &&
    forall i :: 0 <= i < |kids| ==>
      kids[i].Handle() in repr && Footprint(kids[i]) <= repr &&
      owner !in Footprint(kids[i]) && ChildValid(kids[i])
  }

  /** A child can be appended to `owner` without creating a cycle. */
  ghost predicate CanAttach(c: Child, owner: object)
    reads c.Handle(), Footprint(c)
  {
    ChildValid(c) && owner !in Footprint(c)
  }

  /** Every handle among the arguments of append can be appended to `owner`. */
  ghost predicate Attachable(items: seq<Item<Child>>, owner: object)
    reads set i | 0 <= i < |items| && items[i].ChildItem? :: items[i].child.Handle()
    reads set i, o | 0 <= i < |items| && items[i].ChildItem? && o in Footprint(items[i].child) :: o
  {
    forall i :: 0 <= i < |items| && items[i].ChildItem? ==> CanAttach(items[i].child, owner)
  }

  /** Every handle among the arguments of append is valid. */
  ghost predicate ItemsValid(items: seq<Item<Child>>)
    reads set i | 0 <= i < |items| && items[i].ChildItem? :: items[i].child.Handle()
    reads set i, o | 0 <= i < |items| && items[i].ChildItem? && o in Footprint(items[i].child) :: o
  {
    forall i :: 0 <= i < |items| && items[i].ChildItem? ==> ChildValid(items[i].child)
  }

  /** Everything the handles among the arguments of append are made of. */
  ghost function ItemsFootprint(items: seq<Item<Child>>): set<object>
    reads set i | 0 <= i < |items| && items[i].ChildItem? :: items[i].child.Handle()
  {
    set i, o | 0 <= i < |items| && items[i].ChildItem? && o in Footprint(items[i].child) :: o
  }

  /** Everything the children are made of, as their footprints are now. */
  ghost function KidsFootprint(kids: seq<Child>): set<object>
    reads set i | 0 <= i < |kids| :: kids[i].Handle()
  {
    set i, o | 0 <= i < |kids| && o in Footprint(kids[i]) :: o
  }

  /** `kids` is what append stores for `items`: each handle pairs it is, each
      string pairs a text handle holding that string, in argument order. */
  ghost predicate Coerced(items: seq<Item<Child>>, kids: seq<Child>)
  {
    |items| == |kids| &&
    forall i :: 0 <= i < |items| ==>
      match items[i]
      case ChildItem(c) => kids[i] == c
      case StringItem(s) => kids[i].TextChild? && kids[i].t.text == s
  }

  lemma CoercedSnoc(items: seq<Item<Child>>, i: nat, kids: seq<Child>, kid: Child)
    requires i < |items| && Coerced(items[..i], kids)
    requires match items[i]
             case ChildItem(c) => kid == c
             case StringItem(s) => kid.TextChild? && kid.t.text == s
    ensures Coerced(items[..i + 1], kids + [kid])
  {
    assert items[..i + 1] == items[..i] + [items[i]];
  }

  /** `after` is `before` with the children for `items` pushed onto the
      child list, which is created if it did not exist. */
  ghost predicate Appended(before: State, after: State, items: seq<Item<Child>>)
  {
    var n := |Items(before.childs)|;
    after.childs.Some? && |Items(after.childs)| == n + |items| &&
    after == Step(before, AppendCall(Items(after.childs)[n..])) &&
    Coerced(items, Items(after.childs)[n..])
  }

  // ---------------------------------------------------------------------
  // Materialisation

  /** The node get() returns for a valid child handle. */
  ghost function ChildTree(c: Child): Node<Listener>
    requires ChildValid(c)
    reads c.Handle(), Footprint(c)
    decreases Footprint(c), 3, 0
  {
    match c
    case TextChild(t) => TextNode(t.text)
    case FragmentChild(f) => f.Materialised()
    case ElementChild(e) => e.Materialised()
  }

  /** The nodes get() returns for the children, in order. */
  ghost function KidTrees(kids: seq<Child>, repr: set<object>, owner: object): (r: seq<Node<Listener>>)
    requires KidsValid(kids, repr, owner)
    reads repr
    ensures |r| == |kids|
    decreases repr, 1, |kids|
  {
    if kids == [] then []
    else
      KidTrees(kids[..|kids| - 1], repr, owner) + [ChildTree(kids[|kids| - 1])]
  }

  lemma KidTreesSnoc(kids: seq<Child>, i: nat, repr: set<object>, owner: object)
    requires KidsValid(kids, repr, owner) && i < |kids|
    ensures KidsValid(kids[..i], repr, owner) && KidsValid(kids[..i + 1], repr, owner)
    ensures KidTrees(kids[..i + 1], repr, owner) == KidTrees(kids[..i], repr, owner) + [ChildTree(kids[i])]
  {
    assert kids[..i + 1][..i] == kids[..i];
  }

  /** `text(value)`: a new text handle. */
  class DomText {
    const text: string

    constructor (text: string)
      ensures this.text == text
    {
      this.text := text;
    }

    /** `document.createTextNode(text)`. */
    method Get() returns (n: Node<Listener>)
      ensures n == TextNode(text)
    {
      n := TextNode(text);
    }
  }

  method GetChild(c: Child) returns (n: Node<Listener>)
    requires ChildValid(c)
    ensures n == ChildTree(c)
    decreases Footprint(c), 2, 0
  {
    match c
    case TextChild(t) => n := t.Get();
    case FragmentChild(f) =>
      var calls;
      n, calls := f.Get();
    case ElementChild(e) =>
      var calls;
      n, calls := e.Get();
  }

  /** A fragment handle: an ordered list of children, created empty. */
  class DomFragment {
    var childs: seq<Child>
    ghost var Repr: set<object>

    ghost predicate Valid()
      reads this, Repr
      ensures Valid() ==> this in Repr
      decreases Repr, 2, 0
    {
      this in Repr && KidsValid(childs, Repr, this)
    }

    constructor ()
      ensures Valid() && fresh(Repr) && childs == []
    {
      childs := [];
      Repr := {this};
    }

    /** The calls get() issues on the new document fragment: one append per child. */
    ghost function Calls(): seq<DomCall<Listener>>
      requires Valid()
      reads this, Repr
      decreases Repr, 2, 0
    {
      AppendAll(KidTrees(childs, Repr, this))
    }

    ghost function Materialised(): Node<Listener>
      requires Valid()
      reads this, Repr
      decreases Repr, 2, 1
    {
      Replay(FragmentNode([]), Calls())
    }

    /** `append(...nodes)`: strings become text handles; everything is
        pushed after the existing children, in argument order. */
    method Append(items: seq<Item<Child>>) returns (self: DomFragment)
      requires Valid() && Attachable(items, this)
      modifies this
      ensures self == this && Valid()
      ensures |childs| == |old(childs)| + |items| && childs[..|old(childs)|] == old(childs)
      ensures Coerced(items, childs[|old(childs)|..])
      ensures forall i :: 0 <= i < |items| && items[i].StringItem? ==> fresh(childs[|old(childs)| + i].t)
      ensures old(Repr) <= Repr && fresh(Repr - old(Repr) - old(ItemsFootprint(items)))
    {
      var n := |childs|;
      ghost var kids: seq<Child> := [];
      assert old(childs) + kids == old(childs);
      var i := 0;
      while i < |items|
        invariant 0 <= i <= |items| && |kids| == i
        invariant Valid()
        invariant childs == old(childs) + kids
        invariant Coerced(items[..i], kids)
        invariant forall k :: 0 <= k < i && items[k].StringItem? ==> fresh(kids[k].t)
        invariant old(Repr) <= Repr && fresh(Repr - old(Repr) - old(ItemsFootprint(items)))
      {
        var kid: Child;
        match items[i] {
          case ChildItem(c) =>
            kid := c;
            assert old(CanAttach(c, this));
            assert Footprint(kid) <= old(ItemsFootprint(items));
          case StringItem(s) =>
            var t := Text(s);
            kid := TextChild(t);
        }
        CoercedSnoc(items, i, kids, kid);
        ghost var repr := Repr + Footprint(kid);
        Extend(childs, Repr, this, kid);
        childs := childs + [kid];
        Repr := repr;
        assert old(childs) + kids + [kid] == old(childs) + (kids + [kid]);
        kids := kids + [kid];
        i := i + 1;
      }
      assert items[..i] == items;
      assert childs[..n] == old(childs) && childs[n..] == kids;
      self := this;
    }

    /** `get()`: a new document fragment with each child's get() appended
        in order. `calls` lists the DOM calls issued on the new fragment. */
    method Get() returns (n: Node<Listener>, calls: seq<DomCall<Listener>>)
      requires Valid()
      ensures calls == Calls() && n == Replay(FragmentNode([]), calls)
      ensures n == Materialised()
      decreases Repr, 1, 0
    {
      n, calls := AppendKids(FragmentNode([]), childs, FragmentChild(this));
    }

    /** Recomputes the footprint from the children's current footprints.
        A child appended earlier may have gained children of its own since;
        as long as none of them reaches back to this fragment, the tree is
        still acyclic and get() still materialises it. */
    ghost method Reframe()
      requires forall i :: 0 <= i < |childs| ==> CanAttach(childs[i], this)
      modifies this
      ensures Valid() && childs == old(childs)
      ensures Repr == {this} + KidsFootprint(childs)
    {
      Repr := {this} + KidsFootprint(childs);
    }
  }

  /** The kind of element handle: DomElement itself, or its subclasses
      DomAnchor (tag 'a', adds href) and DomImage (tag 'img', adds src and alt). */
  datatype Kind = Plain | Anchor | Image

  /** An element handle. The id is undefined until set; the class names,
      children, attributes and listeners are arrays created on first use. */
  class DomElement {
    const tag: string
    const kind: Kind
    var id: Option<string>
    var classNames: Option<seq<string>>
    var childs: Option<seq<Child>>
    var attrs: Option<seq<Attribute>>
    var listeners: Option<seq<Listener>>
    ghost var Repr: set<object>

    ghost predicate Valid()
      reads this, Repr
      ensures Valid() ==> this in Repr
      decreases Repr, 2, 0
    {
      this in Repr && KidsValid(Items(childs), Repr, this)
    }

    /** A snapshot of the configuration fields. */
    function State(): State
      reads this
    {
      Config(id, classNames, childs, attrs, listeners)
    }

    /** `new DomElement(tagName)`. */
    constructor (tagName: string)
      ensures Valid() && fresh(Repr)
      ensures tag == tagName && kind == Plain && State() == Unset()
    {
      tag, kind := tagName, Plain;
      id, classNames, childs, attrs, listeners := None, None, None, None, None;
      Repr := {this};
    }

    /** `new DomAnchor()`: an element handle with tag 'a'. */
    constructor Anchor()
      ensures Valid() && fresh(Repr)
      ensures tag == "a" && kind == Kind.Anchor && State() == Unset()
    {
      tag, kind := "a", Kind.Anchor;
      id, classNames, childs, attrs, listeners := None, None, None, None, None;
      Repr := {this};
    }

    /** `new DomImage()`: an element handle with tag 'img'. */
    constructor Image()
      ensures Valid() && fresh(Repr)
      ensures tag == "img" && kind == Kind.Image && State() == Unset()
    {
      tag, kind := "img", Kind.Image;
      id, classNames, childs, attrs, listeners := None, None, None, None, None;
      Repr := {this};
    }

    /** The calls get() issues on the new element. */
    ghost function Calls(): seq<DomCall<Listener>>
      requires Valid()
      reads this, Repr
      decreases Repr, 2, 0
    {
      Script(id, classNames, KidTrees(Items(childs), Repr, this), Items(attrs), Items(listeners))
    }

    ghost function Materialised(): Node<Listener>
      requires Valid()
      reads this, Repr
      decreases Repr, 2, 1
    {
      Replay(Blank(tag), Calls())
    }

    /** `id(x)`. */
    method Id(x: string) returns (self: DomElement)
      requires Valid()
      modifies this
      ensures self == this && Valid() && Repr == old(Repr)
      ensures State() == Step(old(State()), IdCall(x))
    {
      id := Some(x);
      self := this;
    }

    /** `class(...classNames)`. */
    method Class(names: seq<string>) returns (self: DomElement)
      requires Valid()
      modifies this
      ensures self == this && Valid() && Repr == old(Repr)
      ensures State() == Step(old(State()), ClassCall(names))
    {
      classNames := Some(Items(classNames) + names);
      self := this;
    }

    /** `attr(name, value)`. */
    method Attr(name: string, value: string) returns (self: DomElement)
      requires Valid()
      modifies this
      ensures self == this && Valid() && Repr == old(Repr)
      ensures State() == Step(old(State()), AttrCall(Attribute(name, value)))
    {
      attrs := Some(Items(attrs) + [Attribute(name, value)]);
      self := this;
    }

    /** `addListener(event, cb, options)`. */
    method AddListener(event: string, cb: Callback, options: EventOptions) returns (self: DomElement)
      requires Valid()
      modifies this
      ensures self == this && Valid() && Repr == old(Repr)
      ensures State() == Step(old(State()), ListenerCall(Listener(event, cb, options)))
    {
      listeners := Some(Items(listeners) + [Listener(event, cb, options)]);
      self := this;
    }

    /** `on(type, cb)`: a listener whose options say once: false. */
    method On(event: string, cb: Callback) returns (self: DomElement)
      requires Valid()
      modifies this
      ensures self == this && Valid() && Repr == old(Repr)
      ensures State() == Step(old(State()), ListenerCall(Listener(event, cb, EventOptions(false))))
    {
      self := AddListener(event, cb, EventOptions(false));
    }

    /** `once(type, cb)`: a listener whose options say once: true. */
    method Once(event: string, cb: Callback) returns (self: DomElement)
      requires Valid()
      modifies this
      ensures self == this && Valid() && Repr == old(Repr)
      ensures State() == Step(old(State()), ListenerCall(Listener(event, cb, EventOptions(true))))
    {
      self := AddListener(event, cb, EventOptions(true));
    }

    /** `DomAnchor.href(value)`: `attr('href', value)`. */
    method Href(value: string) returns (self: DomElement)
      requires Valid() && kind == Kind.Anchor
      modifies this
      ensures self == this && Valid() && Repr == old(Repr)
      ensures State() == Step(old(State()), AttrCall(Attribute("href", value)))
    {
      self := Attr("href", value);
    }

    /** `DomImage.src(value)`: `attr('src', value)`. */
    method Src(value: string) returns (self: DomElement)
      requires Valid() && kind == Kind.Image
      modifies this
      ensures self == this && Valid() && Repr == old(Repr)
      ensures State() == Step(old(State()), AttrCall(Attribute("src", value)))
    {
      self := Attr("src", value);
    }

    /** `DomImage.alt(value)`: `attr('alt', value)`. */
    method Alt(value: string) returns (self: DomElement)
      requires Valid() && kind == Kind.Image
      modifies this
      ensures self == this && Valid() && Repr == old(Repr)
      ensures State() == Step(old(State()), AttrCall(Attribute("alt", value)))
    {
      self := Attr("alt", value);
    }

    /** `loadOptions(options)`: the id if truthy, the classes if truthy,
        then one `attr` per attribute, one `on` per `on` callback and one
        `once` per `once` callback, in that order. */
    method LoadOptions(options: ElementOptions) returns (self: DomElement)
      requires Valid()
      modifies this
      ensures self == this && Valid() && Repr == old(Repr)
      ensures State() == Run(old(State()), OptionCalls(options))
    {
      self := this;
      ghost var s0 := State();
      if options.id.Some? && options.id.value != "" {
        self := Id(options.id.value);
        RunSnoc(s0, [], IdCall(options.id.value));
      }
      assert State() == Run(s0, IdOptionCalls(options.id));
      ghost var s1 := State();
      match options.classes {
        case NoClass =>
        case ClassString(name) =>
          if name != "" {
            self := Class([name]);
            RunSnoc(s1, [], ClassCall([name]));
          }
        case ClassArray(names) =>
          self := Class(names);
          RunSnoc(s1, [], ClassCall(names));
      }
      assert State() == Run(s1, ClassOptionCalls(options.classes));
      SetAttrs(options.attrs);
      Bind(options.on, false);
      Bind(options.once, true);
      RunOptionCalls(s0, options);
    }

    /** The loop of loadOptions over `attrs`. */
    method SetAttrs(pairs: seq<Attribute>)
      requires Valid()
      modifies this
      ensures Valid() && Repr == old(Repr)
      ensures State() == Run(old(State()), AttrCalls(pairs))
    {
      var i := 0;
      while i < |pairs|
        invariant 0 <= i <= |pairs|
        invariant Valid() && Repr == old(Repr)
        invariant State() == Run(old(State()), AttrCalls(pairs[..i]))
      {
        var r := Attr(pairs[i].name, pairs[i].value);
        AttrCallsSnoc<Child>(pairs, i);
        RunSnoc(old(State()), AttrCalls(pairs[..i]), AttrCall(pairs[i]));
        i := i + 1;
      }
      assert pairs[..i] == pairs;
    }

    /** The loop of loadOptions over `on` (once false) or `once` (once true). */
    method Bind(bindings: seq<EventBinding>, once: bool)
      requires Valid()
      modifies this
      ensures Valid() && Repr == old(Repr)
      ensures State() == Run(old(State()), BindingCalls(bindings, once))
    {
      var i := 0;
      while i < |bindings|
        invariant 0 <= i <= |bindings|
        invariant Valid() && Repr == old(Repr)
        invariant State() == Run(old(State()), BindingCalls(bindings[..i], once))
      {
        var EventBinding(event, val) := bindings[i];
        BindOne(event, val, once);
        BindingCallsSnoc<Child>(bindings, i, once);
        RunConcat(old(State()), BindingCalls(bindings[..i], once), ListenCalls(event, Callbacks(val), once));
        i := i + 1;
      }
      assert bindings[..i] == bindings;
    }

    /** One entry of `on` or `once`: an array of callbacks, or a single one. */
    method BindOne(event: string, val: Binding, once: bool)
      requires Valid()
      modifies this
      ensures Valid() && Repr == old(Repr)
      ensures State() == Run(old(State()), ListenCalls(event, Callbacks(val), once))
    {
      match val {
        case Many(cbs) =>
          BindEach(event, cbs, once);
        case Single(cb) =>
          Listen(event, cb, once);
          RunSnoc(old(State()), [], ListenerCall(Listener(event, cb, EventOptions(once))));
          assert ListenCalls<Child>(event, [cb], once) == [ListenerCall(Listener(event, cb, EventOptions(once)))];
      }
    }

    /** An array-valued binding: one `on` (or `once`) per callback, in order. */
    method BindEach(event: string, cbs: seq<Callback>, once: bool)
      requires Valid()
      modifies this
      ensures Valid() && Repr == old(Repr)
      ensures State() == Run(old(State()), ListenCalls(event, cbs, once))
    {
      var k := 0;
      while k < |cbs|
        invariant 0 <= k <= |cbs|
        invariant Valid() && Repr == old(Repr)
        invariant State() == Run(old(State()), ListenCalls(event, cbs[..k], once))
      {
        Listen(event, cbs[k], once);
        ListenCallsSnoc<Child>(event, cbs, k, once);
        RunSnoc(old(State()), ListenCalls(event, cbs[..k], once),
                ListenerCall(Listener(event, cbs[k], EventOptions(once))));
        k := k + 1;
      }
      assert cbs[..k] == cbs;
    }

    /** `this.on(type, cb)` in the `on` loop, `this.once(type, cb)` in the `once` loop. */
    method Listen(event: string, cb: Callback, once: bool)
      requires Valid()
      modifies this
      ensures Valid() && Repr == old(Repr)
      ensures State() == Step(old(State()), ListenerCall(Listener(event, cb, EventOptions(once))))
    {
      var r;
      if once {
        r := Once(event, cb);
      } else {
        r := On(event, cb);
      }
    }

    /** `append(...nodes)`: creates the child list if needed, then pushes
        each argument, strings pairs text handles, in argument order. */
    method Append(items: seq<Item<Child>>) returns (self: DomElement)
      requires Valid() && Attachable(items, this)
      modifies this
      ensures self == this && Valid()
      ensures Appended(old(State()), State(), items)
      ensures forall i :: 0 <= i < |items| && items[i].StringItem? ==> fresh(Items(childs)[|Items(old(childs))| + i].t)
      ensures old(Repr) <= Repr && fresh(Repr - old(Repr) - old(ItemsFootprint(items)))
    {
      var n := |Items(childs)|;
      childs := Some(Items(childs));
      ghost var kids: seq<Child> := [];
      assert Items(old(childs)) + kids == Items(old(childs));
      var i := 0;
      while i < |items|
        invariant 0 <= i <= |items| && |kids| == i
        invariant Valid()
        invariant State() == old(State()).(childs := Some(Items(old(childs)) + kids))
        invariant Coerced(items[..i], kids)
        invariant forall k :: 0 <= k < i && items[k].StringItem? ==> fresh(kids[k].t)
        invariant old(Repr) <= Repr && fresh(Repr - old(Repr) - old(ItemsFootprint(items)))
      {
        var kid: Child;
        match items[i] {
          case ChildItem(c) =>
            kid := c;
            assert old(CanAttach(c, this));
            assert Footprint(kid) <= old(ItemsFootprint(items));
          case StringItem(s) =>
            var t := Text(s);
            kid := TextChild(t);
        }
        CoercedSnoc(items, i, kids, kid);
        PushChild(kid);
        assert Items(old(childs)) + kids + [kid] == Items(old(childs)) + (kids + [kid]);
        kids := kids + [kid];
        i := i + 1;
      }
      assert items[..i] == items;
      assert (Items(old(childs)) + kids)[n..] == kids;
      self := this;
    }

    /** `this._childs.push(kid)` on an existing child list. */
    method PushChild(kid: Child)
      requires Valid() && childs.Some? && CanAttach(kid, this)
      modifies this
      ensures Valid() && Repr == old(Repr) + Footprint(kid)
      ensures State() == old(State()).(childs := Some(old(childs.value) + [kid]))
    {
      Extend(childs.value, Repr, this, kid);
      childs := Some(childs.value + [kid]);
      Repr := Repr + Footprint(kid);
    }

    /** Recomputes the footprint from the children's current footprints.
        A child appended earlier may have gained children of its own since;
        as long as none of them reaches back to this element, the tree is
        still acyclic and get() still materialises it. */
    ghost method Reframe()
      requires forall i :: 0 <= i < |Items(childs)| ==> CanAttach(Items(childs)[i], this)
      modifies this
      ensures Valid() && State() == old(State())
      ensures Repr == {this} + KidsFootprint(Items(childs))
    {
      Repr := {this} + KidsFootprint(Items(childs));
    }

    /** `get()`: creates the element and issues, in this order, the id (when
        defined), the classes (when the list exists), one append per child,
        one setAttribute per attribute and one addEventListener per listener.
        `calls` lists the calls issued on the new element, in the order
        issued. The handle itself is not changed. */
    method Get() returns (n: Node<Listener>, calls: seq<DomCall<Listener>>)
      requires Valid()
      ensures calls == Calls() && n == Replay(Blank(tag), calls)
      ensures n == Materialised()
      ensures forall i, j :: 0 <= i < j < |calls| ==> Phase(calls[i]) <= Phase(calls[j])
      decreases Repr, 1, 0
    {
      ghost var kids := KidTrees(Items(childs), Repr, this);
      ghost var regs := Items(listeners);
      var n0, head := StartElement(tag, id, classNames);
      var n1, appends := AppendKids(n0, Items(childs), ElementChild(this));
      var n2, sets := SetAttributes(n1, Items(attrs));
      var listens: seq<DomCall<Listener>> := [];
      n := n2;
      if listeners.Some? {
        n, listens := AddListeners(n2, listeners.value);
      } else {
        assert ListenAll(regs) == [];
      }
      calls := head + appends + sets + listens;
      assert calls == Script(id, classNames, kids, Items(attrs), regs);
      ReplayScriptParts(Blank(tag), id, classNames, kids, Items(attrs), regs);
      ScriptPhases(id, classNames, kids, Items(attrs), regs);
    }
  }

  /** The start of an element's get(): `document.createElement(tag)`,
      then the id when it is defined and the classes when the list exists. */
  method StartElement(tag: string, id: Option<string>, classNames: Option<seq<string>>)
    returns (n: Node<Listener>, calls: seq<DomCall<Listener>>)
    ensures calls == Head(id, classNames) && n == Replay(Blank(tag), calls)
    ensures n == ElementNode(tag, id, Items(classNames), [], [], [])
  {
    n, calls := Blank(tag), [];
    if id.Some? {
      n, calls := Apply(n, SetId(id.value)), calls + [SetId(id.value)];
    }
    if classNames.Some? {
      n, calls := Apply(n, AddClasses(classNames.value)), calls + [AddClasses(classNames.value)];
    }
    ReplayHead<Listener>(tag, id, classNames);
  }

  /** The loop of get() over the children: one appendChild per child, in
      order, with that child's get(). */
  method AppendKids(n: Node<Listener>, kids: seq<Child>, owner: Child) returns (m: Node<Listener>, calls: seq<DomCall<Listener>>)
    requires KidsValid(kids, Footprint(owner), owner.Handle())
    ensures calls == AppendAll(KidTrees(kids, Footprint(owner), owner.Handle())) && m == Replay(n, calls)
    decreases Footprint(owner), 0, 0
  {
    ghost var repr := Footprint(owner);
    ghost var handle := owner.Handle();
    m := n;
    calls := [];
    var i := 0;
    while i < |kids|
      invariant 0 <= i <= |kids|
      invariant KidsValid(kids[..i], repr, handle)
      invariant calls == AppendAll(KidTrees(kids[..i], repr, handle))
      invariant m == Replay(n, calls)
    {
      var kn := GetChild(kids[i]);
      ghost var trees := KidTrees(kids[..i], repr, handle);
      KidTreesSnoc(kids, i, repr, handle);
      AppendAllSnoc(trees, kn);
      ReplaySnoc(n, calls, AppendChild(kn));
      m, calls := Apply(m, AppendChild(kn)), calls + [AppendChild(kn)];
      i := i + 1;
    }
    assert kids[..i] == kids;
  }

  /** The loop of get() over the attributes: one setAttribute each, in order. */
  method SetAttributes(n: Node<Listener>, pairs: seq<Attribute>) returns (m: Node<Listener>, calls: seq<DomCall<Listener>>)
    ensures calls == SetAll(pairs) && m == Replay(n, calls)
  {
    m, calls := n, [];
    var j := 0;
    while j < |pairs|
      invariant 0 <= j <= |pairs|
      invariant calls == SetAll(pairs[..j]) && m == Replay(n, calls)
    {
      assert pairs[..j + 1] == pairs[..j] + [pairs[j]];
      SetAllSnoc<Listener>(pairs[..j], pairs[j]);
      ReplaySnoc(n, calls, SetAttribute(pairs[j]));
      m, calls := Apply(m, SetAttribute(pairs[j])), calls + [SetAttribute(pairs[j])];
      j := j + 1;
    }
    assert pairs[..j] == pairs;
  }

  /** The loop of get() over the listeners: one addEventListener each, in order. */
  method AddListeners(n: Node<Listener>, ls: seq<Listener>) returns (m: Node<Listener>, calls: seq<DomCall<Listener>>)
    ensures calls == ListenAll(ls) && m == Replay(n, calls)
  {
    m, calls := n, [];
    var k := 0;
    while k < |ls|
      invariant 0 <= k <= |ls|
      invariant calls == ListenAll(ls[..k]) && m == Replay(n, calls)
    {
      assert ls[..k + 1] == ls[..k] + [ls[k]];
      ListenAllSnoc(ls[..k], ls[k]);
      ReplaySnoc(n, calls, AddEventListener(ls[k]));
      m, calls := Apply(m, AddEventListener(ls[k])), calls + [AddEventListener(ls[k])];
      k := k + 1;
    }
    assert ls[..k] == ls;
  }

  /** get() of an element carries exactly the handle's configuration: its
      tag, the id if one was set, the classes if the list exists, each
      child's own get() in order, then the attributes and the listeners in
      the order they were added. */
  lemma ElementMaterialised(e: DomElement)
    requires e.Valid()
    ensures e.Materialised()
         == ElementNode(e.tag, e.id, Items(e.classNames), KidTrees(Items(e.childs), e.Repr, e),
                        Items(e.attrs), Items(e.listeners))
  {
    ReplayScript(e.tag, e.id, e.classNames, KidTrees(Items(e.childs), e.Repr, e), Items(e.attrs), Items(e.listeners));
  }

  /** get() of a fragment holds each child's own get(), in append order. */
  lemma FragmentMaterialised(f: DomFragment)
    requires f.Valid()
    ensures f.Materialised() == FragmentNode(KidTrees(f.childs, f.Repr, f))
  {
    ReplayFragment(KidTrees(f.childs, f.Repr, f));
  }

  /** Pushing an attachable child keeps the child list valid over the
      footprint grown by the child's. */
  lemma Extend(kids: seq<Child>, repr: set<object>, owner: object, kid: Child)
    requires KidsValid(kids, repr, owner) && CanAttach(kid, owner)
    ensures KidsValid(kids + [kid], repr + Footprint(kid), owner)
  {
  }

  /** `text(value)`. */
  method Text(value: string) returns (dn: DomText)
    ensures fresh(dn) && dn.text == value
  {
    dn := new DomText(value);
  }

  /** What `make(de, arg1, arg2)` passes to append: nothing when append is not called. */
  function ToAppend(arg1: Arg<ElementOptions, Child>, arg2: ChildArg<Child>): seq<Item<Child>>
  {
    var a := AppendArgs(Dispatch(arg1, arg2).childs);
    if a.Some? then a.value else []
  }

  /** The fields after `make(de, arg1, arg2)`: the options, if any, are
      loaded first; then the children, if any, are appended. */
  ghost predicate Made(before: State, after: State, arg1: Arg<ElementOptions, Child>, arg2: ChildArg<Child>)
  {
    var d := Dispatch(arg1, arg2);
    var loaded := if d.options.Some? then Run(before, OptionCalls(d.options.value)) else before;
    match AppendArgs(d.childs)
    case None => after == loaded
    case Some(items) => Appended(loaded, after, items)
  }

  /** `make(de, arg1, arg2)`. */
  method Make(de: DomElement, arg1: Arg<ElementOptions, Child>, arg2: ChildArg<Child>) returns (r: DomElement)
    requires de.Valid() && Attachable(ToAppend(arg1, arg2), de)
    modifies de
    ensures r == de && de.Valid()
    ensures Made(old(de.State()), de.State(), arg1, arg2)
    ensures old(de.Repr) <= de.Repr
    ensures fresh(de.Repr - old(de.Repr) - old(ItemsFootprint(ToAppend(arg1, arg2))))
  {
    var d := Dispatch(arg1, arg2);
    LoadGiven(de, d.options, ToAppend(arg1, arg2));
    AppendGiven(de, AppendArgs(d.childs));
    r := de;
  }

  /** `if (options) de.loadOptions(options)`. */
  method LoadGiven(de: DomElement, options: Option<ElementOptions>, items: seq<Item<Child>>)
    requires de.Valid() && Attachable(items, de)
    modifies de
    ensures de.Valid() && de.Repr == old(de.Repr) && Attachable(items, de)
    ensures de.State() == if options.Some? then Run(old(de.State()), OptionCalls(options.value)) else old(de.State())
  {
    if options.Some? {
      var r := de.LoadOptions(options.value);
    }
  }

  /** `if (childs) de.append(childs)` or `de.append(...childs)`. */
  method AppendGiven(de: DomElement, items: Option<seq<Item<Child>>>)
    requires de.Valid() && Attachable(Items(items), de)
    modifies de
    ensures de.Valid() && old(de.Repr) <= de.Repr
    ensures fresh(de.Repr - old(de.Repr) - old(ItemsFootprint(Items(items))))
    ensures match items
            case None => de.State() == old(de.State())
            case Some(xs) => Appended(old(de.State()), de.State(), xs)
  {
    if items.Some? {
      var r := de.Append(items.value);
    }
  }

  /** `el(tagName, arg1, arg2)`: a new element handle configured by make. */
  method El(tagName: string, arg1: Arg<ElementOptions, Child>, arg2: ChildArg<Child>) returns (de: DomElement)
    requires ItemsValid(ToAppend(arg1, arg2))
    ensures fresh(de) && de.Valid() && de.tag == tagName && de.kind == Plain
    ensures Made(Unset(), de.State(), arg1, arg2)
    ensures fresh(de.Repr - old(ItemsFootprint(ToAppend(arg1, arg2))))
  {
    var e := new DomElement(tagName);
    de := Make(e, arg1, arg2);
  }

  /** `el2(tagName, arg1, arg2)`: the subclass is chosen by the tag, 'a'
      for DomAnchor and 'img' for DomImage. */
  method El2(tagName: string, arg1: Arg<ElementOptions, Child>, arg2: ChildArg<Child>) returns (de: DomElement)
    requires tagName == "a" || tagName == "img"
    requires ItemsValid(ToAppend(arg1, arg2))
    ensures fresh(de) && de.Valid() && de.tag == tagName
    ensures de.kind == if tagName == "a" then Kind.Anchor else Kind.Image
    ensures Made(Unset(), de.State(), arg1, arg2)
    ensures fresh(de.Repr - old(ItemsFootprint(ToAppend(arg1, arg2))))
  {
    var e := NewTagged(tagName);
    de := Make(e, arg1, arg2);
  }

  /** `new DomElementTagNameMap[tagName]()`: 'a' maps to DomAnchor, 'img' to DomImage. */
  method NewTagged(tagName: string) returns (e: DomElement)
    requires tagName == "a" || tagName == "img"
    ensures fresh(e) && e.Valid() && fresh(e.Repr) && e.State() == Unset()
    ensures e.tag == tagName && e.kind == if tagName == "a" then Kind.Anchor else Kind.Image
  {
    if tagName == "a" {
      e := new DomElement.Anchor();
    } else {
      e := new DomElement.Image();
    }
  }

  /** `fragment(childs)`: a new fragment, with the children appended when given. */
  method Fragment(childs: Option<seq<Item<Child>>>) returns (df: DomFragment)
    requires childs.Some? ==> ItemsValid(childs.value)
    ensures fresh(df) && df.Valid()
    ensures Coerced(Items(childs), df.childs)
    ensures fresh(df.Repr - old(ItemsFootprint(Items(childs))))
  {
    df := new DomFragment();
    if childs.Some? {
      var r := df.Append(childs.value);
    }
  }

  /** Appending one handle to an unset element leaves that handle as its only child. */
  lemma AppendedToUnset(after: State, c: Child)
    requires Appended(Unset(), after, [ChildItem(c)])
    ensures after == Config(None, None, Some([c]), None, None)
  {
    var kids := Items(after.childs);
    assert kids[0..] == kids;
    assert kids == [c];
  }

  /** get() of an element whose only configuration is one child. */
  lemma OneKidMaterialised(e: DomElement, c: Child)
    requires e.Valid() && e.State() == Config(None, None, Some([c]), None, None)
    ensures ChildValid(c)
    ensures e.Materialised() == ElementNode(e.tag, None, [], [ChildTree(c)], [], [])
  {
    ElementMaterialised(e);
    assert [c][..0] == [];
    KidTreesSnoc([c], 0, e.Repr, e);
  }

  /** `parent.append(child)` on an unset parent: the child becomes its only child. */
  method Attach(parent: DomElement, child: DomElement)
    requires parent.Valid() && parent.State() == Unset() && child.Valid() && parent !in child.Repr
    modifies parent
    ensures parent.Valid() && parent.State() == Config(None, None, Some([ElementChild(child)]), None, None)
    ensures old(parent.Repr) <= parent.Repr && fresh(parent.Repr - old(parent.Repr) - child.Repr)
  {
    var r := parent.Append([ChildItem(ElementChild(child))]);
    AppendedToUnset(parent.State(), ElementChild(child));
  }

  /** A page holding a list holding an item, where the list was appended to
      the page before the item was appended to the list. */
  method BuildNested() returns (page: DomElement, list: DomElement, item: DomElement)
    ensures page.Valid() && list.Valid() && item.Valid()
    ensures page.tag == "div" && list.tag == "ul" && item.tag == "li"
    ensures page.State() == Config(None, None, Some([ElementChild(list)]), None, None)
    ensures list.State() == Config(None, None, Some([ElementChild(item)]), None, None)
    ensures item.State() == Unset()
  {
    page := new DomElement("div");
    list := new DomElement("ul");
    Attach(page, list);
    item := new DomElement("li");
    Attach(list, item);
    page.Reframe();
  }

  /** What get() returns for the page of BuildNested. */
  lemma NestedMaterialised(page: DomElement, list: DomElement, item: DomElement)
    requires page.Valid() && list.Valid() && item.Valid()
    requires page.tag == "div" && list.tag == "ul" && item.tag == "li"
    requires page.State() == Config(None, None, Some([ElementChild(list)]), None, None)
    requires list.State() == Config(None, None, Some([ElementChild(item)]), None, None)
    requires item.State() == Unset()
    ensures page.Materialised()
         == ElementNode("div", None, [], [ElementNode("ul", None, [], [ElementNode("li", None, [], [], [], [])], [], [])], [], [])
  {
    ElementMaterialised(item);
    OneKidMaterialised(list, ElementChild(item));
    OneKidMaterialised(page, ElementChild(list));
  }

  /** A list appended to a page before it has any items of its own: once
      the item is appended to the list and the page is reframed, get()
      materialises the whole three-level tree. */
  method NestedAppend() returns (n: Node<Listener>)
    ensures n == ElementNode("div", None, [], [ElementNode("ul", None, [], [ElementNode("li", None, [], [], [], [])], [], [])], [], [])
  {
    var page, list, item := BuildNested();
    var calls;
    n, calls := page.Get();
    NestedMaterialised(page, list, item);
  }
}
