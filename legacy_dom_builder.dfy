/** The earlier revision of the DOM builder: dom-builder.ts.

    The handles work as in the current revision; the differences are in the
    element handle: the options object carries only an id, a class array
    and attributes; on and once store a record of type, callback and once
    flag, and there is no addListener; and get() registers a `once`
    listener through a wrapper that removes itself before calling the
    callback. */
module LegacyDomBuilder {
  import opened DomTree
  import opened BuilderCalls
  import opened ArgDispatch
  import opened LegacyOptions
  import opened LegacyEvents

  /** A reference to a child handle of one of the three kinds. */
  datatype Child = TextChild(t: DomText) | FragmentChild(f: DomFragment) | ElementChild(e: DomElement)
  {
    function Handle(): object
    {
      match this
      case TextChild(t) => t
      case FragmentChild(f) => f
      case ElementChild(e) => e
    }
  }

  type State = Config<Child, Listener>

  // ---------------------------------------------------------------------
  // Footprints and validity of the child graph

  /** The objects a child handle is made of: itself and, for a fragment or
      an element, everything reachable through its children. */
  ghost function LegacyFootprint(c: Child): set<object>
    reads c.Handle()
  {
    match c
    case TextChild(t) => {t}
    case FragmentChild(f) => f.Repr
    case ElementChild(e) => e.Repr
  }

  ghost predicate LegacyChildValid(c: Child)
    reads c.Handle(), LegacyFootprint(c)
    decreases LegacyFootprint(c), 3, 0
  {
    c.Handle() in LegacyFootprint(c) &&
    match c
    case TextChild(_) => true
    case FragmentChild(f) => f.Valid()
    case ElementChild(e) => e.Valid()
  }

  /** The children of `owner` are valid handles inside `repr` that do not
      reach back to `owner`. */
  ghost predicate LegacyKidsValid(kids: seq<Child>, repr: set<object>, owner: object)
    reads repr
    decreases repr, 1, 0
  {
    owner in repr &&
    forall i :: 0 <= i < |kids| ==>
      kids[i].Handle() in repr && LegacyFootprint(kids[i]) <= repr &&
      owner !in LegacyFootprint(kids[i]) && LegacyChildValid(kids[i])
  }

  /** A child can be appended to `owner` without creating a cycle. */
  ghost predicate LegacyCanAttach(c: Child, owner: object)
    reads c.Handle(), LegacyFootprint(c)
  {
    LegacyChildValid(c) && owner !in LegacyFootprint(c)
  }

  /** Every handle among the arguments of append can be appended to `owner`. */
  ghost predicate LegacyAttachable(items: seq<Item<Child>>, owner: object)
    reads set i | 0 <= i < |items| && items[i].ChildItem? :: items[i].child.Handle()
    reads set i, o | 0 <= i < |items| && items[i].ChildItem? && o in LegacyFootprint(items[i].child) :: o
  {
    forall i :: 0 <= i < |items| && items[i].ChildItem? ==> LegacyCanAttach(items[i].child, owner)
  }

  /** Every handle among the arguments of append is valid. */
  ghost predicate LegacyItemsValid(items: seq<Item<Child>>)
    reads set i | 0 <= i < |items| && items[i].ChildItem? :: items[i].child.Handle()
    reads set i, o | 0 <= i < |items| && items[i].ChildItem? && o in LegacyFootprint(items[i].child) :: o
  {
    forall i :: 0 <= i < |items| && items[i].ChildItem? ==> LegacyChildValid(items[i].child)
  }

  /** Everything the handles among the arguments of append are made of. */
  ghost function LegacyItemsFootprint(items: seq<Item<Child>>): set<object>
    reads set i | 0 <= i < |items| && items[i].ChildItem? :: items[i].child.Handle()
  {
    set i, o | 0 <= i < |items| && items[i].ChildItem? && o in LegacyFootprint(items[i].child) :: o
  }

  /** Everything the children are made of, as their footprints are now. */
  ghost function LegacyKidsFootprint(kids: seq<Child>): set<object>
    reads set i | 0 <= i < |kids| :: kids[i].Handle()
  {
    set i, o | 0 <= i < |kids| && o in LegacyFootprint(kids[i]) :: o
  }

  /** `kids` is what append stores for `items`: each handle pairs it is, each
      string pairs a text handle holding that string, in argument order. */
  ghost predicate LegacyCoerced(items: seq<Item<Child>>, kids: seq<Child>)
  {
    |items| == |kids| &&
    forall i :: 0 <= i < |items| ==>
      match items[i]
      case ChildItem(c) => kids[i] == c
      case StringItem(s) => kids[i].TextChild? && kids[i].t.text == s
  }

  lemma LegacyCoercedSnoc(items: seq<Item<Child>>, i: nat, kids: seq<Child>, kid: Child)
    requires i < |items| && LegacyCoerced(items[..i], kids)
    requires match items[i]
             case ChildItem(c) => kid == c
             case StringItem(s) => kid.TextChild? && kid.t.text == s
    ensures LegacyCoerced(items[..i + 1], kids + [kid])
  {
    assert items[..i + 1] == items[..i] + [items[i]];
  }

  /** `after` is `before` with the children for `items` pushed onto the
      child list, which is created if it did not exist. */
  ghost predicate LegacyAppended(before: State, after: State, items: seq<Item<Child>>)
  {
    var n := |Items(before.childs)|;
    after.childs.Some? && |Items(after.childs)| == n + |items| &&
    after == Step(before, AppendCall(Items(after.childs)[n..])) &&
    LegacyCoerced(items, Items(after.childs)[n..])
  }

  // ---------------------------------------------------------------------
  // Materialisation

  /** The node get() returns for a valid child handle. */
  ghost function LegacyChildTree(c: Child): Node<Registration>
    requires LegacyChildValid(c)
    reads c.Handle(), LegacyFootprint(c)
    decreases LegacyFootprint(c), 3, 0
  {
    match c
    case TextChild(t) => TextNode(t.text)
    case FragmentChild(f) => f.Materialised()
    case ElementChild(e) => e.Materialised()
  }

  /** The nodes get() returns for the children, in order. */
  ghost function LegacyKidTrees(kids: seq<Child>, repr: set<object>, owner: object): (r: seq<Node<Registration>>)
    requires LegacyKidsValid(kids, repr, owner)
    reads repr
    ensures |r| == |kids|
    decreases repr, 1, |kids|
  {
    if kids == [] then []
    else
      LegacyKidTrees(kids[..|kids| - 1], repr, owner) + [LegacyChildTree(kids[|kids| - 1])]
  }

  lemma LegacyKidTreesSnoc(kids: seq<Child>, i: nat, repr: set<object>, owner: object)
    requires LegacyKidsValid(kids, repr, owner) && i < |kids|
    ensures LegacyKidsValid(kids[..i], repr, owner) && LegacyKidsValid(kids[..i + 1], repr, owner)
    ensures LegacyKidTrees(kids[..i + 1], repr, owner) == LegacyKidTrees(kids[..i], repr, owner) + [LegacyChildTree(kids[i])]
  {
    assert kids[..i + 1][..i] == kids[..i];
  }

  /** `text(value)`: a new text handle. */
  class DomText {
    const text: string

    constructor (text: string)
      ensures this.text == text
    {
      this.text := text;
    }

    /** `document.createTextNode(text)`. */
    method Get() returns (n: Node<Registration>)
      ensures n == TextNode(text)
    {
      n := TextNode(text);
    }
  }

  method LegacyGetChild(c: Child) returns (n: Node<Registration>)
    requires LegacyChildValid(c)
    ensures n == LegacyChildTree(c)
    decreases LegacyFootprint(c), 2, 0
  {
    match c
    case TextChild(t) => n := t.Get();
    case FragmentChild(f) =>
      var calls;
      n, calls := f.Get();
    case ElementChild(e) =>
      var calls;
      n, calls := e.Get();
  }

  /** A fragment handle: an ordered list of children, created empty. */
  class DomFragment {
    var childs: seq<Child>
    ghost var Repr: set<object>

    ghost predicate Valid()
      reads this, Repr
      ensures Valid() ==> this in Repr
      decreases Repr, 2, 0
    {
      this in Repr && LegacyKidsValid(childs, Repr, this)
    }

    constructor ()
      ensures Valid() && fresh(Repr) && childs == []
    {
      childs := [];
      Repr := {this};
    }

    /** The calls get() issues on the new document fragment: one append per child. */
    ghost function Calls(): seq<DomCall<Registration>>
      requires Valid()
      reads this, Repr
      decreases Repr, 2, 0
    {
      AppendAll(LegacyKidTrees(childs, Repr, this))
    }

    ghost function Materialised(): Node<Registration>
      requires Valid()
      reads this, Repr
      decreases Repr, 2, 1
    {
      Replay(FragmentNode([]), Calls())
    }

    /** `append(...nodes)`: strings become text handles; everything is
        pushed after the existing children, in argument order. */
    method Append(items: seq<Item<Child>>) returns (self: DomFragment)
      requires Valid() && LegacyAttachable(items, this)
      modifies this
      ensures self == this && Valid()
      ensures |childs| == |old(childs)| + |items| && childs[..|old(childs)|] == old(childs)
      ensures LegacyCoerced(items, childs[|old(childs)|..])
      ensures forall i :: 0 <= i < |items| && items[i].StringItem? ==> fresh(childs[|old(childs)| + i].t)
      ensures old(Repr) <= Repr && fresh(Repr - old(Repr) - old(LegacyItemsFootprint(items)))
    {
      var n := |childs|;
      ghost var kids: seq<Child> := [];
      assert old(childs) + kids == old(childs);
      var i := 0;
      while i < |items|
        invariant 0 <= i <= |items| && |kids| == i
        invariant Valid()
        invariant childs == old(childs) + kids
        invariant LegacyCoerced(items[..i], kids)
        invariant forall k :: 0 <= k < i && items[k].StringItem? ==> fresh(kids[k].t)
        invariant old(Repr) <= Repr && fresh(Repr - old(Repr) - old(LegacyItemsFootprint(items)))
      {
        var kid: Child;
        match items[i] {
          case ChildItem(c) =>
            kid := c;
            assert old(LegacyCanAttach(c, this));
            assert LegacyFootprint(kid) <= old(LegacyItemsFootprint(items));
          case StringItem(s) =>
            var t := LegacyText(s);
            kid := TextChild(t);
        }
        LegacyCoercedSnoc(items, i, kids, kid);
        ghost var repr := Repr + LegacyFootprint(kid);
        LegacyExtend(childs, Repr, this, kid);
        childs := childs + [kid];
        Repr := repr;
        assert old(childs) + kids + [kid] == old(childs) + (kids + [kid]);
        kids := kids + [kid];
        i := i + 1;
      }
      assert items[..i] == items;
      assert childs[..n] == old(childs) && childs[n..] == kids;
      self := this;
    }

    /** `get()`: a new document fragment with each child's get() appended
        in order. `calls` lists the DOM calls issued on the new fragment. */
    method Get() returns (n: Node<Registration>, calls: seq<DomCall<Registration>>)
      requires Valid()
      ensures calls == Calls() && n == Replay(FragmentNode([]), calls)
      ensures n == Materialised()
      decreases Repr, 1, 0
    {
      n, calls := LegacyAppendKids(FragmentNode([]), childs, FragmentChild(this));
    }

    /** Recomputes the footprint from the children's current footprints.
        A child appended earlier may have gained children of its own since;
        as long as none of them reaches back to this fragment, the tree is
        still acyclic and get() still materialises it. */
    ghost method Reframe()
      requires forall i :: 0 <= i < |childs| ==> LegacyCanAttach(childs[i], this)
      modifies this
      ensures Valid() && childs == old(childs)
      ensures Repr == {this} + LegacyKidsFootprint(childs)
    {
      Repr := {this} + LegacyKidsFootprint(childs);
    }
  }

  /** The kind of element handle: DomElement itself, or its subclasses
      DomAnchor (tag 'a', adds href) and DomImage (tag 'img', adds src and alt). */
  datatype Kind = Plain | Anchor | Image

  /** An element handle. The id is undefined until set; the class names,
      children, attributes and listeners are arrays created on first use. */
  class DomElement {
    const tag: string
    const kind: Kind
    var id: Option<string>
    var classNames: Option<seq<string>>
    var childs: Option<seq<Child>>
    var attrs: Option<seq<Attribute>>
    var listeners: Option<seq<Listener>>
    ghost var Repr: set<object>

    ghost predicate Valid()
      reads this, Repr
      ensures Valid() ==> this in Repr
      decreases Repr, 2, 0
    {
      this in Repr && LegacyKidsValid(Items(childs), Repr, this)
    }

    /** A snapshot of the configuration fields. */
    function State(): State
      reads this
    {
      Config(id, classNames, childs, attrs, listeners)
    }

    /** `new DomElement(tagName)`. */
    constructor (tagName: string)
      ensures Valid() && fresh(Repr)
      ensures tag == tagName && kind == Plain && State() == Unset()
    {
      tag, kind := tagName, Plain;
      id, classNames, childs, attrs, listeners := None, None, None, None, None;
      Repr := {this};
    }

    /** `new DomAnchor()`: an element handle with tag 'a'. */
    constructor Anchor()
      ensures Valid() && fresh(Repr)
      ensures tag == "a" && kind == Kind.Anchor && State() == Unset()
    {
      tag, kind := "a", Kind.Anchor;
      id, classNames, childs, attrs, listeners := None, None, None, None, None;
      Repr := {this};
    }

    /** `new DomImage()`: an element handle with tag 'img'. */
    constructor Image()
      ensures Valid() && fresh(Repr)
      ensures tag == "img" && kind == Kind.Image && State() == Unset()
    {
      tag, kind := "img", Kind.Image;
      id, classNames, childs, attrs, listeners := None, None, None, None, None;
      Repr := {this};
    }

    /** The calls get() issues on the new element. */
    ghost function Calls(): seq<DomCall<Registration>>
      requires Valid()
      reads this, Repr
      decreases Repr, 2, 0
    {
      Script(id, classNames, LegacyKidTrees(Items(childs), Repr, this), Items(attrs), Registered(Items(listeners)))
    }

    ghost function Materialised(): Node<Registration>
      requires Valid()
      reads this, Repr
      decreases Repr, 2, 1
    {
      Replay(Blank(tag), Calls())
    }

    /** `id(x)`. */
    method Id(x: string) returns (self: DomElement)
      requires Valid()
      modifies this
      ensures self == this && Valid() && Repr == old(Repr)
      ensures State() == Step(old(State()), IdCall(x))
    {
      id := Some(x);
      self := this;
    }

    /** `class(...classNames)`. */
    method Class(names: seq<string>) returns (self: DomElement)
      requires Valid()
      modifies this
      ensures self == this && Valid() && Repr == old(Repr)
      ensures State() == Step(old(State()), ClassCall(names))
    {
      classNames := Some(Items(classNames) + names);
      self := this;
    }

    /** `attr(name, value)`. */
    method Attr(name: string, value: string) returns (self: DomElement)
      requires Valid()
      modifies this
      ensures self == this && Valid() && Repr == old(Repr)
      ensures State() == Step(old(State()), AttrCall(Attribute(name, value)))
    {
      attrs := Some(Items(attrs) + [Attribute(name, value)]);
      self := this;
    }

    /** `on(type, cb)`: a record with `once: false`. */
    method On(event: string, cb: Callback) returns (self: DomElement)
      requires Valid()
      modifies this
      ensures self == this && Valid() && Repr == old(Repr)
      ensures State() == Step(old(State()), ListenerCall(Listener(event, cb, false)))
    {
      listeners := Some(Items(listeners) + [Listener(event, cb, false)]);
      self := this;
    }

    /** `once(type, cb)`: a record with `once: true`. */
    method Once(event: string, cb: Callback) returns (self: DomElement)
      requires Valid()
      modifies this
      ensures self == this && Valid() && Repr == old(Repr)
      ensures State() == Step(old(State()), ListenerCall(Listener(event, cb, true)))
    {
      listeners := Some(Items(listeners) + [Listener(event, cb, true)]);
      self := this;
    }

    /** `DomAnchor.href(value)`: `attr('href', value)`. */
    method Href(value: string) returns (self: DomElement)
      requires Valid() && kind == Kind.Anchor
      modifies this
      ensures self == this && Valid() && Repr == old(Repr)
      ensures State() == Step(old(State()), AttrCall(Attribute("href", value)))
    {
      self := Attr("href", value);
    }

    /** `DomImage.src(value)`: `attr('src', value)`. */
    method Src(value: string) returns (self: DomElement)
      requires Valid() && kind == Kind.Image
      modifies this
      ensures self == this && Valid() && Repr == old(Repr)
      ensures State() == Step(old(State()), AttrCall(Attribute("src", value)))
    {
      self := Attr("src", value);
    }

    /** `DomImage.alt(value)`: `attr('alt', value)`. */
    method Alt(value: string) returns (self: DomElement)
      requires Valid() && kind == Kind.Image
      modifies this
      ensures self == this && Valid() && Repr == old(Repr)
      ensures State() == Step(old(State()), AttrCall(Attribute("alt", value)))
    {
      self := Attr("alt", value);
    }

    /** `loadOptions(options)`: the id if truthy, the class array if
        given, then one `attr` per attribute, in that order. */
    method LoadOptions(options: ElementOptions) returns (self: DomElement)
      requires Valid()
      modifies this
      ensures self == this && Valid() && Repr == old(Repr)
      ensures State() == Run(old(State()), LegacyOptionCalls(options))
    {
      self := this;
      ghost var s0 := State();
      if options.id.Some? && options.id.value != "" {
        self := Id(options.id.value);
        RunSnoc(s0, [], IdCall(options.id.value));
      }
      assert State() == Run(s0, LegacyIdOptionCalls(options.id));
      ghost var s1 := State();
      if options.classes.Some? {
        self := Class(options.classes.value);
        RunSnoc(s1, [], ClassCall(options.classes.value));
      }
      assert State() == Run(s1, LegacyClassOptionCalls(options.classes));
      SetAttrs(options.attrs);
      LegacyRunOptionCalls(s0, options);
    }

    /** The loop of loadOptions over `attrs`. */
    method SetAttrs(pairs: seq<Attribute>)
      requires Valid()
      modifies this
      ensures Valid() && Repr == old(Repr)
      ensures State() == Run(old(State()), LegacyAttrCalls(pairs))
    {
      var i := 0;
      while i < |pairs|
        invariant 0 <= i <= |pairs|
        invariant Valid() && Repr == old(Repr)
        invariant State() == Run(old(State()), LegacyAttrCalls(pairs[..i]))
      {
        var r := Attr(pairs[i].name, pairs[i].value);
        LegacyAttrCallsSnoc<Child>(pairs, i);
        RunSnoc(old(State()), LegacyAttrCalls(pairs[..i]), AttrCall(pairs[i]));
        i := i + 1;
      }
      assert pairs[..i] == pairs;
    }

    /** `append(...nodes)`: creates the child list if needed, then pushes
        each argument, strings pairs text handles, in argument order. */
    method Append(items: seq<Item<Child>>) returns (self: DomElement)
      requires Valid() && LegacyAttachable(items, this)
      modifies this
      ensures self == this && Valid()
      ensures LegacyAppended(old(State()), State(), items)
      ensures forall i :: 0 <= i < |items| && items[i].StringItem? ==> fresh(Items(childs)[|Items(old(childs))| + i].t)
      ensures old(Repr) <= Repr && fresh(Repr - old(Repr) - old(LegacyItemsFootprint(items)))
    {
      var n := |Items(childs)|;
      childs := Some(Items(childs));
      ghost var kids: seq<Child> := [];
      assert Items(old(childs)) + kids == Items(old(childs));
      var i := 0;
      while i < |items|
        invariant 0 <= i <= |items| && |kids| == i
        invariant Valid()
        invariant State() == old(State()).(childs := Some(Items(old(childs)) + kids))
        invariant LegacyCoerced(items[..i], kids)
        invariant forall k :: 0 <= k < i && items[k].StringItem? ==> fresh(kids[k].t)
        invariant old(Repr) <= Repr && fresh(Repr - old(Repr) - old(LegacyItemsFootprint(items)))
      {
        var kid: Child;
        match items[i] {
          case ChildItem(c) =>
            kid := c;
            assert old(LegacyCanAttach(c, this));
            assert LegacyFootprint(kid) <= old(LegacyItemsFootprint(items));
          case StringItem(s) =>
            var t := LegacyText(s);
            kid := TextChild(t);
        }
        LegacyCoercedSnoc(items, i, kids, kid);
        PushChild(kid);
        assert Items(old(childs)) + kids + [kid] == Items(old(childs)) + (kids + [kid]);
        kids := kids + [kid];
        i := i + 1;
      }
      assert items[..i] == items;
      assert (Items(old(childs)) + kids)[n..] == kids;
      self := this;
    }

    /** `this._childs.push(kid)` on an existing child list. */
    method PushChild(kid: Child)
      requires Valid() && childs.Some? && LegacyCanAttach(kid, this)
      modifies this
      ensures Valid() && Repr == old(Repr) + LegacyFootprint(kid)
      ensures State() == old(State()).(childs := Some(old(childs.value) + [kid]))
    {
      LegacyExtend(childs.value, Repr, this, kid);
      childs := Some(childs.value + [kid]);
      Repr := Repr + LegacyFootprint(kid);
    }

    /** Recomputes the footprint from the children's current footprints.
        A child appended earlier may have gained children of its own since;
        as long as none of them reaches back to this element, the tree is
        still acyclic and get() still materialises it. */
    ghost method Reframe()
      requires forall i :: 0 <= i < |Items(childs)| ==> LegacyCanAttach(Items(childs)[i], this)
      modifies this
      ensures Valid() && State() == old(State())
      ensures Repr == {this} + LegacyKidsFootprint(Items(childs))
    {
      Repr := {this} + LegacyKidsFootprint(Items(childs));
    }

    /** `get()`: creates the element and issues, in this order, the id (when
        defined), the classes (when the list exists), one append per child,
        one setAttribute per attribute and one addEventListener per listener
        record, through a self-removing wrapper for a `once` record.
        `calls` lists the calls issued on the new element, in the order
        issued. The handle itself is not changed. */
    method Get() returns (n: Node<Registration>, calls: seq<DomCall<Registration>>)
      requires Valid()
      ensures calls == Calls() && n == Replay(Blank(tag), calls)
      ensures n == Materialised()
      ensures forall i, j :: 0 <= i < j < |calls| ==> Phase(calls[i]) <= Phase(calls[j])
      decreases Repr, 1, 0
    {
      ghost var kids := LegacyKidTrees(Items(childs), Repr, this);
      ghost var regs := Registered(Items(listeners));
      var n0, head := LegacyStartElement(tag, id, classNames);
      var n1, appends := LegacyAppendKids(n0, Items(childs), ElementChild(this));
      var n2, sets := LegacySetAttributes(n1, Items(attrs));
      var listens: seq<DomCall<Registration>> := [];
      n := n2;
      if listeners.Some? {
        n, listens := LegacyAddListeners(n2, listeners.value);
      } else {
        assert ListenAll(regs) == [];
      }
      calls := head + appends + sets + listens;
      assert calls == Script(id, classNames, kids, Items(attrs), regs);
      ReplayScriptParts(Blank(tag), id, classNames, kids, Items(attrs), regs);
      ScriptPhases(id, classNames, kids, Items(attrs), regs);
    }
  }

  /** The start of an element's get(): `document.createElement(tag)`,
      then the id when it is defined and the classes when the list exists. */
  method LegacyStartElement(tag: string, id: Option<string>, classNames: Option<seq<string>>)
    returns (n: Node<Registration>, calls: seq<DomCall<Registration>>)
    ensures calls == Head(id, classNames) && n == Replay(Blank(tag), calls)
    ensures n == ElementNode(tag, id, Items(classNames), [], [], [])
  {
    n, calls := Blank(tag), [];
    if id.Some? {
      n, calls := Apply(n, SetId(id.value)), calls + [SetId(id.value)];
    }
    if classNames.Some? {
      n, calls := Apply(n, AddClasses(classNames.value)), calls + [AddClasses(classNames.value)];
    }
    ReplayHead<Registration>(tag, id, classNames);
  }

  /** The loop of get() over the children: one appendChild per child, in
      order, with that child's get(). */
  method LegacyAppendKids(n: Node<Registration>, kids: seq<Child>, owner: Child) returns (m: Node<Registration>, calls: seq<DomCall<Registration>>)
    requires LegacyKidsValid(kids, LegacyFootprint(owner), owner.Handle())
    ensures calls == AppendAll(LegacyKidTrees(kids, LegacyFootprint(owner), owner.Handle())) && m == Replay(n, calls)
    decreases LegacyFootprint(owner), 0, 0
  {
    ghost var repr := LegacyFootprint(owner);
    ghost var handle := owner.Handle();
    m := n;
    calls := [];
    var i := 0;
    while i < |kids|
      invariant 0 <= i <= |kids|
      invariant LegacyKidsValid(kids[..i], repr, handle)
      invariant calls == AppendAll(LegacyKidTrees(kids[..i], repr, handle))
      invariant m == Replay(n, calls)
    {
      var kn := LegacyGetChild(kids[i]);
      ghost var trees := LegacyKidTrees(kids[..i], repr, handle);
      LegacyKidTreesSnoc(kids, i, repr, handle);
      AppendAllSnoc(trees, kn);
      ReplaySnoc(n, calls, AppendChild(kn));
      m, calls := Apply(m, AppendChild(kn)), calls + [AppendChild(kn)];
      i := i + 1;
    }
    assert kids[..i] == kids;
  }

  /** The loop of get() over the attributes: one setAttribute each, in order. */
  method LegacySetAttributes(n: Node<Registration>, pairs: seq<Attribute>) returns (m: Node<Registration>, calls: seq<DomCall<Registration>>)
    ensures calls == SetAll(pairs) && m == Replay(n, calls)
  {
    m, calls := n, [];
    var j := 0;
    while j < |pairs|
      invariant 0 <= j <= |pairs|
      invariant calls == SetAll(pairs[..j]) && m == Replay(n, calls)
    {
      assert pairs[..j + 1] == pairs[..j] + [pairs[j]];
      SetAllSnoc<Registration>(pairs[..j], pairs[j]);
      ReplaySnoc(n, calls, SetAttribute(pairs[j]));
      m, calls := Apply(m, SetAttribute(pairs[j])), calls + [SetAttribute(pairs[j])];
      j := j + 1;
    }
    assert pairs[..j] == pairs;
  }

  /** The loop of get() over the listener records: a `once` record is
      registered through a self-removing wrapper, any other directly. */
  method LegacyAddListeners(n: Node<Registration>, ls: seq<Listener>)
    returns (m: Node<Registration>, calls: seq<DomCall<Registration>>)
    ensures calls == ListenAll(Registered(ls)) && m == Replay(n, calls)
  {
    m, calls := n, [];
    var k := 0;
    while k < |ls|
      invariant 0 <= k <= |ls|
      invariant calls == ListenAll(Registered(ls[..k])) && m == Replay(n, calls)
    {
      var reg: Registration;
      if ls[k].once {
        reg := SelfRemoving(ls[k].event, ls[k].cb);
      } else {
        reg := Direct(ls[k].event, ls[k].cb);
      }
      assert Registered(ls[..k + 1]) == Registered(ls[..k]) + [reg];
      ListenAllSnoc(Registered(ls[..k]), reg);
      ReplaySnoc(n, calls, AddEventListener(reg));
      m, calls := Apply(m, AddEventListener(reg)), calls + [AddEventListener(reg)];
      k := k + 1;
    }
    assert ls[..k] == ls;
  }

  /** get() of an element carries exactly the handle's configuration: its
      tag, the id if one was set, the classes if the list exists, each
      child's own get() in order, then the attributes and the listeners in
      the order they were added, each registered as its `once` flag says. */
  lemma LegacyElementMaterialised(e: DomElement)
    requires e.Valid()
    ensures e.Materialised()
         == ElementNode(e.tag, e.id, Items(e.classNames), LegacyKidTrees(Items(e.childs), e.Repr, e),
                        Items(e.attrs), Registered(Items(e.listeners)))
  {
    ReplayScript(e.tag, e.id, e.classNames, LegacyKidTrees(Items(e.childs), e.Repr, e), Items(e.attrs),
                 Registered(Items(e.listeners)));
  }

  /** On the element get() returns, a callback stored by `once` (and not
      also by `on` for the same type) runs only on the first event of its
      type, however many follow, while one stored by `on` runs on every
      event of its type. */
  lemma MaterialisedInvocations(e: DomElement, events: seq<string>, event: string, cb: Callback)
    requires e.Valid()
    ensures e.Materialised().ElementNode?
    ensures var ls := Items(e.listeners);
      multiset(DispatchAll(e.Materialised().listeners, events).invoked)[Invocation(event, cb)]
      == multiset(events)[event] * multiset(ls)[Listener(event, cb, false)]
         + (if event in events then multiset(ls)[Listener(event, cb, true)] else 0)
  {
    LegacyElementMaterialised(e);
    ListenerInvocations(Items(e.listeners), events, event, cb);
  }

  /** On the element get() returns, a callback stored by `once` (and not
      also by `on` for the same type) runs on the first event of its type,
      once per `once` record, and on no event before or after it. */
  lemma MaterialisedOnceFirst(e: DomElement, before: seq<string>, after: seq<string>, event: string, cb: Callback)
    requires e.Valid() && event !in before && Listener(event, cb, false) !in Items(e.listeners)
    ensures e.Materialised().ElementNode?
    ensures var regs := e.Materialised().listeners;
      var once := multiset(Items(e.listeners))[Listener(event, cb, true)];
      multiset(DispatchAll(regs, before).invoked)[Invocation(event, cb)] == 0 &&
      multiset(DispatchAll(regs, before + [event]).invoked)[Invocation(event, cb)] == once &&
      multiset(DispatchAll(regs, before + [event] + after).invoked)[Invocation(event, cb)] == once
  {
    LegacyElementMaterialised(e);
    OnceRunsOnFirstEvent(Items(e.listeners), before, after, event, cb);
  }

  /** get() of a fragment holds each child's own get(), in append order. */
  lemma LegacyFragmentMaterialised(f: DomFragment)
    requires f.Valid()
    ensures f.Materialised() == FragmentNode(LegacyKidTrees(f.childs, f.Repr, f))
  {
    ReplayFragment(LegacyKidTrees(f.childs, f.Repr, f));
  }

  /** Pushing an attachable child keeps the child list valid over the
      footprint grown by the child's. */
  lemma LegacyExtend(kids: seq<Child>, repr: set<object>, owner: object, kid: Child)
    requires LegacyKidsValid(kids, repr, owner) && LegacyCanAttach(kid, owner)
    ensures LegacyKidsValid(kids + [kid], repr + LegacyFootprint(kid), owner)
  {
  }

  /** `text(value)`. */
  method LegacyText(value: string) returns (dn: DomText)
    ensures fresh(dn) && dn.text == value
  {
    dn := new DomText(value);
  }

  /** What `mel(de, arg1, arg2)` passes to append: nothing when append is not called. */
  function LegacyToAppend(arg1: Arg<ElementOptions, Child>, arg2: ChildArg<Child>): seq<Item<Child>>
  {
    var a := AppendArgs(Dispatch(arg1, arg2).childs);
    if a.Some? then a.value else []
  }

  /** The fields after `mel(de, arg1, arg2)`: the options, if any, are
      loaded first; then the children, if any, are appended. */
  ghost predicate LegacyMade(before: State, after: State, arg1: Arg<ElementOptions, Child>, arg2: ChildArg<Child>)
  {
    var d := Dispatch(arg1, arg2);
    var loaded := if d.options.Some? then Run(before, LegacyOptionCalls(d.options.value)) else before;
    match AppendArgs(d.childs)
    case None => after == loaded
    case Some(items) => LegacyAppended(loaded, after, items)
  }

  /** `mel(de, arg1, arg2)`. */
  method Mel(de: DomElement, arg1: Arg<ElementOptions, Child>, arg2: ChildArg<Child>) returns (r: DomElement)
    requires de.Valid() && LegacyAttachable(LegacyToAppend(arg1, arg2), de)
    modifies de
    ensures r == de && de.Valid()
    ensures LegacyMade(old(de.State()), de.State(), arg1, arg2)
    ensures old(de.Repr) <= de.Repr
    ensures fresh(de.Repr - old(de.Repr) - old(LegacyItemsFootprint(LegacyToAppend(arg1, arg2))))
  {
    var d := Dispatch(arg1, arg2);
    LegacyLoadGiven(de, d.options, LegacyToAppend(arg1, arg2));
    LegacyAppendGiven(de, AppendArgs(d.childs));
    r := de;
  }

  /** `if (options) de.loadOptions(options)`. */
  method LegacyLoadGiven(de: DomElement, options: Option<ElementOptions>, items: seq<Item<Child>>)
    requires de.Valid() && LegacyAttachable(items, de)
    modifies de
    ensures de.Valid() && de.Repr == old(de.Repr) && LegacyAttachable(items, de)
    ensures de.State() == if options.Some? then Run(old(de.State()), LegacyOptionCalls(options.value)) else old(de.State())
  {
    if options.Some? {
      var r := de.LoadOptions(options.value);
    }
  }

  /** `if (childs) de.append(childs)` or `de.append(...childs)`. */
  method LegacyAppendGiven(de: DomElement, items: Option<seq<Item<Child>>>)
    requires de.Valid() && LegacyAttachable(Items(items), de)
    modifies de
    ensures de.Valid() && old(de.Repr) <= de.Repr
    ensures fresh(de.Repr - old(de.Repr) - old(LegacyItemsFootprint(Items(items))))
    ensures match items
            case None => de.State() == old(de.State())
            case Some(xs) => LegacyAppended(old(de.State()), de.State(), xs)
  {
    if items.Some? {
      var r := de.Append(items.value);
    }
  }

  /** `el(tagName, arg1, arg2)`: a new element handle configured by mel. */
  method LegacyEl(tagName: string, arg1: Arg<ElementOptions, Child>, arg2: ChildArg<Child>) returns (de: DomElement)
    requires LegacyItemsValid(LegacyToAppend(arg1, arg2))
    ensures fresh(de) && de.Valid() && de.tag == tagName && de.kind == Plain
    ensures LegacyMade(Unset(), de.State(), arg1, arg2)
    ensures fresh(de.Repr - old(LegacyItemsFootprint(LegacyToAppend(arg1, arg2))))
  {
    var e := new DomElement(tagName);
    de := Mel(e, arg1, arg2);
  }

  /** `el2(tagName, arg1, arg2)`: the subclass is chosen by the tag, 'a'
      for DomAnchor and 'img' for DomImage. */
  method LegacyEl2(tagName: string, arg1: Arg<ElementOptions, Child>, arg2: ChildArg<Child>) returns (de: DomElement)
    requires tagName == "a" || tagName == "img"
    requires LegacyItemsValid(LegacyToAppend(arg1, arg2))
    ensures fresh(de) && de.Valid() && de.tag == tagName
    ensures de.kind == if tagName == "a" then Kind.Anchor else Kind.Image
    ensures LegacyMade(Unset(), de.State(), arg1, arg2)
    ensures fresh(de.Repr - old(LegacyItemsFootprint(LegacyToAppend(arg1, arg2))))
  {
    var e := LegacyNewTagged(tagName);
    de := Mel(e, arg1, arg2);
  }

  /** `new DomElementTagNameMap[tagName]()`: 'a' maps to DomAnchor, 'img' to DomImage. */
  method LegacyNewTagged(tagName: string) returns (e: DomElement)
    requires tagName == "a" || tagName == "img"
    ensures fresh(e) && e.Valid() && fresh(e.Repr) && e.State() == Unset()
    ensures e.tag == tagName && e.kind == if tagName == "a" then Kind.Anchor else Kind.Image
  {
    if tagName == "a" {
      e := new DomElement.Anchor();
    } else {
      e := new DomElement.Image();
    }
  }

  /** `fragment(childs)`: a new fragment, with the children appended when given. */
  method LegacyFragment(childs: Option<seq<Item<Child>>>) returns (df: DomFragment)
    requires childs.Some? ==> LegacyItemsValid(childs.value)
    ensures fresh(df) && df.Valid()
    ensures LegacyCoerced(Items(childs), df.childs)
    ensures fresh(df.Repr - old(LegacyItemsFootprint(Items(childs))))
  {
    df := new DomFragment();
    if childs.Some? {
      var r := df.Append(childs.value);
    }
  }

  /** Appending one handle to an unset element leaves that handle as its only child. */
  lemma LegacyAppendedToUnset(after: State, c: Child)
    requires LegacyAppended(Unset(), after, [ChildItem(c)])
    ensures after == Config(None, None, Some([c]), None, None)
  {
    var kids := Items(after.childs);
    assert kids[0..] == kids;
    assert kids == [c];
  }

  /** get() of an element whose only configuration is one child. */
  lemma LegacyOneKidMaterialised(e: DomElement, c: Child)
    requires e.Valid() && e.State() == Config(None, None, Some([c]), None, None)
    ensures LegacyChildValid(c)
    ensures e.Materialised() == ElementNode(e.tag, None, [], [LegacyChildTree(c)], [], [])
  {
    LegacyElementMaterialised(e);
    assert [c][..0] == [];
    LegacyKidTreesSnoc([c], 0, e.Repr, e);
  }

  /** `parent.append(child)` on an unset parent: the child becomes its only child. */
  method LegacyAttach(parent: DomElement, child: DomElement)
    requires parent.Valid() && parent.State() == Unset() && child.Valid() && parent !in child.Repr
    modifies parent
    ensures parent.Valid() && parent.State() == Config(None, None, Some([ElementChild(child)]), None, None)
    ensures old(parent.Repr) <= parent.Repr && fresh(parent.Repr - old(parent.Repr) - child.Repr)
  {
    var r := parent.Append([ChildItem(ElementChild(child))]);
    LegacyAppendedToUnset(parent.State(), ElementChild(child));
  }

  /** A page holding a list holding an item, where the list was appended to
      the page before the item was appended to the list. */
  method LegacyBuildNested() returns (page: DomElement, list: DomElement, item: DomElement)
    ensures page.Valid() && list.Valid() && item.Valid()
    ensures page.tag == "div" && list.tag == "ul" && item.tag == "li"
    ensures page.State() == Config(None, None, Some([ElementChild(list)]), None, None)
    ensures list.State() == Config(None, None, Some([ElementChild(item)]), None, None)
    ensures item.State() == Unset()
  {
    page := new DomElement("div");
    list := new DomElement("ul");
    LegacyAttach(page, list);
    item := new DomElement("li");
    LegacyAttach(list, item);
    page.Reframe();
  }

  /** What get() returns for the page of BuildNested. */
  lemma LegacyNestedMaterialised(page: DomElement, list: DomElement, item: DomElement)
    requires page.Valid() && list.Valid() && item.Valid()
    requires page.tag == "div" && list.tag == "ul" && item.tag == "li"
    requires page.State() == Config(None, None, Some([ElementChild(list)]), None, None)
    requires list.State() == Config(None, None, Some([ElementChild(item)]), None, None)
    requires item.State() == Unset()
    ensures page.Materialised()
         == ElementNode("div", None, [], [ElementNode("ul", None, [], [ElementNode("li", None, [], [], [], [])], [], [])], [], [])
  {
    LegacyElementMaterialised(item);
    LegacyOneKidMaterialised(list, ElementChild(item));
    LegacyOneKidMaterialised(page, ElementChild(list));
  }

  /** A list appended to a page before it has any items of its own: once
      the item is appended to the list and the page is reframed, get()
      materialises the whole three-level tree. */
  method LegacyNestedAppend() returns (n: Node<Registration>)
    ensures n == ElementNode("div", None, [], [ElementNode("ul", None, [], [ElementNode("li", None, [], [], [], [])], [], [])], [], [])
  {
    var page, list, item := LegacyBuildNested();
    var calls;
    n, calls := page.Get();
    LegacyNestedMaterialised(page, list, item);
  }
}
