/** The abstract DOM that materialisation targets.

    A handle's get() does not build a browser node here: it issues an ordered
    list of DOM calls (set the id, add classes, append a child, set an
    attribute, add an event listener) on a freshly created node, and the node
    that results is computed by replaying those calls. The type parameter R is
    what one revision passes to addEventListener. */
module DomTree {

  datatype Option<+T> = None | Some(value: T)

  /** The contents of a lazily created array field: `field || []`. */
  function Items<T>(o: Option<seq<T>>): seq<T>
  {
    if o.Some? then o.value else []
  }

  datatype Attribute = Attribute(name: string, value: string)

  /** An event callback, kept as an opaque token. */
  datatype Callback = Callback(token: nat)

  /** A materialised node. An element keeps what was done to it, in order:
      the id last assigned (None if never), the classes added, the children
      appended, the attributes set and the listeners registered. */
  datatype Node<R> =
    | TextNode(data: string)
    | FragmentNode(kids: seq<Node<R>>)
    | ElementNode(tag: string, id: Option<string>, classes: seq<string>,
              kids: seq<Node<R>>, attrs: seq<Attribute>, listeners: seq<R>)

  /** One DOM call that get() issues on the node it created. */
  datatype DomCall<R> =
    | SetId(id: string)
    | AddClasses(names: seq<string>)
    | AppendChild(child: Node<R>)
    | SetAttribute(attr: Attribute)
    | AddEventListener(registration: R)

  /** `document.createElement(tag)`: an element nothing has been done to. */
  function Blank<R>(tag: string): Node<R>
  {
    ElementNode(tag, None, [], [], [], [])
  }

  /** The effect of one DOM call on a node. The id is overwritten; everything
      else is recorded in call order (de-duplication by classList and
      overwriting by setAttribute are the browser's and are not modelled).
      A call a node of that kind does not support leaves it as it is. */
  function Apply<R>(n: Node<R>, call: DomCall<R>): Node<R>
  {
    match call
    case SetId(x) => if n.ElementNode? then n.(id := Some(x)) else n
    case AddClasses(ns) => if n.ElementNode? then n.(classes := n.classes + ns) else n
    case AppendChild(c) => if n.TextNode? then n else n.(kids := n.kids + [c])
    case SetAttribute(a) => if n.ElementNode? then n.(attrs := n.attrs + [a]) else n
    case AddEventListener(r) => if n.ElementNode? then n.(listeners := n.listeners + [r]) else n
  }

  /** The node that results from issuing `calls` on `n`, first call first. */
  function Replay<R>(n: Node<R>, calls: seq<DomCall<R>>): Node<R>
    decreases |calls|
  {
    if calls == [] then n
    else Apply(Replay(n, calls[..|calls| - 1]), calls[|calls| - 1])
  }

  /** One appendChild per child, in order. */
  function AppendAll<R>(kids: seq<Node<R>>): seq<DomCall<R>>
  {
    seq(|kids|, i requires 0 <= i < |kids| => AppendChild(kids[i]))
  }

  /** One setAttribute per attribute, in order. */
  function SetAll<R>(attrs: seq<Attribute>): seq<DomCall<R>>
  {
    seq(|attrs|, i requires 0 <= i < |attrs| => SetAttribute(attrs[i]))
  }

  /** One addEventListener per registration, in order. */
  function ListenAll<R>(regs: seq<R>): seq<DomCall<R>>
  {
    seq(|regs|, i requires 0 <= i < |regs| => AddEventListener(regs[i]))
  }

  lemma AppendAllSnoc<R>(kids: seq<Node<R>>, kid: Node<R>)
    ensures AppendAll(kids + [kid]) == AppendAll(kids) + [AppendChild(kid)]
  {
  }

  lemma SetAllSnoc<R>(attrs: seq<Attribute>, attr: Attribute)
    ensures SetAll<R>(attrs + [attr]) == SetAll<R>(attrs) + [SetAttribute(attr)]
  {
  }

  lemma ListenAllSnoc<R>(regs: seq<R>, reg: R)
    ensures ListenAll(regs + [reg]) == ListenAll(regs) + [AddEventListener(reg)]
  {
  }

  /** The calls an element handle's get() issues, in the fixed order: the id
      when it is defined (the empty string included), the classes when the
      class list exists, then one append per child, one setAttribute per
      attribute and one addEventListener per listener, each in stored order. */
  function Script<R>(id: Option<string>, classes: Option<seq<string>>, kids: seq<Node<R>>, attrs: seq<Attribute>, regs: seq<R>): seq<DomCall<R>>
  {
    Head(id, classes) + AppendAll(kids) + SetAll(attrs) + ListenAll(regs)
  }

  /** The first two phases of an element's get(): the id, then the classes. */
  function Head<R>(id: Option<string>, classes: Option<seq<string>>): seq<DomCall<R>>
  {
    (if id.Some? then [SetId(id.value)] else [])
    + (if classes.Some? then [AddClasses(classes.value)] else [])
  }

  /** Issuing the script is issuing its four parts one after the other. */
  lemma ReplayScriptParts<R>(n: Node<R>, id: Option<string>, classes: Option<seq<string>>, kids: seq<Node<R>>, attrs: seq<Attribute>, regs: seq<R>)
    ensures Replay(n, Script(id, classes, kids, attrs, regs))
         == Replay(Replay(Replay(Replay(n, Head(id, classes)), AppendAll(kids)), SetAll(attrs)), ListenAll(regs))
  {
    var h: seq<DomCall<R>> := Head(id, classes);
    ReplayConcat(n, h + AppendAll(kids) + SetAll(attrs), ListenAll(regs));
    ReplayConcat(n, h + AppendAll(kids), SetAll(attrs));
    ReplayConcat(n, h, AppendAll(kids));
  }

  /** The order of the phases of an element's get(). */
  function Phase<R>(call: DomCall<R>): nat
  {
    match call
    case SetId(_) => 0
    case AddClasses(_) => 1
    case AppendChild(_) => 2
    case SetAttribute(_) => 3
    case AddEventListener(_) => 4
  }

  /** Issuing a + b is issuing a, then b. */
  lemma {:induction false} ReplayConcat<R>(n: Node<R>, a: seq<DomCall<R>>, b: seq<DomCall<R>>)
    ensures Replay(n, a + b) == Replay(Replay(n, a), b)
    decreases |b|
  {
    if b == [] {
      assert a + b == a;
    } else {
      var b' := b[..|b| - 1];
      assert (a + b)[..|a + b| - 1] == a + b';
      assert (a + b)[|a + b| - 1] == b[|b| - 1];
      ReplayConcat(n, a, b');
    }
  }

  /** Issuing one more call applies it to the node built so far. */
  lemma ReplaySnoc<R>(n: Node<R>, calls: seq<DomCall<R>>, call: DomCall<R>)
    ensures Replay(n, calls + [call]) == Apply(Replay(n, calls), call)
  {
    assert (calls + [call])[..|calls|] == calls;
  }

  lemma ReplayOne<R>(n: Node<R>, call: DomCall<R>)
    ensures Replay(n, [call]) == Apply(n, call)
  {
    assert [call][..0] == [];
  }

  /** Appending children one by one adds them after the existing ones, in order. */
  lemma {:induction false} ReplayAppendAll<R>(n: Node<R>, kids: seq<Node<R>>)
    requires !n.TextNode?
    ensures Replay(n, AppendAll(kids)) == n.(kids := n.kids + kids)
    decreases |kids|
  {
    if kids == [] {
      assert n.kids + kids == n.kids;
    } else {
      var init := kids[..|kids| - 1];
      assert AppendAll(kids)[..|kids| - 1] == AppendAll(init);
      ReplayAppendAll(n, init);
      assert n.kids + init + [kids[|kids| - 1]] == n.kids + kids;
    }
  }

  lemma {:induction false} ReplaySetAll<R>(n: Node<R>, attrs: seq<Attribute>)
    requires n.ElementNode?
    ensures Replay(n, SetAll(attrs)) == n.(attrs := n.attrs + attrs)
    decreases |attrs|
  {
    if attrs == [] {
      assert n.attrs + attrs == n.attrs;
    } else {
      var init := attrs[..|attrs| - 1];
      assert SetAll<R>(attrs)[..|attrs| - 1] == SetAll(init);
      ReplaySetAll(n, init);
      assert n.attrs + init + [attrs[|attrs| - 1]] == n.attrs + attrs;
    }
  }

  lemma {:induction false} ReplayListenAll<R>(n: Node<R>, regs: seq<R>)
    requires n.ElementNode?
    ensures Replay(n, ListenAll(regs)) == n.(listeners := n.listeners + regs)
    decreases |regs|
  {
    if regs == [] {
      assert n.listeners + regs == n.listeners;
    } else {
      var init := regs[..|regs| - 1];
      assert ListenAll(regs)[..|regs| - 1] == ListenAll(init);
      ReplayListenAll(n, init);
      assert n.listeners + init + [regs[|regs| - 1]] == n.listeners + regs;
    }
  }

  lemma ReplayHead<R>(tag: string, id: Option<string>, classes: Option<seq<string>>)
    ensures Replay(Blank<R>(tag), Head(id, classes)) == ElementNode(tag, id, Items(classes), [], [], [])
  {
    var h1: seq<DomCall<R>> := if id.Some? then [SetId(id.value)] else [];
    var h2: seq<DomCall<R>> := if classes.Some? then [AddClasses(classes.value)] else [];
    assert Head(id, classes) == h1 + h2;
    ReplayConcat(Blank(tag), h1, h2);
    if id.Some? { ReplayOne(Blank<R>(tag), SetId(id.value)); }
    if classes.Some? { ReplayOne(Replay(Blank<R>(tag), h1), AddClasses(classes.value)); }
  }

  /** Materialising an element by its script yields a node that carries
      exactly the handle's id, classes, children, attributes and listeners. */
  lemma ReplayScript<R>(tag: string, id: Option<string>, classes: Option<seq<string>>, kids: seq<Node<R>>, attrs: seq<Attribute>, regs: seq<R>)
    ensures Replay(Blank(tag), Script(id, classes, kids, attrs, regs))
         == ElementNode(tag, id, Items(classes), kids, attrs, regs)
  {
    var head: seq<DomCall<R>> := Head(id, classes);
    var n0 := ElementNode(tag, id, Items(classes), [], [], []);
    ReplayHead<R>(tag, id, classes);
    var ka: seq<DomCall<R>> := AppendAll(kids);
    var sa: seq<DomCall<R>> := SetAll(attrs);
    var la: seq<DomCall<R>> := ListenAll(regs);
    assert Script(id, classes, kids, attrs, regs) == head + (ka + sa + la);
    var n1 := ElementNode(tag, id, Items(classes), kids, [], []);
    var n2 := ElementNode(tag, id, Items(classes), kids, attrs, []);
    calc {
      Replay(Blank(tag), head + (ka + sa + la));
      { ReplayConcat(Blank(tag), head, ka + sa + la); }
      Replay(n0, ka + sa + la);
      { ReplayConcat(n0, ka + sa, la); ReplayConcat(n0, ka, sa); }
      Replay(Replay(Replay(n0, ka), sa), la);
      { ReplayAppendAll(n0, kids); assert [] + kids == kids; }
      Replay(Replay(n1, sa), la);
      { ReplaySetAll(n1, attrs); assert [] + attrs == attrs; }
      Replay(n2, la);
      { ReplayListenAll(n2, regs); assert [] + regs == regs; }
      ElementNode(tag, id, Items(classes), kids, attrs, regs);
    }
  }

  /** A fragment's get() appends each materialised child in order. */
  lemma ReplayFragment<R>(kids: seq<Node<R>>)
    ensures Replay(FragmentNode([]), AppendAll(kids)) == FragmentNode(kids)
  {
    ReplayAppendAll(FragmentNode([]), kids);
    assert [] + kids == kids;
  }

  /** The script issues its calls phase by phase, never going back to an
      earlier phase: id, classes, children, attributes, listeners. */
  lemma ScriptPhases<R>(id: Option<string>, classes: Option<seq<string>>, kids: seq<Node<R>>, attrs: seq<Attribute>, regs: seq<R>)
    ensures var s := Script(id, classes, kids, attrs, regs);
      forall i, j :: 0 <= i < j < |s| ==> Phase(s[i]) <= Phase(s[j])
  {
    var s := Script(id, classes, kids, attrs, regs);
    var a := (if id.Some? then 1 else 0);
    var b := a + (if classes.Some? then 1 else 0);
    var c := b + |kids|;
    var d := c + |attrs|;
    forall i | 0 <= i < |s|
      ensures Phase(s[i]) == if i < a then 0 else if i < b then 1 else if i < c then 2
                             else if i < d then 3 else 4
    {
      if i >= d {
        assert s[i] == ListenAll(regs)[i - d];
      } else if i >= c {
        assert s[i] == SetAll<R>(attrs)[i - c];
      } else if i >= b {
        assert s[i] == AppendAll(kids)[i - b];
      }
    }
  }
}
