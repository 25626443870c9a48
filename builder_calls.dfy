/** What the builder methods of an element handle do to its fields.

    An element handle keeps a tag, an id that is undefined until set, and four
    arrays that are created on first use: class names, children, attributes
    and listeners. Config is a snapshot of those fields; each builder method
    is one Call, and Step is its effect. The type parameters are the child
    handle type C and the listener record type L of one revision. */
module BuilderCalls {
  import opened DomTree

  /** An argument of append: a handle, or a string to be wrapped in a text handle. */
  datatype Item<C> = ChildItem(child: C) | StringItem(s: string)

  datatype Config<C, L> = Config(id: Option<string>, classNames: Option<seq<string>>,
                                 childs: Option<seq<C>>, attrs: Option<seq<Attribute>>,
                                 listeners: Option<seq<L>>)

  /** The fields of a newly constructed element handle: all undefined. */
  function Unset<C, L>(): Config<C, L>
  {
    Config(None, None, None, None, None)
  }

  datatype Call<C, L> =
    | IdCall(id: string)
    | ClassCall(names: seq<string>)
    | AttrCall(attr: Attribute)
    | ListenerCall(listener: L)
    | AppendCall(kids: seq<C>)

  /** `(field = field || []).push(...xs)`. */
  function Push<T>(o: Option<seq<T>>, xs: seq<T>): Option<seq<T>>
  {
    Some(Items(o) + xs)
  }

  /** The effect of one builder method on the fields: `id` assigns, the
      others create their array if needed and push onto it. */
  function Step<C, L>(c: Config<C, L>, call: Call<C, L>): Config<C, L>
  {
    match call
    case IdCall(x) => c.(id := Some(x))
    case ClassCall(ns) => c.(classNames := Push(c.classNames, ns))
    case AttrCall(a) => c.(attrs := Push(c.attrs, [a]))
    case ListenerCall(l) => c.(listeners := Push(c.listeners, [l]))
    case AppendCall(ks) => c.(childs := Push(c.childs, ks))
  }

  /** The fields after a chain of builder calls, first call first. */
  function Run<C, L>(c: Config<C, L>, calls: seq<Call<C, L>>): Config<C, L>
    decreases |calls|
  {
    if calls == [] then c else Step(Run(c, calls[..|calls| - 1]), calls[|calls| - 1])
  }

  lemma RunSnoc<C, L>(c: Config<C, L>, calls: seq<Call<C, L>>, call: Call<C, L>)
    ensures Run(c, calls + [call]) == Step(Run(c, calls), call)
  {
    assert (calls + [call])[..|calls|] == calls;
  }

  /** Making the calls a + b is making a, then b. */
  lemma {:induction false} RunConcat<C, L>(c: Config<C, L>, a: seq<Call<C, L>>, b: seq<Call<C, L>>)
    ensures Run(c, a + b) == Run(Run(c, a), b)
    decreases |b|
  {
    if b == [] {
      assert a + b == a;
    } else {
      var b' := b[..|b| - 1];
      assert (a + b)[..|a + b| - 1] == a + b';
      assert (a + b)[|a + b| - 1] == b[|b| - 1];
      RunConcat(c, a, b');
    }
  }

  // What a chain of calls contributes to each field, read off the calls
  // themselves without running them.

  /** Everything `part` picks out of each call, in call order. */
  function Collect<C, L, T>(calls: seq<Call<C, L>>, part: Call<C, L> -> seq<T>): seq<T>
    decreases |calls|
  {
    if calls == [] then [] else Collect(calls[..|calls| - 1], part) + part(calls[|calls| - 1])
  }

  function IdPart<C, L>(call: Call<C, L>): seq<string> { if call.IdCall? then [call.id] else [] }
  function ClassPart<C, L>(call: Call<C, L>): seq<string> { if call.ClassCall? then call.names else [] }
  function AttrPart<C, L>(call: Call<C, L>): seq<Attribute> { if call.AttrCall? then [call.attr] else [] }
  function ListenerPart<C, L>(call: Call<C, L>): seq<L> { if call.ListenerCall? then [call.listener] else [] }
  function KidPart<C, L>(call: Call<C, L>): seq<C> { if call.AppendCall? then call.kids else [] }
  function ClassCallPart<C, L>(call: Call<C, L>): seq<Call<C, L>> { if call.ClassCall? then [call] else [] }
  function AppendCallPart<C, L>(call: Call<C, L>): seq<Call<C, L>> { if call.AppendCall? then [call] else [] }

  /** The ids passed to `id`, in call order. */
  function IdsSet<C, L>(calls: seq<Call<C, L>>): seq<string> { Collect(calls, IdPart) }
  /** Whether `class` is called at all (even with no names, it creates the array). */
  function ClassCalled<C, L>(calls: seq<Call<C, L>>): bool { Collect(calls, ClassCallPart) != [] }
  /** The class names passed to `class`, in call order, duplicates kept. */
  function ClassesAdded<C, L>(calls: seq<Call<C, L>>): seq<string> { Collect(calls, ClassPart) }
  function AttrsAdded<C, L>(calls: seq<Call<C, L>>): seq<Attribute> { Collect(calls, AttrPart) }
  function ListenersAdded<C, L>(calls: seq<Call<C, L>>): seq<L> { Collect(calls, ListenerPart) }
  /** Whether `append` is called at all (even with no arguments, it creates the array). */
  function AppendCalled<C, L>(calls: seq<Call<C, L>>): bool { Collect(calls, AppendCallPart) != [] }
  function KidsAdded<C, L>(calls: seq<Call<C, L>>): seq<C> { Collect(calls, KidPart) }

  /** A lazily created array field after some calls: untouched, or created
      if need be and extended by `xs`. */
  function Grown<T>(o: Option<seq<T>>, touched: bool, xs: seq<T>): Option<seq<T>>
  {
    if touched then Some(Items(o) + xs) else o
  }

  /** What a + b contributes is what a contributes followed by what b contributes. */
  lemma {:induction false} CollectConcat<C, L, T>(a: seq<Call<C, L>>, b: seq<Call<C, L>>, part: Call<C, L> -> seq<T>)
    ensures Collect(a + b, part) == Collect(a, part) + Collect(b, part)
    decreases |b|
  {
    if b == [] {
      assert a + b == a;
    } else {
      var b' := b[..|b| - 1];
      assert (a + b)[..|a + b| - 1] == a + b';
      assert (a + b)[|a + b| - 1] == b[|b| - 1];
      CollectConcat(a, b', part);
    }
  }

  /** Nothing is picked out of calls that contribute nothing. */
  lemma {:induction false} CollectNothing<C, L, T>(calls: seq<Call<C, L>>, part: Call<C, L> -> seq<T>)
    requires forall i :: 0 <= i < |calls| ==> part(calls[i]) == []
    ensures Collect(calls, part) == []
    decreases |calls|
  {
    if calls != [] {
      CollectNothing(calls[..|calls| - 1], part);
    }
  }

  lemma CollectOne<C, L, T>(call: Call<C, L>, part: Call<C, L> -> seq<T>)
    ensures Collect([call], part) == part(call)
  {
    assert [call][..0] == [];
  }

  /** When a and rest contribute nothing, a + b + rest contributes what b does. */
  lemma CollectMiddle<C, L, T>(a: seq<Call<C, L>>, b: seq<Call<C, L>>, rest: seq<Call<C, L>>, part: Call<C, L> -> seq<T>)
    requires Collect(a, part) == [] && Collect(rest, part) == []
    ensures Collect(a + b + rest, part) == Collect(b, part)
  {
    CollectConcat(a + b, rest, part);
    CollectConcat(a, b, part);
    assert [] + Collect(b, part) + [] == Collect(b, part);
  }

  lemma {:induction false} RunId<C, L>(c: Config<C, L>, calls: seq<Call<C, L>>)
    ensures var ids := IdsSet(calls);
      Run(c, calls).id == if ids == [] then c.id else Some(ids[|ids| - 1])
    decreases |calls|
  {
    if calls != [] {
      RunId(c, calls[..|calls| - 1]);
    }
  }

  lemma {:induction false} RunClassNames<C, L>(c: Config<C, L>, calls: seq<Call<C, L>>)
    ensures !ClassCalled(calls) ==> ClassesAdded(calls) == []
    ensures Run(c, calls).classNames == Grown(c.classNames, ClassCalled(calls), ClassesAdded(calls))
    decreases |calls|
  {
    if calls != [] {
      var init := calls[..|calls| - 1];
      var last := calls[|calls| - 1];
      RunClassNames(c, init);
      assert Collect(calls, ClassCallPart) == Collect(init, ClassCallPart) + ClassCallPart(last);
      if last.ClassCall? {
        assert Items(Run(c, init).classNames) == Items(c.classNames) + ClassesAdded(init);
        assert ClassCalled(calls);
        assert Items(c.classNames) + ClassesAdded(calls)
            == Items(c.classNames) + ClassesAdded(init) + last.names;
      } else {
        assert Collect(calls, ClassCallPart) == Collect(init, ClassCallPart);
        assert ClassesAdded(calls) == ClassesAdded(init) + [];
        assert ClassesAdded(calls) == ClassesAdded(init);
        assert Step(Run(c, init), last).classNames == Run(c, init).classNames;
      }
    }
  }

  lemma {:induction false} RunChilds<C, L>(c: Config<C, L>, calls: seq<Call<C, L>>)
    ensures !AppendCalled(calls) ==> KidsAdded(calls) == []
    ensures Run(c, calls).childs == Grown(c.childs, AppendCalled(calls), KidsAdded(calls))
    decreases |calls|
  {
    if calls != [] {
      var init := calls[..|calls| - 1];
      var last := calls[|calls| - 1];
      RunChilds(c, init);
      assert Collect(calls, AppendCallPart) == Collect(init, AppendCallPart) + AppendCallPart(last);
      if last.AppendCall? {
        assert Items(Run(c, init).childs) == Items(c.childs) + KidsAdded(init);
        assert AppendCalled(calls);
        assert Items(c.childs) + KidsAdded(calls)
            == Items(c.childs) + KidsAdded(init) + last.kids;
      } else {
        assert Collect(calls, AppendCallPart) == Collect(init, AppendCallPart);
        assert KidsAdded(calls) == KidsAdded(init) + [];
        assert KidsAdded(calls) == KidsAdded(init);
        assert Step(Run(c, init), last).childs == Run(c, init).childs;
      }
    }
  }

  lemma {:induction false} RunAttrs<C, L>(c: Config<C, L>, calls: seq<Call<C, L>>)
    ensures Run(c, calls).attrs == Grown(c.attrs, AttrsAdded(calls) != [], AttrsAdded(calls))
    decreases |calls|
  {
    if calls != [] {
      var init := calls[..|calls| - 1];
      var last := calls[|calls| - 1];
      RunAttrs(c, init);
      assert AttrsAdded(calls) == AttrsAdded(init) + AttrPart(last);
      assert Run(c, calls) == Step(Run(c, init), last);
      if last.AttrCall? {
        assert Items(Run(c, init).attrs) == Items(c.attrs) + AttrsAdded(init);
        assert Items(c.attrs) + AttrsAdded(calls)
            == Items(c.attrs) + AttrsAdded(init) + [last.attr];
      } else {
        assert AttrsAdded(calls) == AttrsAdded(init) + [];
        assert AttrsAdded(calls) == AttrsAdded(init);
        assert Step(Run(c, init), last).attrs == Run(c, init).attrs;
      }
    }
  }

  lemma {:induction false} RunListeners<C, L>(c: Config<C, L>, calls: seq<Call<C, L>>)
    ensures Run(c, calls).listeners
         == Grown(c.listeners, ListenersAdded(calls) != [], ListenersAdded(calls))
    decreases |calls|
  {
    if calls != [] {
      var init := calls[..|calls| - 1];
      var last := calls[|calls| - 1];
      RunListeners(c, init);
      if last.ListenerCall? {
        assert Items(Run(c, init).listeners) == Items(c.listeners) + ListenersAdded(init);
        assert Items(c.listeners) + ListenersAdded(calls)
            == Items(c.listeners) + ListenersAdded(init) + [last.listener];
      } else {
        assert ListenersAdded(calls) == ListenersAdded(init) + [];
        assert ListenersAdded(calls) == ListenersAdded(init);
        assert Step(Run(c, init), last).listeners == Run(c, init).listeners;
      }
    }
  }

  /** The fields after any chain of builder calls: the id is the one set
      last (or the old one if `id` was never called); class names, children,
      attributes and listeners are the old ones followed by everything the
      calls passed, in call order and with duplicates kept; a field no call
      touched is unchanged. */
  lemma RunFields<C, L>(c: Config<C, L>, calls: seq<Call<C, L>>)
    ensures var ids := IdsSet(calls);
      Run(c, calls) == Config(
        if ids == [] then c.id else Some(ids[|ids| - 1]),
        Grown(c.classNames, ClassCalled(calls), ClassesAdded(calls)),
        Grown(c.childs, AppendCalled(calls), KidsAdded(calls)),
        Grown(c.attrs, AttrsAdded(calls) != [], AttrsAdded(calls)),
        Grown(c.listeners, ListenersAdded(calls) != [], ListenersAdded(calls)))
  {
    RunId(c, calls);
    RunClassNames(c, calls);
    RunChilds(c, calls);
    RunAttrs(c, calls);
    RunListeners(c, calls);
  }
}
