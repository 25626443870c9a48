/** How `make` (and `mel` in the earlier revision) reads its two optional
    arguments. Nothing is validated: the decision is taken from the runtime
    type of the first argument alone, and the second is looked at only when
    the first is a non-array object. O is the options type of one revision,
    C its child handle type. */
module ArgDispatch {
  import opened DomTree
  import opened BuilderCalls

  /** The runtime shape of the first argument. */
  datatype Arg<O, C> =
    | Undefined                      // omitted
    | Null                           // `typeof null === 'object'`, and it is not an array
    | OptionsArg(options: O)         // any other non-array object
    | ListArg(items: seq<Item<C>>)   // an array of handles and strings
    | StringArg(s: string)
    | OtherArg                       // a number, a boolean, a function: none of the cases

  /** The second argument, as the declared signatures allow it: omitted (or
      null), an array of handles and strings, or a string. */
  datatype ChildArg<C> = NoChildren | ChildList(items: seq<Item<C>>) | ChildString(s: string)

  /** The values of make's local variables `options` and `childs` once the
      arguments are classified. A null first argument leaves `options` null,
      which is falsy, so it is recorded as None. */
  datatype Dispatched<O, C> = Dispatched(options: Option<O>, childs: ChildArg<C>)

  /** JavaScript truthiness of the second argument: an array always, a string
      unless it is empty. */
  predicate Truthy<C>(c: ChildArg<C>)
  {
    c.ChildList? || (c.ChildString? && c.s != "")
  }

  function Dispatch<O, C>(arg1: Arg<O, C>, arg2: ChildArg<C>): Dispatched<O, C>
  {
    match arg1
    case ListArg(items) => Dispatched(None, ChildList(items))
    case OptionsArg(o) => Dispatched(Some(o), if Truthy(arg2) then arg2 else NoChildren)
    case Null => Dispatched(None, if Truthy(arg2) then arg2 else NoChildren)
    case StringArg(s) => Dispatched(None, ChildString(s))
    case Undefined => Dispatched(None, NoChildren)
    case OtherArg => Dispatched(None, NoChildren)
  }

  /** What `if (childs)` followed by `append(childs)` or `append(...childs)` passes to
      append: None when append is not called at all. An array is always
      truthy, even an empty one; an empty string is not. */
  function AppendArgs<C>(childs: ChildArg<C>): (r: Option<seq<Item<C>>>)
    ensures r.Some? <==> Truthy(childs)
    ensures childs.ChildString? && r.Some? ==> r.value == [StringItem(childs.s)]
    ensures childs.ChildList? ==> r == Some(childs.items)
  {
    match childs
    case NoChildren => None
    case ChildList(items) => Some(items)
    case ChildString(s) => if s == "" then None else Some([StringItem(s)])
  }

  /** What a call finally does: the options it loads (if any) and the items
      it appends (None when append is not called). */
  datatype Effect<O, C> = Effect(loaded: Option<O>, appended: Option<seq<Item<C>>>)

  function Outcome<O, C>(d: Dispatched<O, C>): Effect<O, C>
  {
    Effect(d.options, AppendArgs(d.childs))
  }

  /** The four call shapes the declared overloads allow: no extra argument,
      options (possibly null), children, or options and children. */
  datatype Overload<O, C> =
    | Bare
    | WithOptions(maybeOptions: Option<O>)
    | WithChildren(childs: ChildArg<C>)
    | WithBoth(options: O, childs: ChildArg<C>)

  /** The two arguments of one call. */
  datatype Args<O, C> = Args(arg1: Arg<O, C>, arg2: ChildArg<C>)

  /** The arguments a caller passes for one overload. */
  function Encode<O, C>(f: Overload<O, C>): Args<O, C>
  {
    match f
    case Bare => Args(Undefined, NoChildren)
    case WithOptions(o) => Args(if o.Some? then OptionsArg(o.value) else Null, NoChildren)
    case WithChildren(c) =>
      Args(match c
           case NoChildren => Undefined
           case ChildList(items) => ListArg(items)
           case ChildString(s) => StringArg(s), NoChildren)
    case WithBoth(o, c) => Args(OptionsArg(o), c)
  }

  /** What each overload is meant to do. */
  function Intended<O, C>(f: Overload<O, C>): Effect<O, C>
  {
    match f
    case Bare => Effect(None, None)
    case WithOptions(o) => Effect(o, None)
    case WithChildren(c) => Effect(None, AppendArgs(c))
    case WithBoth(o, c) => Effect(Some(o), AppendArgs(c))
  }

  /** The runtime classification recovers, for every overload, exactly the
      options and children its caller passed: arrays and strings are children,
      a non-array object is options, and options are followed by children
      only through the second argument. */
  lemma DispatchRecoversOverload<O, C>(f: Overload<O, C>)
    ensures Outcome(Dispatch(Encode(f).arg1, Encode(f).arg2)) == Intended(f)
  {
  }

  /** When the first argument is not an object (an array aside) the second
      argument is never looked at, and anything other than an array, an
      object or a string changes nothing. */
  lemma SecondArgumentIgnored<O, C>(arg1: Arg<O, C>, arg2: ChildArg<C>, other: ChildArg<C>)
    requires !arg1.OptionsArg? && !arg1.Null?
    ensures Dispatch(arg1, arg2) == Dispatch(arg1, other)
    ensures arg1.Undefined? || arg1.OtherArg? ==> Outcome(Dispatch(arg1, arg2)) == Effect(None, None)
  {
  }
}
