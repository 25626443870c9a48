# DOM builder handles, modelled in Dafny

DomBuilder is a small TypeScript library for building browser DOM trees in a
fluent style. `el('div', {id: 'x', class: 'y'}, ['text', child])` returns an
element handle. Builder methods such as `id`, `class`, `attr`, `on`, `once`
and `append` record the configuration in the handle's private fields and
return the handle. `get()` then materialises the handle as a real DOM node.
Fragment and text handles work the same way.

This project models that configuration state and the rules that fill it and
read it back. Three revisions of the code are covered:

- `src/dom-builder.ts` is the current revision. It is modelled by module
  `DomBuilder`, with its options object in `DomOptions`.
- `dom-builder.js` is the compiled form of the current revision, and behaves
  the same way. The same `DomBuilder` and `DomOptions` members model it; the
  table below gives its lines after "compiled form at".
- `dom-builder.ts` is the earlier revision. It is modelled by module
  `LegacyDomBuilder`. Its options object is in `LegacyOptions`, and its
  self-removing `once` wrapper in `LegacyEvents`.

Shared modules:

- `DomTree` is the abstract output of `get()`. A `Node` is a text node, a
  fragment, or an element with a tag, an id, classes, children, attributes
  and listener registrations. `get()` issues a script of DOM calls (`SetId`,
  `AddClasses`, `AppendChild`, `SetAttribute`, `AddEventListener`), and
  `Replay` plays that script on a fresh node.
- `BuilderCalls` models the fields of an element handle as a `Config`
  snapshot.
  - The id is `None` until it is set.
  - The class, child, attribute and listener arrays are `None` until they
    are first used, because the source creates them lazily.
  - Each builder method is one `Call`; `Step` is its effect, and `Run`
    replays a chain of calls.
  - `RunFields` states what any chain of calls does to each field: the last
    id wins, and everything else accumulates in call order.
- `ArgDispatch` is the runtime argument classification shared by `make`
  (current revision) and `mel` (earlier revision).

Handles are Dafny classes whose methods change their fields in place. Each
builder method's contract gives the new state as `Step` of the old state.

Children are held by reference. A child configured after it was appended is
therefore materialised in its final state. A ghost footprint `Repr` and
`Valid()` keep the child graph acyclic, and `get()` returns, beside the
node, the list of DOM calls it issued: that list is proved to be exactly
the script, issued phase by phase, and the node exactly its replay. Setting a field of an appended child
leaves its footprint alone, so the parent stays valid. When an appended
child gains children of its own, its footprint grows. The parent's
footprint is then stale, and the ghost method `Reframe` rebuilds it from
the children's current footprints, bottom up. `NestedAppend` walks through
this case.

Event dispatch in the earlier revision is abstracted by `LegacyEvents.Fire`:
the registrations of the dispatched type are called in registration order,
and a self-removing wrapper takes itself off first. On that abstraction, a
callback stored by `once`, and not also bound with `on` for the same type,
is proved to run on the first event of its type (once per `once` record),
and on no event before or after it.

## Model

| member | source | states |
|---|---|---|
| DomBuilder.DomText.Get | src/dom-builder.ts:16-19 | a text handle materialises as a text node holding its text; compiled form at dom-builder.js:9-12 |
| DomBuilder.DomFragment.constructor | src/dom-builder.ts:22-23 | a new fragment handle has no children |
| DomBuilder.DomFragment.Append | src/dom-builder.ts:25-33 | the old children are kept as a prefix; one child per argument follows, in argument order; a handle argument is stored as that same handle, and a string becomes a fresh text handle holding it; the child graph stays acyclic; compiled form at dom-builder.js:18-26 |
| DomBuilder.DomFragment.Get | src/dom-builder.ts:35-41 | the calls issued on the new fragment are exactly one appendChild per child, in order, of that child's own get(), and the result is their replay; compiled form at dom-builder.js:27-33 |
| DomBuilder.DomFragment.Reframe | src/dom-builder.ts:35-41 | when every child is still valid and none reaches back to the fragment, the footprint is rebuilt from the children's current footprints; the fragment is valid again and its children are unchanged, so get() can recurse into children that gained children of their own |
| DomBuilder.FragmentMaterialised | src/dom-builder.ts:35-41 | a fragment materialises as a fragment node holding exactly its children's materialisations, in append order |
| DomBuilder.GetChild | src/dom-builder.ts:38 | `n.get()` on a child dispatches to the text, fragment or element get() |
| DomBuilder.DomElement.constructor | src/dom-builder.ts:66-68 | a new element handle has the given tag and every field undefined |
| DomBuilder.DomElement.Anchor | src/dom-builder.ts:199-202 | DomAnchor is an element handle with tag 'a' and every field undefined |
| DomBuilder.DomElement.Image | src/dom-builder.ts:209-212 | DomImage is an element handle with tag 'img' and every field undefined |
| DomBuilder.DomElement.Id | src/dom-builder.ts:153-156 | the id becomes the argument, replacing any earlier one; all other fields are unchanged; the handle itself is returned; compiled form at dom-builder.js:122-125 |
| DomBuilder.DomElement.Class | src/dom-builder.ts:165-168 | the class list is created if needed and extended by the names, in order and with duplicates kept; nothing else changes; compiled form at dom-builder.js:133-136 |
| DomBuilder.DomElement.Attr | src/dom-builder.ts:178-181 | exactly one `{name, value}` pair is appended to the attribute list; nothing else changes; compiled form at dom-builder.js:145-148 |
| DomBuilder.DomElement.AddListener | src/dom-builder.ts:191-196 | exactly one `{type, cb, options}` record is appended to the listener list; nothing else changes; compiled form at dom-builder.js:155-160 |
| DomBuilder.DomElement.On | src/dom-builder.ts:183-185 | exactly one record with the given type and callback and `{once: false}` is appended; compiled form at dom-builder.js:149-151 |
| DomBuilder.DomElement.Once | src/dom-builder.ts:187-189 | exactly one record with the given type and callback and `{once: true}` is appended; compiled form at dom-builder.js:152-154 |
| DomBuilder.DomElement.Href | src/dom-builder.ts:204-206 | on an anchor, the same effect as `attr('href', value)`; compiled form at dom-builder.js:166-168 |
| DomBuilder.DomElement.Src | src/dom-builder.ts:214-216 | on an image, the same effect as `attr('src', value)`; compiled form at dom-builder.js:174-176 |
| DomBuilder.DomElement.Alt | src/dom-builder.ts:218-220 | on an image, the same effect as `attr('alt', value)`; compiled form at dom-builder.js:177-179 |
| DomBuilder.DomElement.LoadOptions | src/dom-builder.ts:70-111 | the new fields are those left by the option calls made in order: id, classes, attributes, `on` listeners, `once` listeners (see LoadOptionsEffect); compiled form at dom-builder.js:39-83 |
| DomBuilder.DomElement.SetAttrs | src/dom-builder.ts:81-85 | the `attrs` loop makes one `attr` call per pair, in key order |
| DomBuilder.DomElement.Bind | src/dom-builder.ts:86-109 | the `on` and `once` loops make, event type by event type, the listener calls of each binding |
| DomBuilder.DomElement.BindOne | src/dom-builder.ts:89-95 | an array binding adds one listener per callback in array order; a single callback adds one listener |
| DomBuilder.DomElement.Listen | src/dom-builder.ts:86-109 | one listener record is appended, with `{once: false}` in the `on` loop and `{once: true}` in the `once` loop; nothing else changes |
| DomBuilder.DomElement.BindEach | src/dom-builder.ts:90-92 | one `on` (or `once`) call per callback of an array, in order |
| DomBuilder.DomElement.Append | src/dom-builder.ts:113-122 | the child list is created if needed; the old children are kept; one child per argument follows, in order, with strings wrapped in fresh text handles; nothing but the child list changes; compiled form at dom-builder.js:84-93 |
| DomBuilder.DomElement.PushChild | src/dom-builder.ts:119 | pushing one child extends the child list by it and the footprint by the child's |
| DomBuilder.DomElement.Reframe | src/dom-builder.ts:132-134 | when every child is still valid and none reaches back to the element, the footprint is rebuilt from the children's current footprints; the element is valid again and its configuration is unchanged |
| DomBuilder.DomElement.Get | src/dom-builder.ts:124-144 | the calls issued are exactly the script (id when defined, classes when the list exists, children, attributes, listeners), never returning to an earlier phase, and the result is their replay on a fresh element; the handle is not modified (no modifies clause); compiled form at dom-builder.js:94-114 |
| DomBuilder.AppendKids | src/dom-builder.ts:132-134 | the calls issued are one appendChild per child, in order, of the child's get(), and the result is their replay |
| DomBuilder.SetAttributes | src/dom-builder.ts:135-137 | the calls issued are one setAttribute per stored pair, in order, and the result is their replay |
| DomBuilder.AddListeners | src/dom-builder.ts:138-142 | the calls issued are one addEventListener per stored record, in order, and the result is their replay |
| DomBuilder.StartElement | src/dom-builder.ts:125-131 | the calls issued are the id (when stored) then the classes (when the list exists); the fresh element carries those and nothing else |
| DomBuilder.ElementMaterialised | src/dom-builder.ts:124-144 | an element materialises with exactly its tag, its id if one was set (an empty id included), its classes, its children's materialisations in order, its attributes and its listeners in the order they were added |
| DomBuilder.Make | src/dom-builder.ts:240-272 | options, if classified as such, are loaded first; the children, if any, are then appended; the handle is returned; compiled form at dom-builder.js:185-214 |
| DomBuilder.LoadGiven | src/dom-builder.ts:259-261 | the option calls are made only when options were classified, and they leave the handle's footprint unchanged |
| DomBuilder.AppendGiven | src/dom-builder.ts:263-269 | the children, when given, are appended in order, a string being one text child |
| DomBuilder.El | src/dom-builder.ts:304-307 | a fresh element handle with the given tag, configured by make from the unset state; compiled form at dom-builder.js:220-223 |
| DomBuilder.El2 | src/dom-builder.ts:282-286 | 'a' yields a fresh DomAnchor and 'img' a fresh DomImage, configured by make; compiled form at dom-builder.js:215-218 |
| DomBuilder.NewTagged | src/dom-builder.ts:223-226 | the tag map sends 'a' to DomAnchor and 'img' to DomImage |
| DomBuilder.Text | src/dom-builder.ts:309-312 | a fresh text handle holding the value; compiled form at dom-builder.js:225-228 |
| DomBuilder.Fragment | src/dom-builder.ts:314-318 | a fresh fragment whose children are the coerced arguments, or none when no array is given; compiled form at dom-builder.js:230-234 |
| DomBuilder.NestedAppend | src/dom-builder.ts:113-144 | a list appended to a page before the list gets its item still materialises with the item: get() on the page returns div, holding ul, holding li |
| DomOptions.BindingCallsListen | src/dom-builder.ts:86-97 | every call is a listener call carrying the given `once` flag |
| DomOptions.OptionIds | src/dom-builder.ts:71-73 | the ids loadOptions passes to `id` are the option's id when non-empty and none otherwise |
| DomOptions.OptionClasses | src/dom-builder.ts:74-80 | `class` is called exactly when the option is an array or a non-empty string, with the names in order |
| DomOptions.ClassOptionCollect | src/dom-builder.ts:74-80 | the class option alone makes one `class` call exactly when it is an array or a non-empty string: one name for the string, the whole array otherwise |
| DomOptions.OptionKids | src/dom-builder.ts:70-111 | loadOptions never appends children |
| DomOptions.OptionAttrs | src/dom-builder.ts:81-85 | the attributes added are exactly the option's pairs, in key order |
| DomOptions.OptionListeners | src/dom-builder.ts:86-109 | the listeners added are the `on` records (`once: false`) followed by the `once` records (`once: true`) |
| DomOptions.OptionCallRank | src/dom-builder.ts:70-111 | each option call falls in its group, by position |
| DomOptions.OptionCallsOrder | src/dom-builder.ts:70-111 | loadOptions never goes back to an earlier group: id, classes, attributes, `on`, `once` |
| DomOptions.RunOptionCalls | src/dom-builder.ts:70-111 | running the option calls is running the five groups in turn |
| DomOptions.LoadOptionsEffect | src/dom-builder.ts:70-111 | the fields after loadOptions, stated without calls: the id only if non-empty, the classes for a non-empty string or any array, the attributes, then the `on` and `once` records; children untouched; compiled form at dom-builder.js:39-83 |
| BuilderCalls.RunConcat | src/dom-builder.ts:153-196 | making calls a + b is making a, then b |
| BuilderCalls.RunId | src/dom-builder.ts:153-156 | after any chain, the id is the last one set, or the old one if `id` was never called |
| BuilderCalls.RunClassNames | src/dom-builder.ts:165-168 | after any chain, the class list is the old one followed by every name passed, in call order with duplicates; created by any `class` call, even an empty one |
| BuilderCalls.RunChilds | src/dom-builder.ts:113-122 | after any chain, the child list is the old one followed by every child appended, in call order |
| BuilderCalls.RunAttrs | src/dom-builder.ts:178-181 | after any chain, the attribute list is the old one followed by every pair added, in call order |
| BuilderCalls.RunListeners | src/dom-builder.ts:191-196 | after any chain, the listener list is the old one followed by every record added, in call order |
| BuilderCalls.RunFields | src/dom-builder.ts:153-196 | the whole configuration after any chain of builder calls: last id wins, everything else accumulates, untouched fields are unchanged |
| BuilderCalls.CollectConcat | src/dom-builder.ts:153-196 | what calls a + b contribute to a field is what a contributes followed by what b contributes |
| ArgDispatch.AppendArgs | src/dom-builder.ts:263-269 | append is called exactly for an array (even an empty one) or a non-empty string; a string becomes one argument; an array is spread |
| ArgDispatch.DispatchRecoversOverload | src/dom-builder.ts:246-258 | for every declared call shape, the classification recovers exactly the options and children the caller passed |
| ArgDispatch.SecondArgumentIgnored | src/dom-builder.ts:246-258 | unless the first argument is a non-array object or null, the second one is ignored; an argument of any other type changes nothing |
| DomTree.ReplayScript | src/dom-builder.ts:124-144 | replaying an element's script yields an element node carrying exactly the id, classes, children, attributes and listeners |
| DomTree.ReplayScriptParts | src/dom-builder.ts:124-144 | the script is the head, the appends, the attribute calls and the listener calls, issued one part after another |
| DomTree.ScriptPhases | src/dom-builder.ts:124-144 | the script, which both revisions' element get() issue exactly, runs phase by phase: id, classes, children, attributes, listeners |
| DomTree.ReplayFragment | src/dom-builder.ts:35-41 | appending the materialised children to an empty fragment gives a fragment of exactly those children |
| DomTree.ReplayConcat | src/dom-builder.ts:124-144 | replaying a + b is replaying a, then b |
| LegacyDomBuilder.DomText.Get | dom-builder.ts:16-19 | a text handle materialises as a text node holding its text |
| LegacyDomBuilder.DomFragment.constructor | dom-builder.ts:22-23 | a new fragment handle has no children |
| LegacyDomBuilder.DomFragment.Append | dom-builder.ts:25-33 | old children kept; one child per argument, in order, strings wrapped in fresh text handles |
| LegacyDomBuilder.DomFragment.Get | dom-builder.ts:35-41 | the calls issued on the new fragment are exactly one appendChild per child, in order, of the child's get(), and the result is their replay |
| LegacyDomBuilder.DomFragment.Reframe | dom-builder.ts:35-41 | when every child is still valid and none reaches back to the fragment, the footprint is rebuilt from the children's current footprints; valid again, children unchanged |
| LegacyDomBuilder.LegacyFragmentMaterialised | dom-builder.ts:35-41 | a fragment materialises as exactly its children's materialisations, in append order |
| LegacyDomBuilder.LegacyGetChild | dom-builder.ts:38 | `n.get()` on a child dispatches to the text, fragment or element get() |
| LegacyDomBuilder.DomElement.constructor | dom-builder.ts:58-60 | a new element handle has the given tag and every field undefined |
| LegacyDomBuilder.DomElement.Anchor | dom-builder.ts:167-170 | DomAnchor has tag 'a' |
| LegacyDomBuilder.DomElement.Image | dom-builder.ts:177-180 | DomImage has tag 'img' |
| LegacyDomBuilder.DomElement.Id | dom-builder.ts:126-129 | the id is replaced; nothing else changes |
| LegacyDomBuilder.DomElement.Class | dom-builder.ts:138-141 | class names accumulate in call order with duplicates; nothing else changes |
| LegacyDomBuilder.DomElement.Attr | dom-builder.ts:151-154 | one pair is appended; nothing else changes |
| LegacyDomBuilder.DomElement.On | dom-builder.ts:156-159 | exactly one record `{type, cb, once: false}` is appended; nothing else changes |
| LegacyDomBuilder.DomElement.Once | dom-builder.ts:161-164 | exactly one record `{type, cb, once: true}` is appended; nothing else changes |
| LegacyDomBuilder.DomElement.Href | dom-builder.ts:172-174 | same effect as `attr('href', value)` |
| LegacyDomBuilder.DomElement.Src | dom-builder.ts:182-184 | same effect as `attr('src', value)` |
| LegacyDomBuilder.DomElement.Alt | dom-builder.ts:186-188 | same effect as `attr('alt', value)` |
| LegacyDomBuilder.DomElement.LoadOptions | dom-builder.ts:62-75 | the new fields are those left by the option calls: id, classes, attributes (see LegacyOptions.LegacyLoadOptionsEffect) |
| LegacyDomBuilder.DomElement.SetAttrs | dom-builder.ts:69-73 | one `attr` call per pair, in key order |
| LegacyDomBuilder.DomElement.Append | dom-builder.ts:77-86 | the child list is created if needed; old children kept; one child per argument in order, strings wrapped |
| LegacyDomBuilder.DomElement.PushChild | dom-builder.ts:84 | pushing one child extends the list by it |
| LegacyDomBuilder.DomElement.Reframe | dom-builder.ts:96-98 | when every child is still valid and none reaches back to the element, the footprint is rebuilt from the children's current footprints; valid again, configuration unchanged |
| LegacyDomBuilder.DomElement.Get | dom-builder.ts:88-116 | the calls issued are exactly the script (id when defined, classes when the list exists, children, attributes, then one registration per record), never returning to an earlier phase, and the result is their replay on a fresh element; the handle is not modified |
| LegacyDomBuilder.LegacyAppendKids | dom-builder.ts:96-98 | the calls issued are one appendChild per child, in order, of the child's get(), and the result is their replay |
| LegacyDomBuilder.LegacySetAttributes | dom-builder.ts:99-101 | the calls issued are one setAttribute per pair, in order, and the result is their replay |
| LegacyDomBuilder.LegacyAddListeners | dom-builder.ts:102-113 | the calls issued are one addEventListener per record, in order, registering a self-removing wrapper for a `once` record and the callback itself otherwise; the result is their replay |
| LegacyDomBuilder.LegacyStartElement | dom-builder.ts:89-95 | the calls issued are the id (when stored) then the classes (when the list exists); the fresh element carries those and nothing else |
| LegacyDomBuilder.LegacyElementMaterialised | dom-builder.ts:88-116 | an element materialises with exactly its tag, id, classes, children, attributes, and the registrations of its records in order |
| LegacyDomBuilder.MaterialisedInvocations | dom-builder.ts:102-113 | on the materialised element, how often a callback runs over a series of events: once per matching event for each `on` record, and once in all for each `once` record when an event of its type occurs |
| LegacyDomBuilder.MaterialisedOnceFirst | dom-builder.ts:102-113 | on the materialised element, a `once` callback (not also bound with `on`) runs on no event before the first of its type, once per `once` record on that event, and on no event after it |
| LegacyDomBuilder.Mel | dom-builder.ts:209-243 | options first, then children, with the same argument classification as the current revision |
| LegacyDomBuilder.LegacyLoadGiven | dom-builder.ts:230-232 | the option calls are made only when options were classified |
| LegacyDomBuilder.LegacyAppendGiven | dom-builder.ts:234-240 | the children, when given, are appended in order, a string being one text child |
| LegacyDomBuilder.LegacyEl | dom-builder.ts:270-277 | a fresh element handle configured by mel |
| LegacyDomBuilder.LegacyEl2 | dom-builder.ts:253-260 | 'a' yields DomAnchor, 'img' DomImage, configured by mel |
| LegacyDomBuilder.LegacyNewTagged | dom-builder.ts:191-194 | the tag map sends 'a' to DomAnchor and 'img' to DomImage |
| LegacyDomBuilder.LegacyText | dom-builder.ts:279-282 | a fresh text handle holding the value |
| LegacyDomBuilder.LegacyFragment | dom-builder.ts:284-288 | the default null yields an empty fragment; an array is coerced and appended |
| LegacyDomBuilder.LegacyNestedAppend | dom-builder.ts:77-116 | a list appended to a page before the list gets its item still materialises with the item: get() on the page returns div, holding ul, holding li |
| LegacyOptions.LegacyOptionIds | dom-builder.ts:63-65 | the id is passed only when non-empty |
| LegacyOptions.LegacyOptionClasses | dom-builder.ts:66-68 | `class` is called exactly when an array is given, with its names in order |
| LegacyOptions.LegacyClassOptionCollect | dom-builder.ts:66-68 | the class option alone makes one `class` call, with the whole array, exactly when an array is given |
| LegacyOptions.LegacyOptionAttrs | dom-builder.ts:69-73 | exactly the given pairs are added, in key order |
| LegacyOptions.OptionKidsListeners | dom-builder.ts:62-75 | loadOptions never appends children and never adds listeners |
| LegacyOptions.LegacyRunOptionCalls | dom-builder.ts:62-75 | the option calls are the id, class and attribute groups in turn |
| LegacyOptions.LegacyLoadOptionsEffect | dom-builder.ts:62-75 | the fields after loadOptions: the id only if non-empty, the class array if given, the attributes; children and listeners untouched |
| LegacyEvents.FireLeft | dom-builder.ts:105-108 | one dispatch removes exactly the self-removing registrations of its type and keeps every other one |
| LegacyEvents.FireInvoked | dom-builder.ts:105-108 | one dispatch calls each callback once per registration of it under the dispatched type, and no callback of another type |
| LegacyEvents.DispatchCount | dom-builder.ts:104-111 | over any series of dispatches, a callback runs once per event of its type for each direct registration and once in all for each self-removing one |
| LegacyEvents.RegisteredCounts | dom-builder.ts:104-111 | get() makes one direct registration per `on` record and one self-removing registration per `once` record |
| LegacyEvents.ListenerInvocations | dom-builder.ts:104-111 | for the stored records: an `on` callback runs on every event of its type; a `once` callback (not also bound with `on`) runs at most once per `once` record |
| LegacyEvents.OnceRunsOnFirstEvent | dom-builder.ts:104-108 | over the registrations get() makes, a `once` callback (not also bound with `on`) runs on no event before the first of its type, once per `once` record on that event, and never after it |

## Left out

- The real DOM behind `get()` is not part of this model: `createElement`,
  `createTextNode`, `createDocumentFragment`, the duplicate-removing
  `classList.add`, `setAttribute` overwriting an earlier value,
  `appendChild` moving a node that already has a parent, and errors for
  invalid tag or attribute names. `get()` produces an abstract `Node` by
  replaying the calls it issues.
- Browser event dispatch is not modelled for the current revision. It
  passes `{once}` to `addEventListener`, and the native `once` handling is
  not modelled.
- LegacyEvents.Fire abstracts dispatch as calling the registrations of one
  type in order. The DOM's discarding of a second identical (type,
  callback) registration is left out, so two `on` records with the same
  callback count twice here.
- The `this` and argument forwarding of the earlier revision's wrapper is
  left out: callbacks are opaque tokens, and a call is recorded as an
  `Invocation`.
- `dom-builder.d.ts` holds type declarations only; it is not part of this
  model.
- The TypeScript overload signatures and generic tag maps are compile-time
  typing only. The arguments are modelled by their runtime shape
  (`ArgDispatch.Arg`). Runtime values that the declared types exclude are
  not modelled, except as `OtherArg`, which changes nothing. Examples are a
  child array holding numbers, or a class option that is neither a string
  nor an array.
- JavaScript's `for…in` key order is not modelled. The `attrs`, `on` and
  `once` maps are ordered sequences of pairs, taken in that order.
- Cyclic child graphs are excluded. Appending a handle into itself or its
  own descendant would make `get()` recurse forever, so `append` requires
  the new children not to reach the handle (`Attachable`).
- DomBuilder.DomElement.Get, DomBuilder.DomFragment.Get,
  LegacyDomBuilder.DomElement.Get and LegacyDomBuilder.DomFragment.Get:
  require `Valid()`. Setting a field of an appended child keeps its
  ancestors valid. Appending to an appended child grows its footprint, and
  its ancestors must then be reframed with `Reframe`, child before parent,
  before any method is called on them (`get()`, a builder method, or
  `Reframe` on a further ancestor) and before they are appended anywhere.
  The source keeps no footprint and needs no such step.
- `appendChild` of a DocumentFragment moves the fragment's children into
  the parent and leaves the fragment empty. The model keeps a
  `FragmentNode` nested among the parent's children instead, so the
  flattening is not modelled.
- DomBuilder.El2: requires the tag to be 'a' or 'img', the only keys of
  the tag map. Another tag makes the source call `new undefined()`, which
  throws.
- LegacyDomBuilder.LegacyEl2: requires the tag to be 'a' or 'img', for the same
  reason.
- DomBuilder.DomElement.Href: requires an anchor handle; Src and Alt
  require an image handle. These are the subclasses that declare those
  methods.
- Subclassing is modelled as a `kind` field on one element class, because
  a class cannot extend another class here.
