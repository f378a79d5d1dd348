/** The shallow-reference rewriter of the OpenAPI document (app/spec/shallow.py).

    A schema node is a JSON object. The rewriter looks at five things only: its title, whether it
    has "properties", and which of the tests `type == "object"`, `type == "array"`, "oneOf",
    `type == "boolean"` it meets; everything else it copies. */
module SchemaExpansion {

  import opened Options

  datatype Kind =
    | Object
    | Array(items: Items)
    | OneOf(branches: seq<Schema>)
    | Boolean(default: Option<bool>, note: string)
    | Other(note: string)

  /** The "items" of an array node, when present. */
  datatype Items = NoItems | Items(schema: Schema)

  /** The "properties" of a node, when present. */
  datatype Props = NoProps | Props(list: seq<Property>)

  datatype Property = Property(name: string, schema: Schema)

  datatype Schema = Schema(title: Option<string>, kind: Kind, props: Props)

  type Table = map<string, Schema>

  const SHALLOW := "Shallow"
  const INCLUDE := "Include"

  /** What a nested include that would recurse is replaced by. */
  const DISABLED := Schema(None, Boolean(Some(false), "disabled to prevent infinite recursion"), NoProps)

  /** What `prop.get("items", {})` yields when there are no items. */
  const EMPTY_NODE := Schema(None, Other(""), NoProps)

  predicate EndsWith(s: string, suffix: string) {
    |suffix| <= |s| && s[|s| - |suffix|..] == suffix
  }

  predicate IsShallow(title: string) { EndsWith(title, SHALLOW) }

  predicate IsInclude(title: string) { EndsWith(title, INCLUDE) }

  function BaseTitle(title: string): string
    requires IsShallow(title)
  {
    title[..|title| - |SHALLOW|]
  }

  /** The component a titled object refers to, by its title or by its shallow title. */
  function Target(title: string): string {
    if IsShallow(title) then BaseTitle(title) else title
  }

  /** The components that are not titled by their own key. */
  function Mistitled(table: Table): set<string> { set k <- table | table[k].title != Some(k) }

  /** However often the suffix is stripped, the title names none of these. */
  predicate AvoidsTitle(title: string, names: set<string>) {
    title !in names && (IsShallow(title) ==> AvoidsTitle(BaseTitle(title), names))
  }

  /** No reference in the node names one of these. */
  predicate Avoids(node: Schema, names: set<string>)
    decreases node, 1
  {
    && (node.kind.Object? && node.title.Some? ==> AvoidsTitle(node.title.value, names))
    && AvoidsInside(node, names)
  }

  predicate AvoidsInside(node: Schema, names: set<string>)
    decreases node, 0
  {
    && (node.props.Props? ==> forall p <- node.props.list :: Avoids(p.schema, names))
    && (node.kind.Array? && node.kind.items.Items? ==> Avoids(node.kind.items.schema, names))
    && (node.kind.OneOf? ==> forall b <- node.kind.branches :: Avoids(b, names))
  }

  /** Every component that some reference names is titled by its own key. */
  predicate Grounded(table: Table) { forall k <- table :: AvoidsInside(table[k], Mistitled(table)) }

  function Names(stack: seq<string>): set<string> { set t <- stack }

  /** The stack once the node's own title is pushed. */
  function Push(stack: seq<string>, title: Option<string>): seq<string> {
    if title.Some? then stack + [title.value] else stack
  }

  predicate OnStack(title: Option<string>, stack: seq<string>) {
    title.Some? && title.value in stack
  }

  /** How many components can still be entered below this stack. */
  function Room(table: Table, stack: seq<string>): nat { |table.Keys - Names(stack)| }

  lemma RoomShrinks(table: Table, stack: seq<string>, title: string)
    ensures Room(table, stack + [title]) <= Room(table, stack)
    ensures title in table && title !in stack ==> Room(table, stack + [title]) < Room(table, stack)
  {
    var before, after := table.Keys - Names(stack), table.Keys - Names(stack + [title]);
    assert after == before - {title};
    if title in table && title !in stack {
      assert title in before;
    }
  }

  /** A cycle disables a nested include and drops anything else. */
  function Cut(stack: seq<string>): Option<Schema>
    requires stack != []
  {
    if IsInclude(stack[|stack| - 1]) then Some(DISABLED) else None
  }

  function ResolveSchema(table: Table, schema: Schema, stack: seq<string>): (r: Option<Schema>)
    requires Grounded(table) && AvoidsInside(schema, Mistitled(table))
    requires stack != [] || schema.title.Some?
    ensures r.Some? ==> AvoidsInside(r.value, Mistitled(table))
    ensures r.Some? ==> r.value == DISABLED || (r.value.title == schema.title && r.value.kind == schema.kind)
    decreases Room(table, Push(stack, schema.title)), if OnStack(schema.title, stack) then 0 else 2, schema, 0
  {
    if OnStack(schema.title, stack) then Cut(stack)
    else if schema.props.NoProps? then Some(schema)
    else
      var props := ResolveProperties(table, schema.props.list, Push(stack, schema.title));
      Some(schema.(props := Props(props)))
  }

  function ResolveProperties(table: Table, props: seq<Property>, stack: seq<string>): (r: seq<Property>)
    requires Grounded(table) && stack != [] && forall p <- props :: Avoids(p.schema, Mistitled(table))
    ensures forall p <- r :: Avoids(p.schema, Mistitled(table))
    decreases Room(table, stack), 2, props, 0
  {
    if props == [] then []
    else
      var rest := ResolveProperties(table, props[1..], stack);
      match ResolveProperty(table, props[0].schema, stack)
      case None => rest
      case Some(resolved) => [Property(props[0].name, resolved)] + rest
  }

  function ResolveBranches(table: Table, branches: seq<Schema>, stack: seq<string>): (r: seq<Schema>)
    requires Grounded(table) && stack != [] && forall b <- branches :: Avoids(b, Mistitled(table))
    ensures forall b <- r :: Avoids(b, Mistitled(table))
    decreases Room(table, stack), 2, branches, 0
  {
    if branches == [] then []
    else
      var rest := ResolveBranches(table, branches[1..], stack);
      if branches[0].kind.Boolean? then [branches[0]] + rest
      else match ResolveProperty(table, branches[0], stack)
        case Some(resolved) => [resolved] + rest
        case None => if IsInclude(stack[|stack| - 1]) then [DISABLED] + rest else rest
  }

  /** Entering a component that a reference names. */
  function Enter(table: Table, name: string, stack: seq<string>): (r: Option<Schema>)
    requires Grounded(table) && stack != [] && name in table && AvoidsTitle(name, Mistitled(table))
    ensures r.Some? ==> Avoids(r.value, Mistitled(table))
    decreases Room(table, stack), 1
  {
    EnterAvoids(table, name);
    RoomShrinks(table, stack, name);
    ResolveSchema(table, table[name], stack)
  }

  /** A component that a reference may name is titled by its key. */
  lemma EnterAvoids(table: Table, name: string)
    requires Grounded(table) && name in table && AvoidsTitle(name, Mistitled(table))
    ensures table[name].title == Some(name) && Avoids(table[name], Mistitled(table))
  {
    assert name !in Mistitled(table);
  }

  function ResolveObject(table: Table, prop: Schema, stack: seq<string>): (r: Option<Schema>)
    requires Grounded(table) && stack != [] && prop.kind.Object? && Avoids(prop, Mistitled(table))
    ensures r.Some? ==> Avoids(r.value, Mistitled(table))
    decreases Room(table, stack), 2, prop, 1
  {
    if prop.title.None? then ResolveSchema(table, prop, stack)
    else if IsShallow(prop.title.value) then
      var base := BaseTitle(prop.title.value);
      if base in stack then Cut(stack)
      else if base !in table then None
      else Enter(table, base, stack)
    else if prop.title.value in table then Enter(table, prop.title.value, stack)
    else
      RoomShrinks(table, stack, prop.title.value);
      ResolveSchema(table, prop, stack)
  }

  function ResolveProperty(table: Table, prop: Schema, stack: seq<string>): (r: Option<Schema>)
    requires Grounded(table) && stack != [] && Avoids(prop, Mistitled(table))
    ensures r.Some? ==> Avoids(r.value, Mistitled(table))
    decreases Room(table, stack), 2, prop, 2
  {
    assert AvoidsInside(prop, Mistitled(table));
    match prop.kind
    case Object => ResolveObject(table, prop, stack)
    case Array(NoItems) =>
      // the missing items read as {}, which resolves to itself
      var r := prop.(kind := Array(Items(EMPTY_NODE)));
      assert AvoidsInside(r, Mistitled(table));
      Some(r)
    case Array(Items(items)) =>
      (match ResolveProperty(table, items, stack)
       case None => None
       case Some(resolved) =>
         var r := prop.(kind := Array(Items(resolved)));
         assert AvoidsInside(r, Mistitled(table));
         Some(r))
    case OneOf(branches) =>
      var r := prop.(kind := OneOf(ResolveBranches(table, branches, stack)));
      assert AvoidsInside(r, Mistitled(table));
      Some(r)
    case Boolean(_, _) => Some(prop)
    case Other(_) => Some(prop)
  }

  // ---------------------------------------------------------------- hygiene of a table

  /** The irregular titles of a document: those that inline objects carry, the bases of shallow
      references that lead nowhere, the components of another kind than object that references name,
      and the bases that still end in the suffix. */
  datatype Vocabulary = Vocabulary(inlineTitles: set<string>, dangling: set<string>,
                                   otherKinds: set<string>, stacked: set<string>)

  /** A reference leads to an object component or is listed in the vocabulary. */
  predicate CleanReference(table: Table, voc: Vocabulary, title: string) {
    if IsShallow(title) then
      var base := BaseTitle(title);
      && (IsShallow(base) ==> base in voc.stacked)
      && (if base in table then CleanTarget(table, voc, base) else base in voc.dangling)
    else
      if title in table then CleanTarget(table, voc, title) else title in voc.inlineTitles
  }

  predicate CleanTarget(table: Table, voc: Vocabulary, name: string)
    requires name in table
  {
    table[name].kind.Object? || name in voc.otherKinds
  }

  predicate CleanNode(table: Table, voc: Vocabulary, node: Schema) {
    && Avoids(node, Mistitled(table))
    && (node.kind.Object? && node.title.Some? ==> CleanReference(table, voc, node.title.value))
    && (node.props.Props? ==> forall p <- node.props.list :: CleanNode(table, voc, p.schema))
    && (node.kind.Array? && node.kind.items.Items? ==> CleanNode(table, voc, node.kind.items.schema))
    && (node.kind.OneOf? ==> forall b <- node.kind.branches :: CleanNode(table, voc, b))
  }

  predicate CleanProps(table: Table, voc: Vocabulary, props: seq<Property>) {
    forall p <- props :: CleanNode(table, voc, p.schema)
  }

  predicate CleanBranches(table: Table, voc: Vocabulary, branches: seq<Schema>) {
    forall b <- branches :: CleanNode(table, voc, b)
  }

  predicate Hygienic(table: Table, voc: Vocabulary) {
    && Grounded(table)
    && forall k <- table :: table[k].props.Props? ==> CleanProps(table, voc, table[k].props.list)
  }

  /** References lead to objects, and never to a title that still ends in the suffix. */
  predicate Plain(voc: Vocabulary) {
    (forall n <- voc.otherKinds :: IsShallow(n)) && (forall n <- voc.stacked :: !IsShallow(n))
  }

  /** No shallow reference that leads nowhere has an inline object's title as its base. */
  predicate Unambiguous(voc: Vocabulary) {
    forall t <- voc.inlineTitles :: t in voc.dangling ==> IsShallow(t)
  }

  // ---------------------------------------------------------------- re-expansion

  /** What the loop stores for a component when it is reached with the original table. */
  function Expansion(table: Table, name: string): (r: Schema)
    requires Grounded(table) && name in table && name !in Mistitled(table)
    ensures r.title == table[name].title && r.kind == table[name].kind && AvoidsInside(r, Mistitled(table))
  {
    ResolveSchema(table, table[name], []).value
  }

  /** A table in the middle of the loop: each entry is the original one or its expansion. */
  ghost predicate Partial(table: Table, current: Table) {
    && Grounded(table) && Grounded(current)
    && current.Keys == table.Keys && Mistitled(current) == Mistitled(table)
    && forall k <- table :: current[k] == table[k] || (k !in Mistitled(table) && current[k] == Expansion(table, k))
  }

  /** The stacks on which an expanded node is met again: larger, with the same innermost title. */
  predicate Deeper(outer: seq<string>, inner: seq<string>) {
    && outer != [] && inner != []
    && outer[|outer| - 1] == inner[|inner| - 1]
    && forall t <- inner :: t in outer
  }

  predicate KnownStack(table: Table, voc: Vocabulary, stack: seq<string>) {
    stack != [] && forall t <- stack :: t in table || t in voc.inlineTitles
  }

  ghost predicate Context(table: Table, current: Table, voc: Vocabulary, stack: seq<string>) {
    && Hygienic(table, voc) && Plain(voc) && Unambiguous(voc) && Partial(table, current)
    && KnownStack(table, voc, stack)
  }

  /** Expanding again what was expanded under a smaller stack. */
  function Again(current: Table, first: Option<Schema>, stack: seq<string>): Option<Schema>
    requires Grounded(current) && stack != [] && (first.Some? ==> Avoids(first.value, Mistitled(current)))
  {
    if first.None? then None else ResolveProperty(current, first.value, stack)
  }

  lemma PushDeeper(outer: seq<string>, inner: seq<string>, title: Option<string>)
    requires Deeper(outer, inner)
    ensures Deeper(Push(outer, title), Push(inner, title))
  {
  }

  /** The key step: entering a component through the half-overwritten table gives what entering it
      through the original table gives, whether or not the component was overwritten. */
  lemma {:induction false} EnterComponent(table: Table, current: Table, voc: Vocabulary, name: string,
                                          stack: seq<string>)
    requires Context(table, current, voc, stack) && name in table && name !in Mistitled(table)
    ensures ResolveSchema(current, current[name], stack) == ResolveSchema(table, table[name], stack)
    decreases Room(table, Push(stack, Some(name))), name !in stack, table[name], 0
  {
    if name !in stack {
      RoomShrinks(table, stack, name);
      var inside := stack + [name];
      if table[name].props.Props? {
        var props := table[name].props.list;
        if current[name] == table[name] {
          SameProperties(table, current, voc, props, inside);
        } else {
          assert Push([], table[name].title) == [name];
          assert current[name].props == Props(ResolveProperties(table, props, [name]));
          AgainProperties(table, current, voc, props, inside, [name]);
        }
      }
    }
  }

  predicate RefersTo(table: Table, prop: Schema) {
    prop.kind.Object? && prop.title.Some? && Target(prop.title.value) in table
  }

  predicate Inline(table: Table, prop: Schema) {
    prop.kind.Object? && (prop.title.Some? ==> !IsShallow(prop.title.value) && prop.title.value !in table)
  }

  lemma ResolveReference(table: Table, prop: Schema, stack: seq<string>)
    requires Grounded(table) && stack != [] && RefersTo(table, prop) && Avoids(prop, Mistitled(table))
    ensures Target(prop.title.value) !in Mistitled(table)
    ensures table[Target(prop.title.value)].title == Some(Target(prop.title.value))
    ensures ResolveProperty(table, prop, stack) == ResolveSchema(table, table[Target(prop.title.value)], stack)
  {
    var target := Target(prop.title.value);
    assert AvoidsTitle(target, Mistitled(table));
    assert ResolveProperty(table, prop, stack) == ResolveObject(table, prop, stack);
    if target !in stack { assert ResolveObject(table, prop, stack) == Enter(table, target, stack); }
  }

  lemma PlainReference(table: Table, voc: Vocabulary, title: string)
    requires Plain(voc) && CleanReference(table, voc, title)
    ensures !IsShallow(Target(title))
    ensures Target(title) in table ==> table[Target(title)].kind.Object?
  {
  }

  lemma ResolveInline(table: Table, prop: Schema, stack: seq<string>)
    requires Grounded(table) && stack != [] && Inline(table, prop) && Avoids(prop, Mistitled(table))
    ensures ResolveProperty(table, prop, stack) == ResolveSchema(table, prop, stack)
  {
  }

  lemma {:induction false} SameReference(table: Table, current: Table, voc: Vocabulary, prop: Schema,
                                         stack: seq<string>)
    requires Context(table, current, voc, stack) && CleanNode(table, voc, prop) && RefersTo(table, prop)
    ensures ResolveProperty(current, prop, stack) == ResolveProperty(table, prop, stack)
    decreases Room(table, stack), true, prop, 0
  {
    ResolveReference(table, prop, stack);
    ResolveReference(current, prop, stack);
    RoomShrinks(table, stack, Target(prop.title.value));
    EnterComponent(table, current, voc, Target(prop.title.value), stack);
  }

  lemma {:induction false} SameInline(table: Table, current: Table, voc: Vocabulary, prop: Schema,
                                      stack: seq<string>)
    requires Context(table, current, voc, stack) && CleanNode(table, voc, prop) && Inline(table, prop)
    ensures ResolveProperty(current, prop, stack) == ResolveProperty(table, prop, stack)
    decreases Room(table, stack), true, prop, 0
  {
    ResolveInline(table, prop, stack);
    ResolveInline(current, prop, stack);
    if prop.props.Props? && !OnStack(prop.title, stack) {
      if prop.title.Some? { RoomShrinks(table, stack, prop.title.value); }
      SameProperties(table, current, voc, prop.props.list, Push(stack, prop.title));
    }
  }

  lemma {:induction false} SameProperty(table: Table, current: Table, voc: Vocabulary, prop: Schema,
                                        stack: seq<string>)
    requires Context(table, current, voc, stack) && CleanNode(table, voc, prop)
    ensures ResolveProperty(current, prop, stack) == ResolveProperty(table, prop, stack)
    decreases Room(table, stack), true, prop, 1
  {
    match prop.kind
    case Object =>
      if RefersTo(table, prop) {
        SameReference(table, current, voc, prop, stack);
      } else if Inline(table, prop) {
        SameInline(table, current, voc, prop, stack);
      }
    case Array(NoItems) =>
    case Array(Items(items)) => SameProperty(table, current, voc, items, stack);
    case OneOf(branches) => SameBranches(table, current, voc, branches, stack);
    case Boolean(_, _) =>
    case Other(_) =>
  }

  lemma {:induction false} SameProperties(table: Table, current: Table, voc: Vocabulary,
                                          props: seq<Property>, stack: seq<string>)
    requires Context(table, current, voc, stack) && CleanProps(table, voc, props)
    ensures ResolveProperties(current, props, stack) == ResolveProperties(table, props, stack)
    decreases Room(table, stack), true, props, 0
  {
    if props != [] {
      SameProperty(table, current, voc, props[0].schema, stack);
      SameProperties(table, current, voc, props[1..], stack);
    }
  }

  lemma {:induction false} SameBranches(table: Table, current: Table, voc: Vocabulary,
                                        branches: seq<Schema>, stack: seq<string>)
    requires Context(table, current, voc, stack) && CleanBranches(table, voc, branches)
    ensures ResolveBranches(current, branches, stack) == ResolveBranches(table, branches, stack)
    decreases Room(table, stack), true, branches, 0
  {
    if branches != [] {
      SameProperty(table, current, voc, branches[0], stack);
      SameBranches(table, current, voc, branches[1..], stack);
    }
  }

  lemma {:induction false} AgainReference(table: Table, current: Table, voc: Vocabulary, prop: Schema,
                                          outer: seq<string>, inner: seq<string>)
    requires Context(table, current, voc, outer) && Deeper(outer, inner)
    requires RefersTo(table, prop) && CleanNode(table, voc, prop)
    ensures Again(current, ResolveProperty(table, prop, inner), outer) == ResolveProperty(table, prop, outer)
    decreases Room(table, outer), true, prop, 0
  {
    var first := ResolveProperty(table, prop, inner);
    var target := Target(prop.title.value);
    ResolveReference(table, prop, inner);
    ResolveReference(table, prop, outer);
    PlainReference(table, voc, prop.title.value);
    if target !in inner {
      assert first.Some? && first.value.title == Some(target) && first.value.kind.Object?;
      ResolveReference(current, first.value, outer);
      RoomShrinks(table, outer, target);
      EnterComponent(table, current, voc, target, outer);
    }
  }

  /** What an inline object resolves to. */
  lemma InlineIs(table: Table, prop: Schema, stack: seq<string>)
    requires Grounded(table) && stack != [] && Inline(table, prop)
    requires Avoids(prop, Mistitled(table)) && AvoidsInside(prop, Mistitled(table))
    ensures ResolveProperty(table, prop, stack) ==
            (if OnStack(prop.title, stack) then Cut(stack)
             else if prop.props.NoProps? then Some(prop)
             else Some(prop.(props := Props(ResolveProperties(table, prop.props.list, Push(stack, prop.title))))))
  {
    ResolveInline(table, prop, stack);
  }

  lemma {:induction false} AgainInline(table: Table, current: Table, voc: Vocabulary, prop: Schema,
                                       outer: seq<string>, inner: seq<string>)
    requires Context(table, current, voc, outer) && Deeper(outer, inner)
    requires Inline(table, prop) && CleanNode(table, voc, prop)
    ensures Again(current, ResolveProperty(table, prop, inner), outer) == ResolveProperty(table, prop, outer)
    decreases Room(table, outer), true, prop, 0
  {
    InlineIs(table, prop, inner);
    InlineIs(table, prop, outer);
    if !OnStack(prop.title, inner) {
      var first := ResolveProperty(table, prop, inner).value;
      InlineIs(current, first, outer);
      if prop.props.Props? && !OnStack(prop.title, outer) {
        PushDeeper(outer, inner, prop.title);
        if prop.title.Some? { RoomShrinks(table, outer, prop.title.value); }
        AgainProperties(table, current, voc, prop.props.list, Push(outer, prop.title), Push(inner, prop.title));
      }
    }
  }

  /** Expanding an already expanded node under a larger stack equals expanding the original node
      under that stack; in particular a node dropped under the smaller stack is dropped again. */
  lemma {:induction false} AgainProperty(table: Table, current: Table, voc: Vocabulary, prop: Schema,
                                         outer: seq<string>, inner: seq<string>)
    requires Context(table, current, voc, outer) && CleanNode(table, voc, prop)
    requires Deeper(outer, inner)
    ensures Again(current, ResolveProperty(table, prop, inner), outer) == ResolveProperty(table, prop, outer)
    decreases Room(table, outer), true, prop, 1
  {
    match prop.kind
    case Object =>
      if RefersTo(table, prop) {
        AgainReference(table, current, voc, prop, outer, inner);
      } else if Inline(table, prop) {
        AgainInline(table, current, voc, prop, outer, inner);
      } // a reference that leads nowhere is dropped under both stacks
    case Array(NoItems) => assert ResolveProperty(current, EMPTY_NODE, outer) == Some(EMPTY_NODE);
    case Array(Items(items)) => AgainProperty(table, current, voc, items, outer, inner);
    case OneOf(branches) => AgainBranches(table, current, voc, branches, outer, inner);
    case Boolean(_, _) =>
    case Other(_) =>
  }

  lemma {:induction false} AgainProperties(table: Table, current: Table, voc: Vocabulary,
                                           props: seq<Property>, outer: seq<string>, inner: seq<string>)
    requires Context(table, current, voc, outer) && CleanProps(table, voc, props)
    requires Deeper(outer, inner)
    ensures ResolveProperties(current, ResolveProperties(table, props, inner), outer)
         == ResolveProperties(table, props, outer)
    decreases Room(table, outer), true, props, 0
  {
    if props != [] {
      AgainProperty(table, current, voc, props[0].schema, outer, inner);
      AgainProperties(table, current, voc, props[1..], outer, inner);
      var rest := ResolveProperties(table, props[1..], inner);
      var first := ResolveProperty(table, props[0].schema, inner);
      if first.Some? {
        assert ([Property(props[0].name, first.value)] + rest)[1..] == rest;
      }
    }
  }

  lemma {:induction false} AgainBranches(table: Table, current: Table, voc: Vocabulary,
                                         branches: seq<Schema>, outer: seq<string>, inner: seq<string>)
    requires Context(table, current, voc, outer) && CleanBranches(table, voc, branches)
    requires Deeper(outer, inner)
    ensures ResolveBranches(current, ResolveBranches(table, branches, inner), outer)
         == ResolveBranches(table, branches, outer)
    decreases Room(table, outer), true, branches, 0
  {
    if branches != [] {
      AgainProperty(table, current, voc, branches[0], outer, inner);
      AgainBranches(table, current, voc, branches[1..], outer, inner);
      var rest := ResolveBranches(table, branches[1..], inner);
      var all := ResolveBranches(table, branches, inner);
      if all != rest {
        assert all[1..] == rest;
      }
    }
  }

  // ---------------------------------------------------------------- the loop over the names

  /** One turn of the loop: names without a component are skipped. */
  function Visit(current: Table, name: string): (r: Table)
    requires Grounded(current) && name !in Mistitled(current)
    ensures Grounded(r) && r.Keys == current.Keys && Mistitled(r) == Mistitled(current)
  {
    if name in current then
      var r := current[name := Expansion(current, name)];
      assert Mistitled(r) == Mistitled(current);
      r
    else current
  }

  /** The loop, for the order in which the set of names happens to be walked. */
  function VisitAll(table: Table, order: seq<string>): (r: Table)
    requires Grounded(table) && Names(order) !! Mistitled(table)
    ensures Grounded(r) && r.Keys == table.Keys && Mistitled(r) == Mistitled(table)
  {
    if order == [] then table
    else
      assert order[|order| - 1] in Names(order);
      Visit(VisitAll(table, order[..|order| - 1]), order[|order| - 1])
  }

  /** Every listed component expanded against the original table, all at once. */
  ghost function ExpandedAtOnce(table: Table, names: set<string>): (r: Table)
    requires Grounded(table) && names !! Mistitled(table)
  {
    map k <- table :: if k in names then Expansion(table, k) else table[k]
  }

  lemma {:induction false} VisitPartial(table: Table, current: Table, voc: Vocabulary, name: string)
    requires Hygienic(table, voc) && Plain(voc) && Unambiguous(voc)
    requires Partial(table, current) && name in table && name !in Mistitled(table)
    ensures Expansion(current, name) == Expansion(table, name)
  {
    if table[name].props.Props? {
      var props := table[name].props.list;
      assert Push([], Some(name)) == [name];
      if current[name] == table[name] {
        SameProperties(table, current, voc, props, [name]);
      } else {
        assert current[name].props == Props(ResolveProperties(table, props, [name]));
        AgainProperties(table, current, voc, props, [name], [name]);
      }
    }
  }

  /** One more turn of the loop. */
  lemma NextVisit(table: Table, current: Table, voc: Vocabulary, done: set<string>, name: string)
    requires Hygienic(table, voc) && Plain(voc) && Unambiguous(voc)
    requires done !! Mistitled(table) && name !in Mistitled(table)
    requires Partial(table, current) && current == ExpandedAtOnce(table, done)
    ensures Partial(table, Visit(current, name)) && Visit(current, name) == ExpandedAtOnce(table, done + {name})
  {
    if name in table { VisitPartial(table, current, voc, name); }
  }

  lemma {:induction false} LoopExpandsAtOnce(table: Table, voc: Vocabulary, order: seq<string>)
    requires Hygienic(table, voc) && Plain(voc) && Unambiguous(voc) && Names(order) !! Mistitled(table)
    ensures VisitAll(table, order) == ExpandedAtOnce(table, Names(order))
    ensures Partial(table, VisitAll(table, order))
  {
    if order != [] {
      var before, name := order[..|order| - 1], order[|order| - 1];
      assert Names(order) == Names(before) + {name};
      LoopExpandsAtOnce(table, voc, before);
      NextVisit(table, VisitAll(table, before), voc, Names(before), name);
    }
  }

  /** Confluence: whatever the order, and even with repeated visits, the final table is the same. */
  lemma Confluence(table: Table, voc: Vocabulary, one: seq<string>, other: seq<string>)
    requires Hygienic(table, voc) && Plain(voc) && Unambiguous(voc)
    requires Names(one) == Names(other) && Names(one) !! Mistitled(table)
    ensures VisitAll(table, one) == VisitAll(table, other)
  {
    LoopExpandsAtOnce(table, voc, one);
    LoopExpandsAtOnce(table, voc, other);
  }

  // ---------------------------------------------------------------- what an expanded node looks like

  /** No object on any path has a shallow title or a title already met on that path. */
  predicate Tidy(node: Schema, path: set<string>) {
    match node.kind
    case Object =>
      && (node.title.Some? ==> !IsShallow(node.title.value) && node.title.value !in path)
      && (node.props.Props? ==>
            forall p <- node.props.list :: Tidy(p.schema, if node.title.Some? then path + {node.title.value} else path))
    case Array(items) => items.Items? ==> Tidy(items.schema, path)
    case OneOf(branches) => forall b <- branches :: Tidy(b, path)
    case Boolean(_, _) => true
    case Other(_) => true
  }

  lemma {:induction false} TidySchema(table: Table, voc: Vocabulary, schema: Schema, stack: seq<string>)
    requires Hygienic(table, voc) && Plain(voc) && schema.kind.Object? && AvoidsInside(schema, Mistitled(table))
    requires stack != [] || schema.title.Some?
    requires schema.title.Some? ==> !IsShallow(schema.title.value)
    requires schema.props.Props? ==> CleanProps(table, voc, schema.props.list)
    ensures var r := ResolveSchema(table, schema, stack); r.Some? ==> Tidy(r.value, Names(stack))
    decreases Room(table, Push(stack, schema.title)), !OnStack(schema.title, stack), schema, 0
  {
    if !OnStack(schema.title, stack) && schema.props.Props? {
      var inside := Push(stack, schema.title);
      TidyProperties(table, voc, schema.props.list, inside);
      if schema.title.Some? {
        assert Names(inside) == Names(stack) + {schema.title.value};
      }
    }
  }

  lemma {:induction false} TidyObject(table: Table, voc: Vocabulary, prop: Schema, stack: seq<string>)
    requires Hygienic(table, voc) && Plain(voc) && stack != [] && CleanNode(table, voc, prop) && prop.kind.Object?
    ensures var r := ResolveProperty(table, prop, stack); r.Some? ==> Tidy(r.value, Names(stack))
    decreases Room(table, stack), true, prop, 1
  {
    if RefersTo(table, prop) {
      var target := Target(prop.title.value);
      ResolveReference(table, prop, stack);
      PlainReference(table, voc, prop.title.value);
      RoomShrinks(table, stack, target);
      TidySchema(table, voc, table[target], stack);
    } else if Inline(table, prop) {
      ResolveInline(table, prop, stack);
      if prop.title.Some? { RoomShrinks(table, stack, prop.title.value); }
      TidySchema(table, voc, prop, stack);
    }
  }

  lemma {:induction false} TidyProperty(table: Table, voc: Vocabulary, prop: Schema, stack: seq<string>)
    requires Hygienic(table, voc) && Plain(voc) && stack != [] && CleanNode(table, voc, prop)
    ensures var r := ResolveProperty(table, prop, stack); r.Some? ==> Tidy(r.value, Names(stack))
    decreases Room(table, stack), true, prop, 2
  {
    match prop.kind
    case Object => TidyObject(table, voc, prop, stack);
    case Array(NoItems) =>
    case Array(Items(items)) => TidyProperty(table, voc, items, stack);
    case OneOf(branches) => TidyBranches(table, voc, branches, stack);
    case Boolean(_, _) =>
    case Other(_) =>
  }

  lemma {:induction false} TidyProperties(table: Table, voc: Vocabulary, props: seq<Property>, stack: seq<string>)
    requires Hygienic(table, voc) && Plain(voc) && stack != [] && CleanProps(table, voc, props)
    ensures forall p <- ResolveProperties(table, props, stack) :: Tidy(p.schema, Names(stack))
    decreases Room(table, stack), true, props, 0
  {
    if props != [] {
      TidyProperty(table, voc, props[0].schema, stack);
      TidyProperties(table, voc, props[1..], stack);
    }
  }

  lemma {:induction false} TidyBranches(table: Table, voc: Vocabulary, branches: seq<Schema>, stack: seq<string>)
    requires Hygienic(table, voc) && Plain(voc) && stack != [] && CleanBranches(table, voc, branches)
    ensures forall b <- ResolveBranches(table, branches, stack) :: Tidy(b, Names(stack))
    decreases Room(table, stack), true, branches, 0
  {
    if branches != [] {
      TidyProperty(table, voc, branches[0], stack);
      TidyBranches(table, voc, branches[1..], stack);
    }
  }

  /** An expanded object component holds no shallow title and repeats no title on any path. */
  lemma ExpansionIsTidy(table: Table, voc: Vocabulary, name: string)
    requires Hygienic(table, voc) && Plain(voc)
    requires name in table && name !in Mistitled(table) && table[name].kind.Object? && !IsShallow(name)
    ensures Tidy(Expansion(table, name), {})
  {
    assert Names([]) == {};
    TidySchema(table, voc, table[name], []);
  }

  // ---------------------------------------------------------------- what is dropped and what is kept

  /** The references that vanish: a cycle outside an include, or a shallow title that leads nowhere. */
  predicate Dropped(table: Table, prop: Schema, stack: seq<string>)
    requires stack != []
  {
    match prop.kind
    case Object =>
      && prop.title.Some?
      && (if Target(prop.title.value) in stack then !IsInclude(stack[|stack| - 1])
          else IsShallow(prop.title.value) && Target(prop.title.value) !in table)
    case Array(Items(items)) => Dropped(table, items, stack)
    case _ => false
  }

  function KeptNames(table: Table, props: seq<Property>, stack: seq<string>): seq<string>
    requires stack != []
  {
    if props == [] then []
    else (if Dropped(table, props[0].schema, stack) then [] else [props[0].name]) + KeptNames(table, props[1..], stack)
  }

  function PropertyNames(props: seq<Property>): seq<string> {
    seq(|props|, i requires 0 <= i < |props| => props[i].name)
  }

  lemma {:induction false} DroppedExactly(table: Table, prop: Schema, stack: seq<string>)
    requires Grounded(table) && stack != [] && Avoids(prop, Mistitled(table))
    ensures ResolveProperty(table, prop, stack).None? <==> Dropped(table, prop, stack)
  {
    match prop.kind
    case Array(Items(items)) => DroppedExactly(table, items, stack);
    case Object =>
      if RefersTo(table, prop) {
        ResolveReference(table, prop, stack);
      } else if Inline(table, prop) {
        ResolveInline(table, prop, stack);
      }
    case _ =>
  }

  /** Expansion keeps every other property, under its own name and in its own place. */
  lemma {:induction false} KeptProperties(table: Table, props: seq<Property>, stack: seq<string>)
    requires Grounded(table) && stack != [] && forall p <- props :: Avoids(p.schema, Mistitled(table))
    ensures PropertyNames(ResolveProperties(table, props, stack)) == KeptNames(table, props, stack)
  {
    if props != [] {
      var first := ResolveProperty(table, props[0].schema, stack);
      DroppedExactly(table, props[0].schema, stack);
      KeptProperties(table, props[1..], stack);
      if first.Some? {
        NamesNext(Property(props[0].name, first.value), ResolveProperties(table, props[1..], stack));
      }
    }
  }

  lemma NamesNext(first: Property, rest: seq<Property>)
    ensures PropertyNames([first] + rest) == [first.name] + PropertyNames(rest)
  {
  }

  /** A reference to a component that is not being expanded already is replaced by that component:
      its title, its kind, and every property that is not dropped below it. */
  lemma ReferenceIsInlined(table: Table, prop: Schema, stack: seq<string>)
    requires Grounded(table) && stack != [] && RefersTo(table, prop) && Avoids(prop, Mistitled(table))
    requires Target(prop.title.value) !in stack
    ensures var target := table[Target(prop.title.value)];
            var r := ResolveProperty(table, prop, stack);
            && r.Some? && r.value.title == target.title && r.value.kind == target.kind
            && (r.value.props.Props? <==> target.props.Props?)
            && (target.props.Props? ==>
                  PropertyNames(r.value.props.list)
                  == KeptNames(table, target.props.list, stack + [Target(prop.title.value)]))
  {
    ResolveReference(table, prop, stack);
    var name := Target(prop.title.value);
    if table[name].props.Props? {
      KeptProperties(table, table[name].props.list, stack + [name]);
    }
  }
}
