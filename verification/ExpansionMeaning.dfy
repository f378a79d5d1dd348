/** What expansion makes of each node, said without the rewriter (app/spec/shallow.py:53-145). */
module ExpansionMeaning {
  import opened Options
  import opened SchemaExpansion

  // ---------------------------------------------------------------- what a node becomes

  /** A titled object whose component, or the object itself, is being expanded already. */
  predicate Cyclic(node: Schema, stack: seq<string>) {
    node.kind.Object? && node.title.Some? && Target(node.title.value) in stack
  }

  /** The component that an object refers to, else the object. */
  function Source(table: Table, node: Schema): Schema {
    if RefersTo(table, node) then table[Target(node.title.value)] else node
  }

  /** The properties that are not dropped. */
  function Kept(table: Table, props: seq<Property>, stack: seq<string>): seq<Property>
    requires stack != []
  {
    if props == [] then []
    else (if Dropped(table, props[0].schema, stack) then [] else [props[0]]) + Kept(table, props[1..], stack)
  }

  /** The branches that leave something behind: all but those dropped outside an include. */
  function Surviving(table: Table, branches: seq<Schema>, stack: seq<string>): seq<Schema>
    requires stack != []
  {
    if branches == [] then []
    else (if Vanishes(table, branches[0], stack) then [] else [branches[0]]) + Surviving(table, branches[1..], stack)
  }

  predicate Vanishes(table: Table, branch: Schema, stack: seq<string>)
    requires stack != []
  {
    !branch.kind.Boolean? && Dropped(table, branch, stack) && !IsInclude(stack[|stack| - 1])
  }

  /** The boolean, false by default, that stands for a nested include that would recurse. */
  predicate Disabled(node: Schema) { node == Schema(None, Boolean(Some(false), DISABLED.kind.note), NoProps) }

  /** `r` is what becomes of `node` below this stack: a cycle inside an include is disabled; an object
      takes title, kind and properties of its component, or keeps its own, and what is kept of the
      properties becomes what it must one level down; an array keeps all but its items, a union all
      but its branches, and everything else is left alone. */
  ghost predicate Becomes(table: Table, node: Schema, stack: seq<string>, r: Schema)
    requires stack != []
    decreases r, 1
  {
    if Cyclic(node, stack) then IsInclude(stack[|stack| - 1]) && Disabled(r)
    else match node.kind
      case Object =>
        && (node.title.Some? && IsShallow(node.title.value) ==> RefersTo(table, node))
        && ObjectBecomes(table, Source(table, node), stack, r)
      case Array(items) =>
        && r.title == node.title && r.props == node.props && r.kind.Array? && r.kind.items.Items?
        && Becomes(table, if items.Items? then items.schema else EMPTY_NODE, stack, r.kind.items.schema)
      case OneOf(branches) =>
        && r.title == node.title && r.props == node.props && r.kind.OneOf?
        && BranchesBecome(table, Surviving(table, branches, stack), stack, r.kind.branches)
      case _ => r == node
  }

  ghost predicate ObjectBecomes(table: Table, source: Schema, stack: seq<string>, r: Schema)
    requires stack != []
    decreases r, 0
  {
    && r.title == source.title && r.kind == source.kind
    && (source.props.NoProps? ==> r.props.NoProps?)
    && (source.props.Props? ==>
          && r.props.Props?
          && var inside := Push(stack, source.title);
             PropertiesBecome(table, Kept(table, source.props.list, inside), inside, r.props.list))
  }

  ghost predicate PropertiesBecome(table: Table, kept: seq<Property>, stack: seq<string>, r: seq<Property>)
    requires stack != []
    decreases r, 2
  {
    && |r| == |kept|
    && forall j :: 0 <= j < |r| ==> r[j].name == kept[j].name && Becomes(table, kept[j].schema, stack, r[j].schema)
  }

  /** Booleans stay; a dropped branch is disabled; the others become what they must. */
  ghost predicate BranchesBecome(table: Table, surviving: seq<Schema>, stack: seq<string>, r: seq<Schema>)
    requires stack != []
    decreases r, 2
  {
    |r| == |surviving| && forall j :: 0 <= j < |r| ==> BranchBecomes(table, surviving[j], stack, r[j])
  }

  ghost predicate BranchBecomes(table: Table, branch: Schema, stack: seq<string>, r: Schema)
    requires stack != []
    decreases r, 2
  {
    if branch.kind.Boolean? then r == branch
    else if Dropped(table, branch, stack) then Disabled(r)
    else Becomes(table, branch, stack, r)
  }

  // ---------------------------------------------------------------- the rewriter does that

  lemma {:induction false} SchemaMeans(table: Table, schema: Schema, stack: seq<string>)
    requires Grounded(table) && AvoidsInside(schema, Mistitled(table)) && !OnStack(schema.title, stack)
    requires stack != [] || schema.title.Some?
    ensures var r := ResolveSchema(table, schema, stack);
            && r.Some? && r.value.title == schema.title && r.value.kind == schema.kind
            && (schema.props.NoProps? ==> r.value.props.NoProps?)
            && (schema.props.Props? ==>
                  && r.value.props.Props?
                  && var inside := Push(stack, schema.title);
                     PropertiesBecome(table, Kept(table, schema.props.list, inside), inside, r.value.props.list))
    decreases Room(table, Push(stack, schema.title)), true, schema, 0
  {
    if schema.props.Props? { PropertiesMean(table, schema.props.list, Push(stack, schema.title)); }
  }

  lemma {:induction false} PropertiesMean(table: Table, props: seq<Property>, stack: seq<string>)
    requires Grounded(table) && stack != [] && forall p <- props :: Avoids(p.schema, Mistitled(table))
    ensures PropertiesBecome(table, Kept(table, props, stack), stack, ResolveProperties(table, props, stack))
    decreases Room(table, stack), true, props, 0
  {
    if props != [] {
      var first := ResolveProperty(table, props[0].schema, stack);
      PropertyMeans(table, props[0].schema, stack);
      PropertiesMean(table, props[1..], stack);
      JoinProperties(table, props, stack, first);
    }
  }

  lemma JoinProperties(table: Table, props: seq<Property>, stack: seq<string>, first: Option<Schema>)
    requires Grounded(table) && stack != [] && props != [] && forall p <- props :: Avoids(p.schema, Mistitled(table))
    requires first == ResolveProperty(table, props[0].schema, stack)
    requires first.None? <==> Dropped(table, props[0].schema, stack)
    requires first.Some? ==> Becomes(table, props[0].schema, stack, first.value)
    requires PropertiesBecome(table, Kept(table, props[1..], stack), stack, ResolveProperties(table, props[1..], stack))
    ensures PropertiesBecome(table, Kept(table, props, stack), stack, ResolveProperties(table, props, stack))
  {
    SplitProperties(table, props, stack);
    if first.Some? {
      MoreProperties(table, props[0], Kept(table, props[1..], stack), stack, Property(props[0].name, first.value),
                     ResolveProperties(table, props[1..], stack));
    }
  }

  lemma SplitProperties(table: Table, props: seq<Property>, stack: seq<string>)
    requires Grounded(table) && stack != [] && props != [] && forall p <- props :: Avoids(p.schema, Mistitled(table))
    ensures var first := ResolveProperty(table, props[0].schema, stack);
            ResolveProperties(table, props, stack)
            == (if first.Some? then [Property(props[0].name, first.value)] else [])
             + ResolveProperties(table, props[1..], stack)
  {
  }

  lemma MoreProperties(table: Table, first: Property, kept: seq<Property>, stack: seq<string>,
                       r: Property, rest: seq<Property>)
    requires stack != [] && PropertiesBecome(table, kept, stack, rest)
    requires r.name == first.name && Becomes(table, first.schema, stack, r.schema)
    ensures PropertiesBecome(table, [first] + kept, stack, [r] + rest)
  {
  }

  lemma MoreBranches(table: Table, first: Schema, surviving: seq<Schema>, stack: seq<string>,
                     r: Schema, rest: seq<Schema>)
    requires stack != [] && BranchesBecome(table, surviving, stack, rest) && BranchBecomes(table, first, stack, r)
    ensures BranchesBecome(table, [first] + surviving, stack, [r] + rest)
  {
  }

  /** What the first branch leaves behind, if anything. */
  function FirstBranch(table: Table, branch: Schema, stack: seq<string>): Option<Schema>
    requires Grounded(table) && stack != [] && Avoids(branch, Mistitled(table))
  {
    if branch.kind.Boolean? then Some(branch)
    else
      var r := ResolveProperty(table, branch, stack);
      if r.Some? then r else if IsInclude(stack[|stack| - 1]) then Some(DISABLED) else None
  }

  lemma SplitBranches(table: Table, branches: seq<Schema>, stack: seq<string>)
    requires Grounded(table) && stack != [] && branches != [] && forall b <- branches :: Avoids(b, Mistitled(table))
    ensures var first := FirstBranch(table, branches[0], stack);
            ResolveBranches(table, branches, stack)
            == (if first.Some? then [first.value] else []) + ResolveBranches(table, branches[1..], stack)
  {
  }

  lemma {:induction false} BranchesMean(table: Table, branches: seq<Schema>, stack: seq<string>)
    requires Grounded(table) && stack != [] && forall b <- branches :: Avoids(b, Mistitled(table))
    ensures BranchesBecome(table, Surviving(table, branches, stack), stack, ResolveBranches(table, branches, stack))
    decreases Room(table, stack), true, branches, 0
  {
    if branches != [] {
      PropertyMeans(table, branches[0], stack);
      BranchesMean(table, branches[1..], stack);
      SplitBranches(table, branches, stack);
      var first := FirstBranch(table, branches[0], stack);
      if first.Some? {
        MoreBranches(table, branches[0], Surviving(table, branches[1..], stack), stack, first.value,
                     ResolveBranches(table, branches[1..], stack));
      }
    }
  }

  lemma {:induction false} ObjectMeans(table: Table, prop: Schema, stack: seq<string>)
    requires Grounded(table) && stack != [] && prop.kind.Object? && !Dropped(table, prop, stack)
    requires Avoids(prop, Mistitled(table)) && AvoidsInside(prop, Mistitled(table))
    ensures var r := ResolveProperty(table, prop, stack); r.Some? && Becomes(table, prop, stack, r.value)
    decreases Room(table, stack), true, prop, 1
  {
    if RefersTo(table, prop) {
      var target := Target(prop.title.value);
      ResolveReference(table, prop, stack);
      if target !in stack {
        RoomShrinks(table, stack, target);
        SchemaMeans(table, table[target], stack);
      }
    } else if Inline(table, prop) {
      ResolveInline(table, prop, stack);
      if !OnStack(prop.title, stack) {
        if prop.title.Some? { RoomShrinks(table, stack, prop.title.value); }
        SchemaMeans(table, prop, stack);
      }
    }
  }

  lemma {:induction false} PropertyMeans(table: Table, prop: Schema, stack: seq<string>)
    requires Grounded(table) && stack != [] && Avoids(prop, Mistitled(table))
    ensures var r := ResolveProperty(table, prop, stack);
            && (r.None? <==> Dropped(table, prop, stack))
            && (r.Some? ==> Becomes(table, prop, stack, r.value))
    decreases Room(table, stack), true, prop, 2
  {
    DroppedExactly(table, prop, stack);
    assert AvoidsInside(prop, Mistitled(table));
    match prop.kind
    case Object => if !Dropped(table, prop, stack) { ObjectMeans(table, prop, stack); }
    case Array(NoItems) =>
    case Array(Items(items)) => PropertyMeans(table, items, stack);
    case OneOf(branches) => BranchesMean(table, branches, stack);
    case Boolean(_, _) =>
    case Other(_) =>
  }

  // ---------------------------------------------------------------- and nothing else

  lemma {:induction false} BecomesOnly(table: Table, node: Schema, stack: seq<string>, a: Schema, b: Schema)
    requires stack != [] && Becomes(table, node, stack, a) && Becomes(table, node, stack, b)
    ensures a == b
    decreases a, 1
  {
    if !Cyclic(node, stack) {
      match node.kind
      case Object => ObjectOnly(table, Source(table, node), stack, a, b);
      case Array(items) =>
        BecomesOnly(table, if items.Items? then items.schema
            else EMPTY_NODE, stack, a.kind.items.schema, b.kind.items.schema);
      case OneOf(branches) => BranchesOnly(table, Surviving(table, branches, stack), stack, a.kind.branches,
                                           b.kind.branches);
      case _ =>
    }
  }

  lemma {:induction false} ObjectOnly(table: Table, source: Schema, stack: seq<string>, a: Schema, b: Schema)
    requires stack != [] && ObjectBecomes(table, source, stack, a) && ObjectBecomes(table, source, stack, b)
    ensures a == b
    decreases a, 0
  {
    if source.props.Props? {
      var inside := Push(stack, source.title);
      var kept, ps, qs := Kept(table, source.props.list, inside), a.props.list, b.props.list;
      forall j | 0 <= j < |ps| ensures ps[j] == qs[j] {
        BecomesOnly(table, kept[j].schema, inside, ps[j].schema, qs[j].schema);
      }
      assert ps == qs;
    }
  }

  lemma {:induction false} BranchesOnly(table: Table, surviving: seq<Schema>, stack: seq<string>,
                                        a: seq<Schema>, b: seq<Schema>)
    requires stack != [] && BranchesBecome(table, surviving, stack, a) && BranchesBecome(table, surviving, stack, b)
    ensures a == b
    decreases a, 2
  {
    forall j | 0 <= j < |a| ensures a[j] == b[j] {
      assert BranchBecomes(table, surviving[j], stack, a[j]) && BranchBecomes(table, surviving[j], stack, b[j]);
      if !surviving[j].kind.Boolean? && !Dropped(table, surviving[j], stack) {
        BecomesOnly(table, surviving[j], stack, a[j], b[j]);
      }
    }
  }

  /** The rewriter resolves a property to `r` if and only if the property is not dropped and `r` is
      what becomes of it. */
  lemma ResolvesExactly(table: Table, prop: Schema, stack: seq<string>, r: Schema)
    requires Grounded(table) && stack != [] && Avoids(prop, Mistitled(table))
    ensures ResolveProperty(table, prop, stack) == Some(r) <==>
            !Dropped(table, prop, stack) && Becomes(table, prop, stack, r)
  {
    PropertyMeans(table, prop, stack);
    if !Dropped(table, prop, stack) && Becomes(table, prop, stack, r) {
      BecomesOnly(table, prop, stack, r, ResolveProperty(table, prop, stack).value);
    }
  }

  /** What the loop stores for a listed component: its own title and kind, and what becomes of the
      properties that are kept below its title. */
  lemma ExpandsExactly(table: Table, name: string, r: Schema)
    requires Grounded(table) && name in table && name !in Mistitled(table)
    ensures Expansion(table, name) == r <==>
            && r.title == table[name].title && r.kind == table[name].kind
            && (r.props.Props? <==> table[name].props.Props?)
            && (r.props.Props? ==>
                  PropertiesBecome(table, Kept(table, table[name].props.list, [name]), [name], r.props.list))
  {
    assert Push([], Some(name)) == [name];
    SchemaMeans(table, table[name], []);
    var e := Expansion(table, name);
    if r.props.Props? && e.props.Props? && |r.props.list| == |e.props.list|
       && PropertiesBecome(table, Kept(table, table[name].props.list, [name]), [name], r.props.list) {
      var kept := Kept(table, table[name].props.list, [name]);
      forall j | 0 <= j < |r.props.list| ensures r.props.list[j] == e.props.list[j] {
        BecomesOnly(table, kept[j].schema, [name], r.props.list[j].schema, e.props.list[j].schema);
      }
      assert r.props.list == e.props.list;
    }
  }
}
