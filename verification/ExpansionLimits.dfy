/** When expansion depends on the visiting order (app/spec/shallow.py:84-152): for every vocabulary,
    all documents over it are independent of the order exactly when the vocabulary is plain and
    unambiguous. */
module ExpansionLimits {
  import opened Options
  import opened SchemaExpansion
  import opened OpenApiSpec

  // ---------------------------------------------------------------- orders

  /** An order in which the loop may walk the listed names: each of them once. */
  ghost predicate Order(names: seq<string>, listed: set<string>) { Names(names) == listed && |names| == |listed| }

  ghost predicate OrderIndependent(table: Table, listed: set<string>)
    requires Grounded(table) && listed !! Mistitled(table)
  {
    forall one, other ::
      Order(one, listed) && Order(other, listed) ==> VisitAll(table, one) == VisitAll(table, other)
  }

  /** Every document over the vocabulary comes out the same in every order. */
  ghost predicate AllIndependent(voc: Vocabulary, listed: set<string>) {
    forall table: Table ::
      Hygienic(table, voc) && listed !! Mistitled(table) ==> OrderIndependent(table, listed)
  }

  lemma {:induction false} Listing(names: set<string>) returns (list: seq<string>)
    ensures Names(list) == names && |list| == |names|
  {
    list := [];
    if names != {} {
      var name :| name in names;
      var rest := Listing(names - {name});
      list := [name] + rest;
      assert Names(list) == {name} + Names(rest);
    }
  }

  lemma {:induction false} VisitTwo(table: Table, one: string, two: string)
    requires Grounded(table) && Mistitled(table) == {}
    ensures VisitAll(table, [one, two]) == Visit(Visit(table, one), two)
  {
    assert [one, two][..1] == [one] && [one][..0] == [];
    assert VisitAll(table, [one]) == Visit(VisitAll(table, []), one);
  }

  /** Names visited later do not touch an entry that is not among them. */
  lemma {:induction false} VisitsElsewhere(table: Table, first: seq<string>, rest: seq<string>, name: string)
    requires Grounded(table) && Mistitled(table) == {} && name in table && name !in rest
    ensures VisitAll(table, first + rest)[name] == VisitAll(table, first)[name]
  {
    if rest == [] {
      assert first + rest == first;
    } else {
      var front, last := rest[..|rest| - 1], rest[|rest| - 1];
      assert first + rest == first + front + [last];
      assert (first + rest)[..|first + rest| - 1] == first + front;
      VisitsElsewhere(table, first, front, name);
    }
  }

  /** Swapping the first two of the listed names is enough to tell two orders apart. */
  lemma {:induction false} SwapMatters(table: Table, listed: set<string>, one: string, two: string)
    requires Grounded(table) && Mistitled(table) == {} && one in table
    requires one != two && one in listed && two in listed
    requires VisitAll(table, [one, two])[one] != VisitAll(table, [two, one])[one]
    ensures !OrderIndependent(table, listed)
  {
    var rest := Listing(listed - {one, two});
    assert one !in Names(rest);
    VisitsElsewhere(table, [one, two], rest, one);
    VisitsElsewhere(table, [two, one], rest, one);
    SwapIsOrder(listed, one, two, rest);
    TellsApart(table, listed, [one, two] + rest, [two, one] + rest, one);
  }

  lemma {:induction false} TellsApart(table: Table, listed: set<string>, a: seq<string>, b: seq<string>, name: string)
    requires Grounded(table) && Mistitled(table) == {} && name in table && Order(a, listed) && Order(b, listed)
    requires VisitAll(table, a)[name] != VisitAll(table, b)[name]
    ensures !OrderIndependent(table, listed)
  {
  }

  lemma {:induction false} SwapIsOrder(listed: set<string>, one: string, two: string, rest: seq<string>)
    requires one != two && one in listed && two in listed
    requires Names(rest) == listed - {one, two} && |rest| == |listed - {one, two}|
    ensures Order([one, two] + rest, listed) && Order([two, one] + rest, listed)
  {
    assert listed == (listed - {one, two}) + {one, two};
    assert |listed| == |listed - {one, two}| + |{one, two}|;
    assert Names([one, two] + rest) == {one, two} + Names(rest) == Names([two, one] + rest);
  }

  // ---------------------------------------------------------------- two listed names

  const FIRST := "BeatmapInclude"
  const SECOND := "BeatmapsetInclude"
  const THIRD := "RequestInclude"

  predicate Listed(name: string, listed: set<string>) { name in listed && IsInclude(name) && !IsShallow(name) }

  /** Two of the listed includes that are not `title`. */
  predicate Apart(outer: string, middle: string, title: string, listed: set<string>) {
    && Listed(outer, listed) && Listed(middle, listed)
    && outer != middle && outer != title && middle != title
  }

  lemma {:induction false} ThreeNames()
    ensures FIRST in SCHEMAS_WITH_SHALLOW_REFS && SECOND in SCHEMAS_WITH_SHALLOW_REFS
            && THIRD in SCHEMAS_WITH_SHALLOW_REFS
    ensures IsInclude(FIRST) && IsInclude(SECOND) && IsInclude(THIRD)
    ensures !IsShallow(FIRST) && !IsShallow(SECOND) && !IsShallow(THIRD)
    ensures FIRST != SECOND && SECOND != THIRD && FIRST != THIRD
  {
    assert FIRST[7..] == INCLUDE && SECOND[10..] == INCLUDE && THIRD[7..] == INCLUDE;
    assert INCLUDE[0] != SHALLOW[0] && |INCLUDE| == |SHALLOW|;
    assert |FIRST| != |SECOND| && FIRST[0] != THIRD[0] && |SECOND| != |THIRD|;
  }

  lemma {:induction false} TwoNames(title: string) returns (outer: string, middle: string)
    ensures Apart(outer, middle, title, SCHEMAS_WITH_SHALLOW_REFS)
  {
    ThreeNames();
    outer := if title == FIRST then SECOND else FIRST;
    middle := if title == FIRST || title == SECOND then THIRD else SECOND;
  }

  // ---------------------------------------------------------------- small documents

  function Reference(title: string): Schema { Schema(Some(title), Object, NoProps) }

  function Component(title: string, name: string, schema: Schema): Schema {
    Schema(Some(title), Object, Props([Property(name, schema)]))
  }

  lemma {:induction false} AnyTitleAvoids(title: string)
    ensures AvoidsTitle(title, {})
    decreases |title|
  {
    if IsShallow(title) { AnyTitleAvoids(BaseTitle(title)); }
  }

  lemma {:induction false} AnyNodeAvoids(node: Schema)
    ensures Avoids(node, {}) && AvoidsInside(node, {})
  {
    if node.title.Some? { AnyTitleAvoids(node.title.value); }
    if node.props.Props? {
      forall p | p in node.props.list ensures Avoids(p.schema, {}) { AnyNodeAvoids(p.schema); }
    }
    if node.kind.Array? && node.kind.items.Items? { AnyNodeAvoids(node.kind.items.schema); }
    if node.kind.OneOf? {
      forall b | b in node.kind.branches ensures Avoids(b, {}) { AnyNodeAvoids(b); }
    }
  }

  lemma {:induction false} TitledIsGrounded(table: Table)
    requires forall k <- table :: table[k].title == Some(k)
    ensures Mistitled(table) == {} && Grounded(table)
  {
    forall k | k in table ensures AvoidsInside(table[k], {}) { AnyNodeAvoids(table[k]); }
  }

  lemma {:induction false} OneProperty(table: Table, name: string, schema: Schema, stack: seq<string>)
    requires Grounded(table) && stack != [] && Avoids(schema, Mistitled(table))
    ensures var r := ResolveProperty(table, schema, stack);
            ResolveProperties(table, [Property(name, schema)], stack)
            == if r.None? then [] else [Property(name, r.value)]
  {
    var props := [Property(name, schema)];
    assert props[1..] == [];
    assert ResolveProperties(table, [], stack) == [];
  }

  // ---------------------------------------------------------------- nodes that change when expanded again

  /** A chain: the outer component refers to the middle one, which holds `held`. */
  function Chain(outer: string, middle: string, held: Schema, name: string, target: Schema): Table {
    map[name := target]
       [outer := Component(outer, "middle", Reference(middle))]
       [middle := Component(middle, "held", held)]
  }

  /** What the outer component holds, given the middle one. */
  lemma {:induction false} OuterHolds(table: Table, outer: string, middle: string, schema: Schema)
    requires Grounded(table) && Mistitled(table) == {} && outer in table && middle in table
    requires outer != middle && !IsShallow(middle)
    requires table[outer] == Component(outer, "middle", Reference(middle))
    requires table[middle] == schema && schema.props.Props?
    ensures forall p <- schema.props.list :: Avoids(p.schema, Mistitled(table))
    ensures Expansion(table, outer).props == Props([Property("middle",
              schema.(props := Props(ResolveProperties(table, schema.props.list, [outer, middle]))))])
  {
    AnyNodeAvoids(Reference(middle));
    assert AvoidsInside(schema, {});
    var inside := [outer];
    assert Push([], Some(outer)) == inside && Push(inside, Some(middle)) == [outer, middle];
    ResolveReference(table, Reference(middle), inside);
    OneProperty(table, "middle", Reference(middle), inside);
  }

  /** The outer component once it is expanded, when the middle one holds a single node. */
  lemma {:induction false} ChainHolds(table: Table, outer: string, middle: string, held: Schema)
    requires Grounded(table) && Mistitled(table) == {} && outer != middle && !IsShallow(middle)
    requires outer in table && table[outer] == Component(outer, "middle", Reference(middle))
    requires middle in table && table[middle] == Component(middle, "held", held)
    ensures Avoids(held, {})
    ensures var r := ResolveProperty(table, held, [outer, middle]);
            HeldBy(Expansion(table, outer)) == if r.None? then [] else [Property("held", r.value)]
  {
    AnyNodeAvoids(held);
    OuterHolds(table, outer, middle, table[middle]);
    OneProperty(table, "held", held, [outer, middle]);
  }

  /** Order matters as soon as expanding a held node again changes it. */
  lemma {:induction false} OrderMattersWhenNotIdempotent(
      table: Table, listed: set<string>, outer: string, middle: string, held: Schema, first: Schema)
    requires Grounded(table) && Mistitled(table) == {} && outer != middle
    requires Listed(outer, listed) && Listed(middle, listed)
    requires outer in table && table[outer] == Component(outer, "middle", Reference(middle))
    requires middle in table && table[middle] == Component(middle, "held", held)
    requires Avoids(held, {}) && Avoids(first, {})
    requires ResolveProperty(table, held, [middle]) == Some(first) == ResolveProperty(table, held, [outer, middle])
    requires ResolveProperty(Visit(table, middle), first, [outer, middle]) != Some(first)
    ensures !OrderIndependent(table, listed)
  {
    VisitTwo(table, outer, middle);
    VisitTwo(table, middle, outer);
    ChainHolds(table, outer, middle, held);
    var visited := Visit(table, middle);
    MiddleHolds(table, middle, held, first);
    ChainHolds(visited, outer, middle, first);
    assert VisitAll(table, [outer, middle])[outer] == Expansion(table, outer);
    SwapMatters(table, listed, outer, middle);
  }

  lemma {:induction false} MiddleHolds(table: Table, middle: string, held: Schema, first: Schema)
    requires Grounded(table) && Mistitled(table) == {} && Avoids(held, {})
    requires middle in table && table[middle] == Component(middle, "held", held)
    requires ResolveProperty(table, held, [middle]) == Some(first)
    ensures Visit(table, middle)[middle] == Component(middle, "held", first)
  {
    assert Push([], Some(middle)) == [middle];
    OneProperty(table, "held", held, [middle]);
  }

  /** What sits two levels down. */
  function HeldBy(outer: Schema): seq<Property> {
    if outer.props.Props? && outer.props.list != [] && outer.props.list[0].schema.props.Props?
    then outer.props.list[0].schema.props.list else []
  }

  /** A chain is as hygienic as the reference it holds. */
  lemma {:induction false} ChainIsHygienic(
      voc: Vocabulary, outer: string, middle: string, title: string, name: string, target: Schema)
    requires !IsShallow(outer) && !IsShallow(middle) && outer != middle && name != outer && name != middle
    requires target.title == Some(name) && target.props.NoProps?
    requires CleanReference(Chain(outer, middle, Reference(title), name, target), voc, title)
    ensures var table := Chain(outer, middle, Reference(title), name, target);
            Mistitled(table) == {} && Hygienic(table, voc)
  {
    var table := Chain(outer, middle, Reference(title), name, target);
    TitledIsGrounded(table);
    AnyNodeAvoids(Reference(title));
    AnyNodeAvoids(Reference(middle));
    assert CleanNode(table, voc, Reference(middle)) && CleanNode(table, voc, Reference(title));
  }

  /** A reference to a component without properties is replaced by that component. */
  lemma {:induction false} TargetIsCopied(table: Table, title: string, name: string, stack: seq<string>)
    requires Grounded(table) && Mistitled(table) == {} && stack != [] && Target(title) == name
    requires name in table && name !in stack && table[name].props.NoProps?
    requires Avoids(Reference(title), {})
    ensures ResolveProperty(table, Reference(title), stack) == Some(table[name])
  {
    ResolveReference(table, Reference(title), stack);
  }

  lemma {:induction false} LeadsNowhere(table: Table, title: string, stack: seq<string>)
    requires Grounded(table) && Mistitled(table) == {} && stack != [] && IsShallow(title)
    requires BaseTitle(title) !in table && BaseTitle(title) !in stack
    requires Avoids(Reference(title), {})
    ensures ResolveProperty(table, Reference(title), stack) == None
  {
  }

  /** A name that may belong to a component of another kind: an array without items is left alone where
      a reference is replaced by it, and completed where the replaced reference is met again. */
  lemma {:induction false} OtherKindMatters(
      voc: Vocabulary, listed: set<string>, outer: string, middle: string, name: string)
    requires name in voc.otherKinds && !IsShallow(name) && Apart(outer, middle, name, listed)
    ensures !AllIndependent(voc, listed)
  {
    var target := Schema(Some(name), Array(NoItems), NoProps);
    var table := Chain(outer, middle, Reference(name), name, target);
    ChainIsHygienic(voc, outer, middle, name, name, target);
    AnyNodeAvoids(Reference(name));
    AnyNodeAvoids(target);
    TargetIsCopied(table, name, name, [middle]);
    TargetIsCopied(table, name, name, [outer, middle]);
    OrderMattersWhenNotIdempotent(table, listed, outer, middle, Reference(name), target);
  }

  lemma {:induction false} StackedTitle(name: string)
    ensures IsShallow(name + SHALLOW) && BaseTitle(name + SHALLOW) == name
  {
    assert (name + SHALLOW)[|name|..] == SHALLOW && (name + SHALLOW)[..|name|] == name;
  }

  /** A component whose own title ends in the suffix: a reference is replaced by it, and met again it
      reads as a reference that leads nowhere. */
  lemma {:induction false} StackedSuffixMatters(
      voc: Vocabulary, listed: set<string>, outer: string, middle: string, name: string)
    requires name in voc.stacked && IsShallow(name) && Apart(outer, middle, BaseTitle(name), listed)
    ensures !AllIndependent(voc, listed)
  {
    var base, title, target := BaseTitle(name), name + SHALLOW, Reference(name);
    StackedTitle(name);
    assert |name| != |base|;
    var table := Chain(outer, middle, Reference(title), name, target);
    ChainIsHygienic(voc, outer, middle, title, name, target);
    AnyNodeAvoids(Reference(title));
    AnyNodeAvoids(target);
    TargetIsCopied(table, title, name, [middle]);
    TargetIsCopied(table, title, name, [outer, middle]);
    LeadsNowhere(Visit(table, middle), name, [outer, middle]);
    OrderMattersWhenNotIdempotent(table, listed, outer, middle, Reference(title), target);
  }

  // ---------------------------------------------------------------- a dangling base that is an inline title

  /** An inline object with the title, holding a reference to the middle component. */
  function Ghost(title: string, middle: string): Schema {
    Schema(Some(title), Object, Props([Property("middle", Reference(middle))]))
  }

  function Ambiguous(outer: string, middle: string, title: string): Table {
    map[outer := Component(outer, "ghost", Ghost(title, middle)),
        middle := Component(middle, "back", Reference(title + SHALLOW))]
  }

  lemma {:induction false} AmbiguousIsHygienic(voc: Vocabulary, outer: string, middle: string, title: string)
    requires !IsShallow(outer) && !IsShallow(middle) && outer != middle && title != outer && title != middle
    requires title in voc.inlineTitles && title in voc.dangling && !IsShallow(title)
    ensures var table := Ambiguous(outer, middle, title); Mistitled(table) == {} && Hygienic(table, voc)
  {
    var table := Ambiguous(outer, middle, title);
    TitledIsGrounded(table);
    StackedTitle(title);
    AnyNodeAvoids(Ghost(title, middle));
    AnyNodeAvoids(Reference(middle));
    AnyNodeAvoids(Reference(title + SHALLOW));
    assert CleanNode(table, voc, Reference(title + SHALLOW)) && CleanNode(table, voc, Reference(middle));
    assert CleanNode(table, voc, Ghost(title, middle));
  }

  /** What the outer component holds two levels down, when the middle one is `schema`. */
  lemma {:induction false} OuterHoldsGhost(table: Table, outer: string, middle: string, title: string, schema: Schema)
    requires Grounded(table) && Mistitled(table) == {} && !IsShallow(middle) && !IsShallow(title)
    requires outer != middle && title != outer && title != middle && title !in table
    requires outer in table && table[outer] == Component(outer, "ghost", Ghost(title, middle))
    requires middle in table && table[middle] == schema && schema.props.Props?
    ensures forall p <- schema.props.list :: Avoids(p.schema, Mistitled(table))
    ensures Expansion(table, outer).props == Props([Property("ghost", Ghost(title, middle).(props :=
              Props([Property("middle", schema.(props := Props(
                ResolveProperties(table, schema.props.list, [outer, title, middle]))))])))])
  {
    var ghost_, reference := Ghost(title, middle), Reference(middle);
    AnyNodeAvoids(ghost_);
    AnyNodeAvoids(reference);
    assert AvoidsInside(schema, {});
    var s1, s2, s3 := [outer], [outer, title], [outer, title, middle];
    assert Push([], Some(outer)) == s1 && Push(s1, Some(title)) == s2 && Push(s2, Some(middle)) == s3;
    ResolveReference(table, reference, s2);
    ResolveInline(table, ghost_, s1);
    OneProperty(table, "middle", reference, s2);
    OneProperty(table, "ghost", ghost_, s1);
  }

  /** What sits three levels down. */
  function GhostHolds(outer: Schema): seq<Property> {
    var below := HeldBy(outer);
    if below != [] && below[0].schema.props.Props? then below[0].schema.props.list else []
  }

  /** Reached from outside, the reference back is a cycle inside an include and is disabled. */
  lemma {:induction false} OuterFirst(table: Table, outer: string, middle: string, title: string)
    requires outer != middle && title != outer && title != middle && IsInclude(middle)
    requires !IsShallow(middle) && !IsShallow(title)
    requires table == Ambiguous(outer, middle, title) && Mistitled(table) == {} && Grounded(table)
    ensures GhostHolds(Expansion(table, outer)) == [Property("back", DISABLED)]
  {
    StackedTitle(title);
    var back, stack := Reference(title + SHALLOW), [outer, title, middle];
    AnyNodeAvoids(back);
    OuterHoldsGhost(table, outer, middle, title, table[middle]);
    OneProperty(table, "back", back, stack);
    assert stack[1] == title;
    assert ResolveProperty(table, back, stack) == Some(DISABLED);
  }

  /** Visited first on its own, the reference back leads nowhere and is gone for good. */
  lemma {:induction false} MiddleFirst(table: Table, outer: string, middle: string, title: string)
    requires outer != middle && title != outer && title != middle && IsInclude(middle)
    requires !IsShallow(middle) && !IsShallow(title)
    requires table == Ambiguous(outer, middle, title) && Mistitled(table) == {} && Grounded(table)
    ensures GhostHolds(Expansion(Visit(table, middle), outer)) == []
  {
    var visited := Visit(table, middle);
    MiddleIsEmptied(table, outer, middle, title);
    OuterHoldsGhost(visited, outer, middle, title, visited[middle]);
  }

  lemma {:induction false} MiddleIsEmptied(table: Table, outer: string, middle: string, title: string)
    requires outer != middle && title != outer && title != middle
    requires table == Ambiguous(outer, middle, title) && Mistitled(table) == {} && Grounded(table)
    ensures Visit(table, middle)[middle].props == Props([])
  {
    StackedTitle(title);
    var back := Reference(title + SHALLOW);
    AnyNodeAvoids(back);
    OneProperty(table, "back", back, [middle]);
    assert Push([], Some(middle)) == [middle];
  }

  lemma {:induction false} AmbiguityMatters(
      voc: Vocabulary, listed: set<string>, outer: string, middle: string, title: string)
    requires title in voc.inlineTitles && title in voc.dangling && !IsShallow(title)
    requires Apart(outer, middle, title, listed)
    ensures !AllIndependent(voc, listed)
  {
    var table := Ambiguous(outer, middle, title);
    AmbiguousIsHygienic(voc, outer, middle, title);
    OuterFirst(table, outer, middle, title);
    MiddleFirst(table, outer, middle, title);
    VisitTwo(table, outer, middle);
    VisitTwo(table, middle, outer);
    assert VisitAll(table, [outer, middle])[outer] == Expansion(table, outer);
    SwapMatters(table, listed, outer, middle);
  }

  // ---------------------------------------------------------------- the exact condition

  /** For every vocabulary: all documents over it come out the same in every order if and only if
      references lead to objects, no title keeps the suffix, and no dangling base is an inline title. */
  lemma {:induction false} IndependentExactly(voc: Vocabulary)
    ensures AllIndependent(voc, SCHEMAS_WITH_SHALLOW_REFS) <==> Plain(voc) && Unambiguous(voc)
  {
    var listed := SCHEMAS_WITH_SHALLOW_REFS;
    if name :| name in voc.otherKinds && !IsShallow(name) {
      var outer, middle := TwoNames(name);
      OtherKindMatters(voc, listed, outer, middle, name);
    } else if name :| name in voc.stacked && IsShallow(name) {
      var outer, middle := TwoNames(BaseTitle(name));
      StackedSuffixMatters(voc, listed, outer, middle, name);
    } else if title :| title in voc.inlineTitles && title in voc.dangling && !IsShallow(title) {
      var outer, middle := TwoNames(title);
      AmbiguityMatters(voc, listed, outer, middle, title);
    } else {
      PlainIsIndependent(voc, listed);
    }
  }

  lemma {:induction false} PlainIsIndependent(voc: Vocabulary, listed: set<string>)
    requires Plain(voc) && Unambiguous(voc)
    ensures AllIndependent(voc, listed)
  {
    forall table: Table | Hygienic(table, voc) && listed !! Mistitled(table) ensures OrderIndependent(table, listed) {
      forall one, other | Order(one, listed) && Order(other, listed)
        ensures VisitAll(table, one) == VisitAll(table, other)
      {
        Confluence(table, voc, one, other);
      }
    }
  }
}
