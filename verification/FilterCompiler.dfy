/** Compiling a nested filter tree to column, `any` and `has` conditions
    (app/database/crud/r.py:518-572). */
module FilterCompiler {
  import opened Options

  /** A filter as it arrives: a plain value, or a dictionary of named filters. */
  datatype FilterValue = Leaf(value: int) | Node(entries: seq<FilterEntry>)

  datatype FilterEntry = FilterEntry(name: string, value: FilterValue)

  datatype Relationship = Relationship(target: string, useList: bool)

  datatype Model = Model(attributes: set<string>, relationships: map<string, Relationship>)

  /** The mapped classes, and the operator names that `FilterOperator.from_name` knows. */
  datatype Schema = Schema(models: map<string, Model>, operators: set<string>)

  /** Every relationship leads to a mapped class. */
  predicate Closed(schema: Schema) {
    forall m <- schema.models, r <- schema.models[m].relationships ::
      schema.models[m].relationships[r].target in schema.models
  }

  datatype Error = NotAnAttribute(name: string) | NotADict(name: string) | UnknownOperator(name: string)

  /** A compiled condition. */
  datatype Condition =
    | Compare(column: string, operator: string, operand: FilterValue)
    | Any(relationship: string, all: seq<Condition>)
    | Has(relationship: string, all: seq<Condition>)

  const EQ := "eq"

  // ---------------------------------------------------------------- compilation

  function CompileOperators(schema: Schema, column: string, ops: seq<FilterEntry>): Result<seq<Condition>, Error> {
    if ops == [] then Ok([])
    else if ops[0].name !in schema.operators then Err(UnknownOperator(ops[0].name))
    else
      match CompileOperators(schema, column, ops[1..])
      case Err(e) => Err(e)
      case Ok(rest) => Ok([Compare(column, ops[0].name, ops[0].value)] + rest)
  }

  function CompileEntry(schema: Schema, model: string, e: FilterEntry): Result<seq<Condition>, Error>
    requires Closed(schema) && model in schema.models
    decreases e, 0
  {
    var m := schema.models[model];
    if e.name in m.attributes then
      match e.value
      case Leaf(_) => Ok([Compare(e.name, EQ, e.value)])
      case Node(ops) => CompileOperators(schema, e.name, ops)
    else if e.name in m.relationships then
      match e.value
      case Leaf(_) => Err(NotADict(e.name))
      case Node(entries) =>
        var rel := m.relationships[e.name];
        match CompileFilters(schema, rel.target, entries)
        case Err(error) => Err(error)
        case Ok(nested) =>
          if nested == [] then Ok([])
          else Ok([if rel.useList then Any(e.name, nested) else Has(e.name, nested)])
    else Err(NotAnAttribute(e.name))
  }

  function CompileFilters(schema: Schema, model: string, entries: seq<FilterEntry>): Result<seq<Condition>, Error>
    requires Closed(schema) && model in schema.models
    decreases entries, 1
  {
    if entries == [] then Ok([])
    else
      match CompileEntry(schema, model, entries[0])
      case Err(e) => Err(e)
      case Ok(first) =>
        match CompileFilters(schema, model, entries[1..])
        case Err(e) => Err(e)
        case Ok(rest) => Ok(first + rest)
  }

  // ---------------------------------------------------------------- what the database makes of it

  /** A row of a mapped class. */
  datatype Row = Row(model: string, id: int)

  /** The columns of the rows, their related rows, and how an operator compares. */
  datatype Db = Db(column: (Row, string) -> int, related: (Row, string) -> seq<Row>,
                   test: (string, int, FilterValue) -> bool)

  predicate Holds(db: Db, row: Row, c: Condition)
    decreases c, 0
  {
    match c
    case Compare(column, operator, operand) => db.test(operator, db.column(row, column), operand)
    case Any(rel, all) => exists child <- db.related(row, rel) :: forall c <- all :: Holds(db, child, c)
    case Has(rel, all) =>
      var children := db.related(row, rel);
      children != [] && forall c <- all :: Holds(db, children[0], c)
  }

  predicate HoldAll(db: Db, row: Row, all: seq<Condition>) { forall c <- all :: Holds(db, row, c) }

  /** A relationship leads to rows of its target class, and to at most one unless it is a list. */
  ghost predicate Mapped(schema: Schema, db: Db) {
    forall row: Row, r :: row.model in schema.models && r in schema.models[row.model].relationships ==>
      Leads(schema.models[row.model].relationships[r], db.related(row, r))
  }

  predicate Leads(rel: Relationship, rows: seq<Row>) {
    (rel.useList || |rows| <= 1) && forall row <- rows :: row.model == rel.target
  }

  // ---------------------------------------------------------------- what the filter means

  predicate WellTypedEntry(schema: Schema, model: string, e: FilterEntry)
    requires Closed(schema) && model in schema.models
    decreases e, 0
  {
    var m := schema.models[model];
    if e.name in m.attributes then e.value.Node? ==> forall op <- e.value.entries :: op.name in schema.operators
    else
      && e.name in m.relationships && e.value.Node?
      && WellTyped(schema, m.relationships[e.name].target, e.value.entries)
  }

  predicate WellTyped(schema: Schema, model: string, entries: seq<FilterEntry>)
    requires Closed(schema) && model in schema.models
    decreases entries, 1
  {
    forall e <- entries :: WellTypedEntry(schema, model, e)
  }

  /** No comparison anywhere in the tree: the filter asks for nothing, not even for a related row. */
  predicate VacuousEntry(schema: Schema, model: string, e: FilterEntry)
    requires Closed(schema) && model in schema.models
    decreases e, 0
  {
    && e.value.Node?
    && (e.name !in schema.models[model].attributes && e.name in schema.models[model].relationships ==>
          Vacuous(schema, schema.models[model].relationships[e.name].target, e.value.entries))
    && (e.name in schema.models[model].attributes ==> e.value.entries == [])
  }

  predicate Vacuous(schema: Schema, model: string, entries: seq<FilterEntry>)
    requires Closed(schema) && model in schema.models
    decreases entries, 1
  {
    forall e <- entries :: VacuousEntry(schema, model, e)
  }

  predicate AcceptsEntry(schema: Schema, db: Db, model: string, row: Row, e: FilterEntry)
    requires Closed(schema) && model in schema.models
    decreases e, 0
  {
    var m := schema.models[model];
    if e.name in m.attributes then
      match e.value
      case Leaf(_) => db.test(EQ, db.column(row, e.name), e.value)
      case Node(ops) => forall op <- ops :: db.test(op.name, db.column(row, e.name), op.value)
    else
      && e.name in m.relationships && e.value.Node?
      && var target := m.relationships[e.name].target;
         || Vacuous(schema, target, e.value.entries)
         || exists child <- db.related(row, e.name) :: Accepts(schema, db, target, child, e.value.entries)
  }

  /** Direct interpretation: every entry is met, a nested filter by one and the same related row. */
  predicate Accepts(schema: Schema, db: Db, model: string, row: Row, entries: seq<FilterEntry>)
    requires Closed(schema) && model in schema.models
    decreases entries, 1
  {
    forall e <- entries :: AcceptsEntry(schema, db, model, row, e)
  }

  // ---------------------------------------------------------------- the two agree

  lemma {:induction false} OperatorsMean(schema: Schema, column: string, ops: seq<FilterEntry>)
    ensures var r := CompileOperators(schema, column, ops);
            && (r.Ok? <==> forall op <- ops :: op.name in schema.operators)
            && (r.Ok? ==> |r.value| == |ops|
                          && forall i :: 0 <= i < |ops| ==> r.value[i] == Compare(column, ops[i].name, ops[i].value))
  {
    if ops != [] { OperatorsMean(schema, column, ops[1..]); }
  }

  lemma {:induction false} CompilesExactly(schema: Schema, model: string, entries: seq<FilterEntry>)
    requires Closed(schema) && model in schema.models
    ensures var r := CompileFilters(schema, model, entries);
            && (r.Ok? <==> WellTyped(schema, model, entries))
            && (r.Ok? ==> (r.value == [] <==> Vacuous(schema, model, entries)))
    decreases entries, 1
  {
    if entries != [] {
      EntryCompilesExactly(schema, model, entries[0]);
      CompilesExactly(schema, model, entries[1..]);
      assert entries == [entries[0]] + entries[1..];
    }
  }

  lemma {:induction false} EntryCompilesExactly(schema: Schema, model: string, e: FilterEntry)
    requires Closed(schema) && model in schema.models
    ensures var r := CompileEntry(schema, model, e);
            && (r.Ok? <==> WellTypedEntry(schema, model, e))
            && (r.Ok? ==> (r.value == [] <==> VacuousEntry(schema, model, e)))
    decreases e, 0
  {
    var m := schema.models[model];
    if e.value.Node? {
      if e.name in m.attributes {
        OperatorsMean(schema, e.name, e.value.entries);
      } else if e.name in m.relationships {
        CompilesExactly(schema, m.relationships[e.name].target, e.value.entries);
      }
    }
  }

  lemma {:induction false} FiltersMean(schema: Schema, db: Db, model: string, row: Row, entries: seq<FilterEntry>)
    requires Closed(schema) && Mapped(schema, db) && model in schema.models && row.model == model
    requires CompileFilters(schema, model, entries).Ok?
    ensures HoldAll(db, row, CompileFilters(schema, model, entries).value) <==> Accepts(schema, db, model, row, entries)
    decreases entries, 1
  {
    if entries != [] {
      EntryMeans(schema, db, model, row, entries[0]);
      FiltersMean(schema, db, model, row, entries[1..]);
      assert entries == [entries[0]] + entries[1..];
      var first := CompileEntry(schema, model, entries[0]).value;
      var rest := CompileFilters(schema, model, entries[1..]).value;
      assert HoldAll(db, row, first + rest) <==> HoldAll(db, row, first) && HoldAll(db, row, rest);
    }
  }

  lemma {:induction false} EntryMeans(schema: Schema, db: Db, model: string, row: Row, e: FilterEntry)
    requires Closed(schema) && Mapped(schema, db) && model in schema.models && row.model == model
    requires CompileEntry(schema, model, e).Ok?
    ensures HoldAll(db, row, CompileEntry(schema, model, e).value) <==> AcceptsEntry(schema, db, model, row, e)
    decreases e, 0
  {
    var m := schema.models[model];
    if e.name in m.attributes {
      if e.value.Node? {
        AttributeMeans(schema, db, row, e.name, e.value.entries);
      } else {
        assert Compare(e.name, EQ, e.value) in [Compare(e.name, EQ, e.value)];
      }
    } else {
      var rel, entries := m.relationships[e.name], e.value.entries;
      var nested := CompileFilters(schema, rel.target, entries).value;
      CompilesExactly(schema, rel.target, entries);
      assert Leads(rel, db.related(row, e.name));
      forall child | child in db.related(row, e.name)
        ensures HoldAll(db, child, nested) <==> Accepts(schema, db, rel.target, child, entries)
      {
        FiltersMean(schema, db, rel.target, child, entries);
      }
      RelatedMeans(db, row, e.name, nested, rel.useList);
      if nested != [] {
        var c := if rel.useList then Any(e.name, nested) else Has(e.name, nested);
        assert c in [c];
      }
    }
  }

  lemma AttributeMeans(schema: Schema, db: Db, row: Row, column: string, ops: seq<FilterEntry>)
    requires CompileOperators(schema, column, ops).Ok?
    ensures HoldAll(db, row, CompileOperators(schema, column, ops).value)
       <==> forall op <- ops :: db.test(op.name, db.column(row, column), op.value)
  {
    OperatorsMean(schema, column, ops);
    var r := CompileOperators(schema, column, ops).value;
    forall i | 0 <= i < |ops|
      ensures Holds(db, row, r[i]) <==> db.test(ops[i].name, db.column(row, column), ops[i].value)
    {
    }
    if HoldAll(db, row, r) {
      forall op | op in ops ensures db.test(op.name, db.column(row, column), op.value) {
        var i :| 0 <= i < |ops| && ops[i] == op;
        assert r[i] in r;
      }
    }
  }

  lemma RelatedMeans(db: Db, row: Row, rel: string, nested: seq<Condition>, useList: bool)
    requires !useList ==> |db.related(row, rel)| <= 1
    ensures Holds(db, row, if useList then Any(rel, nested) else Has(rel, nested))
       <==> exists child <- db.related(row, rel) :: HoldAll(db, child, nested)
  {
    var children := db.related(row, rel);
    if child :| child in children && HoldAll(db, child, nested) {
      if !useList { assert children == [child]; }
    }
    if useList && Holds(db, row, Any(rel, nested)) {
      var child :| child in children && forall c <- nested :: Holds(db, child, c);
      assert HoldAll(db, child, nested);
    }
    if !useList && Holds(db, row, Has(rel, nested)) {
      assert children[0] in children && HoldAll(db, children[0], nested);
    }
  }

  // ---------------------------------------------------------------- the statement

  /** The rows a statement keeps: all of them when there is nothing to ask. */
  predicate Kept(db: Db, row: Row, whereClauses: seq<Condition>) {
    whereClauses == [] || HoldAll(db, row, whereClauses)
  }

  /** Compiling preserves meaning: the tree is rejected exactly when it is ill-typed, and otherwise a
      row is kept exactly when direct interpretation accepts it. */
  lemma CompilationPreservesMeaning(schema: Schema, db: Db, model: string, entries: seq<FilterEntry>, row: Row)
    requires Closed(schema) && Mapped(schema, db) && model in schema.models && row.model == model
    ensures CompileFilters(schema, model, entries).Ok? <==> WellTyped(schema, model, entries)
    ensures WellTyped(schema, model, entries) ==>
              var conditions := CompileFilters(schema, model, entries).value;
              Kept(db, row, conditions) <==> Accepts(schema, db, model, row, entries)
  {
    CompilesExactly(schema, model, entries);
    if WellTyped(schema, model, entries) { FiltersMean(schema, db, model, row, entries); }
  }

  /** Where "eq" compares for equality, a plain value keeps exactly the rows that have it. */
  lemma PlainValueIsEquality(schema: Schema, db: Db, model: string, row: Row, name: string, value: int)
    requires Closed(schema) && model in schema.models && name in schema.models[model].attributes
    requires forall x, v :: db.test("eq", x, Leaf(v)) <==> x == v
    ensures var r := CompileFilters(schema, model, [FilterEntry(name, Leaf(value))]);
            r.Ok? && (Kept(db, row, r.value) <==> db.column(row, name) == value)
  {
    var c := Compare(name, "eq", Leaf(value));
    assert CompileFilters(schema, model, [FilterEntry(name, Leaf(value))]) == Ok([c] + []);
    assert c in [c] && [c] + [] == [c];
  }

  // ---------------------------------------------------------------- the error that is reported

  /** The entry is at fault, for this reason; inside a nested filter the first entry at fault counts. */
  ghost predicate Blames(schema: Schema, model: string, e: FilterEntry, error: Error)
    requires Closed(schema) && model in schema.models
    decreases e, 0
  {
    var m := schema.models[model];
    if e.name in m.attributes then
      && e.value.Node?
      && exists i :: FirstUnknown(schema, e.value.entries, i) && error == UnknownOperator(e.value.entries[i].name)
    else if e.name !in m.relationships then error == NotAnAttribute(e.name)
    else if e.value.Leaf? then error == NotADict(e.name)
    else BlamesFirst(schema, m.relationships[e.name].target, e.value.entries, error)
  }

  predicate FirstUnknown(schema: Schema, ops: seq<FilterEntry>, i: int) {
    0 <= i < |ops| && ops[i].name !in schema.operators && forall j :: 0 <= j < i ==> ops[j].name in schema.operators
  }

  ghost predicate BlamesFirst(schema: Schema, model: string, entries: seq<FilterEntry>, error: Error)
    requires Closed(schema) && model in schema.models
    decreases entries, 1
  {
    exists i :: 0 <= i < |entries| && Blames(schema, model, entries[i], error)
                && forall j :: 0 <= j < i ==> WellTypedEntry(schema, model, entries[j])
  }

  lemma {:induction false} OperatorsBlame(schema: Schema, column: string, ops: seq<FilterEntry>, error: Error)
    ensures CompileOperators(schema, column, ops) == Err(error) <==>
            exists i :: FirstUnknown(schema, ops, i) && error == UnknownOperator(ops[i].name)
  {
    if ops != [] {
      OperatorsBlame(schema, column, ops[1..], error);
      if ops[0].name !in schema.operators {
        assert FirstUnknown(schema, ops, 0) && forall i :: FirstUnknown(schema, ops, i) ==> i == 0;
      } else {
        forall i | FirstUnknown(schema, ops, i) ensures FirstUnknown(schema, ops[1..], i - 1) { }
        if i :| FirstUnknown(schema, ops[1..], i) && error == UnknownOperator(ops[1..][i].name) {
          assert FirstUnknown(schema, ops, i + 1) && ops[i + 1] == ops[1..][i];
        }
      }
    }
  }

  /** A tree is rejected with the reason of its first entry that is at fault. */
  lemma {:induction false} FirstErrorReported(schema: Schema, model: string, entries: seq<FilterEntry>, error: Error)
    requires Closed(schema) && model in schema.models
    ensures CompileFilters(schema, model, entries) == Err(error) <==> BlamesFirst(schema, model, entries, error)
    decreases entries, 1
  {
    if entries != [] {
      EntryErrorReported(schema, model, entries[0], error);
      EntryCompilesExactly(schema, model, entries[0]);
      FirstErrorReported(schema, model, entries[1..], error);
      BlamesHead(schema, model, entries, error);
    }
  }

  lemma {:induction false} BlamesHead(schema: Schema, model: string, entries: seq<FilterEntry>, error: Error)
    requires Closed(schema) && model in schema.models && entries != []
    ensures BlamesFirst(schema, model, entries, error) <==>
            Blames(schema, model, entries[0], error)
            || (WellTypedEntry(schema, model, entries[0]) && BlamesFirst(schema, model, entries[1..], error))
  {
    var rest := entries[1..];
    if i :| 0 <= i < |entries| && Blames(schema, model, entries[i], error)
            && forall j :: 0 <= j < i ==> WellTypedEntry(schema, model, entries[j]) {
      if i > 0 {
        assert rest[i - 1] == entries[i];
        forall j | 0 <= j < i - 1 ensures WellTypedEntry(schema, model, rest[j]) { assert rest[j] == entries[j + 1]; }
      }
    }
    if WellTypedEntry(schema, model, entries[0]) && BlamesFirst(schema, model, rest, error) {
      var i :| 0 <= i < |rest| && Blames(schema, model, rest[i], error)
               && forall j :: 0 <= j < i ==> WellTypedEntry(schema, model, rest[j]);
      assert entries[i + 1] == rest[i];
      forall j | 0 <= j < i + 1 ensures WellTypedEntry(schema, model, entries[j]) {
        if j > 0 { assert entries[j] == rest[j - 1]; }
      }
    }
  }

  lemma {:induction false} EntryErrorReported(schema: Schema, model: string, e: FilterEntry, error: Error)
    requires Closed(schema) && model in schema.models
    ensures CompileEntry(schema, model, e) == Err(error) <==> Blames(schema, model, e, error)
    decreases e, 0
  {
    var m := schema.models[model];
    if e.value.Node? {
      if e.name in m.attributes {
        OperatorsBlame(schema, e.name, e.value.entries, error);
      } else if e.name in m.relationships {
        FirstErrorReported(schema, m.relationships[e.name].target, e.value.entries, error);
      }
    }
  }

  // ---------------------------------------------------------------- the parser as it runs

  /** `parse_filters`: one loop over the entries, appending to a list, recursive for relationships. */
  method ParseFilters(schema: Schema, model: string, entries: seq<FilterEntry>)
    returns (r: Result<seq<Condition>, Error>)
    requires Closed(schema) && model in schema.models
    ensures r == CompileFilters(schema, model, entries)
    decreases entries
  {
    var m := schema.models[model];
    var conditions: seq<Condition> := [];
    assert entries[0..] == entries;
    PrependNothing(CompileFilters(schema, model, entries));
    for i := 0 to |entries|
      invariant CompileFilters(schema, model, entries)
                == Prepend(conditions, CompileFilters(schema, model, entries[i..]))
    {
      var e := entries[i];
      assert entries[i..][1..] == entries[i + 1..];
      PrependTwice(conditions, schema, model, entries[i..]);
      if e.name in m.attributes {
        if e.value.Leaf? {
          conditions := conditions + [Compare(e.name, EQ, e.value)];
        } else {
          var ops := ParseOperators(schema, e.name, e.value.entries);
          if ops.Err? {
            return ops;
          }
          conditions := conditions + ops.value;
        }
      } else if e.name in m.relationships {
        if e.value.Leaf? {
          return Err(NotADict(e.name));
        }
        var rel := m.relationships[e.name];
        var nested := ParseFilters(schema, rel.target, e.value.entries);
        if nested.Err? {
          return nested;
        }
        if nested.value != [] {
          conditions := conditions + [if rel.useList then Any(e.name, nested.value) else Has(e.name, nested.value)];
        } else {
          assert conditions + [] == conditions;
        }
      } else {
        return Err(NotAnAttribute(e.name));
      }
    }
    assert entries[|entries|..] == [] && conditions + [] == conditions;
    r := Ok(conditions);
  }

  method ParseOperators(schema: Schema, column: string, ops: seq<FilterEntry>)
    returns (r: Result<seq<Condition>, Error>)
    ensures r == CompileOperators(schema, column, ops)
  {
    var conditions: seq<Condition> := [];
    assert ops[0..] == ops;
    PrependNothing(CompileOperators(schema, column, ops));
    for i := 0 to |ops|
      invariant CompileOperators(schema, column, ops) == Prepend(conditions, CompileOperators(schema, column, ops[i..]))
    {
      assert ops[i..][1..] == ops[i + 1..];
      if ops[i].name !in schema.operators {
        return Err(UnknownOperator(ops[i].name));
      }
      var rest := CompileOperators(schema, column, ops[i + 1..]);
      if rest.Ok? { PrependOne(conditions, Compare(column, ops[i].name, ops[i].value), rest.value); }
      conditions := conditions + [Compare(column, ops[i].name, ops[i].value)];
    }
    assert ops[|ops|..] == [] && conditions + [] == conditions;
    r := Ok(conditions);
  }

  function Prepend(done: seq<Condition>, r: Result<seq<Condition>, Error>): Result<seq<Condition>, Error> {
    match r
    case Err(e) => Err(e)
    case Ok(rest) => Ok(done + rest)
  }

  lemma PrependNothing(r: Result<seq<Condition>, Error>)
    ensures Prepend([], r) == r
  {
    if r.Ok? { assert [] + r.value == r.value; }
  }

  lemma PrependOne(done: seq<Condition>, c: Condition, rest: seq<Condition>)
    ensures done + ([c] + rest) == done + [c] + rest
  {
  }

  lemma PrependTwice(done: seq<Condition>, schema: Schema, model: string, entries: seq<FilterEntry>)
    requires Closed(schema) && model in schema.models && entries != []
    ensures var first := CompileEntry(schema, model, entries[0]);
            Prepend(done, CompileFilters(schema, model, entries))
            == if first.Err? then Err(first.error)
               else Prepend(done + first.value, CompileFilters(schema, model, entries[1..]))
  {
    var first, rest := CompileEntry(schema, model, entries[0]), CompileFilters(schema, model, entries[1..]);
    if first.Ok? && rest.Ok? {
      assert done + (first.value + rest.value) == done + first.value + rest.value;
    }
  }
}
