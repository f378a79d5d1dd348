/** Reading the default include tree off an expanded include schema (api/utils.py:208-245). */
module IncludeDefaults {
  import opened Options
  import opened SchemaExpansion

  datatype Error =
    | ShallowUnresolved  // "Shallow schemas were not properly resolved"
    | NotASchema         // an object without "properties": its own entries are read as schemas

  datatype Field = Field(name: string, node: IncludeNode)

  /** `__enabled__` with `__schema__` either True or a nested tree. */
  datatype IncludeNode = Flag(enabled: bool) | Group(enabled: bool, fields: seq<Field>)

  function FirstObject(branches: seq<Schema>): (r: Option<Schema>)
    ensures r.Some? ==> r.value in branches && r.value.kind.Object?
    ensures r.None? ==> forall b <- branches :: !b.kind.Object?
  {
    if branches == [] then None
    else if branches[0].kind.Object? then Some(branches[0])
    else FirstObject(branches[1..])
  }

  /** The default of the first boolean branch, False when there is none or it has none. */
  function FirstDefault(branches: seq<Schema>): bool {
    if branches == [] then false
    else if branches[0].kind.Boolean? then branches[0].kind.default == Some(true)
    else FirstDefault(branches[1..])
  }

  function ExtractDefaults(schema: Schema): (r: Result<seq<Field>, Error>)
    decreases schema, 0
  {
    if schema == EMPTY_NODE then Ok([])
    else if schema.title.Some? && IsShallow(schema.title.value) then Err(ShallowUnresolved)
    else match schema.props
      case NoProps => Err(NotASchema)
      case Props(list) => ExtractFields(list)
  }

  function ExtractFields(props: seq<Property>): (r: Result<seq<Field>, Error>)
    decreases props, 1
  {
    if props == [] then Ok([])
    else
      match ExtractField(props[0])
      case Err(e) => Err(e)
      case Ok(first) =>
        match ExtractFields(props[1..])
        case Err(e) => Err(e)
        case Ok(rest) => Ok(first + rest)
  }

  /** What one property adds: nothing unless it is a boolean or a choice. */
  function ExtractField(prop: Property): (r: Result<seq<Field>, Error>)
    decreases prop, 0
  {
    match prop.schema.kind
    case Boolean(default, _) => Ok([Field(prop.name, Flag(default == Some(true)))])
    case OneOf(branches) =>
      var object_ := FirstObject(branches);
      if object_.None? then Ok([Field(prop.name, Group(FirstDefault(branches), []))])
      else
        (match ExtractDefaults(object_.value)
         case Err(e) => Err(e)
         case Ok(fields) => Ok([Field(prop.name, Group(FirstDefault(branches), fields))]))
    case _ => Ok([])
  }

  // ---------------------------------------------------------------- expanded schemas never fail

  /** Every object that the reader enters has "properties". */
  predicate Browsable(schema: Schema)
    decreases schema, 0
  {
    schema.props.Props? && forall p <- schema.props.list :: BrowsableField(p)
  }

  predicate BrowsableField(prop: Property)
    decreases prop, 0
  {
    prop.schema.kind.OneOf? ==>
      var object_ := FirstObject(prop.schema.kind.branches);
      object_.Some? ==> Browsable(object_.value)
  }

  lemma {:induction false} TidyDefaults(schema: Schema, path: set<string>)
    requires Tidy(schema, path) && schema.kind.Object?
    ensures ExtractDefaults(schema) != Err(ShallowUnresolved)
    ensures ExtractDefaults(schema).Ok? <==> Browsable(schema)
    decreases schema, 0
  {
    if schema.props.Props? {
      TidyFields(schema.props.list, if schema.title.Some? then path + {schema.title.value} else path);
    }
  }

  lemma {:induction false} TidyFields(props: seq<Property>, path: set<string>)
    requires forall p <- props :: Tidy(p.schema, path)
    ensures ExtractFields(props) != Err(ShallowUnresolved)
    ensures ExtractFields(props).Ok? <==> forall p <- props :: BrowsableField(p)
    decreases props, 1
  {
    if props != [] {
      TidyField(props[0], path);
      TidyFields(props[1..], path);
    }
  }

  lemma {:induction false} TidyField(prop: Property, path: set<string>)
    requires Tidy(prop.schema, path)
    ensures ExtractField(prop) != Err(ShallowUnresolved)
    ensures ExtractField(prop).Ok? <==> BrowsableField(prop)
    decreases prop, 0
  {
    if prop.schema.kind.OneOf? {
      var object_ := FirstObject(prop.schema.kind.branches);
      if object_.Some? {
        TidyDefaults(object_.value, path);
      }
    }
  }

  /** An expanded include schema never raises "not properly resolved"; it fails exactly when some
      object that is entered has no properties. */
  lemma ExpandedNeverUnresolved(table: Table, voc: Vocabulary, name: string)
    requires Hygienic(table, voc) && Plain(voc)
    requires name in table && name !in Mistitled(table) && table[name].kind.Object? && !IsShallow(name)
    ensures var r := ExtractDefaults(Expansion(table, name));
            r != Err(ShallowUnresolved) && (r.Ok? <==> Browsable(Expansion(table, name)))
  {
    ExpansionIsTidy(table, voc, name);
    TidyDefaults(Expansion(table, name), {});
  }

  // ---------------------------------------------------------------- what the tree says

  /** The first of the branches of its kind. */
  ghost predicate IsFirst(branches: seq<Schema>, i: int, object_: bool) {
    && 0 <= i < |branches| && (if object_ then branches[i].kind.Object? else branches[i].kind.Boolean?)
    && forall j :: 0 <= j < i ==> if object_ then !branches[j].kind.Object? else !branches[j].kind.Boolean?
  }

  /** Enabled by default: the first boolean branch says so. */
  ghost predicate EnabledBy(branches: seq<Schema>) {
    exists i :: IsFirst(branches, i, false) && branches[i].kind.default == Some(true)
  }

  /** The tree that is read off a schema: nothing for an empty one, and else a field for every property
      that is a boolean or a choice, in order, and no other. */
  ghost predicate Reads(schema: Schema, fields: seq<Field>)
    decreases schema, 0
  {
    if schema == EMPTY_NODE then fields == []
    else
      && !(schema.title.Some? && IsShallow(schema.title.value)) && schema.props.Props?
      && ReadsFields(schema.props.list, fields)
  }

  predicate HasField(prop: Property) { prop.schema.kind.Boolean? || prop.schema.kind.OneOf? }

  ghost predicate ReadsFields(props: seq<Property>, fields: seq<Field>)
    decreases props, 1
  {
    if props == [] then fields == []
    else if HasField(props[0]) then
      fields != [] && ReadsField(props[0], fields[0]) && ReadsFields(props[1..], fields[1..])
    else ReadsFields(props[1..], fields)
  }

  /** A boolean gives a flag with its default. A choice gives a group: enabled as its first boolean
      branch says, and with the tree of its first object branch, if it has one. */
  ghost predicate ReadsField(prop: Property, field: Field)
    decreases prop, 0
  {
    && field.name == prop.name
    && match prop.schema.kind
       case Boolean(default, _) => field.node == Flag(default == Some(true))
       case OneOf(branches) =>
         && field.node.Group? && (field.node.enabled <==> EnabledBy(branches))
         && (if i :| IsFirst(branches, i, true) then Reads(branches[i], field.node.fields) else field.node.fields == [])
       case _ => false
  }

  lemma {:induction false} FirstObjectIs(branches: seq<Schema>)
    ensures forall i :: IsFirst(branches, i, true) ==> FirstObject(branches) == Some(branches[i])
    ensures FirstObject(branches).Some? ==> exists i :: IsFirst(branches, i, true)
  {
    if branches != [] {
      FirstObjectIs(branches[1..]);
      if branches[0].kind.Object? {
        assert IsFirst(branches, 0, true);
      } else {
        forall i | IsFirst(branches, i, true) ensures IsFirst(branches[1..], i - 1, true) { }
        if i :| IsFirst(branches[1..], i, true) { assert IsFirst(branches, i + 1, true); }
      }
    }
  }

  lemma {:induction false} FirstDefaultIs(branches: seq<Schema>)
    ensures FirstDefault(branches) <==> EnabledBy(branches)
  {
    if branches != [] {
      FirstDefaultIs(branches[1..]);
      if branches[0].kind.Boolean? {
        assert IsFirst(branches, 0, false);
        assert forall i :: IsFirst(branches, i, false) ==> i == 0;
      } else {
        forall i | IsFirst(branches, i, false) ensures IsFirst(branches[1..], i - 1, false) { }
        if i :| IsFirst(branches[1..], i, false) && branches[1..][i].kind.default == Some(true) {
          assert IsFirst(branches, i + 1, false) && branches[i + 1].kind.default == Some(true);
        }
      }
    }
  }

  /** The reader returns exactly the tree that the schema says, and fails when it says none. */
  lemma {:induction false} ReadsExactly(schema: Schema, fields: seq<Field>)
    ensures ExtractDefaults(schema) == Ok(fields) <==> Reads(schema, fields)
    decreases schema, 0
  {
    if schema.props.Props? { ReadsFieldsExactly(schema.props.list, fields); }
  }

  lemma {:induction false} ReadsFieldsExactly(props: seq<Property>, fields: seq<Field>)
    ensures ExtractFields(props) == Ok(fields) <==> ReadsFields(props, fields)
    decreases props, 1
  {
    if props == [] {
    } else if HasField(props[0]) {
      FieldIsOne(props[0]);
      if fields != [] {
        ReadsFieldExactly(props[0], fields[0]);
        ReadsFieldsExactly(props[1..], fields[1..]);
        assert [fields[0]] + fields[1..] == fields;
      }
    } else {
      ReadsFieldsExactly(props[1..], fields);
      assert ExtractField(props[0]) == Ok([]);
      var rest := ExtractFields(props[1..]);
      assert rest.Ok? ==> [] + rest.value == rest.value;
    }
  }

  lemma FieldIsOne(prop: Property)
    requires HasField(prop)
    ensures ExtractField(prop).Ok? ==> |ExtractField(prop).value| == 1
  {
  }

  lemma {:induction false} ReadsFieldExactly(prop: Property, field: Field)
    requires HasField(prop)
    ensures ExtractField(prop) == Ok([field]) <==> ReadsField(prop, field)
    decreases prop, 0
  {
    if prop.schema.kind.OneOf? {
      var branches := prop.schema.kind.branches;
      FirstObjectIs(branches);
      FirstDefaultIs(branches);
      if i :| IsFirst(branches, i, true) {
        if field.node.Group? { ReadsExactly(branches[i], field.node.fields); }
      }
    }
  }
}
