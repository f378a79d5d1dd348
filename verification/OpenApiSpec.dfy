/** The document that `populate_shallow_refs` mutates in place (app/spec/shallow.py:29-208). */
module OpenApiSpec {
  import opened Options
  import opened SchemaExpansion

  const SCHEMAS_WITH_SHALLOW_REFS: set<string> := {
    "Beatmap", "BeatmapSnapshot", "Beatmapset", "BeatmapsetSnapshot", "Leaderboard",
    "BeatmapFilter", "BeatmapSnapshotFilter", "BeatmapsetFilter", "BeatmapsetSnapshotFilter",
    "BeatmapInclude", "BeatmapSnapshotInclude", "BeatmapsetInclude", "BeatmapsetSnapshotInclude",
    "LeaderboardInclude", "RequestInclude"
  }

  /** A path or operation parameter; `schema` is an inlined copy of a component, if any. */
  datatype Parameter = Parameter(name: string, schema: Option<Schema>)

  predicate Affected(p: Parameter, table: Table) {
    && p.schema.Some? && p.schema.value.title.Some?
    && p.schema.value.title.value in SCHEMAS_WITH_SHALLOW_REFS
    && p.schema.value.title.value in table
  }

  /** A parameter that takes the stored schema of its title, if it is affected. */
  function Updated(p: Parameter, table: Table): Parameter {
    if Affected(p, table) then p.(schema := Some(table[p.schema.value.title.value])) else p
  }

  class Document {
    var schemas: Table
    const parameters: array<Parameter>

    constructor (schemas: Table, parameters: array<Parameter>)
      ensures this.schemas == schemas && this.parameters == parameters
    {
      this.schemas := schemas;
      this.parameters := parameters;
    }

    /** The names are walked in an arbitrary order and each lookup sees the entries overwritten so
        far; the outcome is nevertheless the table expanded at once, and every parameter copy of a
        listed component becomes the expansion of that component. */
    method PopulateShallowRefs(ghost voc: Vocabulary)
      requires Hygienic(schemas, voc) && Plain(voc) && Unambiguous(voc)
      requires SCHEMAS_WITH_SHALLOW_REFS !! Mistitled(schemas)
      modifies `schemas, parameters
      ensures schemas == ExpandedAtOnce(old(schemas), SCHEMAS_WITH_SHALLOW_REFS)
      ensures forall i :: 0 <= i < parameters.Length ==>
                parameters[i] == (if Affected(old(parameters[i]), old(schemas)) then
                                    old(parameters[i]).(schema := Some(Expansion(
                                      old(schemas), old(parameters[i]).schema.value.title.value)))
                                  else old(parameters[i]))
    {
      ghost var original := schemas;
      var remaining := SCHEMAS_WITH_SHALLOW_REFS;
      while remaining != {}
        invariant remaining <= SCHEMAS_WITH_SHALLOW_REFS
        invariant schemas == ExpandedAtOnce(original, SCHEMAS_WITH_SHALLOW_REFS - remaining)
        invariant Partial(original, schemas)
        invariant forall i :: 0 <= i < parameters.Length ==> parameters[i] == old(parameters[i])
      {
        var name :| name in remaining;
        ghost var next := Visit(schemas, name);
        NextVisit(original, schemas, voc, SCHEMAS_WITH_SHALLOW_REFS - remaining, name);
        if name in schemas {
          var fullyResolved := ResolveSchema(schemas, schemas[name], []);
          schemas := schemas[name := fullyResolved.value];
        }
        assert schemas == next;
        assert SCHEMAS_WITH_SHALLOW_REFS - remaining + {name} == SCHEMAS_WITH_SHALLOW_REFS - (remaining - {name});
        remaining := remaining - {name};
      }
      PropagateToParameters();
    }

    method PropagateToParameters()
      modifies parameters
      ensures forall i :: 0 <= i < parameters.Length ==> parameters[i] == Updated(old(parameters[i]), schemas)
    {
      for i := 0 to parameters.Length
        invariant forall j :: i <= j < parameters.Length ==> parameters[j] == old(parameters[j])
        invariant forall j :: 0 <= j < i ==> parameters[j] == Updated(old(parameters[j]), schemas)
      {
        var p := parameters[i];
        if Affected(p, schemas) {
          parameters[i] := p.(schema := Some(schemas[p.schema.value.title.value]));
        }
      }
    }
  }
}
