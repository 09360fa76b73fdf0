/** The part of a Mongoose schema the router factories inspect: the entries
    of `Model.schema.paths`, in order, and the stripping of unique-flagged
    fields from an update payload, which both factories do the same way. */
module Schema {
  import opened Values

  /** One entry of `validators` of a schema path; only its `type` is read. */
  datatype Validator = Validator(kind: string)

  /** The `type` option of a schema path: a constructor such as `String`,
      a type given by name such as `'String'`, or an array such as
      `[ObjectId]`. */
  datatype TypeOption =
    | Constructor(name: string)
    | TypeName(name: string)
    | ArrayOf(elements: seq<TypeOption>)

  /** One entry `[pathName, schemaType]` of `Object.entries(schema.paths)`:
      the validators and the `unique`, `ref` and `type` options. */
  datatype SchemaPath = SchemaPath(
    name: string,
    validators: seq<Validator>,
    unique: Json,
    ref: Json,
    typ: TypeOption)

  /** `options.unique == true` (loose equality: true and 1). */
  predicate UniqueFlagged(p: SchemaPath) {
    p.unique == JBool(true) || p.unique == JNum(1)
  }

  /** The names of the unique-flagged paths. */
  function UniquePaths(schema: seq<SchemaPath>): set<string> {
    set i | 0 <= i < |schema| && UniqueFlagged(schema[i]) :: schema[i].name
  }

  /** The update payload excludeUniqueFieldsFromPUT leaves in `req.toUpdate`. */
  function WithoutUnique(schema: seq<SchemaPath>, body: map<string, Json>): map<string, Json> {
    map k | k in body && k !in UniquePaths(schema) :: body[k]
  }

  /** excludeUniqueFieldsFromPUT: copy the body, then delete from the copy
      the key of every unique-flagged schema path, in schema order. */
  method ExcludeUniqueFields(schema: seq<SchemaPath>, body: map<string, Json>)
    returns (toUpdate: map<string, Json>)
    ensures toUpdate.Keys == body.Keys - UniquePaths(schema)
    ensures forall k :: k in toUpdate ==> toUpdate[k] == body[k]
    ensures toUpdate == WithoutUnique(schema, body)
  {
    toUpdate := body;
    for i := 0 to |schema|
      invariant toUpdate.Keys == body.Keys - UniquePaths(schema[..i])
      invariant forall k :: k in toUpdate ==> toUpdate[k] == body[k]
    {
      assert UniquePaths(schema[..i + 1]) ==
             UniquePaths(schema[..i]) + (if UniqueFlagged(schema[i]) then {schema[i].name} else {}) by {
        assert forall j :: 0 <= j < i ==> schema[..i + 1][j] == schema[..i][j];
      }
      if UniqueFlagged(schema[i]) {
        toUpdate := toUpdate - {schema[i].name};
      }
    }
    assert schema[..|schema|] == schema;
  }
}
