/**
 * The `Ajv` object: a registry of schemas keyed by identifier, filled by
 * `addSchema`, and `compile`, which hands a snapshot of that registry to the
 * validator builder as its retriever.
 */
module Registry {
  import opened Wrappers
  import opened Json
  import opened Retrieval
  import opened Drafts

  /** The key of a schema registered with no explicit key and no identifier. */
  const UnknownKey: string := "unknown"

  /** The error of a registration whose chosen identifier is not a string. */
  const NonStringIdError: string := "Schema ID must be a string"

  /** True when `v` is an object with a member called `name`. */
  predicate HasMember(v: Value, name: string) {
    v.Object? && name in v.fields
  }

  /**
   * The registry key `addSchema` uses: the explicit key verbatim; otherwise
   * the `$id` member, else the `id` member, which must be a string; otherwise
   * "unknown".
   */
  function DeriveKey(schema: Value, key: Option<string>): (r: Result<string, string>)
    ensures key.Some? ==> r == Ok(key.value)
    ensures key.None? && HasMember(schema, "$id") ==>
      r == if schema.fields["$id"].String? then Ok(schema.fields["$id"].s) else Err(NonStringIdError)
    ensures key.None? && !HasMember(schema, "$id") && HasMember(schema, "id") ==>
      r == if schema.fields["id"].String? then Ok(schema.fields["id"].s) else Err(NonStringIdError)
    ensures key.None? && !HasMember(schema, "$id") && !HasMember(schema, "id") ==> r == Ok(UnknownKey)
  {
    match key
    case Some(k) => Ok(k)
    case None =>
      match Get(schema, "$id").OrElse(Get(schema, "id"))
      case Some(idVal) =>
        (match AsStr(idVal)
         case Some(idStr) => Ok(idStr)
         case None => Err(NonStringIdError))
      case None => Ok(UnknownKey)
  }

  /** What `compile` hands to the validator builder. */
  datatype BuildOptions = BuildOptions(
    retriever: SchemaRetriever,
    validateFormats: bool,
    draft: Option<Draft>,
    schema: Value)

  class Ajv {
    /** The registered schemas, by key. */
    var schemas: map<string, Value>

    constructor ()
      ensures schemas == map[]
    {
      schemas := map[];
    }

    /**
     * `addSchema`: registers `schema` under its derived key, replacing any
     * schema already there; on a non-string identifier nothing changes.
     */
    method AddSchema(schema: Value, key: Option<string>) returns (r: Outcome<string>)
      modifies this
      ensures DeriveKey(schema, key).Err? ==> r == Fail(NonStringIdError) && schemas == old(schemas)
      ensures DeriveKey(schema, key).Ok? ==>
        var id := DeriveKey(schema, key).value;
        && r == Pass
        && schemas.Keys == old(schemas).Keys + {id}
        && schemas[id] == schema
        && forall k :: k in old(schemas) && k != id ==> schemas[k] == old(schemas)[k]
    {
      var id: string;
      if key.Some? {
        id := key.value;
      } else {
        var idVal := Get(schema, "$id").OrElse(Get(schema, "id"));
        if idVal.Some? {
          var idStr := AsStr(idVal.value);
          if idStr.Some? {
            id := idStr.value;
          } else {
            return Fail(NonStringIdError);
          }
        } else {
          id := UnknownKey;
        }
      }
      schemas := schemas[id := schema];
      r := Pass;
    }

    /**
     * `compile`, up to the build: a retriever over the registry as it is now,
     * format validation on, and the draft the hint selects (none leaves the
     * builder's default).
     */
    method Compile(schema: Value, draftUri: Option<string>) returns (opts: BuildOptions)
      ensures opts.retriever.schemas == schemas
      ensures opts.validateFormats
      ensures opts.draft.Some? <==> draftUri.Some? && exists d :: MetaSchemaUri(d) == draftUri.value
      ensures opts.draft.Some? ==> MetaSchemaUri(opts.draft.value) == draftUri.value
      ensures opts.schema == schema
    {
      var retriever := SchemaRetriever(schemas);
      opts := BuildOptions(retriever, true, None, schema);
      if draftUri.Some? {
        var draft := DraftFromUri(draftUri.value);
        if draft.Some? {
          opts := opts.(draft := draft);
        }
      }
    }
  }

  /** A schema registered under an identifier is what retrieving that identifier gives. */
  lemma RegisteredSchemaIsRetrieved(schemas: map<string, Value>, schema: Value, key: Option<string>)
    requires DeriveKey(schema, key).Ok?
    ensures var id := DeriveKey(schema, key).value;
      SchemaRetriever(schemas[id := schema]).Retrieve(id) == Ok(schema)
  {
  }

  /**
   * A `$ref` to a fragment of a document registered under a `#`-free
   * identifier resolves to that document, unless the full URI is itself a key.
   */
  lemma FragmentRefFindsRegisteredDocument(schemas: map<string, Value>, schema: Value, key: Option<string>, f: string)
    requires DeriveKey(schema, key).Ok? && '#' !in DeriveKey(schema, key).value
    requires DeriveKey(schema, key).value + "#" + f !in schemas
    ensures var id := DeriveKey(schema, key).value;
      SchemaRetriever(schemas[id := schema]).Retrieve(id + "#" + f) == Ok(schema)
  {
    var id := DeriveKey(schema, key).value;
    var after := schemas[id := schema];
    assert id + "#" + f != id by {
      assert |id + "#" + f| > |id|;
    }
    RetrieveFragmentFallback(SchemaRetriever(after), id, f);
  }

  /**
   * The retriever captured by `compile` keeps answering from the registry as
   * it was, whatever `addSchema` registers afterwards (copy-on-write).
   */
  method CompileIsolatedFromLaterAdds(ajv: Ajv, schema: Value, draftUri: Option<string>,
                                      later: Value, laterKey: Option<string>, uri: string)
    returns (before: Result<Value, string>, after: Result<Value, string>)
    modifies ajv
    ensures before == after == SchemaRetriever(old(ajv.schemas)).Retrieve(uri)
    ensures DeriveKey(later, laterKey).Ok? ==>
      ajv.schemas == old(ajv.schemas)[DeriveKey(later, laterKey).value := later]
    ensures DeriveKey(later, laterKey).Err? ==> ajv.schemas == old(ajv.schemas)
  {
    var opts := ajv.Compile(schema, draftUri);
    before := opts.retriever.Retrieve(uri);
    var _ := ajv.AddSchema(later, laterKey);
    after := opts.retriever.Retrieve(uri);
  }
}
