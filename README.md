# ajv-napi schema registry, reference retrieval and draft selection

ajv-napi is a Node binding that exposes an Ajv-like API over the Rust
`jsonschema` crate. Nearly all of its work (keyword evaluation, `$ref`
semantics, formats, error text) happens inside that crate. The binding's
own logic is three small pieces in `src/lib.rs`, and this project models
and proves properties of exactly those:

- **Reference retrieval** (`SchemaRetriever::retrieve`). A `$ref` URI is
  looked up in the map of pre-registered schemas under three keys, in
  order: the URI itself; the URI cut at its first `#` (the fragment
  delimiter of section 3.5 of RFC 3986); and that base with every
  trailing `/` trimmed. If all three miss, the result is the error
  "Schema not found: <uri>". Module `Retrieval`, a pure function on the
  value type `SchemaRetriever`.
- **Registration** (`Ajv::add_schema`). The key is, in order: the explicit
  key; the `$id` member; the `id` member; the text "unknown". A chosen
  identifier that is not a string is the error "Schema ID must be a
  string", and the registry is then left unchanged. Otherwise the schema
  is inserted, replacing any entry under that key. Module `Registry`,
  class `Ajv`, whose `schemas` map field `AddSchema` updates in place.
- **Compilation setup** (`Ajv::compile` up to the build). The caller gets
  a retriever over a snapshot of the registry, format validation is on,
  and an optional draft hint is applied. The hint works only when it is
  one of five exact meta-schema URIs. Any other string, or no hint, keeps
  the builder's default. Modules `Drafts` and `Registry`.

The registry sits behind an `Arc` with copy-on-write (`Arc::make_mut`), so a
retriever handed out by `compile` never sees later registrations. A Dafny
`map` is a value, which is exactly what copy-on-write provides.
`Registry.CompileIsolatedFromLaterAdds` states this property.

JSON values (`Json.Value`) are abstract: null, booleans, numbers (as reals,
since nothing here inspects them), strings, arrays and objects (maps from
member name to value). `Json.Get` mirrors `Value::get` with a string key,
which finds nothing in a non-object. `Json.AsStr` mirrors `Value::as_str`.

Four facts about `src/lib.rs` that the model keeps:
- Registration fails when the chosen identifier is not a string.
- A schema with no identifier is registered under "unknown".
- The legacy `id` member is consulted after `$id`. A present `$id` that is
  not a string is an error even when `id` is a string.
- The code has no `removeSchema` operation.

## Model

| member | source | states |
|---|---|---|
| `Json.Get` | src/lib.rs:71 | a lookup by member name succeeds exactly on an object with that member and yields that member's value |
| `Json.AsStr` | src/lib.rs:72 | the text is present exactly for a string value, and it is that string |
| `Retrieval.BaseUri` | src/lib.rs:37 | the result is a prefix of the URI, contains no `#`, and stops at the first `#` (or is the whole URI when it has none) |
| `Retrieval.TrimTrailingSlashes` | src/lib.rs:43 | the result is a prefix that does not end in `/`, and everything cut off is `/` |
| `Retrieval.LookupKeys` | src/lib.rs:31-46 | three keys are tried in order: the URI itself, its base before the first `#`, and that base without trailing `/`; every key is a prefix of the URI |
| `Retrieval.SchemaRetriever.Retrieve` | src/lib.rs:24-50 | an exact match wins; the lookup succeeds iff some lookup key is registered, with the value under the first registered key in order; otherwise the error is "Schema not found: " followed by the URI (the text `NotFound` builds, line 48) |
| `Retrieval.BaseUriUnique` | src/lib.rs:37 | any prefix with BaseUri's three properties is BaseUri, so those properties define the cut |
| `Retrieval.TrimTrailingSlashesUnique` | src/lib.rs:43 | any prefix with the trim's three properties is the trimmed text |
| `Retrieval.BaseUriWithoutFragment` | src/lib.rs:37 | a URI without `#` is its own base |
| `Retrieval.BaseUriOfFragment` | src/lib.rs:37 | cutting `u#f` gives `u` for a `#`-free `u` and any fragment `f`, including one holding more `#` |
| `Retrieval.TrimAllTrailingSlashes` | src/lib.rs:43 | appending any number of `/` does not change the trimmed text: all trailing slashes go, not only one |
| `Retrieval.TrimTrailingSlashesIdempotent` | src/lib.rs:43 | trimming twice equals trimming once |
| `Retrieval.RetrieveFragmentFallback` | src/lib.rs:36-40 | `u#f` that is not itself registered resolves to the schema under the document URI `u` |
| `Retrieval.RetrieveWithoutFragment` | src/lib.rs:36-48 | for a `#`-free URI that misses exactly, the answer is the schema under the slash-trimmed URI, or "Schema not found" |
| `Retrieval.RetrieveSlashFallback` | src/lib.rs:42-46 | a URI with any number of extra trailing `/` finds the schema registered without them |
| `Retrieval.RetrieveFindsPrefix` | src/lib.rs:31-46 | a successful lookup returns a schema stored under a prefix of the requested URI; the fallbacks only shorten the request and never extend it |
| `Retrieval.RetrieveDependsOnlyOnLookupKeys` | src/lib.rs:31-48 | registries that agree on the three lookup keys give the same answer, so keys outside them never matter |
| `Drafts.MetaSchemaUri` | src/lib.rs:106-111 | each draft's URI is non-empty, and it ends in `#` exactly for drafts 4, 6 and 7 |
| `Drafts.DraftFromUri` | src/lib.rs:106-113 | a selected draft is the one whose URI equals the string; every one of the five URIs selects a draft |
| `Drafts.SelectDraft` | src/lib.rs:105-116 | with no hint there is no override; otherwise there is one exactly when the hint equals one of the five URIs, and it is that URI's draft |
| `Drafts.DraftFromUriExact` | src/lib.rs:106-113 | a string selects draft `d` if and only if it is `d`'s URI |
| `Drafts.MetaSchemaUriInjective` | src/lib.rs:106-111 | distinct drafts have distinct URIs |
| `Drafts.TrailingHashIsSignificant` | src/lib.rs:106-112 | a draft URI with a `#` added selects nothing, and so does a draft 4, 6 or 7 URI with its `#` removed |
| `Registry.DeriveKey` | src/lib.rs:68-80 | an explicit key is used verbatim; else a present `$id` decides (its string, or the error even if `id` is a string); else a present `id` decides the same way; else the key is "unknown" |
| `Registry.Ajv.constructor` | src/lib.rs:59-64 | a new registry is empty |
| `Registry.Ajv.AddSchema` | src/lib.rs:66-86 | on a non-string identifier it returns the error and leaves the registry unchanged; otherwise it succeeds, and the derived key maps to the schema with all other entries kept |
| `Registry.Ajv.Compile` | src/lib.rs:88-116 | the retriever holds the registry as it is at the call, format validation is on, the schema is passed through, and the draft override is present exactly for one of the five URIs, being that URI's draft |
| `Registry.RegisteredSchemaIsRetrieved` | src/lib.rs:83-84 | after registration, retrieving the derived key returns the schema just registered |
| `Registry.FragmentRefFindsRegisteredDocument` | src/lib.rs:36-40 | after registration under a `#`-free identifier, a `$ref` to any fragment of it resolves to that schema unless the full URI is itself a key |
| `Registry.CompileIsolatedFromLaterAdds` | src/lib.rs:83-97 | a retriever obtained from `compile` answers a lookup the same before and after a later `addSchema`, as the registry stood at compile time, while the live registry does take the new entry when registration succeeds |

## Left out

- Building the validator (`options().build`), `is_valid`, `iter_errors`, format checking and error text all belong to the `jsonschema` crate, which is not part of this model. `Compile` therefore ends at the options it would pass to the builder, and the build error is not modelled.
- The crate's behaviour with a retriever failure, such as how an unresolved `$ref` becomes a compile error, is not part of this model.
- `Uri<String>` is modelled by its text (`as_str`). The crate's URI parsing and normalisation, done before `retrieve` is called, are not part of this model.
- JSON decoding (`serde_json::from_str`, `simd_json::serde::from_slice`) is a foreign parser and is not modelled. Neither are the `validate`, `validateString`, `validateBuffer`, `isValidBuffer` and `isValidString` wrappers that decode and then delegate to the crate.
- The thread-local parse buffer and the global allocator only affect performance and carry no behaviour.
- The N-API glue (attributes, `Buffer`, `Error::from_reason`, and the `ValidationResult` and `AjvError` object shapes) is host plumbing. Errors are modelled by their message text.
- Number values are abstract reals. The crate's integer/float distinction matters only inside the validator.
- Reference counting in `Arc` is not modelled. The registry is a value, which is the behaviour `Arc::make_mut`'s copy-on-write guarantees, but the model does not show whether a copy is actually made.
