/**
 * The draft hint of `Ajv::compile`: five exact meta-schema URIs select a
 * JSON Schema draft; anything else leaves the validator builder's default
 * (its own detection from the schema) in place.
 */
module Drafts {
  import opened Wrappers

  /** The drafts a hint can select (`jsonschema::Draft`). */
  datatype Draft = Draft4 | Draft6 | Draft7 | Draft201909 | Draft202012

  /** The meta-schema URI recognised for each draft. */
  function MetaSchemaUri(d: Draft): (r: string)
    ensures |r| > 0
    ensures r[|r| - 1] == '#' <==> d.Draft4? || d.Draft6? || d.Draft7?
  {
    match d
    case Draft4 => "http://json-schema.org/draft-04/schema#"
    case Draft6 => "http://json-schema.org/draft-06/schema#"
    case Draft7 => "http://json-schema.org/draft-07/schema#"
    case Draft201909 => "https://json-schema.org/draft/2019-09/schema"
    case Draft202012 => "https://json-schema.org/draft/2020-12/schema"
  }

  /** The draft whose meta-schema URI is exactly `uri`, if there is one. */
  function DraftFromUri(uri: string): (r: Option<Draft>)
    ensures r.Some? ==> MetaSchemaUri(r.value) == uri
    ensures (exists d :: MetaSchemaUri(d) == uri) ==> r.Some?
  {
    if uri == "http://json-schema.org/draft-04/schema#" then Some(Draft4)
    else if uri == "http://json-schema.org/draft-06/schema#" then Some(Draft6)
    else if uri == "http://json-schema.org/draft-07/schema#" then Some(Draft7)
    else if uri == "https://json-schema.org/draft/2019-09/schema" then Some(Draft201909)
    else if uri == "https://json-schema.org/draft/2020-12/schema" then Some(Draft202012)
    else None
  }

  /** The draft override of a compile call: none without a hint, else the draft the hint names, if any. */
  function SelectDraft(hint: Option<string>): (r: Option<Draft>)
    ensures hint.None? ==> r.None?
    ensures r.Some? <==> hint.Some? && exists d :: MetaSchemaUri(d) == hint.value
    ensures r.Some? ==> MetaSchemaUri(r.value) == hint.value
  {
    match hint
    case None => None
    case Some(uri) => DraftFromUri(uri)
  }

  /** Each draft is selected by its own URI and by nothing else. */
  lemma DraftFromUriExact(uri: string, d: Draft)
    ensures DraftFromUri(uri) == Some(d) <==> uri == MetaSchemaUri(d)
  {
  }

  /** No two drafts share a URI, so the hint mapping is injective. */
  lemma MetaSchemaUriInjective(d1: Draft, d2: Draft)
    requires MetaSchemaUri(d1) == MetaSchemaUri(d2)
    ensures d1 == d2
  {
  }

  /** The trailing `#` is part of the match: adding or dropping it selects nothing. */
  lemma TrailingHashIsSignificant(d: Draft)
    ensures DraftFromUri(MetaSchemaUri(d) + "#") == None
    ensures (d.Draft4? || d.Draft6? || d.Draft7?) ==>
      DraftFromUri(MetaSchemaUri(d)[..|MetaSchemaUri(d)| - 1]) == None
  {
  }
}
