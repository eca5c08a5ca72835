/**
 * Resolution of a `$ref` URI against the pre-registered schemas
 * (`SchemaRetriever::retrieve`). Three keys are tried in a fixed order:
 * the URI itself, the URI cut at its first `#` (the fragment delimiter of
 * section 3.5 of RFC 3986), and that base with every trailing `/` trimmed.
 */
module Retrieval {
  import opened Wrappers
  import opened Json

  /** `uri.split('#').next()`: the text before the first `#`, or all of it when there is none. */
  function BaseUri(uri: string): (r: string)
    ensures r <= uri
    ensures '#' !in r
    ensures |r| == |uri| || uri[|r|] == '#'
  {
    if uri == [] || uri[0] == '#' then [] else [uri[0]] + BaseUri(uri[1..])
  }

  /** `s.trim_end_matches('/')`: `s` without the run of `/` it ends with. */
  function TrimTrailingSlashes(s: string): (r: string)
    ensures r <= s
    ensures r == [] || r[|r| - 1] != '/'
    ensures forall i :: |r| <= i < |s| ==> s[i] == '/'
  {
    if s != [] && s[|s| - 1] == '/' then TrimTrailingSlashes(s[..|s| - 1]) else s
  }

  /** `n` slashes. */
  function Slashes(n: nat): (r: string)
    ensures |r| == n && forall i :: 0 <= i < n ==> r[i] == '/'
  {
    seq(n, _ => '/')
  }

  /** The registry keys `retrieve` tries for `uri`, in the order it tries them. */
  function LookupKeys(uri: string): (keys: seq<string>)
    ensures |keys| == 3 && keys[0] == uri
    ensures keys[1] == BaseUri(uri) && keys[2] == TrimTrailingSlashes(BaseUri(uri))
    ensures forall k :: k in keys ==> k <= uri
  {
    [uri, BaseUri(uri), TrimTrailingSlashes(BaseUri(uri))]
  }

  /** The error text of a failed lookup. */
  function NotFound(uri: string): string {
    "Schema not found: " + uri
  }

  /** A retriever answers from the registry it was given (a snapshot, never written to). */
  datatype SchemaRetriever = SchemaRetriever(schemas: map<string, Value>) {

    /** True when the i-th lookup key is the one that answers: it is registered and no earlier key is. */
    ghost predicate AnswersAt(uri: string, i: int)
    {
      0 <= i < 3 && LookupKeys(uri)[i] in schemas &&
      forall j :: 0 <= j < i ==> LookupKeys(uri)[j] !in schemas
    }

    /** `retrieve`: the schema under the first lookup key that is registered, else "Schema not found". */
    function Retrieve(uri: string): (r: Result<Value, string>)
      ensures uri in schemas ==> r == Ok(schemas[uri])
      ensures r.Ok? <==> exists k :: k in LookupKeys(uri) && k in schemas
      ensures r.Ok? ==> exists i :: 0 <= i < 3 && AnswersAt(uri, i) && r.value == schemas[LookupKeys(uri)[i]]
      ensures r.Err? ==> r.error == NotFound(uri)
    {
      var base := BaseUri(uri);
      var withoutSlash := TrimTrailingSlashes(base);
      if uri in schemas then
        assert AnswersAt(uri, 0);
        Ok(schemas[uri])
      else if base in schemas then
        assert AnswersAt(uri, 1);
        Ok(schemas[base])
      else if withoutSlash in schemas then
        assert AnswersAt(uri, 2);
        Ok(schemas[withoutSlash])
      else
        Err(NotFound(uri))
    }
  }

  /** The three properties of BaseUri determine it. */
  lemma BaseUriUnique(uri: string, p: string)
    requires p <= uri && '#' !in p
    requires |p| == |uri| || uri[|p|] == '#'
    ensures p == BaseUri(uri)
  {
  }

  /** The three properties of TrimTrailingSlashes determine it. */
  lemma TrimTrailingSlashesUnique(s: string, p: string)
    requires p <= s && (p == [] || p[|p| - 1] != '/')
    requires forall i :: |p| <= i < |s| ==> s[i] == '/'
    ensures p == TrimTrailingSlashes(s)
  {
  }

  /** A URI with no `#` is its own base. */
  lemma BaseUriWithoutFragment(uri: string)
    requires '#' !in uri
    ensures BaseUri(uri) == uri
  {
  }

  /** Cutting `u#f` at its first `#` gives back `u`, whatever the fragment `f` holds. */
  lemma BaseUriOfFragment(u: string, f: string)
    requires '#' !in u
    ensures BaseUri(u + "#" + f) == u
  {
    var uri := u + "#" + f;
    assert u <= uri && uri[|u|] == '#';
    BaseUriUnique(uri, u);
  }

  /** Every trailing `/` goes, not only the last one. */
  lemma TrimAllTrailingSlashes(s: string, n: nat)
    ensures TrimTrailingSlashes(s + Slashes(n)) == TrimTrailingSlashes(s)
  {
    var t := s + Slashes(n);
    var p := TrimTrailingSlashes(s);
    assert p <= t;
    forall i | |p| <= i < |t| ensures t[i] == '/' {
      if i >= |s| { assert t[i] == Slashes(n)[i - |s|]; }
    }
    TrimTrailingSlashesUnique(t, p);
  }

  /** Trimming twice trims nothing more. */
  lemma TrimTrailingSlashesIdempotent(s: string)
    ensures TrimTrailingSlashes(TrimTrailingSlashes(s)) == TrimTrailingSlashes(s)
  {
    TrimTrailingSlashesUnique(TrimTrailingSlashes(s), TrimTrailingSlashes(s));
  }

  /** A `$ref` into a fragment of a registered document finds the document when the full URI is not registered. */
  lemma RetrieveFragmentFallback(r: SchemaRetriever, u: string, f: string)
    requires '#' !in u && u in r.schemas && u + "#" + f !in r.schemas
    ensures r.Retrieve(u + "#" + f) == Ok(r.schemas[u])
  {
    BaseUriOfFragment(u, f);
  }

  /**
   * A URI without `#` has only two distinct lookup keys: itself and itself
   * without trailing slashes.
   */
  lemma RetrieveWithoutFragment(r: SchemaRetriever, uri: string)
    requires '#' !in uri && uri !in r.schemas
    ensures r.Retrieve(uri) ==
      if TrimTrailingSlashes(uri) in r.schemas then Ok(r.schemas[TrimTrailingSlashes(uri)])
      else Err(NotFound(uri))
  {
    BaseUriWithoutFragment(uri);
  }

  /** A URI with extra trailing slashes finds the schema registered without them. */
  lemma RetrieveSlashFallback(r: SchemaRetriever, u: string, n: nat)
    requires '#' !in u && (u == [] || u[|u| - 1] != '/')
    requires u in r.schemas && u + Slashes(n) !in r.schemas
    ensures r.Retrieve(u + Slashes(n)) == Ok(r.schemas[u])
  {
    var uri := u + Slashes(n);
    assert '#' !in uri by {
      forall i | 0 <= i < |uri| ensures uri[i] != '#' {
        if i >= |u| { assert uri[i] == Slashes(n)[i - |u|]; }
      }
    }
    BaseUriWithoutFragment(uri);
    TrimAllTrailingSlashes(u, n);
    TrimTrailingSlashesUnique(u, u);
  }

  /** Retrieval only ever finds a registered key that is a prefix of the requested URI. */
  lemma RetrieveFindsPrefix(r: SchemaRetriever, uri: string)
    requires r.Retrieve(uri).Ok?
    ensures exists k :: k in r.schemas && k <= uri && r.Retrieve(uri).value == r.schemas[k]
  {
  }

  /** Two registries that agree on the lookup keys of `uri` answer it alike. */
  lemma RetrieveDependsOnlyOnLookupKeys(r1: SchemaRetriever, r2: SchemaRetriever, uri: string)
    requires forall k :: k in LookupKeys(uri) ==>
      (k in r1.schemas <==> k in r2.schemas) && (k in r1.schemas ==> r1.schemas[k] == r2.schemas[k])
    ensures r1.Retrieve(uri) == r2.Retrieve(uri)
  {
  }
}
