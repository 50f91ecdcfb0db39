/**
 * The connection-string rewrite at the start of `connectDB`
 * (cooked-backend/server.js): a MongoDB URI that names no database gets
 * `/cooked-app` put in front of its query. The in-memory server, the
 * connection, the listener and the process exit are not modelled.
 */
module Server {
  import opened Wrappers
  import opened Text

  const DatabasePath := "/cooked-app"

  /** `uri.split('?')[0]`: everything before the first `?`. */
  function BaseOf(uri: string): string {
    Split(uri, '?')[0]
  }

  /** `uriParts[1] ? '?' + uriParts[1] : ''`: the text between the first and second `?`, when non-empty. */
  function QueryOf(uri: string): string {
    var parts := Split(uri, '?');
    if |parts| > 1 && parts[1] != "" then "?" + parts[1] else ""
  }

  predicate IsMongoUri(uri: string) {
    Contains(uri, "mongodb://") || Contains(uri, "mongodb+srv://")
  }

  /** The base mentions a path after one of the recognised hosts. */
  predicate HasHostPath(base: string) {
    Contains(base, ".net/") || Contains(base, ".com/") || Contains(base, "localhost/")
  }

  /** The base stops right after one of the recognised hosts. */
  predicate EndsAtHost(base: string) {
    EndsWith(base, ".net") || EndsWith(base, ".com") || EndsWith(base, "localhost")
  }

  /** The rewritten form: base, then `/cooked-app`, then the kept query. */
  function WithDatabase(uri: string): (r: string)
    ensures Contains(r, DatabasePath)
  {
    var base := BaseOf(uri);
    var r := base + DatabasePath + QueryOf(uri);
    assert r[|base|..|base| + |DatabasePath|] == DatabasePath;
    ContainsAt(r, DatabasePath, |base|);
    r
  }

  /**
   * The value `mongoUri` holds after lines 37-53. A missing or empty URI, one
   * that already mentions `/cooked-app`, and one that is not a MongoDB URI are
   * kept; otherwise `/cooked-app` is added when the base has no path after a
   * recognised host, or ends at one. Every result either is the input or names
   * the database.
   */
  function NormalizeMongoUri(uri: Option<string>): (r: Option<string>)
    ensures r.Some? <==> uri.Some?
    ensures r == uri || r == Some(WithDatabase(uri.value))
    ensures r == uri || Contains(r.value, DatabasePath)
  {
    match uri
    case None => None
    case Some(u) =>
      if u != "" && !Contains(u, DatabasePath) then
        if IsMongoUri(u) then
          if !HasHostPath(BaseOf(u)) then Some(WithDatabase(u))
          else if EndsAtHost(BaseOf(u)) then Some(WithDatabase(u))
          else uri
        else uri
      else uri
  }

  /** A missing or empty URI, or one that already names `/cooked-app`, is left alone. */
  lemma KeptWhenEmptyOrNamed(uri: Option<string>)
    requires uri == None || uri == Some("") || Contains(uri.value, DatabasePath)
    ensures NormalizeMongoUri(uri) == uri
  {
  }

  /** A URI mentioning neither `mongodb://` nor `mongodb+srv://` is left alone. */
  lemma KeptWhenNotMongo(u: string)
    requires !IsMongoUri(u)
    ensures NormalizeMongoUri(Some(u)) == Some(u)
  {
  }

  /** With no path after a recognised host, `/cooked-app` goes in front of the query. */
  lemma AddedWhenNoHostPath(u: string)
    requires u != "" && !Contains(u, DatabasePath) && IsMongoUri(u)
    requires !HasHostPath(BaseOf(u))
    ensures NormalizeMongoUri(Some(u)) == Some(BaseOf(u) + DatabasePath + QueryOf(u))
  {
  }

  /** A base that ends at a recognised host also gets `/cooked-app`. */
  lemma AddedWhenEndsAtHost(u: string)
    requires u != "" && !Contains(u, DatabasePath) && IsMongoUri(u)
    requires EndsAtHost(BaseOf(u))
    ensures NormalizeMongoUri(Some(u)) == Some(BaseOf(u) + DatabasePath + QueryOf(u))
  {
  }

  /** A base with a path after a recognised host, not ending at the host, is left alone. */
  lemma KeptWhenHostPath(u: string)
    requires HasHostPath(BaseOf(u)) && !EndsAtHost(BaseOf(u))
    ensures NormalizeMongoUri(Some(u)) == Some(u)
  {
  }

  /** Rewriting is done once: a second pass changes nothing. */
  lemma NormalizeIdempotent(uri: Option<string>)
    ensures NormalizeMongoUri(NormalizeMongoUri(uri)) == NormalizeMongoUri(uri)
  {
  }

  /** Without `?` the base is the whole URI and there is no query. */
  lemma NoQuery(a: string)
    requires '?' !in a
    ensures BaseOf(a) == a && QueryOf(a) == ""
  {
    SplitWithoutSeparator(a, '?');
  }

  /** With one `?`, the query is what follows it; a trailing empty `?` disappears. */
  lemma OneQuery(a: string, b: string)
    requires '?' !in a && '?' !in b
    ensures BaseOf(a + "?" + b) == a
    ensures QueryOf(a + "?" + b) == if b == "" then "" else "?" + b
  {
    SplitCons(a, b, '?');
    SplitWithoutSeparator(b, '?');
  }

  /** Only the text between the first and second `?` is kept; the rest is dropped. */
  lemma SecondQueryDropped(a: string, b: string, c: string)
    requires '?' !in a && '?' !in b
    ensures BaseOf(a + "?" + b + "?" + c) == a
    ensures QueryOf(a + "?" + b + "?" + c) == if b == "" then "" else "?" + b
  {
    assert a + "?" + b + "?" + c == a + ['?'] + (b + ['?'] + c);
    SplitCons(a, b + ['?'] + c, '?');
    SplitCons(b, c, '?');
  }
}
