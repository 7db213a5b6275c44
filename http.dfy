/**
 * The request as the binding engines see it: a method, headers, a body,
 * and the path, query and form values, each as a lookup table. Header
 * canonicalisation, query and form parsing belong to net/http and are not
 * modelled: every lookup is an exact-key map lookup.
 */
module Http {

  /** verb is the request method: GET, POST, ... */
  datatype Request = Request(
    verb: string,
    header: map<string, string>,
    body: string,
    path: map<string, string>,
    query: map<string, string>,
    form: map<string, string>)

  /** The tag keys a field can name its source with. */
  datatype Source = Path | Query | Header | Form

  function SourceName(s: Source): string {
    match s
    case Path => "path"
    case Query => "query"
    case Header => "header"
    case Form => "form"
  }

  /** The first value for key, or "" when there is none. */
  function Lookup(m: map<string, string>, key: string): (v: string)
    ensures key in m ==> v == m[key]
    ensures key !in m ==> v == ""
  {
    if key in m then m[key] else ""
  }

  /** The valueReaders table: how a tag's key is read from the request. */
  function ReadSource(r: Request, s: Source, key: string): (v: string)
    ensures key in Values(r, s) ==> v == Values(r, s)[key]
    ensures key !in Values(r, s) ==> v == ""
  {
    Lookup(Values(r, s), key)
  }

  /** The values of the request that source s reads. */
  function Values(r: Request, s: Source): map<string, string> {
    match s
    case Path => r.path
    case Query => r.query
    case Header => r.header
    case Form => r.form
  }

  /** r.Header.Get("content-type"). */
  function ContentType(r: Request): string {
    Lookup(r.header, "content-type")
  }

  /** The source locator an error reports, "<source>[<key>]", e.g. "header[color]". */
  function Locator(s: Source, key: string): string {
    SourceName(s) + "[" + key + "]"
  }

  /**
   * An order in which a Go map of readers over the given sources may be
   * ranged over: each source exactly once.
   */
  predicate IsOrder(o: seq<Source>, sources: set<Source>) {
    && (forall s :: s in o <==> s in sources)
    && (forall i, j :: 0 <= i < j < |o| ==> o[i] != o[j])
  }
}
