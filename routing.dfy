/**
 * Path normalisation and the choice of handler in the `/` handler.  The set
 * of parsed template names is a parameter.
 */
module Routing {

  const IndexPage: string := "index.html"
  const NamePath: string := "name"
  const IncreaseCountPath: string := "increase_count"

  /**
   * "/" names the index page; any other path loses one leading slash.  The
   * path must be non-empty: its first character is inspected.
   */
  function Normalize(path: string): (p: string)
    requires |path| > 0
    ensures path == "/" ==> p == IndexPage
    ensures path != "/" && path[0] == '/' ==> path == "/" + p
    ensures path[0] != '/' ==> p == path
  {
    if path == "/" then IndexPage
    else if path[0] == '/' then path[1..]
    else path
  }

  datatype Route =
    | SetName                    // the name handler
    | IncreaseCount              // the counter handler
    | Page(template: string)     // render the template of that name
    | Static                     // hand the request to the static file server

  /** The handler for a request path, given the names of the parsed templates. */
  function Dispatch(path: string, templates: set<string>): (r: Route)
    requires |path| > 0
    ensures r == SetName <==> Normalize(path) == NamePath
    ensures r == IncreaseCount <==> Normalize(path) == IncreaseCountPath
    ensures r.Page? <==> Normalize(path) != NamePath && Normalize(path) != IncreaseCountPath
                         && Normalize(path) in templates
    ensures r.Page? ==> r.template == Normalize(path) && r.template in templates
    ensures r == Static <==> Normalize(path) != NamePath && Normalize(path) != IncreaseCountPath
                             && Normalize(path) !in templates
  {
    var p := Normalize(path);
    if p == NamePath then SetName
    else if p == IncreaseCountPath then IncreaseCount
    else if p in templates then Page(p)
    else Static
  }

  /** A path with and without its leading slash is routed alike. */
  lemma LeadingSlashIrrelevant(p: string, templates: set<string>)
    requires |p| > 0 && p[0] != '/'
    ensures Dispatch("/" + p, templates) == Dispatch(p, templates)
  {
    assert ("/" + p)[1..] == p;
  }

  /** The site root is the index template when there is one, static content otherwise. */
  lemma RootRoute(templates: set<string>)
    ensures IndexPage in templates ==> Dispatch("/", templates) == Page(IndexPage)
    ensures IndexPage !in templates ==> Dispatch("/", templates) == Static
  {
  }
}
