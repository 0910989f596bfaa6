/** What the two MCP server variants share: the MSAL confidential client they
    build, the on-behalf-of grant and its result handling, the requests they send
    to the search service, the trace of calls they make to those external
    services, and the projection that strips `@`-prefixed annotation keys from
    every returned document.

    The identity provider and the search service are not modelled: they are
    oracles (function-typed values) whose answers the handlers receive. What the
    handlers SEND to them is recorded as a sequence of `Effect`s, so that "no
    exchange is attempted" and "the store receives exactly the token obtained for
    this caller" can be stated. */
module Relay {
  import opened PyRuntime

  // ---------------------------------------------------------------------
  // MSAL confidential client and the on-behalf-of grant

  const LoginHost := "https://login.microsoftonline.com/"

  /** `f"https://login.microsoftonline.com/{tenant_id}"`. */
  function Authority(tenantId: string): (r: string)
    ensures StartsWith(r, LoginHost) && r[|LoginHost|..] == tenantId
  {
    LoginHost + tenantId
  }

  /** `msal.ConfidentialClientApplication(client_id, authority=..., client_credential=...)`. */
  datatype MsalApp = MsalApp(clientId: string, authority: string, clientCredential: string)

  /** The scope list of the downstream grant: the search service's default scope. */
  const SearchScopes: seq<string> := ["https://search.azure.com/.default"]

  /** A token-endpoint result dict (`access_token`, `error`, `error_description`, ...). */
  type TokenResult = map<string, string>

  /** `app.acquire_token_on_behalf_of(user_assertion=..., scopes=...)`. */
  type OboGrant = (MsalApp, string, seq<string>) -> TokenResult

  const NotInitialisedMessage := "MSAL app not initialized. Check AZURE_CLIENT_ID and AZURE_TENANT_ID."

  /** `result.get(key, default)` on a token result. */
  function ResultGet(result: TokenResult, key: string, default: string): (r: string)
    ensures key in result ==> r == result[key]
    ensures key !in result ==> r == default
  {
    if key in result then result[key] else default
  }

  /** Turning an OBO grant result into the token or the exception `get_obo_token`
      raises; `sep` is the text between the error code and its description,
      which differs between the two server variants. */
  function OboResultToken(result: TokenResult, sep: string): (r: Outcome<string>)
    ensures "access_token" in result ==> r == Returned(result["access_token"])
    ensures "access_token" !in result ==>
              r == Raised(Exn(Exception, "OBO token acquisition failed: "
                                          + ResultGet(result, "error", "unknown_error") + sep
                                          + ResultGet(result, "error_description", "Failed to acquire OBO token")))
  {
    if "access_token" in result then Returned(result["access_token"])
    else
      var error := ResultGet(result, "error", "unknown_error");
      var desc := ResultGet(result, "error_description", "Failed to acquire OBO token");
      Raised(Exn(Exception, "OBO token acquisition failed: " + error + sep + desc))
  }

  // ---------------------------------------------------------------------
  // Requests to the search service

  const QuerySourceHeader := "x-ms-query-source-authorization"

  /** How the OBO token rides on a search request: as the SDK keyword argument
      `x_ms_query_source_authorization` (raw token), or as explicit headers. */
  datatype QuerySourceAuth = AuthKeyword(token: string) | AuthHeaders(headers: map<string, string>)

  datatype SearchRequest = SearchRequest(searchText: string, top: int, auth: QuerySourceAuth)
  datatype GetRequest = GetRequest(key: string, auth: QuerySourceAuth)
  datatype SuggestRequest = SuggestRequest(searchText: string, suggesterName: string, top: int, auth: QuerySourceAuth)

  /** The search service as an oracle: what each call returns, or the message of
      the exception it raises. */
  datatype Reply<T> = Ok(value: T) | Failed(message: string)

  datatype SearchService = SearchService(
    search: SearchRequest -> Reply<seq<Dict>>,
    get: GetRequest -> Reply<Dict>,
    suggest: SuggestRequest -> Reply<seq<Dict>>)

  /** A call made to an external service while serving one request. */
  datatype Effect =
    | OboExchange(app: MsalApp, assertion: string, scopes: seq<string>)
    | SearchCall(search: SearchRequest)
    | GetCall(get: GetRequest)
    | SuggestCall(suggest: SuggestRequest)

  /** What serving one tool call produced: its Python outcome and the calls it made. */
  datatype Served<+T> = Served(outcome: Outcome<T>, effects: seq<Effect>)

  predicate NoExchange(effects: seq<Effect>) {
    forall i :: 0 <= i < |effects| ==> !effects[i].OboExchange?
  }

  /** The name of the suggester every suggest call uses. */
  const Suggester := "sg"

  /** The `top` a search or suggest tool call uses when the caller omits it. */
  const DefaultTop := 5

  /** The credential carried by a request to the search service. */
  function AuthOf(e: Effect): Option<QuerySourceAuth> {
    match e
    case SearchCall(r) => Some(r.auth)
    case GetCall(r) => Some(r.auth)
    case SuggestCall(r) => Some(r.auth)
    case OboExchange(_, _, _) => None
  }

  // ---------------------------------------------------------------------
  // Projection of returned documents

  /** Keys that `not k.startswith("@")` rejects: search annotations such as `@search.score`. */
  predicate IsAnnotation(key: string) {
    StartsWith(key, "@")
  }

  /** `{k: v for k, v in doc.items() if not k.startswith("@")}`. */
  function Project(doc: Dict): (r: Dict)
    ensures forall k :: k in r <==> k in doc && !IsAnnotation(k)
    ensures forall k :: k in r ==> r[k] == doc[k]
  {
    map k | k in doc && !IsAnnotation(k) :: doc[k]
  }

  /** Projecting twice is projecting once. */
  lemma ProjectIdempotent(doc: Dict)
    ensures Project(Project(doc)) == Project(doc)
  {
  }

  /** No returned document carries an annotation key. */
  predicate Unannotated(rows: seq<Dict>) {
    forall i :: 0 <= i < |rows| ==> forall k :: k in rows[i] ==> !IsAnnotation(k)
  }

  /** Every result projected, same count, same order. */
  function ProjectRows(rows: seq<Dict>): (r: seq<Dict>)
    ensures |r| == |rows|
    ensures forall i :: 0 <= i < |rows| ==> r[i] == Project(rows[i])
  {
    if rows == [] then [] else [Project(rows[0])] + ProjectRows(rows[1..])
  }

  /** The handlers' loop: `documents.append({...})` for each result. */
  method ProjectResults(rows: seq<Dict>) returns (documents: seq<Dict>)
    ensures documents == ProjectRows(rows)
    ensures Unannotated(documents)
  {
    documents := [];
    var i := 0;
    while i < |rows|
      invariant 0 <= i <= |rows|
      invariant |documents| == i
      invariant forall j :: 0 <= j < i ==> documents[j] == Project(rows[j])
    {
      documents := documents + [Project(rows[i])];
      i := i + 1;
    }
  }

  /** `{"error": "Not authenticated"}`. */
  const NotAuthenticated: Dict := map["error" := JStr("Not authenticated")]

  /** `{"error": str(e), "id": id}`. */
  function GetFailure(message: string, id: string): (r: Dict)
    ensures r.Keys == {"error", "id"}
    ensures r["error"] == JStr(message) && r["id"] == JStr(id)
  {
    map["error" := JStr(message), "id" := JStr(id)]
  }
}
