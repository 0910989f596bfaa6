# enterprise-mcp-auth, modelled in Dafny

enterprise-mcp-auth puts an MCP (Model Context Protocol) server in front of an
Azure AI Search index. It serves three tools (`search_documents`, `get_document`,
`suggest`), and each acts on behalf of the calling user. The handler takes the
caller's access token and exchanges it through the MSAL on-behalf-of (OBO) grant
for a search-service token. That token travels with the store request, so the
search service can apply its document-level permission filter, which works on
the documents' `oid` (user id) and `group` lists. Around the server sit:

- two ingestion scripts that create the index and upload sample documents; the
  stand-alone one first injects extra user and group ids into each document's
  ACL lists;
- client-side token acquisition: a confidential-client flow or a device-code
  flow, cache first;
- two search command-line clients, and an MCP client wrapper with a
  connect/disconnect lifecycle;
- an agent command line that runs a LangGraph supervisor (identity validation,
  then a ReAct agent);
- an agent-blueprint manager.

The model has one module per core source file, plus two shared modules:

- `PyRuntime` holds the Python semantics the code relies on: `Option`,
  `Outcome`/`Exn` (a returned value or a raised exception), JSON values and
  truthiness, `os.getenv` with and without a default, `str.strip`/`rstrip`, and
  the missing-variable comprehension.
- `Relay` holds what the two server variants share: the MSAL app, the OBO result
  handling, the requests sent to the store, and the `@`-key projection.

External services are oracles passed as function-typed parameters: MSAL, the
Azure Search clients, FastMCP, Microsoft Graph, the agent node and the
base64/JSON decoders. What the code SENDS to them is recorded as a trace:

- `Relay.Effect` for the servers;
- `ClientAuth.MsalCall` for token acquisition;
- `McpClient.Sent` for the MCP client;
- `IndexSetup.IndexOp` for the index service.

The traces make statements like these possible: "no exchange is attempted
without a caller token", "the store receives exactly the token obtained for this
caller", and "a cache hit makes no grant".

Where the source changes state in place, the model does the same, and each
method is proved against a specification function:

- the servers' lazily built globals (`RootServer.Server`, `SrcServer.Server`);
- the blueprint manager and its shared blueprint;
- the MCP client's two fields;
- the module-level `MCP_SERVER_URL` of the bearer-token CLI;
- the in-place ACL injection over an `array` of documents.

## Model

| member | source | states |
|---|---|---|
| JwtClaims.Split | enterprise_mcp_auth/server/ai_search_mcp_server.py:85 | `token.split('.')`: one part more than there are separators, and no part contains the separator |
| JwtClaims.JoinSplit | enterprise_mcp_auth/server/ai_search_mcp_server.py:85 | joining the parts of a split with the separator gives back the token |
| JwtClaims.SplitJoin | enterprise_mcp_auth/server/ai_search_mcp_server.py:85 | splitting separator-free segments joined by the separator gives back exactly those segments |
| JwtClaims.NoSepSplit | enterprise_mcp_auth/server/ai_search_mcp_server.py:85 | a string without the separator splits into itself alone |
| JwtClaims.SplitPrefix | enterprise_mcp_auth/server/ai_search_mcp_server.py:85 | a leading separator-free segment followed by the separator becomes the first part, followed by the parts of the rest |
| JwtClaims.ThreePartsIffTwoDots | enterprise_mcp_auth/server/ai_search_mcp_server.py:86-87 | the three-part check holds exactly when the token has two dots |
| JwtClaims.Repeat | src/enterprise_mcp_auth/client/auth.py:155 | `'=' * n` is n copies of the character |
| JwtClaims.ServerPad | enterprise_mcp_auth/server/ai_search_mcp_server.py:89-93 | the payload followed by '=' only; the length becomes a multiple of 4; at most 3 are added; none exactly when the payload is already aligned |
| JwtClaims.ClientPad | src/enterprise_mcp_auth/client/auth.py:154-155 | the payload followed by 1 to 4 '=', the length a multiple of 4; four exactly when the payload was already aligned |
| JwtClaims.PaddingsCompared | src/enterprise_mcp_auth/client/auth.py:154-155 | client and server padding agree on unaligned payloads; on aligned ones the client adds "====" where the server adds nothing |
| JwtClaims.PayloadSegment | src/enterprise_mcp_auth/client/auth.py:148-154 | a payload segment exists iff the token has exactly two dots, and it contains no dot |
| JwtClaims.DecodeJwtPayload | enterprise_mcp_auth/server/ai_search_mcp_server.py:82-99 | never raises: `{}` without exactly three parts or when decoding fails, otherwise the decoded claims of the server-padded middle segment |
| JwtClaims.UserInfoFromToken | src/enterprise_mcp_auth/client/auth.py:131-162 | the same with the client padding: `{}` without three parts or on any decode/JSON failure |
| JwtClaims.DecodeSeesPayload | src/enterprise_mcp_auth/client/auth.py:148-162 | for header.payload.signature both decoders receive exactly the padded payload segment |
| JwtClaims.MalformedTokenIsEmpty | enterprise_mcp_auth/server/ai_search_mcp_server.py:86-87 | a token whose dot count is not two yields `{}` from both decoders, whatever the decoder does |
| PyRuntime.MissingVars | enterprise_mcp_auth/server/ai_search_mcp_server.py:315 | the unset-or-empty variables: exactly those names, in the order of the list |
| PyRuntime.MissingVarsEmpty | enterprise_mcp_auth/server/ai_search_mcp_server.py:315-317 | the missing list is empty iff every required variable is set and non-empty |
| PyRuntime.RStrip | enterprise_mcp_auth/client/ai_search_mcp_client.py:187 | `rstrip('/')`: the longest prefix that does not end in '/', only '/' removed |
| PyRuntime.Strip | ai_search_ingestion/create_index_and_documents.py:36-37 | `.strip()`: a contiguous slice of the value, with no whitespace at either end and only whitespace outside it |
| PyRuntime.StripEmpty | ai_search_ingestion/create_index_and_documents.py:36-37 | the stripped value is empty iff the value is all whitespace |
| PyRuntime.JsonStrings | src/enterprise_mcp_auth/agent_framework/agent_blueprint.py:137 | a list of strings as JSON values, element by element and in order |
| Relay.Authority | enterprise_mcp_auth/server/ai_search_mcp_server.py:77 | the authority is the Microsoft login host followed by the tenant id |
| Relay.ResultGet | enterprise_mcp_auth/server/ai_search_mcp_server.py:143-144 | `result.get(key, default)` on a token result |
| Relay.OboResultToken | enterprise_mcp_auth/server/ai_search_mcp_server.py:134-149 | returns `result["access_token"]` when present; otherwise raises "OBO token acquisition failed: " + error + separator + description, defaulting to "unknown_error" and "Failed to acquire OBO token" |
| Relay.Project | enterprise_mcp_auth/server/ai_search_mcp_server.py:205-208 | keeps exactly the keys not starting with '@', values unchanged |
| Relay.ProjectIdempotent | enterprise_mcp_auth/server/ai_search_mcp_server.py:205-208 | projecting a projected document changes nothing |
| Relay.ProjectRows | enterprise_mcp_auth/server/ai_search_mcp_server.py:280-284 | one projected document per store result, same count and order |
| Relay.ProjectResults | src/enterprise_mcp_auth/server/ai_search_mcp_server.py:159-162 | the append loop computes `ProjectRows`, and no key of the output starts with '@' |
| Relay.GetFailure | enterprise_mcp_auth/server/ai_search_mcp_server.py:244-245 | the error dict has exactly the keys "error" (the message) and "id" |
| RootServer.ConfigFromEnv | enterprise_mcp_auth/server/ai_search_mcp_server.py:33-38 | index defaults to "documents"; client id, tenant and secret default to "" |
| RootServer.AuthProviderFor | enterprise_mcp_auth/server/ai_search_mcp_server.py:41-54 | an AzureProvider exists iff client id, tenant id and secret are all non-empty; it requires "user_impersonation" and uses the public URL |
| RootServer.InitMsal | enterprise_mcp_auth/server/ai_search_mcp_server.py:66-79 | a no-op once the app exists; otherwise the app is built iff client id and tenant id are non-empty, with the tenant's authority and the secret |
| RootServer.InitMsalIdempotent | enterprise_mcp_auth/server/ai_search_mcp_server.py:70-71 | initialising twice is initialising once |
| RootServer.OboToken | enterprise_mcp_auth/server/ai_search_mcp_server.py:102-149 | raises with no external call when the app is missing or the caller's claims are not a JSON object (AttributeError on `.get`); otherwise exactly one exchange for the caller's token and the search scope; returns the issued token iff there is one and its claims are a JSON object, raises AttributeError when they are not, and otherwise raises the "OBO token acquisition failed" error of `OboResultToken` (separator ": ") |
| RootServer.SearchSpec | enterprise_mcp_auth/server/ai_search_mcp_server.py:174-210 | "Not authenticated" with no call for an anonymous caller; otherwise the exchange's calls come first, its error is raised unchanged, and after a token exactly one search follows, with that token, the query and `top` (5 when omitted); the answer is the projected rows (no annotation keys) iff the store answers, else the store's error is raised |
| RootServer.GetDocumentSpec | enterprise_mcp_auth/server/ai_search_mcp_server.py:213-245 | the same exchange discipline; after a token exactly one get follows with that token, and the handler returns either the projected document or {"error", "id"} |
| RootServer.SuggestSpec | enterprise_mcp_auth/server/ai_search_mcp_server.py:248-285 | the same as search, with the suggester "sg" |
| RootServer.UserInfo | enterprise_mcp_auth/server/ai_search_mcp_server.py:288-300 | "Not authenticated" without a token; otherwise exactly five keys read from the claims (`sub` as azure_id), None where absent |
| RootServer.UnauthenticatedMakesNoCalls | enterprise_mcp_auth/server/ai_search_mcp_server.py:189-191 | without an access token every handler returns the "Not authenticated" answer and makes no external call at all |
| RootServer.SearchThreadsCallerToken | enterprise_mcp_auth/server/ai_search_mcp_server.py:102-208 | unreadable caller claims: AttributeError and no call; otherwise the first call is the exchange for exactly the caller's token, the store is called iff a token with readable claims came back, then with that token, the query and top (5 when omitted), and the answer is the projected rows or the store's error raised; without a store call the handler raises |
| RootServer.SuggestThreadsCallerToken | enterprise_mcp_auth/server/ai_search_mcp_server.py:248-285 | the same for suggest, always with suggester "sg" |
| RootServer.GetDocumentMapsStoreErrors | enterprise_mcp_auth/server/ai_search_mcp_server.py:231-245 | after a successful exchange `get_document` never raises: a store failure becomes `{"error": str(e), "id": id}`, a hit is projected |
| RootServer.FailedExchangeStopsSearch | enterprise_mcp_auth/server/ai_search_mcp_server.py:142-149 | a failed exchange raises "OBO token acquisition failed: ..." and the store is never called |
| RootServer.MainCheck | enterprise_mcp_auth/server/ai_search_mcp_server.py:306-317 | raises ValueError naming the missing variables in list order, and only if one of the six is unset or empty |
| RootServer.Server.constructor | enterprise_mcp_auth/server/ai_search_mcp_server.py:33-63 | configuration from the environment, the provider as `AuthProviderFor` says, no MSAL app yet |
| RootServer.Server.InitializeMsal | enterprise_mcp_auth/server/ai_search_mcp_server.py:66-79 | updates the global app as `InitMsal` says |
| RootServer.Server.GetOboToken | enterprise_mcp_auth/server/ai_search_mcp_server.py:102-149 | initialises the app, then answers as `OboToken`, decoding both tokens' claims |
| RootServer.Server.SearchDocuments | enterprise_mcp_auth/server/ai_search_mcp_server.py:174-210 | answer and calls equal `SearchSpec`; the app is touched only for an authenticated caller |
| RootServer.Server.GetDocument | enterprise_mcp_auth/server/ai_search_mcp_server.py:213-245 | answer and calls equal `GetDocumentSpec` |
| RootServer.Server.Suggest | enterprise_mcp_auth/server/ai_search_mcp_server.py:248-285 | answer and calls equal `SuggestSpec` |
| RootServer.Server.Start | enterprise_mcp_auth/server/ai_search_mcp_server.py:303-320 | fails as `MainCheck` says without touching the app; otherwise initialises it |
| SrcServer.JwksUri | src/enterprise_mcp_auth/server/ai_search_mcp_server.py:33-35 | JWKS_URI when set and non-empty; else derived from a non-empty tenant as .../{tenant}/discovery/v2.0/keys; else "" |
| SrcServer.ConfigFromEnv | src/enterprise_mcp_auth/server/ai_search_mcp_server.py:22-35 | client id and tenant from the environment, the key-set location from `JwksUri` |
| SrcServer.TenantImpliesJwks | src/enterprise_mcp_auth/server/ai_search_mcp_server.py:33-35 | a configured tenant always yields a key-set location |
| SrcServer.InitAuth | src/enterprise_mcp_auth/server/ai_search_mcp_server.py:48-73 | returns at once when the verifier exists; the verifier and proxy are set together, iff JWKS_URI is non-empty; the MSAL app is built iff client id and tenant are non-empty |
| SrcServer.InitAuthIdempotent | src/enterprise_mcp_auth/server/ai_search_mcp_server.py:50-51 | initialising twice is initialising once |
| SrcServer.MsalImpliesVerifier | src/enterprise_mcp_auth/server/ai_search_mcp_server.py:48-73 | starting from nothing, an MSAL app never exists without the verifier and proxy |
| SrcServer.OboToken | src/enterprise_mcp_auth/server/ai_search_mcp_server.py:76-100 | raises with no call when the app is missing; otherwise one exchange, the result read with separator " - " |
| SrcServer.BearerHeaders | src/enterprise_mcp_auth/server/ai_search_mcp_server.py:153-155 | the only header is x-ms-query-source-authorization, "Bearer " followed by exactly the token |
| SrcServer.SearchSpec | src/enterprise_mcp_auth/server/ai_search_mcp_server.py:128-164 | AttributeError with no call without a proxy; otherwise the exchange's calls come first, its error is raised unchanged, and after a token exactly one search follows with the header "Bearer " + that token and `top` (5 when omitted); the answer is the projected rows iff the store answers, else the store's error is raised |
| SrcServer.GetDocumentSpec | src/enterprise_mcp_auth/server/ai_search_mcp_server.py:167-199 | the same discipline for get; after a token the handler returns the projected document or {"error", "id"} |
| SrcServer.SuggestSpec | src/enterprise_mcp_auth/server/ai_search_mcp_server.py:202-239 | the same as search, with the suggester "sg" |
| SrcServer.NoProxyNoCalls | src/enterprise_mcp_auth/server/ai_search_mcp_server.py:143 | without a proxy each of the three handlers raises the AttributeError for the missing proxy and calls nothing |
| SrcServer.HandlersThreadCallerToken | src/enterprise_mcp_auth/server/ai_search_mcp_server.py:143-155 | each handler exchanges exactly the proxy's current token; the store is called iff a token came back, with "Bearer " + that token in the header |
| SrcServer.MainCheck | src/enterprise_mcp_auth/server/ai_search_mcp_server.py:245-258 | raises ValueError naming every missing variable of the eight, in order, and only if one is missing |
| SrcServer.SearchClient.constructor | src/enterprise_mcp_auth/server/ai_search_mcp_server.py:116-121 | a client over the endpoint, index and admin key, with no OBO token yet |
| SrcServer.Server.constructor | src/enterprise_mcp_auth/server/ai_search_mcp_server.py:22-45 | configuration from the environment, all three singletons unset |
| SrcServer.Server.InitializeAuth | src/enterprise_mcp_auth/server/ai_search_mcp_server.py:48-73 | updates the globals as `InitAuth` says, keeping proxy and verifier consistent |
| SrcServer.Server.GetOboToken | src/enterprise_mcp_auth/server/ai_search_mcp_server.py:76-100 | initialises, then answers as `OboToken` |
| SrcServer.Server.GetSearchClientWithObo | src/enterprise_mcp_auth/server/ai_search_mcp_server.py:103-125 | a fresh search client whose `_obo_token` is exactly the token the exchange returned |
| SrcServer.Server.SearchDocuments | src/enterprise_mcp_auth/server/ai_search_mcp_server.py:128-164 | answer and calls equal `SearchSpec` of the state before the call, and the singletons are unchanged |
| SrcServer.Server.GetDocument | src/enterprise_mcp_auth/server/ai_search_mcp_server.py:167-199 | answer and calls equal `GetDocumentSpec`, and the singletons are unchanged |
| SrcServer.Server.Suggest | src/enterprise_mcp_auth/server/ai_search_mcp_server.py:202-239 | answer and calls equal `SuggestSpec`, and the singletons are unchanged |
| SrcServer.Server.Start | src/enterprise_mcp_auth/server/ai_search_mcp_server.py:242-261 | fails as `MainCheck` says without touching the globals; otherwise initialises them |
| ClientAuth.CacheLookup | src/enterprise_mcp_auth/client/auth.py:66-73 | never requests a grant; no call when the cache is disabled; a token iff the cache is enabled and the first account's silent result has one |
| ClientAuth.GrantOutcome | src/enterprise_mcp_auth/client/auth.py:78-84 | returns the access token iff the result has one; otherwise raises Exception with the prefix, the error (default "unknown_error"), " - " and the description (default "Failed to acquire token") |
| ClientAuth.AcquireConfidential | src/enterprise_mcp_auth/client/auth.py:52-84 | the cache answers first; otherwise one client-credential grant, whose result decides |
| ClientAuth.AcquireDeviceCode | src/enterprise_mcp_auth/client/auth.py:87-128 | the cache answers first; a flow without "user_code" raises ValueError before waiting; a flow without "message" raises KeyError before waiting; otherwise the grant for that flow decides |
| ClientAuth.AcquireToken | src/enterprise_mcp_auth/client/auth.py:13-49 | the confidential flow iff the secret is truthy, the device flow otherwise; the authority is the login host + tenant on both |
| ClientAuth.CacheAnswersFirst | src/enterprise_mcp_auth/client/auth.py:99-106 | with the cache on and a cached token, that token is returned and no grant is requested |
| ClientAuth.GrantIsLast | src/enterprise_mcp_auth/client/auth.py:40-128 | on every path at most one grant is requested, and it is the last call |
| ClientAuth.MissingUserCodeRaises | src/enterprise_mcp_auth/client/auth.py:109-114 | a device flow without a user code raises ValueError and no token grant is requested |
| IndexSetup.Fields | ai_search_ingestion/create_index_and_documents.py:53-99 | the six fields of the index |
| IndexSetup.FieldNames | ai_search_ingestion/create_index_and_documents.py:53-99 | the field names, in order |
| IndexSetup.IndexShape | ai_search_ingestion/create_index_and_documents.py:53-107 | id is the only key; oid and group are filterable string collections carrying the user/group roles exactly when filters are requested; the one suggester "sg" covers searchable fields only |
| IndexSetup.SuccessCount | ai_search_ingestion/create_index_and_documents.py:214 | the count of succeeded entries is at most the number of results |
| IndexSetup.Failures | ai_search_ingestion/create_index_and_documents.py:219-222 | exactly the failed entries, in result order |
| IndexSetup.Summarise | ai_search_ingestion/create_index_and_documents.py:214-222 | success + failed == number of results |
| IndexSetup.SummaryListsFailures | src/enterprise_mcp_auth/ingestion/create_index_and_documents.py:199-207 | failed count is the number of failures; the listing is exactly the failures; it is non-empty iff some entry failed |
| IndexSetup.CountsAddUp | ai_search_ingestion/create_index_and_documents.py:214-215 | succeeded plus failed entries make up all results |
| Ingestion.AppendIfAbsent | ai_search_ingestion/create_index_and_documents.py:164-165 | `if x not in xs: xs.append(x)` |
| Ingestion.AddMissing | ai_search_ingestion/create_index_and_documents.py:163-169 | appending never shortens the list |
| Ingestion.AddMissingExtends | ai_search_ingestion/create_index_and_documents.py:163-169 | the original list is a prefix of the result, and the result holds exactly the old ids and the injected ones |
| Ingestion.AddMissingAppendsFresh | ai_search_ingestion/create_index_and_documents.py:164-169 | every appended id was absent before and comes from the injected ids, and none is appended twice |
| Ingestion.AddMissingKeepsNoDuplicates | ai_search_ingestion/create_index_and_documents.py:164-169 | a list without duplicates stays without duplicates |
| Ingestion.AddMissingPresent | ai_search_ingestion/create_index_and_documents.py:164-169 | when every id is present nothing changes |
| Ingestion.AddMissingIdempotent | ai_search_ingestion/create_index_and_documents.py:163-169 | injecting the same ids twice is injecting them once |
| Ingestion.Inject | ai_search_ingestion/create_index_and_documents.py:163-169 | only oid and group change, each by `AddMissing` |
| Ingestion.InjectAll | ai_search_ingestion/create_index_and_documents.py:162-171 | document count and order are kept |
| Ingestion.InjectionGrantsAccess | ai_search_ingestion/create_index_and_documents.py:162-171 | afterwards every document grants every injected user and group, keeps its old lists as prefixes, and re-injecting changes nothing |
| Ingestion.ExtraIds | ai_search_ingestion/create_index_and_documents.py:153-160 | at most one id, never an empty one, and the setting itself whenever it is non-empty |
| Ingestion.ExtraIdsOfStripped | ai_search_ingestion/create_index_and_documents.py:36-37 | a variable read with `.strip()` yields an id iff it is not all whitespace, and that id is the stripped value |
| Ingestion.AppendMissing | ai_search_ingestion/create_index_and_documents.py:164-169 | the append-if-absent loop computes `AddMissing` |
| Ingestion.InjectExtraIds | ai_search_ingestion/create_index_and_documents.py:162-169 | the nested loops leave the array equal to `InjectAll` of its old contents |
| Ingestion.GetSampleDocuments | ai_search_ingestion/create_index_and_documents.py:137-171 | the loaded documents with the configured extra user and group ids injected |
| Ingestion.CurrentUserIds | ai_search_ingestion/create_index_and_documents.py:289 | the signed-in user's id is injected only when truthy |
| Ingestion.InjectCurrentUser | ai_search_ingestion/create_index_and_documents.py:288-296 | the loops leave the array equal to `InjectAll` with the user's id (if truthy) and the groups |
| Ingestion.GroupIds | ai_search_ingestion/create_index_and_documents.py:189-194 | exactly the truthy group ids Graph reports |
| Ingestion.CurrentUser | ai_search_ingestion/create_index_and_documents.py:279-284 | no id and no groups when the Graph call raised |
| Ingestion.PermissionIndex | ai_search_ingestion/create_index_and_documents.py:102-107 | the index with user/group permission filters and permission filtering enabled |
| Ingestion.CreateIndexWithPermissionFiltering | ai_search_ingestion/create_index_and_documents.py:109-134 | recreate: delete (errors ignored) then create; otherwise skip when the index exists, else create |
| Ingestion.SettingsFromEnv | ai_search_ingestion/create_index_and_documents.py:33-37 | the query user and group ids are the stripped variables; the index name defaults to "documents" |
| Ingestion.AsyncMain | ai_search_ingestion/create_index_and_documents.py:233-302 | exit 1 without endpoint or admin key, or when index creation fails (nothing uploaded); otherwise uploads the configured- and current-user-injected documents |
| Ingestion.UploadGrantsConfiguredAndCurrentUser | ai_search_ingestion/create_index_and_documents.py:286-296 | every uploaded document grants the configured user and group, the signed-in user and all their groups |
| Ingestion.InjectGrants | ai_search_ingestion/create_index_and_documents.py:163-169 | one document's injection grants every id and keeps its old lists as prefixes |
| SampleIngestion.AsDict | src/enterprise_mcp_auth/ingestion/create_index_and_documents.py:120-128 | each uploaded dict has exactly the six keys, holding the document's values |
| SampleIngestion.SampleDocuments | src/enterprise_mcp_auth/ingestion/create_index_and_documents.py:113-184 | exactly eight documents |
| SampleIngestion.Payload | src/enterprise_mcp_auth/ingestion/create_index_and_documents.py:119-184 | one dict per document, in order |
| SampleIngestion.PayloadMatchesIndex | src/enterprise_mcp_auth/ingestion/create_index_and_documents.py:41-77 | every uploaded dict has exactly the index's field names as keys |
| SampleIngestion.SampleDocumentsKeyedAndGranted | src/enterprise_mcp_auth/ingestion/create_index_and_documents.py:119-184 | the keys are doc1 … doc8 in order and distinct; every document has non-empty oid and group lists |
| SampleIngestion.SampleIndex | src/enterprise_mcp_auth/ingestion/create_index_and_documents.py:88-92 | the same fields without permission-filter roles, and filtering not enabled |
| SampleIngestion.CreateIndexWithPermissionFiltering | src/enterprise_mcp_auth/ingestion/create_index_and_documents.py:95-102 | always a delete (failure ignored), then a create |
| SampleIngestion.Main | src/enterprise_mcp_auth/ingestion/create_index_and_documents.py:213-261 | exit 1 without endpoint or admin key, before any index call; an ingested run deleted and recreated the index and uploaded the eight documents |
| SampleIngestion.MainOutcomes | src/enterprise_mcp_auth/ingestion/create_index_and_documents.py:240-261 | a failed creation exits before uploading; a failed upload exits with its message; otherwise the summary is reported |
| Blueprint.Describe | src/enterprise_mcp_auth/agent_framework/agent_blueprint.py:69-72 | a capability named by its name, described "Capability: {name}" |
| Blueprint.DescribeAll | src/enterprise_mcp_auth/agent_framework/agent_blueprint.py:67-73 | one described capability per name, in order |
| Blueprint.Names | src/enterprise_mcp_auth/agent_framework/agent_blueprint.py:137 | the capability names, in order |
| Blueprint.NamesOfDescribed | src/enterprise_mcp_auth/agent_framework/agent_blueprint.py:67-73 | describing names and reading them back gives the names |
| Blueprint.CapabilityNames | src/enterprise_mcp_auth/agent_framework/agent_blueprint.py:59-64 | None or empty capabilities mean the three defaults; any other list is used as given |
| Blueprint.AgentBlueprint.constructor | src/enterprise_mcp_auth/agent_framework/agent_blueprint.py:76-81 | the blueprint holds the given name, description, capabilities and metadata |
| Blueprint.BuildCapabilities | src/enterprise_mcp_auth/agent_framework/agent_blueprint.py:67-73 | the loop computes `DescribeAll` |
| Blueprint.DescribeAllSnoc | src/enterprise_mcp_auth/agent_framework/agent_blueprint.py:67-73 | describing one more name appends one capability |
| Blueprint.AgentBlueprintManager.constructor | src/enterprise_mcp_auth/agent_framework/agent_blueprint.py:18-28 | name from the argument, else AGENT_BLUEPRINT_NAME; no blueprint |
| Blueprint.AgentBlueprintManager.ChosenName | src/enterprise_mcp_auth/agent_framework/agent_blueprint.py:51 | `name or self.blueprint_name` |
| Blueprint.AgentBlueprintManager.CreateBlueprint | src/enterprise_mcp_auth/agent_framework/agent_blueprint.py:32-88 | ValueError with the blueprint unchanged when no name; otherwise stores and returns a fresh blueprint with the defaulted description, capabilities and metadata |
| Blueprint.AgentBlueprintManager.GetBlueprint | src/enterprise_mcp_auth/agent_framework/agent_blueprint.py:90-96 | the stored blueprint |
| Blueprint.AgentBlueprintManager.AddCapability | src/enterprise_mcp_auth/agent_framework/agent_blueprint.py:98-123 | ValueError without a blueprint; otherwise exactly one capability appended at the end |
| Blueprint.AgentBlueprintManager.GetBlueprintInfo | src/enterprise_mcp_auth/agent_framework/agent_blueprint.py:125-139 | `{}` iff there is no blueprint; otherwise name, description, capability names in order, and metadata |
| Blueprint.AgentBlueprintManager.ValidateBlueprint | src/enterprise_mcp_auth/agent_framework/agent_blueprint.py:141-164 | true iff a blueprint exists with a non-empty name, whatever its capabilities |
| Blueprint.CreateThenAdd | src/enterprise_mcp_auth/agent_framework/agent_blueprint.py:32-139 | after creating, the blueprint validates and lists its capability names; adding one appends its name and keeps the blueprint's name |
| Blueprint.NamesSnoc | src/enterprise_mcp_auth/agent_framework/agent_blueprint.py:113-118 | appending a capability appends its name |
| Supervisor.ValidateIdentity | src/enterprise_mcp_auth/agents/supervisor.py:16-40 | returns the state unchanged iff identity, access_token and mcp_base_url are all truthy; otherwise the first failing check decides the error |
| Supervisor.ShouldContinue | src/enterprise_mcp_auth/agents/supervisor.py:43-53 | always "end" |
| Supervisor.Path | src/enterprise_mcp_auth/agents/supervisor.py:76-85 | the path starts at its node |
| Supervisor.GraphOrder | src/enterprise_mcp_auth/agents/supervisor.py:76-85 | from the entry point the graph visits validate_identity, run_agent, END |
| Supervisor.IdentityContext | src/enterprise_mcp_auth/agents/supervisor.py:116-120 | exactly the keys user_login, access_token and oid, holding the arguments |
| Supervisor.InitialState | src/enterprise_mcp_auth/agents/supervisor.py:123-128 | empty messages, the query and URL copied, the identity from the arguments |
| Supervisor.RunSupervisor | src/enterprise_mcp_auth/agents/supervisor.py:91-134 | an empty token or URL raises ValueError without running the agent; otherwise the answer is the agent's on the initial state |
| Supervisor.SupervisorValidatesInitialState | src/enterprise_mcp_auth/agents/supervisor.py:91-134 | the initial state validates iff token and URL are non-empty, otherwise with the message for the first missing one |
| AgentCli.MissingVarsMessage | src/enterprise_mcp_auth/cli.py:45-55 | a message iff one of the three variables is missing, naming them in order |
| AgentCli.McpBaseUrl | src/enterprise_mcp_auth/cli.py:64 | the first truthy of --mcp-url and MCP_BASE_URL, else MCP_SERVER_URL, whose default applies only when it is unset |
| AgentCli.McpScope | src/enterprise_mcp_auth/cli.py:65-69 | MCP_SCOPE, else MCP_SERVER_AUDIENCE, else "api://{client_id}/.default"; never empty |
| AgentCli.UserLogin | src/enterprise_mcp_auth/cli.py:92 | preferred_username, else upn, else "unknown"; AttributeError when the claims are not a dict |
| AgentCli.LastReply | src/enterprise_mcp_auth/cli.py:141-146 | a reply, when found, is non-empty |
| AgentCli.LastReplyIsLast | src/enterprise_mcp_auth/cli.py:141-146 | none iff no assistant message has content; otherwise the content of the last such message |
| AgentCli.FinalResponse | src/enterprise_mcp_auth/cli.py:141-146 | the reversed walk returns `LastReply` |
| AgentCli.Main | src/enterprise_mcp_auth/cli.py:45-158 | every exit has status 1; a completed run had all variables; verbose runs show no final response, and a shown response is non-empty |
| AgentCli.FailuresExitWithOne | src/enterprise_mcp_auth/cli.py:45-158 | a missing variable (before any token request), a failed acquisition, claims without `.get`, or a failed agent run each end with exit status 1 and the message for that cause |
| AgentCli.SuccessCompletes | src/enterprise_mcp_auth/cli.py:45-158 | with every variable set, a returned token, object claims and a returned agent run, the invocation completes showing the agent's last reply, or no response in verbose mode |
| AgentCli.AgentSeesAcquiredToken | src/enterprise_mcp_auth/cli.py:80-120 | the supervisor receives exactly the acquired token, the resolved URL and the login from its claims |
| McpClient.BearerTransport | src/enterprise_mcp_auth/client/mcp_client.py:42-46 | the transport targets the base URL with the single header Authorization = "Bearer " + token |
| McpClient.SearchArguments | src/enterprise_mcp_auth/client/mcp_client.py:94 | exactly {"query", "top"} with the given values |
| McpClient.GetArguments | src/enterprise_mcp_auth/client/mcp_client.py:105 | exactly {"id"} |
| McpClient.AuthenticatedMCPClient.constructor | src/enterprise_mcp_auth/client/mcp_client.py:15-25 | disconnected, with no transport |
| McpClient.AuthenticatedMCPClient.Connect | src/enterprise_mcp_auth/client/mcp_client.py:36-49 | a no-op while connected; otherwise both fields are set to the bearer transport before the session is entered |
| McpClient.AuthenticatedMCPClient.Disconnect | src/enterprise_mcp_auth/client/mcp_client.py:51-56 | clears both fields; a no-op when already disconnected |
| McpClient.AuthenticatedMCPClient.ListTools | src/enterprise_mcp_auth/client/mcp_client.py:58-67 | RuntimeError and nothing sent while disconnected |
| McpClient.AuthenticatedMCPClient.CallTool | src/enterprise_mcp_auth/client/mcp_client.py:69-82 | RuntimeError and nothing sent while disconnected; otherwise name and arguments sent unchanged |
| McpClient.AuthenticatedMCPClient.SearchDocuments | src/enterprise_mcp_auth/client/mcp_client.py:84-94 | calls tool "search_documents" with {query, top}, top 5 when omitted |
| McpClient.AuthenticatedMCPClient.GetDocument | src/enterprise_mcp_auth/client/mcp_client.py:96-105 | calls tool "get_document" with {id} |
| McpClient.AuthenticatedMCPClient.Suggest | src/enterprise_mcp_auth/client/mcp_client.py:107-117 | calls tool "suggest" with {query, top}, top 5 when omitted |
| McpClient.AuthenticatedMCPClient.AEnter | src/enterprise_mcp_auth/client/mcp_client.py:27-30 | connects and yields the client itself; sends nothing when already connected |
| McpClient.AuthenticatedMCPClient.AExit | src/enterprise_mcp_auth/client/mcp_client.py:32-34 | disconnects, sending the leave only when connected |
| McpClient.CreateMcpClient | src/enterprise_mcp_auth/client/mcp_client.py:120-130 | a fresh, disconnected client for the URL and token |
| McpClient.SearchOnce | src/enterprise_mcp_auth/client/mcp_client.py:27-94 | an `async with` block sends enter, the search, leave, in that order, and ends disconnected |
| McpClient.ReconnectAfterFailedEnter | src/enterprise_mcp_auth/client/mcp_client.py:38-49 | after entering failed the client counts as connected, so a second connect sends nothing |
| CliCommands.ValidateArgs | enterprise_mcp_auth/client/ai_search_mcp_client.py:176-181 | passes iff the command is known and search/suggest have a non-empty query and get a non-empty id, with each usage message |
| CliCommands.Kwargs | enterprise_mcp_auth/client/ai_search_mcp_client.py:194-201 | query, id and top passed on as given |
| CliCommands.TopOf | enterprise_mcp_auth/client/ai_search_mcp_client.py:115 | `kwargs.get("top", 5)` |
| CliCommands.Dispatch | enterprise_mcp_auth/client/ai_search_mcp_client.py:114-124 | each known command calls exactly one tool (or lists tools) with {query, top} or {id}; unknown commands iff not in the choices |
| CliCommands.ValidatedArgumentsReachTool | enterprise_mcp_auth/client/ai_search_mcp_client.py:176-201 | validated arguments reach the tool with the non-empty query or id |
| CliCommands.ReportGet | enterprise_mcp_auth/client/ai_search_mcp_client.py:49-57 | a result holding "error" is reported as that error alone; otherwise the fields are listed |
| OauthCli.NormaliseUrl | enterprise_mcp_auth/client/ai_search_mcp_client.py:186-188 | the local server with trailing slashes stripped becomes http://localhost:8000/mcp; any other URL is unchanged |
| OauthCli.NormaliseUrlIdempotent | enterprise_mcp_auth/client/ai_search_mcp_client.py:187-188 | normalising a normalised URL changes nothing |
| OauthCli.NormaliseUrlRewrites | enterprise_mcp_auth/client/ai_search_mcp_client.py:187-188 | the local server with any number of trailing slashes is rewritten; the endpoint is kept |
| OauthCli.Slashes | enterprise_mcp_auth/client/ai_search_mcp_client.py:187 | n slashes |
| OauthCli.StripSlashes | enterprise_mcp_auth/client/ai_search_mcp_client.py:187 | stripping trailing slashes from s followed by slashes gives s |
| OauthCli.Main | enterprise_mcp_auth/client/ai_search_mcp_client.py:127-204 | a usage error iff the arguments fail validation; otherwise a session to the normalised URL running the dispatched command, or, when the session raises, exit status 1 with "Error: " + its message |
| OauthCli.SessionRunsKnownCommand | enterprise_mcp_auth/client/ai_search_mcp_client.py:148-152 | a session only ever runs a known command, at a normalised URL |
| SearchCli.SettingsFromEnv | src/enterprise_mcp_auth/client/ai_search_mcp_client.py:21-24 | client id, tenant, server URL (default http://localhost:8000) and audience from the environment |
| SearchCli.MainSpec | src/enterprise_mcp_auth/client/ai_search_mcp_client.py:229-280 | usage error iff the arguments are invalid; every exit has status 1; a missing variable ends with its message; with a configured app a failed device flow ends with "Authentication failed: " + its message, and a returned token goes to `RunClient` at the --server-url value |
| SearchCli.EnvCheck | src/enterprise_mcp_auth/client/ai_search_mcp_client.py:236-242 | passes iff client id and tenant are non-empty, with the message for the first missing one |
| SearchCli.Scopes | src/enterprise_mcp_auth/client/ai_search_mcp_client.py:245-249 | exactly one scope: the audience if non-empty, else "api://{client_id}/.default" |
| SearchCli.AcquireTokenViaDeviceCode | src/enterprise_mcp_auth/client/ai_search_mcp_client.py:27-71 | cached token first; a flow without user_code raises ValueError; a result without access_token raises |
| SearchCli.BearerAuthorization | src/enterprise_mcp_auth/client/ai_search_mcp_client.py:160-163 | the single header Authorization = "Bearer " + token |
| SearchCli.RunClient | src/enterprise_mcp_auth/client/ai_search_mcp_client.py:157-177 | a session to the URL with the bearer header, running the dispatched command, iff opening the session does not raise; otherwise exit status 1 with "Error: " + the message (lines 270-280) |
| SearchCli.SessionUsesArgumentUrlAndToken | src/enterprise_mcp_auth/client/ai_search_mcp_client.py:229-280 | a session is opened only for valid arguments and a configured app, to the --server-url URL, with the acquired token |
| SearchCli.ClientModule.constructor | src/enterprise_mcp_auth/client/ai_search_mcp_client.py:21-24 | the global URL starts as MCP_SERVER_URL |
| SearchCli.ClientModule.RunMain | src/enterprise_mcp_auth/client/ai_search_mcp_client.py:180-280 | answers as the specification; the global URL is reassigned exactly when a token was obtained, even if the session then fails |

## Left out

- MSAL, the Azure Search clients, FastMCP (`AzureProvider`, `JWTVerifier`, `OAuthProxy`, `get_access_token`), Microsoft Graph and the LangGraph agent node are external libraries. They are oracles whose answers are parameters, and only the calls the code makes to them are recorded.
- The document-level permission filter itself runs in the search service, not in this code, so it is not modelled.
- `base64.urlsafe_b64decode` and `json.loads` form one partial decoder oracle (`JwtClaims.Decoder`); only the split and padding around it are modelled exactly.
- Logging, `print`/`click.echo` output, emoji decorations in messages, `.env` loading and `sys.exit` are I/O. Exit statuses and the messages that decide behaviour are kept; the rest is not modelled.
- The verbose transcript of the agent command line (`cli.py` 123-139) only prints, so it is not modelled.
- Reading `sample_documents.json` in the stand-alone ingestion script is I/O; the loaded documents are a parameter.
- `RECREATE_INDEX` is the constant `False` in the source. It is a parameter here so that both branches are modelled.
- Python dict key order is not modelled; dicts are maps.
- How arguments are handed to the Azure SDK, MSAL and FastMCP calls (keyword arguments, a dict, `**kwargs`) is not modelled; each recorded call keeps only the argument names and values.
- JSON values have no floating-point numbers; claims that decode to a float are outside the model.
- RootServer.OboToken: the AttributeError message leaves out the Python type name that comes before "object has no attribute 'get'"; AgentCli.UserLogin and Supervisor.ValidateIdentity use the same message.
- PyRuntime.Strip: `str.strip` removes all Unicode whitespace, but the model removes only the ASCII whitespace characters.
- Async execution is modelled as sequential; the handlers have no concurrency logic of their own.
- McpClient.AuthenticatedMCPClient.AExit does not model exceptions raised while leaving the session.
- McpClient.AuthenticatedMCPClient.Disconnect does not model an exception from leaving the session, after which the source keeps both fields set; the model always clears them.
- LangGraph's merging of state updates is not modelled; the supervisor run is validation followed by the agent node.
- `src/enterprise_mcp_auth/agents/react_agent.py`, `tools.py`, `agent_framework/agent.py` and `agent_identity.py` are library glue and credential wrappers; they are not part of this model.
- The demo scripts under `scripts/agent/` and the `enterprise_mcp_auth/agent_framework/__init__.py` re-exports are not part of this model.
- CliCommands.Dispatch still models the unknown-command branch of `run_client`, even though argparse's `choices` keep it from being reached from `main`.
- Blueprint.AgentBlueprintManager.CreateBlueprint: the library's `AgentBlueprint` object is assumed to be truthy, as the source's checks take for granted.
