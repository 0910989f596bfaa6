/** The bearer-token MCP client wrapper (`src/enterprise_mcp_auth/client/mcp_client.py`).

    The wrapper holds the FastMCP client and its transport, both `None` while
    disconnected. The MCP server is an oracle; what the wrapper sends it is
    kept in `sent`, so "a guarded call sends nothing" can be stated. */
module McpClient {
  import opened PyRuntime

  /** A streamable-HTTP transport: the URL and the headers of every request. */
  datatype Transport = Transport(url: string, headers: map<string, string>)

  /** The transport `connect` builds for a server URL and token. */
  function BearerTransport(baseUrl: string, accessToken: string): (t: Transport)
    ensures t.url == baseUrl
    ensures t.headers.Keys == {"Authorization"}
    ensures StartsWith(t.headers["Authorization"], "Bearer ") && t.headers["Authorization"][7..] == accessToken
  {
    Transport(baseUrl, map["Authorization" := "Bearer " + accessToken])
  }

  /** The FastMCP `Client` built over a transport. */
  datatype Session = Session(transport: Transport)

  /** What the wrapper sends through the FastMCP client. */
  datatype Sent =
    | Enter(transport: Transport)
    | Leave
    | ListToolsRequest
    | CallToolRequest(name: string, arguments: Dict)

  /** The server's answers: whether entering the session raises, and what the
      two requests return. */
  datatype McpServer = McpServer(
    enter: Transport -> Option<Exn>,
    listTools: Transport -> Outcome<Json>,
    callTool: (Transport, string, Dict) -> Outcome<Json>)

  const NotConnectedMessage := "Client not connected. Call connect() first."

  /** The `top` the convenience methods send when their caller omits it. */
  const DefaultTop := 5

  /** The three convenience methods' tool names and arguments. */
  function SearchArguments(query: string, top: int): (a: Dict)
    ensures a.Keys == {"query", "top"} && a["query"] == JStr(query) && a["top"] == JInt(top)
  {
    map["query" := JStr(query), "top" := JInt(top)]
  }

  function GetArguments(id: string): (a: Dict)
    ensures a.Keys == {"id"} && a["id"] == JStr(id)
  {
    map["id" := JStr(id)]
  }

  class AuthenticatedMCPClient {
    const baseUrl: string
    const accessToken: string
    var client: Option<Session>
    var transport: Option<Transport>
    ghost var sent: seq<Sent>

    /** Both fields are set together, and always to the bearer transport of
        this client's URL and token. */
    ghost predicate Valid()
      reads this
    {
      && (client.Some? <==> transport.Some?)
      && (transport.Some? ==> transport.value == BearerTransport(baseUrl, accessToken)
                              && client.value == Session(transport.value))
    }

    predicate Connected()
      reads this
    {
      client.Some?
    }

    constructor(baseUrl: string, accessToken: string)
      ensures Valid() && !Connected()
      ensures this.baseUrl == baseUrl && this.accessToken == accessToken
      ensures transport.None? && sent == []
    {
      this.baseUrl := baseUrl;
      this.accessToken := accessToken;
      client := None;
      transport := None;
      sent := [];
    }

    /** `connect`: a no-op while connected. Otherwise both fields are set
        before the session is entered, so they stay set even when entering
        raises. */
    method Connect(server: McpServer) returns (err: Option<Exn>)
      requires Valid()
      modifies this
      ensures Valid() && Connected()
      ensures old(Connected()) ==> err.None? && sent == old(sent)
      ensures !old(Connected()) ==>
                transport == Some(BearerTransport(baseUrl, accessToken))
                && sent == old(sent) + [Enter(BearerTransport(baseUrl, accessToken))]
                && err == server.enter(BearerTransport(baseUrl, accessToken))
    {
      if client.Some? {
        return None;
      }
      var t := Transport(baseUrl, map["Authorization" := "Bearer " + accessToken]);
      transport := Some(t);
      client := Some(Session(t));
      sent := sent + [Enter(t)];
      err := server.enter(t);
    }

    /** `disconnect`: leaves the session and clears both fields; a no-op when
        already disconnected. */
    method Disconnect()
      requires Valid()
      modifies this
      ensures Valid() && !Connected() && transport.None?
      ensures old(Connected()) ==> sent == old(sent) + [Leave]
      ensures !old(Connected()) ==> sent == old(sent)
    {
      if client.Some? {
        sent := sent + [Leave];
        client := None;
        transport := None;
      }
    }

    /** `list_tools`: RuntimeError while disconnected, without sending anything. */
    method ListTools(server: McpServer) returns (r: Outcome<Json>)
      requires Valid()
      modifies this`sent
      ensures !Connected() ==> r == Raised(Exn(RuntimeError, NotConnectedMessage)) && sent == old(sent)
      ensures Connected() ==> r == server.listTools(transport.value) && sent == old(sent) + [ListToolsRequest]
    {
      if client.None? {
        return Raised(Exn(RuntimeError, NotConnectedMessage));
      }
      sent := sent + [ListToolsRequest];
      r := server.listTools(client.value.transport);
    }

    /** `call_tool`: RuntimeError while disconnected, without sending anything;
        otherwise the tool name and arguments go to the server unchanged. */
    method CallTool(name: string, arguments: Dict, server: McpServer) returns (r: Outcome<Json>)
      requires Valid()
      modifies this`sent
      ensures !Connected() ==> r == Raised(Exn(RuntimeError, NotConnectedMessage)) && sent == old(sent)
      ensures Connected() ==>
                r == server.callTool(transport.value, name, arguments)
                && sent == old(sent) + [CallToolRequest(name, arguments)]
    {
      if client.None? {
        return Raised(Exn(RuntimeError, NotConnectedMessage));
      }
      sent := sent + [CallToolRequest(name, arguments)];
      r := server.callTool(client.value.transport, name, arguments);
    }

    /** `top` is `None` when the caller omits it. */
    method SearchDocuments(query: string, top: Option<int>, server: McpServer) returns (r: Outcome<Json>)
      requires Valid()
      modifies this`sent
      ensures !Connected() ==> r == Raised(Exn(RuntimeError, NotConnectedMessage)) && sent == old(sent)
      ensures Connected() ==>
                r == server.callTool(transport.value, "search_documents", SearchArguments(query, top.GetOr(DefaultTop)))
                && sent == old(sent) + [CallToolRequest("search_documents", SearchArguments(query, top.GetOr(DefaultTop)))]
    {
      r := CallTool("search_documents", map["query" := JStr(query), "top" := JInt(top.GetOr(DefaultTop))], server);
    }

    method GetDocument(id: string, server: McpServer) returns (r: Outcome<Json>)
      requires Valid()
      modifies this`sent
      ensures !Connected() ==> r == Raised(Exn(RuntimeError, NotConnectedMessage)) && sent == old(sent)
      ensures Connected() ==>
                r == server.callTool(transport.value, "get_document", GetArguments(id))
                && sent == old(sent) + [CallToolRequest("get_document", GetArguments(id))]
    {
      r := CallTool("get_document", map["id" := JStr(id)], server);
    }

    /** `top` is `None` when the caller omits it. */
    method Suggest(query: string, top: Option<int>, server: McpServer) returns (r: Outcome<Json>)
      requires Valid()
      modifies this`sent
      ensures !Connected() ==> r == Raised(Exn(RuntimeError, NotConnectedMessage)) && sent == old(sent)
      ensures Connected() ==>
                r == server.callTool(transport.value, "suggest", SearchArguments(query, top.GetOr(DefaultTop)))
                && sent == old(sent) + [CallToolRequest("suggest", SearchArguments(query, top.GetOr(DefaultTop)))]
    {
      r := CallTool("suggest", map["query" := JStr(query), "top" := JInt(top.GetOr(DefaultTop))], server);
    }

    /** `__aenter__`: connects and yields the wrapper itself. */
    method AEnter(server: McpServer) returns (r: Outcome<AuthenticatedMCPClient>)
      requires Valid()
      modifies this
      ensures Valid() && Connected()
      ensures !old(Connected()) ==> sent == old(sent) + [Enter(BearerTransport(baseUrl, accessToken))]
      ensures old(Connected()) ==> sent == old(sent)
      ensures r.Returned? <==> old(Connected()) || server.enter(BearerTransport(baseUrl, accessToken)).None?
      ensures r.Returned? ==> r.value == this
    {
      var err := Connect(server);
      if err.Some? {
        return Raised(err.value);
      }
      r := Returned(this);
    }

    /** `__aexit__`: disconnects. */
    method AExit()
      requires Valid()
      modifies this
      ensures Valid() && !Connected()
      ensures old(Connected()) ==> sent == old(sent) + [Leave]
      ensures !old(Connected()) ==> sent == old(sent)
    {
      Disconnect();
    }
  }

  /** `create_mcp_client`: a new, disconnected wrapper. */
  method CreateMcpClient(baseUrl: string, accessToken: string) returns (c: AuthenticatedMCPClient)
    ensures fresh(c) && c.Valid() && !c.Connected()
    ensures c.baseUrl == baseUrl && c.accessToken == accessToken
  {
    c := new AuthenticatedMCPClient(baseUrl, accessToken);
  }

  /** A whole `async with` block that searches once: the server sees, in order,
      the session opened with the bearer header, the search, and the session
      closed; afterwards the wrapper is disconnected again. */
  method SearchOnce(c: AuthenticatedMCPClient, query: string, top: Option<int>, server: McpServer)
    returns (r: Outcome<Json>)
    requires c.Valid() && !c.Connected()
    requires server.enter(BearerTransport(c.baseUrl, c.accessToken)).None?
    modifies c
    ensures c.Valid() && !c.Connected()
    ensures c.sent == old(c.sent) + [Enter(BearerTransport(c.baseUrl, c.accessToken)),
                                     CallToolRequest("search_documents", SearchArguments(query, top.GetOr(DefaultTop))),
                                     Leave]
    ensures r == server.callTool(BearerTransport(c.baseUrl, c.accessToken), "search_documents",
                                 SearchArguments(query, top.GetOr(DefaultTop)))
  {
    var entered := c.AEnter(server);
    r := c.SearchDocuments(query, top, server);
    c.AExit();
  }

  /** When entering the session raises, `connect` has already recorded the
      client: a second `connect` is then a no-op and sends nothing. */
  method ReconnectAfterFailedEnter(c: AuthenticatedMCPClient, server: McpServer) returns (second: Option<Exn>)
    requires c.Valid() && !c.Connected()
    requires server.enter(BearerTransport(c.baseUrl, c.accessToken)).Some?
    modifies c
    ensures c.Connected()
    ensures second.None?
    ensures c.sent == old(c.sent) + [Enter(BearerTransport(c.baseUrl, c.accessToken))]
  {
    var first := c.Connect(server);
    assert first.Some?;
    second := c.Connect(server);
  }
}
