/** The supervisor graph around the ReAct agent
    (`src/enterprise_mcp_auth/agents/supervisor.py`, with the state shapes of
    `src/enterprise_mcp_auth/agents/state.py`).

    The graph is `validate_identity -> run_agent -> END`. Validation is a chain
    of checks on the state dictionary; the agent node is an oracle. */
module Supervisor {
  import opened PyRuntime

  /** The chat messages the agent exchanges (LangChain message classes). */
  datatype Message =
    | HumanMessage(content: string)
    | AIMessage(content: string)
    | ToolMessage(name: string, content: string)
    | SystemMessage(content: string)

  /** `AgentState`. `identity` and `mcpBaseUrl` are what `state.get(...)` yields,
      `JNull` when the key is absent or holds `None`. */
  datatype AgentState = AgentState(messages: seq<Message>, identity: Json, query: string, mcpBaseUrl: Json)

  /** `validate_identity`: three checks in order, the first failing one decides
      the exception; a truthy identity that is not a dict has no `.get`. */
  function ValidateIdentity(state: AgentState): (r: Outcome<AgentState>)
    ensures r.Returned? <==>
              state.identity.JObj? && state.identity.fields != map[]
              && Truthy(DictGet(state.identity.fields, "access_token"))
              && Truthy(state.mcpBaseUrl)
    ensures r.Returned? ==> r.value == state
    ensures !Truthy(state.identity) ==> r == Raised(Exn(ValueError, "Identity context is missing"))
    ensures Truthy(state.identity) && !state.identity.JObj? ==> r.Raised? && r.exn.kind == AttributeError
    ensures state.identity.JObj? && Truthy(state.identity)
            && !Truthy(DictGet(state.identity.fields, "access_token")) ==>
              r == Raised(Exn(ValueError, "Access token is missing from identity context"))
    ensures state.identity.JObj? && Truthy(state.identity)
            && Truthy(DictGet(state.identity.fields, "access_token")) && !Truthy(state.mcpBaseUrl) ==>
              r == Raised(Exn(ValueError, "MCP base URL is missing"))
  {
    if !Truthy(state.identity) then Raised(Exn(ValueError, "Identity context is missing"))
    else if !state.identity.JObj? then Raised(Exn(AttributeError, NoGetMessage))
    else if !Truthy(DictGet(state.identity.fields, "access_token")) then
      Raised(Exn(ValueError, "Access token is missing from identity context"))
    else if !Truthy(state.mcpBaseUrl) then Raised(Exn(ValueError, "MCP base URL is missing"))
    else Returned(state)
  }

  /** `should_continue`: after the agent has run the graph always ends. */
  function ShouldContinue(state: AgentState): (r: string)
    ensures r == "end"
  {
    "end"
  }

  /** The nodes of the supervisor graph. */
  datatype Node = ValidateIdentityNode | RunAgentNode | End

  const EntryPoint := ValidateIdentityNode

  /** The graph's edges (`add_edge`): each node has exactly one successor. */
  function Successor(n: Node): Node {
    match n
    case ValidateIdentityNode => RunAgentNode
    case RunAgentNode => End
    case End => End
  }

  /** The nodes visited from `n` until END, at most `fuel` steps. */
  function Path(n: Node, fuel: nat): (p: seq<Node>)
    ensures |p| >= 1 && p[0] == n
    decreases fuel
  {
    if n == End || fuel == 0 then [n] else [n] + Path(Successor(n), fuel - 1)
  }

  /** From the entry point the graph visits validate_identity, then run_agent,
      then END, and any longer walk sees the same path. */
  lemma {:induction false} GraphOrder(fuel: nat)
    requires fuel >= 2
    ensures Path(EntryPoint, fuel) == [ValidateIdentityNode, RunAgentNode, End]
  {
    assert Path(End, fuel - 2) == [End];
    assert Path(RunAgentNode, fuel - 1) == [RunAgentNode] + [End];
  }

  /** The agent node (`run_react_agent`), as an oracle. */
  type AgentNode = AgentState -> Outcome<AgentState>

  /** The identity context `run_supervisor` builds; its optional login and oid
      are whatever the caller passes, `None` included. */
  function IdentityContext(userLogin: Json, accessToken: string, oid: Json): (r: Json)
    ensures r.JObj? && r.fields.Keys == {"user_login", "access_token", "oid"}
    ensures r.fields["access_token"] == JStr(accessToken)
    ensures r.fields["user_login"] == userLogin && r.fields["oid"] == oid
  {
    JObj(map["user_login" := userLogin, "access_token" := JStr(accessToken), "oid" := oid])
  }

  /** The initial state of `run_supervisor`. */
  function InitialState(query: string, accessToken: string, mcpBaseUrl: string, userLogin: Json, oid: Json): (s: AgentState)
    ensures s.messages == [] && s.query == query && s.mcpBaseUrl == JStr(mcpBaseUrl)
    ensures s.identity == IdentityContext(userLogin, accessToken, oid)
  {
    AgentState([], IdentityContext(userLogin, accessToken, oid), query, JStr(mcpBaseUrl))
  }

  /** Running the graph: validation, then the agent on the validated state. */
  function RunSupervisor(query: string, accessToken: string, mcpBaseUrl: string,
                         userLogin: Json, oid: Json, agent: AgentNode): (r: Outcome<AgentState>)
    ensures accessToken == "" || mcpBaseUrl == "" ==> r.Raised? && r.exn.kind == ValueError
    ensures accessToken != "" && mcpBaseUrl != "" ==>
              r == agent(InitialState(query, accessToken, mcpBaseUrl, userLogin, oid))
  {
    var initial := InitialState(query, accessToken, mcpBaseUrl, userLogin, oid);
    match ValidateIdentity(initial)
    case Raised(e) => Raised(e)
    case Returned(state) => agent(state)
  }

  /** The state `run_supervisor` builds passes validation exactly when the token
      and the URL are non-empty; then the agent runs on that very state, and
      otherwise the agent never runs and the token check fails first. */
  lemma {:induction false} SupervisorValidatesInitialState(query: string, accessToken: string, mcpBaseUrl: string,
                                                           userLogin: Json, oid: Json, agent: AgentNode)
    ensures var initial := InitialState(query, accessToken, mcpBaseUrl, userLogin, oid);
            ValidateIdentity(initial).Returned? <==> accessToken != "" && mcpBaseUrl != ""
    ensures accessToken != "" && mcpBaseUrl != "" ==>
              RunSupervisor(query, accessToken, mcpBaseUrl, userLogin, oid, agent)
              == agent(InitialState(query, accessToken, mcpBaseUrl, userLogin, oid))
    ensures accessToken == "" ==>
              RunSupervisor(query, accessToken, mcpBaseUrl, userLogin, oid, agent)
              == Raised(Exn(ValueError, "Access token is missing from identity context"))
    ensures accessToken != "" && mcpBaseUrl == "" ==>
              RunSupervisor(query, accessToken, mcpBaseUrl, userLogin, oid, agent)
              == Raised(Exn(ValueError, "MCP base URL is missing"))
  {
    var identity := IdentityContext(userLogin, accessToken, oid);
    assert "access_token" in identity.fields;
    assert identity.fields != map[];
  }
}
