/** The agent command line (`src/enterprise_mcp_auth/cli.py`): configuration
    from options and environment, token acquisition, the supervisor run, and
    the choice of the response shown. */
module AgentCli {
  import opened PyRuntime
  import opened JwtClaims
  import opened ClientAuth
  import opened Supervisor

  /** The variables checked first, in the order of the dict literal. */
  const RequiredVars: seq<string> := ["AZURE_CLIENT_ID", "AZURE_TENANT_ID", "OPENAI_API_KEY"]

  /** The message of the missing-variables exit, when there is one. */
  function MissingVarsMessage(env: Env): (r: Option<string>)
    ensures r.None? <==> forall v :: v in RequiredVars ==> IsSet(env, v)
    ensures r.Some? ==> r.value == "Error: Missing required environment variables: "
                                   + Join(MissingVars(env, RequiredVars), ", ")
  {
    MissingVarsEmpty(env, RequiredVars);
    var missing := MissingVars(env, RequiredVars);
    if missing != [] then Some("Error: Missing required environment variables: " + Join(missing, ", "))
    else None
  }

  /** `mcp_url or os.getenv('MCP_BASE_URL') or os.getenv('MCP_SERVER_URL', 'http://localhost:8000')`:
      the first truthy of the option and MCP_BASE_URL, else MCP_SERVER_URL, whose
      default applies only when it is unset (a set but empty value is kept). */
  function McpBaseUrl(mcpUrl: Option<string>, env: Env): (r: string)
    ensures Given(mcpUrl) ==> r == mcpUrl.value
    ensures !Given(mcpUrl) && IsSet(env, "MCP_BASE_URL") ==> r == env["MCP_BASE_URL"]
    ensures !Given(mcpUrl) && !IsSet(env, "MCP_BASE_URL") ==>
              r == (if "MCP_SERVER_URL" in env then env["MCP_SERVER_URL"] else "http://localhost:8000")
  {
    if mcpUrl.Some? && mcpUrl.value != "" then mcpUrl.value
    else
      var base := GetEnv(env, "MCP_BASE_URL");
      if base.Some? && base.value != "" then base.value
      else GetEnvOr(env, "MCP_SERVER_URL", "http://localhost:8000")
  }

  predicate Given(s: Option<string>) {
    s.Some? && s.value != ""
  }

  /** The scope: MCP_SCOPE, else MCP_SERVER_AUDIENCE, else the app's default scope. */
  function McpScope(env: Env, clientId: string): (r: string)
    ensures IsSet(env, "MCP_SCOPE") ==> r == env["MCP_SCOPE"]
    ensures !IsSet(env, "MCP_SCOPE") && IsSet(env, "MCP_SERVER_AUDIENCE") ==> r == env["MCP_SERVER_AUDIENCE"]
    ensures !IsSet(env, "MCP_SCOPE") && !IsSet(env, "MCP_SERVER_AUDIENCE") ==> r == "api://" + clientId + "/.default"
    ensures r != ""
  {
    if IsSet(env, "MCP_SCOPE") then env["MCP_SCOPE"]
    else if IsSet(env, "MCP_SERVER_AUDIENCE") then env["MCP_SERVER_AUDIENCE"]
    else "api://" + clientId + "/.default"
  }

  /** `user_info.get('preferred_username') or user_info.get('upn') or 'unknown'`;
      claims that are not a JSON object have no `.get`. */
  function UserLogin(userInfo: Json): (r: Outcome<Json>)
    ensures !userInfo.JObj? <==> r.Raised?
    ensures r.Raised? ==> r.exn.kind == AttributeError
    ensures r.Returned? ==> Truthy(r.value)
    ensures userInfo.JObj? && Truthy(DictGet(userInfo.fields, "preferred_username")) ==>
              r == Returned(userInfo.fields["preferred_username"])
    ensures (userInfo.JObj? && !Truthy(DictGet(userInfo.fields, "preferred_username"))
             && Truthy(DictGet(userInfo.fields, "upn"))) ==> r == Returned(userInfo.fields["upn"])
    ensures (userInfo.JObj? && !Truthy(DictGet(userInfo.fields, "preferred_username"))
             && !Truthy(DictGet(userInfo.fields, "upn"))) ==> r == Returned(JStr("unknown"))
  {
    if !userInfo.JObj? then Raised(Exn(AttributeError, NoGetMessage))
    else
      var preferred := DictGet(userInfo.fields, "preferred_username");
      var upn := DictGet(userInfo.fields, "upn");
      if Truthy(preferred) then Returned(preferred)
      else if Truthy(upn) then Returned(upn)
      else Returned(JStr("unknown"))
  }

  /** An assistant message with something to show. */
  predicate IsReply(m: Message) {
    m.AIMessage? && m.content != ""
  }

  /** The content of the last assistant message with non-empty content. */
  function LastReply(messages: seq<Message>): (r: Option<string>)
    ensures r.Some? ==> r.value != ""
  {
    if messages == [] then None
    else if IsReply(messages[|messages| - 1]) then Some(messages[|messages| - 1].content)
    else LastReply(messages[..|messages| - 1])
  }

  /** `LastReply` is the reply at the largest index that holds one, and there is
      none exactly when no message is a reply. */
  lemma {:induction false} LastReplyIsLast(messages: seq<Message>)
    ensures LastReply(messages).None? <==> forall i :: 0 <= i < |messages| ==> !IsReply(messages[i])
    ensures LastReply(messages).Some? ==>
              exists i :: 0 <= i < |messages| && IsReply(messages[i])
                          && messages[i].content == LastReply(messages).value
                          && forall j :: i < j < |messages| ==> !IsReply(messages[j])
  {
    if messages != [] {
      var n := |messages| - 1;
      var init := messages[..n];
      if !IsReply(messages[n]) {
        LastReplyIsLast(init);
        assert forall i :: 0 <= i < n ==> messages[i] == init[i];
        if LastReply(init).Some? {
          var i :| 0 <= i < |init| && IsReply(init[i]) && init[i].content == LastReply(init).value
                   && forall j :: i < j < |init| ==> !IsReply(init[j]);
          assert messages[i] == init[i];
        }
      }
    }
  }

  /** The non-verbose display: walk the messages from the end and stop at the
      first assistant message with content. */
  method FinalResponse(messages: seq<Message>) returns (r: Option<string>)
    ensures r == LastReply(messages)
  {
    var k := |messages|;
    assert messages[..k] == messages;
    while k > 0
      invariant 0 <= k <= |messages|
      invariant LastReply(messages) == LastReply(messages[..k])
    {
      var m := messages[k - 1];
      assert messages[..k][..k - 1] == messages[..k - 1];
      if m.AIMessage? && m.content != "" {
        return Some(m.content);
      }
      k := k - 1;
    }
    return None;
  }

  /** The end of one invocation: exit status 1 with the cause written to
      stderr, or completion with the response shown (none in verbose mode,
      where the whole transcript is printed instead). */
  datatype CliRun = Exit(code: int, message: string) | Completed(response: Option<string>)

  /** `main`. `decode` is the claims decoder, `agent` the agent node of the
      supervisor graph. */
  function Main(query: string, model: string, mcpUrl: Option<string>, verbose: bool,
                env: Env, idp: Idp, decode: Decoder, agent: AgentNode): (r: CliRun)
    ensures r.Exit? ==> r.code == 1
    ensures verbose && r.Completed? ==> r.response.None?
    ensures r.Completed? && r.response.Some? ==> r.response.value != ""
    ensures r.Completed? ==> MissingVars(env, RequiredVars) == []
  {
    match MissingVarsMessage(env)
    case Some(message) => Exit(1, message)
    case None =>
      var clientId := GetEnvOr(env, "AZURE_CLIENT_ID", "");
      var tenantId := GetEnvOr(env, "AZURE_TENANT_ID", "");
      var baseUrl := McpBaseUrl(mcpUrl, env);
      var scope := McpScope(env, clientId);
      var acquired := AcquireToken(clientId, tenantId, [scope], GetEnv(env, "AZURE_CLIENT_SECRET"), true, idp);
      match acquired.outcome
      case Raised(e) => Exit(1, "Token acquisition failed: " + e.message)
      case Returned(token) =>
        var userInfo := UserInfoFromToken(token, decode);
        match UserLogin(userInfo)
        case Raised(e) => Exit(1, "Token acquisition failed: " + e.message)
        case Returned(login) =>
          var oid := DictGet(userInfo.fields, "oid");
          match RunSupervisor(query, token, baseUrl, login, oid, agent)
          case Raised(e) => Exit(1, "Error: " + e.message)
          case Returned(state) =>
            if verbose then Completed(None) else Completed(LastReply(state.messages))
  }

  /** Exit status 1 whenever a required variable is missing, and then no token
      is requested; when the token request fails, when the token's claims have
      no `.get`, or when the agent run raises, the status is 1 as well, with
      the cause in the message. */
  lemma {:induction false} FailuresExitWithOne(query: string, model: string, mcpUrl: Option<string>, verbose: bool,
                                               env: Env, idp: Idp, decode: Decoder, agent: AgentNode)
    ensures MissingVars(env, RequiredVars) != [] ==>
              Main(query, model, mcpUrl, verbose, env, idp, decode, agent)
              == Exit(1, MissingVarsMessage(env).value)
    ensures MissingVars(env, RequiredVars) == [] ==>
              var clientId := GetEnvOr(env, "AZURE_CLIENT_ID", "");
              var acquired := AcquireToken(clientId, GetEnvOr(env, "AZURE_TENANT_ID", ""), [McpScope(env, clientId)],
                                           GetEnv(env, "AZURE_CLIENT_SECRET"), true, idp);
              acquired.outcome.Raised? ==>
                Main(query, model, mcpUrl, verbose, env, idp, decode, agent)
                == Exit(1, "Token acquisition failed: " + acquired.outcome.exn.message)
    ensures MissingVars(env, RequiredVars) == [] ==>
              var clientId := GetEnvOr(env, "AZURE_CLIENT_ID", "");
              var acquired := AcquireToken(clientId, GetEnvOr(env, "AZURE_TENANT_ID", ""), [McpScope(env, clientId)],
                                           GetEnv(env, "AZURE_CLIENT_SECRET"), true, idp);
              acquired.outcome.Returned? ==>
                var info := UserInfoFromToken(acquired.outcome.value, decode);
                && (!info.JObj? ==>
                      Main(query, model, mcpUrl, verbose, env, idp, decode, agent)
                      == Exit(1, "Token acquisition failed: " + NoGetMessage))
                && (info.JObj? ==>
                      var run := RunSupervisor(query, acquired.outcome.value, McpBaseUrl(mcpUrl, env),
                                               UserLogin(info).value, DictGet(info.fields, "oid"), agent);
                      run.Raised? ==>
                        Main(query, model, mcpUrl, verbose, env, idp, decode, agent)
                        == Exit(1, "Error: " + run.exn.message))
  {
    MissingVarsEmpty(env, RequiredVars);
    if MissingVars(env, RequiredVars) == [] {
      assert "AZURE_CLIENT_ID" in RequiredVars && "AZURE_TENANT_ID" in RequiredVars;
    }
  }

  /** When every required variable is set, the token is acquired, its claims
      are an object and the agent run returns, the invocation completes: it
      shows the agent's last reply, or nothing in verbose mode. */
  lemma {:induction false} SuccessCompletes(query: string, model: string, mcpUrl: Option<string>, verbose: bool,
                                            env: Env, idp: Idp, decode: Decoder, agent: AgentNode)
    ensures MissingVars(env, RequiredVars) == [] ==>
              var clientId := GetEnvOr(env, "AZURE_CLIENT_ID", "");
              var acquired := AcquireToken(clientId, GetEnvOr(env, "AZURE_TENANT_ID", ""), [McpScope(env, clientId)],
                                           GetEnv(env, "AZURE_CLIENT_SECRET"), true, idp);
              acquired.outcome.Returned? ==>
                var info := UserInfoFromToken(acquired.outcome.value, decode);
                info.JObj? ==>
                  var run := RunSupervisor(query, acquired.outcome.value, McpBaseUrl(mcpUrl, env),
                                           UserLogin(info).value, DictGet(info.fields, "oid"), agent);
                  run.Returned? ==>
                    Main(query, model, mcpUrl, verbose, env, idp, decode, agent)
                    == Completed(if verbose then None else LastReply(run.value.messages))
  {
    MissingVarsEmpty(env, RequiredVars);
    if MissingVars(env, RequiredVars) == [] {
      assert "AZURE_CLIENT_ID" in RequiredVars && "AZURE_TENANT_ID" in RequiredVars;
    }
  }

  /** The supervisor receives the token that was acquired and the resolved URL;
      a non-verbose run shows exactly the agent's last reply. */
  lemma {:induction false} AgentSeesAcquiredToken(query: string, model: string, mcpUrl: Option<string>,
                                                  env: Env, idp: Idp, decode: Decoder, agent: AgentNode)
    requires forall v :: v in RequiredVars ==> IsSet(env, v)
    ensures var clientId := GetEnvOr(env, "AZURE_CLIENT_ID", "");
            var acquired := AcquireToken(clientId, GetEnvOr(env, "AZURE_TENANT_ID", ""), [McpScope(env, clientId)],
                                         GetEnv(env, "AZURE_CLIENT_SECRET"), true, idp);
            var r := Main(query, model, mcpUrl, false, env, idp, decode, agent);
            r.Completed? ==>
              acquired.outcome.Returned?
              && var token := acquired.outcome.value;
                 var info := UserInfoFromToken(token, decode);
                 var result := RunSupervisor(query, token, McpBaseUrl(mcpUrl, env),
                                             UserLogin(info).value, DictGet(info.fields, "oid"), agent);
                 result.Returned? && r.response == LastReply(result.value.messages)
  {
    assert "AZURE_CLIENT_ID" in RequiredVars && "AZURE_TENANT_ID" in RequiredVars;
  }
}
