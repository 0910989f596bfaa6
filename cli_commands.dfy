/** What the two search CLIs (`enterprise_mcp_auth/client/ai_search_mcp_client.py`
    and `src/enterprise_mcp_auth/client/ai_search_mcp_client.py`) share, line for
    line: the command-line arguments, their validation, the dispatch of
    `run_client` to one MCP tool, and how a `get_document` result is reported. */
module CliCommands {
  import opened PyRuntime

  /** The parsed command line. `serverUrl` is `None` when `--server-url` was not
      given; `top` already holds argparse's default of 5 when `--top` was not. */
  datatype Args = Args(command: string, query: Option<string>, id: Option<string>, top: int, serverUrl: Option<string>)

  /** The `choices` of the positional `command` argument. */
  const Commands: seq<string> := ["search", "get", "suggest", "list-tools"]

  /** `not args.query` on an optional string. */
  predicate Given(s: Option<string>) {
    s.Some? && s.value != ""
  }

  /** The argparse checks, in order: the command must be one of the choices,
      search and suggest need a non-empty `--query`, get a non-empty `--id`.
      The result is the message `parser.error` exits with (status 2). */
  function ValidateArgs(args: Args): (r: Option<string>)
    ensures r.None? <==>
              args.command in Commands
              && ((args.command == "search" || args.command == "suggest") ==> Given(args.query))
              && (args.command == "get" ==> Given(args.id))
    ensures args.command == "search" && !Given(args.query) ==> r == Some("--query is required for search command")
    ensures args.command == "get" && !Given(args.id) ==> r == Some("--id is required for get command")
    ensures args.command == "suggest" && !Given(args.query) ==> r == Some("--query is required for suggest command")
  {
    if args.command !in Commands then
      Some("argument command: invalid choice: '" + args.command
           + "' (choose from 'search', 'get', 'suggest', 'list-tools')")
    else if args.command == "search" && !Given(args.query) then Some("--query is required for search command")
    else if args.command == "get" && !Given(args.id) then Some("--id is required for get command")
    else if args.command == "suggest" && !Given(args.query) then Some("--query is required for suggest command")
    else None
  }

  /** The keyword arguments `main` passes to `run_client`. */
  function Kwargs(args: Args): (k: Dict)
    ensures k.Keys == {"query", "id", "top"}
    ensures k["query"] == OptStr(args.query) && k["id"] == OptStr(args.id) && k["top"] == JInt(args.top)
  {
    map["query" := OptStr(args.query), "id" := OptStr(args.id), "top" := JInt(args.top)]
  }

  /** What the client session does for one command. */
  datatype Action =
    | CallTool(name: string, arguments: Dict)
    | ListTools
    | UnknownCommand(command: string)   // prints the command and exits with status 1

  /** `kwargs.get("top", 5)`. */
  function TopOf(kwargs: Dict): (r: Json)
    ensures "top" in kwargs ==> r == kwargs["top"]
    ensures "top" !in kwargs ==> r == JInt(5)
  {
    if "top" in kwargs then kwargs["top"] else JInt(5)
  }

  /** The dispatch inside `run_client`: each known command invokes exactly one
      handler, with the tool name and argument shape of that handler. */
  function Dispatch(command: string, kwargs: Dict): (a: Action)
    ensures command == "search" ==>
              a == CallTool("search_documents", map["query" := DictGet(kwargs, "query"), "top" := TopOf(kwargs)])
    ensures command == "get" ==> a == CallTool("get_document", map["id" := DictGet(kwargs, "id")])
    ensures command == "suggest" ==>
              a == CallTool("suggest", map["query" := DictGet(kwargs, "query"), "top" := TopOf(kwargs)])
    ensures command == "list-tools" ==> a == ListTools
    ensures command !in Commands <==> a.UnknownCommand?
  {
    if command == "search" then
      CallTool("search_documents", map["query" := DictGet(kwargs, "query"), "top" := TopOf(kwargs)])
    else if command == "get" then CallTool("get_document", map["id" := DictGet(kwargs, "id")])
    else if command == "suggest" then
      CallTool("suggest", map["query" := DictGet(kwargs, "query"), "top" := TopOf(kwargs)])
    else if command == "list-tools" then ListTools
    else UnknownCommand(command)
  }

  /** For validated arguments the tool receives the query text (non-empty) and
      `top` unchanged, or the id (non-empty); an unknown command never gets past
      validation. */
  lemma {:induction false} ValidatedArgumentsReachTool(args: Args)
    requires ValidateArgs(args).None?
    ensures var a := Dispatch(args.command, Kwargs(args));
            && !a.UnknownCommand?
            && ((args.command == "search" || args.command == "suggest") ==>
                  a.arguments.Keys == {"query", "top"}
                  && a.arguments["query"] == JStr(args.query.value) && args.query.value != ""
                  && a.arguments["top"] == JInt(args.top))
            && (args.command == "get" ==>
                  a.arguments.Keys == {"id"} && a.arguments["id"] == JStr(args.id.value) && args.id.value != "")
  {
    var k := Kwargs(args);
    assert "top" in k && "query" in k && "id" in k;
  }

  /** How `get_document_command` reports a result. */
  datatype GetReport = ReportError(error: Json) | ReportDocument(fields: Dict)

  /** A result holding "error" is reported as that error alone, with no field listing. */
  function ReportGet(result: Dict): (r: GetReport)
    ensures r.ReportError? <==> "error" in result
    ensures r.ReportError? ==> r.error == result["error"]
    ensures r.ReportDocument? ==> r.fields == result
  {
    if "error" in result then ReportError(result["error"]) else ReportDocument(result)
  }
}
