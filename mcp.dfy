/** The Model Context Protocol client adapter: the option defaults taken at
    construction and the mapping of the server's tool descriptors to local
    function tools. The subprocess transport, the session and the remote
    calls are not modelled; the tool list the server returns is a parameter,
    and invoking a local tool is modelled by the call request it sends. */
module Mcp {
  import opened Js

  const DefaultClientName: string := "mcp-client-cli"
  const DefaultClientVersion: string := "1.0.0"

  /** The command line that starts the tool server. */
  datatype StdioServerParameters = StdioServerParameters(command: string, args: seq<string>)

  datatype MCPClientOptions = MCPClientOptions(
    server: StdioServerParameters,
    toolNamePrefix: Option<string>,
    clientName: Option<string>,
    clientVersion: Option<string>,
    verbose: Option<bool>)

  /** The name and version the client announces to the server. */
  datatype Implementation = Implementation(name: string, version: string)

  /** A tool descriptor as the server lists it. */
  datatype Tool = Tool(name: string, description: Option<string>, inputSchema: Json)

  /** The name, description and parameter schema a local tool advertises. */
  datatype ToolMetadata = ToolMetadata(name: string, description: string, parameters: Json)

  /** A local tool: what it advertises, and the remote name its call closure forwards to. */
  datatype FunctionTool = FunctionTool(metadata: ToolMetadata, remoteName: string)

  /** The request a tool call sends to the server. */
  datatype CallToolRequest = CallToolRequest(name: string, arguments: Json)

  /** The local name of a remote tool: `prefix_name` when the prefix is a
      non-empty string, the remote name itself otherwise. */
  function LocalName(prefix: Option<string>, name: string): string
  {
    if StringTruthy(prefix) then prefix.value + "_" + name else name
  }

  /** Recovers the remote name from a local name, if it carries the prefix. */
  function StripPrefix(prefix: Option<string>, localName: string): Option<string>
  {
    if !StringTruthy(prefix) then Some(localName)
    else if StartsWith(localName, prefix.value + "_") then Some(localName[|prefix.value| + 1..])
    else None
  }

  /** Stripping the prefix from a local name gives back the remote name. */
  lemma StripPrefixOfLocalName(prefix: Option<string>, name: string)
    ensures StripPrefix(prefix, LocalName(prefix, name)) == Some(name)
  {
    if StringTruthy(prefix) {
      var p := prefix.value + "_";
      assert (p + name)[..|p|] == p;
      assert (p + name)[|p|..] == name;
    }
  }

  /** Under one prefix, distinct remote names keep distinct local names. */
  lemma LocalNameInjective(prefix: Option<string>, a: string, b: string)
    requires LocalName(prefix, a) == LocalName(prefix, b)
    ensures a == b
  {
    StripPrefixOfLocalName(prefix, a);
    StripPrefixOfLocalName(prefix, b);
  }

  /** The local name differs from the remote one exactly when the prefix is truthy. */
  lemma LocalNameRenamesIff(prefix: Option<string>, name: string)
    ensures LocalName(prefix, name) != name <==> StringTruthy(prefix)
  {
    if StringTruthy(prefix) {
      assert |LocalName(prefix, name)| > |name|;
    }
  }

  /** The underscore after the shorter prefix meets a prefix character of the longer one. */
  lemma ShorterPrefixDoesNotCollide(p: string, q: string, a: string, b: string)
    requires p != "" && p != q && |p| <= |q|
    requires '_' !in q
    ensures p + "_" + a != q + "_" + b
  {
    var x, y := p + "_" + a, q + "_" + b;
    if |p| < |q| {
      assert x[|p|] == '_';
      assert q[|p|] in q;
      assert y[|p|] == q[|p|] != '_';
    } else {
      assert x[..|p|] == p;
      assert y[..|q|] == q;
    }
  }

  /** Two different prefixes without an underscore never give the same local name. */
  lemma DistinctPrefixesDoNotCollide(p: string, q: string, a: string, b: string)
    requires p != "" && q != "" && p != q
    requires '_' !in p && '_' !in q
    ensures LocalName(Some(p), a) != LocalName(Some(q), b)
  {
    if |p| <= |q| {
      ShorterPrefixDoesNotCollide(p, q, a, b);
    } else {
      ShorterPrefixDoesNotCollide(q, p, b, a);
    }
  }

  /** An underscore in a prefix lets two prefixes give the same local name. */
  lemma PrefixesWithUnderscoreCanCollide()
    ensures LocalName(Some("a"), "b_c") == LocalName(Some("a_b"), "c")
  {
  }

  /** The request a local tool's call closure sends: the remote tool's
      original name and the input unchanged. */
  function CallRequest(tool: FunctionTool, input: Json): (req: CallToolRequest)
    ensures req.name == tool.remoteName && req.arguments == input
  {
    CallToolRequest(tool.remoteName, input)
  }

  /** The local tool for one remote descriptor. */
  function ToFunctionTool(prefix: Option<string>, tool: Tool): FunctionTool
  {
    FunctionTool(ToolMetadata(LocalName(prefix, tool.name), Coalesce(tool.description, ""), tool.inputSchema), tool.name)
  }

  class MCPClient {
    /** What the SDK client is created with. */
    var clientInfo: Implementation
    var verbose: bool
    var toolNamePrefix: Option<string>

    /** Name, version and verbosity take their defaults when absent; the
        prefix is kept as given, empty string included. */
    constructor (options: MCPClientOptions)
      ensures clientInfo.name == (if options.clientName.Some? then options.clientName.value else "mcp-client-cli")
      ensures clientInfo.version == (if options.clientVersion.Some? then options.clientVersion.value else "1.0.0")
      ensures verbose == (options.verbose == Some(true))
      ensures toolNamePrefix == options.toolNamePrefix
    {
      clientInfo := Implementation(
        Coalesce(options.clientName, DefaultClientName),
        Coalesce(options.clientVersion, DefaultClientVersion));
      verbose := Coalesce(options.verbose, false);
      toolNamePrefix := options.toolNamePrefix;
    }

    /** One local tool per remote descriptor, in the same order: the name
        prefixed when the prefix is truthy, a missing description read as
        the empty string, the schema passed through, and the original name
        kept for the call. */
    function Tools(mcpTools: seq<Tool>): (r: seq<FunctionTool>)
      reads this
      ensures |r| == |mcpTools|
      ensures forall i :: 0 <= i < |r| ==>
        && r[i].metadata.name == (if StringTruthy(toolNamePrefix) then toolNamePrefix.value + "_" + mcpTools[i].name else mcpTools[i].name)
        && r[i].metadata.description == (if mcpTools[i].description.Some? then mcpTools[i].description.value else "")
        && r[i].metadata.parameters == mcpTools[i].inputSchema
        && r[i].remoteName == mcpTools[i].name
    {
      var prefix := toolNamePrefix;
      seq(|mcpTools|, i requires 0 <= i < |mcpTools| => ToFunctionTool(prefix, mcpTools[i]))
    }
  }

  /** Calling the `i`-th mapped tool sends the `i`-th descriptor's original
      name and the input unchanged; that name differs from the advertised one
      exactly when the prefix is truthy. */
  lemma ToolCallForwardsOriginalName(client: MCPClient, mcpTools: seq<Tool>, i: nat, input: Json)
    requires i < |mcpTools|
    ensures i < |client.Tools(mcpTools)|
    ensures CallRequest(client.Tools(mcpTools)[i], input) == CallToolRequest(mcpTools[i].name, input)
    ensures client.Tools(mcpTools)[i].metadata.name != mcpTools[i].name <==> StringTruthy(client.toolNamePrefix)
  {
    LocalNameRenamesIff(client.toolNamePrefix, mcpTools[i].name);
  }

  /** Remote tools with distinct names map to local tools with distinct names,
      and every local name maps back to its remote name. */
  lemma ToolsKeepNamesDistinct(client: MCPClient, mcpTools: seq<Tool>, i: nat, j: nat)
    requires i < |mcpTools| && j < |mcpTools|
    requires mcpTools[i].name != mcpTools[j].name
    ensures i < |client.Tools(mcpTools)| && j < |client.Tools(mcpTools)|
    ensures client.Tools(mcpTools)[i].metadata.name != client.Tools(mcpTools)[j].metadata.name
    ensures StripPrefix(client.toolNamePrefix, client.Tools(mcpTools)[i].metadata.name) == Some(mcpTools[i].name)
  {
    var prefix := client.toolNamePrefix;
    assert client.Tools(mcpTools)[i].metadata.name == LocalName(prefix, mcpTools[i].name);
    assert client.Tools(mcpTools)[j].metadata.name == LocalName(prefix, mcpTools[j].name);
    StripPrefixOfLocalName(prefix, mcpTools[i].name);
    if LocalName(prefix, mcpTools[i].name) == LocalName(prefix, mcpTools[j].name) {
      LocalNameInjective(prefix, mcpTools[i].name, mcpTools[j].name);
    }
  }
}
