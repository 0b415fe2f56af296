/**
 * The tool registry: tools by name, in registration order, each with its
 * handler and its metadata. Registering a name again replaces that tool in
 * place; executing an unknown name returns an error envelope.
 */
module Tools {
  import opened Common
  import opened FileSystem
  import opened Remote
  import opened Libraries
  import opened Config
  import opened ToolInput
  import ReadDocumentTool
  import ListDocumentsTool

  datatype Handler = ReadDocumentHandler | ListDocumentsHandler

  /** The advertised part of a tool; its input schema is the handler's `InputSchema`. */
  datatype Metadata = Metadata(name: string, description: string)

  datatype Tool = Tool(handler: Handler, metadata: Metadata)

  /** A registered name with its tool. */
  datatype Entry = Entry(name: string, tool: Tool)

  /** The registry's dictionary, kept as its entries in insertion order. */
  datatype Registry = Registry(entries: seq<Entry>)

  /** No name is registered twice. */
  predicate Valid(reg: Registry) {
    forall i, j :: 0 <= i < j < |reg.entries| ==> reg.entries[i].name != reg.entries[j].name
  }

  /** The registered names, in order. */
  function Names(entries: seq<Entry>): (r: seq<string>)
    ensures |r| == |entries|
    ensures forall i :: 0 <= i < |entries| ==> r[i] == entries[i].name
  {
    if |entries| == 0 then [] else [entries[0].name] + Names(entries[1..])
  }

  /** The position of `name` among the entries. */
  function IndexOf(entries: seq<Entry>, name: string): (r: Option<nat>)
    ensures r.Some? ==> r.value < |entries| && entries[r.value].name == name
    ensures r.None? <==> forall i :: 0 <= i < |entries| ==> entries[i].name != name
    decreases |entries|
  {
    if |entries| == 0 then None
    else if entries[0].name == name then Some(0)
    else match IndexOf(entries[1..], name)
      case None => None
      case Some(i) => Some(i + 1)
  }

  /** `get_tool`: the tool registered under `name`, or `None`. */
  function GetTool(reg: Registry, name: string): (r: Option<Tool>)
    ensures r.None? <==> name !in Names(reg.entries)
    ensures r.Some? ==> exists i :: 0 <= i < |reg.entries| && reg.entries[i] == Entry(name, r.value)
  {
    match IndexOf(reg.entries, name)
    case None => None
    case Some(i) => Some(reg.entries[i].tool)
  }

  /** In a valid registry, the entry found for a name is its only one. */
  lemma GetToolUnique(reg: Registry, i: nat)
    requires Valid(reg) && i < |reg.entries|
    ensures GetTool(reg, reg.entries[i].name) == Some(reg.entries[i].tool)
  {
  }

  /** `register_tool`: replace the entry for `name` where it stands, or append a new one. */
  function RegisterTool(reg: Registry, name: string, handler: Handler, metadata: Metadata): (r: Registry)
    ensures name in Names(reg.entries) ==> Names(r.entries) == Names(reg.entries)
    ensures name !in Names(reg.entries) ==> Names(r.entries) == Names(reg.entries) + [name]
  {
    match IndexOf(reg.entries, name)
    case None => Registry(reg.entries + [Entry(name, Tool(handler, metadata))])
    case Some(i) => Registry(reg.entries[i := Entry(name, Tool(handler, metadata))])
  }

  /** Registering keeps names unique, makes `name` find the new tool and leaves every other name alone. */
  lemma RegisterToolSpec(reg: Registry, name: string, handler: Handler, metadata: Metadata, other: string)
    requires Valid(reg)
    ensures Valid(RegisterTool(reg, name, handler, metadata))
    ensures GetTool(RegisterTool(reg, name, handler, metadata), name) == Some(Tool(handler, metadata))
    ensures other != name ==> GetTool(RegisterTool(reg, name, handler, metadata), other) == GetTool(reg, other)
  {
    var r := RegisterTool(reg, name, handler, metadata);
    assert Valid(r);
    var k :| 0 <= k < |r.entries| && r.entries[k].name == name;
    GetToolUnique(r, k);
    if other != name {
      if j :| 0 <= j < |reg.entries| && reg.entries[j].name == other {
        assert r.entries[j] == reg.entries[j];
        GetToolUnique(r, j);
        GetToolUnique(reg, j);
      } else {
        assert forall j :: 0 <= j < |r.entries| ==> r.entries[j].name != other;
      }
    }
  }

  /** `list_tools`: every tool's metadata, in registration order. */
  function ListTools(reg: Registry): (r: seq<Metadata>)
    ensures |r| == |reg.entries|
    ensures forall i :: 0 <= i < |r| ==> r[i] == reg.entries[i].tool.metadata
  {
    seq(|reg.entries|, i requires 0 <= i < |reg.entries| => reg.entries[i].tool.metadata)
  }

  const ReadMetadata := Metadata(ReadDocumentTool.Name, ReadDocumentTool.Description)
  const ListMetadata := Metadata(ListDocumentsTool.Name, ListDocumentsTool.Description)

  /** The global registry: the read tool, then the list tool, each under its metadata's name. */
  function Initial(): (r: Registry)
    ensures Valid(r)
    ensures ListTools(r) == [ReadMetadata, ListMetadata]
    ensures GetTool(r, "policy-read-document") == Some(Tool(ReadDocumentHandler, ReadMetadata))
    ensures GetTool(r, "policy-list-documents") == Some(Tool(ListDocumentsHandler, ListMetadata))
  {
    var r := RegisterTool(Registry([]), ReadMetadata.name, ReadDocumentHandler, ReadMetadata);
    var r' := RegisterTool(r, ListMetadata.name, ListDocumentsHandler, ListMetadata);
    assert r'.entries == [Entry(ReadMetadata.name, Tool(ReadDocumentHandler, ReadMetadata)), Entry(ListMetadata.name, Tool(ListDocumentsHandler, ListMetadata))];
    GetToolUnique(r', 0);
    GetToolUnique(r', 1);
    r'
  }

  /** What a handler needs from the server: the services, libraries, settings and glob matcher. */
  datatype Env = Env(svc: Services, libs: Libraries, settings: Settings, fnmatch: ListDocumentsTool.Matcher)

  /** Calling a handler. */
  function Dispatch(handler: Handler, env: Env, fs: Fs, arguments: Params): Run {
    match handler
    case ReadDocumentHandler => ReadDocumentTool.ReadDocument(env.svc, env.libs, env.settings, fs, arguments)
    case ListDocumentsHandler => ListDocumentsTool.ListDocuments(env.svc, env.fnmatch, fs, arguments)
  }

  /** `execute_tool`: the named tool's handler on the arguments, or a "Tool not found" envelope. */
  function ExecuteTool(reg: Registry, env: Env, fs: Fs, name: string, arguments: Params): (r: Run)
    ensures name !in Names(reg.entries) ==> r == Run(Returned(Failure("Tool not found: " + name)), fs)
    ensures GetTool(reg, name).Some? ==> r == Dispatch(GetTool(reg, name).value.handler, env, fs, arguments)
  {
    match GetTool(reg, name)
    case None => Run(Returned(Failure("Tool not found: " + name)), fs)
    case Some(tool) => Dispatch(tool.handler, env, fs, arguments)
  }

  /** The two registered names dispatch to their tools; every other name is not found. */
  lemma InitialDispatch(env: Env, fs: Fs, name: string, arguments: Params)
    ensures name == "policy-read-document" ==>
      ExecuteTool(Initial(), env, fs, name, arguments) == ReadDocumentTool.ReadDocument(env.svc, env.libs, env.settings, fs, arguments)
    ensures name == "policy-list-documents" ==>
      ExecuteTool(Initial(), env, fs, name, arguments) == ListDocumentsTool.ListDocuments(env.svc, env.fnmatch, fs, arguments)
    ensures name != "policy-read-document" && name != "policy-list-documents" ==>
      ExecuteTool(Initial(), env, fs, name, arguments) == Run(Returned(Failure("Tool not found: " + name)), fs)
  {
    var reg := Initial();
    assert reg.entries == [Entry(ReadMetadata.name, Tool(ReadDocumentHandler, ReadMetadata)), Entry(ListMetadata.name, Tool(ListDocumentsHandler, ListMetadata))];
    assert Names(reg.entries) == ["policy-read-document", "policy-list-documents"];
  }
}
