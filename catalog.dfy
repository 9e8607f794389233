/**
  The static catalogs the server advertises: four tools with their input
  schemas, and one resource. Descriptions are prose and are not modelled.
*/
module Catalog {

  /** The numeric bounds an input property declares, if any. */
  datatype Bounds = Unbounded | Between(minimum: int, maximum: int)

  /**
    One input property of a tool: its name, its JSON type, the values it is
    restricted to (none when empty), its numeric bounds, and the properties of
    an object-typed input (none when empty).
  */
  datatype Param = Param(name: string, kind: string, allowed: seq<string>, bounds: Bounds, fields: seq<Param>)

  /** An input property with no restriction. */
  function Plain(name: string, kind: string): Param {
    Param(name, kind, [], Unbounded, [])
  }

  /** A string input restricted to the given values. */
  function OneOf(name: string, allowed: seq<string>): Param {
    Param(name, "string", allowed, Unbounded, [])
  }

  datatype Tool = Tool(name: string, params: seq<Param>, required: seq<string>)

  datatype Resource = Resource(uri: string, name: string, mimeType: string)

  const SearchTool := "notion_search"
  const CreatePageTool := "notion_create_page"
  const UpdatePageTool := "notion_update_page"
  const AppendBlockTool := "notion_append_block"

  /** The names of the four tools. */
  const ToolNames: set<string> := {SearchTool, CreatePageTool, UpdatePageTool, AppendBlockTool}

  const WorkspaceUri := "notion://workspace"

  /** The values the append tool's `blockType` is declared to take. */
  const BlockTypeEnum: seq<string> := [
    "paragraph", "heading_1", "heading_2", "heading_3", "bulleted_list_item",
    "numbered_list_item", "to_do", "code", "quote", "callout"]

  const FilterEnum: seq<string> := ["page", "database"]
  const SortByEnum: seq<string> := ["last_edited_time"]
  const SortOrderEnum: seq<string> := ["ascending", "descending"]

  /** The icon's declared types, and the cover's. */
  const IconTypeEnum: seq<string> := ["emoji", "external"]
  const CoverTypeEnum: seq<string> := ["external"]

  /** The search page size: an integer from 1 to 100. */
  const PageSizeParam := Param("pageSize", "integer", [], Between(1, 100), [])

  /** The page icon: an object of a declared type, an emoji and a URL. */
  const IconParam := Param("icon", "object", [], Unbounded,
                           [OneOf("type", IconTypeEnum), Plain("emoji", "string"), Plain("url", "string")])

  /** The page cover: an object of a declared type and a URL. */
  const CoverParam := Param("cover", "object", [], Unbounded, [OneOf("type", CoverTypeEnum), Plain("url", "string")])

  /** The four tools, in the order they are listed. */
  function Tools(): (tools: seq<Tool>)
    ensures |tools| == 4
  {
    [ Tool(SearchTool, SearchToolParams(), []),
      Tool(CreatePageTool, CreateToolParams(), ["parentId", "title"]),
      Tool(UpdatePageTool, UpdateToolParams(), ["pageId"]),
      Tool(AppendBlockTool, AppendToolParams(), ["pageId", "content"]) ]
  }

  /** The input properties of each tool, in the order they are declared. */
  function SearchToolParams(): seq<Param> {
    [Plain("query", "string"), OneOf("filter", FilterEnum),
     OneOf("sortBy", SortByEnum), OneOf("sortOrder", SortOrderEnum),
     Plain("startCursor", "string"), PageSizeParam]
  }

  function CreateToolParams(): seq<Param> {
    [Plain("parentId", "string"), Plain("title", "string"), Plain("content", "string"),
     Plain("properties", "object"), IconParam, CoverParam]
  }

  function UpdateToolParams(): seq<Param> {
    [Plain("pageId", "string"), Plain("title", "string"), Plain("content", "string"),
     Plain("properties", "object"), Plain("archived", "boolean")]
  }

  function AppendToolParams(): seq<Param> {
    [Plain("pageId", "string"), Plain("content", "string"), OneOf("blockType", BlockTypeEnum)]
  }

  /** The page size, icon and cover are declared where the search and creation tools list them. */
  lemma DeclaredSchemas()
    ensures PageSizeParam in Tools()[0].params && PageSizeParam.bounds == Between(1, 100)
    ensures IconParam in Tools()[1].params && OneOf("type", IconTypeEnum) in IconParam.fields
    ensures CoverParam in Tools()[1].params && OneOf("type", CoverTypeEnum) in CoverParam.fields
  {
    assert Tools()[0].params[5] == PageSizeParam;
    assert Tools()[1].params[4] == IconParam && IconParam.fields[0] == OneOf("type", IconTypeEnum);
    assert Tools()[1].params[5] == CoverParam && CoverParam.fields[0] == OneOf("type", CoverTypeEnum);
  }

  /** The one resource. */
  function Resources(): (resources: seq<Resource>)
    ensures |resources| == 1
  {
    [Resource(WorkspaceUri, "Notion Workspace", "application/json")]
  }

  /** The tool names are four distinct names, and they are exactly the four the server knows. */
  lemma ToolNamesDistinct()
    ensures forall i, j :: 0 <= i < j < |Tools()| ==> Tools()[i].name != Tools()[j].name
    ensures forall t :: t in Tools() ==> t.name in ToolNames
    ensures forall n :: n in ToolNames ==>
      exists t :: t in Tools() && t.name == n
  {
    assert Tools()[0].name == SearchTool;
    assert Tools()[1].name == CreatePageTool;
    assert Tools()[2].name == UpdatePageTool;
    assert Tools()[3].name == AppendBlockTool;
  }

  /** The tool of a name, when the catalog lists one. */
  function ToolNamed(name: string): (r: Tool)
    requires name in ToolNames
    ensures r in Tools() && r.name == name
  {
    if name == SearchTool then Tools()[0]
    else if name == CreatePageTool then Tools()[1]
    else if name == UpdatePageTool then Tools()[2]
    else Tools()[3]
  }
}
