# Notion MCP server core, modelled in Dafny

This project models the `mcp` package of the Go Notion client. The package is
a Model Context Protocol server: JSON-RPC 2.0 requests come in, and Notion API
calls go out. The model covers:

- **the request router**: `initialize`, `tools/list`, `tools/call`, `resources/list` and
  `resources/read`. Each failure becomes a JSON-RPC error in the response envelope.
- **the four tool handlers** (`notion_search`, `notion_create_page`,
  `notion_update_page`, `notion_append_block`) and the `notion://workspace` resource:
  - the loosely typed arguments are narrowed;
  - the Notion requests are built;
  - the client's answers are converted into the server's own result records.
- **the Markdown lexer `MarkdownToBlocks`**: a one-pass, line-oriented loop. A chain of
  prefix tests turns each line into headings, list items, quotes, dividers, code blocks
  and paragraphs.
- **the configuration**: the defaults and validation, plus the configuration object that
  the server and the SDK share.
- **the SDK on top of the server**: the setters, the argument maps it builds for each tool,
  the in-process tool call and its error wrapping, and the quick helpers.
- **the tool and resource catalogs**, checked against the router and the handlers.

Modules, one file each:

| module | what it holds |
|---|---|
| `Protocol` | request values, the error codes |
| `Config` | the configuration |
| `Notion` | provider objects and requests; the client as an oracle |
| `Blocks` | the block values |
| `Strings` | the Go `strings` functions used |
| `Markdown` | the lexer |
| `MarkdownDocuments` | whole documents through the lexer |
| `Convert` | provider objects to result records |
| `Handlers` | the tool and resource handlers |
| `Catalog` | the tool and resource catalogs |
| `Dispatch` | the router |
| `CatalogChecks` | the catalogs against the code |
| `Sdk` | the SDK |

How the source's behaviour is represented:

- **The Notion client** is a record of four total functions (search, create page, update
  page, append children). Each returns a value or an error.
- **Client calls are traced.** A handler returns its outcome together with the trace of
  client calls it made. This lets "no call before the argument check" and "the content is
  appended only after a successful creation" be stated.
- **A failed Go type assertion is the outcome `Panicked`.** This happens when the icon map
  of a page creation lacks a string `type`, `emoji` or `url`, or the cover map a string
  `type` or `url`, whether the key is missing or holds something else.
- **Re-encoding `params` through JSON is a `Codec`**, a record of two functions given as
  a parameter. Params that already have the wanted Go type never use it.
- **A `Value` distinguishes what the source's type switches distinguish:**
  - a JSON number (float64) from a Go `int` stored directly;
  - a `map[string]interface{}` from a pointer to a Go struct.
- **Go map iteration order** matters where the source returns the first match while
  ranging over a provider property map. There, the map is an explicit sequence of entries.
- **The lexer's loop** is `Markdown.MarkdownToBlocks`, a `method` with the source's five
  loop variables. It is proved equal to `MarkdownBlocks`: a left fold of `Step` (one
  iteration) over the lines, followed by the final flush. The lemmas then state the
  lexer's properties about the fold.
- **The configuration object and the SDK** are classes. The SDK holds a reference to the
  configuration object, and its setters update that object's fields in place.

Where the code and its documentation disagree, the model follows the code:

- **Page content is not parsed as Markdown.** A comment at `mcp/types.go:81` says page
  content supports Markdown. But create and update send the whole content as one
  paragraph (`mcp/server.go:1003-1028`). See `Handlers.ContentIsNotMarkdown`.
- **The to-do branches of the lexer are unreachable**, because the bullet test claims
  `- [ ] ` and `- [x] ` lines first. See `Markdown.MarkdownNeverToDo`.
- **An update always sends the archived flag.** The request's flag is a plain boolean, so
  an update without the argument sends `archived: false`. See `Handlers.UpdateAlwaysSendsArchived`.
- **An icon must carry all three keys.** The schema documents an emoji icon as a type and an
  emoji, and an external icon as a type and a URL. The code reads all three keys with
  single-value type assertions, so either documented shape panics before any call. See
  `Handlers.IconWithoutAllKeysPanics`.
- **The declared page-size bounds (1 to 100) are not enforced by the search tool.** The
  SDK's page size never arrives, because it is a Go `int` and not a JSON number. See
  `Handlers.SearchPageSizeUnchecked` and `Sdk.SearchArgsRoundTrip`.
- **The SDK's icon and cover arguments are dropped.** They are pointers to structs, not
  maps. See `Sdk.SdkCreateDropsIconAndCover`.

## Model

| member | source | states |
|---|---|---|
| Protocol.ErrorCodesFollowJsonRpc | mcp/types.go:249-258 | the eight error codes are pairwise distinct, and the three provider codes lie in the JSON-RPC server range -32099..-32000, in order |
| Config.ValidateFailsIffNoToken | mcp/types.go:218-224 | validation fails exactly when the token is empty, with code -32602 and an error whose text is "Invalid params: notionToken is required" |
| Config.ValidatedLimits | mcp/types.go:225-234 | after a successful validation every limit is positive; a non-positive limit becomes its default (10, 3, 30); everything else is kept |
| Config.ValidateIdempotent | mcp/types.go:218-235 | validating a validated configuration changes nothing |
| Config.DefaultNeedsToken | mcp/types.go:207-215 | the default configuration fails validation until a token is set, and with a token it validates unchanged |
| Config.Configuration.Default | mcp/types.go:207-215 | a new configuration object holds the defaults: no token, name "notion-mcp-server", version "1.0.0", limits 10, 3 and 30 |
| Config.Configuration.Validate | mcp/types.go:218-235 | in place: a missing token returns the error and leaves the object unchanged; otherwise the object becomes the validated configuration and no error is returned |
| Markdown.MarkdownToBlocks | mcp/markdown.go:11-159 | the loop's blocks are those of the specification: nothing for blank input, otherwise the fold of the line step over the lines split at "\n", then the final flush |
| Markdown.LexLine | mcp/markdown.go:24-150 | one loop iteration updates the five lexer variables exactly as the line step does |
| Markdown.FlushParagraph | mcp/markdown.go:38-41 | the pending lines are appended as one paragraph joined by newlines (nothing when none pend), and the pending list is emptied |
| Markdown.DigitRun | mcp/markdown.go:91 | the number of leading ASCII digits: all counted characters are digits, and the next one is not |
| Markdown.ChompAll | mcp/markdown.go:24 | every line loses its trailing carriage returns; the order and the count are kept |
| Markdown.RunConcat | mcp/markdown.go:23-151 | processing two stretches of lines one after the other equals processing their concatenation |
| Markdown.StepKeepsInv | mcp/markdown.go:33-42 | one line keeps the lexer invariant: no paragraph pends inside a fence, and the code buffer and language are reset outside one |
| Markdown.RunKeepsInv | mcp/markdown.go:23-151 | any sequence of lines keeps that invariant |
| Markdown.RunPreservesOrder | mcp/markdown.go:23-151 | blocks are only appended: the blocks emitted so far stay, in order, at the front |
| Markdown.StepFlushesFirst | mcp/markdown.go:54-150 | outside a fence, a line either joins the pending paragraph, or emits that paragraph before anything else and leaves nothing pending |
| Markdown.BlankLineStep | mcp/markdown.go:141-147 | a white-space line outside a fence emits the pending paragraph and nothing else |
| Markdown.BlankLinesEmitNothing | mcp/markdown.go:141-147 | any number of blank lines together act as a single paragraph flush |
| Markdown.PlainLinesAccumulate | mcp/markdown.go:150 | consecutive plain lines pile up, in order and without trailing carriage returns, in one pending paragraph |
| Markdown.FencedLinesVerbatim | mcp/markdown.go:48-51 | inside a fence, lines that do not close it are kept verbatim in the code buffer |
| Markdown.FenceEmitsCode | mcp/markdown.go:27-46 | an opening fence, a body and a closing fence give the flushed paragraph, then one code block of the body joined by newlines, tagged with the opening line's language (no block for an empty body); the state is back outside a fence |
| Markdown.UnclosedFenceDropsContent | mcp/markdown.go:152-158 | a fence never closed loses its content: the final blocks are those from before the fence |
| Markdown.HeadingLine | mcp/markdown.go:54-79 | "# ", "## " and "### " give a heading of level 1, 2 or 3 whose text is the rest of the line, trimmed |
| Markdown.HashWithoutSpaceIsText | mcp/markdown.go:54-150 | a "#" followed by a word is not a heading: the line joins the paragraph |
| Markdown.BulletLine | mcp/markdown.go:82-89 | "- " and "* " give a bulleted item of the trimmed rest; after "- ", a following "* " is removed too |
| Markdown.NumberedLine | mcp/markdown.go:91-99 | digits, a period and a space give a numbered item of the trimmed rest |
| Markdown.QuoteLine | mcp/markdown.go:102-109 | "> " gives a quote of the trimmed rest |
| Markdown.DividerLine | mcp/markdown.go:112-119 | a line that trims to "---" or "***", white space around it included, gives a divider: no earlier marker test fires on it |
| Markdown.TaskLineIsBullet | mcp/markdown.go:82-89 | a "- [ ] " or "- [x] " line becomes a bulleted item whose text keeps the box |
| Markdown.ClassifyNeverToDo | mcp/markdown.go:122-138 | the prefix chain never yields a to-do block |
| Markdown.MarkdownNeverToDo | mcp/markdown.go:122-138 | no document yields a to-do block |
| Markdown.OrdinaryLineIsPlain | mcp/markdown.go:150 | a line that does not start with a marker character, a digit or white space is paragraph text |
| Markdown.BlankInputYieldsNothing | mcp/markdown.go:12-14 | empty or white-space input yields no blocks |
| Markdown.BlocksAtMostLines | mcp/markdown.go:16-156 | a document never yields more blocks than it has lines |
| MarkdownDocuments.HeadingThenParagraph | mcp/markdown.go:11-159 | a heading line, a blank line and a text line yield exactly a level-1 heading and then a paragraph |
| MarkdownDocuments.TwoBullets | mcp/markdown.go:82-89 | a "- " line and a "* " line yield two bulleted items with the markers removed |
| MarkdownDocuments.TwoBulletDocument | mcp/markdown.go:11-159 | the whole document of a "- " line and a "* " line gives exactly those two bulleted items |
| Convert.ConvertUser | mcp/server.go:898-909 | a user is reported exactly when present with a non-empty id, and then all its fields are copied |
| Convert.ConvertParent | mcp/server.go:912-923 | a parent is reported exactly when present; its kind, page, database and block ids and workspace flag are copied unchanged |
| Convert.ConvertIcon | mcp/server.go:926-940 | an icon is reported exactly when present; a missing emoji or external URL reads as "" |
| Convert.ConvertCover | mcp/server.go:943-951 | a cover is reported exactly when present; its type and URL are copied unchanged |
| Convert.PropertySummariesSpec | mcp/server.go:954-975 | the summary map has exactly the property keys, and each key maps to its property's type and id |
| Convert.ConvertProperties | mcp/server.go:954-963 | the map built by ranging over the properties is the summary map |
| Convert.TitleOfFirst | mcp/server.go:978-988 | the title is the first run of the first title property met in enumeration order |
| Convert.TitleOfNone | mcp/server.go:978-988 | with no title property holding a run, the title is "" |
| Convert.TitleIndependentOfOrder | mcp/server.go:978-988 | with exactly one title property, every enumeration order gives the same title |
| Convert.ExtractTitle | mcp/server.go:978-988 | the loop that returns at the first title property computes that title |
| Convert.ConvertItem | mcp/server.go:818-859 | a page or database keeps its type, id and properties and always has a parent; a page reports its URL and title; both copy their timestamps, archived flag, icon and cover, and convert both users and the parent; a database has no URL, public URL or title; any other object reports only its type, with every other field empty, zero or absent |
| Convert.ConvertItems | mcp/server.go:417-420 | one item per search result, in order |
| Convert.ConvertResults | mcp/server.go:411-420 | filling a slice of the results' length, index by index, gives those items |
| Convert.ConvertPage | mcp/server.go:862-878 | a page result copies the page's identity, flags and URLs, summarises its properties, copies its timestamps, converts both users, its icon, cover and parent, and always has a parent |
| Convert.ConvertBlock | mcp/server.go:881-895 | a block item copies the block's identity, type, flags rich text and timestamps, and converts both users and its parent |
| Convert.ConvertBlocks | mcp/server.go:732-734 | one item per appended block, in order |
| Convert.ConvertBlockResults | mcp/server.go:727-734 | filling a slice of the blocks' length gives those items |
| Handlers.SearchPageSize | mcp/server.go:310-328 | the page size is taken from a JSON-number argument, and otherwise, a Go int included, from the configured default |
| Handlers.BuildSearchRequest | mcp/server.go:341-372 | query, cursor and page size are copied; a filter is sent exactly for "page" or "database"; a sort is sent exactly when both sort fields are given, on the last-edited time, descending exactly for "descending" |
| Handlers.HandleSearch | mcp/server.go:305-436 | exactly one search call; its error is wrapped as "failed to search Notion: …", its results are converted in order, and its object type, has-more flag and next cursor are passed on unchanged |
| Handlers.StringProperties | mcp/server.go:500-516 | the string-valued properties become rich-text values; every other kind of value is dropped |
| Handlers.CreateProperties | mcp/server.go:479-516 | creation always sends a title property, which a string property named "title" overrides, plus every string property |
| Handlers.UpdateProperties | mcp/server.go:606-644 | an update sends the title only when it is non-empty, plus every string property |
| Handlers.AddStringProperties | mcp/server.go:626-643 | the loop over the property argument adds exactly the string properties to the request's map |
| Handlers.ContentBlocks | mcp/server.go:1003-1028 | page content becomes a single paragraph holding the whole text |
| Handlers.BlockFor | mcp/server.go:1031-1213 | a block of the requested type when it is one of the nine known types, else a paragraph; it always holds the whole text; a to-do is unchecked, code is "plain text", a callout carries its fixed emoji |
| Handlers.TypedContentBlocks | mcp/server.go:1031-1213 | the append tool sends exactly one block |
| Handlers.EmojiIcon | mcp/server.go:519-527 | an icon is sent exactly when the argument is a map of type "emoji", and then with its emoji |
| Handlers.ExternalCover | mcp/server.go:530-537 | a cover is sent exactly when the argument is a map, whatever its type, and then with its URL |
| Handlers.WorkspaceCountsBounded | mcp/server.go:785-800 | the page and database counts together never exceed the number of items listed |
| Handlers.FoldWorkspace | mcp/server.go:791-800 | the loop over the results yields the counts of pages and of databases, and every result converted, in order |
| Handlers.ReadWorkspace | mcp/server.go:753-813 | exactly one search with page size 100 and nothing else; its error is wrapped as "failed to get workspace info: …", and its results are summarised |
| Handlers.CreateChecksRequiredFirst | mcp/server.go:443-453 | a missing or non-string parent id, then title, fails as "<field> is required" before any client call; with both present and a well-formed icon and cover, the client is called |
| Handlers.UpdateChecksRequiredFirst | mcp/server.go:583-587 | a missing page id fails before any client call; a present one leads to a client call |
| Handlers.AppendChecksRequiredFirst | mcp/server.go:694-704 | a missing page id, then a missing content, fails before any client call; with both present, the client is called |
| Handlers.CreatePanicsOnlyOnMalformedIconOrCover | mcp/server.go:463-476 | creation panics exactly when the required arguments are present and the icon map lacks a string type, emoji or url, or the cover map a string type or url (missing or not a string), and then it calls nothing |
| Handlers.IconWithoutAllKeysPanics | mcp/server.go:463-476 | an emoji icon without a url, or an external icon without an emoji, makes creation panic with no call |
| Handlers.CreateSendsRequestThenContent | mcp/server.go:479-557 | one create call under the parent page with a title property; on success the page is answered and non-empty content is appended as one paragraph, whatever the append answers; on failure the error is wrapped and nothing is appended |
| Handlers.UpdateSendsRequestThenContent | mcp/server.go:579-687 | one update call for the given page; on failure the error is wrapped as "failed to update Notion page: …" and nothing is appended; on success the updated page is answered and non-empty content is appended to it as one paragraph |
| Handlers.AppendSendsOneBlock | mcp/server.go:690-750 | one append call carrying a single block of the requested type (a paragraph by default) with the whole content; its error is wrapped as "failed to append blocks: …", and its object type and appended blocks are answered in order |
| Handlers.TitlePropertyOverridesTitle | mcp/server.go:500-516 | a string property named "title" replaces the title argument |
| Handlers.OnlyEmojiIconsSent | mcp/server.go:519-527 | an icon whose type is not "emoji" is never sent |
| Handlers.UpdateAlwaysSendsArchived | mcp/server.go:601-648 | the archived flag sent is true exactly for a boolean true argument |
| Handlers.UpdateTitleOnlyWhenGiven | mcp/server.go:609-643 | an update touches the title exactly when a non-empty title or a string "title" property is given |
| Handlers.AppendDefaultsToParagraph | mcp/server.go:706-721 | without a string block type, exactly one paragraph holding the content is appended to the page |
| Handlers.SearchPageSizeUnchecked | mcp/server.go:326-328 | a JSON-number page size reaches the search unchanged, whatever its value |
| Handlers.ContentIsNotMarkdown | mcp/server.go:1003-1028 | content of a heading, a blank line and text is sent as one paragraph, where the Markdown lexer would find a heading and a paragraph |
| Catalog.Tools | mcp/tools.go:4-170 | the catalog lists four tools |
| Catalog.DeclaredSchemas | mcp/tools.go:35-99 | the search tool declares a page size bounded by 1 and 100; the create tool declares an icon object with a type enumeration of "emoji" and "external", and a cover object with a type enumeration of "external" |
| Catalog.Resources | mcp/tools.go:172-181 | the catalog lists one resource |
| Catalog.ToolNamesDistinct | mcp/tools.go:4-170 | the tool names are distinct, and they are exactly the names the router knows |
| Catalog.ToolNamed | mcp/tools.go:4-170 | every known tool name has its catalog entry |
| Dispatch.RunTool | mcp/server.go:159-178 | a handler runs exactly when the tool name is one of the four |
| Dispatch.HandleRequest | mcp/server.go:41-70 | every response carries "2.0" and echoes the request id; only a tool call can panic |
| Dispatch.UnknownMethod | mcp/server.go:60-69 | an unknown method gets -32601 "Method not found" and makes no client call |
| Dispatch.ListingsCallNothing | mcp/server.go:73-107 | initialize answers the protocol version and the configured name and version; the tool and resource listings answer the catalogs; none of them calls the client |
| Dispatch.MissingParams | mcp/server.go:115-125 | a tool call or resource read without params gets -32602 "Missing params" |
| Dispatch.UndecodableParams | mcp/server.go:127-154 | params that do not decode get -32700 "Parse error" and make no client call |
| Dispatch.DirectParamsIgnoreCodec | mcp/server.go:127-129 | params already of the wanted Go type are handled the same, whatever the JSON codec does |
| Dispatch.UnknownTool | mcp/server.go:168-177 | an unknown tool gets -32601 "Tool '<name>' not found" and makes no client call |
| Dispatch.ToolOutcomeMapping | mcp/server.go:179-195 | a handler's result becomes the response result, its error becomes -32603 with the error text, and its panic ends the request; the client calls are the handler's |
| Dispatch.ResourceUriChecks | mcp/server.go:254-282 | a missing uri gets -32602, and any uri but the workspace gets -32601 "Resource '<uri>' not found" |
| Dispatch.WorkspaceRead | mcp/server.go:270-302 | the workspace read makes its one search and answers its contents, or its error as -32603 |
| Dispatch.ErrorCodesUsed | mcp/server.go:41-302 | every error response carries -32700, -32601, -32602 or -32603 |
| CatalogChecks.CatalogMatchesRouter | mcp/tools.go:4-170 | a tool name is routed exactly when the catalog lists it |
| CatalogChecks.RequiredFieldsMatchHandlers | mcp/tools.go:101-165 | for every tool, a missing declared required field fails naming the first one and calls nothing; with all of them present, the client is called (unless creation panics) |
| CatalogChecks.RequiredCreate | mcp/tools.go:101 | that statement for the create tool's "parentId" and "title" |
| CatalogChecks.RequiredUpdate | mcp/tools.go:131 | that statement for the update tool's "pageId" |
| CatalogChecks.RequiredAppend | mcp/tools.go:165 | that statement for the append tool's "pageId" and "content" |
| CatalogChecks.BlockTypeEnumHandled | mcp/tools.go:151-162 | a block type gives a block of that type exactly when it is one of the ten declared values; every other type gives a paragraph |
| CatalogChecks.FilterEnumRecognised | mcp/tools.go:19 | exactly the declared filter values filter the search |
| CatalogChecks.SortEnumsRecognised | mcp/tools.go:24-29 | each declared order sorts its own way and an undeclared one sorts ascending; the sort is always on the declared timestamp |
| CatalogChecks.IconEnumPartlyHonoured | mcp/tools.go:73 | of the declared icon types only "emoji" is sent |
| CatalogChecks.CoverEnumNotChecked | mcp/tools.go:92 | the cover type is never checked against its enumeration: a cover of any type sends its URL |
| CatalogChecks.PageSizeBoundsNotEnforced | mcp/tools.go:38-39 | the search handler does not enforce the declared page-size bounds: a number outside them is sent as given |
| CatalogChecks.ResourceCatalogMatchesRead | mcp/tools.go:172-181 | a resource read calls the client exactly for the listed URI |
| Sdk.SettersGuarded | mcp/sdk.go:450-468 | each setter changes only its own field, and does so exactly when the value is in range (page size 1 to 100, timeout and retries positive) |
| Sdk.SettersKeepValidated | mcp/sdk.go:450-468 | a validated configuration stays validated under every setter |
| Sdk.PageSizeStaysInRange | mcp/sdk.go:450-455 | a page size from 1 to 100 stays in that range |
| Sdk.SetterHonoursDeclaredBounds | mcp/sdk.go:450-455 | the SDK page-size setter accepts exactly the range the search tool declares and ignores any other size |
| Sdk.NotionSdk.constructor | mcp/sdk.go:18-29 | the SDK holds the very configuration object it was given |
| Sdk.NotionSdk.SetDefaultPageSize | mcp/sdk.go:450-455 | the shared configuration becomes the guarded page-size update of the old one |
| Sdk.NotionSdk.SetTimeout | mcp/sdk.go:457-461 | the shared configuration becomes the guarded timeout update of the old one |
| Sdk.NotionSdk.SetMaxRetries | mcp/sdk.go:464-468 | the shared configuration becomes the guarded retries update of the old one |
| Sdk.ConfigureLimits | mcp/example/integration_test.go:184-197 | setting 25, 60 and 5 leaves exactly those values, and the token, name and version as they were |
| Sdk.SearchArgsKeys | mcp/sdk.go:38-58 | the page size is always sent, as a Go int; each string option is sent exactly when it is non-empty; there are no other keys |
| Sdk.OptionalArgsKeys | mcp/sdk.go:128-180 | archived is sent exactly when set, and the block type exactly when non-empty |
| Sdk.BuildSearchArgs | mcp/sdk.go:38-58 | the map built step by step is the search arguments |
| Sdk.BuildCreateArgs | mcp/sdk.go:84-102 | the map built step by step is the creation arguments |
| Sdk.BuildUpdateArgs | mcp/sdk.go:128-145 | the map built step by step is the update arguments |
| Sdk.BuildAppendArgs | mcp/sdk.go:171-180 | the map built step by step is the append arguments |
| Sdk.SearchArgsRoundTrip | mcp/sdk.go:38-58 | the server reads back every search option the SDK sends, except the page size, which becomes the configured default |
| Sdk.CreateArgsRoundTrip | mcp/sdk.go:84-102 | the server creates the page under the SDK's parent with its title, properties and content; the icon and cover never panic and are dropped |
| Sdk.UpdateArgsRoundTrip | mcp/sdk.go:128-145 | the server updates the SDK's page with its title, properties and content; archived is true only when the SDK sets it true |
| Sdk.AppendArgsRoundTrip | mcp/sdk.go:171-180 | the server appends one block of the SDK's type, or a paragraph when the type is empty |
| Sdk.CallToolOutcome | mcp/sdk.go:310-332 | a tool call yields the handler's result, its error wrapped as "tool call failed: …", or an unknown tool's message wrapped; the client calls are the handler's |
| Sdk.CallToolResultWellFormed | mcp/sdk.go:325-329 | the "invalid tool result format" failure never happens |
| Sdk.SdkSearchIgnoresPageSize | mcp/sdk.go:38-58 | an SDK search sends the configured page size, whatever page size it was given |
| Sdk.SdkCreateDropsIconAndCover | mcp/sdk.go:84-102 | an SDK page creation never panics, and its create request carries neither icon nor cover |
| Sdk.QuickSearchRequest | mcp/sdk.go:337-343 | a quick search sends the query alone, with the configured page size |
| Sdk.QuickCreatePageRequest | mcp/sdk.go:346-353 | a quick page creation sends the parent with the title as the only property |
| Sdk.QuickAppendHeadingBlock | mcp/sdk.go:366-385 | levels 2 and 3 append a heading of that level; every other level appends a level-1 heading holding the content |
| Sdk.QuickAppendsUseTheirType | mcp/sdk.go:356-446 | each quick append appends one block of its own type holding the content |

## Left out

- JSON encoding is not modelled:
  - Marshalling and unmarshalling of `params` is the `Codec` parameter.
  - Results are kept as structured values, with no JSON text.
  - The "failed to marshal …" errors cannot occur in the model.
- The HTTP transport (`HandleHTTPRequest`, `StartHTTPServer`) is left out, because it is I/O.
- The SDK does not parse the tool results back into result records. A successful call
  returns the tool's structured result. `GetWorkspaceInfo` is left out with them.
- The request context and its timeout, `log.Printf` warnings, and `time.Time` values are
  left out. Timestamps are opaque integers that are only copied.
- Retries and rate limits are left out: the configuration carries the numbers, and nothing
  in the core uses them.
- Client construction is left out. The server takes an already-validated configuration and
  a client. `NewMCPServer`'s call to validation is modelled by `Config.Configuration.Validate`.
- The number regular expression `^\d+\. ` is modelled by a digit-run predicate. It is
  ASCII digits only, as in Go's RE2 `\d`.
- JSON numbers are modelled by their integral part, as the handler's `int(pageSize)` uses them.
- The provider types (the notionapi package) are not part of this model beyond the fields
  the core reads. `GetURL`/`GetRichTextString`-style accessors become plain fields.
- Catalog descriptions are left out, because they are prose. Property names, JSON types,
  enumerations, the page-size bounds, the nested icon and cover properties and the required
  lists are kept.
- `NotionCreatePageParams` in `mcp/types.go:78-83` has no `Icon` or `Cover` field, though
  `mcp/sdk.go:97-102` reads them. The model gives the SDK's creation parameters those two
  optional fields.
- The example programs under `example/` and `mcp/example/` are not modelled. The one
  configuration test they contain is `Sdk.ConfigureLimits`.
- Strings.TrimSpace: the model states what each half trims, that the result is empty
  exactly for white space, and that it neither starts nor ends with white space. It does
  not state in one lemma that the result is a contiguous infix of the input.
