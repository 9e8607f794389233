/**
  The conversions from the provider's objects to the records the tools return:
  users, parents, icons, covers, property summaries, titles, search items,
  page results and block items.
*/
module Convert {
  import opened Wrappers
  import opened Notion

  datatype UserInfo = UserInfo(objectType: string, id: string, name: string, avatarUrl: string, kind: string)
  datatype ParentInfo = ParentInfo(kind: string, pageId: string, databaseId: string, blockId: string, workspace: bool)
  /** An icon as returned: absent emoji or file become empty strings. */
  datatype IconInfo = IconInfo(kind: string, emoji: string, url: string)
  datatype CoverInfo = CoverInfo(kind: string, url: string)
  /** A property reduced to its type and id. */
  datatype PropertySummary = PropertySummary(kind: string, id: string)

  /** A search result as returned by the search tool and the workspace resource. */
  datatype NotionItem = NotionItem(
    objectType: string, id: string, created: Timestamp, edited: Timestamp,
    createdBy: Option<UserInfo>, lastEditedBy: Option<UserInfo>, archived: bool,
    properties: map<string, PropertySummary>, parent: Option<ParentInfo>,
    url: string, publicUrl: string, icon: Option<IconInfo>, cover: Option<CoverInfo>, title: string)

  /** A page as returned by the create and update tools. */
  datatype PageResult = PageResult(
    objectType: string, id: string, created: Timestamp, edited: Timestamp,
    createdBy: Option<UserInfo>, lastEditedBy: Option<UserInfo>, archived: bool,
    properties: map<string, PropertySummary>, parent: Option<ParentInfo>,
    url: string, publicUrl: string, icon: Option<IconInfo>, cover: Option<CoverInfo>)

  /** A block as returned by the append tool; its content is its rich text as one string. */
  datatype BlockItem = BlockItem(
    objectType: string, id: string, kind: string, created: Timestamp, edited: Timestamp,
    createdBy: Option<UserInfo>, lastEditedBy: Option<UserInfo>, hasChildren: bool, archived: bool,
    parent: Option<ParentInfo>, text: string)

  /** The zero instant, which an object of an unknown kind is reported with. */
  const ZeroTime: Timestamp := 0

  /** A user is reported only when present and identified; then all its fields are copied. */
  function ConvertUser(user: Option<User>): (r: Option<UserInfo>)
    ensures r.None? <==> user.None? || user.value.id == ""
    ensures r.Some? ==> (r.value.id == user.value.id && r.value.objectType == user.value.objectType
      && r.value.name == user.value.name && r.value.avatarUrl == user.value.avatarUrl && r.value.kind == user.value.kind)
  {
    match user
    case None => None
    case Some(u) => if u.id == "" then None else Some(UserInfo(u.objectType, u.id, u.name, u.avatarUrl, u.kind))
  }

  /** A parent is reported exactly when present, with all its fields. */
  function ConvertParent(parent: Option<Parent>): (r: Option<ParentInfo>)
    ensures r.None? <==> parent.None?
    ensures r.Some? ==> (r.value.kind == parent.value.kind && r.value.pageId == parent.value.pageId
      && r.value.databaseId == parent.value.databaseId && r.value.blockId == parent.value.blockId
      && r.value.workspace == parent.value.workspace)
  {
    match parent
    case None => None
    case Some(p) => Some(ParentInfo(p.kind, p.pageId, p.databaseId, p.blockId, p.workspace))
  }

  /** An icon is reported exactly when present; a missing emoji or external file reads as the empty string. */
  function ConvertIcon(icon: Option<Icon>): (r: Option<IconInfo>)
    ensures r.None? <==> icon.None?
    ensures r.Some? ==> (r.value.kind == icon.value.kind
      && (icon.value.emoji.None? ==> r.value.emoji == "")
      && (icon.value.emoji.Some? ==> r.value.emoji == icon.value.emoji.value)
      && (icon.value.externalUrl.None? ==> r.value.url == "")
      && (icon.value.externalUrl.Some? ==> r.value.url == icon.value.externalUrl.value))
  {
    match icon
    case None => None
    case Some(i) =>
      Some(IconInfo(i.kind,
                    match i.emoji case Some(e) => e case None => "",
                    match i.externalUrl case Some(u) => u case None => ""))
  }

  /** A cover is reported exactly when present, with its type and URL. */
  function ConvertCover(cover: Option<Image>): (r: Option<CoverInfo>)
    ensures r.None? <==> cover.None?
    ensures r.Some? ==> r.value.kind == cover.value.kind && r.value.url == cover.value.url
  {
    match cover
    case None => None
    case Some(c) => Some(CoverInfo(c.kind, c.url))
  }

  function Summary(p: Property): PropertySummary {
    PropertySummary(p.kind, p.id)
  }

  /** The summaries of a property map, entry by entry in enumeration order. */
  function PropertySummaries(entries: seq<Entry>): map<string, PropertySummary>
  {
    if |entries| == 0 then map[]
    else
      var last := entries[|entries| - 1];
      PropertySummaries(entries[..|entries| - 1])[last.key := Summary(last.property)]
  }

  /** The summary map has exactly the property keys, and each maps to the type and id of its property. */
  lemma {:induction false} PropertySummariesSpec(entries: seq<Entry>)
    requires DistinctKeys(entries)
    ensures forall k :: k in PropertySummaries(entries) <==> exists i :: 0 <= i < |entries| && entries[i].key == k
    ensures forall i :: 0 <= i < |entries| ==> PropertySummaries(entries)[entries[i].key] == Summary(entries[i].property)
  {
    if |entries| > 0 {
      var init := entries[..|entries| - 1];
      var last := entries[|entries| - 1];
      assert DistinctKeys(init);
      PropertySummariesSpec(init);
      forall k ensures k in PropertySummaries(entries) <==> exists i :: 0 <= i < |entries| && entries[i].key == k {
        if k in PropertySummaries(init) {
          var i :| 0 <= i < |init| && init[i].key == k;
          assert entries[i].key == k;
        }
        if exists i :: 0 <= i < |entries| && entries[i].key == k {
          var i :| 0 <= i < |entries| && entries[i].key == k;
          if i < |init| {
            assert init[i].key == k;
          }
        }
      }
      forall i | 0 <= i < |entries|
        ensures PropertySummaries(entries)[entries[i].key] == Summary(entries[i].property)
      {
        if i < |init| {
          assert init[i] == entries[i];
          assert entries[i].key != last.key;
        }
      }
    }
  }

  /** The property summaries, built by enumerating the entries into a fresh map. */
  method ConvertProperties(entries: seq<Entry>) returns (result: map<string, PropertySummary>)
    ensures result == PropertySummaries(entries)
  {
    result := map[];
    for k := 0 to |entries|
      invariant result == PropertySummaries(entries[..k])
    {
      assert entries[..k + 1][..k] == entries[..k];
      result := result[entries[k].key := Summary(entries[k].property)];
    }
    assert entries[..|entries|] == entries;
  }

  /** A property whose first title run gives the page's title. */
  predicate GivesTitle(p: Property) {
    p.kind == "title" && p.titleRuns.Some? && |p.titleRuns.value| > 0
  }

  /** The plain text of the first run of the first title property met in enumeration order, or the empty string. */
  function TitleOf(entries: seq<Entry>): string
  {
    if |entries| == 0 then ""
    else if GivesTitle(entries[0].property) then entries[0].property.titleRuns.value[0]
    else TitleOf(entries[1..])
  }

  /** The title comes from the first entry that gives one; with no such entry it is empty. */
  lemma {:induction false} TitleOfFirst(entries: seq<Entry>, i: int)
    requires 0 <= i < |entries| && GivesTitle(entries[i].property)
    requires forall j :: 0 <= j < i ==> !GivesTitle(entries[j].property)
    ensures TitleOf(entries) == entries[i].property.titleRuns.value[0]
    decreases i
  {
    if i > 0 {
      assert !GivesTitle(entries[0].property);
      TitleOfFirst(entries[1..], i - 1);
    }
  }

  lemma {:induction false} TitleOfNone(entries: seq<Entry>)
    requires forall j :: 0 <= j < |entries| ==> !GivesTitle(entries[j].property)
    ensures TitleOf(entries) == ""
    decreases |entries|
  {
    if |entries| > 0 {
      TitleOfNone(entries[1..]);
    }
  }

  /**
    When exactly one property gives a title, that title is reported whatever
    order the map is enumerated in; with none, the title is empty.
  */
  lemma TitleIndependentOfOrder(entries: seq<Entry>, i: int)
    requires 0 <= i < |entries| && GivesTitle(entries[i].property)
    requires forall j :: 0 <= j < |entries| && j != i ==> !GivesTitle(entries[j].property)
    ensures TitleOf(entries) == entries[i].property.titleRuns.value[0]
  {
    TitleOfFirst(entries, i);
  }

  /** The title of a page, by enumerating its properties until one gives a title. */
  method ExtractTitle(entries: seq<Entry>) returns (title: string)
    ensures title == TitleOf(entries)
  {
    for k := 0 to |entries|
      invariant TitleOf(entries) == TitleOf(entries[k..])
    {
      assert entries[k..][1..] == entries[k + 1..];
      var p := entries[k].property;
      if p.kind == "title" {
        if p.titleRuns.Some? && |p.titleRuns.value| > 0 {
          return p.titleRuns.value[0];
        }
      }
    }
    return "";
  }

  /** A search result as an item: a page or a database with its fields; any other object with its type alone. */
  function ConvertItem(item: Object): (r: NotionItem)
    ensures r.objectType == item.Kind()
    ensures item.PageObject? ==> (r.id == item.page.id && r.url == item.page.url && r.title == TitleOf(item.page.properties)
      && r.parent.Some? && r.properties == PropertySummaries(item.page.properties))
    ensures item.PageObject? ==> var p := item.page;
      && r.created == p.created && r.edited == p.edited && r.archived == p.archived && r.publicUrl == p.publicUrl
      && r.createdBy == ConvertUser(Some(p.createdBy)) && r.lastEditedBy == ConvertUser(Some(p.lastEditedBy))
      && r.parent == ConvertParent(Some(p.parent)) && r.icon == ConvertIcon(p.icon) && r.cover == ConvertCover(p.cover)
    ensures item.DatabaseObject? ==> (r.id == item.database.id && r.url == "" && r.title == ""
      && r.parent.Some? && r.properties == PropertySummaries(item.database.properties))
    ensures item.DatabaseObject? ==> var d := item.database;
      && r.created == d.created && r.edited == d.edited && r.archived == d.archived && r.publicUrl == ""
      && r.createdBy == ConvertUser(Some(d.createdBy)) && r.lastEditedBy == ConvertUser(Some(d.lastEditedBy))
      && r.parent == ConvertParent(Some(d.parent)) && r.icon == ConvertIcon(d.icon) && r.cover == ConvertCover(d.cover)
    ensures item.OtherObject? ==> (r.id == "" && !r.archived && r.properties == map[] && r.title == ""
      && r.createdBy.None? && r.parent.None? && r.icon.None? && r.cover.None?)
    ensures item.OtherObject? ==> (r.url == "" && r.publicUrl == "" && r.lastEditedBy.None?
      && r.created == ZeroTime && r.edited == ZeroTime)
  {
    match item
    case PageObject(p) =>
      NotionItem(p.objectType, p.id, p.created, p.edited,
                 ConvertUser(Some(p.createdBy)), ConvertUser(Some(p.lastEditedBy)), p.archived,
                 PropertySummaries(p.properties), ConvertParent(Some(p.parent)),
                 p.url, p.publicUrl, ConvertIcon(p.icon), ConvertCover(p.cover), TitleOf(p.properties))
    case DatabaseObject(d) =>
      NotionItem(d.objectType, d.id, d.created, d.edited,
                 ConvertUser(Some(d.createdBy)), ConvertUser(Some(d.lastEditedBy)), d.archived,
                 PropertySummaries(d.properties), ConvertParent(Some(d.parent)),
                 // a database's title: the configuration scan of mcp/server.go:991-1000 returns "" on every path
                 "", "", ConvertIcon(d.icon), ConvertCover(d.cover), "")
    case OtherObject(o) =>
      NotionItem(o, "", ZeroTime, ZeroTime, None, None, false, map[], None, "", "", None, None, "")
  }

  /** The items of a list of search results, one per result and in order. */
  function ConvertItems(results: seq<Object>): (items: seq<NotionItem>)
    ensures |items| == |results|
    ensures forall i :: 0 <= i < |results| ==> items[i] == ConvertItem(results[i])
  {
    seq(|results|, i requires 0 <= i < |results| => ConvertItem(results[i]))
  }

  /** One more result adds its item at the end. */
  lemma ConvertItemsNext(results: seq<Object>, i: nat)
    requires i < |results|
    ensures ConvertItems(results[..i + 1]) == ConvertItems(results[..i]) + [ConvertItem(results[i])]
  {
    var longer := ConvertItems(results[..i + 1]);
    var shorter := ConvertItems(results[..i]);
    assert forall j :: 0 <= j < i ==> longer[j] == shorter[j];
  }

  /** The items of a list of search results, written into a slice of the same length. */
  method ConvertResults(results: seq<Object>) returns (items: seq<NotionItem>)
    ensures items == ConvertItems(results)
  {
    var slots := new NotionItem[|results|](_ => ConvertItem(OtherObject("")));
    for i := 0 to |results|
      invariant forall j :: 0 <= j < i ==> slots[j] == ConvertItem(results[j])
    {
      slots[i] := ConvertItem(results[i]);
    }
    items := slots[..];
  }

  /** A page as a page result: its fields, the summaries of its properties, and always a parent. */
  function ConvertPage(page: Page): (r: PageResult)
    ensures r.objectType == page.objectType && r.id == page.id && r.archived == page.archived
    ensures r.url == page.url && r.publicUrl == page.publicUrl
    ensures r.properties == PropertySummaries(page.properties) && r.parent.Some?
    ensures r.createdBy == ConvertUser(Some(page.createdBy)) && r.icon == ConvertIcon(page.icon)
    ensures r.created == page.created && r.edited == page.edited
    ensures r.lastEditedBy == ConvertUser(Some(page.lastEditedBy)) && r.cover == ConvertCover(page.cover)
    ensures r.parent == ConvertParent(Some(page.parent))
  {
    PageResult(page.objectType, page.id, page.created, page.edited,
               ConvertUser(Some(page.createdBy)), ConvertUser(Some(page.lastEditedBy)), page.archived,
               PropertySummaries(page.properties), ConvertParent(Some(page.parent)),
               page.url, page.publicUrl, ConvertIcon(page.icon), ConvertCover(page.cover))
  }

  /** A provider block as a block item: its fields, with its users and parent reported by the rules above. */
  function ConvertBlock(b: ProviderBlock): (r: BlockItem)
    ensures r.objectType == b.objectType && r.id == b.id && r.kind == b.kind && r.text == b.richText
    ensures r.hasChildren == b.hasChildren && r.archived == b.archived
    ensures r.createdBy == ConvertUser(b.createdBy) && r.parent == ConvertParent(b.parent)
    ensures r.created == b.created && r.edited == b.edited && r.lastEditedBy == ConvertUser(b.lastEditedBy)
  {
    BlockItem(b.objectType, b.id, b.kind, b.created, b.edited,
              ConvertUser(b.createdBy), ConvertUser(b.lastEditedBy), b.hasChildren, b.archived,
              ConvertParent(b.parent), b.richText)
  }

  /** The items of the blocks an append returned, one per block and in order. */
  function ConvertBlocks(blocks: seq<ProviderBlock>): (items: seq<BlockItem>)
    ensures |items| == |blocks|
    ensures forall i :: 0 <= i < |blocks| ==> items[i] == ConvertBlock(blocks[i])
  {
    seq(|blocks|, i requires 0 <= i < |blocks| => ConvertBlock(blocks[i]))
  }

  /** The items of the appended blocks, written into a slice of the same length. */
  method ConvertBlockResults(blocks: seq<ProviderBlock>) returns (items: seq<BlockItem>)
    ensures items == ConvertBlocks(blocks)
  {
    var slots := new BlockItem[|blocks|](_ => BlockItem("", "", "", ZeroTime, ZeroTime, None, None, false, false, None, ""));
    for i := 0 to |blocks|
      invariant forall j :: 0 <= j < i ==> slots[j] == ConvertBlock(blocks[j])
    {
      slots[i] := ConvertBlock(blocks[i]);
    }
    items := slots[..];
  }
}
