/**
  The provider's side: the objects the Notion client returns, the requests the
  handlers send it, and the client itself as an oracle of four operations.
  Only the fields the core reads or writes are modelled.
*/
module Notion {
  import opened Wrappers
  import opened Blocks

  /** An instant, as an opaque value that is only copied. */
  type Timestamp = int

  /** What a client call returns: a value, or the error it failed with. */
  datatype Outcome<T> = Ok(value: T) | Err(message: string)

  datatype User = User(objectType: string, id: string, name: string, avatarUrl: string, kind: string)

  datatype Parent = Parent(kind: string, pageId: string, databaseId: string, blockId: string, workspace: bool)

  /** A page icon: its type, and its emoji and external file when present. */
  datatype Icon = Icon(kind: string, emoji: Option<string>, externalUrl: Option<string>)

  /** A cover image: its type and the URL of whichever file it holds. */
  datatype Image = Image(kind: string, url: string)

  /**
    A page property or a database property configuration: its type tag, its id,
    and, when the value's dynamic type is the title-property value type, the plain
    texts of its rich-text runs. `None` stands for every value on which that type
    assertion fails, including a pointer to a title property, which is the form a
    decoded response usually takes; on such a value no title is read, and
    `Convert.TitleOfNone` gives "" for the page.
  */
  datatype Property = Property(kind: string, id: string, titleRuns: Option<seq<string>>)

  /**
    A property map as the Go runtime enumerates it. Go leaves the order of a
    map's enumeration unspecified, so the model takes it as given.
  */
  datatype Entry = Entry(key: string, property: Property)

  predicate DistinctKeys(entries: seq<Entry>) {
    forall i, j :: 0 <= i < j < |entries| ==> entries[i].key != entries[j].key
  }

  datatype Page = Page(
    objectType: string, id: string, created: Timestamp, edited: Timestamp,
    createdBy: User, lastEditedBy: User, archived: bool,
    properties: seq<Entry>, parent: Parent, url: string, publicUrl: string,
    icon: Option<Icon>, cover: Option<Image>)

  datatype Database = Database(
    objectType: string, id: string, created: Timestamp, edited: Timestamp,
    createdBy: User, lastEditedBy: User, archived: bool,
    properties: seq<Entry>, parent: Parent, icon: Option<Icon>, cover: Option<Image>)

  /** A search result: a page, a database, or another object known only by its type. */
  datatype Object =
    | PageObject(page: Page)
    | DatabaseObject(database: Database)
    | OtherObject(objectType: string)
  {
    /** The object's type tag ("page", "database", ...). */
    function Kind(): string {
      match this
      case PageObject(p) => p.objectType
      case DatabaseObject(d) => d.objectType
      case OtherObject(o) => o
    }
  }

  /** A block as the provider returns it; its rich text is flattened to one string. */
  datatype ProviderBlock = ProviderBlock(
    objectType: string, id: string, kind: string, created: Timestamp, edited: Timestamp,
    createdBy: Option<User>, lastEditedBy: Option<User>, hasChildren: bool, archived: bool,
    parent: Option<Parent>, richText: string)

  const ObjectPage := "page"
  const ObjectDatabase := "database"
  const TimestampLastEdited := "last_edited_time"

  datatype SearchFilter = SearchFilter(property: string, value: string)
  datatype SortDirection = Ascending | Descending
  datatype Sort = Sort(direction: SortDirection, timestamp: string)

  /** A search request; an empty query or cursor and a page size of 0 are not sent. */
  datatype SearchRequest = SearchRequest(
    query: string, sort: Option<Sort>, filter: Option<SearchFilter>, startCursor: string, pageSize: int)

  /** A property value sent when creating or updating a page: one text run of either kind. */
  datatype PropertyValue = TitleValue(text: string) | RichTextValue(text: string)

  /** A page creation under a parent page, with an optional emoji icon and external cover. */
  datatype PageCreateRequest = PageCreateRequest(
    parentPageId: string, properties: map<string, PropertyValue>,
    emojiIcon: Option<string>, externalCover: Option<string>)

  /** A page update; `archived` is always sent. */
  datatype PageUpdateRequest = PageUpdateRequest(properties: map<string, PropertyValue>, archived: bool)

  datatype SearchResponse = SearchResponse(objectType: string, results: seq<Object>, hasMore: bool, nextCursor: string)

  datatype AppendResponse = AppendResponse(objectType: string, results: seq<ProviderBlock>)

  /** The Notion client: what each of its four calls answers, as a function of the request. */
  datatype Client = Client(
    search: SearchRequest -> Outcome<SearchResponse>,
    createPage: PageCreateRequest -> Outcome<Page>,
    updatePage: (string, PageUpdateRequest) -> Outcome<Page>,
    appendChildren: (string, seq<Block>) -> Outcome<AppendResponse>)

  /** One call made on the client, as recorded in a trace. */
  datatype ClientCall =
    | SearchCall(request: SearchRequest)
    | CreateCall(create: PageCreateRequest)
    | UpdateCall(pageId: string, update: PageUpdateRequest)
    | AppendCall(blockId: string, children: seq<Block>)
}
