/** Content blocks of the provider's document model, as the core builds them (one rich-text run each). */
module Blocks {

  /** The emoji every callout built by the append tool carries (U+1F4A1, a light bulb). */
  const CalloutEmoji: string := "\U{1F4A1}"

  /** Language tag of a code block built by the append tool. */
  const PlainTextLanguage: string := "plain text"

  datatype Block =
    | Paragraph(text: string)
    | Heading1(text: string)
    | Heading2(text: string)
    | Heading3(text: string)
    | BulletedListItem(text: string)
    | NumberedListItem(text: string)
    | Quote(text: string)
    | Code(text: string, language: string)
    | ToDo(text: string, checked: bool)
    | Callout(text: string, emoji: string)
    | Divider
  {
    /** The text of the block's single rich-text run; a divider has none. */
    function Text(): string
    {
      if Divider? then "" else text
    }

    /** The provider's block type tag. */
    function TypeName(): string
    {
      match this
      case Paragraph(_) => "paragraph"
      case Heading1(_) => "heading_1"
      case Heading2(_) => "heading_2"
      case Heading3(_) => "heading_3"
      case BulletedListItem(_) => "bulleted_list_item"
      case NumberedListItem(_) => "numbered_list_item"
      case Quote(_) => "quote"
      case Code(_, _) => "code"
      case ToDo(_, _) => "to_do"
      case Callout(_, _) => "callout"
      case Divider => "divider"
    }
  }
}
