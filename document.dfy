/** The decoded shape of a WordPress eXtended RSS (WXR) export: the records the
    XML decoder fills in. A missing element decodes to Go's zero value ("" or 0). */
module Document {

  /** One `<wp:postmeta>` pair; keys are not unique within an item. */
  datatype PostMeta = PostMeta(key: string, value: string)

  /** One `<category>` element: its `domain` and `nicename` attributes and its text. */
  datatype WpCategory = WpCategory(domain: string, value: string, niceName: string)

  /** One `<wp:author>` record of the channel. */
  datatype WpAuthor = WpAuthor(id: int, login: string, displayName: string)

  /** One `<item>`: a post, page, attachment or other content unit. */
  datatype Item = Item(
    title: string,
    link: string,
    guid: string,
    pubDate: string,
    dcCreator: string,
    contentEncoded: string,
    excerptEncoded: string,
    postId: int,
    postDate: string,
    postDateGmt: string,
    postModified: string,
    postModifiedGmt: string,
    postParent: int,
    postName: string,
    postType: string,
    status: string,
    attachmentUrl: string,
    postMeta: seq<PostMeta>,
    categories: seq<WpCategory>)

  /** An item none of whose elements were present (Go's zero value of the record). */
  const EmptyItem: Item :=
    Item("", "", "", "", "", "", "", 0, "", "", "", "", 0, "", "", "", "", [], [])

  /** The `<channel>` element. */
  datatype Channel = Channel(
    title: string,
    link: string,
    baseSiteUrl: string,
    baseBlogUrl: string,
    items: seq<Item>,
    authors: seq<WpAuthor>)

  /** A qualified XML element name. */
  datatype XmlName = XmlName(space: string, local: string)

  /** The document: the name of its root element and its channel. */
  datatype Wxr = Wxr(xmlName: XmlName, channel: Channel)
}
