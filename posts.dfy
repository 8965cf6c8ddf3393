/** The output record of the converter. */
module Posts {

  /** One normalised post. In Go `Categories`, `Tags` and `Meta` could be nil;
      here they are values, and the converter stores empty ones where the Go code
      replaces nil by an empty collection. */
  datatype Post = Post(
    id: int,
    titleRendered: string,
    contentRendered: string,
    slug: string,
    link: string,
    excerpt: string,
    author: string,
    categories: seq<string>,
    tags: seq<string>,
    date: string,
    modifiedDate: string,
    featuredImage: string,
    guid: string,
    parentId: int,
    meta: map<string, string>)
}
