/** The field extractors (extractor.go): fallback chains for the author, the
    excerpt, the featured image and the source of the publication date. */
module Extractors {
  import opened Wrappers
  import opened Text
  import opened Document
  import opened Metadata
  import opened Attachments

  // The extractor types of the Go code. Apart from the featured-image extractor
  // they carry no state, so an object of one is only an identity that a parser
  // stores; what it computes is the function of the same name below.

  class AuthorExtractor {
    constructor () {}
  }

  class ExcerptExtractor {
    constructor () {}
  }

  class DateExtractor {
    constructor () {}
  }

  /** The modification-date and meta extractors are not part of this model beyond
      their identity; their results are supplied from outside (see `Wxr.Collaborators`). */
  class ModifiedDateExtractor {
    constructor () {}
  }

  class MetaExtractor {
    constructor () {}
  }

  /** The featured-image extractor holds the attachment index it consults; a
      parser overwrites that reference before each use. */
  class FeaturedImageExtractor {
    var attachmentIndex: Option<AttachmentIndex>

    /** `&FeaturedImageExtractor{}`: no index yet. */
    constructor ()
      ensures attachmentIndex == None
    {
      attachmentIndex := None;
    }

    /** `&FeaturedImageExtractor{attachmentIndex: index}`. */
    constructor WithIndex(index: AttachmentIndex)
      ensures attachmentIndex == Some(index)
    {
      attachmentIndex := Some(index);
    }

    /** `Extract`: the featured image of `item` against the stored index. The Go
        code dereferences the index, so it must have been set. */
    method Extract(item: Item) returns (url: string)
      requires attachmentIndex.Some?
      ensures url == FeaturedImage(item, attachmentIndex.value)
    {
      url := FeaturedImage(item, attachmentIndex.value);
    }
  }

  const AuthorKeys: seq<string> := ["redator", "autor", "author_name"]
  const ExcerptKeys: seq<string> := ["subtitulo"]
  const BannerKeys: seq<string> := ["banner_da_materia", "banner_old", "link_do_banner"]
  const ThumbnailKeys: seq<string> := ["_thumbnail_id"]

  /** `AuthorExtractor.Extract`: the first usable author meta value, otherwise
      dc:creator; trimmed either way. */
  function Author(item: Item): string
  {
    var author := GetMetaValue(item.postMeta, AuthorKeys);
    TrimSpace(if author == "" then item.dcCreator else author)
  }

  /** `ExcerptExtractor.Extract`: excerpt:encoded as it is when it is not blank,
      otherwise the `subtitulo` meta value. */
  function Excerpt(item: Item): string
  {
    if TrimSpace(item.excerptEncoded) == "" then GetMetaValue(item.postMeta, ExcerptKeys)
    else item.excerptEncoded
  }

  /** The custom banner fields checked first by the featured-image extractor. */
  function Banner(item: Item): string
  {
    GetMetaValue(item.postMeta, BannerKeys)
  }

  /** The attachment ID named by `_thumbnail_id`, when that value parses as an integer. */
  function ThumbnailId(item: Item): Option<int>
  {
    var s := GetMetaValue(item.postMeta, ThumbnailKeys);
    if s == "" then None else Atoi(s)
  }

  /** `FeaturedImageExtractor.Extract`: a banner meta value; otherwise the URL
      of the `_thumbnail_id` attachment; otherwise the first attachment whose
      parent is this item; otherwise "". */
  function FeaturedImage(item: Item, index: AttachmentIndex): string
  {
    var banner := Banner(item);
    if banner != "" then banner
    else
      var thumb := ThumbnailId(item);
      if thumb.Some? && thumb.value in index.urlsById then index.urlsById[thumb.value]
      else
        var urls := LookupOrEmpty(index.urlsByParent, item.postId);
        if |urls| > 0 then urls[0] else ""
  }

  /** The string `DateExtractor.Extract` normalises: the first non-empty of
      post_date_gmt, post_date and pubDate, not trimmed. */
  function DateSource(item: Item): string
  {
    if item.postDateGmt != "" then item.postDateGmt
    else if item.postDate != "" then item.postDate
    else item.pubDate
  }

  /** `DateExtractor.Extract`, with `normalizeWXRDate` given as `normalize`:
      an empty source stays empty and is never normalised. */
  function Date(item: Item, normalize: string -> string): string
  {
    var source := DateSource(item);
    if source != "" then normalize(source) else source
  }

  // ---------------------------------------------------------------------------
  // Author

  /** The author is always trimmed; a usable author meta value is returned as it
      is (it is already trimmed) and dc:creator is then ignored; otherwise it is
      dc:creator trimmed. */
  lemma AuthorSpec(item: Item)
    ensures IsTrimmed(Author(item))
    ensures GetMetaValue(item.postMeta, AuthorKeys) != "" ==>
              Author(item) == GetMetaValue(item.postMeta, AuthorKeys)
    ensures GetMetaValue(item.postMeta, AuthorKeys) == "" ==> Author(item) == TrimSpace(item.dcCreator)
  {
    var author := GetMetaValue(item.postMeta, AuthorKeys);
    GetMetaValueUsable(item.postMeta, AuthorKeys);
    TrimSpaceSpec(if author == "" then item.dcCreator else author);
  }

  /** The author meta keys are tried in the order redator, autor, author_name. */
  lemma AuthorKeyOrder(item: Item)
    requires FirstValueForKey(item.postMeta, "redator") == "" && FirstValueForKey(item.postMeta, "autor") != ""
    ensures Author(item) == FirstValueForKey(item.postMeta, "autor")
  {
    var meta := item.postMeta;
    assert AuthorKeys[0] == "redator" && AuthorKeys[1..] == ["autor", "author_name"];
    assert GetMetaValue(meta, ["autor", "author_name"]) == FirstValueForKey(meta, "autor");
    assert GetMetaValue(meta, AuthorKeys) == GetMetaValue(meta, ["autor", "author_name"]);
    AuthorSpec(item);
  }

  // ---------------------------------------------------------------------------
  // Excerpt

  /** A non-blank excerpt:encoded is returned untrimmed; a blank one gives way to
      the `subtitulo` meta value. */
  lemma ExcerptSpec(item: Item)
    ensures !IsBlank(item.excerptEncoded) ==> Excerpt(item) == item.excerptEncoded
    ensures IsBlank(item.excerptEncoded) ==> Excerpt(item) == GetMetaValue(item.postMeta, ExcerptKeys)
  {
    TrimSpaceSpec(item.excerptEncoded);
  }

  /** The excerpt keeps its surrounding white space. */
  lemma ExcerptNotTrimmed()
    ensures Excerpt(EmptyItem.(excerptEncoded := " Resumo ")) == " Resumo "
  {
    assert !IsSpace('R');
    ExcerptSpec(EmptyItem.(excerptEncoded := " Resumo "));
  }

  // ---------------------------------------------------------------------------
  // Featured image

  /** A usable banner meta value wins, and the index is not consulted. */
  lemma FeaturedImageBannerWins(item: Item, index: AttachmentIndex, index': AttachmentIndex)
    requires Banner(item) != ""
    ensures FeaturedImage(item, index) == Banner(item) == FeaturedImage(item, index')
  {
  }

  /** Without a banner, a `_thumbnail_id` that parses and is in the ID map gives that URL. */
  lemma FeaturedImageThumbnail(item: Item, index: AttachmentIndex, id: int)
    requires Banner(item) == "" && ThumbnailId(item) == Some(id) && id in index.urlsById
    ensures FeaturedImage(item, index) == index.urlsById[id]
  {
  }

  /** Without a banner, a missing, unparsable or unknown `_thumbnail_id` falls
      through to the first URL listed under this item's own ID, and then to "". */
  lemma FeaturedImageParentFallback(item: Item, index: AttachmentIndex)
    requires Banner(item) == ""
    requires ThumbnailId(item).None? || ThumbnailId(item).value !in index.urlsById
    ensures LookupOrEmpty(index.urlsByParent, item.postId) != [] ==>
              FeaturedImage(item, index) == index.urlsByParent[item.postId][0]
    ensures LookupOrEmpty(index.urlsByParent, item.postId) == [] ==> FeaturedImage(item, index) == ""
  {
  }

  /** The featured image computed against the index of a document, stated in terms
      of the document's attachments: the last attachment with the thumbnail's ID,
      else the first attachment (in document order) whose parent is this item. */
  lemma FeaturedImageFromAttachments(item: Item, items: seq<Item>, base: string)
    requires Banner(item) == ""
    ensures var r := FeaturedImage(item, IndexOf(items, base));
      var t := ThumbnailId(item);
      var parents := ParentURLs(items, base, item.postId);
      if t.Some? && exists j :: 0 <= j < |items| && Contributes(items[j], base) && items[j].postId == t.value
      then exists j :: LastWithIdAt(items, base, t.value, j) && r == ResolveAttachmentURL(items[j], base)
      else r == (if item.postId > 0 && parents != [] then parents[0] else "")
  {
    var t := ThumbnailId(item);
    if t.Some? {
      IndexById(items, base, t.value);
    }
    IndexByParent(items, base, item.postId);
  }

  /** The featured image is "" only when no rule applies: a well-formed index never
      yields "" from a rule that matched. */
  lemma FeaturedImageEmptyIff(item: Item, items: seq<Item>, base: string)
    ensures var r := FeaturedImage(item, IndexOf(items, base));
      var t := ThumbnailId(item);
      r == "" <==>
        Banner(item) == "" &&
        !(t.Some? && exists j :: 0 <= j < |items| && Contributes(items[j], base) && items[j].postId == t.value) &&
        (item.postId <= 0 || ParentURLs(items, base, item.postId) == [])
  {
    var index := IndexOf(items, base);
    var t := ThumbnailId(item);
    if t.Some? {
      IndexById(items, base, t.value);
    }
    IndexByParent(items, base, item.postId);
    IndexWellFormed(items, base);
    ParentURLsNonEmpty(items, base, item.postId);
  }

  // ---------------------------------------------------------------------------
  // Date

  /** The date source is the first non-empty field of post_date_gmt, post_date and
      pubDate, and "" exactly when all three are empty; a field that is present but
      blank still wins, as nothing is trimmed. */
  lemma DateSourceSpec(item: Item)
    ensures DateSource(item) == "" <==> item.postDateGmt == "" && item.postDate == "" && item.pubDate == ""
    ensures item.postDateGmt != "" ==> DateSource(item) == item.postDateGmt
    ensures item.postDateGmt == "" && item.postDate != "" ==> DateSource(item) == item.postDate
    ensures item.postDateGmt == "" && item.postDate == "" ==> DateSource(item) == item.pubDate
  {
  }

  /** Normalisation is applied only to a non-empty source; an empty source gives ""
      whatever the normaliser does. */
  lemma DateNormalisesOnlyNonEmpty(item: Item, normalize: string -> string, normalize': string -> string)
    ensures DateSource(item) == "" ==> Date(item, normalize) == "" == Date(item, normalize')
    ensures DateSource(item) != "" ==> Date(item, normalize) == normalize(DateSource(item))
  {
  }
  // ---------------------------------------------------------------------------
  // A post with an author, a subtitle and a thumbnail ID in its meta

  const ExampleMeta: seq<PostMeta> :=
    [PostMeta("redator", "Marco D'Eramo"), PostMeta("subtitulo", "Resumo curto"), PostMeta("_thumbnail_id", "555")]

  /** The facts about the example's literals that the lookups below need. */
  lemma ExampleMetaLiterals()
    ensures TrimSpace("redator") == "redator" && TrimSpace("subtitulo") == "subtitulo"
    ensures TrimSpace("_thumbnail_id") == "_thumbnail_id"
    ensures CleanMetaValue("Marco D'Eramo") == "Marco D'Eramo"
    ensures CleanMetaValue("Resumo curto") == "Resumo curto"
    ensures CleanMetaValue("555") == "555"
  {
    PlainLiteral("redator");
    PlainLiteral("subtitulo");
    PlainLiteral("_thumbnail_id");
    PlainLiteral("Marco D'Eramo");
    PlainLiteral("Resumo curto");
    PlainLiteral("555");
  }

  /** The author comes from `redator`. */
  lemma ExampleMetaAuthor()
    ensures GetMetaValue(ExampleMeta, AuthorKeys) == "Marco D'Eramo"
  {
    ExampleMetaLiterals();
    assert HasUsable(ExampleMeta[0], "redator");
  }

  /** The excerpt fallback comes from `subtitulo`, the second entry. */
  lemma ExampleMetaExcerpt()
    ensures GetMetaValue(ExampleMeta, ExcerptKeys) == "Resumo curto"
  {
    ExampleMetaLiterals();
    assert !HasUsable(ExampleMeta[0], "subtitulo") by {
      assert |ToLower("redator")| != |ToLower("subtitulo")|;
    }
    assert HasUsable(ExampleMeta[1], "subtitulo");
    assert ExampleMeta[1..][0] == ExampleMeta[1];
  }

  /** `_thumbnail_id`, the third entry, holds "555". */
  lemma ExampleMetaThumbnailValue()
    ensures GetMetaValue(ExampleMeta, ThumbnailKeys) == "555"
  {
    ExampleMetaLiterals();
    assert !HasUsable(ExampleMeta[0], "_thumbnail_id") by {
      assert |ToLower("redator")| != |ToLower("_thumbnail_id")|;
    }
    assert !HasUsable(ExampleMeta[1], "_thumbnail_id") by {
      assert |ToLower("subtitulo")| != |ToLower("_thumbnail_id")|;
    }
    assert HasUsable(ExampleMeta[2], "_thumbnail_id");
    assert ExampleMeta[1..][1..] == [ExampleMeta[2]];
  }

  /** "555" parses as 555. */
  lemma AtoiExample()
    ensures Atoi("555") == Some(555)
  {
    assert DigitsValue("555") == 555 by {
      assert "555"[..2] == "55";
      assert "55"[..1] == "5";
      assert "5"[..0] == "";
    }
  }

  /** `_thumbnail_id` names attachment 555. */
  lemma ExampleMetaThumbnail()
    ensures ThumbnailId(EmptyItem.(postMeta := ExampleMeta)) == Some(555)
  {
    ExampleMetaThumbnailValue();
    AtoiExample();
  }

  /** None of the banner keys is present. */
  lemma ExampleMetaNoBanner()
    ensures GetMetaValue(ExampleMeta, BannerKeys) == ""
  {
    ExampleMetaLiterals();
    OtherLengthKeysFindNothing(ExampleMeta, BannerKeys);
  }

  /** With that meta, the author and the excerpt come from the meta entries and the
      featured image from the attachment the thumbnail ID names. */
  lemma ExampleMetaFallbacks(item: Item, index: AttachmentIndex)
    requires item.postMeta == ExampleMeta && item.excerptEncoded == "" && 555 in index.urlsById
    ensures Author(item) == "Marco D'Eramo"
    ensures Excerpt(item) == "Resumo curto"
    ensures FeaturedImage(item, index) == index.urlsById[555]
  {
    ExampleMetaAuthor();
    ExampleMetaLiterals();
    ExampleMetaExcerpt();
    ExampleMetaNoBanner();
    ExampleMetaThumbnail();
    assert ThumbnailId(item) == ThumbnailId(EmptyItem.(postMeta := ExampleMeta));
  }
}
