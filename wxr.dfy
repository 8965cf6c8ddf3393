/** The converter (wxr.go): a configurable parser that checks the decoded
    document's root, indexes its attachments and turns each published post into
    a `Post`, optionally polling for cancellation. */
module Wxr {
  import opened Wrappers
  import opened Document
  import opened Posts
  import opened Attachments
  import opened Extractors
  import opened Categories
  import opened Filters

  // ---------------------------------------------------------------------------
  // Inputs, outputs and collaborators

  /** A value of Go's `Logger` interface. Logging has no effect on results, so a
      logger is only an identity. */
  datatype Logger = NoOpLogger | StdLoggerAdapter(std: nat) | CustomLogger(id: nat)

  /** What the XML decoder made of the input: a syntax failure with its message,
      or a decoded document. */
  datatype XmlInput = DecodeFailure(message: string) | Decoded(doc: Wxr)

  /** The errors of `context.Context.Err`. */
  datatype ContextError = Canceled | DeadlineExceeded

  /** The errors a parse returns. */
  datatype ParseError =
    | MalformedXml(message: string)   // "wxr: failed to parse WXR XML: ..."
    | InvalidRoot(got: string)        // "wxr: invalid WXR XML: root element is not <rss> ..."
    | ContextErr(cause: ContextError)

  /** The `([]Post, error)` pair; `posts == None` is a nil slice. */
  datatype ParseResult = ParseResult(posts: Option<seq<Post>>, err: Option<ParseError>)

  /** The functions this model takes as given: `normalizeWXRDate`,
      `ModifiedDateExtractor.Extract` and `MetaExtractor.Extract` (`None` is a nil map). */
  datatype Collaborators = Collaborators(
    normalizeDate: string -> string,
    modifiedDate: Item -> string,
    meta: Item -> Option<map<string, string>>)

  /** The context's answers at the cancellation checkpoints: entry 0 before
      decoding, entry 1 after decoding, entry `2 + i` before item `i`. A missing
      entry means the context is not done. */
  type Polls = seq<Option<ContextError>>

  function Poll(polls: Polls, k: nat): Option<ContextError>
  {
    if k < |polls| then polls[k] else None
  }

  /** The poll before item `i`. */
  function ItemPoll(polls: Polls, i: nat): Option<ContextError>
  {
    Poll(polls, 2 + i)
  }

  /** The first of the `n` item checkpoints at which the context is done. */
  function CancelPoint(polls: Polls, n: nat): (r: Option<nat>)
    ensures r.Some? ==> r.value < n && ItemPoll(polls, r.value).Some? &&
                        forall j :: 0 <= j < r.value ==> ItemPoll(polls, j).None?
    ensures r.None? ==> forall j :: 0 <= j < n ==> ItemPoll(polls, j).None?
  {
    if n == 0 then None
    else match CancelPoint(polls, n - 1)
      case Some(k) => Some(k)
      case None => if ItemPoll(polls, n - 1).Some? then Some(n - 1) else None
  }

  // ---------------------------------------------------------------------------
  // decodeXML

  /** `decodeXML` after the decoder: a syntax failure, or a root element whose
      local name is not "rss", is an error. */
  function DecodeXML(input: XmlInput): Result<Wxr, ParseError>
  {
    match input
    case DecodeFailure(message) => Failure(MalformedXml(message))
    case Decoded(doc) =>
      if doc.xmlName.local != "rss" then Failure(InvalidRoot(doc.xmlName.local)) else Success(doc)
  }

  /** Decoding succeeds exactly for a decoded document with root "rss", and then
      yields that document; a wrong root is reported with its name. */
  lemma DecodeXMLSpec(input: XmlInput)
    ensures DecodeXML(input).Success? <==> input.Decoded? && input.doc.xmlName.local == "rss"
    ensures DecodeXML(input).Success? ==> DecodeXML(input).value == input.doc
    ensures input.Decoded? && input.doc.xmlName.local != "rss" ==>
              DecodeXML(input) == Failure(InvalidRoot(input.doc.xmlName.local))
  {
  }

  // ---------------------------------------------------------------------------
  // The skip chain and the record built from a kept item

  /** Why the parse loop skips an item, in the order of its checks. */
  datatype SkipReason = ByType(postType: string) | ByStatus(status: string) | MissingId | NoText

  function SkipReasonOf(item: Item): Option<SkipReason>
  {
    if item.postType != "post" then Some(ByType(item.postType))
    else if item.status != "publish" then Some(ByStatus(item.status))
    else if item.postId == 0 then Some(MissingId)
    else if item.title == "" && item.contentEncoded == "" && item.excerptEncoded == "" then Some(NoText)
    else None
  }

  /** The item passes every check of the loop. */
  predicate Kept(item: Item)
  {
    SkipReasonOf(item).None?
  }

  /** An item is kept exactly when it is of type "post", has status "publish", a
      non-zero ID and some title, content or excerpt, all compared untrimmed. */
  lemma KeptIff(item: Item)
    ensures Kept(item) <==>
            item.postType == "post" && item.status == "publish" && item.postId != 0 &&
            !(item.title == "" && item.contentEncoded == "" && item.excerptEncoded == "")
  {
  }

  /** The reason recorded is the first check that fails. */
  lemma SkipReasonOrder(item: Item)
    ensures SkipReasonOf(item) == Some(ByType(item.postType)) <==> item.postType != "post"
    ensures SkipReasonOf(item) == Some(ByStatus(item.status)) <==>
            item.postType == "post" && item.status != "publish"
    ensures SkipReasonOf(item) == Some(MissingId) <==>
            item.postType == "post" && item.status == "publish" && item.postId == 0
  {
  }

  /** The meta map stored in a post: a nil map becomes an empty one. */
  function MetaOrEmpty(meta: Option<map<string, string>>): map<string, string>
  {
    if meta.None? then map[] else meta.value
  }

  /** The record `transformItem` builds. */
  function TransformSpec(item: Item, index: AttachmentIndex, c: Collaborators): Post
  {
    Post(
      id := item.postId,
      titleRendered := item.title,
      contentRendered := item.contentEncoded,
      slug := item.postName,
      link := item.link,
      excerpt := Excerpt(item),
      author := Author(item),
      categories := Names(item.categories, CategoryKind),
      tags := Names(item.categories, TagKind),
      date := Date(item, c.normalizeDate),
      modifiedDate := c.modifiedDate(item),
      featuredImage := FeaturedImage(item, index),
      guid := item.guid,
      parentId := item.postParent,
      meta := MetaOrEmpty(c.meta(item)))
  }

  /** A post copies its identity fields from its item unchanged; its author is
      trimmed; its categories and tags are non-empty trimmed names that together
      are no more than the item's category entries; its meta is the extractor's
      map, or empty. */
  lemma TransformSpecFields(item: Item, index: AttachmentIndex, c: Collaborators)
    ensures var post := TransformSpec(item, index, c);
      post.id == item.postId && post.titleRendered == item.title &&
      post.contentRendered == item.contentEncoded && post.slug == item.postName &&
      post.link == item.link && post.guid == item.guid && post.parentId == item.postParent &&
      Text.IsTrimmed(post.author) &&
      (forall k :: 0 <= k < |post.categories| ==> post.categories[k] != "" && Text.IsTrimmed(post.categories[k])) &&
      (forall k :: 0 <= k < |post.tags| ==> post.tags[k] != "" && Text.IsTrimmed(post.tags[k])) &&
      |post.categories| + |post.tags| <= |item.categories| &&
      (c.meta(item).Some? ==> post.meta == c.meta(item).value) &&
      (c.meta(item).None? ==> post.meta == map[])
  {
    AuthorSpec(item);
    NamesWellFormed(item.categories, CategoryKind);
    NamesWellFormed(item.categories, TagKind);
    CategoriesAndTagsDisjoint(item.categories);
  }

  // ---------------------------------------------------------------------------
  // The item loop as functions

  /** The posts the loop emits for `items`, in order. */
  function ParseItems(items: seq<Item>, index: AttachmentIndex, c: Collaborators): seq<Post>
  {
    if items == [] then []
    else
      var last := items[|items| - 1];
      ParseItems(items[..|items| - 1], index, c) + (if Kept(last) then [TransformSpec(last, index, c)] else [])
  }

  /** The loop's `skippedCount`. */
  function SkipCount(items: seq<Item>): nat
  {
    if items == [] then 0
    else SkipCount(items[..|items| - 1]) + (if Kept(items[|items| - 1]) then 0 else 1)
  }

  /** The kept items, in order (an independent, front-to-back definition). */
  function KeptItems(items: seq<Item>): seq<Item>
  {
    if items == [] then []
    else (if Kept(items[0]) then [items[0]] else []) + KeptItems(items[1..])
  }

  /** `transformItem` applied to each of `items`. */
  function TransformAll(items: seq<Item>, index: AttachmentIndex, c: Collaborators): seq<Post>
  {
    seq(|items|, i requires 0 <= i < |items| => TransformSpec(items[i], index, c))
  }

  /** One more item extends the loop's output and tally by that item alone. */
  lemma ParseItemsSnoc(items: seq<Item>, i: nat, index: AttachmentIndex, c: Collaborators)
    requires i < |items|
    ensures ParseItems(items[..i + 1], index, c) ==
            ParseItems(items[..i], index, c) + (if Kept(items[i]) then [TransformSpec(items[i], index, c)] else [])
    ensures SkipCount(items[..i + 1]) == SkipCount(items[..i]) + (if Kept(items[i]) then 0 else 1)
  {
    assert items[..i + 1][..i] == items[..i];
  }

  /** The document's attachment index. */
  function IndexOfChannel(ch: Channel): AttachmentIndex
  {
    IndexOf(ch.items, DetermineUploadsBaseURL(ch))
  }

  /** The index a parse of `input` builds (empty when decoding fails, as then no item is reached). */
  function IndexFor(input: XmlInput): AttachmentIndex
  {
    match DecodeXML(input)
    case Success(doc) => IndexOfChannel(doc.channel)
    case Failure(_) => EmptyIndex
  }

  /** What `Parser.Parse` returns. */
  function ParseOutcome(input: XmlInput, c: Collaborators): ParseResult
  {
    match DecodeXML(input)
    case Failure(e) => ParseResult(None, Some(e))
    case Success(doc) =>
      ParseResult(Some(ParseItems(doc.channel.items, IndexOfChannel(doc.channel), c)), None)
  }

  /** What `Parser.ParseWithContext` returns. */
  function ParseWithContextOutcome(polls: Polls, input: XmlInput, c: Collaborators): ParseResult
  {
    if Poll(polls, 0).Some? then ParseResult(None, Some(ContextErr(Poll(polls, 0).value)))
    else match DecodeXML(input)
      case Failure(e) => ParseResult(None, Some(e))
      case Success(doc) =>
        if Poll(polls, 1).Some? then ParseResult(None, Some(ContextErr(Poll(polls, 1).value)))
        else
          var items := doc.channel.items;
          var index := IndexOfChannel(doc.channel);
          match CancelPoint(polls, |items|)
          case Some(i) => ParseResult(Some(ParseItems(items[..i], index, c)), Some(ContextErr(ItemPoll(polls, i).value)))
          case None => ParseResult(Some(ParseItems(items, index, c)), None)
  }

  /** The result has at least one post, so `transformItem` ran. */
  predicate Transformed(r: ParseResult)
  {
    r.posts.Some? && r.posts.value != []
  }

  // ---------------------------------------------------------------------------
  // The parser

  /** The parser's fields, as one value. */
  datatype Config = Config(
    logger: Option<Logger>,
    filter: Filter,
    authorExt: AuthorExtractor?,
    excerptExt: ExcerptExtractor?,
    dateExt: DateExtractor?,
    modifiedDateExt: ModifiedDateExtractor?,
    categoryExt: CategoryExtractor?,
    metaExt: MetaExtractor?,
    featuredImageExt: FeaturedImageExtractor?)

  /** `Parser`. The filter is stored but never consulted: both parse loops test
      the post type and status themselves. A nil extractor other than the
      category, modification-date, meta and featured-image extractors is still
      usable, as its methods do not dereference it. */
  class Parser {
    var logger: Option<Logger>
    var filter: Filter
    var authorExt: AuthorExtractor?
    var excerptExt: ExcerptExtractor?
    var dateExt: DateExtractor?
    var modifiedDateExt: ModifiedDateExtractor?
    var categoryExt: CategoryExtractor?
    var metaExt: MetaExtractor?
    var featuredImageExt: FeaturedImageExtractor?

    function Fields(): Config
      reads this
    {
      Config(logger, filter, authorExt, excerptExt, dateExt, modifiedDateExt, categoryExt, metaExt, featuredImageExt)
    }

    /** The state every constructor leaves: the default filter, all extractors
        but the featured-image one present, and no featured-image extractor yet. */
    predicate Defaults()
      reads this
    {
      filter == Default(NewDefaultFilter()) &&
      authorExt != null && excerptExt != null && dateExt != null &&
      modifiedDateExt != null && categoryExt != null && metaExt != null &&
      featuredImageExt == null
    }

    /** The extractors a parser may create lazily are all present. */
    predicate Initialised()
      reads this
    {
      categoryExt != null && modifiedDateExt != null && metaExt != null && featuredImageExt != null
    }

    /** `NewParser`: a no-op logger. */
    constructor New()
      ensures logger == Some(NoOpLogger) && Defaults()
      ensures fresh(authorExt) && fresh(excerptExt) && fresh(dateExt) && fresh(modifiedDateExt) && fresh(categoryExt) && fresh(metaExt)
    {
      logger := Some(NoOpLogger);
      filter := Default(NewDefaultFilter());
      authorExt := new AuthorExtractor();
      excerptExt := new ExcerptExtractor();
      dateExt := new DateExtractor();
      modifiedDateExt := new ModifiedDateExtractor();
      categoryExt := new CategoryExtractor();
      metaExt := new MetaExtractor();
      featuredImageExt := null;
    }

    /** `NewParserWithLogger`: the logger as given, even a nil one. */
    constructor NewWithLogger(logger: Option<Logger>)
      ensures this.logger == logger && Defaults()
      ensures fresh(authorExt) && fresh(excerptExt) && fresh(dateExt) && fresh(modifiedDateExt) && fresh(categoryExt) && fresh(metaExt)
    {
      this.logger := logger;
      filter := Default(NewDefaultFilter());
      authorExt := new AuthorExtractor();
      excerptExt := new ExcerptExtractor();
      dateExt := new DateExtractor();
      modifiedDateExt := new ModifiedDateExtractor();
      categoryExt := new CategoryExtractor();
      metaExt := new MetaExtractor();
      featuredImageExt := null;
    }

    /** `NewParserWithStdLogger`: a nil standard logger gives `NewParser()`,
        any other is wrapped in the adapter. */
    constructor NewWithStdLogger(std: Option<nat>)
      ensures std.None? ==> logger == Some(NoOpLogger)
      ensures std.Some? ==> logger == Some(StdLoggerAdapter(std.value))
      ensures Defaults()
      ensures fresh(authorExt) && fresh(excerptExt) && fresh(dateExt) && fresh(modifiedDateExt) && fresh(categoryExt) && fresh(metaExt)
    {
      logger := if std.None? then Some(NoOpLogger) else Some(StdLoggerAdapter(std.value));
      filter := Default(NewDefaultFilter());
      authorExt := new AuthorExtractor();
      excerptExt := new ExcerptExtractor();
      dateExt := new DateExtractor();
      modifiedDateExt := new ModifiedDateExtractor();
      categoryExt := new CategoryExtractor();
      metaExt := new MetaExtractor();
      featuredImageExt := null;
    }

    /** `SetLogger`: nil installs the no-op logger; nothing else changes. */
    method SetLogger(logger: Option<Logger>)
      modifies this
      ensures this.logger == Some(if logger.None? then NoOpLogger else logger.value)
      ensures Fields() == old(Fields()).(logger := this.logger)
    {
      if logger.None? {
        this.logger := Some(NoOpLogger);
      } else {
        this.logger := logger;
      }
    }

    /** `WithFilter`: nil installs the default filter. */
    method WithFilter(filter: Option<Filter>) returns (p: Parser)
      modifies this
      ensures p == this
      ensures this.filter == if filter.None? then Default(NewDefaultFilter()) else filter.value
      ensures Fields() == old(Fields()).(filter := this.filter)
    {
      if filter.None? {
        this.filter := Default(NewDefaultFilter());
      } else {
        this.filter := filter.value;
      }
      p := this;
    }

    /** `WithAuthorExtractor`: nil installs a new extractor. */
    method WithAuthorExtractor(extractor: AuthorExtractor?) returns (p: Parser)
      modifies this
      ensures p == this && authorExt != null
      ensures extractor != null ==> authorExt == extractor
      ensures extractor == null ==> fresh(authorExt)
      ensures Fields() == old(Fields()).(authorExt := authorExt)
    {
      if extractor == null {
        authorExt := new AuthorExtractor();
      } else {
        authorExt := extractor;
      }
      p := this;
    }

    /** `WithExcerptExtractor`: nil installs a new extractor. */
    method WithExcerptExtractor(extractor: ExcerptExtractor?) returns (p: Parser)
      modifies this
      ensures p == this && excerptExt != null
      ensures extractor != null ==> excerptExt == extractor
      ensures extractor == null ==> fresh(excerptExt)
      ensures Fields() == old(Fields()).(excerptExt := excerptExt)
    {
      if extractor == null {
        excerptExt := new ExcerptExtractor();
      } else {
        excerptExt := extractor;
      }
      p := this;
    }

    /** `WithDateExtractor`: nil installs a new extractor. */
    method WithDateExtractor(extractor: DateExtractor?) returns (p: Parser)
      modifies this
      ensures p == this && dateExt != null
      ensures extractor != null ==> dateExt == extractor
      ensures extractor == null ==> fresh(dateExt)
      ensures Fields() == old(Fields()).(dateExt := dateExt)
    {
      if extractor == null {
        dateExt := new DateExtractor();
      } else {
        dateExt := extractor;
      }
      p := this;
    }

    /** `WithFeaturedImageExtractor`: nil installs a new extractor without an
        index; the index is set when an item is transformed. */
    method WithFeaturedImageExtractor(extractor: FeaturedImageExtractor?) returns (p: Parser)
      modifies this
      ensures p == this && featuredImageExt != null
      ensures extractor != null ==> featuredImageExt == extractor
      ensures extractor == null ==> fresh(featuredImageExt) && featuredImageExt.attachmentIndex == None
      ensures Fields() == old(Fields()).(featuredImageExt := featuredImageExt)
    {
      if extractor == null {
        featuredImageExt := new FeaturedImageExtractor();
      } else {
        featuredImageExt := extractor;
      }
      p := this;
    }

    /** The state after `transformItem` with `index`: the four lazily created
        extractors exist (reused when present, fresh otherwise), the featured-image
        extractor holds `index`, and nothing else has changed. */
    twostate predicate LazilyInitialised(index: AttachmentIndex)
      reads this, featuredImageExt
    {
      logger == old(logger) && filter == old(filter) && authorExt == old(authorExt) &&
      excerptExt == old(excerptExt) && dateExt == old(dateExt) &&
      categoryExt != null && (if old(categoryExt) == null then fresh(categoryExt) else categoryExt == old(categoryExt)) &&
      modifiedDateExt != null &&
      (if old(modifiedDateExt) == null then fresh(modifiedDateExt) else modifiedDateExt == old(modifiedDateExt)) &&
      metaExt != null && (if old(metaExt) == null then fresh(metaExt) else metaExt == old(metaExt)) &&
      featuredImageExt != null && featuredImageExt.attachmentIndex == Some(index) &&
      (if old(featuredImageExt) == null then fresh(featuredImageExt) else featuredImageExt == old(featuredImageExt))
    }

    /** The state after a parse: lazily initialised with `index` when some item was
        transformed, otherwise untouched. */
    twostate predicate AfterParse(transformed: bool, index: AttachmentIndex)
      reads this, featuredImageExt
    {
      if transformed then LazilyInitialised(index)
      else Fields() == old(Fields()) &&
           (featuredImageExt != null ==> featuredImageExt.attachmentIndex == old(featuredImageExt.attachmentIndex))
    }

    /** The first half of `transformItem`: creates the missing extractors and
        points the featured-image extractor at `index`. */
    method InitExtractors(index: AttachmentIndex)
      modifies this, featuredImageExt
      ensures LazilyInitialised(index)
      ensures old(Initialised()) ==> Fields() == old(Fields())
    {
      if categoryExt == null {
        categoryExt := new CategoryExtractor();
      }
      if modifiedDateExt == null {
        modifiedDateExt := new ModifiedDateExtractor();
      }
      if metaExt == null {
        metaExt := new MetaExtractor();
      }
      if featuredImageExt == null {
        featuredImageExt := new FeaturedImageExtractor.WithIndex(index);
      } else {
        featuredImageExt.attachmentIndex := Some(index);
      }
    }

    /** `transformItem`: creates the missing extractors, points the featured-image
        extractor at `index`, and builds the post. */
    method TransformItem(item: Item, index: AttachmentIndex, c: Collaborators) returns (post: Post)
      modifies this, featuredImageExt
      ensures post == TransformSpec(item, index, c)
      ensures LazilyInitialised(index)
      ensures old(Initialised()) ==> Fields() == old(Fields())
    {
      InitExtractors(index);
      var categories := categoryExt.ExtractCategories(item);
      var tags := categoryExt.ExtractTags(item);
      var meta := c.meta(item);
      var image := featuredImageExt.Extract(item);
      post := Post(
        id := item.postId,
        titleRendered := item.title,
        contentRendered := item.contentEncoded,
        slug := item.postName,
        link := item.link,
        excerpt := Excerpt(item),
        author := Author(item),
        categories := if categories.None? then [] else categories.value,
        tags := if tags.None? then [] else tags.value,
        date := Date(item, c.normalizeDate),
        modifiedDate := c.modifiedDate(item),
        featuredImage := image,
        guid := item.guid,
        parentId := item.postParent,
        meta := if meta.None? then map[] else meta.value);
    }

    /** One pass of the item loop after its cancellation check: the skip chain
        (type, status, ID, text), then `transformItem` for an item that passes it. */
    method ProcessItem(item: Item, index: AttachmentIndex, c: Collaborators) returns (post: Option<Post>)
      modifies this, featuredImageExt
      ensures post == if Kept(item) then Some(TransformSpec(item, index, c)) else None
      ensures Kept(item) ==> LazilyInitialised(index) && (old(Initialised()) ==> Fields() == old(Fields()))
      ensures !Kept(item) ==> Fields() == old(Fields()) && (featuredImageExt != null ==> unchanged(featuredImageExt))
    {
      if item.postType != "post" {
        return None;
      }
      if item.status != "publish" {
        return None;
      }
      if item.postId == 0 {
        return None;
      }
      if item.title == "" && item.contentEncoded == "" && item.excerptEncoded == "" {
        return None;
      }
      var p := TransformItem(item, index, c);
      post := Some(p);
    }

    /** The item loop of `Parse` (`checked` false) and of `ParseWithContext`
        (`checked` true, polling before each item). */
    method ParseLoop(items: seq<Item>, index: AttachmentIndex, c: Collaborators, polls: Polls, checked: bool)
        returns (posts: seq<Post>, cancel: Option<ContextError>)
      modifies this, featuredImageExt
      ensures !checked ==> cancel.None? && posts == ParseItems(items, index, c)
      ensures checked ==> match CancelPoint(polls, |items|)
        case Some(i) => posts == ParseItems(items[..i], index, c) && cancel == ItemPoll(polls, i)
        case None => posts == ParseItems(items, index, c) && cancel.None?
      ensures AfterParse(posts != [], index)
    {
      posts := [];
      cancel := None;
      ghost var skipped := 0;
      for i := 0 to |items|
        invariant posts == ParseItems(items[..i], index, c)
        invariant skipped == SkipCount(items[..i])
        invariant checked ==> forall j :: 0 <= j < i ==> ItemPoll(polls, j).None?
        invariant posts == [] ==> (Fields() == old(Fields()) &&
          (featuredImageExt != null ==> featuredImageExt.attachmentIndex == old(featuredImageExt.attachmentIndex)))
        invariant posts != [] ==> LazilyInitialised(index) && Initialised()
      {
        if checked && ItemPoll(polls, i).Some? {
          cancel := ItemPoll(polls, i);
          return;
        }
        ParseItemsSnoc(items, i, index, c);
        var post := ProcessItem(items[i], index, c);
        if post.Some? {
          posts := posts + [post.value];
        } else {
          skipped := skipped + 1;
        }
      }
      assert items[..|items|] == items;
    }

    /** `Parser.Parse`. The Go code logs through `logger` unconditionally, so a nil
        logger (left by `NewParserWithLogger(nil)`) makes it panic. */
    method Parse(input: XmlInput, c: Collaborators) returns (r: ParseResult)
      requires logger.Some?
      modifies this, featuredImageExt
      ensures r == ParseOutcome(input, c)
      ensures AfterParse(Transformed(r), IndexFor(input))
    {
      var decoded := DecodeXML(input);
      if decoded.Failure? {
        return ParseResult(None, Some(decoded.error));
      }
      var doc := decoded.value;
      var index := BuildAttachmentIndex(doc.channel);
      var posts, _ := ParseLoop(doc.channel.items, index, c, [], false);
      r := ParseResult(Some(posts), None);
    }

    /** `Parser.ParseWithContext`: polls before decoding, after decoding and before
        each item, and on cancellation returns what it has so far. The first poll
        comes before the first log line, so a nil logger panics only when the
        context is not already done. */
    method ParseWithContext(polls: Polls, input: XmlInput, c: Collaborators) returns (r: ParseResult)
      requires logger.Some? || Poll(polls, 0).Some?
      modifies this, featuredImageExt
      ensures r == ParseWithContextOutcome(polls, input, c)
      ensures AfterParse(Transformed(r), IndexFor(input))
    {
      if Poll(polls, 0).Some? {
        return ParseResult(None, Some(ContextErr(Poll(polls, 0).value)));
      }
      var decoded := DecodeXML(input);
      if decoded.Failure? {
        return ParseResult(None, Some(decoded.error));
      }
      if Poll(polls, 1).Some? {
        return ParseResult(None, Some(ContextErr(Poll(polls, 1).value)));
      }
      var doc := decoded.value;
      var index := BuildAttachmentIndex(doc.channel);
      var posts, cancel := ParseLoop(doc.channel.items, index, c, polls, true);
      if cancel.Some? {
        r := ParseResult(Some(posts), Some(ContextErr(cancel.value)));
      } else {
        r := ParseResult(Some(posts), None);
      }
    }
  }

  /** The package function `Parse`: a default parser's `Parse`. */
  method Parse(input: XmlInput, c: Collaborators) returns (r: ParseResult)
    ensures r == ParseOutcome(input, c)
  {
    var parser := new Parser.New();
    r := parser.Parse(input, c);
  }

  /** The package function `ParseWithContext`: a default parser's `ParseWithContext`. */
  method ParseWithContext(polls: Polls, input: XmlInput, c: Collaborators) returns (r: ParseResult)
    ensures r == ParseWithContextOutcome(polls, input, c)
  {
    var parser := new Parser.New();
    r := parser.ParseWithContext(polls, input, c);
  }

  // ---------------------------------------------------------------------------
  // The item loop: order, content and count

  /** The loop's output over concatenated item lists is the concatenation of the outputs. */
  lemma {:induction false} ParseItemsAppend(a: seq<Item>, b: seq<Item>, index: AttachmentIndex, c: Collaborators)
    ensures ParseItems(a + b, index, c) == ParseItems(a, index, c) + ParseItems(b, index, c)
  {
    if b == [] {
      assert a + b == a;
    } else {
      assert (a + b)[..|a + b| - 1] == a + b[..|b| - 1];
      ParseItemsAppend(a, b[..|b| - 1], index, c);
    }
  }

  lemma {:induction false} KeptItemsAppend(a: seq<Item>, b: seq<Item>)
    ensures KeptItems(a + b) == KeptItems(a) + KeptItems(b)
  {
    if a == [] {
      assert a + b == b;
    } else {
      assert (a + b)[1..] == a[1..] + b;
      KeptItemsAppend(a[1..], b);
    }
  }

  /** The kept items are exactly the items that pass the skip chain, and no more than all items. */
  lemma {:induction false} KeptItemsSpec(items: seq<Item>, x: Item)
    ensures x in KeptItems(items) <==> x in items && Kept(x)
    ensures |KeptItems(items)| <= |items|
  {
    if items != [] {
      KeptItemsSpec(items[1..], x);
      assert items == [items[0]] + items[1..];
    }
  }

  /** The posts are the kept items, in document order, each transformed: the loop
      is a filter followed by a map. */
  lemma {:induction false} ParseItemsIsFilterMap(items: seq<Item>, index: AttachmentIndex, c: Collaborators)
    ensures ParseItems(items, index, c) == TransformAll(KeptItems(items), index, c)
  {
    if items != [] {
      var init, last := items[..|items| - 1], items[|items| - 1];
      ParseItemsIsFilterMap(init, index, c);
      assert items == init + [last];
      KeptItemsAppend(init, [last]);
      assert KeptItems([last]) == if Kept(last) then [last] else [] by {
        assert [last][1..] == [];
      }
      var a, b := KeptItems(init), KeptItems([last]);
      assert TransformAll(a + b, index, c) == TransformAll(a, index, c) + TransformAll(b, index, c);
    }
  }

  /** Every item is either emitted or counted as skipped. */
  lemma {:induction false} ParseItemsCount(items: seq<Item>, index: AttachmentIndex, c: Collaborators)
    ensures |ParseItems(items, index, c)| + SkipCount(items) == |items|
  {
    if items != [] {
      ParseItemsCount(items[..|items| - 1], index, c);
    }
  }

  // ---------------------------------------------------------------------------
  // Parse

  /** `Parse` fails exactly when decoding or the root check fails, and then returns
      nil posts; otherwise it returns, without error, the transformed kept items. */
  lemma ParseOutcomeSpec(input: XmlInput, c: Collaborators)
    ensures var r := ParseOutcome(input, c);
      (r.err.None? <==> DecodeXML(input).Success?) && (r.posts.None? <==> r.err.Some?) &&
      (DecodeXML(input).Success? ==>
         var ch := DecodeXML(input).value.channel;
         r.posts.value == TransformAll(KeptItems(ch.items), IndexOfChannel(ch), c) &&
         |r.posts.value| + SkipCount(ch.items) == |ch.items|)
  {
    if DecodeXML(input).Success? {
      var ch := DecodeXML(input).value.channel;
      ParseItemsIsFilterMap(ch.items, IndexOfChannel(ch), c);
      ParseItemsCount(ch.items, IndexOfChannel(ch), c);
    }
  }

  /** A root other than "rss" gives no posts and the invalid-root error, from both
      entry points (unless the context is already done). */
  lemma RootCheckRejects(doc: Wxr, polls: Polls, c: Collaborators)
    requires doc.xmlName.local != "rss"
    ensures ParseOutcome(Decoded(doc), c) == ParseResult(None, Some(InvalidRoot(doc.xmlName.local)))
    ensures Poll(polls, 0).None? ==>
            ParseWithContextOutcome(polls, Decoded(doc), c) == ParseResult(None, Some(InvalidRoot(doc.xmlName.local)))
  {
  }

  // ---------------------------------------------------------------------------
  // ParseWithContext

  /** A context that is never done makes `ParseWithContext` return what `Parse` returns. */
  lemma NoCancelSameAsParse(polls: Polls, input: XmlInput, c: Collaborators)
    requires forall k :: 0 <= k < |polls| ==> polls[k].None?
    ensures ParseWithContextOutcome(polls, input, c) == ParseOutcome(input, c)
  {
  }

  /** A cancellation before decoding, or right after it, returns nil posts and the
      context's error. */
  lemma EarlyCancel(polls: Polls, input: XmlInput, c: Collaborators)
    ensures Poll(polls, 0).Some? ==>
            ParseWithContextOutcome(polls, input, c) == ParseResult(None, Some(ContextErr(Poll(polls, 0).value)))
    ensures Poll(polls, 0).None? && DecodeXML(input).Success? && Poll(polls, 1).Some? ==>
            ParseWithContextOutcome(polls, input, c) == ParseResult(None, Some(ContextErr(Poll(polls, 1).value)))
  {
  }

  /** A cancellation first seen before item `i` returns the posts of items
      `0..i-1` and the context's error. */
  lemma CancelAtItem(polls: Polls, doc: Wxr, c: Collaborators, i: nat)
    requires doc.xmlName.local == "rss" && Poll(polls, 0).None? && Poll(polls, 1).None?
    requires i < |doc.channel.items| && ItemPoll(polls, i).Some?
    requires forall j :: 0 <= j < i ==> ItemPoll(polls, j).None?
    ensures ParseWithContextOutcome(polls, Decoded(doc), c) ==
            ParseResult(Some(ParseItems(doc.channel.items[..i], IndexOfChannel(doc.channel), c)),
                        Some(ContextErr(ItemPoll(polls, i).value)))
  {
    var cp := CancelPoint(polls, |doc.channel.items|);
    assert cp.Some?;
    assert !(cp.value < i);
    assert !(i < cp.value);
  }

  /** Whatever `ParseWithContext` returns is a prefix of what `Parse` returns. */
  lemma CancelledIsPrefix(polls: Polls, input: XmlInput, c: Collaborators)
    ensures var r := ParseWithContextOutcome(polls, input, c);
      r.posts.Some? ==> ParseOutcome(input, c).posts.Some? && r.posts.value <= ParseOutcome(input, c).posts.value
  {
    if Poll(polls, 0).None? && DecodeXML(input).Success? && Poll(polls, 1).None? {
      var ch := DecodeXML(input).value.channel;
      var items := ch.items;
      var cp := CancelPoint(polls, |items|);
      if cp.Some? {
        var i := cp.value;
        assert items == items[..i] + items[i..];
        ParseItemsAppend(items[..i], items[i..], IndexOfChannel(ch), c);
      }
    }
  }

  /** `ParseWithContext` returns an error exactly when `Parse` does or the context is
      done at one of the checkpoints it reaches. */
  lemma ParseWithContextErrors(polls: Polls, input: XmlInput, c: Collaborators)
    ensures var r := ParseWithContextOutcome(polls, input, c);
      r.err.None? <==>
        ParseOutcome(input, c).err.None? && Poll(polls, 0).None? && Poll(polls, 1).None? &&
        CancelPoint(polls, |DecodeXML(input).value.channel.items|).None?
  {
  }

  // ---------------------------------------------------------------------------
  // Scenarios

  /** A decoder failure is returned, wrapped, with nil posts by both entry points
      (the context variant when its first poll finds the context live). */
  lemma DecodeFailureRejects(message: string, polls: Polls, c: Collaborators)
    ensures ParseOutcome(DecodeFailure(message), c) == ParseResult(None, Some(MalformedXml(message)))
    ensures Poll(polls, 0).None? ==>
              ParseWithContextOutcome(polls, DecodeFailure(message), c) == ParseResult(None, Some(MalformedXml(message)))
  {
  }

  /** Input that is not XML, and a document whose root is `<notrss>`, both end
      on the decoder's error path: `XMLName` is tagged `xml:"rss"`, so the
      decoder itself refuses any other root. */
  lemma NotRssExample(c: Collaborators)
    ensures ParseOutcome(DecodeFailure("EOF"), c) == ParseResult(None, Some(MalformedXml("EOF")))
    ensures var m := "expected element type <rss> but have <notrss>";
      ParseOutcome(DecodeFailure(m), c) == ParseResult(None, Some(MalformedXml(m)))
  {
    DecodeFailureRejects("EOF", [], c);
    DecodeFailureRejects("expected element type <rss> but have <notrss>", [], c);
  }

  /** Of a published page, a draft post and a published post, only the last is kept. */
  lemma SkipsNonPostsExample(c: Collaborators)
    ensures var page := EmptyItem.(title := "Page Title", postId := 456, postType := "page", status := "publish");
      var draft := EmptyItem.(title := "Draft Post", postId := 789, postType := "post", status := "draft");
      var published := EmptyItem.(title := "Published Post", postId := 101, postType := "post", status := "publish");
      var items := [page, draft, published];
      var r := ParseOutcome(Decoded(Wxr(XmlName("", "rss"), Channel("Test Site", "", "", "", items, []))), c);
      r.err.None? && r.posts.Some? && |r.posts.value| == 1 && r.posts.value[0].id == 101
  {
    var page := EmptyItem.(title := "Page Title", postId := 456, postType := "page", status := "publish");
    var draft := EmptyItem.(title := "Draft Post", postId := 789, postType := "post", status := "draft");
    var published := EmptyItem.(title := "Published Post", postId := 101, postType := "post", status := "publish");
    var items := [page, draft, published];
    var ch := Channel("Test Site", "", "", "", items, []);
    ParseItemsIsFilterMap(items, IndexOfChannel(ch), c);
    assert !Kept(page) && !Kept(draft) && Kept(published);
    assert KeptItems([published]) == [published] by {
      assert [published][1..] == [];
    }
    assert KeptItems([draft, published]) == [published] by {
      assert [draft, published][1..] == [published];
    }
    assert KeptItems(items) == [published] by {
      assert items[1..] == [draft, published];
    }
  }

  /** A post without `wp:post_id` is skipped. */
  lemma MissingIdExample(c: Collaborators)
    ensures var item := EmptyItem.(title := "Post Without ID", postType := "post", status := "publish");
      ParseOutcome(Decoded(Wxr(XmlName("", "rss"), Channel("Test Site", "", "", "", [item], []))), c) ==
      ParseResult(Some([]), None)
  {
    var item := EmptyItem.(title := "Post Without ID", postType := "post", status := "publish");
    var ch := Channel("Test Site", "", "", "", [item], []);
    assert !Kept(item);
    assert ParseItems([item], IndexOfChannel(ch), c) == [] by {
      assert [item][..0] == [];
    }
  }

  /** A context cancelled before the call gives nil posts and `context.Canceled`. */
  lemma CancelledBeforeStartExample(input: XmlInput, c: Collaborators)
    ensures ParseWithContextOutcome([Some(Canceled)], input, c) == ParseResult(None, Some(ContextErr(Canceled)))
  {
  }

  /** With a context that is never done, two published posts give two posts. */
  lemma TwoPostsExample(c: Collaborators)
    ensures var p1 := EmptyItem.(title := "Post 1", contentEncoded := "Content", postId := 1, postType := "post", status := "publish");
      var p2 := EmptyItem.(title := "Post 2", contentEncoded := "Content", postId := 2, postType := "post", status := "publish");
      var r := ParseWithContextOutcome([], Decoded(Wxr(XmlName("", "rss"), Channel("Test Site", "", "", "", [p1, p2], []))), c);
      r.err.None? && r.posts.Some? && |r.posts.value| == 2
  {
    var p1 := EmptyItem.(title := "Post 1", contentEncoded := "Content", postId := 1, postType := "post", status := "publish");
    var p2 := EmptyItem.(title := "Post 2", contentEncoded := "Content", postId := 2, postType := "post", status := "publish");
    var input := Decoded(Wxr(XmlName("", "rss"), Channel("Test Site", "", "", "", [p1, p2], [])));
    NoCancelSameAsParse([], input, c);
    ParseOutcomeSpec(input, c);
    ParseItemsCount([p1, p2], IndexOfChannel(input.doc.channel), c);
    assert SkipCount([p1, p2]) == 0 by {
      assert [p1, p2][..1] == [p1];
      assert [p1][..0] == [];
    }
  }

  /** A post followed by one attachment: the index maps the attachment's ID to its
      (already trimmed) attachment URL. */
  lemma PostThenAttachmentIndex(post: Item, att: Item, base: string)
    requires post.postType != "attachment" && att.postType == "attachment"
    requires att.attachmentUrl != "" && Text.TrimSpace(att.attachmentUrl) == att.attachmentUrl
    ensures IndexOf([post, att], base).urlsById == map[att.postId := att.attachmentUrl]
  {
    assert [post, att][..1] == [post];
    assert [post][..0] == [];
    assert IndexOf([post], base) == EmptyIndex;
    assert ResolveAttachmentURL(att, base) == att.attachmentUrl;
  }

  /** A document whose items are one kept item followed by one skipped item gives
      exactly the post of the first. */
  lemma KeptThenSkipped(ch: Channel, c: Collaborators)
    requires |ch.items| == 2 && Kept(ch.items[0]) && !Kept(ch.items[1])
    ensures ParseOutcome(Decoded(Wxr(XmlName("", "rss"), ch)), c) ==
            ParseResult(Some([TransformSpec(ch.items[0], IndexOfChannel(ch), c)]), None)
  {
    var items := ch.items;
    ParseItemsIsFilterMap(items, IndexOfChannel(ch), c);
    var second := items[1];
    assert KeptItems([second]) == [] by {
      assert [second][1..] == [];
    }
    assert items[1..] == [second];
    assert KeptItems(items) == [items[0]] + KeptItems(items[1..]);
    assert KeptItems(items) == [items[0]];
    var posts := TransformAll([items[0]], IndexOfChannel(ch), c);
    assert posts == [TransformSpec(items[0], IndexOfChannel(ch), c)];
    assert DecodeXML(Decoded(Wxr(XmlName("", "rss"), ch))) == Success(Wxr(XmlName("", "rss"), ch));
  }

  /** A kept post with the example meta followed by the attachment its
      `_thumbnail_id` names: the one post takes its author and excerpt from the
      meta and its featured image from the attachment. */
  lemma MetaFallbacks(post: Item, att: Item, ch: Channel, c: Collaborators)
    requires ch.items == [post, att]
    requires Kept(post) && post.postMeta == ExampleMeta && post.excerptEncoded == ""
    requires att.postType == "attachment" && att.postId == 555
    requires att.attachmentUrl != "" && Text.TrimSpace(att.attachmentUrl) == att.attachmentUrl
    ensures var r := ParseOutcome(Decoded(Wxr(XmlName("", "rss"), ch)), c);
      r.err.None? && r.posts.Some? && |r.posts.value| == 1 &&
      r.posts.value[0] == TransformSpec(post, IndexOfChannel(ch), c) &&
      r.posts.value[0].author == "Marco D'Eramo" &&
      r.posts.value[0].excerpt == "Resumo curto" &&
      r.posts.value[0].featuredImage == att.attachmentUrl
  {
    var index := IndexOfChannel(ch);
    PostThenAttachmentIndex(post, att, DetermineUploadsBaseURL(ch));
    ExampleMetaFallbacks(post, index);
    KeptThenSkipped(ch, c);
  }

  /** The test document: the published post takes its author and excerpt from its
      meta and its featured image from the attachment its `_thumbnail_id` names,
      its date is the normalised GMT date, and the attachment itself is not a post. */
  lemma MetaFallbacksEndToEnd(c: Collaborators)
    ensures var post := EmptyItem.(title := "Post With Meta", link := "https://example.com/post-with-meta",
                                    contentEncoded := "<p>Body</p>", postId := 200,
                                    postDate := "2025-07-01 10:00:00", postDateGmt := "2025-07-01 13:00:00",
                                    postName := "post-with-meta", postType := "post", status := "publish",
                                    postMeta := ExampleMeta);
      var att := EmptyItem.(title := "attachment-thumb", link := "https://example.com/attachments/attachment-thumb",
                            guid := "https://example.com/wp-content/uploads/2023/10/thumb.png",
                            postId := 555, postParent := 200, postType := "attachment",
                            status := "inherit", attachmentUrl := "https://cdn.example.com/thumb.png");
      var ch := Channel("Test Site", "https://example.com", "https://example.com", "https://example.com", [post, att], []);
      var r := ParseOutcome(Decoded(Wxr(XmlName("", "rss"), ch)), c);
      r.err.None? && r.posts.Some? && |r.posts.value| == 1 &&
      r.posts.value[0].id == 200 &&
      r.posts.value[0].slug == "post-with-meta" &&
      r.posts.value[0].link == "https://example.com/post-with-meta" &&
      r.posts.value[0].date == c.normalizeDate("2025-07-01 13:00:00") &&
      r.posts.value[0].author == "Marco D'Eramo" &&
      r.posts.value[0].excerpt == "Resumo curto" &&
      r.posts.value[0].featuredImage == "https://cdn.example.com/thumb.png"
  {
    var post := EmptyItem.(title := "Post With Meta", link := "https://example.com/post-with-meta",
                           contentEncoded := "<p>Body</p>", postId := 200,
                           postDate := "2025-07-01 10:00:00", postDateGmt := "2025-07-01 13:00:00",
                           postName := "post-with-meta", postType := "post", status := "publish",
                           postMeta := ExampleMeta);
    var att := EmptyItem.(title := "attachment-thumb", link := "https://example.com/attachments/attachment-thumb",
                          guid := "https://example.com/wp-content/uploads/2023/10/thumb.png",
                          postId := 555, postParent := 200, postType := "attachment",
                          status := "inherit", attachmentUrl := "https://cdn.example.com/thumb.png");
    var ch := Channel("Test Site", "https://example.com", "https://example.com", "https://example.com", [post, att], []);
    Metadata.PlainLiteral("https://cdn.example.com/thumb.png");
    MetaFallbacks(post, att, ch, c);
    assert DateSource(post) == "2025-07-01 13:00:00";
  }
}
