/** The attachment index (attachments.go): one pass over the channel's items that
    maps attachment IDs to URLs and parent post IDs to the URLs of their attachments. */
module Attachments {
  import opened Wrappers
  import opened Text
  import opened Document
  import opened Metadata

  /** `AttachmentIndex`: attachment ID to URL, and parent post ID to the URLs of
      its attachments in document order. */
  datatype AttachmentIndex = AttachmentIndex(urlsById: map<int, string>, urlsByParent: map<int, seq<string>>)

  const EmptyIndex: AttachmentIndex := AttachmentIndex(map[], map[])

  /** The candidates loop of `determineUploadsBaseURL`: the first candidate that is
      not blank, trimmed and stripped of every trailing slash. */
  function FirstBaseCandidate(candidates: seq<string>): string
  {
    if candidates == [] then ""
    else
      var clean := TrimSpace(candidates[0]);
      if clean != "" then TrimRightSlashes(clean) else FirstBaseCandidate(candidates[1..])
  }

  /** `determineUploadsBaseURL`: tries BaseSiteURL, BaseBlogURL and the channel link. */
  function DetermineUploadsBaseURL(ch: Channel): string
  {
    FirstBaseCandidate([ch.baseSiteUrl, ch.baseBlogUrl, ch.link])
  }

  /** The `_wp_attached_file` meta value of an item (a path relative to the uploads directory). */
  function AttachedFile(item: Item): string
  {
    GetMetaValue(item.postMeta, ["_wp_attached_file"])
  }

  /** The URL built from the uploads base and a relative path, one leading "/" removed. */
  function ConstructedURL(base: string, rel: string): string
  {
    base + "/wp-content/uploads/" + TrimPrefix(rel, "/")
  }

  /** `resolveAttachmentURL`: the trimmed attachment URL, link or GUID, whichever
      is first not blank; otherwise a URL built from `_wp_attached_file`, provided
      both it and the base are non-empty; otherwise "". */
  function ResolveAttachmentURL(item: Item, base: string): string
  {
    var url := TrimSpace(item.attachmentUrl);
    if url != "" then url
    else
      var link := TrimSpace(item.link);
      if link != "" then link
      else
        var guid := TrimSpace(item.guid);
        if guid != "" then guid
        else
          var rel := AttachedFile(item);
          if rel != "" && base != "" then ConstructedURL(base, rel) else ""
  }

  /** The effect of one item of the loop in `buildAttachmentIndex`. Go's
      `append(m[p], url)` on a missing key starts from a nil slice. */
  function AddAttachment(index: AttachmentIndex, item: Item, base: string): AttachmentIndex
  {
    if item.postType != "attachment" then index
    else
      var url := ResolveAttachmentURL(item, base);
      if url == "" then index
      else
        AttachmentIndex(
          index.urlsById[item.postId := url],
          if item.postParent > 0
          then index.urlsByParent[item.postParent := LookupOrEmpty(index.urlsByParent, item.postParent) + [url]]
          else index.urlsByParent)
  }

  /** The index after the loop has seen `items`. */
  function IndexOf(items: seq<Item>, base: string): AttachmentIndex
  {
    if items == [] then EmptyIndex
    else AddAttachment(IndexOf(items[..|items| - 1], base), items[|items| - 1], base)
  }

  /** `buildAttachmentIndex`. */
  method BuildAttachmentIndex(ch: Channel) returns (index: AttachmentIndex)
    ensures index == IndexOf(ch.items, DetermineUploadsBaseURL(ch))
  {
    var urlsById: map<int, string> := map[];
    var urlsByParent: map<int, seq<string>> := map[];
    var base := DetermineUploadsBaseURL(ch);
    for i := 0 to |ch.items|
      invariant AttachmentIndex(urlsById, urlsByParent) == IndexOf(ch.items[..i], base)
    {
      var item := ch.items[i];
      assert ch.items[..i + 1][..i] == ch.items[..i];
      if item.postType != "attachment" {
        continue;
      }
      var url := ResolveAttachmentURL(item, base);
      if url != "" {
        urlsById := urlsById[item.postId := url];
        if item.postParent > 0 {
          urlsByParent := urlsByParent[item.postParent := LookupOrEmpty(urlsByParent, item.postParent) + [url]];
        }
      }
    }
    assert ch.items[..|ch.items|] == ch.items;
    index := AttachmentIndex(urlsById, urlsByParent);
  }

  // ---------------------------------------------------------------------------
  // The upload base URL

  lemma {:induction false} FirstBaseCandidateNoTrailingSlash(candidates: seq<string>)
    ensures var r := FirstBaseCandidate(candidates); r == "" || r[|r| - 1] != '/'
  {
    if candidates != [] && TrimSpace(candidates[0]) == "" {
      FirstBaseCandidateNoTrailingSlash(candidates[1..]);
    }
  }

  /** A non-empty uploads base never ends in "/". */
  lemma UploadsBaseNoTrailingSlash(ch: Channel)
    ensures var r := DetermineUploadsBaseURL(ch); r == "" || r[|r| - 1] != '/'
  {
    FirstBaseCandidateNoTrailingSlash([ch.baseSiteUrl, ch.baseBlogUrl, ch.link]);
  }

  /** The base is the first non-blank candidate with surrounding white space and
      trailing slashes removed; the candidates after it are not looked at. */
  lemma UploadsBaseIsFirstNonBlank(ch: Channel, ch': Channel)
    ensures !IsBlank(ch.baseSiteUrl) ==>
              DetermineUploadsBaseURL(ch) == TrimRightSlashes(TrimSpace(ch.baseSiteUrl))
    ensures IsBlank(ch.baseSiteUrl) && !IsBlank(ch.baseBlogUrl) ==>
              DetermineUploadsBaseURL(ch) == TrimRightSlashes(TrimSpace(ch.baseBlogUrl))
    ensures IsBlank(ch.baseSiteUrl) && IsBlank(ch.baseBlogUrl) ==>
              DetermineUploadsBaseURL(ch) == TrimRightSlashes(TrimSpace(ch.link))
    ensures ch'.baseSiteUrl == ch.baseSiteUrl && !IsBlank(ch.baseSiteUrl) ==>
              DetermineUploadsBaseURL(ch') == DetermineUploadsBaseURL(ch)
  {
    TrimSpaceSpec(ch.baseSiteUrl);
    TrimSpaceSpec(ch.baseBlogUrl);
    TrimSpaceSpec(ch.link);
    var cs := [ch.baseSiteUrl, ch.baseBlogUrl, ch.link];
    assert cs[1..] == [ch.baseBlogUrl, ch.link];
    assert [ch.baseBlogUrl, ch.link][1..] == [ch.link];
    assert [ch.link][1..] == [];
    assert FirstBaseCandidate([ch.link]) == TrimRightSlashes(TrimSpace(ch.link));
    if IsBlank(ch.baseSiteUrl) {
      assert FirstBaseCandidate(cs) == FirstBaseCandidate([ch.baseBlogUrl, ch.link]);
      if IsBlank(ch.baseBlogUrl) {
        assert FirstBaseCandidate([ch.baseBlogUrl, ch.link]) == FirstBaseCandidate([ch.link]);
      }
    }
  }

  /** A first candidate made only of slashes wins and leaves the base empty, even
      when a later candidate holds a URL. */
  lemma SlashOnlyBaseHidesLaterCandidates(ch: Channel)
    requires ch.baseSiteUrl == "/" && ch.baseBlogUrl == "https://example.com"
    ensures DetermineUploadsBaseURL(ch) == ""
  {
    assert TrimSpace("/") == "/";
  }

  // ---------------------------------------------------------------------------
  // Resolving one attachment's URL

  lemma ConstructedURLNonEmpty(base: string, rel: string)
    ensures ConstructedURL(base, rel) != "" && base <= ConstructedURL(base, rel)
  {
  }

  /** An attachment resolves to "" exactly when its attachment URL, link and GUID
      are blank and no URL can be built (no `_wp_attached_file` value or no base). */
  lemma ResolveEmptyIff(item: Item, base: string)
    ensures ResolveAttachmentURL(item, base) == "" <==>
            IsBlank(item.attachmentUrl) && IsBlank(item.link) && IsBlank(item.guid) &&
            (AttachedFile(item) == "" || base == "")
  {
    TrimSpaceSpec(item.attachmentUrl);
    TrimSpaceSpec(item.link);
    TrimSpaceSpec(item.guid);
  }

  /** Resolution order: a non-blank attachment URL beats the link, which beats the
      GUID, which beats the built URL. So a field that wins makes every later one,
      and the base, irrelevant. */
  lemma ResolvePrecedence(item: Item, item': Item, base: string, base': string)
    ensures !IsBlank(item.attachmentUrl) ==>
              ResolveAttachmentURL(item, base) == TrimSpace(item.attachmentUrl)
    ensures IsBlank(item.attachmentUrl) && !IsBlank(item.link) ==>
              ResolveAttachmentURL(item, base) == TrimSpace(item.link)
    ensures IsBlank(item.attachmentUrl) && IsBlank(item.link) && !IsBlank(item.guid) ==>
              ResolveAttachmentURL(item, base) == TrimSpace(item.guid)
    ensures item'.attachmentUrl == item.attachmentUrl && !IsBlank(item.attachmentUrl) ==>
              ResolveAttachmentURL(item', base') == ResolveAttachmentURL(item, base)
  {
    TrimSpaceSpec(item.attachmentUrl);
    TrimSpaceSpec(item.link);
    TrimSpaceSpec(item.guid);
  }

  /** When the three fields are blank, the URL is built as
      `{base}/wp-content/uploads/{rel}` with one leading "/" of `rel` removed. */
  lemma ResolveConstructed(item: Item, base: string)
    requires IsBlank(item.attachmentUrl) && IsBlank(item.link) && IsBlank(item.guid)
    requires AttachedFile(item) != "" && base != ""
    ensures ResolveAttachmentURL(item, base) == base + "/wp-content/uploads/" + TrimPrefix(AttachedFile(item), "/")
  {
    TrimSpaceSpec(item.attachmentUrl);
    TrimSpaceSpec(item.link);
    TrimSpaceSpec(item.guid);
  }

  // ---------------------------------------------------------------------------
  // What the index holds

  /** The item is an attachment with a resolvable URL: only such items enter the index. */
  predicate Contributes(item: Item, base: string)
  {
    item.postType == "attachment" && ResolveAttachmentURL(item, base) != ""
  }

  /** Item `j` is the last contributing attachment with ID `id`. */
  ghost predicate LastWithIdAt(items: seq<Item>, base: string, id: int, j: int)
  {
    0 <= j < |items| && Contributes(items[j], base) && items[j].postId == id &&
    forall j' :: j < j' < |items| ==> !(Contributes(items[j'], base) && items[j'].postId == id)
  }

  /** The URLs, in document order, of the contributing attachments whose parent is `p`. */
  function ParentURLs(items: seq<Item>, base: string, p: int): seq<string>
  {
    if items == [] then []
    else
      (if Contributes(items[0], base) && items[0].postParent == p
       then [ResolveAttachmentURL(items[0], base)] else []) +
      ParentURLs(items[1..], base, p)
  }

  lemma {:induction false} ParentURLsSnoc(items: seq<Item>, x: Item, base: string, p: int)
    ensures ParentURLs(items + [x], base, p) ==
            ParentURLs(items, base, p) +
            (if Contributes(x, base) && x.postParent == p then [ResolveAttachmentURL(x, base)] else [])
  {
    if items != [] {
      assert (items + [x])[1..] == items[1..] + [x];
      ParentURLsSnoc(items[1..], x, base, p);
    }
  }

  /** One step of the loop on the ID map: a contributing attachment sets its ID,
      anything else leaves the map as it was. */
  lemma AddAttachmentById(index: AttachmentIndex, item: Item, base: string, id: int)
    ensures var after := AddAttachment(index, item, base).urlsById;
      if Contributes(item, base) && item.postId == id
      then id in after && after[id] == ResolveAttachmentURL(item, base)
      else (id in after <==> id in index.urlsById) &&
           (id in after ==> after[id] == index.urlsById[id])
  {
  }

  /** `URLsByID[id]` is present exactly when some contributing attachment has ID `id`. */
  lemma {:induction false} IndexByIdDomain(items: seq<Item>, base: string, id: int)
    ensures id in IndexOf(items, base).urlsById <==>
            exists j :: 0 <= j < |items| && Contributes(items[j], base) && items[j].postId == id
  {
    if items != [] {
      var n := |items| - 1;
      var init := items[..n];
      IndexByIdDomain(init, base, id);
      AddAttachmentById(IndexOf(init, base), items[n], base, id);
      assert forall j :: 0 <= j < n ==> items[j] == init[j];
    }
  }

  /** A present `URLsByID[id]` holds the URL of the last contributing attachment
      with that ID (later entries overwrite). */
  lemma {:induction false} IndexByIdValue(items: seq<Item>, base: string, id: int)
    requires id in IndexOf(items, base).urlsById
    ensures exists j :: LastWithIdAt(items, base, id, j) &&
                        IndexOf(items, base).urlsById[id] == ResolveAttachmentURL(items[j], base)
  {
    var n := |items| - 1;
    var init := items[..n];
    var last := items[n];
    var before := IndexOf(init, base);
    assert IndexOf(items, base) == AddAttachment(before, last, base);
    AddAttachmentById(before, last, base, id);
    if Contributes(last, base) && last.postId == id {
      assert LastWithIdAt(items, base, id, n);
    } else {
      IndexByIdValue(init, base, id);
      var j :| LastWithIdAt(init, base, id, j) &&
               before.urlsById[id] == ResolveAttachmentURL(init[j], base);
      assert items[j] == init[j];
      forall j' | j < j' < |items|
        ensures !(Contributes(items[j'], base) && items[j'].postId == id)
      {
        if j' < n {
          assert items[j'] == init[j'];
        }
      }
      assert LastWithIdAt(items, base, id, j);
    }
  }

  /** `URLsByID[id]` is present exactly when some contributing attachment has ID
      `id`, and then holds the URL of the last one. */
  lemma IndexById(items: seq<Item>, base: string, id: int)
    ensures id in IndexOf(items, base).urlsById <==>
            exists j :: 0 <= j < |items| && Contributes(items[j], base) && items[j].postId == id
    ensures id in IndexOf(items, base).urlsById ==>
            exists j :: LastWithIdAt(items, base, id, j) &&
                        IndexOf(items, base).urlsById[id] == ResolveAttachmentURL(items[j], base)
  {
    IndexByIdDomain(items, base, id);
    if id in IndexOf(items, base).urlsById {
      IndexByIdValue(items, base, id);
    }
  }

  /** `URLsByParent[p]` lists, in document order, the URLs of the contributing
      attachments whose parent is `p`; no key `p <= 0` and no empty list is ever stored. */
  lemma {:induction false} IndexByParent(items: seq<Item>, base: string, p: int)
    ensures LookupOrEmpty(IndexOf(items, base).urlsByParent, p) == (if p > 0 then ParentURLs(items, base, p) else [])
    ensures p in IndexOf(items, base).urlsByParent ==> p > 0 && IndexOf(items, base).urlsByParent[p] != []
  {
    if items != [] {
      var n := |items| - 1;
      assert items == items[..n] + [items[n]];
      IndexByParent(items[..n], base, p);
      ParentURLsSnoc(items[..n], items[n], base, p);
    }
  }

  /** Every URL that `ParentURLs` lists is non-empty. */
  lemma {:induction false} ParentURLsNonEmpty(items: seq<Item>, base: string, p: int)
    ensures forall k :: 0 <= k < |ParentURLs(items, base, p)| ==> ParentURLs(items, base, p)[k] != ""
  {
    if items != [] {
      ParentURLsNonEmpty(items[1..], base, p);
    }
  }

  /** Every URL stored in either map is non-empty, and every list under a parent is
      non-empty and has a key greater than zero. */
  lemma IndexWellFormed(items: seq<Item>, base: string)
    ensures forall id :: id in IndexOf(items, base).urlsById ==> IndexOf(items, base).urlsById[id] != ""
    ensures forall p :: p in IndexOf(items, base).urlsByParent ==>
              p > 0 && IndexOf(items, base).urlsByParent[p] != [] &&
              forall k :: 0 <= k < |IndexOf(items, base).urlsByParent[p]| ==> IndexOf(items, base).urlsByParent[p][k] != ""
  {
    var index := IndexOf(items, base);
    forall id | id in index.urlsById ensures index.urlsById[id] != "" {
      IndexById(items, base, id);
    }
    forall p | p in index.urlsByParent
      ensures p > 0 && index.urlsByParent[p] != [] &&
              forall k :: 0 <= k < |index.urlsByParent[p]| ==> index.urlsByParent[p][k] != ""
    {
      IndexByParent(items, base, p);
      ParentURLsNonEmpty(items, base, p);
    }
  }
}
