/** Category and tag extraction (categories.go): the category entries of an
    item split by their domain attribute. */
module Categories {
  import opened Wrappers
  import opened Text
  import opened Document

  /** Which of the two lists an extraction builds. */
  datatype Kind = CategoryKind | TagKind

  /** The domain test: after trimming and lower-casing, "category" or "" (no
      domain attribute) selects a category, "post_tag" selects a tag. */
  predicate InKind(cat: WpCategory, kind: Kind)
  {
    var domain := ToLower(TrimSpace(cat.domain));
    match kind
    case CategoryKind => domain == "category" || domain == ""
    case TagKind => domain == "post_tag"
  }

  /** The name an entry contributes: its trimmed value. */
  function NameOf(cat: WpCategory): string
  {
    TrimSpace(cat.value)
  }

  /** The entry is in the domain and has a non-blank value. */
  predicate Collects(cat: WpCategory, kind: Kind)
  {
    InKind(cat, kind) && NameOf(cat) != ""
  }

  /** The names the extraction loop collects from `cats`, in document order. */
  function Names(cats: seq<WpCategory>, kind: Kind): seq<string>
  {
    if cats == [] then []
    else
      var last := cats[|cats| - 1];
      Names(cats[..|cats| - 1], kind) + (if Collects(last, kind) then [NameOf(last)] else [])
  }

  /** Go's slice grown from `nil` by `append`: nil when nothing was appended. */
  function NilIfEmpty(names: seq<string>): Option<seq<string>>
  {
    if names == [] then None else Some(names)
  }

  /** The loop shared by `ExtractCategories` and `ExtractTags`. */
  method CollectNames(cats: seq<WpCategory>, kind: Kind) returns (r: Option<seq<string>>)
    ensures r == NilIfEmpty(Names(cats, kind))
  {
    var names: seq<string> := [];
    var appended := false;
    for i := 0 to |cats|
      invariant names == Names(cats[..i], kind)
      invariant appended <==> names != []
    {
      assert cats[..i + 1][..i] == cats[..i];
      var cat := cats[i];
      var domain := ToLower(TrimSpace(cat.domain));
      var selected := match kind
        case CategoryKind => domain == "category" || domain == ""
        case TagKind => domain == "post_tag";
      if selected {
        var name := TrimSpace(cat.value);
        if name != "" {
          names := names + [name];
          appended := true;
        }
      }
    }
    assert cats[..|cats|] == cats;
    r := if appended then Some(names) else None;
  }

  /** `CategoryExtractor` has no state. */
  class CategoryExtractor {
    constructor () {}

    /** `ExtractCategories`: nil, or the names of the category entries. */
    method ExtractCategories(item: Item) returns (r: Option<seq<string>>)
      ensures r == NilIfEmpty(Names(item.categories, CategoryKind))
    {
      r := CollectNames(item.categories, CategoryKind);
    }

    /** `ExtractTags`: nil, or the names of the tag entries. */
    method ExtractTags(item: Item) returns (r: Option<seq<string>>)
      ensures r == NilIfEmpty(Names(item.categories, TagKind))
    {
      r := CollectNames(item.categories, TagKind);
    }
  }

  /** The two domain tests are disjoint. */
  lemma KindsDisjoint(cat: WpCategory)
    ensures !(InKind(cat, CategoryKind) && InKind(cat, TagKind))
  {
  }

  /** Every extracted name is non-empty and trimmed, and the list is no longer
      than the entry list. */
  lemma {:induction false} NamesWellFormed(cats: seq<WpCategory>, kind: Kind)
    ensures |Names(cats, kind)| <= |cats|
    ensures forall i :: 0 <= i < |Names(cats, kind)| ==>
              Names(cats, kind)[i] != "" && IsTrimmed(Names(cats, kind)[i])
  {
    if cats != [] {
      var last := cats[|cats| - 1];
      NamesWellFormed(cats[..|cats| - 1], kind);
      TrimSpaceSpec(last.value);
    }
  }

  /** A name is extracted exactly when some entry of the right domain carries it
      (trimmed): nothing is invented and nothing of the domain is lost. */
  lemma {:induction false} NamesMembership(cats: seq<WpCategory>, kind: Kind, name: string)
    ensures name in Names(cats, kind) <==>
            exists j :: 0 <= j < |cats| && Collects(cats[j], kind) && NameOf(cats[j]) == name
  {
    if cats != [] {
      var init := cats[..|cats| - 1];
      NamesMembership(init, kind, name);
      assert forall j :: 0 <= j < |init| ==> init[j] == cats[j];
    }
  }

  /** Extraction distributes over concatenation, so document order is kept. */
  lemma {:induction false} NamesAppend(a: seq<WpCategory>, b: seq<WpCategory>, kind: Kind)
    ensures Names(a + b, kind) == Names(a, kind) + Names(b, kind)
  {
    if b == [] {
      assert a + b == a;
    } else {
      var last := b[|b| - 1];
      assert (a + b)[..|a + b| - 1] == a + b[..|b| - 1];
      NamesAppend(a, b[..|b| - 1], kind);
    }
  }

  /** No entry is counted in both lists, so together they are no longer than the entry list. */
  lemma {:induction false} CategoriesAndTagsDisjoint(cats: seq<WpCategory>)
    ensures |Names(cats, CategoryKind)| + |Names(cats, TagKind)| <= |cats|
  {
    if cats != [] {
      CategoriesAndTagsDisjoint(cats[..|cats| - 1]);
      KindsDisjoint(cats[|cats| - 1]);
    }
  }

  /** Extraction from a single entry. */
  lemma NamesOne(cat: WpCategory, kind: Kind)
    ensures Names([cat], kind) == if Collects(cat, kind) then [NameOf(cat)] else []
  {
    assert [cat][..0] == [];
  }

  /** An entry with a literal "category" or "post_tag" domain and a trimmed,
      non-empty value is collected for that domain, under its value. */
  lemma LiteralEntry(domain: string, value: string, niceName: string)
    requires domain == "category" || domain == "post_tag"
    requires value != [] && !IsSpace(value[0]) && !IsSpace(value[|value| - 1])
    ensures Collects(WpCategory(domain, value, niceName), if domain == "category" then CategoryKind else TagKind)
    ensures NameOf(WpCategory(domain, value, niceName)) == value
  {
    assert !IsSpace(domain[0]) && !IsSpace(domain[|domain| - 1]);
    TrimSpaceSpec(domain);
    TrimSpaceSpec(value);
    assert ToLower(domain) == domain;
  }

  /** An entry collected for one kind contributes its name to that list and nothing to the other. */
  lemma OneEntry(cat: WpCategory, kind: Kind, other: Kind)
    requires Collects(cat, kind) && other != kind
    ensures Names([cat], kind) == [NameOf(cat)] && Names([cat], other) == []
  {
    KindsDisjoint(cat);
    NamesOne(cat, kind);
    NamesOne(cat, other);
  }

  /** Extraction from two entries. */
  lemma TwoEntries(c0: WpCategory, c1: WpCategory, kind: Kind)
    ensures Names([c0, c1], kind) == Names([c0], kind) + Names([c1], kind)
  {
    assert [c0, c1][..1] == [c0];
  }

  /** Two category entries followed by two tag entries split into two lists of two. */
  lemma TwoAndTwo(c0: WpCategory, c1: WpCategory, t0: WpCategory, t1: WpCategory)
    requires Collects(c0, CategoryKind) && Collects(c1, CategoryKind)
    requires Collects(t0, TagKind) && Collects(t1, TagKind)
    ensures Names([c0, c1, t0, t1], CategoryKind) == [NameOf(c0), NameOf(c1)]
    ensures Names([c0, c1, t0, t1], TagKind) == [NameOf(t0), NameOf(t1)]
  {
    OneEntry(c0, CategoryKind, TagKind);
    OneEntry(c1, CategoryKind, TagKind);
    OneEntry(t0, TagKind, CategoryKind);
    OneEntry(t1, TagKind, CategoryKind);
    TwoEntries(c0, c1, CategoryKind);
    TwoEntries(c0, c1, TagKind);
    TwoEntries(t0, t1, CategoryKind);
    TwoEntries(t0, t1, TagKind);
    assert [c0, c1, t0, t1] == [c0, c1] + [t0, t1];
    NamesAppend([c0, c1], [t0, t1], CategoryKind);
    NamesAppend([c0, c1], [t0, t1], TagKind);
  }

  /** Two "category" and two "post_tag" entries land in their own lists. */
  lemma CategoriesAndTagsExample()
    ensures var cats := [WpCategory("category", "Technology", "tech"), WpCategory("category", "News", "news"),
                         WpCategory("post_tag", "Go", "golang"), WpCategory("post_tag", "Programming", "programming")];
      Names(cats, CategoryKind) == ["Technology", "News"] && Names(cats, TagKind) == ["Go", "Programming"]
  {
    LiteralEntry("category", "Technology", "tech");
    LiteralEntry("category", "News", "news");
    LiteralEntry("post_tag", "Go", "golang");
    LiteralEntry("post_tag", "Programming", "programming");
    TwoAndTwo(WpCategory("category", "Technology", "tech"), WpCategory("category", "News", "news"),
              WpCategory("post_tag", "Go", "golang"), WpCategory("post_tag", "Programming", "programming"));
  }
}
