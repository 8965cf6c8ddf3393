/** Item filters (filter.go). A parser stores one, but the parse loops do not
    consult it (see `Wxr.Parser`). */
module Filters {
  import opened Document

  /** `DefaultFilter`: an empty field accepts any value. */
  datatype DefaultFilter = DefaultFilter(postType: string, status: string)

  /** A value of Go's `Filter` interface: the default filter or some other
      implementation, identified only by a number. */
  datatype Filter = Default(filter: DefaultFilter) | Custom(id: nat)

  /** `DefaultFilter.ShouldInclude`: each non-empty field must equal the item's
      field exactly. */
  predicate ShouldInclude(f: DefaultFilter, item: Item)
  {
    if f.postType != "" && item.postType != f.postType then false
    else if f.status != "" && item.status != f.status then false
    else true
  }

  /** `NewDefaultFilter`: published posts only. */
  function NewDefaultFilter(): DefaultFilter
  {
    DefaultFilter("post", "publish")
  }

  /** The filter accepts an item exactly when every non-empty field agrees with it. */
  lemma ShouldIncludeIff(f: DefaultFilter, item: Item)
    ensures ShouldInclude(f, item) <==>
            (f.postType == "" || f.postType == item.postType) && (f.status == "" || f.status == item.status)
  {
  }

  /** The default filter accepts exactly the items of type "post" with status "publish". */
  lemma DefaultFilterAcceptsExactly(item: Item)
    ensures ShouldInclude(NewDefaultFilter(), item) <==> item.postType == "post" && item.status == "publish"
  {
  }

  /** The zero filter accepts every item. */
  lemma ZeroFilterAcceptsAll(item: Item)
    ensures ShouldInclude(DefaultFilter("", ""), item)
  {
  }

  /** Clearing a field never rejects an item that was accepted. */
  lemma ClearingFieldsWidens(f: DefaultFilter, item: Item)
    requires ShouldInclude(f, item)
    ensures ShouldInclude(f.(postType := ""), item) && ShouldInclude(f.(status := ""), item)
  {
  }

  /** The comparison is exact: case and white space matter. */
  lemma ComparisonIsExact()
    ensures !ShouldInclude(NewDefaultFilter(), EmptyItem.(postType := "Post", status := "publish"))
    ensures !ShouldInclude(NewDefaultFilter(), EmptyItem.(postType := "post", status := " publish"))
  {
  }
}
