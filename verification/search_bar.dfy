/** The search box: the text it shows and the filter's search criterion,
    which it keeps in step with that text. */
module SearchBar {
  import opened Wrappers
  import opened DocumentTypes
  import FilterBar

  /** The box's starting text: the filter's search text, or nothing when the
      filter has none. */
  function InitialText(f: DocumentFilter): (r: string)
    ensures f.searchQuery.Some? ==> r == f.searchQuery.value
    ensures f.searchQuery.None? ==> r == []
  {
    f.searchQuery.GetOr([])
  }

  /** Typing: the text becomes the search criterion, an empty text none. */
  function HandleSearch(f: DocumentFilter, text: string): (r: DocumentFilter)
    ensures text == [] ==> r.searchQuery.None?
    ensures text != [] ==> r.searchQuery == Some(text)
    ensures AgreeExcept(f, r, {SearchQueryField})
  {
    f.(searchQuery := if text == [] then None else Some(text))
  }

  /** The clear button drops the search criterion. */
  function ClearSearch(f: DocumentFilter): (r: DocumentFilter)
    ensures r.searchQuery.None?
    ensures AgreeExcept(f, r, {SearchQueryField})
  {
    f.(searchQuery := None)
  }

  /** The box shows `text` and the filter searches for exactly that text
      (no criterion when the box is empty). */
  predicate Mirrors(text: string, f: DocumentFilter) {
    (text == [] && f.searchQuery.None?) || (text != [] && f.searchQuery == Some(text))
  }

  /** Both handlers leave the box and the filter in step. */
  lemma HandlersKeepMirror(f: DocumentFilter, text: string)
    ensures Mirrors(text, HandleSearch(f, text))
    ensures Mirrors([], ClearSearch(f))
  {
  }

  /** The starting text mirrors the filter unless the stored criterion is
      the empty string. */
  lemma InitialTextMirrors(f: DocumentFilter)
    ensures Mirrors(InitialText(f), f) <==> f.searchQuery != Some([])
  {
  }

  /** Clearing twice is clearing once, and clearing undoes any typing. */
  lemma ClearSearchIdempotent(f: DocumentFilter, text: string)
    ensures ClearSearch(ClearSearch(f)) == ClearSearch(f)
    ensures ClearSearch(HandleSearch(f, text)) == ClearSearch(f)
  {
  }

  /** The filter bar's selection buttons never touch the search criterion,
      so they keep the box and the filter in step. */
  lemma FilterBarButtonsKeepMirror(text: string, f: DocumentFilter, m: Option<MainCategory>,
                                   s: Option<SubCategory>, t: Option<FileType>, k: SortKey)
    requires Mirrors(text, f)
    ensures Mirrors(text, FilterBar.HandleMainCategorySelect(f, m))
    ensures Mirrors(text, FilterBar.HandleSubCategorySelect(f, s))
    ensures Mirrors(text, FilterBar.HandleFileTypeSelect(f, t))
    ensures Mirrors(text, FilterBar.HandleSortSelect(f, k))
    ensures Mirrors(text, FilterBar.HandleFavoriteToggle(f))
  {
  }

  /** The filter bar's "Clear" drops the search criterion without emptying
      the box, so a non-empty box no longer matches the filter. */
  lemma ClearFiltersLeavesTextBehind(text: string, f: DocumentFilter)
    requires Mirrors(text, f) && text != []
    ensures !Mirrors(text, FilterBar.ClearFilters())
  {
  }
}
