/** The filter bar: each button turns the store's current filter into the
    filter it then hands to `SetFilter`. */
module FilterBar {
  import opened Wrappers
  import opened Seqs
  import opened DocumentTypes
  import DocumentStore

  /** The sub-categories offered under each main category, in display order. */
  function SubCategoriesByMain(m: MainCategory): (r: seq<SubCategory>)
    ensures |r| > 0
    ensures Divers in r
    ensures r[|r| - 1] == Divers
    ensures NoDuplicates(r)
  {
    match m
    case Comptabilite => [Achat, Ventes, Banque, Fiscal, Divers]
    case Juridique => [Contrats, Statuts, Assemblees, Divers]
    case Social => [Paie, Conges, Formation, Divers]
  }

  /** The label shown for a sub-category: never empty, and capitalised. The
      source's fallback for an unknown value cannot arise, since every
      sub-category has a case. */
  function SubCategoryLabel(s: SubCategory): (r: string)
    ensures |r| > 0 && 'A' <= r[0] <= 'Z'
  {
    match s
    case Achat => "Achat"
    case Ventes => "Ventes"
    case Banque => "Banque"
    case Fiscal => "Fiscal"
    case Divers => "Divers"
    case Contrats => "Contrats"
    case Statuts => "Statuts"
    case Assemblees => "Assemblées"
    case Paie => "Paie"
    case Conges => "Congés"
    case Formation => "Formation"
  }

  /** Different sub-categories carry different labels, so a label on screen
      names exactly one sub-category. */
  lemma SubCategoryLabelsDistinct(s1: SubCategory, s2: SubCategory)
    requires s1 != s2
    ensures SubCategoryLabel(s1) != SubCategoryLabel(s2)
  {
  }

  /** Choosing a main category ("All" is `None`) always forgets the
      sub-category. */
  function HandleMainCategorySelect(f: DocumentFilter, c: Option<MainCategory>): (r: DocumentFilter)
    ensures r.mainCategory == c
    ensures r.subCategory.None?
    ensures AgreeExcept(f, r, {MainCategoryField, SubCategoryField})
  {
    f.(mainCategory := c, subCategory := None)
  }

  function HandleSubCategorySelect(f: DocumentFilter, s: Option<SubCategory>): (r: DocumentFilter)
    ensures r.subCategory == s
    ensures AgreeExcept(f, r, {SubCategoryField})
  {
    f.(subCategory := s)
  }

  function HandleFileTypeSelect(f: DocumentFilter, t: Option<FileType>): (r: DocumentFilter)
    ensures r.fileType == t
    ensures AgreeExcept(f, r, {FileTypeField})
  {
    f.(fileType := t)
  }

  /** Choosing a sort key sorts by it ascending, unless it was already the
      key in ascending order, in which case the order turns descending. */
  function HandleSortSelect(f: DocumentFilter, k: SortKey): (r: DocumentFilter)
    ensures r.sortBy == Some(k)
    ensures r.sortOrder == Some(Desc) <==> f.sortBy == Some(k) && f.sortOrder == Some(Asc)
    ensures r.sortOrder == Some(Asc) <==> !(f.sortBy == Some(k) && f.sortOrder == Some(Asc))
    ensures AgreeExcept(f, r, {SortByField, SortOrderField})
  {
    f.(sortBy := Some(k),
       sortOrder := if f.sortBy == Some(k) && f.sortOrder == Some(Asc) then Some(Desc) else Some(Asc))
  }

  /** The favourite criterion cycles: any, favourites only, non-favourites
      only, any again. */
  function HandleFavoriteToggle(f: DocumentFilter): (r: DocumentFilter)
    ensures f.favorite == None ==> r.favorite == Some(true)
    ensures f.favorite == Some(true) ==> r.favorite == Some(false)
    ensures f.favorite == Some(false) ==> r.favorite == None
    ensures AgreeExcept(f, r, {FavoriteField})
  {
    f.(favorite := match f.favorite
                   case None => Some(true)
                   case Some(b) => if b then Some(false) else None)
  }

  /** The filter "Clear" installs: newest first, nothing else set. */
  function ClearFilters(): (r: DocumentFilter)
    ensures r.sortBy == Some(Date) && r.sortOrder == Some(Desc)
    ensures r.mainCategory.None? && r.subCategory.None? && r.fileType.None?
    ensures r.searchQuery.None? && r.tags.None? && r.favorite.None?
  {
    DocumentFilter(None, None, None, None, None, None, Some(Date), Some(Desc))
  }

  /** Whether the filter narrows by category, file type or favourites; the
      search text, tags and sorting do not count. */
  predicate HasActiveFilters(f: DocumentFilter) {
    f.mainCategory.Some? || f.subCategory.Some? || f.fileType.Some? || f.favorite.Some?
  }

  /** `HasActiveFilters` looks at the four narrowing criteria only: it holds
      exactly when one is set, and the other fields cannot change it. */
  lemma ActiveFiltersCharacterised(f: DocumentFilter, g: DocumentFilter)
    requires AgreeExcept(f, g, {SearchQueryField, TagsField, SortByField, SortOrderField})
    ensures HasActiveFilters(f) <==> HasActiveFilters(g)
    ensures !HasActiveFilters(f) <==>
              f.mainCategory == None && f.subCategory == None && f.fileType == None && f.favorite == None
  {
  }

  /** "Clear" restores the store's initial filter, which has no active
      criterion. */
  lemma ClearRestoresInitialFilter()
    ensures ClearFilters() == DocumentStore.InitialFilter
    ensures !HasActiveFilters(ClearFilters())
  {
  }

  /** The favourite cycle has period three: one or two presses change the
      criterion, three presses give back the same filter. */
  lemma FavoriteCycleHasPeriodThree(f: DocumentFilter)
    ensures HandleFavoriteToggle(f).favorite != f.favorite
    ensures HandleFavoriteToggle(HandleFavoriteToggle(f)).favorite != f.favorite
    ensures HandleFavoriteToggle(HandleFavoriteToggle(HandleFavoriteToggle(f))) == f
  {
  }

  /** Pressing the same sort key again flips between ascending and
      descending and keeps everything else. */
  lemma SortSelectAgainFlipsOrder(f: DocumentFilter, k: SortKey)
    ensures var r1 := HandleSortSelect(f, k);
            var r2 := HandleSortSelect(r1, k);
      && r2.sortBy == Some(k)
      && (r1.sortOrder == Some(Asc) <==> r2.sortOrder == Some(Desc))
      && (r1.sortOrder == Some(Desc) <==> r2.sortOrder == Some(Asc))
      && AgreeExcept(f, r2, {SortByField, SortOrderField})
  {
  }

  /** Choosing a main category and then one of its sub-categories yields a
      filter whose sub-category belongs to its main category. */
  lemma MainThenSubIsConsistent(f: DocumentFilter, m: MainCategory, i: nat)
    requires i < |SubCategoriesByMain(m)|
    ensures var r := HandleSubCategorySelect(HandleMainCategorySelect(f, Some(m)), Some(SubCategoriesByMain(m)[i]));
      && r.mainCategory == Some(m)
      && r.subCategory.value in SubCategoriesByMain(r.mainCategory.value)
  {
  }

  /** Only "divers" is shared between main categories; every other
      sub-category is offered under exactly one of them. */
  lemma OnlyDiversIsShared(s: SubCategory, m1: MainCategory, m2: MainCategory)
    requires s in SubCategoriesByMain(m1) && s in SubCategoriesByMain(m2)
    requires m1 != m2
    ensures s == Divers
  {
    assert SubCategoriesByMain(Comptabilite) == [Achat, Ventes, Banque, Fiscal, Divers];
    assert SubCategoriesByMain(Juridique) == [Contrats, Statuts, Assemblees, Divers];
    assert SubCategoriesByMain(Social) == [Paie, Conges, Formation, Divers];
  }
}
