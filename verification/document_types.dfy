/** The document records and the document filter of the application. */
module DocumentTypes {
  import opened Wrappers

  /** The three main categories: accounting, legal and social. */
  datatype MainCategory = Comptabilite | Juridique | Social

  /** Sub-categories; which ones are offered depends on the main category. */
  datatype SubCategory =
    | Achat | Ventes | Banque | Fiscal | Divers
    | Contrats | Statuts | Assemblees
    | Paie | Conges | Formation

  datatype FileType = Pdf | Image | Xls | Doc | Other

  /** The keys a document list can be sorted by. */
  datatype SortKey = Date | Title | Amount

  datatype SortOrder = Asc | Desc

  /** A scanned document. Timestamps are milliseconds since the epoch; the
      amount is stored and never computed with. */
  datatype Document = Document(
    id: string,
    title: string,
    mainCategory: MainCategory,
    subCategory: Option<SubCategory>,
    fileType: FileType,
    imageUri: string,
    createdAt: int,
    updatedAt: int,
    tags: seq<string>,
    notes: Option<string>,
    amount: Option<real>,
    currency: Option<string>,
    favorite: bool,
    processed: bool,
    companyId: string)

  /** The view state of the document list; every criterion is optional. */
  datatype DocumentFilter = DocumentFilter(
    mainCategory: Option<MainCategory>,
    subCategory: Option<SubCategory>,
    fileType: Option<FileType>,
    searchQuery: Option<string>,
    tags: Option<seq<string>>,
    favorite: Option<bool>,
    sortBy: Option<SortKey>,
    sortOrder: Option<SortOrder>)

  /** Names of the filter's fields, for saying which ones an update touches. */
  datatype FilterField =
    | MainCategoryField | SubCategoryField | FileTypeField | SearchQueryField
    | TagsField | FavoriteField | SortByField | SortOrderField

  /** `f` and `g` agree on every field not named in `changed`. */
  predicate AgreeExcept(f: DocumentFilter, g: DocumentFilter, changed: set<FilterField>) {
    && (MainCategoryField !in changed ==> f.mainCategory == g.mainCategory)
    && (SubCategoryField !in changed ==> f.subCategory == g.subCategory)
    && (FileTypeField !in changed ==> f.fileType == g.fileType)
    && (SearchQueryField !in changed ==> f.searchQuery == g.searchQuery)
    && (TagsField !in changed ==> f.tags == g.tags)
    && (FavoriteField !in changed ==> f.favorite == g.favorite)
    && (SortByField !in changed ==> f.sortBy == g.sortBy)
    && (SortOrderField !in changed ==> f.sortOrder == g.sortOrder)
  }
}
