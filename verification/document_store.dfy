/** The document store: the list of documents and the current filter, with
    the operations the screens call. The clock reading, the generated id and
    the current company's id are passed in rather than read from globals. */
module DocumentStore {
  import opened Wrappers
  import opened Seqs
  import opened DocumentTypes

  datatype DocumentState = DocumentState(documents: seq<Document>, filter: DocumentFilter)

  /** What a caller supplies to add a document: every field except the id,
      the two timestamps and the owning company, which the store fills in. */
  datatype DocumentDraft = DocumentDraft(
    title: string,
    mainCategory: MainCategory,
    subCategory: Option<SubCategory>,
    fileType: FileType,
    imageUri: string,
    tags: seq<string>,
    notes: Option<string>,
    amount: Option<real>,
    currency: Option<string>,
    favorite: bool,
    processed: bool)

  /** A partial document for `updateDocument`: `None` leaves a field alone;
      for an optional field, `Some(None)` clears it. */
  datatype DocumentPatch = DocumentPatch(
    id: Option<string>,
    title: Option<string>,
    mainCategory: Option<MainCategory>,
    subCategory: Option<Option<SubCategory>>,
    fileType: Option<FileType>,
    imageUri: Option<string>,
    createdAt: Option<int>,
    updatedAt: Option<int>,
    tags: Option<seq<string>>,
    notes: Option<Option<string>>,
    amount: Option<Option<real>>,
    currency: Option<Option<string>>,
    favorite: Option<bool>,
    processed: Option<bool>,
    companyId: Option<string>)

  /** The filter the store starts with: newest first, nothing else set. */
  const InitialFilter: DocumentFilter :=
    DocumentFilter(None, None, None, None, None, None, Some(Date), Some(Desc))

  const InitialState: DocumentState := DocumentState([], InitialFilter)

  /** The store starts with no documents, sorted newest first, with no
      narrowing criterion. */
  lemma InitialStateIsEmpty()
    ensures InitialState.documents == []
    ensures InitialState.filter.sortBy == Some(Date) && InitialState.filter.sortOrder == Some(Desc)
    ensures AgreeExcept(InitialState.filter, DocumentFilter(None, None, None, None, None, None, None, None),
                        {SortByField, SortOrderField})
  {
  }

  /** The caller-supplied part of a document. */
  function DraftOf(d: Document): DocumentDraft {
    DocumentDraft(d.title, d.mainCategory, d.subCategory, d.fileType, d.imageUri,
                  d.tags, d.notes, d.amount, d.currency, d.favorite, d.processed)
  }

  /** Appends a new document owned by the current company; with no current
      company nothing happens. */
  function AddDocument(st: DocumentState, draft: DocumentDraft, currentCompanyId: Option<string>,
                       id: string, now: int): (r: DocumentState)
    ensures r.filter == st.filter
    ensures currentCompanyId.None? ==> r.documents == st.documents
    ensures currentCompanyId.Some? ==>
      && |r.documents| == |st.documents| + 1
      && r.documents[..|st.documents|] == st.documents
      && var d := r.documents[|st.documents|];
         && DraftOf(d) == draft
         && d.id == id
         && d.companyId == currentCompanyId.value
         && d.createdAt == now
         && d.updatedAt == now
  {
    match currentCompanyId
    case None => st
    case Some(companyId) =>
      var d := Document(id, draft.title, draft.mainCategory, draft.subCategory, draft.fileType,
                        draft.imageUri, now, now, draft.tags, draft.notes, draft.amount,
                        draft.currency, draft.favorite, draft.processed, companyId);
      st.(documents := st.documents + [d])
  }

  /** Spreads the patch over a document: every field the patch supplies
      wins, the others keep their value, and the update time is always the
      clock reading, whatever the patch says. */
  function ApplyPatch(d: Document, u: DocumentPatch, now: int): (r: Document)
    ensures Overlaid(u.id, d.id, r.id)
    ensures Overlaid(u.title, d.title, r.title)
    ensures Overlaid(u.mainCategory, d.mainCategory, r.mainCategory)
    ensures Overlaid(u.subCategory, d.subCategory, r.subCategory)
    ensures Overlaid(u.fileType, d.fileType, r.fileType)
    ensures Overlaid(u.imageUri, d.imageUri, r.imageUri)
    ensures Overlaid(u.createdAt, d.createdAt, r.createdAt)
    ensures Overlaid(u.tags, d.tags, r.tags)
    ensures Overlaid(u.notes, d.notes, r.notes)
    ensures Overlaid(u.amount, d.amount, r.amount)
    ensures Overlaid(u.currency, d.currency, r.currency)
    ensures Overlaid(u.favorite, d.favorite, r.favorite)
    ensures Overlaid(u.processed, d.processed, r.processed)
    ensures Overlaid(u.companyId, d.companyId, r.companyId)
    ensures r.updatedAt == now
  {
    Document(u.id.GetOr(d.id), u.title.GetOr(d.title), u.mainCategory.GetOr(d.mainCategory),
             u.subCategory.GetOr(d.subCategory), u.fileType.GetOr(d.fileType),
             u.imageUri.GetOr(d.imageUri), u.createdAt.GetOr(d.createdAt), now,
             u.tags.GetOr(d.tags), u.notes.GetOr(d.notes), u.amount.GetOr(d.amount),
             u.currency.GetOr(d.currency), u.favorite.GetOr(d.favorite),
             u.processed.GetOr(d.processed), u.companyId.GetOr(d.companyId))
  }

  /** Merges `u` into every document with the given id. The clock is read
      afresh for each matching document: `clock(i)` is the reading taken for
      the document at position `i`. */
  function UpdateDocument(st: DocumentState, id: string, u: DocumentPatch, clock: nat -> int): (r: DocumentState)
    ensures r.filter == st.filter
    ensures |r.documents| == |st.documents|
    ensures forall i :: 0 <= i < |st.documents| && st.documents[i].id != id ==>
              r.documents[i] == st.documents[i]
    ensures forall i :: 0 <= i < |st.documents| && st.documents[i].id == id ==>
              r.documents[i] == ApplyPatch(st.documents[i], u, clock(i))
  {
    var docs := st.documents;
    st.(documents := seq(|docs|, i requires 0 <= i < |docs| =>
                           if docs[i].id == id then ApplyPatch(docs[i], u, clock(i)) else docs[i]))
  }

  /** Removes every document with the given id and nothing else. */
  function DeleteDocument(st: DocumentState, id: string): (r: DocumentState)
    ensures r.filter == st.filter
    ensures forall d :: d in r.documents <==> d in st.documents && d.id != id
    ensures forall d: Document :: d.id != id ==> multiset(r.documents)[d] == multiset(st.documents)[d]
    ensures SubsequenceOf(r.documents, st.documents)
  {
    st.(documents := Filter(st.documents, (d: Document) => d.id != id))
  }

  /** Replaces the whole filter; nothing of the old filter survives. */
  function SetFilter(st: DocumentState, filter: DocumentFilter): (r: DocumentState)
    ensures r.filter == filter
    ensures r.documents == st.documents
  {
    st.(filter := filter)
  }

  /** Flips the favourite flag of every document with the given id and
      stamps its update time with a clock reading of its own, `clock(i)` for
      the document at position `i`. */
  function ToggleFavorite(st: DocumentState, id: string, clock: nat -> int): (r: DocumentState)
    ensures r.filter == st.filter
    ensures |r.documents| == |st.documents|
    ensures forall i :: 0 <= i < |st.documents| && st.documents[i].id != id ==>
              r.documents[i] == st.documents[i]
    ensures forall i :: 0 <= i < |st.documents| && st.documents[i].id == id ==>
              && r.documents[i].favorite == !st.documents[i].favorite
              && r.documents[i].updatedAt == clock(i)
              && r.documents[i] == st.documents[i].(favorite := r.documents[i].favorite,
                                                    updatedAt := clock(i))
  {
    var docs := st.documents;
    st.(documents := seq(|docs|, i requires 0 <= i < |docs| =>
                           if docs[i].id == id
                           then docs[i].(favorite := !docs[i].favorite, updatedAt := clock(i))
                           else docs[i]))
  }

  /** The documents of the current company, in list order; none when there
      is no current company. */
  function GetCompanyDocuments(st: DocumentState, currentCompanyId: Option<string>): (r: seq<Document>)
    ensures currentCompanyId.None? ==> r == []
    ensures currentCompanyId.Some? ==>
      && (forall d :: d in r <==> d in st.documents && d.companyId == currentCompanyId.value)
      && (forall d: Document :: d.companyId == currentCompanyId.value ==>
            multiset(r)[d] == multiset(st.documents)[d])
      && SubsequenceOf(r, st.documents)
  {
    match currentCompanyId
    case None => []
    case Some(companyId) => Filter(st.documents, (d: Document) => d.companyId == companyId)
  }

  /** Updating an id that no document carries changes nothing. */
  lemma UpdateAbsentId(st: DocumentState, id: string, u: DocumentPatch, clock: nat -> int)
    requires forall d :: d in st.documents ==> d.id != id
    ensures UpdateDocument(st, id, u, clock) == st
  {
    var r := UpdateDocument(st, id, u, clock);
    assert forall i :: 0 <= i < |st.documents| ==> st.documents[i] in st.documents;
    assert r.documents == st.documents;
  }

  /** Toggling an id that no document carries changes nothing. */
  lemma ToggleAbsentId(st: DocumentState, id: string, clock: nat -> int)
    requires forall d :: d in st.documents ==> d.id != id
    ensures ToggleFavorite(st, id, clock) == st
  {
    var r := ToggleFavorite(st, id, clock);
    assert forall i :: 0 <= i < |st.documents| ==> st.documents[i] in st.documents;
    assert r.documents == st.documents;
  }

  /** Deleting an id that no document carries changes nothing. */
  lemma DeleteAbsentId(st: DocumentState, id: string)
    requires forall d :: d in st.documents ==> d.id != id
    ensures DeleteDocument(st, id) == st
  {
    FilterKeepsAll(st.documents, (d: Document) => d.id != id);
  }

  /** Toggling the same id twice restores every favourite flag; only the
      update times of the toggled documents move. */
  lemma ToggleTwiceRestoresFavorites(st: DocumentState, id: string, c1: nat -> int, c2: nat -> int)
    ensures var r := ToggleFavorite(ToggleFavorite(st, id, c1), id, c2);
      && |r.documents| == |st.documents|
      && forall i :: 0 <= i < |st.documents| ==>
           r.documents[i] == (if st.documents[i].id == id
                              then st.documents[i].(updatedAt := c2(i))
                              else st.documents[i])
  {
  }

  /** When the clock has not gone backwards, an update never decreases a
      document's update time. */
  lemma UpdateKeepsTimeMonotone(st: DocumentState, id: string, u: DocumentPatch, clock: nat -> int)
    requires forall i :: 0 <= i < |st.documents| ==> st.documents[i].updatedAt <= clock(i)
    ensures var r := UpdateDocument(st, id, u, clock);
      forall i :: 0 <= i < |st.documents| ==> st.documents[i].updatedAt <= r.documents[i].updatedAt
  {
  }

  /** When the clock has not gone backwards, toggling a favourite never
      decreases a document's update time. */
  lemma ToggleKeepsTimeMonotone(st: DocumentState, id: string, clock: nat -> int)
    requires forall i :: 0 <= i < |st.documents| ==> st.documents[i].updatedAt <= clock(i)
    ensures var r := ToggleFavorite(st, id, clock);
      forall i :: 0 <= i < |st.documents| ==> st.documents[i].updatedAt <= r.documents[i].updatedAt
  {
  }

  /** Setting a filter twice keeps only the second: the store replaces,
      it does not merge. */
  lemma SetFilterReplaces(st: DocumentState, f: DocumentFilter, g: DocumentFilter)
    ensures SetFilter(SetFilter(st, f), g) == SetFilter(st, g)
  {
  }

  /** An added document shows up at the end of its company's view and in no
      other company's view. */
  lemma AddShowsInOwnCompanyOnly(st: DocumentState, draft: DocumentDraft, companyId: string,
                                 id: string, now: int, other: string)
    requires other != companyId
    ensures var r := AddDocument(st, draft, Some(companyId), id, now);
      && GetCompanyDocuments(r, Some(companyId)) ==
           GetCompanyDocuments(st, Some(companyId)) + [r.documents[|st.documents|]]
      && GetCompanyDocuments(r, Some(other)) == GetCompanyDocuments(st, Some(other))
  {
    var r := AddDocument(st, draft, Some(companyId), id, now);
    var d := r.documents[|st.documents|];
    assert r.documents == st.documents + [d];
    var own := (x: Document) => x.companyId == companyId;
    var others := (x: Document) => x.companyId == other;
    FilterAppend(st.documents, [d], own);
    FilterAppend(st.documents, [d], others);
    assert Filter([d], own) == [d];
    assert Filter([d], others) == [];
  }
}
