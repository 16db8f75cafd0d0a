# Document scanner state core, modelled in Dafny

This project models the business logic of a mobile app for scanning and filing business documents for several companies. All of that logic is pure state transitions over immutable records:

- **Document store** (`DocumentStore`). It holds the document list and the current list filter, with add, update, delete, toggle-favourite, replace-filter and the company-scoped view.
- **Session store** (`AuthStore`). It holds the signed-in user, the known companies and the current company, with sign-in, sign-out, switch, add and remove company, user merge and the onboarding flag. `Action`, `Step` and `Run` replay any sequence of these calls.
- **Filter bar** (`FilterBar`), **search box** (`SearchBar`), **tag editor** (`TagInput`) and **category picker** (`CategorySelector`). Each button handler is a function from the old filter, tag list or selection to the new one.
- **Records** (`DocumentTypes`, `AuthTypes`). `Document`, `DocumentFilter` and the category, file-type and sort enumerations, plus `User`, `Company` and `AuthState`. Optional fields are `Option`s.

Two generic modules support them. `Wrappers` holds `Option` and `Overlaid`, the meaning of an object spread on one field. `Seqs` holds `Filter`, `Find`, `SubsequenceOf` and `NoDuplicates`: `Array.prototype.filter`, `Array.prototype.find` and the words needed to state what they do.

Hidden inputs are parameters:
- the clock: one reading `now` where the code reads it once, and a reading per list position (`clock: nat -> int`) where it reads it once per matching document;
- the generated id of a new document or company;
- the current company's id, which the document store would otherwise read from the session store.

A partial record (`Partial<Document>`, `Partial<User>`) is a patch datatype. `None` leaves a field alone. For an optional field, `Some(None)` is an explicit `undefined`, which clears it.

Some facts about the code that shape the model:
- `removeCompany` and `deleteDocument` drop every entry with the id (`RemoveCompany`, `DeleteDocument`).
- The store does not keep a document's tags duplicate-free; only the tag editor does (`TagInput.AddTag`, `TagInput.RemoveTag`).
- Updates stamp whatever the clock reads, so `UpdateKeepsTimeMonotone` and `ToggleKeepsTimeMonotone` assume the clock has not gone backwards.
- Removing a company leaves its documents in place.

## Model

| member | source | states |
|---|---|---|
| DocumentStore.InitialStateIsEmpty | store/document-store.ts:21-25 | The store starts with no documents and a filter that sorts by date, descending, with every other field unset. |
| DocumentStore.AddDocument | store/document-store.ts:27-43 | With no current company the list is unchanged. Otherwise exactly one document is appended after an untouched prefix. It carries the caller's fields, the given id, the current company's id, and the clock as both creation and update time. The filter is unchanged. |
| DocumentStore.ApplyPatch | store/document-store.ts:49 | Each field the patch supplies wins and each field it omits is kept. The update time is always the clock's, even when the patch supplies one. |
| DocumentStore.UpdateDocument | store/document-store.ts:45-53 | Length and order are kept. Documents with another id are unchanged. Each document with the id becomes the patch merged into it, stamped with its own clock reading. The filter is unchanged. |
| DocumentStore.UpdateAbsentId | store/document-store.ts:45-53 | Updating an id that no document carries returns an equal state. |
| DocumentStore.UpdateKeepsTimeMonotone | store/document-store.ts:49 | If no clock reading is behind the update time of the document it stamps, an update decreases no document's update time. |
| DocumentStore.DeleteDocument | store/document-store.ts:55-59 | A document remains if and only if it was there and its id differs. Each remaining document keeps its multiplicity and the survivors keep their relative order. |
| DocumentStore.DeleteAbsentId | store/document-store.ts:55-59 | Deleting an id that no document carries returns an equal state. |
| DocumentStore.SetFilter | store/document-store.ts:61-63 | The filter becomes exactly the one given and the documents are untouched. |
| DocumentStore.SetFilterReplaces | store/document-store.ts:61-63 | Of two successive filters only the second survives: no merging. |
| DocumentStore.ToggleFavorite | store/document-store.ts:65-73 | On documents with the id, the favourite flag is negated, the update time becomes that document's own clock reading, and nothing else changes. Every other document is unchanged. |
| DocumentStore.ToggleAbsentId | store/document-store.ts:65-73 | Toggling an id that no document carries returns an equal state. |
| DocumentStore.ToggleTwiceRestoresFavorites | store/document-store.ts:65-73 | Toggling twice restores every document except for the update times of the toggled ones, which hold the second toggle's readings. |
| DocumentStore.ToggleKeepsTimeMonotone | store/document-store.ts:69 | If no clock reading is behind the update time of the document it stamps, toggling decreases no document's update time. |
| DocumentStore.GetCompanyDocuments | store/document-store.ts:75-82 | With no current company the view is empty. Otherwise it holds exactly the documents of that company, with their multiplicities, in list order. |
| DocumentStore.AddShowsInOwnCompanyOnly | store/document-store.ts:27-43 | A new document appears at the end of its own company's view. Every other company's view is unchanged. |
| AuthStore.DefaultOrFirst | store/auth-store.ts:68 | The result is the first company flagged as default, else the first company, and is absent only for an empty list. It is always a member of the list. |
| AuthStore.Login | store/auth-store.ts:57-77 | Sign-in succeeds if and only if email and password are both non-empty. On failure the user, companies, current company and signed-in flag are unchanged. On success the demonstration user and companies are installed, the default-or-first company is current, and the session is authenticated. The loading flag ends false either way. |
| AuthStore.LoginSelectsDefaultCompany | store/auth-store.ts:64-72 | After a successful sign-in the current company is Acme, the one flagged as default, and it is among the companies. |
| AuthStore.Logout | store/auth-store.ts:79-85 | The user and the signed-in flag are cleared. The companies, the current company and the other flags are kept. |
| AuthStore.SwitchCompany | store/auth-store.ts:87-93 | An unknown id leaves the state unchanged. Otherwise the first company with the id becomes current and nothing else changes. The current-company invariant is preserved. |
| AuthStore.AddCompany | store/auth-store.ts:95-105 | One company with the given id is appended after an untouched prefix. It becomes current if and only if the list was empty; otherwise the current company is unchanged. The invariant is preserved. |
| AuthStore.RemoveCompany | store/auth-store.ts:107-117 | Every company with the id is dropped and the rest keep their multiplicity and order. If the current company had the id, the first remaining company, or none, becomes current; otherwise the current company is unchanged. The invariant is preserved. |
| AuthStore.MergeUser | store/auth-store.ts:121 | Each user field the patch supplies wins and each one it omits is kept. |
| AuthStore.UpdateUser | store/auth-store.ts:119-123 | A present user becomes the merge of the patch into it. An absent user stays absent. All other state is unchanged. |
| AuthStore.SetOnboardingComplete | store/auth-store.ts:125-127 | The onboarding flag becomes the given value and all other state is unchanged. |
| AuthStore.StepKeepsCurrentKnown | store/auth-store.ts:57-127 | Every store operation keeps the current company absent or among the companies. |
| AuthStore.RunKeepsCurrentKnown | store/auth-store.ts:57-127 | Any sequence of store operations keeps that invariant. |
| AuthStore.ReachableCurrentKnown | store/auth-store.ts:50-55 | The initial state satisfies the invariant, so every reachable state does. |
| FilterBar.SubCategoriesByMain | components/FilterBar.tsx:10-14 | Every main category's list is non-empty, has no duplicates and ends with "divers". |
| FilterBar.SubCategoryLabel | components/FilterBar.tsx:81-96 | Every sub-category's label is non-empty and starts with a capital letter; the fallback branch for an unknown value is unreachable. |
| FilterBar.SubCategoryLabelsDistinct | components/FilterBar.tsx:81-96 | Different sub-categories get different labels. |
| FilterBar.OnlyDiversIsShared | components/FilterBar.tsx:10-14 | A sub-category offered under two different main categories is "divers". |
| FilterBar.HandleMainCategorySelect | components/FilterBar.tsx:27-34 | The main category is set, the sub-category is always cleared, and every other field is preserved. |
| FilterBar.HandleSubCategorySelect | components/FilterBar.tsx:36-38 | Only the sub-category changes. |
| FilterBar.HandleFileTypeSelect | components/FilterBar.tsx:40-42 | Only the file type changes. |
| FilterBar.MainThenSubIsConsistent | components/FilterBar.tsx:27-38 | Choosing a main category and then one of its offered sub-categories gives a sub-category that belongs to that main category. |
| FilterBar.HandleSortSelect | components/FilterBar.tsx:44-50 | The sort key becomes the chosen one. The order becomes descending exactly when that key was already sorted ascending, and ascending in every other case. Nothing else changes. |
| FilterBar.SortSelectAgainFlipsOrder | components/FilterBar.tsx:44-50 | Choosing the same key again flips between ascending and descending. |
| FilterBar.HandleFavoriteToggle | components/FilterBar.tsx:52-57 | The favourite criterion steps unset to true, true to false, and false to unset. Nothing else changes. |
| FilterBar.FavoriteCycleHasPeriodThree | components/FilterBar.tsx:52-57 | One or two presses change the criterion; three presses give back the same filter. |
| FilterBar.ClearFilters | components/FilterBar.tsx:59-64 | The result sorts by date, descending, with every other field unset. |
| FilterBar.ClearRestoresInitialFilter | components/FilterBar.tsx:59-64 | "Clear" yields exactly the document store's initial filter, which has no active criterion. |
| FilterBar.ActiveFiltersCharacterised | components/FilterBar.tsx:66-70 | The active-filter indicator is on if and only if the main category, sub-category, file type or favourite criterion is set. Search text, tags and sorting cannot change it. |
| SearchBar.InitialText | components/SearchBar.tsx:10 | The box starts with the stored search text, or empty when none is stored. |
| SearchBar.HandleSearch | components/SearchBar.tsx:12-15 | Empty text leaves no search criterion. Any other text becomes the criterion exactly, untrimmed and unchanged in case. No other field changes. |
| SearchBar.ClearSearch | components/SearchBar.tsx:17-20 | The search criterion is unset and no other field changes. |
| SearchBar.ClearSearchIdempotent | components/SearchBar.tsx:17-20 | Clearing twice equals clearing once, and clearing after typing equals clearing alone. |
| SearchBar.HandlersKeepMirror | components/SearchBar.tsx:12-20 | After either handler the box's text and the filter's criterion agree. |
| SearchBar.InitialTextMirrors | components/SearchBar.tsx:10 | The starting text agrees with the filter unless the stored criterion is the empty string. |
| SearchBar.FilterBarButtonsKeepMirror | components/FilterBar.tsx:27-57 | The filter bar's selection, sort and favourite buttons keep the box and the criterion in agreement. |
| SearchBar.ClearFiltersLeavesTextBehind | components/FilterBar.tsx:59-64 | The filter bar's "Clear" drops the search criterion while a non-empty box keeps its text, so the two disagree afterwards. |
| TagInput.TrimStart | components/TagInput.tsx:15 | The result is a suffix of the input, everything cut is whitespace, and the result does not start with whitespace. |
| TagInput.TrimEnd | components/TagInput.tsx:15 | The result is a prefix of the input, everything cut is whitespace, and the result does not end with whitespace. |
| TagInput.Trim | components/TagInput.tsx:15 | The result is a stretch of the input with only whitespace around it and none at its ends. It is empty if and only if the input is all whitespace. |
| TagInput.TrimIdempotent | components/TagInput.tsx:15 | Trimming a trimmed text changes nothing. |
| TagInput.AddTag | components/TagInput.tsx:14-20 | A tag is added if and only if the trimmed input is non-empty and not already a tag (exact match). A successful add appends the trimmed input after the unchanged list and empties the box. Otherwise list and box are unchanged. A duplicate-free list stays duplicate-free. |
| TagInput.RemoveTag | components/TagInput.tsx:22-25 | Every occurrence of the tag goes. The other tags keep their multiplicity and order, and a duplicate-free list stays duplicate-free. |
| TagInput.RemoveAbsentTag | components/TagInput.tsx:22-25 | Removing a tag that is not in the list is the identity. |
| TagInput.AddThenRemoveRestores | components/TagInput.tsx:14-25 | Adding a new tag and then removing it gives back the original list. |
| CategorySelector.SubCategoryOptions | components/DocumentCategorySelector.tsx:38-58 | Every main category offers at least one sub-category, and the last is "Divers". |
| CategorySelector.HandleMainCategorySelect | components/DocumentCategorySelector.tsx:60-64 | Choosing a main category also chooses the first sub-category it offers, so the selection is consistent. |
| CategorySelector.HandleSubCategorySelect | components/DocumentCategorySelector.tsx:98 | A sub-category button changes only the sub-category. A choice the main category offers keeps the selection consistent. |
| CategorySelector.DefaultSubCategories | components/DocumentCategorySelector.tsx:60-64 | The default sub-categories are "achat", "contrats" and "paie". |
| CategorySelector.TablesAgreeWithFilterBar | components/DocumentCategorySelector.tsx:38-58 | The picker's table lists the same sub-categories, in the same order and with the same labels, as the filter bar's. |
| CategorySelector.PressesKeepConsistent | components/DocumentCategorySelector.tsx:60-64 | After a main-category press, and after a following sub-category press, the selection is consistent. |

## Left out

- The home screen's routine that filters and sorts the document list for display (app/(tabs)/index.tsx) is screen code and not part of this model, so no filtering or sorting rule is stated.
- Persistence is not modelled: the `persist` middleware, JSON storage and AsyncStorage of both stores are foreign I/O.
- Sign-in's one-second delay and its intermediate `isLoading = true` state are asynchronous timing. `Login` is one atomic step that ends with `isLoading` false. Overlapping sign-ins are not modelled.
- Id generation from `Date.now().toString()` is not modelled. Ids are parameters and no uniqueness is claimed.
- DocumentStore.AddDocument: the source reads the clock three times (id, creation time, update time). The model uses one reading for both timestamps and takes the id separately.
- The cross-store read of the current company is replaced by a `currentCompanyId` parameter of `AddDocument` and `GetCompanyDocuments`.
- Patch fields explicitly set to `undefined` are only modelled for optional fields. TypeScript also lets a `Partial` patch set a required field such as `title` to `undefined`; that is not modelled.
- Amounts are reals. They are stored and never computed with, so floating-point behaviour does not arise.
- The at-least-one-company check of the company management screen is a UI check, so `RemoveCompany` has no precondition.
- Rendering, styles, navigation, alerts, date and number formatting, and the other screens and widgets are not modelled. The stale document-type picker is not modelled either.
- The filter bar's show/hide toggle and the tag editor's key handling (Enter or comma calls the add handler) are UI plumbing around the modelled handlers.
