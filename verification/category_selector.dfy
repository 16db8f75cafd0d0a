/** The category picker of the document forms: a main category and a
    sub-category chosen from that main category's list. */
module CategorySelector {
  import opened Wrappers
  import opened Seqs
  import opened DocumentTypes
  import FilterBar

  datatype SubCategoryOption = SubCategoryOption(value: SubCategory, text: string)

  /** The sub-category buttons shown under each main category, in order. */
  function SubCategoryOptions(m: MainCategory): (r: seq<SubCategoryOption>)
    ensures |r| > 0
    ensures r[|r| - 1] == SubCategoryOption(Divers, "Divers")
  {
    match m
    case Comptabilite => [
      SubCategoryOption(Achat, "Achat"),
      SubCategoryOption(Ventes, "Ventes"),
      SubCategoryOption(Banque, "Banque"),
      SubCategoryOption(Fiscal, "Fiscal"),
      SubCategoryOption(Divers, "Divers")]
    case Juridique => [
      SubCategoryOption(Contrats, "Contrats"),
      SubCategoryOption(Statuts, "Statuts"),
      SubCategoryOption(Assemblees, "Assemblées"),
      SubCategoryOption(Divers, "Divers")]
    case Social => [
      SubCategoryOption(Paie, "Paie"),
      SubCategoryOption(Conges, "Congés"),
      SubCategoryOption(Formation, "Formation"),
      SubCategoryOption(Divers, "Divers")]
  }

  /** The sub-categories a list of buttons offers. */
  function Values(opts: seq<SubCategoryOption>): (r: seq<SubCategory>)
    ensures |r| == |opts|
    ensures forall i :: 0 <= i < |opts| ==> r[i] == opts[i].value
  {
    seq(|opts|, i requires 0 <= i < |opts| => opts[i].value)
  }

  /** What the picker has chosen. */
  datatype Selection = Selection(main: MainCategory, sub: Option<SubCategory>)

  /** The sub-category, when chosen, is one the main category offers. */
  predicate Consistent(sel: Selection) {
    sel.sub.None? || sel.sub.value in Values(SubCategoryOptions(sel.main))
  }

  /** Choosing a main category also chooses its first sub-category. */
  function HandleMainCategorySelect(sel: Selection, m: MainCategory): (r: Selection)
    ensures r.main == m
    ensures r.sub == Some(SubCategoryOptions(m)[0].value)
    ensures Consistent(r)
  {
    Selection(m, Some(SubCategoryOptions(m)[0].value))
  }

  /** Pressing a sub-category button. */
  function HandleSubCategorySelect(sel: Selection, s: Option<SubCategory>): (r: Selection)
    ensures r.main == sel.main && r.sub == s
    ensures s.None? || s.value in Values(SubCategoryOptions(sel.main)) ==> Consistent(r)
  {
    sel.(sub := s)
  }

  /** The default sub-categories are purchases, contracts and payroll. */
  lemma DefaultSubCategories(sel: Selection)
    ensures HandleMainCategorySelect(sel, Comptabilite).sub == Some(Achat)
    ensures HandleMainCategorySelect(sel, Juridique).sub == Some(Contrats)
    ensures HandleMainCategorySelect(sel, Social).sub == Some(Paie)
  {
  }

  /** The picker offers the same sub-categories, in the same order and with
      the same labels, as the filter bar. */
  lemma TablesAgreeWithFilterBar(m: MainCategory)
    ensures Values(SubCategoryOptions(m)) == FilterBar.SubCategoriesByMain(m)
    ensures forall i :: 0 <= i < |SubCategoryOptions(m)| ==>
              SubCategoryOptions(m)[i].text == FilterBar.SubCategoryLabel(SubCategoryOptions(m)[i].value)
  {
  }

  /** A main-category press yields a consistent selection, and so does a
      following press on any sub-category button that main category shows. */
  lemma PressesKeepConsistent(sel: Selection, m: MainCategory, i: nat)
    requires i < |SubCategoryOptions(m)|
    ensures var r1 := HandleMainCategorySelect(sel, m);
      && Consistent(r1)
      && Consistent(HandleSubCategorySelect(r1, Some(SubCategoryOptions(r1.main)[i].value)))
  {
  }
}
