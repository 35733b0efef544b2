/**
 * The glossary screen: the built-in slang table followed by the user's own
 * terms, an add form that fills empty translations with a dash, deletion of
 * the user's terms by jargon key, and the search box. Persistence to
 * browser storage is left out; the user's list is the screen's state.
 */
module Glossary {
  import opened Wrappers
  import opened Strings
  import opened Seqs
  import opened Constants

  /**
   * The screen's state: the user's own terms, the add form (a row whose
   * fields may still be empty) and whether the form is open.
   */
  datatype Screen = Screen(custom: seq<SlangItem>, form: SlangItem, addMode: bool)

  /** The form as it is first shown and as it is reset after an add. */
  const BlankForm := SlangItem("", "", "", "", "", "", "", "", "", "")

  /** Every row the screen lists: the built-ins first, then the user's terms. */
  function AllTerms(custom: seq<SlangItem>): (r: seq<SlangItem>)
    ensures |r| == |NogadaSlang| + |custom|
    ensures r[..|NogadaSlang|] == NogadaSlang && r[|NogadaSlang|..] == custom
  {
    NogadaSlang + custom
  }

  // ---------------------------------------------------------------------
  // Adding a term

  /** How a translation typed into the form is stored: as typed, or `"-"` when left empty. */
  predicate Defaulted(typed: string, stored: string) {
    (typed != [] ==> stored == typed) && (typed == [] ==> stored == "-")
  }

  /** The row built from the form: jargon and standard term verbatim, empty translations as a dash. */
  function TermFromForm(f: SlangItem): (t: SlangItem)
    ensures t.slang == f.slang && t.standard == f.standard
    ensures Defaulted(f.vi, t.vi) && Defaulted(f.uz, t.uz) && Defaulted(f.en, t.en)
    ensures Defaulted(f.km, t.km) && Defaulted(f.mn, t.mn) && Defaulted(f.zh, t.zh)
    ensures Defaulted(f.th, t.th) && Defaulted(f.ru, t.ru)
    // a term accepted by the form has every column filled, like the built-ins
    ensures f.slang != [] && f.standard != [] ==> Filled(t)
  {
    SlangItem(f.slang, f.standard,
      OrElse(Some(f.vi), "-"), OrElse(Some(f.uz), "-"), OrElse(Some(f.en), "-"),
      OrElse(Some(f.km), "-"), OrElse(Some(f.mn), "-"), OrElse(Some(f.zh), "-"),
      OrElse(Some(f.th), "-"), OrElse(Some(f.ru), "-"))
  }

  /** The form accepts a term only when both the jargon and the standard term are given. */
  predicate Accepts(f: SlangItem) {
    f.slang != [] && f.standard != []
  }

  /** Pressing the register button. */
  function AddTerm(sc: Screen): (r: Screen)
    // a form without jargon or standard term changes nothing at all
    ensures !Accepts(sc.form) ==> r == sc
    // otherwise exactly one row is appended, the earlier rows stay in place,
    // the form is reset and closed
    ensures Accepts(sc.form) ==>
      && |r.custom| == |sc.custom| + 1
      && r.custom[..|sc.custom|] == sc.custom
      && r.custom[|sc.custom|] == TermFromForm(sc.form)
      && r.form == BlankForm && !r.addMode
  {
    if !Accepts(sc.form) then sc
    else Screen(sc.custom + [TermFromForm(sc.form)], BlankForm, false)
  }

  // ---------------------------------------------------------------------
  // Deleting a term and the custom-term test

  /** `customTerms.some(t => t.slang === slang)`. */
  predicate IsCustomTerm(custom: seq<SlangItem>, slang: string) {
    exists i | 0 <= i < |custom| :: custom[i].slang == slang
  }

  /** Deleting a jargon key from the user's terms. */
  function DeleteTerm(custom: seq<SlangItem>, slang: string): (r: seq<SlangItem>)
    ensures forall i :: 0 <= i < |r| ==> r[i].slang != slang
    ensures IsSubsequence(r, custom)
    // every row with another key keeps all its copies
    ensures forall t {:trigger multiset(r)[t]} :: multiset(r)[t] == if t.slang != slang then multiset(custom)[t] else 0
    ensures !IsCustomTerm(custom, slang) ==> r == custom
  {
    var keep := (t: SlangItem) => t.slang != slang;
    if !IsCustomTerm(custom, slang) then
      FilterKeepsAll(custom, keep);
      Filter(custom, keep)
    else Filter(custom, keep)
  }

  /** Delete keeps exactly the user's rows with a different key. */
  lemma DeleteKeepsOthers(custom: seq<SlangItem>, slang: string, t: SlangItem)
    ensures t in DeleteTerm(custom, slang) <==> t in custom && t.slang != slang
  {
    FilterMembership(custom, (u: SlangItem) => u.slang != slang, t);
  }

  /** An accepted add makes the new jargon a custom term. */
  lemma AddMakesCustom(sc: Screen)
    requires Accepts(sc.form)
    ensures IsCustomTerm(AddTerm(sc).custom, sc.form.slang)
  {
    var r := AddTerm(sc);
    assert r.custom[|sc.custom|].slang == sc.form.slang;
  }

  /** After a delete the key is no longer a custom term. */
  lemma DeleteRemovesCustom(custom: seq<SlangItem>, slang: string)
    ensures !IsCustomTerm(DeleteTerm(custom, slang), slang)
  {
  }

  /** The add has no duplicate check: a jargon key already present is appended again. */
  lemma AddKeepsDuplicates(sc: Screen)
    requires Accepts(sc.form) && IsCustomTerm(sc.custom, sc.form.slang)
    ensures exists i, j :: 0 <= i < j < |AddTerm(sc).custom|
              && AddTerm(sc).custom[i].slang == sc.form.slang
              && AddTerm(sc).custom[j].slang == sc.form.slang
  {
    var r := AddTerm(sc).custom;
    var i :| 0 <= i < |sc.custom| && sc.custom[i].slang == sc.form.slang;
    assert r[i] == sc.custom[i];
    assert r[|sc.custom|].slang == sc.form.slang;
  }

  /** Deleting a freshly added, previously unused key restores the user's list. */
  lemma AddThenDelete(sc: Screen)
    requires Accepts(sc.form) && !IsCustomTerm(sc.custom, sc.form.slang)
    ensures DeleteTerm(AddTerm(sc).custom, sc.form.slang) == sc.custom
  {
    var keep := (t: SlangItem) => t.slang != sc.form.slang;
    var added := TermFromForm(sc.form);
    FilterAppend(sc.custom, [added], keep);
    FilterKeepsAll(sc.custom, keep);
    assert Filter([added], keep) == [];
    assert AddTerm(sc).custom == sc.custom + [added];
  }

  /** Deletion only touches the user's rows: the built-ins still lead the list. */
  lemma DeleteKeepsBuiltIns(custom: seq<SlangItem>, slang: string)
    ensures AllTerms(DeleteTerm(custom, slang))[..|NogadaSlang|] == NogadaSlang
    ensures |AllTerms(DeleteTerm(custom, slang))| <= |AllTerms(custom)|
  {
  }

  // ---------------------------------------------------------------------
  // Search

  /**
   * The search test: the jargon contains the query as typed, or the
   * standard term contains it once both are lower-cased.
   */
  predicate Matches(t: SlangItem, query: string) {
    Contains(t.slang, query) || Contains(Lower(t.standard), Lower(query))
  }

  /** The rows shown for a query. */
  function FilterTerms(all: seq<SlangItem>, query: string): (r: seq<SlangItem>)
    ensures forall i :: 0 <= i < |r| ==> Matches(r[i], query)
    ensures IsSubsequence(r, all)
    // a matching row is listed as often as it occurs, a non-matching one never
    ensures forall t {:trigger multiset(r)[t]} :: multiset(r)[t] == if Matches(t, query) then multiset(all)[t] else 0
    // an empty search box lists everything
    ensures query == [] ==> r == all
  {
    var p := (t: SlangItem) => Matches(t, query);
    if query == [] then
      forall i | 0 <= i < |all|
        ensures Matches(all[i], query)
      {
        ContainsEmpty(all[i].slang);
      }
      FilterKeepsAll(all, p);
      Filter(all, p)
    else Filter(all, p)
  }

  /** A row is shown exactly when it is listed and matches the query. */
  lemma FilterTermsMembership(all: seq<SlangItem>, query: string, t: SlangItem)
    ensures t in FilterTerms(all, query) <==> t in all && Matches(t, query)
  {
    FilterMembership(all, (u: SlangItem) => Matches(u, query), t);
  }

  /**
   * Some built-in keys occur inside others, so searching for the shorter
   * one lists both rows: the rows for 가꾸 and 가꾸목 ...
   */
  lemma NestedKeysGakku(custom: seq<SlangItem>)
    ensures NogadaSlang[0] in FilterTerms(AllTerms(custom), NogadaSlang[0].slang)
    ensures NogadaSlang[1] in FilterTerms(AllTerms(custom), NogadaSlang[0].slang)
  {
    var all := AllTerms(custom);
    var a, b := NogadaSlang[0], NogadaSlang[1];
    assert a.slang == "가꾸" && b.slang == "가꾸목";
    ContainsSelf(a.slang);
    assert OccursAt(b.slang, a.slang, 0);
    FilterTermsMembership(all, a.slang, a);
    FilterTermsMembership(all, a.slang, b);
  }

  /** ... the search for 마끼 also lists 마끼자 ... */
  lemma NestedKeysMakki(custom: seq<SlangItem>)
    ensures NogadaSlang[23] in FilterTerms(AllTerms(custom), NogadaSlang[22].slang)
  {
    var all := AllTerms(custom);
    var c, d := NogadaSlang[22], NogadaSlang[23];
    assert c.slang == "마끼" && d.slang == "마끼자";
    assert OccursAt(d.slang, c.slang, 0);
    FilterTermsMembership(all, c.slang, d);
  }

  /** ... and the search for 다시 also lists 도끼다시. */
  lemma NestedKeysDashi(custom: seq<SlangItem>)
    ensures NogadaSlang[20] in FilterTerms(AllTerms(custom), NogadaSlang[51].slang)
  {
    var all := AllTerms(custom);
    var e, f := NogadaSlang[51], NogadaSlang[20];
    assert e.slang == "다시" && f.slang == "도끼다시";
    assert OccursAt(f.slang, e.slang, 2);
    FilterTermsMembership(all, e.slang, f);
  }
}
