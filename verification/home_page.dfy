/**
 * The application shell: until the start screen is dismissed nothing else
 * is shown; afterwards the PC layout shows the sites, chat and glossary
 * panes side by side, while the mobile layout shows the pane of the active
 * tab and the bottom navigation. The chat pane receives a two-letter label
 * for the current worker language.
 */
module HomePage {
  import opened Wrappers
  import opened Constants

  // ---------------------------------------------------------------------
  // Language label

  /** `LANGUAGES.find(l => l.code === code)`: the first entry with that code. */
  function FindLanguage(langs: seq<Language>, code: string): (r: Option<Language>)
    ensures r.None? <==> forall i :: 0 <= i < |langs| ==> langs[i].code != code
    ensures r.Some? ==> exists i :: 0 <= i < |langs| && langs[i] == r.value
                                    && forall j :: 0 <= j < i ==> langs[j].code != code
    ensures r.Some? ==> r.value.code == code
  {
    if langs == [] then None
    else if langs[0].code == code then Some(langs[0])
    else
      var r := FindLanguage(langs[1..], code);
      if r.Some? then
        var i :| 0 <= i < |langs[1..]| && langs[1..][i] == r.value
                 && forall j :: 0 <= j < i ==> langs[1..][j].code != code;
        assert langs[i + 1] == r.value;
        r
      else r
  }

  /** `s.substring(0, 2)`: the first two characters, or all of a shorter string. */
  function FirstTwo(s: string): (r: string)
    ensures |r| == if |s| < 2 then |s| else 2
    ensures r == s[..|r|]
  {
    if |s| < 2 then s else s[..2]
  }

  /**
   * The label for a language code: the first two letters of the listed
   * name, or "VI" when the code is unlisted or the name is empty.
   */
  function LangLabel(langs: seq<Language>, code: string): (r: string)
    ensures FindLanguage(langs, code).None? ==> r == "VI"
    ensures FindLanguage(langs, code).Some? && FindLanguage(langs, code).value.name != [] ==>
              r == FirstTwo(FindLanguage(langs, code).value.name)
    // an empty name gives an empty, falsy prefix, so the fallback applies there too
    ensures FindLanguage(langs, code).Some? && FindLanguage(langs, code).value.name == [] ==> r == "VI"
    ensures r != []
  {
    match FindLanguage(langs, code)
    case None => "VI"
    case Some(l) => if FirstTwo(l.name) != [] then FirstTwo(l.name) else "VI"
  }

  /** With the built-in table every label has two characters. */
  lemma LabelsHaveTwoLetters(code: string)
    ensures |LangLabel(Languages, code)| == 2
  {
    var f := FindLanguage(Languages, code);
    if f.Some? {
      var i :| 0 <= i < |Languages| && Languages[i] == f.value;
      NamesHaveTwoLetters(i);
    }
  }

  /** Every listed language name has at least two characters. */
  lemma NamesHaveTwoLetters(i: nat)
    requires i < |Languages|
    ensures |Languages[i].name| >= 2
  {
    assert i == 0 || i == 1 || i == 2 || i == 3 || i == 4 || i == 5 || i == 6 || i == 7;
  }

  /**
   * The initial language vi-VN is labelled "Vi", so its label differs in
   * case from the fallback "VI" that unlisted codes get.
   */
  lemma InitialLabel()
    ensures LangLabel(Languages, "vi-VN") == "Vi"
    ensures LangLabel(Languages, "vi-VN") != LangLabel(Languages, "xx-XX")
  {
    assert Languages[0].code == "vi-VN";
    assert FindLanguage(Languages, "vi-VN") == Some(Languages[0]);
    assert FirstTwo("Vietnam") == "Vi";
    UnlistedCode("xx-XX");
  }

  /** A code whose first letter no listed code has falls back to "VI". */
  lemma UnlistedCode(code: string)
    requires |code| > 0 && code[0] !in "vukmezthr"
    ensures LangLabel(Languages, code) == "VI"
  {
    forall i | 0 <= i < |Languages|
      ensures Languages[i].code != code
    {
      assert Languages[i].code[0] in "vukmezthr";
    }
  }

  // ---------------------------------------------------------------------
  // Panes

  datatype ViewMode = Pc | Mobile

  datatype Pane = SitesPane | ChatPane | GlossaryPane

  /** What is rendered: the start screen, or the workspace with its visible panes. */
  datatype View = StartScreen | Workspace(visible: set<Pane>, navigation: bool)

  /** The tab value under which the mobile layout shows each pane. */
  function TabOf(p: Pane): string {
    match p
    case SitesPane => "sites"
    case ChatPane => "chat"
    case GlossaryPane => "glossary"
  }

  function Render(activated: bool, mode: ViewMode, activeTab: string): (v: View)
    ensures !activated <==> v == StartScreen
    ensures activated && mode == Pc ==> v == Workspace({SitesPane, ChatPane, GlossaryPane}, false)
    ensures activated && mode == Mobile ==>
      v.Workspace? && v.navigation && forall p: Pane :: p in v.visible <==> TabOf(p) == activeTab
  {
    if !activated then StartScreen
    else if mode == Pc then Workspace({SitesPane, ChatPane, GlossaryPane}, false)
    else Workspace(set p: Pane | p in {SitesPane, ChatPane, GlossaryPane} && TabOf(p) == activeTab, true)
  }

  /** On mobile, a tab naming one of the three panes shows exactly that pane. */
  lemma MobileShowsOnePane(p: Pane)
    ensures Render(true, Mobile, TabOf(p)) == Workspace({p}, true)
  {
    var v := Render(true, Mobile, TabOf(p));
    assert TabOf(SitesPane) != TabOf(ChatPane) && TabOf(ChatPane) != TabOf(GlossaryPane)
           && TabOf(SitesPane) != TabOf(GlossaryPane) by {
      assert TabOf(SitesPane)[0] == 's' && TabOf(ChatPane)[0] == 'c' && TabOf(GlossaryPane)[0] == 'g';
    }
    assert v.visible == {p};
  }

  /** The navigation bar appears exactly in the activated mobile layout. */
  lemma NavigationOnlyOnMobile(activated: bool, mode: ViewMode, activeTab: string)
    ensures Render(activated, mode, activeTab).Workspace? && Render(activated, mode, activeTab).navigation
            <==> activated && mode == Mobile
  {
  }
}
