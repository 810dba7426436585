/** The tabbed dashboard frame of the single-page front end: a header naming the
    user and an optional row of tab buttons. */
module TabLayout {
  import opened Common
  import opened FrontendTypes

  /** The fixed tab keys, in display order. */
  const Tabs: seq<string> := ["users", "rules", "expenses", "approvals", "team"]

  /** The header line: `{user.name} ({user.role})`. */
  function HeaderText(u: User): (t: string)
    ensures |t| == |u.name| + |u.role| + 3
    ensures t[..|u.name|] == u.name
    ensures t[|u.name|..] == " (" + u.role + ")"
  {
    u.name + " (" + u.role + ")"
  }

  /** `tab.charAt(0).toUpperCase() + tab.slice(1)`: only the first character changes. */
  function TabLabel(tab: string): (shown: string)
    ensures |shown| == |tab|
    ensures |tab| > 0 ==> shown[0] == UpperChar(tab[0])
    ensures forall i | 1 <= i < |tab| :: shown[i] == tab[i]
  {
    if |tab| == 0 then "" else Upper(tab[..1]) + tab[1..]
  }

  datatype TabButton = TabButton(key: string, caption: string, active: bool)

  /** `activeTab && onTabChange && <nav>…</nav>`: the row is drawn only when a
      non-empty active tab and a change handler are both given; every tab gets a
      button, highlighted when it is the active one. */
  function NavBar(activeTab: Option<string>, hasTabHandler: bool): (nav: Option<seq<TabButton>>)
    ensures nav.Some? <==> activeTab.Some? && activeTab.value != "" && hasTabHandler
    ensures nav.Some? ==> |nav.value| == |Tabs|
    ensures nav.Some? ==> forall i | 0 <= i < |Tabs| ::
      nav.value[i].key == Tabs[i] && nav.value[i].caption == TabLabel(Tabs[i])
      && (nav.value[i].active <==> Tabs[i] == activeTab.value)
  {
    if activeTab.Some? && activeTab.value != "" && hasTabHandler then
      Some(seq(|Tabs|, i requires 0 <= i < |Tabs| =>
        TabButton(Tabs[i], TabLabel(Tabs[i]), Tabs[i] == activeTab.value)))
    else None
  }

  /** A button's `onClick`: the handler receives that button's tab key. */
  function ClickedTab(nav: seq<TabButton>, i: nat): (tab: string)
    requires i < |nav|
    ensures tab == nav[i].key
  {
    nav[i].key
  }

  /** The tab keys are distinct, so at most one button is highlighted. */
  lemma {:induction false} AtMostOneActive(activeTab: Option<string>, hasTabHandler: bool, i: nat, j: nat)
    requires NavBar(activeTab, hasTabHandler).Some?
    requires i < |Tabs| && j < |Tabs|
    requires NavBar(activeTab, hasTabHandler).value[i].active
    requires NavBar(activeTab, hasTabHandler).value[j].active
    ensures i == j
  {
    var nav := NavBar(activeTab, hasTabHandler).value;
    assert Tabs[i] == activeTab.value == Tabs[j];
    assert Tabs[0] != Tabs[1] && Tabs[0] != Tabs[2] && Tabs[0] != Tabs[3] && Tabs[0] != Tabs[4];
    assert Tabs[1] != Tabs[2] && Tabs[1] != Tabs[3] && Tabs[1] != Tabs[4];
    assert Tabs[2] != Tabs[3] && Tabs[2] != Tabs[4] && Tabs[3] != Tabs[4];
  }

  /** Clicking a button asks for its own tab, which then becomes the highlighted one. */
  lemma ClickHighlights(activeTab: Option<string>, i: nat)
    requires NavBar(activeTab, true).Some?
    requires i < |Tabs|
    ensures var clicked := ClickedTab(NavBar(activeTab, true).value, i);
      NavBar(Some(clicked), true).Some? && NavBar(Some(clicked), true).value[i].active
  {
    var clicked := ClickedTab(NavBar(activeTab, true).value, i);
    assert clicked == Tabs[i];
    assert Tabs[i] != "" by { assert |Tabs[i]| > 0; }
  }

  /** The labels the row shows. */
  lemma Labels()
    ensures TabLabel("users") == "Users" && TabLabel("team") == "Team"
  {
  }
}
