/** The page side of the organizer: where the custom view is inserted, which of the two
    category views is visible, the toggle button, and the preferences the page writes back.
    The sidebar's section list is a sequence of nodes; the rest of the document is left out. */
module Synchronizer {
  import opened Wrappers
  import opened Seqs
  import opened Categories
  import opened Preferences
  import opened ViewBuilder
  import opened ViewProperties

  /** The two values `toggleView` saves as the view preference. */
  const CustomChoice: string := "custom"
  const DefaultChoice: string := "default"

  /** An element's inline `style.display`: never set, "block", or "none". */
  datatype Display = Unset | Block | Hidden

  /** The source only ever tests for "none"; anything else counts as visible. */
  predicate Shown(d: Display) {
    d != Hidden
  }

  /** A child of the sidebar's section list: the stock categories section
      (`data-section-name='categories'`), a custom view (`#custom-categories-sidebar`),
      or any other section. */
  datatype Node = DefaultSection(display: Display) | CustomView(view: View, display: Display) | OtherSection

  predicate IsDefault(n: Node) {
    n.DefaultSection?
  }

  predicate IsCustom(n: Node) {
    n.CustomView?
  }

  /** What the default section holds to hang the toggle button on: its own
      `.sidebar-section-header`, a `.sidebar-section-header-wrapper`, or neither yet. */
  datatype Header = SectionHeader | HeaderWrapper | NoHeader

  /** Everything the organizer reads or writes on the page: `localStorage`, whether
      `.sidebar-sections` exists, its children, the default section's header, and how many
      `#sidebar-categories-toggle` buttons exist. */
  datatype Page = Page(
    store: Store,
    sidebarPresent: bool,
    nodes: seq<Node>,
    header: Header,
    toggleButtons: nat)

  /** `querySelector` for the default section and `getElementById` for the custom view:
      the first match in document order. */
  function DefaultAt(nodes: seq<Node>): (r: Option<nat>) {
    FirstIndex(nodes, IsDefault)
  }

  function CustomAt(nodes: seq<Node>): (r: Option<nat>) {
    FirstIndex(nodes, IsCustom)
  }

  function CustomCount(nodes: seq<Node>): (n: nat) {
    Count(nodes, IsCustom)
  }

  /** `existingCustomView.remove()`: only the first custom view goes. */
  function WithoutCustom(nodes: seq<Node>): (r: seq<Node>) {
    match CustomAt(nodes)
    case None => nodes
    case Some(k) => nodes[..k] + nodes[k + 1..]
  }

  /** The displays given to the default section and to the custom view for a preference. */
  function DefaultDisplayFor(preference: string): (d: Display) {
    if preference == CustomChoice then Hidden else Block
  }

  function CustomDisplayFor(preference: string): (d: Display) {
    if preference == CustomChoice then Block else Hidden
  }

  /** `initializeSidebar`: nothing without both anchors; otherwise the old custom view is
      removed and, once the categories are loaded, a fresh one is inserted. */
  function Initialized(p: Page, categories: Option<seq<Category>>, userPresent: bool, cfg: Settings): (q: Page)
    ensures q.store == p.store && q.sidebarPresent == p.sidebarPresent
    ensures !p.sidebarPresent || DefaultAt(p.nodes).None? ==> q == p
  {
    if !p.sidebarPresent || DefaultAt(p.nodes).None? then p
    else
      var removed := p.(nodes := WithoutCustom(p.nodes));
      match BuildView(categories, userPresent, cfg, p.store)
      case None => removed
      case Some(v) =>
        RemovalKeepsDefault(p.nodes);
        Inserted(removed, v, UserPreference(p.store, cfg.defaultView), cfg.showToggleButton)
  }

  /** The rest of `initializeSidebar` once the view is built: it goes right after the
      default section, the preference decides which of the two is shown, and with the toggle
      button enabled the old button is replaced by a new one (creating a header first when the
      section has none). */
  function Inserted(p: Page, v: View, preference: string, showToggleButton: bool): (q: Page)
    requires DefaultAt(p.nodes).Some?
    ensures |q.nodes| == |p.nodes| + 1
    ensures q.store == p.store && q.sidebarPresent == p.sidebarPresent
    ensures !showToggleButton ==> q.header == p.header && q.toggleButtons == p.toggleButtons
  {
    var d := DefaultAt(p.nodes).value;
    var nodes := p.nodes[..d] + [DefaultSection(DefaultDisplayFor(preference)),
                                 CustomView(v, CustomDisplayFor(preference))] + p.nodes[d + 1..];
    if !showToggleButton then p.(nodes := nodes)
    else p.(nodes := nodes,
            header := if p.header == NoHeader then HeaderWrapper else p.header,
            toggleButtons := (if p.toggleButtons > 0 then p.toggleButtons - 1 else 0) + 1)
  }

  /** `toggleView`: nothing unless both views exist; a custom view whose display is "none"
      is shown and the default hidden, otherwise the reverse, and the choice is saved. */
  function Toggled(p: Page): (q: Page)
    ensures |q.nodes| == |p.nodes|
    ensures q.sidebarPresent == p.sidebarPresent && q.header == p.header && q.toggleButtons == p.toggleButtons
  {
    match (CustomAt(p.nodes), DefaultAt(p.nodes))
    case (Some(k), Some(d)) =>
      var c := p.nodes[k];
      if c.display == Hidden then
        p.(nodes := p.nodes[k := c.(display := Block)][d := DefaultSection(Hidden)],
           store := SaveUserPreference(p.store, CustomChoice))
      else
        p.(nodes := p.nodes[k := c.(display := Hidden)][d := DefaultSection(Block)],
           store := SaveUserPreference(p.store, DefaultChoice))
    case _ => p
  }

  /** The `toggle` listener of section `i`'s `details` element. */
  function SectionToggled(p: Page, i: nat, open: bool): (q: Page)
    ensures q.nodes == p.nodes && q.header == p.header && q.toggleButtons == p.toggleButtons
    ensures forall d :: SectionOpen(q.store, i, d) == open
  {
    p.(store := SaveSectionState(p.store, i, open))
  }

  /** The mutation observer's callback: with the sidebar visible and no custom view on the
      page, the sidebar is initialized again. */
  function Observed(p: Page, visible: bool, categories: Option<seq<Category>>, userPresent: bool, cfg: Settings): (q: Page)
    ensures !visible || CustomAt(p.nodes).Some? ==> q == p
    ensures q.store == p.store
  {
    if p.sidebarPresent && visible && CustomAt(p.nodes).None? then Initialized(p, categories, userPresent, cfg)
    else p
  }

  /** A custom view exists and the first one is visible. */
  predicate CustomShown(p: Page) {
    CustomAt(p.nodes).Some? && Shown(p.nodes[CustomAt(p.nodes).value].display)
  }

  /** What the organizer keeps true of the page: at most one custom view, at most one toggle
      button, and, while both views exist, exactly one of them visible. */
  predicate Valid(p: Page) {
    && CustomCount(p.nodes) <= 1
    && p.toggleButtons <= 1
    && (CustomAt(p.nodes).Some? && DefaultAt(p.nodes).Some? ==>
          Shown(p.nodes[CustomAt(p.nodes).value].display) != Shown(p.nodes[DefaultAt(p.nodes).value].display))
  }

  /** The page as Discourse renders it, before the organizer has run. */
  predicate Fresh(p: Page) {
    CustomCount(p.nodes) == 0 && p.toggleButtons == 0
  }

  /** Removing the custom view keeps the default section, and with at most one custom view
      there is none left. */
  lemma RemovalKeepsDefault(nodes: seq<Node>)
    requires DefaultAt(nodes).Some?
    ensures DefaultAt(WithoutCustom(nodes)).Some?
    ensures CustomCount(nodes) <= 1 ==> CustomCount(WithoutCustom(nodes)) == 0
  {
    var d := DefaultAt(nodes).value;
    match CustomAt(nodes)
    case None =>
    case Some(k) =>
      assert WithoutCustom(nodes) == nodes[..k] + nodes[k + 1..];
      assert d != k;
      CountRemove(nodes, k, IsCustom);
      RemoveKeepsMatch(nodes, k, d, IsDefault);
  }

  /** The section list after insertion: the default section at `d` and the one custom view
      right after it. */
  lemma InsertionShape(nodes: seq<Node>, d: nat, dd: Display, v: View, cd: Display)
    requires DefaultAt(nodes) == Some(d) && CustomCount(nodes) == 0
    ensures var s := nodes[..d] + [DefaultSection(dd), CustomView(v, cd)] + nodes[d + 1..];
      && DefaultAt(s) == Some(d) && CustomAt(s) == Some(d + 1) && CustomCount(s) == 1
      && WithoutCustom(s) == nodes[..d] + [DefaultSection(dd)] + nodes[d + 1..]
  {
    var a, mid, b := nodes[..d], [DefaultSection(dd), CustomView(v, cd)], nodes[d + 1..];
    CountZeroParts(nodes, d, IsCustom);
    InsertionFirsts(a, mid, b, nodes, d);
    InsertionCount(a, mid, b);
    var s := a + mid + b;
    assert s[..d + 1] == a + [DefaultSection(dd)];
    assert s[d + 2..] == b;
  }

  lemma InsertionFirsts(a: seq<Node>, mid: seq<Node>, b: seq<Node>, nodes: seq<Node>, d: nat)
    requires DefaultAt(nodes) == Some(d) && a == nodes[..d] && Count(a, IsCustom) == 0
    requires |mid| == 2 && IsDefault(mid[0]) && IsCustom(mid[1])
    ensures DefaultAt(a + mid + b) == Some(d) && CustomAt(a + mid + b) == Some(d + 1)
  {
    assert a + mid + b == a + (mid + b);
    assert forall j :: 0 <= j < |a| ==> a[j] == nodes[j];
    assert FirstIndex(mid + b, IsDefault) == Some(0);
    assert FirstIndex(mid + b, IsCustom) == Some(1) by {
      assert (mid + b)[1..] == [mid[1]] + b;
    }
    FirstIndexPastPrefix(a, mid + b, IsDefault);
    FirstIndexPastPrefix(a, mid + b, IsCustom);
  }

  lemma InsertionCount(a: seq<Node>, mid: seq<Node>, b: seq<Node>)
    requires Count(a, IsCustom) == 0 && Count(b, IsCustom) == 0
    requires |mid| == 2 && !IsCustom(mid[0]) && IsCustom(mid[1])
    ensures Count(a + mid + b, IsCustom) == 1
  {
    CountAppend(a + mid, b, IsCustom);
    CountAppend(a, mid, IsCustom);
    assert mid[1..][1..] == [];
  }

  /** Inserting into a page without a custom view: exactly one custom view, right after the
      default section, exactly one of the two visible, the custom one exactly for the
      preference "custom", and with the button enabled exactly one button. */
  lemma InsertedShowsOneView(p: Page, v: View, preference: string, showToggleButton: bool)
    requires DefaultAt(p.nodes).Some? && CustomCount(p.nodes) == 0 && p.toggleButtons <= 1
    ensures var q := Inserted(p, v, preference, showToggleButton);
      && CustomCount(q.nodes) == 1
      && DefaultAt(q.nodes) == DefaultAt(p.nodes) && CustomAt(q.nodes) == Some(DefaultAt(p.nodes).value + 1)
      && q.nodes[CustomAt(q.nodes).value].view == v
      && Shown(q.nodes[CustomAt(q.nodes).value].display) != Shown(q.nodes[DefaultAt(q.nodes).value].display)
      && (Shown(q.nodes[CustomAt(q.nodes).value].display) <==> preference == CustomChoice)
      && (showToggleButton ==> q.toggleButtons == 1 && q.header != NoHeader)
      && (!showToggleButton ==> q.toggleButtons == p.toggleButtons && q.header == p.header)
      && q.store == p.store && q.sidebarPresent == p.sidebarPresent
  {
    InsertionShape(p.nodes, DefaultAt(p.nodes).value, DefaultDisplayFor(preference), v, CustomDisplayFor(preference));
  }

  /** After initialization with the categories loaded and both anchors present, the page has
      exactly one custom view, right after the default section, built from the current
      store; exactly one of the two views is visible, the custom one exactly when the stored
      preference (or the configured default) is "custom"; with the toggle button enabled
      there is exactly one button. */
  lemma InitializeShowsOneView(p: Page, categories: Option<seq<Category>>, userPresent: bool, cfg: Settings)
    requires Valid(p)
    requires p.sidebarPresent && DefaultAt(p.nodes).Some? && categories.Some?
    ensures var q := Initialized(p, categories, userPresent, cfg);
      && CustomCount(q.nodes) == 1
      && DefaultAt(q.nodes).Some? && CustomAt(q.nodes) == Some(DefaultAt(q.nodes).value + 1)
      && q.nodes[CustomAt(q.nodes).value].view == BuildView(categories, userPresent, cfg, p.store).value
      && Shown(q.nodes[CustomAt(q.nodes).value].display) != Shown(q.nodes[DefaultAt(q.nodes).value].display)
      && (Shown(q.nodes[CustomAt(q.nodes).value].display) <==> UserPreference(p.store, cfg.defaultView) == CustomChoice)
      && (cfg.showToggleButton ==> q.toggleButtons == 1 && q.header != NoHeader)
      && q.store == p.store
  {
    RemovalKeepsDefault(p.nodes);
    InsertedShowsOneView(p.(nodes := WithoutCustom(p.nodes)), BuildView(categories, userPresent, cfg, p.store).value,
                         UserPreference(p.store, cfg.defaultView), cfg.showToggleButton);
  }

  /** While the categories are not loaded, initialization still removes the old custom view,
      so none is left, and it touches nothing but the section list. */
  lemma InitializeWithoutCategories(p: Page, userPresent: bool, cfg: Settings)
    requires Valid(p)
    requires p.sidebarPresent && DefaultAt(p.nodes).Some?
    ensures var q := Initialized(p, None, userPresent, cfg);
      && q.nodes == WithoutCustom(p.nodes)
      && CustomCount(q.nodes) == 0 && DefaultAt(q.nodes).Some?
      && q == p.(nodes := q.nodes)
  {
    RemovalKeepsDefault(p.nodes);
  }

  /** A valid page whose custom view is shown and whose stock section is hidden, as
      after the viewer chose the custom view. */
  const ShowingCustom: Page :=
    Page(map[], true, [DefaultSection(Hidden), CustomView(View([], None), Block)], SectionHeader, 1)

  /** As written, initializing while the categories are not loaded removes the shown custom
      view and returns before the stock section's display is touched, so neither category
      view is visible. */
  lemma MissingCategoriesHideBothViews(userPresent: bool, cfg: Settings)
    ensures Valid(ShowingCustom) && CustomShown(ShowingCustom)
    ensures var q := Initialized(ShowingCustom, None, userPresent, cfg);
      && q.nodes == [DefaultSection(Hidden)]
      && !CustomShown(q) && DefaultAt(q.nodes) == Some(0) && !Shown(q.nodes[0].display)
  {
    var nodes := ShowingCustom.nodes;
    assert DefaultAt(nodes) == Some(0);
    assert CustomAt(nodes) == Some(1) by {
      assert nodes[1..] == [nodes[1]];
    }
    assert CustomCount(nodes) == 1 by {
      assert nodes[1..][1..] == [];
    }
    assert WithoutCustom(nodes) == [DefaultSection(Hidden)];
    var q := [DefaultSection(Hidden)];
    assert CustomAt(q) == None by {
      assert q[1..] == [];
    }
  }

  /** Initialization that, when no custom view is built, also shows the stock section again,
      so the viewer is never left without a category view. */
  function InitializedShowingDefault(p: Page, categories: Option<seq<Category>>, userPresent: bool, cfg: Settings): (q: Page)
    ensures q.store == p.store && q.sidebarPresent == p.sidebarPresent
  {
    var q := Initialized(p, categories, userPresent, cfg);
    if p.sidebarPresent && DefaultAt(p.nodes).Some? && categories.None? && DefaultAt(q.nodes).Some? then
      q.(nodes := q.nodes[DefaultAt(q.nodes).value := DefaultSection(Block)])
    else q
  }

  /** With both anchors present, the corrected initialization keeps the page valid and
      always leaves one of the two category views visible. */
  lemma InitializedShowingDefaultShowsAView(p: Page, categories: Option<seq<Category>>, userPresent: bool, cfg: Settings)
    requires Valid(p)
    requires p.sidebarPresent && DefaultAt(p.nodes).Some?
    ensures var q := InitializedShowingDefault(p, categories, userPresent, cfg);
      && Valid(q) && DefaultAt(q.nodes).Some?
      && (CustomShown(q) || Shown(q.nodes[DefaultAt(q.nodes).value].display))
  {
    if categories.Some? {
      InitializeShowsOneView(p, categories, userPresent, cfg);
      InitializeKeepsValid(p, categories, userPresent, cfg);
    } else {
      InitializeWithoutCategories(p, userPresent, cfg);
      var w := Initialized(p, None, userPresent, cfg).nodes;
      var d := DefaultAt(w).value;
      FirstIndexUpdate(w, d, DefaultSection(Block), IsDefault);
      CountUpdate(w, d, DefaultSection(Block), IsCustom);
    }
  }

  /** Initialization keeps the page valid, and a page without the sidebar or the default
      section is left exactly as it was. */
  lemma InitializeKeepsValid(p: Page, categories: Option<seq<Category>>, userPresent: bool, cfg: Settings)
    requires Valid(p)
    ensures Valid(Initialized(p, categories, userPresent, cfg))
    ensures !p.sidebarPresent || DefaultAt(p.nodes).None? ==> Initialized(p, categories, userPresent, cfg) == p
  {
    if p.sidebarPresent && DefaultAt(p.nodes).Some? {
      if categories.Some? {
        InitializeShowsOneView(p, categories, userPresent, cfg);
      } else {
        RemovalKeepsDefault(p.nodes);
      }
    }
  }

  /** Inserting again after removing what was inserted gives the same page. */
  lemma InsertedAgain(p: Page, v: View, preference: string, showToggleButton: bool)
    requires DefaultAt(p.nodes).Some? && CustomCount(p.nodes) == 0 && p.toggleButtons <= 1
    ensures var q := Inserted(p, v, preference, showToggleButton);
      DefaultAt(WithoutCustom(q.nodes)).Some?
      && Inserted(q.(nodes := WithoutCustom(q.nodes)), v, preference, showToggleButton) == q
  {
    var d := DefaultAt(p.nodes).value;
    var dn, cn := DefaultSection(DefaultDisplayFor(preference)), CustomView(v, CustomDisplayFor(preference));
    var q := Inserted(p, v, preference, showToggleButton);
    InsertedFields(p, v, preference, showToggleButton);
    ReinsertNodes(p.nodes, d, dn, cn);
    var q' := q.(nodes := WithoutCustom(q.nodes));
    InsertedFields(q', v, preference, showToggleButton);
  }

  /** The page `Inserted` produces, field by field. */
  lemma InsertedFields(p: Page, v: View, preference: string, showToggleButton: bool)
    requires DefaultAt(p.nodes).Some?
    ensures var q, d := Inserted(p, v, preference, showToggleButton), DefaultAt(p.nodes).value;
      && q.nodes == p.nodes[..d] + [DefaultSection(DefaultDisplayFor(preference)), CustomView(v, CustomDisplayFor(preference))] + p.nodes[d + 1..]
      && q.store == p.store && q.sidebarPresent == p.sidebarPresent
      && q.header == (if showToggleButton && p.header == NoHeader then HeaderWrapper else p.header)
      && q.toggleButtons == (if showToggleButton && p.toggleButtons == 0 then 1 else p.toggleButtons)
  {
  }

  /** Removing the inserted custom view and inserting the same pair again at the default
      section gives back the same section list. */
  lemma ReinsertNodes(nodes: seq<Node>, d: nat, dn: Node, cn: Node)
    requires DefaultAt(nodes) == Some(d) && CustomCount(nodes) == 0
    requires dn.DefaultSection? && cn.CustomView?
    ensures var s := nodes[..d] + [dn, cn] + nodes[d + 1..];
      var w := WithoutCustom(s);
      DefaultAt(w) == Some(d) && w[..d] + [dn, cn] + w[d + 1..] == s
  {
    InsertionShape(nodes, d, dn.display, cn.view, cn.display);
    var again := nodes[..d] + [dn] + nodes[d + 1..];
    assert again == nodes[d := dn];
    FirstIndexUpdate(nodes, d, dn, IsDefault);
    assert again[..d] == nodes[..d] && again[d + 1..] == nodes[d + 1..];
  }

  /** Running the initialization again changes nothing: the rebuilt view replaces the one
      it finds, so repeated page changes never stack views or buttons. */
  lemma InitializeIdempotent(p: Page, categories: Option<seq<Category>>, userPresent: bool, cfg: Settings)
    requires Valid(p)
    ensures var q := Initialized(p, categories, userPresent, cfg);
      Initialized(q, categories, userPresent, cfg) == q
  {
    if p.sidebarPresent && DefaultAt(p.nodes).Some? {
      RemovalKeepsDefault(p.nodes);
      var removed := p.(nodes := WithoutCustom(p.nodes));
      match BuildView(categories, userPresent, cfg, p.store)
      case None =>
        assert CustomAt(removed.nodes).None?;
      case Some(v) =>
        InsertedAgain(removed, v, UserPreference(p.store, cfg.defaultView), cfg.showToggleButton);
    }
  }

  /** With both views on the page, a toggle flips the custom view's visibility, shows
      exactly one of the two, saves the choice so that the next read returns it whatever the
      configured default, and changes nothing else. */
  lemma ToggleFlips(p: Page, defaultView: string)
    requires CustomAt(p.nodes).Some? && DefaultAt(p.nodes).Some?
    ensures var q, k, d := Toggled(p), CustomAt(p.nodes).value, DefaultAt(p.nodes).value;
      && CustomAt(q.nodes) == Some(k) && DefaultAt(q.nodes) == Some(d)
      && Shown(q.nodes[k].display) == !Shown(p.nodes[k].display)
      && Shown(q.nodes[d].display) == !Shown(q.nodes[k].display)
      && q.nodes[k].view == p.nodes[k].view
      && |q.nodes| == |p.nodes| && (forall j :: 0 <= j < |p.nodes| && j != k && j != d ==> q.nodes[j] == p.nodes[j])
      && UserPreference(q.store, defaultView) == (if Shown(q.nodes[k].display) then CustomChoice else DefaultChoice)
      && CustomCount(q.nodes) == CustomCount(p.nodes)
      && q.sidebarPresent == p.sidebarPresent && q.header == p.header && q.toggleButtons == p.toggleButtons
  {
    var k, d := CustomAt(p.nodes).value, DefaultAt(p.nodes).value;
    var c := p.nodes[k];
    var c' := c.(display := if c.display == Hidden then Block else Hidden);
    var dn := DefaultSection(if c.display == Hidden then Hidden else Block);
    UpdatesKeepPositions(p.nodes, k, c', d, dn);
  }

  /** Two updates that keep each node's kind keep the first default section, the first
      custom view and the count of custom views where they were. */
  lemma UpdatesKeepPositions(nodes: seq<Node>, k: nat, c: Node, d: nat, dn: Node)
    requires k < |nodes| && d < |nodes|
    requires IsCustom(nodes[k]) && IsCustom(c) && IsDefault(nodes[d]) && IsDefault(dn)
    ensures var s := nodes[k := c][d := dn];
      CustomAt(s) == CustomAt(nodes) && DefaultAt(s) == DefaultAt(nodes) && CustomCount(s) == CustomCount(nodes)
  {
    var mid := nodes[k := c];
    FirstIndexUpdate(nodes, k, c, IsCustom);
    FirstIndexUpdate(nodes, k, c, IsDefault);
    CountUpdate(nodes, k, c, IsCustom);
    FirstIndexUpdate(mid, d, dn, IsCustom);
    FirstIndexUpdate(mid, d, dn, IsDefault);
    CountUpdate(mid, d, dn, IsCustom);
  }

  /** A toggle is a no-op unless both views are on the page. */
  lemma ToggleNeedsBothViews(p: Page)
    requires CustomAt(p.nodes).None? || DefaultAt(p.nodes).None?
    ensures Toggled(p) == p
  {
  }

  /** Toggling keeps the page valid. */
  lemma ToggleKeepsValid(p: Page)
    requires Valid(p)
    ensures Valid(Toggled(p))
  {
    if CustomAt(p.nodes).Some? && DefaultAt(p.nodes).Some? {
      ToggleFlips(p, "");
    }
  }

  /** Two toggles bring the custom view's visibility back. */
  lemma ToggleTwice(p: Page)
    requires CustomAt(p.nodes).Some? && DefaultAt(p.nodes).Some?
    ensures CustomShown(Toggled(Toggled(p))) == CustomShown(p)
  {
    ToggleFlips(p, "");
    ToggleFlips(Toggled(p), "");
  }

  /** The preference survives a rebuild: after a toggle, the next initialization shows the
      view the toggle showed, whatever the configured default view. */
  lemma ToggleSurvivesRebuild(p: Page, categories: Option<seq<Category>>, userPresent: bool, cfg: Settings)
    requires Valid(p)
    requires p.sidebarPresent && CustomAt(p.nodes).Some? && DefaultAt(p.nodes).Some? && categories.Some?
    ensures var t := Toggled(p);
      var q := Initialized(t, categories, userPresent, cfg);
      CustomAt(q.nodes).Some? && CustomAt(t.nodes).Some?
      && Shown(q.nodes[CustomAt(q.nodes).value].display) == Shown(t.nodes[CustomAt(t.nodes).value].display)
  {
    ToggleFlips(p, cfg.defaultView);
    ToggleKeepsValid(p);
    InitializeShowsOneView(Toggled(p), categories, userPresent, cfg);
  }

  /** A section's collapse state survives a rebuild: after the listener of section `i`
      records `open`, every section `i` the next initialization renders has that open state,
      and the view preference is untouched. */
  lemma SectionStateSurvivesRebuild(p: Page, i: nat, open: bool, categories: Option<seq<Category>>, userPresent: bool, cfg: Settings)
    requires Valid(p)
    requires p.sidebarPresent && DefaultAt(p.nodes).Some? && categories.Some?
    ensures var t := SectionToggled(p, i, open);
      var q := Initialized(t, categories, userPresent, cfg);
      && CustomAt(q.nodes).Some?
      && (forall s :: s in q.nodes[CustomAt(q.nodes).value].view.sections && s.index == i ==> s.open == open)
      && UserPreference(t.store, cfg.defaultView) == UserPreference(p.store, cfg.defaultView)
  {
    var t := SectionToggled(p, i, open);
    InitializeShowsOneView(t, categories, userPresent, cfg);
    SectionStateIsRead(p.store, i, open);
    var acc := Accessible(categories.value, userPresent);
    SectionsRendered(acc, cfg, t.store, Plan(acc, cfg), SectionCount);
  }

  /** A section toggle touches only the store, and keeps the page valid. */
  lemma SectionToggleKeepsValid(p: Page, i: nat, open: bool)
    requires Valid(p)
    ensures Valid(SectionToggled(p, i, open))
    ensures SectionToggled(p, i, open).nodes == p.nodes
  {
  }

  /** The observer rebuilds only a page that has lost its custom view, so it never adds a
      second one; on a visible sidebar with both anchors and the categories loaded it
      brings the view back. */
  lemma ObserverRestoresView(p: Page, visible: bool, categories: Option<seq<Category>>, userPresent: bool, cfg: Settings)
    requires Valid(p)
    ensures Valid(Observed(p, visible, categories, userPresent, cfg))
    ensures CustomAt(p.nodes).Some? ==> Observed(p, visible, categories, userPresent, cfg) == p
    ensures p.sidebarPresent && visible && DefaultAt(p.nodes).Some? && categories.Some? ==>
      CustomCount(Observed(p, visible, categories, userPresent, cfg).nodes) == 1
  {
    InitializeKeepsValid(p, categories, userPresent, cfg);
    if p.sidebarPresent && visible && DefaultAt(p.nodes).Some? && categories.Some? {
      if CustomAt(p.nodes).None? {
        InitializeShowsOneView(p, categories, userPresent, cfg);
      }
    }
  }

  /** Discourse's own page is valid, so every sequence of organizer events keeps one view
      and one button. */
  lemma FreshIsValid(p: Page)
    requires Fresh(p)
    ensures Valid(p)
  {
  }

  /** The live page. Its methods are the organizer's event handlers. */
  class Sidebar {
    var store: Store
    var sidebarPresent: bool
    var nodes: seq<Node>
    var header: Header
    var toggleButtons: nat

    function State(): (page: Page)
      reads this
    {
      Page(store, sidebarPresent, nodes, header, toggleButtons)
    }

    constructor (page: Page)
      ensures State() == page
    {
      store := page.store;
      sidebarPresent := page.sidebarPresent;
      nodes := page.nodes;
      header := page.header;
      toggleButtons := page.toggleButtons;
    }

    /** `saveUserPreference`. */
    method SaveUserPreference(preference: string)
      modifies this
      ensures State() == old(State()).(store := Preferences.SaveUserPreference(old(store), preference))
    {
      store := store[ViewPreferenceKey := preference];
    }

    /** `initializeSidebar`. */
    method InitializeSidebar(categories: Option<seq<Category>>, userPresent: bool, cfg: Settings)
      modifies this
      ensures State() == Initialized(old(State()), categories, userPresent, cfg)
    {
      if !sidebarPresent {
        return;
      }
      var defaultSection := FirstIndex(nodes, IsDefault);
      if defaultSection.None? {
        return;
      }
      ghost var before := nodes;
      var existing := FirstIndex(nodes, IsCustom);
      if existing.Some? {
        nodes := nodes[..existing.value] + nodes[existing.value + 1..];
      }
      assert nodes == WithoutCustom(before);
      var view := BuildCustomCategoriesView(categories, userPresent, cfg, store);
      if view.None? {
        return;
      }
      RemovalKeepsDefault(before);
      var preference := UserPreference(store, cfg.defaultView);
      InsertView(view.value, preference, cfg.showToggleButton);
    }

    /** Inserting the built view after the default section, applying the preference, and
        replacing the toggle button. */
    method InsertView(view: View, preference: string, showToggleButton: bool)
      requires DefaultAt(nodes).Some?
      modifies this
      ensures State() == Inserted(old(State()), view, preference, showToggleButton)
    {
      var d := FirstIndex(nodes, IsDefault).value;
      var defaultDisplay, customDisplay := Block, Hidden;
      if preference == CustomChoice {
        defaultDisplay, customDisplay := Hidden, Block;
      }
      nodes := nodes[..d] + [DefaultSection(defaultDisplay), CustomView(view, customDisplay)] + nodes[d + 1..];
      if showToggleButton {
        if toggleButtons > 0 {
          toggleButtons := toggleButtons - 1;
        }
        if header == NoHeader {
          header := HeaderWrapper;
        }
        toggleButtons := toggleButtons + 1;
      }
    }

    /** `toggleView`, the toggle button's click handler. */
    method ToggleView()
      modifies this
      ensures State() == Toggled(old(State()))
    {
      var customView := FirstIndex(nodes, IsCustom);
      var defaultSection := FirstIndex(nodes, IsDefault);
      if customView.None? || defaultSection.None? {
        return;
      }
      var k, d := customView.value, defaultSection.value;
      var c := nodes[k];
      if c.display == Hidden {
        nodes := nodes[k := c.(display := Block)];
        nodes := nodes[d := DefaultSection(Hidden)];
        SaveUserPreference(CustomChoice);
      } else {
        nodes := nodes[k := c.(display := Hidden)];
        nodes := nodes[d := DefaultSection(Block)];
        SaveUserPreference(DefaultChoice);
      }
    }

    /** The `toggle` listener of section `i`. */
    method OnSectionToggle(i: nat, open: bool)
      modifies this
      ensures State() == SectionToggled(old(State()), i, open)
    {
      var state := if open then OpenState else ClosedState;
      store := store[SectionStateKey(i) := state];
    }

    /** The mutation observer's callback; `visible` is `sidebar.offsetParent !== null`. */
    method OnSidebarMutation(visible: bool, categories: Option<seq<Category>>, userPresent: bool, cfg: Settings)
      modifies this
      ensures State() == Observed(old(State()), visible, categories, userPresent, cfg)
    {
      if sidebarPresent && visible {
        var existing := FirstIndex(nodes, IsCustom);
        if existing.None? {
          InitializeSidebar(categories, userPresent, cfg);
        }
      }
    }
  }
}
