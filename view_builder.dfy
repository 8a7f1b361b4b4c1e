/** The custom categories view: categories grouped into up to ten configured sections,
    followed by an "Other Categories" bucket for the top-level categories no section claims.
    The DOM tree the source builds is modelled as plain data. */
module ViewBuilder {
  import opened Wrappers
  import opened Seqs
  import opened Text
  import opened Categories
  import opened Preferences

  /** Sections are read from settings `section_1_*` to `section_10_*`. */
  const SectionCount: nat := 10

  /** The settings of one section: `section_<i>_enabled`, `_title`, `_categories`
      (a comma-separated slug list, possibly missing), `_default_open`, `_show_subcategories`. */
  datatype SectionSetting = SectionSetting(
    enabled: bool,
    title: string,
    categories: Option<string>,
    defaultOpen: bool,
    showSubcategories: bool)

  /** The theme settings the organizer reads. */
  datatype Settings = Settings(
    sections: seq<SectionSetting>,
    showCategoryBadges: bool,
    defaultView: string,
    showToggleButton: bool)
  {
    /** The settings of section `i` (1-based); an index with no settings reads as disabled,
        as an undefined setting is falsy. */
    function Section(i: int): (setting: SectionSetting) {
      if 1 <= i <= |sections| then sections[i - 1] else SectionSetting(false, "", None, false, false)
    }
  }

  /** One rendered section: its index (`data-section-id`), title, whether its `details`
      element starts open, and its links in order. */
  datatype Section = Section(index: nat, title: string, open: bool, links: seq<Link>)

  /** The custom view: the sections in index order, then the ungrouped bucket if it has links. */
  datatype View = View(sections: seq<Section>, ungrouped: Option<seq<Link>>)

  /** `categorySlugs.split(",").map(s => s.trim())`. */
  function Entries(s: string): (entries: seq<string>) {
    TrimAll(Split(s, ','))
  }

  /** `parts.map(s => s.trim())`. */
  function TrimAll(parts: seq<string>): (r: seq<string>)
    ensures |r| == |parts|
  {
    if parts == [] then [] else [Trim(parts[0])] + TrimAll(parts[1..])
  }

  /** The categories a section resolves to; empty when the section is disabled or its
      category setting is missing or blank. */
  function SectionCategories(acc: seq<Category>, setting: SectionSetting): (cats: seq<Category>) {
    if !setting.enabled || setting.categories.None? || Trim(setting.categories.value) == [] then []
    else Resolve(Entries(setting.categories.value), acc)
  }

  /** The links of one listed category: its own link, then, when expansion is on, one link
      per accessible direct subcategory. */
  function CategoryLinks(acc: seq<Category>, c: Category, withSubs: bool, badges: bool): (block: seq<Link>) {
    [TopLink(c, badges)] + (if withSubs then SubLinks(c, ChildrenOf(acc, c.id), badges) else [])
  }

  /** The links of a list of categories, one `CategoryLinks` block per category, in order. */
  function LinksFor(acc: seq<Category>, cats: seq<Category>, withSubs: bool, badges: bool): (links: seq<Link>)
    decreases |cats|
  {
    if cats == [] then []
    else LinksFor(acc, cats[..|cats| - 1], withSubs, badges) + CategoryLinks(acc, cats[|cats| - 1], withSubs, badges)
  }

  function SlugsOf(cats: seq<Category>): (slugs: set<string>) {
    set c | c in cats :: c.slug
  }

  /** The slugs of the accessible direct subcategories of every category in `cats`. */
  function SubSlugsOf(acc: seq<Category>, cats: seq<Category>): (slugs: set<string>)
    decreases |cats|
  {
    if cats == [] then {}
    else SubSlugsOf(acc, cats[..|cats| - 1]) + SlugsOf(ChildrenOf(acc, cats[|cats| - 1].id))
  }

  /** The slugs a section adds to the grouped set: its categories, and their subcategories
      when expansion is on. */
  function ClaimedBy(acc: seq<Category>, cats: seq<Category>, withSubs: bool): (claimed: set<string>) {
    SlugsOf(cats) + (if withSubs then SubSlugsOf(acc, cats) else {})
  }

  /** The categories every section resolves to, section `i` at position `i - 1`. Rendering
      and grouping below only look a section's categories up here. */
  function Plan(acc: seq<Category>, cfg: Settings): (plan: seq<seq<Category>>)
    ensures |plan| == SectionCount
  {
    seq(SectionCount, k => SectionCategories(acc, cfg.Section(k + 1)))
  }

  /** The planned categories of section `i`; none outside the plan. */
  function Planned(plan: seq<seq<Category>>, i: nat): (cats: seq<Category>) {
    if 1 <= i <= |plan| then plan[i - 1] else []
  }

  /** Section `i` as rendered, or `None` when it is skipped. */
  function SectionAt(acc: seq<Category>, cfg: Settings, store: Store, plan: seq<seq<Category>>, i: nat): (section: Option<Section>) {
    var setting := cfg.Section(i);
    var cats := Planned(plan, i);
    if cats == [] then None
    else Some(Section(i, setting.title, SectionOpen(store, i, setting.defaultOpen),
                      LinksFor(acc, cats, setting.showSubcategories, cfg.showCategoryBadges)))
  }

  /** The sections rendered for indices 1 to `n`. */
  function SectionsUpTo(acc: seq<Category>, cfg: Settings, store: Store, plan: seq<seq<Category>>, n: nat): (sections: seq<Section>) {
    if n == 0 then []
    else
      var s := SectionAt(acc, cfg, store, plan, n);
      SectionsUpTo(acc, cfg, store, plan, n - 1) + (if s.Some? then [s.value] else [])
  }

  /** `groupedCategorySlugs` after sections 1 to `n`. */
  function GroupedUpTo(acc: seq<Category>, cfg: Settings, plan: seq<seq<Category>>, n: nat): (grouped: set<string>) {
    if n == 0 then {}
    else GroupedUpTo(acc, cfg, plan, n - 1) + ClaimedBy(acc, Planned(plan, n), cfg.Section(n).showSubcategories)
  }

  /** The ungrouped bucket: accessible top-level categories whose slug is not grouped,
      in their original order. */
  function Ungrouped(acc: seq<Category>, grouped: set<string>): (r: seq<Category>)
    ensures forall c :: c in r <==> c in acc && IsTopLevel(c) && c.slug !in grouped
  {
    Filter(acc, (c: Category) => c.slug !in grouped && IsTopLevel(c))
  }

  /** What `buildCustomCategoriesView` returns: `None` while the categories are not loaded. */
  function BuildView(categories: Option<seq<Category>>, userPresent: bool, cfg: Settings, store: Store): (view: Option<View>)
    ensures view.None? <==> categories.None?
    ensures view.Some? ==> view.value.ungrouped != Some([])
  {
    match categories
    case None => None
    case Some(all) =>
      var acc := Accessible(all, userPresent);
      var plan := Plan(acc, cfg);
      var un := Ungrouped(acc, GroupedUpTo(acc, cfg, plan, SectionCount));
      Some(View(SectionsUpTo(acc, cfg, store, plan, SectionCount),
                if un == [] then None else Some(LinksFor(acc, un, true, cfg.showCategoryBadges))))
  }

  /** The builder itself: a loop over section indices 1 to 10 that grows the grouped-slug
      set and the list of sections, followed by the ungrouped bucket. */
  method BuildCustomCategoriesView(categories: Option<seq<Category>>, userPresent: bool, cfg: Settings, store: Store)
    returns (view: Option<View>)
    ensures view == BuildView(categories, userPresent, cfg, store)
    ensures view.None? <==> categories.None?
  {
    if categories.None? {
      return None;
    }
    var acc := Accessible(categories.value, userPresent);
    ghost var plan := Plan(acc, cfg);
    forall i | 1 <= i <= SectionCount
      ensures Planned(plan, i) == SectionCategories(acc, cfg.Section(i))
    {
      PlanEntry(acc, cfg, i);
    }
    var sections, grouped := BuildSections(acc, cfg, store, plan, SectionCount);
    var ungrouped := BuildUngrouped(acc, grouped, cfg.showCategoryBadges);
    return Some(View(sections, ungrouped));
  }

  /** The loop over section indices 1 to `count` (10 in the builder): the rendered sections
      in index order and the grouped-slug set they leave behind. */
  method BuildSections(acc: seq<Category>, cfg: Settings, store: Store, ghost plan: seq<seq<Category>>, count: nat)
    returns (sections: seq<Section>, grouped: set<string>)
    requires forall i :: 1 <= i <= count ==> Planned(plan, i) == SectionCategories(acc, cfg.Section(i))
    ensures sections == SectionsUpTo(acc, cfg, store, plan, count)
    ensures grouped == GroupedUpTo(acc, cfg, plan, count)
  {
    grouped, sections := {}, [];
    for i := 1 to count + 1
      invariant grouped == GroupedUpTo(acc, cfg, plan, i - 1)
      invariant sections == SectionsUpTo(acc, cfg, store, plan, i - 1)
    {
      sections, grouped := NextSection(acc, cfg, store, plan, i, sections, grouped);
    }
  }

  /** One iteration of the loop: section `i` is rendered or skipped, and its claims join
      the grouped set. */
  method NextSection(acc: seq<Category>, cfg: Settings, store: Store, ghost plan: seq<seq<Category>>, i: nat,
                     sections0: seq<Section>, grouped0: set<string>)
    returns (sections: seq<Section>, grouped: set<string>)
    requires 1 <= i && Planned(plan, i) == SectionCategories(acc, cfg.Section(i))
    requires grouped0 == GroupedUpTo(acc, cfg, plan, i - 1)
    requires sections0 == SectionsUpTo(acc, cfg, store, plan, i - 1)
    ensures grouped == GroupedUpTo(acc, cfg, plan, i)
    ensures sections == SectionsUpTo(acc, cfg, store, plan, i)
  {
    var section;
    section, grouped := BuildSection(acc, cfg, store, plan, i, grouped0);
    sections := sections0;
    if section.Some? {
      sections := sections + [section.value];
    }
  }

  /** Section `i`'s entry of the plan is what its setting resolves to. */
  lemma PlanEntry(acc: seq<Category>, cfg: Settings, i: nat)
    requires 1 <= i <= SectionCount
    ensures Planned(Plan(acc, cfg), i) == SectionCategories(acc, cfg.Section(i))
  {
  }

  /** The "Other Categories" bucket, emitted only when some category is ungrouped. */
  method BuildUngrouped(acc: seq<Category>, grouped: set<string>, badges: bool) returns (links: Option<seq<Link>>)
    ensures links == (var un := Ungrouped(acc, grouped); if un == [] then None else Some(LinksFor(acc, un, true, badges)))
  {
    var ungrouped := Ungrouped(acc, grouped);
    if |ungrouped| > 0 {
      var bucket := BuildUngroupedLinks(acc, ungrouped, badges);
      return Some(bucket);
    }
    return None;
  }

  /** One pass of the loop over section indices: the section, or `None` when it is skipped,
      and the grouped-slug set with the section's claims added. */
  method BuildSection(acc: seq<Category>, cfg: Settings, store: Store, ghost plan: seq<seq<Category>>, i: nat, grouped: set<string>)
    returns (section: Option<Section>, g: set<string>)
    requires Planned(plan, i) == SectionCategories(acc, cfg.Section(i))
    ensures section == SectionAt(acc, cfg, store, plan, i)
    ensures g == grouped + ClaimedBy(acc, Planned(plan, i), cfg.Section(i).showSubcategories)
  {
    var setting := cfg.Section(i);
    ClaimedByEmpty(acc, setting.showSubcategories);
    if !setting.enabled {
      return None, grouped;
    }
    if setting.categories.None? || Trim(setting.categories.value) == "" {
      return None, grouped;
    }
    var sectionCategories := Resolve(Entries(setting.categories.value), acc);
    if |sectionCategories| == 0 {
      return None, grouped;
    }
    section, g := RenderSection(acc, cfg, store, plan, i, sectionCategories, grouped);
  }

  /** The part of a loop pass after the section's categories have resolved to something. */
  method RenderSection(acc: seq<Category>, cfg: Settings, store: Store, ghost plan: seq<seq<Category>>, i: nat,
                       sectionCategories: seq<Category>, grouped: set<string>)
    returns (section: Option<Section>, g: set<string>)
    requires sectionCategories == Planned(plan, i) != []
    ensures section == SectionAt(acc, cfg, store, plan, i)
    ensures g == grouped + ClaimedBy(acc, sectionCategories, cfg.Section(i).showSubcategories)
  {
    var setting := cfg.Section(i);
    g := ClaimSlugs(grouped, sectionCategories);
    var isOpen := SectionOpen(store, i, setting.defaultOpen);
    var links;
    links, g := BuildSectionLinks(acc, sectionCategories, setting.showSubcategories, cfg.showCategoryBadges, g);
    section := Some(Section(i, setting.title, isOpen, links));
  }

  lemma ClaimedByEmpty(acc: seq<Category>, withSubs: bool)
    ensures ClaimedBy(acc, [], withSubs) == {}
  {
    assert SlugsOf([]) == {};
  }

  /** `sectionCategories.forEach(cat => groupedCategorySlugs.add(cat.slug))`. */
  method ClaimSlugs(grouped: set<string>, cats: seq<Category>) returns (g: set<string>)
    ensures g == grouped + SlugsOf(cats)
  {
    g := grouped;
    for k := 0 to |cats|
      invariant g == grouped + SlugsOf(cats[..k])
    {
      assert cats[..k + 1] == cats[..k] + [cats[k]];
      g := g + {cats[k].slug};
    }
    assert cats[..|cats|] == cats;
  }

  /** The links of a section, claiming each listed subcategory's slug as it goes. */
  method BuildSectionLinks(acc: seq<Category>, cats: seq<Category>, withSubs: bool, badges: bool, grouped: set<string>)
    returns (links: seq<Link>, g: set<string>)
    ensures links == LinksFor(acc, cats, withSubs, badges)
    ensures g == grouped + (if withSubs then SubSlugsOf(acc, cats) else {})
  {
    links, g := [], grouped;
    for k := 0 to |cats|
      invariant links == LinksFor(acc, cats[..k], withSubs, badges)
      invariant g == grouped + (if withSubs then SubSlugsOf(acc, cats[..k]) else {})
    {
      PrefixStep(acc, cats, k, withSubs, badges);
      SubSlugsStep(acc, cats, k);
      links, g := AddCategory(acc, cats[k], withSubs, badges, links, g);
    }
    assert cats[..|cats|] == cats;
  }

  /** One step of the section's `forEach`: the category's link, then its subcategories. */
  method AddCategory(acc: seq<Category>, category: Category, withSubs: bool, badges: bool, links0: seq<Link>, grouped: set<string>)
    returns (links: seq<Link>, g: set<string>)
    ensures links == links0 + CategoryLinks(acc, category, withSubs, badges)
    ensures g == grouped + (if withSubs then SlugsOf(ChildrenOf(acc, category.id)) else {})
  {
    links, g := links0 + [TopLink(category, badges)], grouped;
    if withSubs {
      var subs := ChildrenOf(acc, category.id);
      links, g := AddSubcategories(category, subs, badges, links, g);
    }
  }

  /** `subcategories.forEach(subcat => { groupedCategorySlugs.add(subcat.slug); append link })`. */
  method AddSubcategories(parent: Category, subs: seq<Category>, badges: bool, links0: seq<Link>, grouped: set<string>)
    returns (links: seq<Link>, g: set<string>)
    ensures links == links0 + SubLinks(parent, subs, badges)
    ensures g == grouped + SlugsOf(subs)
  {
    links, g := links0, grouped;
    for j := 0 to |subs|
      invariant links == links0 + SubLinks(parent, subs[..j], badges)
      invariant g == grouped + SlugsOf(subs[..j])
    {
      SubLinksStep(parent, subs, j, badges);
      assert subs[..j + 1] == subs[..j] + [subs[j]];
      g := g + {subs[j].slug};
      links := links + [SubLink(parent, subs[j], badges)];
    }
    assert subs[..|subs|] == subs;
  }

  /** The links of the ungrouped bucket: every category with all its subcategories. */
  method BuildUngroupedLinks(acc: seq<Category>, cats: seq<Category>, badges: bool) returns (links: seq<Link>)
    ensures links == LinksFor(acc, cats, true, badges)
  {
    links := [];
    for k := 0 to |cats|
      invariant links == LinksFor(acc, cats[..k], true, badges)
    {
      PrefixStep(acc, cats, k, true, badges);
      links := AddUngroupedCategory(acc, cats[k], badges, links);
    }
    assert cats[..|cats|] == cats;
  }

  /** One step of the bucket's `forEach`: the category's link, then all its subcategories. */
  method AddUngroupedCategory(acc: seq<Category>, category: Category, badges: bool, links0: seq<Link>)
    returns (links: seq<Link>)
    ensures links == links0 + CategoryLinks(acc, category, true, badges)
  {
    links := links0 + [TopLink(category, badges)];
    var subs := ChildrenOf(acc, category.id);
    links := AppendSubLinks(category, subs, badges, links);
  }

  /** `subcategories.forEach(subcat => append link)`, as the ungrouped bucket does it. */
  method AppendSubLinks(parent: Category, subs: seq<Category>, badges: bool, links0: seq<Link>)
    returns (links: seq<Link>)
    ensures links == links0 + SubLinks(parent, subs, badges)
  {
    links := links0;
    for j := 0 to |subs|
      invariant links == links0 + SubLinks(parent, subs[..j], badges)
    {
      SubLinksStep(parent, subs, j, badges);
      links := links + [SubLink(parent, subs[j], badges)];
    }
    assert subs[..|subs|] == subs;
  }

  lemma PrefixStep(acc: seq<Category>, cats: seq<Category>, k: nat, withSubs: bool, badges: bool)
    requires k < |cats|
    ensures LinksFor(acc, cats[..k + 1], withSubs, badges)
            == LinksFor(acc, cats[..k], withSubs, badges) + CategoryLinks(acc, cats[k], withSubs, badges)
  {
    assert cats[..k + 1][..k] == cats[..k];
  }

  lemma SubSlugsStep(acc: seq<Category>, cats: seq<Category>, k: nat)
    requires k < |cats|
    ensures SubSlugsOf(acc, cats[..k + 1]) == SubSlugsOf(acc, cats[..k]) + SlugsOf(ChildrenOf(acc, cats[k].id))
  {
    assert cats[..k + 1][..k] == cats[..k];
  }

  lemma SubLinksStep(parent: Category, subs: seq<Category>, j: nat, badges: bool)
    requires j < |subs|
    ensures SubLinks(parent, subs[..j + 1], badges) == SubLinks(parent, subs[..j], badges) + [SubLink(parent, subs[j], badges)]
  {
  }
}
