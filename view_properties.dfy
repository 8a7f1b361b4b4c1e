/** What the custom view promises: section order and skipping, the grouped-slug set, the
    ungrouped bucket, link paths and order, and the accessibility filter. */
module ViewProperties {
  import opened Wrappers
  import opened Seqs
  import opened Text
  import opened Categories
  import opened Preferences
  import opened ViewBuilder

  /** The slugs that some link in `links` points at. */
  function LinkSlugs(links: seq<Link>): (slugs: set<string>) {
    set l | l in links :: l.path.slug
  }

  /** The slugs linked from any of the sections. */
  function SectionSlugs(sections: seq<Section>): (slugs: set<string>)
    decreases |sections|
  {
    if sections == [] then {}
    else SectionSlugs(sections[..|sections| - 1]) + LinkSlugs(sections[|sections| - 1].links)
  }

  /** The links of the ungrouped bucket, empty when it is not rendered. */
  function UngroupedLinks(v: View): (bucket: seq<Link>) {
    match v.ungrouped
    case None => []
    case Some(links) => links
  }

  predicate Blank(s: string) {
    forall j :: 0 <= j < |s| ==> IsTrimmable(s[j])
  }

  /** No entry is the slug of an accessible category. */
  predicate NothingResolves(entries: seq<string>, acc: seq<Category>) {
    forall e, k :: 0 <= e < |entries| && 0 <= k < |acc| ==> acc[k].slug != entries[e]
  }

  /** A section is skipped exactly when it is disabled, its category setting is missing or
      blank, or none of its comma-separated, trimmed entries is the slug of an accessible
      category. A section that is kept carries its index, its title and its open state. */
  lemma SectionSkipRule(acc: seq<Category>, cfg: Settings, store: Store, i: nat)
    requires 1 <= i <= SectionCount
    ensures var s := cfg.Section(i);
      SectionAt(acc, cfg, store, Plan(acc, cfg), i).None? <==>
        (!s.enabled || s.categories.None? || Blank(s.categories.value)
         || NothingResolves(Entries(s.categories.value), acc))
    ensures var s := cfg.Section(i);
      SectionAt(acc, cfg, store, Plan(acc, cfg), i).Some? ==>
        var r := SectionAt(acc, cfg, store, Plan(acc, cfg), i).value;
        r.index == i && r.title == s.title && r.open == SectionOpen(store, i, s.defaultOpen) && r.links != []
  {
    var s := cfg.Section(i);
    if s.enabled && s.categories.Some? {
      TrimFacts(s.categories.value);
      ResolveEmpty(Entries(s.categories.value), acc);
    }
  }

  /** Each section of the view is what `SectionAt` renders for its own index, an index
      between 1 and `n`. */
  lemma {:induction false} SectionsRendered(acc: seq<Category>, cfg: Settings, store: Store, plan: seq<seq<Category>>, n: nat)
    ensures forall s :: s in SectionsUpTo(acc, cfg, store, plan, n) ==>
      1 <= s.index <= n && SectionAt(acc, cfg, store, plan, s.index) == Some(s)
  {
    if n > 0 {
      SectionsRendered(acc, cfg, store, plan, n - 1);
      SectionsSnoc(acc, cfg, store, plan, n);
      SectionAtIndex(acc, cfg, store, plan, n);
    }
  }

  predicate IndicesIncrease(ss: seq<Section>) {
    forall j, k :: 0 <= j < k < |ss| ==> ss[j].index < ss[k].index
  }

  /** Sections come out in strictly increasing index order. */
  lemma {:induction false} SectionsInIndexOrder(acc: seq<Category>, cfg: Settings, store: Store, plan: seq<seq<Category>>, n: nat)
    ensures IndicesIncrease(SectionsUpTo(acc, cfg, store, plan, n))
  {
    if n > 0 {
      var prev, here := SectionsUpTo(acc, cfg, store, plan, n - 1), SectionAt(acc, cfg, store, plan, n);
      var tail := if here.Some? then [here.value] else [];
      SectionsInIndexOrder(acc, cfg, store, plan, n - 1);
      SectionIndicesBelow(acc, cfg, store, plan, n - 1);
      SectionsSnoc(acc, cfg, store, plan, n);
      SectionAtIndex(acc, cfg, store, plan, n);
      SnocOrder(prev, tail, SectionsUpTo(acc, cfg, store, plan, n), n);
    }
  }

  lemma {:induction false} SectionIndicesBelow(acc: seq<Category>, cfg: Settings, store: Store, plan: seq<seq<Category>>, n: nat)
    ensures forall s :: s in SectionsUpTo(acc, cfg, store, plan, n) ==> s.index <= n
  {
    if n > 0 {
      SectionIndicesBelow(acc, cfg, store, plan, n - 1);
      SectionsSnoc(acc, cfg, store, plan, n);
      SectionAtIndex(acc, cfg, store, plan, n);
    }
  }

  /** Every index from 1 to `n` that renders a section has that section in the view. */
  lemma {:induction false} SectionsComplete(acc: seq<Category>, cfg: Settings, store: Store, plan: seq<seq<Category>>, n: nat)
    ensures forall i :: 1 <= i <= n && SectionAt(acc, cfg, store, plan, i).Some? ==>
      SectionAt(acc, cfg, store, plan, i).value in SectionsUpTo(acc, cfg, store, plan, n)
  {
    if n > 0 {
      SectionsComplete(acc, cfg, store, plan, n - 1);
      SectionsSnoc(acc, cfg, store, plan, n);
      var prev := SectionsUpTo(acc, cfg, store, plan, n - 1);
      var ss := SectionsUpTo(acc, cfg, store, plan, n);
      forall i | 1 <= i <= n && SectionAt(acc, cfg, store, plan, i).Some?
        ensures SectionAt(acc, cfg, store, plan, i).value in ss
      {
        var s := SectionAt(acc, cfg, store, plan, i).value;
        if i < n {
          assert s in prev;
          InAppend(prev, if SectionAt(acc, cfg, store, plan, n).Some? then [SectionAt(acc, cfg, store, plan, n).value] else [], s);
        } else {
          assert ss == prev + [s];
          assert ss[|prev|] == s;
        }
      }
    }
  }

  lemma InAppend<T>(a: seq<T>, b: seq<T>, x: T)
    requires x in a
    ensures x in a + b
  {
    var k :| 0 <= k < |a| && a[k] == x;
    assert (a + b)[k] == x;
  }

  lemma SectionsSnoc(acc: seq<Category>, cfg: Settings, store: Store, plan: seq<seq<Category>>, n: nat)
    requires n > 0
    ensures var here := SectionAt(acc, cfg, store, plan, n);
      SectionsUpTo(acc, cfg, store, plan, n) == SectionsUpTo(acc, cfg, store, plan, n - 1) + (if here.Some? then [here.value] else [])
  {
  }

  /** Appending a section whose index exceeds every earlier one keeps indices increasing. */
  lemma SnocOrder(prev: seq<Section>, tail: seq<Section>, ss: seq<Section>, n: nat)
    requires ss == prev + tail && |tail| <= 1
    requires IndicesIncrease(prev)
    requires forall s :: s in prev ==> s.index < n
    requires forall s :: s in tail ==> s.index == n
    ensures IndicesIncrease(ss)
  {
    forall j, k | 0 <= j < k < |ss| ensures ss[j].index < ss[k].index {
      assert ss[j] == prev[j] && ss[j] in prev;
      if k >= |prev| { assert ss[k] == tail[k - |prev|] && ss[k] in tail; }
    }
  }

  lemma SectionAtIndex(acc: seq<Category>, cfg: Settings, store: Store, plan: seq<seq<Category>>, i: nat)
    ensures SectionAt(acc, cfg, store, plan, i).Some? ==> SectionAt(acc, cfg, store, plan, i).value.index == i
  {
  }

  lemma SlugsOfSnoc(cats: seq<Category>, c: Category)
    ensures SlugsOf(cats + [c]) == SlugsOf(cats) + {c.slug}
  {
    assert forall x :: x in cats + [c] <==> x in cats || x == c;
  }

  lemma LinkSlugsAppend(a: seq<Link>, b: seq<Link>)
    ensures LinkSlugs(a + b) == LinkSlugs(a) + LinkSlugs(b)
  {
    assert forall x :: x in a + b <==> x in a || x in b;
  }

  lemma SubLinkSlugs(parent: Category, subs: seq<Category>, badges: bool)
    ensures LinkSlugs(SubLinks(parent, subs, badges)) == SlugsOf(subs)
  {
    var links := SubLinks(parent, subs, badges);
    forall x | x in SlugsOf(subs) ensures x in LinkSlugs(links) {
      var c :| c in subs && c.slug == x;
      var k :| 0 <= k < |subs| && subs[k] == c;
      assert links[k].path.slug == x;
    }
  }

  /** The grouped slugs a section claims are exactly the slugs its links point at. */
  lemma {:induction false} ClaimsAreLinked(acc: seq<Category>, cats: seq<Category>, withSubs: bool, badges: bool)
    ensures ClaimedBy(acc, cats, withSubs) == LinkSlugs(LinksFor(acc, cats, withSubs, badges))
    decreases |cats|
  {
    if cats == [] {
      assert SlugsOf(cats) == {};
    } else {
      var init, last := cats[..|cats| - 1], cats[|cats| - 1];
      ClaimsAreLinked(acc, init, withSubs, badges);
      assert cats == init + [last];
      SlugsOfSnoc(init, last);
      LinkSlugsAppend(LinksFor(acc, init, withSubs, badges), CategoryLinks(acc, last, withSubs, badges));
      BlockClaims(acc, last, withSubs, badges);
    }
  }

  /** The slugs of one category's block: its own, and its subcategories' with expansion on. */
  lemma BlockClaims(acc: seq<Category>, c: Category, withSubs: bool, badges: bool)
    ensures LinkSlugs(CategoryLinks(acc, c, withSubs, badges))
            == {c.slug} + (if withSubs then SlugsOf(ChildrenOf(acc, c.id)) else {})
  {
    var subs := ChildrenOf(acc, c.id);
    var tail := if withSubs then SubLinks(c, subs, badges) else [];
    LinkSlugsAppend([TopLink(c, badges)], tail);
    SubLinkSlugs(c, subs, badges);
    assert LinkSlugs([TopLink(c, badges)]) == {c.slug};
    assert LinkSlugs([]) == {};
  }

  /** `groupedCategorySlugs` after the loop is exactly the set of slugs that the rendered
      sections link to. */
  lemma {:induction false} GroupedIsLinked(acc: seq<Category>, cfg: Settings, store: Store, plan: seq<seq<Category>>, n: nat)
    ensures GroupedUpTo(acc, cfg, plan, n) == SectionSlugs(SectionsUpTo(acc, cfg, store, plan, n))
  {
    if n > 0 {
      var cats, withSubs := Planned(plan, n), cfg.Section(n).showSubcategories;
      GroupedIsLinked(acc, cfg, store, plan, n - 1);
      ClaimsAreLinked(acc, cats, withSubs, cfg.showCategoryBadges);
      ClaimedByEmpty(acc, withSubs);
      SectionsSnoc(acc, cfg, store, plan, n);
      GroupedStep(GroupedUpTo(acc, cfg, plan, n - 1), SectionsUpTo(acc, cfg, store, plan, n - 1),
                  SectionAt(acc, cfg, store, plan, n), ClaimedBy(acc, cats, withSubs));
    }
  }

  lemma GroupedStep(grouped: set<string>, prev: seq<Section>, here: Option<Section>, claimed: set<string>)
    requires grouped == SectionSlugs(prev)
    requires here.None? ==> claimed == {}
    requires here.Some? ==> claimed == LinkSlugs(here.value.links)
    ensures grouped + claimed == SectionSlugs(prev + if here.Some? then [here.value] else [])
  {
    if here.Some? {
      SectionSlugsSnoc(prev, here.value);
    } else {
      assert prev + [] == prev;
    }
  }

  lemma SectionSlugsSnoc(prev: seq<Section>, s: Section)
    ensures SectionSlugs(prev + [s]) == SectionSlugs(prev) + LinkSlugs(s.links)
  {
    assert (prev + [s])[..|prev|] == prev;
  }

  /** Every link of `LinksFor` comes from a listed category: a plain link of a listed
      category, or, only with expansion on, a subcategory link of a listed category and one of
      its accessible direct subcategories. */
  lemma {:induction false} LinkOrigin(acc: seq<Category>, cats: seq<Category>, withSubs: bool, badges: bool, l: Link)
    requires l in LinksFor(acc, cats, withSubs, badges)
    ensures !l.isSub ==> exists d :: d in cats && l == TopLink(d, badges)
    ensures l.isSub ==> withSubs && exists p, s :: p in cats && s in ChildrenOf(acc, p.id) && l == SubLink(p, s, badges)
    decreases |cats|
  {
    var init, last := cats[..|cats| - 1], cats[|cats| - 1];
    assert cats == init + [last];
    var block := CategoryLinks(acc, last, withSubs, badges);
    if l in LinksFor(acc, init, withSubs, badges) {
      LinkOrigin(acc, init, withSubs, badges, l);
    } else {
      assert l in block;
      if l != TopLink(last, badges) {
        var subs := ChildrenOf(acc, last.id);
        assert withSubs && l in SubLinks(last, subs, badges);
        var k :| 0 <= k < |subs| && SubLinks(last, subs, badges)[k] == l;
        assert l == SubLink(last, subs[k], badges);
      }
    }
  }

  /** Every listed category gets its own link and, with expansion on, a link for each of its
      accessible direct subcategories. */
  lemma {:induction false} ListedCategoryIsLinked(acc: seq<Category>, cats: seq<Category>, withSubs: bool, badges: bool, c: Category)
    requires c in cats
    ensures TopLink(c, badges) in LinksFor(acc, cats, withSubs, badges)
    ensures withSubs ==> forall s :: s in ChildrenOf(acc, c.id) ==> SubLink(c, s, badges) in LinksFor(acc, cats, withSubs, badges)
    decreases |cats|
  {
    var init, last := cats[..|cats| - 1], cats[|cats| - 1];
    assert cats == init + [last];
    var links := LinksFor(acc, cats, withSubs, badges);
    if c in init {
      ListedCategoryIsLinked(acc, init, withSubs, badges, c);
    } else {
      assert c == last;
      var subs := ChildrenOf(acc, c.id);
      if withSubs {
        forall s | s in subs ensures SubLink(c, s, badges) in links {
          var k :| 0 <= k < |subs| && subs[k] == s;
          assert SubLinks(c, subs, badges)[k] == SubLink(c, s, badges);
        }
      }
    }
  }

  /** Going back from link `k`, only subcategory links under the same parent lie between it
      and a plain link to that parent. */
  predicate FollowsParent(links: seq<Link>, k: nat)
    requires k < |links|
  {
    exists j :: 0 <= j < k && !links[j].isSub && links[k].path.parentSlug == Some(links[j].path.slug)
      && forall m :: j < m <= k ==> links[m].isSub && links[m].path.parentSlug == links[k].path.parentSlug
  }

  /** A subcategory link comes right after its parent's link: going back from it, only
      subcategory links under the same parent lie between it and that parent's plain link. */
  lemma {:induction false} SubLinkFollowsParent(acc: seq<Category>, cats: seq<Category>, withSubs: bool, badges: bool, k: nat)
    requires k < |LinksFor(acc, cats, withSubs, badges)|
    requires LinksFor(acc, cats, withSubs, badges)[k].isSub
    ensures FollowsParent(LinksFor(acc, cats, withSubs, badges), k)
    decreases |cats|
  {
    var init, last := cats[..|cats| - 1], cats[|cats| - 1];
    var prev := LinksFor(acc, init, withSubs, badges);
    var block := CategoryLinks(acc, last, withSubs, badges);
    assert LinksFor(acc, cats, withSubs, badges) == prev + block;
    if k < |prev| {
      SubLinkFollowsParent(acc, init, withSubs, badges, k);
      FollowsInPrefix(prev, block, k);
    } else {
      BlockShape(acc, last, withSubs, badges);
      FollowsInBlock(prev, block, k, last.slug);
    }
  }

  /** A category's block starts with its own link, and every later link is a subcategory link
      under it. */
  lemma BlockShape(acc: seq<Category>, c: Category, withSubs: bool, badges: bool)
    ensures var block := CategoryLinks(acc, c, withSubs, badges);
      !block[0].isSub && block[0].path.slug == c.slug
      && forall m :: 1 <= m < |block| ==> block[m].isSub && block[m].path.parentSlug == Some(c.slug)
  {
  }

  lemma FollowsInPrefix(a: seq<Link>, b: seq<Link>, k: nat)
    requires k < |a| && FollowsParent(a, k)
    ensures FollowsParent(a + b, k)
  {
    var j :| 0 <= j < k && !a[j].isSub && a[k].path.parentSlug == Some(a[j].path.slug)
      && forall m :: j < m <= k ==> a[m].isSub && a[m].path.parentSlug == a[k].path.parentSlug;
    var ab := a + b;
    assert forall m :: 0 <= m <= k ==> ab[m] == a[m];
    assert ab[j] == a[j];
  }

  lemma FollowsInBlock(a: seq<Link>, b: seq<Link>, k: nat, slug: string)
    requires |a| <= k < |a| + |b| && (a + b)[k].isSub
    requires |b| > 0 && !b[0].isSub && b[0].path.slug == slug
    requires forall m :: 1 <= m < |b| ==> b[m].isSub && b[m].path.parentSlug == Some(slug)
    ensures FollowsParent(a + b, k)
  {
    var ab := a + b;
    assert forall m :: |a| <= m < |ab| ==> ab[m] == b[m - |a|];
    assert ab[|a|] == b[0];
  }

  /** Coverage: an accessible top-level category is linked from some section (by slug) or it
      is listed in the ungrouped bucket, never both and never neither. */
  lemma Coverage(all: seq<Category>, userPresent: bool, cfg: Settings, store: Store, c: Category)
    requires c in Accessible(all, userPresent) && IsTopLevel(c)
    ensures var v := BuildView(Some(all), userPresent, cfg, store).value;
      c.slug in SectionSlugs(v.sections) <==> TopLink(c, cfg.showCategoryBadges) !in UngroupedLinks(v)
  {
    var acc := Accessible(all, userPresent);
    var plan := Plan(acc, cfg);
    var grouped := GroupedUpTo(acc, cfg, plan, SectionCount);
    var un := Ungrouped(acc, grouped);
    var badges := cfg.showCategoryBadges;
    var v := BuildView(Some(all), userPresent, cfg, store).value;
    GroupedIsLinked(acc, cfg, store, plan, SectionCount);
    if c.slug !in grouped {
      var k :| 0 <= k < |acc| && acc[k] == c;
      assert c in un;
      ListedCategoryIsLinked(acc, un, true, badges, c);
    } else if TopLink(c, badges) in UngroupedLinks(v) {
      LinkOrigin(acc, un, true, badges, TopLink(c, badges));
    }
  }

  /** The ungrouped bucket is rendered exactly when some accessible top-level category has an
      ungrouped slug, and then it lists every subcategory of its categories, grouped or not. */
  lemma UngroupedBucket(all: seq<Category>, userPresent: bool, cfg: Settings, store: Store)
    ensures var acc := Accessible(all, userPresent);
      var grouped := GroupedUpTo(acc, cfg, Plan(acc, cfg), SectionCount);
      var v := BuildView(Some(all), userPresent, cfg, store).value;
      (v.ungrouped.Some? <==> exists k :: 0 <= k < |acc| && IsTopLevel(acc[k]) && acc[k].slug !in grouped)
      && forall c, s :: c in acc && IsTopLevel(c) && c.slug !in grouped && s in acc && s.parentId == Some(c.id) ==>
           SubLink(c, s, cfg.showCategoryBadges) in UngroupedLinks(v)
  {
    var acc := Accessible(all, userPresent);
    var grouped := GroupedUpTo(acc, cfg, Plan(acc, cfg), SectionCount);
    var un := Ungrouped(acc, grouped);
    forall c, s | c in acc && IsTopLevel(c) && c.slug !in grouped && s in acc && s.parentId == Some(c.id)
      ensures SubLink(c, s, cfg.showCategoryBadges) in UngroupedLinks(BuildView(Some(all), userPresent, cfg, store).value)
    {
      var k :| 0 <= k < |acc| && acc[k] == c;
      var m :| 0 <= m < |acc| && acc[m] == s;
      assert c in un;
      ListedCategoryIsLinked(acc, un, true, cfg.showCategoryBadges, c);
    }
    if un != [] {
      assert un[0] in acc;
    }
  }

  /** Sections only list accessible categories. */
  lemma PlanAccessible(acc: seq<Category>, cfg: Settings)
    ensures forall i, c :: c in Planned(Plan(acc, cfg), i) ==> c in acc
  {
    forall i: nat | 1 <= i <= SectionCount
      ensures forall c :: c in Planned(Plan(acc, cfg), i) ==> c in acc
    {
      var setting := cfg.Section(i);
      assert Planned(Plan(acc, cfg), i) == SectionCategories(acc, setting);
      if setting.enabled && setting.categories.Some? {
        ResolveMembers(Entries(setting.categories.value), acc);
      }
    }
  }

  /** Links point at the category they list: slug and id. */
  predicate LinksTo(l: Link, c: Category) {
    l.path.slug == c.slug && l.path.id == c.id
  }

  lemma {:induction false} LinksStayInside(acc: seq<Category>, cats: seq<Category>, withSubs: bool, badges: bool, l: Link)
    requires forall c :: c in cats ==> c in acc
    requires l in LinksFor(acc, cats, withSubs, badges)
    ensures exists c :: c in acc && LinksTo(l, c)
  {
    LinkOrigin(acc, cats, withSubs, badges, l);
    if l.isSub {
      var p, s :| p in cats && s in ChildrenOf(acc, p.id) && l == SubLink(p, s, badges);
      var k :| 0 <= k < |ChildrenOf(acc, p.id)| && ChildrenOf(acc, p.id)[k] == s;
      assert LinksTo(l, s);
    } else {
      var d :| d in cats && l == TopLink(d, badges);
      assert LinksTo(l, d);
    }
  }

  /** Every section link names a category of `acc` when the plan lists only such categories. */
  lemma SectionLinksInside(acc: seq<Category>, cfg: Settings, store: Store, plan: seq<seq<Category>>, n: nat)
    requires forall i, c :: c in Planned(plan, i) ==> c in acc
    ensures forall s, l :: s in SectionsUpTo(acc, cfg, store, plan, n) && l in s.links ==> exists c :: c in acc && LinksTo(l, c)
  {
    SectionsRendered(acc, cfg, store, plan, n);
    forall s, l | s in SectionsUpTo(acc, cfg, store, plan, n) && l in s.links
      ensures exists c :: c in acc && LinksTo(l, c)
    {
      var setting := cfg.Section(s.index);
      assert SectionAt(acc, cfg, store, plan, s.index) == Some(s);
      LinksStayInside(acc, Planned(plan, s.index), setting.showSubcategories, cfg.showCategoryBadges, l);
    }
  }

  /** A guest is never shown a link to a read-restricted category: every link of every
      section and of the ungrouped bucket names a category that is not read-restricted. */
  lemma GuestSeesNoRestricted(all: seq<Category>, cfg: Settings, store: Store)
    ensures var v := BuildView(Some(all), false, cfg, store).value;
      (forall s, l :: s in v.sections && l in s.links ==> exists c :: c in all && !c.readRestricted && LinksTo(l, c))
      && (forall l :: l in UngroupedLinks(v) ==> exists c :: c in all && !c.readRestricted && LinksTo(l, c))
  {
    GuestSectionLinks(all, cfg, store);
    GuestBucketLinks(all, cfg, store);
  }

  lemma GuestSectionLinks(all: seq<Category>, cfg: Settings, store: Store)
    ensures var v := BuildView(Some(all), false, cfg, store).value;
      forall s, l :: s in v.sections && l in s.links ==> exists c :: c in all && !c.readRestricted && LinksTo(l, c)
  {
    var acc := Accessible(all, false);
    var plan := Plan(acc, cfg);
    var v := BuildView(Some(all), false, cfg, store).value;
    assert v.sections == SectionsUpTo(acc, cfg, store, plan, SectionCount);
    PlanAccessible(acc, cfg);
    SectionLinksInside(acc, cfg, store, plan, SectionCount);
    forall s, l | s in v.sections && l in s.links
      ensures exists c :: c in all && !c.readRestricted && LinksTo(l, c)
    {
      var c :| c in acc && LinksTo(l, c);
    }
  }

  lemma GuestBucketLinks(all: seq<Category>, cfg: Settings, store: Store)
    ensures var v := BuildView(Some(all), false, cfg, store).value;
      forall l :: l in UngroupedLinks(v) ==> exists c :: c in all && !c.readRestricted && LinksTo(l, c)
  {
    var acc := Accessible(all, false);
    var plan := Plan(acc, cfg);
    var v := BuildView(Some(all), false, cfg, store).value;
    var un := Ungrouped(acc, GroupedUpTo(acc, cfg, plan, SectionCount));
    assert UngroupedLinks(v) == if un == [] then [] else LinksFor(acc, un, true, cfg.showCategoryBadges);
    forall l | l in UngroupedLinks(v)
      ensures exists c :: c in all && !c.readRestricted && LinksTo(l, c)
    {
      LinksStayInside(acc, un, true, cfg.showCategoryBadges, l);
      var c :| c in acc && LinksTo(l, c);
    }
  }
}
