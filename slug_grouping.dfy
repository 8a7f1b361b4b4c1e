/** Grouping is keyed by slug: what that guarantees about categories when slugs are unique,
    and what it loses when a subcategory shares its slug with a top-level category. */
module SlugGrouping {
  import opened Wrappers
  import opened Seqs
  import opened Text
  import opened Categories
  import opened Preferences
  import opened ViewBuilder
  import opened ViewProperties

  /** No two accessible categories share a slug. */
  predicate UniqueSlugs(acc: seq<Category>) {
    forall i, j :: 0 <= i < |acc| && 0 <= j < |acc| && acc[i].slug == acc[j].slug ==> i == j
  }

  /** Some link of some section points at category `c` itself. */
  predicate LinkedFromSection(v: View, c: Category) {
    exists s, l :: s in v.sections && l in s.links && LinksTo(l, c)
  }

  lemma {:induction false} SectionSlugsMember(ss: seq<Section>, x: string)
    requires x in SectionSlugs(ss)
    ensures exists s, l :: s in ss && l in s.links && l.path.slug == x
    decreases |ss|
  {
    var init, last := ss[..|ss| - 1], ss[|ss| - 1];
    if x in SectionSlugs(init) {
      SectionSlugsMember(init, x);
      var s, l :| s in init && l in s.links && l.path.slug == x;
      assert s in ss;
    } else {
      var l :| l in last.links && l.path.slug == x;
    }
  }

  /** With unique slugs, every accessible top-level category is linked from a section or
      listed in the ungrouped bucket, and never both. */
  lemma CoverageByCategory(all: seq<Category>, userPresent: bool, cfg: Settings, store: Store, c: Category)
    requires UniqueSlugs(Accessible(all, userPresent))
    requires c in Accessible(all, userPresent) && IsTopLevel(c)
    ensures var v := BuildView(Some(all), userPresent, cfg, store).value;
      LinkedFromSection(v, c) <==> TopLink(c, cfg.showCategoryBadges) !in UngroupedLinks(v)
  {
    var acc := Accessible(all, userPresent);
    var v := BuildView(Some(all), userPresent, cfg, store).value;
    Coverage(all, userPresent, cfg, store, c);
    if c.slug in SectionSlugs(v.sections) {
      SectionSlugsMember(v.sections, c.slug);
      var s, l :| s in v.sections && l in s.links && l.path.slug == c.slug;
      PlanAccessible(acc, cfg);
      SectionLinksInside(acc, cfg, store, Plan(acc, cfg), SectionCount);
      var d :| d in acc && LinksTo(l, d);
      var i :| 0 <= i < |acc| && acc[i] == c;
      var j :| 0 <= j < |acc| && acc[j] == d;
      assert LinksTo(l, c);
    } else {
      forall s, l | s in v.sections && l in s.links
        ensures l.path.slug != c.slug
      {
        SectionSlugsHas(v.sections, s, l);
      }
    }
  }

  lemma {:induction false} SectionSlugsHas(ss: seq<Section>, s: Section, l: Link)
    requires s in ss && l in s.links
    ensures l.path.slug in SectionSlugs(ss)
    decreases |ss|
  {
    var init, last := ss[..|ss| - 1], ss[|ss| - 1];
    assert ss == init + [last];
    if s != last {
      SectionSlugsHas(init, s, l);
    }
  }

  const Parent: Category := Category(1, "a", "A", "", false, None)
  const Namesake: Category := Category(2, "g", "G", "", false, None)
  const Child: Category := Category(3, "g", "S", "", false, Some(1))
  const Catalogue: seq<Category> := [Parent, Namesake, Child]

  /** One section listing "a" with its subcategories shown. */
  const OneSection: Settings := Settings([SectionSetting(true, "T", Some("a"), true, true)], false, "default", true)

  /** In the collision example only section 1 is planned, and it lists `Parent` alone. */
  lemma CollisionPlan()
    ensures Planned(Plan(Catalogue, OneSection), 1) == [Parent]
    ensures forall i, c :: c in Planned(Plan(Catalogue, OneSection), i) ==> c == Parent
  {
    var plan := Plan(Catalogue, OneSection);
    assert Split("a", ',') == ["a"] by {
      var a: string := "a";
      assert a[0] == 'a' && a[1..] == [];
      assert Split(a[1..], ',') == [[]];
      assert Split(a, ',') == [[a[0]] + []] + [];
      assert [a[0]] + [] == a;
      assert [[a[0]] + []] + [] == [a];
    }
    assert Trim("a") == "a";
    assert Entries("a") == ["a"];
    assert FindBySlug(Catalogue, "a") == Some(Parent);
    assert Resolve(["a"], Catalogue) == [Parent];
    assert Planned(plan, 1) == [Parent];
    forall i: nat | 2 <= i
      ensures Planned(plan, i) == []
    {
      assert !OneSection.Section(i).enabled;
    }
  }

  /** The subcategory `Child` of `Parent` claims the slug "g" in section 1. */
  lemma CollisionClaimsSlug()
    ensures "g" in GroupedUpTo(Catalogue, OneSection, Plan(Catalogue, OneSection), SectionCount)
  {
    var plan := Plan(Catalogue, OneSection);
    CollisionPlan();
    assert Child in ChildrenOf(Catalogue, 1);
    assert "g" in SlugsOf(ChildrenOf(Catalogue, 1));
    assert SubSlugsOf(Catalogue, [Parent]) == SlugsOf(ChildrenOf(Catalogue, 1)) by {
      assert [Parent][..0] == [];
    }
    assert "g" in ClaimedBy(Catalogue, [Parent], true);
    assert "g" in GroupedUpTo(Catalogue, OneSection, plan, 1);
    GroupedGrows(Catalogue, OneSection, plan, 1, SectionCount);
  }

  /** Neither `q` nor any accessible subcategory of `q` carries the id of `x`, so no link a
      section renders for `q` can point at `x`. */
  predicate Avoids(acc: seq<Category>, q: Category, x: Category) {
    q.id != x.id && forall t :: t in acc && t.parentId == Some(q.id) ==> t.id != x.id
  }

  /** A link of a list whose every category avoids `x` does not point at `x`. */
  lemma {:induction false} LinksAvoid(acc: seq<Category>, cats: seq<Category>, withSubs: bool, badges: bool, l: Link,
                                      x: Category)
    requires forall q :: q in cats ==> Avoids(acc, q, x)
    requires l in LinksFor(acc, cats, withSubs, badges)
    ensures !LinksTo(l, x)
  {
    LinkOrigin(acc, cats, withSubs, badges, l);
    if l.isSub {
      var q, t :| q in cats && t in ChildrenOf(acc, q.id) && l == SubLink(q, t, badges);
      assert Avoids(acc, q, x);
      assert t in acc && t.parentId == Some(q.id);
    } else {
      var d :| d in cats && l == TopLink(d, badges);
      assert Avoids(acc, d, x);
    }
  }

  /** When every planned category avoids `x`, no section link points at `x`. */
  lemma SectionLinksAvoid(acc: seq<Category>, cfg: Settings, store: Store, plan: seq<seq<Category>>, n: nat,
                          x: Category)
    requires forall i, q :: q in Planned(plan, i) ==> Avoids(acc, q, x)
    ensures forall s, l :: s in SectionsUpTo(acc, cfg, store, plan, n) && l in s.links ==> !LinksTo(l, x)
  {
    SectionsRendered(acc, cfg, store, plan, n);
    forall s, l | s in SectionsUpTo(acc, cfg, store, plan, n) && l in s.links
      ensures !LinksTo(l, x)
    {
      var setting := cfg.Section(s.index);
      assert SectionAt(acc, cfg, store, plan, s.index) == Some(s);
      LinksAvoid(acc, Planned(plan, s.index), setting.showSubcategories, cfg.showCategoryBadges, l, x);
    }
  }

  /** A top-level category whose slug some section claims, but which no section lists
      itself (neither as a category nor as a subcategory, compared by id), vanishes from the
      sidebar: it is neither linked from a section nor listed as ungrouped. */
  lemma ClaimedSlugHidesCategory(all: seq<Category>, userPresent: bool, cfg: Settings, store: Store, x: Category)
    requires x in Accessible(all, userPresent) && IsTopLevel(x)
    requires var acc := Accessible(all, userPresent);
      x.slug in GroupedUpTo(acc, cfg, Plan(acc, cfg), SectionCount)
    requires var acc := Accessible(all, userPresent);
      forall i, q :: q in Planned(Plan(acc, cfg), i) ==> Avoids(acc, q, x)
    ensures var v := BuildView(Some(all), userPresent, cfg, store).value;
      !LinkedFromSection(v, x) && TopLink(x, cfg.showCategoryBadges) !in UngroupedLinks(v)
  {
    var acc := Accessible(all, userPresent);
    var plan := Plan(acc, cfg);
    GroupedIsLinked(acc, cfg, store, plan, SectionCount);
    Coverage(all, userPresent, cfg, store, x);
    SectionLinksAvoid(acc, cfg, store, plan, SectionCount, x);
  }

  /** A worked instance: `Namesake` shares the slug "g" with `Child`, a subcategory of the
      listed `Parent`, and appears nowhere in the sidebar. */
  lemma SlugCollisionHidesCategory(store: Store)
    ensures var v := BuildView(Some(Catalogue), true, OneSection, store).value;
      !LinkedFromSection(v, Namesake) && TopLink(Namesake, false) !in UngroupedLinks(v)
  {
    assert Accessible(Catalogue, true) == Catalogue;
    CollisionClaimsSlug();
    CollisionPlan();
    assert Avoids(Catalogue, Parent, Namesake);
    ClaimedSlugHidesCategory(Catalogue, true, OneSection, store, Namesake);
  }

  /** The grouped set only grows with the section index. */
  lemma {:induction false} GroupedGrows(acc: seq<Category>, cfg: Settings, plan: seq<seq<Category>>, m: nat, n: nat)
    requires m <= n
    ensures GroupedUpTo(acc, cfg, plan, m) <= GroupedUpTo(acc, cfg, plan, n)
    decreases n - m
  {
    if m < n {
      GroupedGrows(acc, cfg, plan, m, n - 1);
    }
  }
}
