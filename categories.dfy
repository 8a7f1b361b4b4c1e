/** The category records the host application supplies, the accessibility filter, lookup by
    slug, and the canonical category links. */
module Categories {
  import opened Wrappers
  import opened Seqs

  /** A category record as the host exposes it (`id`, `slug`, `name`, `color`,
      `read_restricted`, `parent_category_id`). */
  datatype Category = Category(
    id: int,
    slug: string,
    name: string,
    color: string,
    readRestricted: bool,
    parentId: Option<int>)

  /** `!cat.parent_category_id`: a missing parent id, and the falsy id 0, both mean top level. */
  predicate IsTopLevel(c: Category) {
    c.parentId == None || c.parentId == Some(0)
  }

  /** The categories shown to the viewer: a guest loses every read-restricted category,
      a signed-in user keeps them all (the host has already applied permissions). */
  function Accessible(all: seq<Category>, userPresent: bool): (acc: seq<Category>)
    ensures userPresent ==> acc == all
    ensures forall c :: c in acc <==> c in all && (userPresent || !c.readRestricted)
  {
    var keep := (c: Category) => userPresent || !c.readRestricted;
    if userPresent then FilterKeepsAll(all, keep); Filter(all, keep) else Filter(all, keep)
  }

  /** `cats.find(cat => cat.slug === slug)`: the first category with that slug, if any. */
  function FindBySlug(cats: seq<Category>, slug: string): (r: Option<Category>)
    ensures r.None? <==> forall k :: 0 <= k < |cats| ==> cats[k].slug != slug
    ensures r.Some? ==> r.value.slug == slug && r.value in cats
  {
    if cats == [] then None
    else if cats[0].slug == slug then Some(cats[0])
    else FindBySlug(cats[1..], slug)
  }

  /** The category found is the one at the first position holding that slug. */
  lemma {:induction false} FindBySlugIsFirst(cats: seq<Category>, slug: string)
    ensures FindBySlug(cats, slug).Some? ==>
      exists k :: 0 <= k < |cats| && cats[k] == FindBySlug(cats, slug).value
        && forall j :: 0 <= j < k ==> cats[j].slug != slug
  {
    if cats != [] && cats[0].slug != slug {
      var rest := cats[1..];
      FindBySlugIsFirst(rest, slug);
      if FindBySlug(rest, slug).Some? {
        var k :| 0 <= k < |rest| && rest[k] == FindBySlug(rest, slug).value
          && forall j :: 0 <= j < k ==> rest[j].slug != slug;
        assert cats[k + 1] == rest[k];
        assert forall j :: 1 <= j < k + 1 ==> cats[j] == rest[j - 1];
      }
    }
  }

  /** `entries.map(slug => find(slug)).filter(Boolean)`: each entry replaced by the category
      it names; entries naming no category are dropped. */
  function Resolve(entries: seq<string>, cats: seq<Category>): (r: seq<Category>)
    ensures |r| <= |entries|
    ensures forall c :: c in r ==> c in cats && c.slug in entries
  {
    if entries == [] then [] else Lookup(cats, entries[0]) + Resolve(entries[1..], cats)
  }

  /** One entry of `Resolve`: the category `find` returns, or nothing when it returns `undefined`. */
  function Lookup(cats: seq<Category>, slug: string): (hit: seq<Category>)
    ensures |hit| <= 1 && forall c :: c in hit ==> c in cats && c.slug == slug
  {
    match FindBySlug(cats, slug)
    case Some(c) => [c]
    case None => []
  }

  /** A category is resolved exactly when it is the first category with the slug of some entry. */
  lemma {:induction false} ResolveMembers(entries: seq<string>, cats: seq<Category>)
    ensures forall e :: e in entries && FindBySlug(cats, e).Some? ==> FindBySlug(cats, e).value in Resolve(entries, cats)
    ensures forall c :: c in Resolve(entries, cats) ==> exists e :: e in entries && FindBySlug(cats, e) == Some(c)
  {
    if entries != [] {
      ResolveMembers(entries[1..], cats);
      assert forall e :: e in entries <==> e == entries[0] || e in entries[1..];
    }
  }

  /** Resolution works entry by entry, so the order of the entries is kept. */
  lemma {:induction false} ResolveAppend(e1: seq<string>, e2: seq<string>, cats: seq<Category>)
    ensures Resolve(e1 + e2, cats) == Resolve(e1, cats) + Resolve(e2, cats)
  {
    var e := e1 + e2;
    if e1 == [] {
      assert e == e2;
    } else {
      assert e[0] == e1[0] && e[1..] == e1[1..] + e2;
      ResolveAppend(e1[1..], e2, cats);
    }
  }

  /** Resolution yields nothing exactly when no entry is the slug of any category. */
  lemma {:induction false} ResolveEmpty(entries: seq<string>, cats: seq<Category>)
    ensures Resolve(entries, cats) == [] <==>
      forall i, k :: 0 <= i < |entries| && 0 <= k < |cats| ==> cats[k].slug != entries[i]
  {
    if entries != [] {
      ResolveEmpty(entries[1..], cats);
      assert forall i :: 1 <= i < |entries| ==> entries[i] == entries[1..][i - 1];
    }
  }

  /** `cats.filter(cat => cat.parent_category_id === id)`: the direct subcategories of `id`. */
  function ChildrenOf(cats: seq<Category>, id: int): (r: seq<Category>)
    ensures forall c :: c in r <==> c in cats && c.parentId == Some(id)
  {
    Filter(cats, (c: Category) => c.parentId == Some(id))
  }

  /** The structured form of an href: `/c/<slug>/<id>` when `parentSlug` is `None`,
      `/c/<parentSlug>/<slug>/<id>` otherwise. */
  datatype CategoryPath = CategoryPath(parentSlug: Option<string>, slug: string, id: int)

  /** A rendered category link: its path, its text, whether a colour badge precedes the
      text, and whether it carries the subcategory-link class. */
  datatype Link = Link(path: CategoryPath, name: string, badge: bool, isSub: bool)

  /** The link of a category listed in its own right. */
  function TopLink(c: Category, badges: bool): (l: Link)
    ensures l.path.parentSlug == None && !l.isSub
    ensures l.path.slug == c.slug && l.path.id == c.id && l.name == c.name && l.badge == badges
  {
    Link(CategoryPath(None, c.slug, c.id), c.name, badges, false)
  }

  /** The link of `sub` listed under `parent`: the path goes through the parent's slug. */
  function SubLink(parent: Category, sub: Category, badges: bool): (l: Link)
    ensures l.path.parentSlug == Some(parent.slug) && l.isSub
    ensures l.path.slug == sub.slug && l.path.id == sub.id && l.name == sub.name && l.badge == badges
  {
    Link(CategoryPath(Some(parent.slug), sub.slug, sub.id), sub.name, badges, true)
  }

  /** The links of `subs` under `parent`, one per subcategory, in order. */
  function SubLinks(parent: Category, subs: seq<Category>, badges: bool): (r: seq<Link>)
    ensures |r| == |subs|
    ensures forall k :: 0 <= k < |r| ==> r[k] == SubLink(parent, subs[k], badges)
  {
    seq(|subs|, k requires 0 <= k < |subs| => SubLink(parent, subs[k], badges))
  }
}
