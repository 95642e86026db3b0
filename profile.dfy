/** Public profiles and link management (src/routes/user.py): the profile page's
    featured list and category groups, the tracked redirect, reordering, and link
    creation and update. */
module Profile {
  import opened Common

  /** A row of `users`, as far as profiles use it. */
  datatype User = User(username: string, isActive: bool)

  /** A row of `links`. A JSON value that is not a string (an integer) is stored as NULL
      in a text (integer) column. */
  datatype Link = Link(
    id: int,
    userId: int,
    title: string,
    url: string,
    description: Option<string>,
    icon: Option<string>,
    customImage: Option<string>,
    category: Option<string>,
    isActive: bool,
    isFeatured: bool,
    displayOrder: Option<int>,
    clickCount: int,
    linkType: Option<string>,
    referenceId: Option<int>,
    settings: Option<map<string, Json>>)

  // ---------------------------------------------------------------------------
  // Profile page
  // ---------------------------------------------------------------------------

  /** `link.category or 'Other'` */
  function CategoryOf(l: Link): (r: string)
    ensures r != ""
  {
    OrDefault(l.category, "Other")
  }

  /** Where the database puts NULL in an ascending `ORDER BY`: first in SQLite (the
      development and testing configurations), last in PostgreSQL (production). */
  datatype NullPlacement = NullsFirst | NullsLast

  /** `a` may come before `b` in `ORDER BY display_order`. */
  predicate NotAfter(a: Link, b: Link, nulls: NullPlacement)
  {
    match nulls
    case NullsFirst =>
      a.displayOrder.None? || (b.displayOrder.Some? && a.displayOrder.value <= b.displayOrder.value)
    case NullsLast =>
      b.displayOrder.None? || (a.displayOrder.Some? && a.displayOrder.value <= b.displayOrder.value)
  }

  predicate Ordered(rows: seq<Link>, nulls: NullPlacement)
  {
    forall i, j :: 0 <= i < j < |rows| ==> NotAfter(rows[i], rows[j], nulls)
  }

  /** No row appears twice: the query returns each link once. */
  predicate DistinctIds(rows: seq<Link>)
  {
    forall i, j :: 0 <= i < j < |rows| ==> rows[i].id != rows[j].id
  }

  /** `[link for link in links if link.is_featured]` */
  function Featured(rows: seq<Link>): (r: seq<Link>)
    ensures forall l :: l in r <==> l in rows && l.isFeatured
    ensures |r| <= |rows|
  {
    if rows == [] then []
    else Featured(rows[..|rows| - 1]) + (if rows[|rows| - 1].isFeatured then [rows[|rows| - 1]] else [])
  }

  /** The featured list of a concatenation is the concatenation of the featured lists. */
  lemma {:induction false} FeaturedConcat(a: seq<Link>, b: seq<Link>)
    ensures Featured(a + b) == Featured(a) + Featured(b)
    decreases |b|
  {
    if b == [] {
      assert a + b == a;
    } else {
      var init, last := b[..|b| - 1], b[|b| - 1];
      FeaturedConcat(a, init);
      SplitLast(b);
      ConcatAssoc(a, init, [last]);
      FeaturedSnoc(a + init, last);
      FeaturedSnoc(init, last);
      ConcatAssoc(Featured(a), Featured(init), if last.isFeatured then [last] else []);
    }
  }

  lemma SplitLast(b: seq<Link>)
    requires b != []
    ensures b == b[..|b| - 1] + [b[|b| - 1]]
  {
  }

  lemma ConcatAssoc(x: seq<Link>, y: seq<Link>, z: seq<Link>)
    ensures (x + y) + z == x + (y + z)
  {
  }

  /** Appending one link appends it to the featured list exactly when it is featured. */
  lemma FeaturedSnoc(rows: seq<Link>, l: Link)
    ensures Featured(rows + [l]) == Featured(rows) + (if l.isFeatured then [l] else [])
  {
    assert (rows + [l])[..|rows|] == rows;
  }

  /** A single link is featured exactly when its flag is set. */
  lemma FeaturedOne(l: Link)
    ensures Featured([l]) == (if l.isFeatured then [l] else [])
  {
    assert [l][..0] == [];
  }

  /** The links of category `c`, in query order. */
  function Members(rows: seq<Link>, c: string): seq<Link>
  {
    if rows == [] then []
    else Members(rows[..|rows| - 1], c) + (if CategoryOf(rows[|rows| - 1]) == c then [rows[|rows| - 1]] else [])
  }

  /** A group holds exactly the links of its category. */
  lemma {:induction false} MembersAreCategory(rows: seq<Link>, c: string)
    ensures forall l :: l in Members(rows, c) <==> l in rows && CategoryOf(l) == c
  {
    if rows != [] {
      MembersAreCategory(rows[..|rows| - 1], c);
      assert forall l :: l in rows <==> l in rows[..|rows| - 1] || l == rows[|rows| - 1];
    }
  }

  /** The featured list keeps the query's `display_order` order. */
  lemma {:induction false} FeaturedKeepsOrder(rows: seq<Link>, nulls: NullPlacement)
    requires Ordered(rows, nulls)
    ensures Ordered(Featured(rows), nulls)
  {
    if rows != [] {
      var init := rows[..|rows| - 1];
      FeaturedKeepsOrder(init, nulls);
      var last := rows[|rows| - 1];
      forall l | l in Featured(init) ensures NotAfter(l, last, nulls) {
        var k :| 0 <= k < |init| && init[k] == l;
        assert rows[k] == l;
      }
    }
  }

  /** Each category group keeps the query's `display_order` order. */
  lemma {:induction false} MembersKeepOrder(rows: seq<Link>, c: string, nulls: NullPlacement)
    requires Ordered(rows, nulls)
    ensures Ordered(Members(rows, c), nulls)
  {
    if rows != [] {
      var init := rows[..|rows| - 1];
      MembersKeepOrder(init, c, nulls);
      MembersAreCategory(init, c);
      var last := rows[|rows| - 1];
      forall l | l in Members(init, c) ensures NotAfter(l, last, nulls) {
        var k :| 0 <= k < |init| && init[k] == l;
        assert rows[k] == l;
      }
    }
  }

  /** The featured list holds each link at most once, as the query does. */
  lemma {:induction false} FeaturedKeepsDistinct(rows: seq<Link>)
    requires DistinctIds(rows)
    ensures DistinctIds(Featured(rows))
  {
    if rows != [] {
      var init := rows[..|rows| - 1];
      FeaturedKeepsDistinct(init);
      var last := rows[|rows| - 1];
      forall l | l in Featured(init) ensures l.id != last.id {
        var k :| 0 <= k < |init| && init[k] == l;
        assert rows[k] == l;
      }
    }
  }

  /** The categories in order of first appearance. */
  function Categories(rows: seq<Link>): seq<string>
  {
    if rows == [] then []
    else
      var init := Categories(rows[..|rows| - 1]);
      var last := rows[|rows| - 1];
      if CategoryOf(last) in init then init else init + [CategoryOf(last)]
  }

  /** The category list names each category of the links once, and nothing else. */
  lemma {:induction false} CategoriesAreDistinct(rows: seq<Link>)
    ensures forall c :: c in Categories(rows) <==> exists l :: l in rows && CategoryOf(l) == c
    ensures forall i, j :: 0 <= i < j < |Categories(rows)| ==> Categories(rows)[i] != Categories(rows)[j]
  {
    if rows != [] {
      CategoriesAreDistinct(rows[..|rows| - 1]);
      assert forall l :: l in rows <==> l in rows[..|rows| - 1] || l == rows[|rows| - 1];
    }
  }

  datatype ProfileView = ProfileView(
    owner: User,
    links: seq<Link>,
    featured: seq<Link>,
    categoryOrder: seq<string>,
    groups: map<string, seq<Link>>)

  /** The grouping loop of `view_profile`: a group per category in order of first
      appearance, each holding that category's links in query order. */
  method GroupByCategory(rows: seq<Link>) returns (order: seq<string>, groups: map<string, seq<Link>>)
    ensures order == Categories(rows)
    ensures forall c :: c in groups <==> c in order
    ensures forall c :: c in groups ==> groups[c] == Members(rows, c)
  {
    groups := map[];
    order := [];
    var i := 0;
    while i < |rows|
      invariant 0 <= i <= |rows|
      invariant order == Categories(rows[..i])
      invariant forall c :: c in groups <==> c in order
      invariant forall c :: c in groups ==> groups[c] == Members(rows[..i], c)
    {
      var c := CategoryOf(rows[i]);
      var order0, groups0 := order, groups;
      if c !in groups {
        order := order + [c];
      }
      groups := groups[c := (if c in groups then groups[c] else []) + [rows[i]]];
      GroupLoopStep(rows, i, order0, groups0, order, groups);
      i := i + 1;
    }
    assert rows[..i] == rows;
  }

  /** What one more link does to the categories and to each group. */
  lemma GroupStep(rows: seq<Link>, i: nat)
    requires i < |rows|
    ensures var c := CategoryOf(rows[i]);
      Categories(rows[..i + 1]) == Categories(rows[..i]) + (if c in Categories(rows[..i]) then [] else [c])
    ensures CategoryOf(rows[i]) !in Categories(rows[..i]) ==> Members(rows[..i], CategoryOf(rows[i])) == []
    ensures forall d :: Members(rows[..i + 1], d) == Members(rows[..i], d) + (if d == CategoryOf(rows[i]) then [rows[i]] else [])
  {
    assert rows[..i + 1][..i] == rows[..i];
    var c := CategoryOf(rows[i]);
    var none := Members(rows[..i], c);
    MembersAreCategory(rows[..i], c);
    CategoriesAreDistinct(rows[..i]);
    if none != [] {
      assert none[0] in none;
    }
  }

  /** One turn of the grouping loop keeps its invariants. */
  lemma GroupLoopStep(rows: seq<Link>, i: nat, order: seq<string>, groups: map<string, seq<Link>>,
                      order': seq<string>, groups': map<string, seq<Link>>)
    requires i < |rows|
    requires order == Categories(rows[..i])
    requires forall c :: c in groups <==> c in order
    requires forall c :: c in groups ==> groups[c] == Members(rows[..i], c)
    requires var c := CategoryOf(rows[i]);
      && order' == (if c in groups then order else order + [c])
      && groups' == groups[c := (if c in groups then groups[c] else []) + [rows[i]]]
    ensures order' == Categories(rows[..i + 1])
    ensures forall c :: c in groups' <==> c in order'
    ensures forall c :: c in groups' ==> groups'[c] == Members(rows[..i + 1], c)
  {
    GroupStep(rows, i);
    GroupsGrow(rows, i, groups, groups');
  }

  /** Appending link `i` to its category's group keeps every group equal to its members. */
  lemma GroupsGrow(rows: seq<Link>, i: nat, before: map<string, seq<Link>>, after: map<string, seq<Link>>)
    requires i < |rows|
    requires forall d :: d in before ==> before[d] == Members(rows[..i], d)
    requires CategoryOf(rows[i]) !in before ==> Members(rows[..i], CategoryOf(rows[i])) == []
    requires forall d :: Members(rows[..i + 1], d) == Members(rows[..i], d) + (if d == CategoryOf(rows[i]) then [rows[i]] else [])
    requires var c := CategoryOf(rows[i]);
      after == before[c := (if c in before then before[c] else []) + [rows[i]]]
    ensures forall d :: d in after ==> after[d] == Members(rows[..i + 1], d)
  {
  }

  /** Every profile link lies in exactly one category group: the group of its own
      category. */
  lemma ExactlyOneGroup(rows: seq<Link>, groups: map<string, seq<Link>>)
    requires forall c :: c in groups <==> c in Categories(rows)
    requires forall c :: c in groups ==> groups[c] == Members(rows, c)
    ensures forall l :: l in rows ==> CategoryOf(l) in groups && l in groups[CategoryOf(l)]
    ensures forall l, c :: l in rows && c in groups && l in groups[c] ==> c == CategoryOf(l)
  {
    CategoriesAreDistinct(rows);
    forall l | l in rows ensures CategoryOf(l) in groups && l in groups[CategoryOf(l)] {
      assert CategoryOf(l) in Categories(rows);
      MembersAreCategory(rows, CategoryOf(l));
    }
    forall l, c | l in rows && c in groups && l in groups[c] ensures c == CategoryOf(l) {
      MembersAreCategory(rows, c);
    }
  }

  // ---------------------------------------------------------------------------
  // Link updates
  // ---------------------------------------------------------------------------

  /** `link.set_settings(value)`: only a dictionary replaces the settings. */
  function SettingsFrom(current: Option<map<string, Json>>, value: Json): Option<map<string, Json>>
  {
    if value.JObj? then Some(value.fields) else current
  }

  /** A text column the body may set: a present key stores its value, NULL unless a string. */
  function TextColumn(data: map<string, Json>, key: string, current: Option<string>): (r: Option<string>)
    ensures key !in data ==> r == current
    ensures key in data && data[key].JStr? ==> r == Some(data[key].s)
  {
    if key in data then TextOf(data[key]) else current
  }

  /** A NOT NULL text column: only a string replaces it (anything else fails the commit). */
  function RequiredColumn(data: map<string, Json>, key: string, current: string): (r: string)
    ensures key in data && data[key].JStr? ==> r == data[key].s
    ensures !(key in data && data[key].JStr?) ==> r == current
  {
    if key in data && data[key].JStr? then data[key].s else current
  }

  /** A Boolean column set through `bool(...)`. */
  function FlagColumn(data: map<string, Json>, key: string, current: bool): (r: bool)
    ensures key !in data ==> r == current
    ensures key in data ==> (r <==> Truthy(data[key]))
  {
    if key in data then Truthy(data[key]) else current
  }

  /** An integer column the body may set. */
  function IntColumn(data: map<string, Json>, key: string, current: Option<int>): (r: Option<int>)
    ensures key !in data ==> r == current
    ensures key in data && data[key].JInt? ==> r == Some(data[key].i)
    ensures key in data && data[key].JStr? ==> r.None?
  {
    if key in data then IntOf(data[key]) else current
  }

  /** The nullable columns `update_link` assigns the body's value to as it is. */
  const RawKeys: set<string> := {"description", "icon", "custom_image", "category",
                                 "display_order", "link_type", "reference_id"}

  /** Some column in `keys` would receive a list or an object, which fails the commit. */
  predicate Unstorable(data: map<string, Json>, keys: set<string>)
  {
    exists k :: k in keys && k in data && Unbindable(data[k])
  }

  /** The field assignments of `update_link`, before the commit: each key present in the
      body sets its column, `is_active` and `is_featured` through `bool(...)`. The flag is
      false when the commit fails: the body would set the NOT NULL title or url to a
      non-string, or a column to a list or an object. */
  function Patched(l: Link, data: map<string, Json>): (r: (Link, bool))
    ensures r.0.id == l.id && r.0.userId == l.userId && r.0.clickCount == l.clickCount
    ensures r.1 <==> ("title" in data ==> data["title"].JStr?) && ("url" in data ==> data["url"].JStr?)
                     && !Unstorable(data, RawKeys)
  {
    var n := Link(
      l.id, l.userId,
      RequiredColumn(data, "title", l.title),
      RequiredColumn(data, "url", l.url),
      TextColumn(data, "description", l.description),
      TextColumn(data, "icon", l.icon),
      TextColumn(data, "custom_image", l.customImage),
      TextColumn(data, "category", l.category),
      FlagColumn(data, "is_active", l.isActive),
      FlagColumn(data, "is_featured", l.isFeatured),
      IntColumn(data, "display_order", l.displayOrder),
      l.clickCount,
      TextColumn(data, "link_type", l.linkType),
      IntColumn(data, "reference_id", l.referenceId),
      if "settings" in data then SettingsFrom(l.settings, data["settings"]) else l.settings);
    (n, ("title" in data ==> data["title"].JStr?) && ("url" in data ==> data["url"].JStr?)
        && !Unstorable(data, RawKeys))
  }

  /** A field the body does not name keeps its value. */
  lemma PatchedKeepsAbsent(l: Link, data: map<string, Json>)
    ensures var n := Patched(l, data).0;
      && ("title" !in data ==> n.title == l.title)
      && ("url" !in data ==> n.url == l.url)
      && ("description" !in data ==> n.description == l.description)
      && ("icon" !in data ==> n.icon == l.icon)
      && ("custom_image" !in data ==> n.customImage == l.customImage)
      && ("category" !in data ==> n.category == l.category)
      && ("display_order" !in data ==> n.displayOrder == l.displayOrder)
      && ("link_type" !in data ==> n.linkType == l.linkType)
      && ("reference_id" !in data ==> n.referenceId == l.referenceId)
      && ("is_active" !in data ==> n.isActive == l.isActive)
      && ("is_featured" !in data ==> n.isFeatured == l.isFeatured)
      && ("settings" !in data || !data["settings"].JObj? ==> n.settings == l.settings)
  {
  }

  /** A field the body names takes the body's value: text for title and url, the text or
      NULL for the other text columns, the integer or NULL for the integer columns,
      truthiness for the two flags, and a dictionary for the settings. */
  lemma PatchedTakesPresent(l: Link, data: map<string, Json>)
    ensures var n := Patched(l, data).0;
      && ("title" in data && data["title"].JStr? ==> n.title == data["title"].s)
      && ("url" in data && data["url"].JStr? ==> n.url == data["url"].s)
      && ("description" in data ==> n.description == TextOf(data["description"]))
      && ("icon" in data ==> n.icon == TextOf(data["icon"]))
      && ("custom_image" in data ==> n.customImage == TextOf(data["custom_image"]))
      && ("category" in data ==> n.category == TextOf(data["category"]))
      && ("display_order" in data ==> n.displayOrder == IntOf(data["display_order"]))
      && ("link_type" in data ==> n.linkType == TextOf(data["link_type"]))
      && ("reference_id" in data ==> n.referenceId == IntOf(data["reference_id"]))
      && ("is_active" in data ==> (n.isActive <==> Truthy(data["is_active"])))
      && ("is_featured" in data ==> (n.isFeatured <==> Truthy(data["is_featured"])))
      && ("settings" in data && data["settings"].JObj? ==> n.settings == Some(data["settings"].fields))
  {
  }

  /** Applying the same update twice gives what applying it once gives, and an update
      without any of the link's keys changes nothing. */
  lemma PatchIdempotent(l: Link, data: map<string, Json>)
    ensures Patched(Patched(l, data).0, data) == Patched(l, data)
    ensures (forall k :: k in data ==> k !in LinkKeys) ==> Patched(l, data) == (l, true)
  {
  }

  const LinkKeys: set<string> := {"title", "url", "description", "icon", "custom_image", "category",
                                  "is_active", "is_featured", "display_order", "link_type", "reference_id", "settings"}

  /** The link a reorder item targets, when the item qualifies: a truthy `id` and a
      `display_order` that is not null. Only integer ids match a row. */
  function Target(item: map<string, Json>): Option<(int, Option<int>)>
  {
    if "id" in item && Truthy(item["id"]) && "display_order" in item && item["display_order"] != JNull && item["id"].JInt? then
      Some((item["id"].i, IntOf(item["display_order"])))
    else None
  }

  /** The item makes the reorder fail: it qualifies, and either its id is a list or an
      object, which the query cannot bind, or it names a link of the caller and its order
      is one, which the commit cannot store. */
  predicate Poisoned(links: map<int, Link>, userId: int, item: map<string, Json>)
  {
    "id" in item && Truthy(item["id"]) && "display_order" in item && item["display_order"] != JNull
    && (Unbindable(item["id"])
        || (item["id"].JInt? && item["id"].i in links && links[item["id"].i].userId == userId
            && Unbindable(item["display_order"])))
  }

  /** Some item makes the reorder fail. */
  predicate AnyPoisoned(links: map<int, Link>, userId: int, items: seq<map<string, Json>>)
  {
    exists k :: 0 <= k < |items| && Poisoned(links, userId, items[k])
  }

  /** The links after the reorder loop has handled `items` in order. */
  function Reordered(links: map<int, Link>, userId: int, items: seq<map<string, Json>>): (r: map<int, Link>)
    ensures r.Keys == links.Keys
  {
    if items == [] then links
    else
      var before := Reordered(links, userId, items[..|items| - 1]);
      match Target(items[|items| - 1])
      case Some((id, order)) =>
        if id in before && before[id].userId == userId then before[id := before[id].(displayOrder := order)] else before
      case None => before
  }

  /** Some qualifying item names link `id`. */
  predicate Named(items: seq<map<string, Json>>, id: int)
  {
    exists k :: 0 <= k < |items| && Target(items[k]).Some? && Target(items[k]).value.0 == id
  }

  /** Reordering changes nothing but `display_order`, and only of the current user's links
      that some qualifying item names; every other link is unchanged. */
  lemma {:induction false} ReorderTouchesOnlyNamedOwnLinks(links: map<int, Link>, userId: int, items: seq<map<string, Json>>)
    ensures forall id :: id in links ==>
      Reordered(links, userId, items)[id] == links[id].(displayOrder := Reordered(links, userId, items)[id].displayOrder)
    ensures forall id :: id in links && (links[id].userId != userId || !Named(items, id)) ==>
      Reordered(links, userId, items)[id] == links[id]
  {
    if items != [] {
      var init := items[..|items| - 1];
      ReorderTouchesOnlyNamedOwnLinks(links, userId, init);
      forall id | Named(init, id) ensures Named(items, id) {
        var k :| 0 <= k < |init| && Target(init[k]).Some? && Target(init[k]).value.0 == id;
        assert items[k] == init[k];
      }
    }
  }

  /** The outcome of `update_link`, `create_link` and `reorder_links`. */
  datatype LinkOutcome =
    | Saved(link: Link)   // 200 or 201
    | Done                // 200 for a reorder
    | NotFound            // 404
    | BadRequest          // 400
    | Failed              // 500, after a rollback

  /** The items `for item in data['links']` iterates over, when every one of them is an
      object; `None` when iterating or calling `item.get` raises. */
  function ReorderItems(v: Json): Option<seq<map<string, Json>>>
  {
    match v
    case JArr(xs) =>
      if forall k :: 0 <= k < |xs| ==> xs[k].JObj? then
        Some(seq(|xs|, k requires 0 <= k < |xs| && xs[k].JObj? => xs[k].fields))
      else None
    case JStr(s) => if s == "" then Some([]) else None
    case JObj(m) => if m == map[] then Some([]) else None
    case _ => None
  }

  /** The users and links tables. */
  class ProfileStore {
    var users: map<int, User>
    var links: map<int, Link>
    var nextLinkId: int

    constructor (accounts: map<int, User>)
      ensures users == accounts && links == map[] && nextLinkId == 1
    {
      users, links, nextLinkId := accounts, map[], 1;
    }

    /** Some active user has this username. */
    ghost predicate HasOwner(username: string)
      reads this
    {
      exists id :: id in users && users[id].username == username && users[id].isActive
    }

    /** `view_profile`. `rows` is the answer of the links query: the owner's active links,
        each once, ordered by `display_order` with NULL placed as the database does. */
    method ViewProfile(username: string, rows: seq<Link>, nulls: NullPlacement) returns (out: Option<ProfileView>)
      requires forall id :: id in users && users[id].username == username && users[id].isActive ==>
        && (forall l :: l in rows <==> l in links.Values && l.userId == id && l.isActive)
        && Ordered(rows, nulls) && DistinctIds(rows)
      ensures out.None? <==> !HasOwner(username)
      ensures out.Some? ==>
        && out.value.owner.username == username && out.value.owner.isActive
        && out.value.links == rows
        && out.value.featured == Featured(rows)
        && out.value.categoryOrder == Categories(rows)
        && (forall c :: c in out.value.groups <==> c in Categories(rows))
        && (forall c :: c in out.value.groups ==> out.value.groups[c] == Members(rows, c))
        && (forall l :: l in rows ==> l.isActive)
        && Ordered(out.value.featured, nulls) && DistinctIds(out.value.featured)
        && (forall c :: c in out.value.groups ==> Ordered(out.value.groups[c], nulls))
    {
      if !exists id :: id in users && users[id].username == username && users[id].isActive {
        return None;
      }
      var owner :| owner in users && users[owner].username == username && users[owner].isActive;
      var order, groups := GroupByCategory(rows);
      FeaturedKeepsOrder(rows, nulls);
      FeaturedKeepsDistinct(rows);
      forall c | c in groups ensures Ordered(groups[c], nulls) {
        MembersKeepOrder(rows, c, nulls);
      }
      out := Some(ProfileView(users[owner], rows, Featured(rows), order, groups));
    }

    /** `redirect_link`: an active link of an active user with this username gets one more
        click and sends the visitor to its url; anything else is a 404. */
    method RedirectLink(username: string, linkId: int) returns (location: Option<string>)
      modifies this`links
      ensures var ok := linkId in old(links) && old(links)[linkId].isActive
        && old(links)[linkId].userId in users && users[old(links)[linkId].userId].username == username
        && users[old(links)[linkId].userId].isActive;
        && (location.Some? <==> ok)
        && (ok ==> location.value == old(links)[linkId].url
                   && links == old(links)[linkId := old(links)[linkId].(clickCount := old(links)[linkId].clickCount + 1)])
        && (!ok ==> links == old(links))
    {
      if linkId in links && links[linkId].isActive && links[linkId].userId in users
         && users[links[linkId].userId].username == username && users[links[linkId].userId].isActive {
        var l := links[linkId];
        links := links[linkId := l.(clickCount := l.clickCount + 1)];
        return Some(l.url);
      }
      return None;
    }

    /** `reorder_links` */
    method ReorderLinks(userId: int, body: Body) returns (out: LinkOutcome)
      modifies this`links
      ensures out == BadRequest <==> Missing(body) || "links" !in body.value
      ensures out == Failed <==>
        && !Missing(body) && "links" in body.value
        && (ReorderItems(body.value["links"]).None?
            || AnyPoisoned(old(links), userId, ReorderItems(body.value["links"]).value))
      ensures out == Done ==> links == Reordered(old(links), userId, ReorderItems(body.value["links"]).value)
      ensures out != Done ==> links == old(links)
      ensures out in {BadRequest, Failed, Done}
    {
      if Missing(body) || "links" !in body.value {
        return BadRequest;
      }
      var items := ReorderItems(body.value["links"]);
      if items.None? {
        return Failed;
      }
      var start := links;
      var k := 0;
      while k < |items.value|
        invariant 0 <= k <= |items.value|
        invariant links == Reordered(start, userId, items.value[..k])
        invariant forall j :: 0 <= j < k ==> !Poisoned(start, userId, items.value[j])
      {
        assert items.value[..k + 1][..k] == items.value[..k];
        if Poisoned(start, userId, items.value[k]) {
          links := start;   // rollback
          return Failed;
        }
        var target := Target(items.value[k]);
        if target.Some? {
          var (id, order) := target.value;
          if id in links && links[id].userId == userId {
            links := links[id := links[id].(displayOrder := order)];
          }
        }
        k := k + 1;
      }
      assert items.value[..k] == items.value;
      out := Done;
    }

    /** `update_link`: only the owner's link, only the fields the body carries; a body
        that would set the title or url to NULL fails at the commit and changes nothing. */
    method UpdateLink(userId: int, linkId: int, body: Body) returns (out: LinkOutcome)
      modifies this`links
      ensures out == NotFound <==> linkId !in old(links) || old(links)[linkId].userId != userId
      ensures out == BadRequest <==> linkId in old(links) && old(links)[linkId].userId == userId && Missing(body)
      ensures out.Saved? ==>
        && !Missing(body) && linkId in old(links)
        && Patched(old(links)[linkId], body.value) == (out.link, true)
        && links == old(links)[linkId := out.link]
      ensures out == Failed <==>
        linkId in old(links) && old(links)[linkId].userId == userId && !Missing(body)
        && !Patched(old(links)[linkId], body.value).1
      ensures out in {NotFound, BadRequest, Failed} || out.Saved?
      ensures !out.Saved? ==> links == old(links)
    {
      if linkId !in links || links[linkId].userId != userId {
        return NotFound;
      }
      if Missing(body) {
        return BadRequest;
      }
      var (updated, ok) := Patched(links[linkId], body.value);
      if !ok {
        return Failed;
      }
      links := links[linkId := updated];
      out := Saved(updated);
    }

    /** `create_link`: a body without `title` or `url` is refused with nothing stored. */
    method CreateLink(userId: int, body: Body) returns (out: LinkOutcome)
      modifies this`links, this`nextLinkId
      ensures out == BadRequest <==> Missing(body) || "title" !in body.value || "url" !in body.value
      ensures out == Failed <==>
        && !Missing(body) && "title" in body.value && "url" in body.value
        && (!(body.value["title"].JStr? && body.value["url"].JStr?) || Unstorable(body.value, CreateKeys))
      ensures out in {BadRequest, Failed} || out.Saved?
      ensures !out.Saved? ==> links == old(links) && nextLinkId == old(nextLinkId)
      ensures out.Saved? ==>
        && var d := body.value;
           && out.link == NewLink(old(nextLinkId), userId, d)
           && links == old(links)[old(nextLinkId) := out.link] && nextLinkId == old(nextLinkId) + 1
    {
      if Missing(body) || "title" !in body.value || "url" !in body.value {
        return BadRequest;
      }
      var d := body.value;
      if !(d["title"].JStr? && d["url"].JStr?) || Unstorable(d, CreateKeys) {
        return Failed;   // NOT NULL columns, or a list or object in a column
      }
      var l := NewLink(nextLinkId, userId, d);
      links := links[nextLinkId := l];
      nextLinkId := nextLinkId + 1;
      out := Saved(l);
    }
  }

  /** The columns `create_link` passes the body's value to as it is. */
  const CreateKeys: set<string> := RawKeys + {"is_featured"}

  /** The value an INSERT stores for a column with a default: a missing key or an explicit
      null leaves the column out of the statement, so the default applies. */
  function WithDefault<T>(d: map<string, Json>, key: string, coerce: Json -> Option<T>, default: T): (r: Option<T>)
    ensures key !in d || d[key] == JNull ==> r == Some(default)
    ensures key in d && d[key] != JNull ==> r == coerce(d[key])
  {
    if key in d && d[key] != JNull then coerce(d[key]) else Some(default)
  }

  /** The row `create_link` builds, with the defaults of `data.get` and of the columns. */
  function NewLink(id: int, userId: int, d: map<string, Json>): (l: Link)
    requires "title" in d && "url" in d && d["title"].JStr? && d["url"].JStr?
    ensures l.title == d["title"].s && l.url == d["url"].s && l.userId == userId && l.id == id
    ensures l.isActive && l.clickCount == 0
    ensures l.isFeatured <==> "is_featured" in d && Truthy(d["is_featured"])
    ensures l.displayOrder == (if "display_order" in d && d["display_order"] != JNull
                               then IntOf(d["display_order"]) else Some(0))
    ensures l.linkType == (if "link_type" in d && d["link_type"] != JNull
                           then TextOf(d["link_type"]) else Some("standard"))
    ensures l.settings == (if "settings" in d && d["settings"].JObj? then Some(d["settings"].fields) else None)
  {
    Link(id, userId, d["title"].s, d["url"].s,
         if "description" in d then TextOf(d["description"]) else None,
         if "icon" in d then TextOf(d["icon"]) else None,
         if "custom_image" in d then TextOf(d["custom_image"]) else None,
         if "category" in d then TextOf(d["category"]) else None,
         true,
         "is_featured" in d && Truthy(d["is_featured"]),
         WithDefault(d, "display_order", IntOf, 0),
         0,
         WithDefault(d, "link_type", TextOf, "standard"),
         if "reference_id" in d then IntOf(d["reference_id"]) else None,
         if "settings" in d then SettingsFrom(None, d["settings"]) else None)
  }
}
