// Screen menus: the tree shown to a role, the full tree, the create and
// delete guards, and the seeding of the default menus.

module MenuService {
  import opened Common
  import opened Entities
  import opened Store
  import opened Ordering

  /** One row of the menu table. */
  datatype MenuRow = MenuRow(id: Id, menu: Menu)

  /** A `MenuTreeResponse`: a menu with the nodes built for its children. */
  datatype MenuNode = MenuNode(id: Id, menu: Menu, children: seq<MenuNode>)

  // ----- ORDER BY sort_order -----

  function SortKey(r: MenuRow): int {
    r.menu.sortOrder
  }

  predicate OrderedBySortOrder(rows: seq<MenuRow>) {
    OrderedBy(rows, SortKey)
  }

  /** The table listed by sort_order; rows with equal sort_order keep their relative order. */
  function SortRows(rows: seq<MenuRow>): (r: seq<MenuRow>)
    ensures OrderedBySortOrder(r)
    ensures multiset(r) == multiset(rows)
  {
    SortBy(rows, SortKey)
  }

  // ----- the queries -----

  /** The row is active and hangs under `parent` (no parent at all for the roots). */
  predicate Listed(m: Menu, parent: Option<Id>) {
    m.isActive && m.parentId == parent
  }

  /** `filter(Menu.parent_id == parent, Menu.is_active == True)` over an ordered listing. */
  function Select(rows: seq<MenuRow>, parent: Option<Id>): seq<MenuRow> {
    Where(rows, (r: MenuRow) => Listed(r.menu, parent))
  }

  /** The selection holds exactly the listed rows, and keeps an ordered listing ordered. */
  lemma SelectSpec(rows: seq<MenuRow>, parent: Option<Id>)
    ensures forall x :: x in Select(rows, parent) <==> x in rows && Listed(x.menu, parent)
    ensures OrderedBySortOrder(rows) ==> OrderedBySortOrder(Select(rows, parent))
  {
    WhereMembers(rows, (r: MenuRow) => Listed(r.menu, parent));
    if OrderedBySortOrder(rows) {
      WhereOrdered(rows, (r: MenuRow) => Listed(r.menu, parent), SortKey);
    }
  }

  /** `_build_tree`: a menu with all its active descendants, to `fuel` levels. */
  function FullTree(sorted: seq<MenuRow>, row: MenuRow, fuel: nat): (n: MenuNode)
    ensures n.id == row.id && n.menu == row.menu
    decreases fuel, 0
  {
    MenuNode(row.id, row.menu, if fuel == 0 then [] else FullForest(sorted, Select(sorted, Some(row.id)), fuel - 1))
  }

  /** The full trees of a list of sibling menus, in their order. */
  function FullForest(sorted: seq<MenuRow>, cs: seq<MenuRow>, fuel: nat): (r: seq<MenuNode>)
    ensures |r| == |cs|
    ensures forall i :: 0 <= i < |cs| ==> r[i].id == cs[i].id && r[i].menu == cs[i].menu
    decreases fuel, 1, |cs|
  {
    if cs == [] then [] else [FullTree(sorted, cs[0], fuel)] + FullForest(sorted, cs[1..], fuel)
  }

  /** `get_tree`: the full trees of the active root menus, in sort_order. */
  function GetTree(rows: seq<MenuRow>): (r: seq<MenuNode>)
    ensures forall n :: n in r ==> Listed(n.menu, None)
  {
    var sorted := SortRows(rows);
    var roots := Select(sorted, None);
    var r := FullForest(sorted, roots, |rows|);
    SelectSpec(sorted, None);
    assert forall n :: n in r ==> exists i :: 0 <= i < |r| && r[i] == n && roots[i] in roots;
    r
  }

  // ----- role filtering -----

  /** The menu names roles and the role is not among them; an empty list admits everyone. */
  predicate Denies(m: Menu, role: string) {
    |m.allowedRoles| > 0 && role !in m.allowedRoles
  }

  /**
   * `_build_tree_with_role`: a non-category menu the role is denied vanishes
   * with its whole subtree; a non-category menu is otherwise kept; a category
   * is kept, whatever roles it names, exactly when one of its children is.
   */
  function WithRole(sorted: seq<MenuRow>, row: MenuRow, role: string, fuel: nat): (r: Option<MenuNode>)
    ensures !row.menu.isCategory ==> (r.None? <==> Denies(row.menu, role))
    ensures r.Some? ==> r.value.id == row.id && r.value.menu == row.menu
    decreases fuel, 0
  {
    if !row.menu.isCategory && Denies(row.menu, role) then None
    else
      var kids := if fuel == 0 then [] else KeptForest(sorted, Select(sorted, Some(row.id)), role, fuel - 1);
      if row.menu.isCategory && kids == [] then None
      else Some(MenuNode(row.id, row.menu, kids))
  }

  /** The sibling menus that survive the role filter, in their order (`if child_tree: append`). */
  function KeptForest(sorted: seq<MenuRow>, cs: seq<MenuRow>, role: string, fuel: nat): seq<MenuNode>
    decreases fuel, 1, |cs|
  {
    if cs == [] then []
    else
      var rest := KeptForest(sorted, cs[1..], role, fuel);
      match WithRole(sorted, cs[0], role, fuel)
      case Some(n) => [n] + rest
      case None => rest
  }

  /** No sibling survives exactly when each one is filtered out. */
  lemma {:induction false} KeptForestEmptyIff(sorted: seq<MenuRow>, cs: seq<MenuRow>, role: string, fuel: nat)
    ensures KeptForest(sorted, cs, role, fuel) == [] <==> forall i :: 0 <= i < |cs| ==> WithRole(sorted, cs[i], role, fuel).None?
    decreases |cs|
  {
    if cs != [] {
      KeptForestEmptyIff(sorted, cs[1..], role, fuel);
      assert forall i :: 1 <= i < |cs| ==> cs[i] == cs[1..][i - 1];
    }
  }

  /** A category survives exactly when one of its active children does, whatever roles it names itself. */
  lemma CategoryKeptIffChildKept(sorted: seq<MenuRow>, row: MenuRow, role: string, fuel: nat)
    requires row.menu.isCategory
    ensures WithRole(sorted, row, role, fuel).Some? <==>
      fuel > 0 && exists i :: 0 <= i < |Select(sorted, Some(row.id))| &&
                             WithRole(sorted, Select(sorted, Some(row.id))[i], role, fuel - 1).Some?
  {
    if fuel > 0 {
      var cs := Select(sorted, Some(row.id));
      KeptForestEmptyIff(sorted, cs, role, fuel - 1);
      assert WithRole(sorted, row, role, fuel).Some? <==> KeptForest(sorted, cs, role, fuel - 1) != [];
    }
  }

  /**
   * `get_tree_by_role`: the active root menus that survive the role filter,
   * in sort_order. This is the menu `get_tree` shows with the denied branches
   * cut off, and every root it keeps is an active menu without a parent.
   */
  function TreeByRole(rows: seq<MenuRow>, role: string): (r: seq<MenuNode>)
    ensures r == PruneForest(GetTree(rows), role)
    ensures forall n :: n in r ==> Listed(n.menu, None)
  {
    var sorted := SortRows(rows);
    var roots := Select(sorted, None);
    PruneFullForest(sorted, roots, role, |rows|);
    KeptForestFrom(sorted, roots, role, |rows|);
    SelectSpec(sorted, None);
    KeptForest(sorted, roots, role, |rows|)
  }

  // ----- the role tree is the full tree, pruned -----

  /** Cuts the branches a role may not see from a built tree. */
  function Prune(n: MenuNode, role: string): Option<MenuNode>
    decreases n, 0
  {
    if !n.menu.isCategory && Denies(n.menu, role) then None
    else
      var kids := PruneForest(n.children, role);
      if n.menu.isCategory && kids == [] then None else Some(MenuNode(n.id, n.menu, kids))
  }

  function PruneForest(ns: seq<MenuNode>, role: string): seq<MenuNode>
    decreases ns, 1
  {
    if ns == [] then []
    else
      var rest := PruneForest(ns[1..], role);
      match Prune(ns[0], role)
      case Some(n) => [n] + rest
      case None => rest
  }

  /** Building with the role filter gives the full tree with the denied branches cut off. */
  lemma {:induction false} PruneFullTree(sorted: seq<MenuRow>, row: MenuRow, role: string, fuel: nat)
    ensures Prune(FullTree(sorted, row, fuel), role) == WithRole(sorted, row, role, fuel)
    decreases fuel, 0
  {
    if fuel > 0 {
      PruneFullForest(sorted, Select(sorted, Some(row.id)), role, fuel - 1);
    }
  }

  lemma {:induction false} PruneFullForest(sorted: seq<MenuRow>, cs: seq<MenuRow>, role: string, fuel: nat)
    ensures PruneForest(FullForest(sorted, cs, fuel), role) == KeptForest(sorted, cs, role, fuel)
    decreases fuel, 1, |cs|
  {
    if cs != [] {
      var f := FullForest(sorted, cs, fuel);
      assert f[0] == FullTree(sorted, cs[0], fuel) && f[1..] == FullForest(sorted, cs[1..], fuel);
      PruneFullTree(sorted, cs[0], role, fuel);
      PruneFullForest(sorted, cs[1..], role, fuel);
    }
  }

  /** Each kept node is built from one of the siblings it was chosen among. */
  lemma {:induction false} KeptForestFrom(sorted: seq<MenuRow>, cs: seq<MenuRow>, role: string, fuel: nat)
    ensures forall n :: n in KeptForest(sorted, cs, role, fuel) ==> MenuRow(n.id, n.menu) in cs
    decreases |cs|
  {
    if cs != [] {
      KeptForestFrom(sorted, cs[1..], role, fuel);
    }
  }

  // ----- kept children are a subsequence of the active children -----

  /** `a` is `b` with some elements left out, order kept. */
  predicate IsSubsequence(a: seq<Id>, b: seq<Id>)
    decreases |b|
  {
    a == [] || (b != [] && ((a[0] == b[0] && IsSubsequence(a[1..], b[1..])) || IsSubsequence(a, b[1..])))
  }

  /** The ids of a sequence of menu rows or tree nodes, in order. */
  function Ids<T>(xs: seq<T>, id: T -> Id): (r: seq<Id>)
    ensures |r| == |xs| && forall i :: 0 <= i < |xs| ==> r[i] == id(xs[i])
  {
    seq(|xs|, i requires 0 <= i < |xs| => id(xs[i]))
  }

  function NodeId(n: MenuNode): Id { n.id }

  function RowId(row: MenuRow): Id { row.id }

  lemma {:induction false} KeptForestSubsequence(sorted: seq<MenuRow>, cs: seq<MenuRow>, role: string, fuel: nat)
    ensures IsSubsequence(Ids(KeptForest(sorted, cs, role, fuel), NodeId), Ids(cs, RowId))
    decreases |cs|
  {
    if cs != [] {
      KeptForestSubsequence(sorted, cs[1..], role, fuel);
      var rest := Ids(KeptForest(sorted, cs[1..], role, fuel), NodeId);
      assert Ids(cs, RowId)[1..] == Ids(cs[1..], RowId);
      if WithRole(sorted, cs[0], role, fuel).Some? {
        assert Ids(KeptForest(sorted, cs, role, fuel), NodeId) == [cs[0].id] + rest;
        assert Ids(KeptForest(sorted, cs, role, fuel), NodeId)[1..] == rest;
      } else {
        assert Ids(KeptForest(sorted, cs, role, fuel), NodeId) == rest;
      }
    }
  }

  /**
   * The children a role sees under a menu are some of its active children,
   * which come ordered by sort_order when the table listing is, in the same order.
   */
  lemma KeptChildrenInOrder(sorted: seq<MenuRow>, row: MenuRow, role: string, fuel: nat)
    requires WithRole(sorted, row, role, fuel).Some? && fuel > 0
    ensures OrderedBySortOrder(sorted) ==> OrderedBySortOrder(Select(sorted, Some(row.id)))
    ensures IsSubsequence(Ids(WithRole(sorted, row, role, fuel).value.children, NodeId), Ids(Select(sorted, Some(row.id)), RowId))
  {
    var cs := Select(sorted, Some(row.id));
    assert WithRole(sorted, row, role, fuel).value.children == KeptForest(sorted, cs, role, fuel - 1);
    KeptForestSubsequence(sorted, cs, role, fuel - 1);
    SelectSpec(sorted, Some(row.id));
  }

  // ----- create and delete -----

  /** `create`: a parent id that is given must exist. */
  method CreateMenu(db: Db, data: Menu) returns (r: Result<Id>)
    requires db.Valid()
    modifies db`menus, db`nextId
    ensures db.Valid()
    ensures r.Err? <==> IdGiven(data.parentId) && data.parentId.value !in old(db.menus)
    ensures r.Err? ==> r.error == ParentNotFound && unchanged(db)
    ensures r.Ok? ==> r.value !in old(db.menus) && db.menus == old(db.menus)[r.value := data]
  {
    if IdGiven(data.parentId) && data.parentId.value !in db.menus {
      return Err(ParentNotFound);
    }
    var id := db.FreshId();
    db.menus := db.menus[id := data];
    r := Ok(id);
  }

  /** Some menu, active or not, names `id` as its parent. */
  predicate HasChildMenu(menus: map<Id, Menu>, id: Id) {
    exists k :: k in menus && menus[k].parentId == Some(id)
  }

  /** `delete`: false for an absent menu, refused while any menu hangs under it. */
  method DeleteMenu(db: Db, id: Id) returns (r: Result<bool>)
    requires db.Valid()
    modifies db`menus
    ensures db.Valid()
    ensures id !in old(db.menus) ==> r == Ok(false)
    ensures id in old(db.menus) && HasChildMenu(old(db.menus), id) ==> r == Err(HasChildren)
    ensures id in old(db.menus) && !HasChildMenu(old(db.menus), id) ==> r == Ok(true) && db.menus == old(db.menus) - {id}
    ensures r != Ok(true) ==> unchanged(db)
  {
    if id !in db.menus {
      return Ok(false);
    }
    if HasChildMenu(db.menus, id) {
      return Err(HasChildren);
    }
    db.menus := db.menus - {id};
    r := Ok(true);
  }

  // ----- default menus -----

  /** One entry of the default menu list: the parent is named, not numbered. */
  datatype DefaultMenu = DefaultMenu(
    name: string, path: Option<string>, sortOrder: int, isCategory: bool,
    parentName: Option<string>, allowedRoles: seq<string>)

  const Everyone: seq<string> := ["admin", "sales_office", "tailor_company", "general"]

  const Defaults: seq<DefaultMenu> := [
    DefaultMenu("대시보드", Some("/"), 0, false, None, Everyone),
    DefaultMenu("시스템 관리", None, 10, true, None, ["admin"]),
    DefaultMenu("사용자 관리", Some("/admin/users"), 11, false, Some("시스템 관리"), ["admin"]),
    DefaultMenu("피복판매소 관리", Some("/admin/sales-offices"), 12, false, Some("시스템 관리"), ["admin"]),
    DefaultMenu("체척업체 관리", Some("/admin/tailor-companies"), 13, false, Some("시스템 관리"), ["admin"]),
    DefaultMenu("화면 관리", Some("/admin/menus"), 14, false, Some("시스템 관리"), ["admin"]),
    DefaultMenu("품목 관리", None, 20, true, None, ["admin"]),
    DefaultMenu("카테고리 관리", Some("/admin/categories"), 21, false, Some("품목 관리"), ["admin"]),
    DefaultMenu("피복 품목 관리", Some("/admin/clothing"), 22, false, Some("품목 관리"), ["admin"]),
    DefaultMenu("포인트 관리", None, 30, true, None, ["admin"]),
    DefaultMenu("포인트 지급", Some("/admin/points"), 31, false, Some("포인트 관리"), ["admin"]),
    DefaultMenu("판매 관리", None, 40, true, None, ["sales_office"]),
    DefaultMenu("오프라인 판매", Some("/sales/offline"), 41, false, Some("판매 관리"), ["sales_office"]),
    DefaultMenu("온라인 주문 관리", Some("/sales/orders"), 42, false, Some("판매 관리"), ["sales_office"]),
    DefaultMenu("재고 관리", Some("/sales/inventory"), 43, false, Some("판매 관리"), ["sales_office"]),
    DefaultMenu("반품 처리", Some("/sales/refund"), 44, false, Some("판매 관리"), ["sales_office"]),
    DefaultMenu("통계", Some("/sales/stats"), 45, false, Some("판매 관리"), ["sales_office"]),
    DefaultMenu("쇼핑몰", None, 50, true, None, ["admin", "general"]),
    DefaultMenu("피복 쇼핑", Some("/user/shop"), 51, false, Some("쇼핑몰"), ["admin", "general"]),
    DefaultMenu("장바구니", Some("/user/cart"), 52, false, Some("쇼핑몰"), ["admin", "general"]),
    DefaultMenu("주문/배송 조회", Some("/user/orders"), 53, false, Some("쇼핑몰"), ["admin", "general"]),
    DefaultMenu("포인트 조회", Some("/user/points"), 54, false, Some("쇼핑몰"), ["admin", "general"]),
    DefaultMenu("체척권 관리", None, 60, true, None, ["tailor_company"]),
    DefaultMenu("체척권 등록", Some("/tailor/register"), 61, false, Some("체척권 관리"), ["tailor_company"]),
    DefaultMenu("체척권 현황", Some("/tailor/vouchers"), 62, false, Some("체척권 관리"), ["tailor_company"]),
    DefaultMenu("내 정보", None, 70, true, None, Everyone),
    DefaultMenu("프로필", Some("/user/profile"), 71, false, Some("내 정보"), Everyone)
  ]

  /** The parent a seeded entry links to: the id recorded under its parent name, if any. */
  function SeedParent(byName: map<string, Id>, parentName: Option<string>): Option<Id> {
    if Truthy(parentName) && parentName.value in byName then Some(byName[parentName.value]) else None
  }

  function SeedMenu(d: DefaultMenu, parent: Option<Id>): Menu {
    Menu(d.name, d.path, parent, d.sortOrder, d.isCategory, true, d.allowedRoles)
  }

  /** `parent_map` after seeding `defs` with ids from `firstId` on. */
  function SeedNames(defs: seq<DefaultMenu>, firstId: Id): map<string, Id>
    decreases |defs|
  {
    if defs == [] then map[]
    else SeedNames(defs[..|defs| - 1], firstId)[defs[|defs| - 1].name := firstId + |defs| - 1]
  }

  /** The menus seeding `defs` inserts, with ids from `firstId` on. */
  function Seeded(defs: seq<DefaultMenu>, firstId: Id): (r: map<Id, Menu>)
    ensures forall k :: k in r <==> firstId <= k < firstId + |defs|
    decreases |defs|
  {
    if defs == [] then map[]
    else
      var init := defs[..|defs| - 1];
      var d := defs[|defs| - 1];
      Seeded(init, firstId)[firstId + |defs| - 1 := SeedMenu(d, SeedParent(SeedNames(init, firstId), d.parentName))]
  }

  /** A recorded name maps to the id of an entry that has that name. */
  lemma {:induction false} SeedNameSound(defs: seq<DefaultMenu>, firstId: Id, name: string)
    requires name in SeedNames(defs, firstId)
    ensures firstId <= SeedNames(defs, firstId)[name] < firstId + |defs|
    ensures defs[SeedNames(defs, firstId)[name] - firstId].name == name
    decreases |defs|
  {
    var init := defs[..|defs| - 1];
    if name != defs[|defs| - 1].name {
      SeedNameSound(init, firstId, name);
      assert init[SeedNames(init, firstId)[name] - firstId] == defs[SeedNames(init, firstId)[name] - firstId];
    }
  }

  /** Every entry's name is recorded. */
  lemma {:induction false} SeedNameRecorded(defs: seq<DefaultMenu>, firstId: Id, j: nat)
    requires j < |defs|
    ensures defs[j].name in SeedNames(defs, firstId)
    decreases |defs|
  {
    var init := defs[..|defs| - 1];
    if j < |defs| - 1 {
      SeedNameRecorded(init, firstId, j);
      assert init[j] == defs[j];
    }
  }

  /** The entry at position `i` is seeded with the parent recorded by the entries before it. */
  lemma {:induction false} SeededAt(defs: seq<DefaultMenu>, firstId: Id, i: nat)
    requires i < |defs|
    ensures firstId + i in Seeded(defs, firstId)
    ensures Seeded(defs, firstId)[firstId + i] == SeedMenu(defs[i], SeedParent(SeedNames(defs[..i], firstId), defs[i].parentName))
    decreases |defs|
  {
    var init := defs[..|defs| - 1];
    if i < |defs| - 1 {
      SeededAt(init, firstId, i);
      assert init[..i] == defs[..i];
    }
  }

  /** A seeded menu with a parent links to an earlier entry carrying its parent name. */
  lemma SeededParents(defs: seq<DefaultMenu>, firstId: Id, i: nat)
    requires i < |defs|
    ensures var p := Seeded(defs, firstId)[firstId + i].parentId;
      p.Some? ==> Truthy(defs[i].parentName) && firstId <= p.value < firstId + i &&
                  defs[p.value - firstId].name == defs[i].parentName.value
  {
    SeededAt(defs, firstId, i);
    var names := SeedNames(defs[..i], firstId);
    var pn := defs[i].parentName;
    if Truthy(pn) && pn.value in names {
      SeedNameSound(defs[..i], firstId, pn.value);
      assert defs[..i][names[pn.value] - firstId] == defs[names[pn.value] - firstId];
    }
  }

  /** A seeded menu whose parent name was carried by an earlier entry gets a parent. */
  lemma SeededParentFound(defs: seq<DefaultMenu>, firstId: Id, i: nat, j: nat)
    requires j < i < |defs| && Truthy(defs[i].parentName) && defs[j].name == defs[i].parentName.value
    ensures Seeded(defs, firstId)[firstId + i].parentId.Some?
  {
    SeededAt(defs, firstId, i);
    SeedNameRecorded(defs[..i], firstId, j);
    assert defs[..i][j] == defs[j];
  }

  /** One more entry seeded: its menu under the next id, and its name recorded. */
  lemma SeedStep(defs: seq<DefaultMenu>, firstId: Id, i: nat)
    requires i < |defs|
    ensures Seeded(defs[..i + 1], firstId) ==
      Seeded(defs[..i], firstId)[firstId + i := SeedMenu(defs[i], SeedParent(SeedNames(defs[..i], firstId), defs[i].parentName))]
    ensures SeedNames(defs[..i + 1], firstId) == SeedNames(defs[..i], firstId)[defs[i].name := firstId + i]
  {
    assert defs[..i + 1][..i] == defs[..i];
  }

  /** The state after seeding the first `i` entries from id `firstId` on. */
  ghost predicate SeededUpTo(db: Db, defs: seq<DefaultMenu>, firstId: Id, i: nat, parentMap: map<string, Id>)
    reads db
  {
    && i <= |defs| && db.Valid() && db.nextId == firstId + i
    && db.menus == Seeded(defs[..i], firstId)
    && parentMap == SeedNames(defs[..i], firstId)
  }

  /** One pass of the seeding loop: the entry's menu under a fresh id, and its name recorded. */
  method SeedOne(db: Db, defs: seq<DefaultMenu>, ghost firstId: Id, i: nat, parentMap: map<string, Id>)
    returns (parentMap': map<string, Id>)
    requires SeededUpTo(db, defs, firstId, i, parentMap) && i < |defs|
    modifies db`menus, db`nextId
    ensures SeededUpTo(db, defs, firstId, i + 1, parentMap')
  {
    var d := defs[i];
    var parent := SeedParent(parentMap, d.parentName);
    var id := db.FreshId();
    SeedStep(defs, firstId, i);
    db.menus := db.menus[id := SeedMenu(d, parent)];
    parentMap' := parentMap[d.name := id];
  }

  /** Inserts `defs` into the empty table in order, linking each entry to the id last recorded under its parent name. */
  method SeedMenus(db: Db, defs: seq<DefaultMenu>)
    requires db.Valid() && db.menus == map[]
    modifies db`menus, db`nextId
    ensures db.Valid()
    ensures db.menus == Seeded(defs, old(db.nextId)) && db.nextId == old(db.nextId) + |defs|
  {
    var parentMap: map<string, Id> := map[];
    ghost var firstId := db.nextId;
    var i := 0;
    assert defs[..0] == [];
    while i < |defs|
      invariant SeededUpTo(db, defs, firstId, i, parentMap)
    {
      parentMap := SeedOne(db, defs, firstId, i, parentMap);
      i := i + 1;
    }
    assert defs[..i] == defs;
  }

  /**
   * `initialize_default_menus`: nothing when any menu exists; otherwise the
   * default entries in list order, each linked to its parent by name.
   */
  method InitializeDefaultMenus(db: Db)
    requires db.Valid()
    modifies db`menus, db`nextId
    ensures db.Valid()
    ensures |old(db.menus)| > 0 ==> unchanged(db)
    ensures |old(db.menus)| == 0 ==>
      db.menus == Seeded(Defaults, old(db.nextId)) && db.nextId == old(db.nextId) + |Defaults|
  {
    if |db.menus| > 0 {
      return;
    }
    assert db.menus == map[];
    SeedMenus(db, Defaults);
  }
}
