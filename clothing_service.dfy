// The clothing catalogue: the category tree, the category closure used to
// list items, the category and spec guards, and the item listing's paging.

module ClothingService {
  import opened Common
  import opened Entities
  import opened Store
  import opened Ordering
  import Paging

  /** One row of the category table. */
  datatype CategoryRow = CategoryRow(id: Id, category: Category)

  /** A `CategoryTreeResponse`: a category with the nodes built for its children. */
  datatype CategoryNode = CategoryNode(id: Id, category: Category, children: seq<CategoryNode>)

  function SortKey(r: CategoryRow): int {
    r.category.sortOrder
  }

  predicate ChildOf(r: CategoryRow, id: Id) {
    r.category.parentId == Some(id)
  }

  predicate ActiveChildOf(r: CategoryRow, id: Id) {
    r.category.isActive && ChildOf(r, id)
  }

  predicate ActiveLarge(r: CategoryRow) {
    r.category.isActive && r.category.level == Large
  }

  // ----- get_tree -----

  /** `_build_tree`: a category with its active descendants in sort_order, to `fuel` levels. */
  function CategoryTree(sorted: seq<CategoryRow>, row: CategoryRow, fuel: nat): (n: CategoryNode)
    ensures n.id == row.id && n.category == row.category
    decreases fuel, 0
  {
    CategoryNode(row.id, row.category,
      if fuel == 0 then [] else CategoryForest(sorted, Where(sorted, r => ActiveChildOf(r, row.id)), fuel - 1))
  }

  function CategoryForest(sorted: seq<CategoryRow>, cs: seq<CategoryRow>, fuel: nat): (r: seq<CategoryNode>)
    ensures |r| == |cs|
    ensures forall i :: 0 <= i < |cs| ==> r[i].id == cs[i].id && r[i].category == cs[i].category
    decreases fuel, 1, |cs|
  {
    if cs == [] then [] else [CategoryTree(sorted, cs[0], fuel)] + CategoryForest(sorted, cs[1..], fuel)
  }

  /**
   * `get_tree`: the trees of the active LARGE categories, in sort_order. Its
   * roots are LARGE, and only active categories appear at any depth.
   */
  function GetTree(rows: seq<CategoryRow>): (r: seq<CategoryNode>)
    ensures forall n :: n in r ==> n.category.level == Large && ActiveTree(n)
  {
    var sorted := SortBy(rows, SortKey);
    GetTreeShape(sorted, |rows|);
    CategoryForest(sorted, Where(sorted, ActiveLarge), |rows|)
  }

  /** Every node of the tree is an active category, and every child names its node as parent. */
  predicate ActiveTree(n: CategoryNode)
    decreases n, 0
  {
    n.category.isActive && ActiveForestUnder(n.children, n.id)
  }

  predicate ActiveForestUnder(ns: seq<CategoryNode>, parent: Id)
    decreases ns, 1
  {
    ns == [] || (ns[0].category.parentId == Some(parent) && ActiveTree(ns[0]) && ActiveForestUnder(ns[1..], parent))
  }

  lemma {:induction false} CategoryTreeActive(sorted: seq<CategoryRow>, row: CategoryRow, fuel: nat)
    requires row.category.isActive
    ensures ActiveTree(CategoryTree(sorted, row, fuel))
    decreases fuel, 0
  {
    if fuel > 0 {
      var cs := Where(sorted, r => ActiveChildOf(r, row.id));
      WhereMembers(sorted, r => ActiveChildOf(r, row.id));
      CategoryForestActive(sorted, cs, row.id, fuel - 1);
    }
  }

  lemma {:induction false} CategoryForestActive(sorted: seq<CategoryRow>, cs: seq<CategoryRow>, parent: Id, fuel: nat)
    requires forall c :: c in cs ==> ActiveChildOf(c, parent)
    ensures ActiveForestUnder(CategoryForest(sorted, cs, fuel), parent)
    decreases fuel, 1, |cs|
  {
    if cs != [] {
      var f := CategoryForest(sorted, cs, fuel);
      assert f[0] == CategoryTree(sorted, cs[0], fuel) && f[1..] == CategoryForest(sorted, cs[1..], fuel);
      assert cs[0] in cs;
      CategoryTreeActive(sorted, cs[0], fuel);
      CategoryForestActive(sorted, cs[1..], parent, fuel);
    }
  }

  /** The tree's roots are active LARGE categories, and below them only active categories appear. */
  lemma GetTreeShape(sorted: seq<CategoryRow>, fuel: nat)
    ensures forall n :: n in CategoryForest(sorted, Where(sorted, ActiveLarge), fuel) ==> n.category.level == Large && ActiveTree(n)
  {
    var roots := Where(sorted, ActiveLarge);
    WhereMembers(sorted, ActiveLarge);
    var f := CategoryForest(sorted, roots, fuel);
    forall n | n in f ensures n.category.level == Large && ActiveTree(n) {
      var i :| 0 <= i < |f| && f[i] == n;
      assert roots[i] in roots;
      RootTreeIsAt(sorted, roots, fuel, i);
      CategoryTreeActive(sorted, roots[i], fuel);
    }
  }

  lemma {:induction false} RootTreeIsAt(sorted: seq<CategoryRow>, cs: seq<CategoryRow>, fuel: nat, i: nat)
    requires i < |cs|
    ensures CategoryForest(sorted, cs, fuel)[i] == CategoryTree(sorted, cs[i], fuel)
    decreases |cs|
  {
    if i > 0 {
      RootTreeIsAt(sorted, cs[1..], fuel, i - 1);
    }
  }

  // ----- _get_descendant_ids -----

  /** The category itself, then the closures of all its children, active or not, in table order. */
  function DescendantIds(rows: seq<CategoryRow>, id: Id, fuel: nat): (r: seq<Id>)
    ensures |r| >= 1 && r[0] == id
    decreases fuel, 0
  {
    [id] + (if fuel == 0 then [] else DescendantsOf(rows, Where(rows, r => ChildOf(r, id)), fuel - 1))
  }

  function DescendantsOf(rows: seq<CategoryRow>, cs: seq<CategoryRow>, fuel: nat): (r: seq<Id>)
    ensures forall c :: c in cs ==> c.id in r
    decreases fuel, 1, |cs|
  {
    if cs == [] then [] else DescendantIds(rows, cs[0].id, fuel) + DescendantsOf(rows, cs[1..], fuel)
  }

  /** `x` is `id` or lies below it within `n` parent links. */
  ghost predicate Reaches(rows: seq<CategoryRow>, id: Id, x: Id, n: nat)
    decreases n
  {
    x == id || (n > 0 && exists c :: c in rows && ChildOf(c, id) && Reaches(rows, c.id, x, n - 1))
  }

  /** The closure lists exactly the categories reachable through parent links. */
  lemma {:induction false} DescendantIdsExact(rows: seq<CategoryRow>, id: Id, x: Id, fuel: nat)
    ensures x in DescendantIds(rows, id, fuel) <==> Reaches(rows, id, x, fuel)
    decreases fuel, 0
  {
    if fuel > 0 {
      var cs := Where(rows, r => ChildOf(r, id));
      WhereMembers(rows, r => ChildOf(r, id));
      DescendantsOfExact(rows, cs, x, fuel - 1);
    }
  }

  lemma {:induction false} DescendantsOfExact(rows: seq<CategoryRow>, cs: seq<CategoryRow>, x: Id, fuel: nat)
    ensures x in DescendantsOf(rows, cs, fuel) <==> exists c :: c in cs && Reaches(rows, c.id, x, fuel)
    decreases fuel, 1, |cs|
  {
    if cs != [] {
      DescendantIdsExact(rows, cs[0].id, x, fuel);
      DescendantsOfExact(rows, cs[1..], x, fuel);
      assert forall c :: c in cs <==> c == cs[0] || c in cs[1..];
    }
  }

  /** `_get_descendant_ids` on the table, deep enough for any chain of distinct categories. */
  function GetDescendantIds(rows: seq<CategoryRow>, id: Id): (r: seq<Id>)
    ensures |r| >= 1 && r[0] == id
  {
    DescendantIds(rows, id, |rows|)
  }

  /**
   * An inactive child is part of the closure, though the tree never shows
   * it: the closure ignores `is_active`, the tree does not.
   */
  lemma InactiveChildListedNotShown(rows: seq<CategoryRow>, row: CategoryRow, c: CategoryRow, fuel: nat)
    requires c in rows && ChildOf(c, row.id) && !c.category.isActive && fuel > 0
    ensures c.id in DescendantIds(rows, row.id, fuel)
    ensures forall n :: n in CategoryTree(SortBy(rows, SortKey), row, fuel).children ==> n.category != c.category
  {
    assert Reaches(rows, c.id, c.id, fuel - 1);
    DescendantIdsExact(rows, row.id, c.id, fuel);
    var sorted := SortBy(rows, SortKey);
    var cs := Where(sorted, r => ActiveChildOf(r, row.id));
    WhereMembers(sorted, r => ActiveChildOf(r, row.id));
    var f := CategoryForest(sorted, cs, fuel - 1);
    forall n | n in f ensures n.category != c.category {
      var i :| 0 <= i < |f| && f[i] == n;
      assert cs[i] in cs;
    }
  }

  // ----- get_list -----

  /** The filters of `get_list`. */
  datatype ListQuery = ListQuery(
    categoryId: Option<Id>, clothingType: Option<ClothingType>, isActive: Option<bool>, keyword: Option<string>)

  predicate IsPrefix(a: string, b: string) {
    |a| <= |b| && b[..|a|] == a
  }

  /** `name.contains(keyword)`: the keyword occurs in the name. */
  predicate Contains(s: string, sub: string) {
    exists i :: 0 <= i <= |s| && IsPrefix(sub, s[i..])
  }

  /** An item passes every filter that was given; a category filter admits the whole subtree. */
  predicate Matches(item: ClothingItem, q: ListQuery, rows: seq<CategoryRow>) {
    && (IdGiven(q.categoryId) ==> item.categoryId in GetDescendantIds(rows, q.categoryId.value))
    && (q.clothingType.Some? ==> item.clothingType == q.clothingType.value)
    && (q.isActive.Some? ==> item.isActive == q.isActive.value)
    && (Truthy(q.keyword) ==> Contains(item.name, q.keyword.value))
  }

  /** The counts `get_list` reports. */
  datatype ListPage = ListPage(total: nat, totalPages: nat, offset: int)

  function GetList(items: map<Id, ClothingItem>, rows: seq<CategoryRow>, q: ListQuery, page: int, pageSize: int): (r: ListPage)
    requires page >= 1 && 1 <= pageSize <= 100
    ensures r.total == |set k | k in items && Matches(items[k], q, rows)|
    ensures r.totalPages * pageSize >= r.total && (r.totalPages > 0 ==> (r.totalPages - 1) * pageSize < r.total)
    ensures r.offset == (page - 1) * pageSize
    ensures r.offset < r.total <==> page <= r.totalPages
  {
    var total := |set k | k in items && Matches(items[k], q, rows)|;
    Paging.PageNonEmptyIffWithinCount(total, page, pageSize);
    ListPage(total, Paging.TotalPages(total, pageSize), Paging.Offset(page, pageSize))
  }

  // ----- category guards -----

  /** A `CategoryCreate`. */
  datatype CategoryRequest = CategoryRequest(name: string, level: CategoryLevel, parentId: Option<Id>, sortOrder: int)

  /**
   * `CategoryService.create`: a given parent must exist and must not be a
   * SMALL category; the new category's own level is not checked against it.
   */
  method CreateCategory(db: Db, data: CategoryRequest) returns (r: Result<Id>)
    requires db.Valid()
    modifies db`categories, db`nextId
    ensures db.Valid()
    ensures IdGiven(data.parentId) && data.parentId.value !in old(db.categories) ==> r == Err(ParentNotFound)
    ensures (IdGiven(data.parentId) && data.parentId.value in old(db.categories) &&
             old(db.categories)[data.parentId.value].level == Small) ==> r == Err(ParentTooDeep)
    ensures r.Err? ==> unchanged(db)
    ensures r.Ok? <==> !IdGiven(data.parentId) ||
                       (data.parentId.value in old(db.categories) && old(db.categories)[data.parentId.value].level != Small)
    ensures r.Ok? ==>
      && r.value !in old(db.categories)
      && db.categories == old(db.categories)[r.value := Category(data.name, data.level, data.parentId, true, data.sortOrder)]
  {
    if IdGiven(data.parentId) {
      if data.parentId.value !in db.categories {
        return Err(ParentNotFound);
      }
      if db.categories[data.parentId.value].level == Small {
        return Err(ParentTooDeep);
      }
    }
    var id := db.FreshId();
    db.categories := db.categories[id := Category(data.name, data.level, data.parentId, true, data.sortOrder)];
    r := Ok(id);
  }

  predicate HasChildCategory(cats: map<Id, Category>, id: Id) {
    exists k :: k in cats && cats[k].parentId == Some(id)
  }

  predicate HasItemIn(items: map<Id, ClothingItem>, id: Id) {
    exists k :: k in items && items[k].categoryId == id
  }

  /** `CategoryService.delete`: false when absent; refused while a category or an item hangs under it. */
  method DeleteCategory(db: Db, id: Id) returns (r: Result<bool>)
    requires db.Valid()
    modifies db`categories
    ensures db.Valid()
    ensures id !in old(db.categories) ==> r == Ok(false)
    ensures id in old(db.categories) && HasChildCategory(old(db.categories), id) ==> r == Err(HasChildren)
    ensures id in old(db.categories) && !HasChildCategory(old(db.categories), id) && HasItemIn(db.items, id) ==> r == Err(HasItems)
    ensures r == Ok(true) <==> id in old(db.categories) && !HasChildCategory(old(db.categories), id) && !HasItemIn(db.items, id)
    ensures r == Ok(true) ==> db.categories == old(db.categories) - {id}
    ensures r != Ok(true) ==> unchanged(db)
  {
    if id !in db.categories {
      return Ok(false);
    }
    if HasChildCategory(db.categories, id) {
      return Err(HasChildren);
    }
    if HasItemIn(db.items, id) {
      return Err(HasItems);
    }
    db.categories := db.categories - {id};
    r := Ok(true);
  }

  // ----- specs -----

  /** A `SpecCreate`. */
  datatype SpecRequest = SpecRequest(specCode: string, size: string, price: int)

  /** No item has two specs with the same code. */
  ghost predicate SpecCodesUnique(specs: map<Id, ClothingSpec>) {
    forall a, b :: a in specs && b in specs && a != b && specs[a].itemId == specs[b].itemId ==>
      specs[a].specCode != specs[b].specCode
  }

  predicate CodeTaken(specs: map<Id, ClothingSpec>, itemId: Id, code: string) {
    exists k :: k in specs && specs[k].itemId == itemId && specs[k].specCode == code
  }

  /** `create_spec`: the item must exist and the code must be new for that item. */
  method CreateSpec(db: Db, itemId: Id, data: SpecRequest) returns (r: Result<Id>)
    requires db.Valid()
    modifies db`specs, db`nextId
    ensures db.Valid()
    ensures itemId !in db.items ==> r == Err(ItemNotFound)
    ensures itemId in db.items && CodeTaken(old(db.specs), itemId, data.specCode) ==> r == Err(DuplicateSpecCode)
    ensures r.Ok? <==> itemId in db.items && !CodeTaken(old(db.specs), itemId, data.specCode)
    ensures r.Err? ==> unchanged(db)
    ensures r.Ok? ==>
      && r.value !in old(db.specs)
      && db.specs == old(db.specs)[r.value := ClothingSpec(itemId, data.specCode, data.size, data.price, true)]
    ensures SpecCodesUnique(old(db.specs)) ==> SpecCodesUnique(db.specs)
  {
    if itemId !in db.items {
      return Err(ItemNotFound);
    }
    if CodeTaken(db.specs, itemId, data.specCode) {
      return Err(DuplicateSpecCode);
    }
    var id := db.FreshId();
    db.specs := db.specs[id := ClothingSpec(itemId, data.specCode, data.size, data.price, true)];
    r := Ok(id);
  }
}
