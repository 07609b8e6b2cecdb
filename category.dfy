/** The category service (services/category.service.ts): adding, renaming
    and deleting categories with unique names, and the cached list of all
    categories under the key "categories". The cache server may be out of
    reach, which `reachable` says; a failed invalidation is swallowed. */
module Categories {
  import opened Wrappers
  import opened Text
  import opened Schema
  import opened Rows
  import opened Tables

  const CacheKey := "categories"

  datatype CategoryRequest = CategoryRequest(name: string, imageUrl: string)

  // ------------------------------------------------------------- messages

  /** The duplicate-name message as written: the template refers to a
      global `name` that Node does not define, so building the message
      throws a ReferenceError and this is the message the caller gets. */
  function DuplicateNameAsWritten(name: string): string {
    "name is not defined"
  }

  /** The duplicate-name message as intended, naming the category. */
  function DuplicateName(name: string): (m: string)
    ensures |m| == 19 + |name| + 15
    ensures m[19..19 + |name|] == name
  {
    "Category with name " + name + " already exists"
  }

  /** The message as written never names the category, and is the same
      whatever the name. */
  lemma AsWrittenLosesName(name: string, other: string)
    ensures DuplicateNameAsWritten(name) == DuplicateNameAsWritten(other)
    ensures DuplicateNameAsWritten(name) != DuplicateName(name)
  {
    assert |DuplicateName(name)| >= 34;
  }

  /** The intended message tells different names apart. */
  lemma DuplicateNameInjective(a: string, b: string)
    requires DuplicateName(a) == DuplicateName(b)
    ensures a == b
  {
    assert |a| == |b|;
    assert a == DuplicateName(a)[19..19 + |a|];
  }

  function MissingId(id: Id): string {
    "Category with id " + id + " does not exist"
  }

  // ---------------------------------------------------------- invariants

  /** Some category other than `except` is called `name`. */
  predicate NameTaken(categories: seq<Category>, name: string, except: Option<Id>) {
    exists i :: 0 <= i < |categories| && categories[i].name == name &&
                (except.None? || categories[i].id != except.value)
  }

  predicate UniqueNames(categories: seq<Category>) {
    forall i, j :: 0 <= i < j < |categories| ==> categories[i].name != categories[j].name
  }

  predicate UniqueIds(categories: seq<Category>) {
    forall i, j :: 0 <= i < j < |categories| ==> categories[i].id != categories[j].id
  }

  /** The cached list, when there is one, is the table sorted by name from
      Z to A. */
  predicate CacheCoherent(entries: map<string, CacheValue>, categories: seq<Category>) {
    CacheKey in entries ==> entries[CacheKey] == CategoriesValue(ByNameDesc(categories))
  }

  // --------------------------------------------------------------- cache

  function NameDesc(): (Category, Category) -> bool {
    (a: Category, b: Category) => LexLe(b.name, a.name)
  }

  function ByNameDesc(categories: seq<Category>): seq<Category> {
    SortBy(categories, NameDesc())
  }

  /** The list is the whole table, each category once, from Z to A. */
  lemma ByNameDescSorted(categories: seq<Category>)
    ensures SortedBy(ByNameDesc(categories), NameDesc())
    ensures multiset(ByNameDesc(categories)) == multiset(categories)
  {
    var le := NameDesc();
    forall a: Category, b: Category ensures le(a, b) || le(b, a) {
      LexLeTotal(a.name, b.name);
    }
    forall a: Category, b: Category, c: Category | le(a, b) && le(b, c) ensures le(a, c) {
      LexLeTransitive(c.name, b.name, a.name);
    }
    SortBySorted(categories, le);
  }

  /** invalidateCache: removes the key; an unreachable cache changes
      nothing and raises nothing. */
  method InvalidateCache(cache: Redis, reachable: bool)
    modifies cache`entries
    ensures cache.entries == if reachable then old(cache.entries) - {CacheKey} else old(cache.entries)
    ensures reachable ==> CacheKey !in cache.entries
  {
    if reachable {
      cache.entries := cache.entries - {CacheKey};
    }
  }

  /** getAllCategories: the cached list when there is one; otherwise the
      table sorted by name from Z to A, which is then cached. */
  method GetAllCategories(db: Database, cache: Redis) returns (list: seq<Category>)
    modifies cache`entries
    ensures CacheKey in old(cache.entries) && old(cache.entries)[CacheKey].CategoriesValue? ==>
      list == old(cache.entries)[CacheKey].list && cache.entries == old(cache.entries)
    ensures !(CacheKey in old(cache.entries) && old(cache.entries)[CacheKey].CategoriesValue?) ==>
      list == ByNameDesc(db.categories) &&
      cache.entries == old(cache.entries)[CacheKey := CategoriesValue(list)]
    ensures CacheCoherent(old(cache.entries), db.categories) ==>
      list == ByNameDesc(db.categories) && CacheCoherent(cache.entries, db.categories)
  {
    if CacheKey in cache.entries && cache.entries[CacheKey].CategoriesValue? {
      return cache.entries[CacheKey].list;
    }
    list := ByNameDesc(db.categories);
    cache.entries := cache.entries[CacheKey := CategoriesValue(list)];
  }

  // -------------------------------------------------------------- writes

  /** addCategory: a name already in use is refused; otherwise the row is
      inserted and the cached list dropped. */
  method AddCategory(db: Database, cache: Redis, id: Id, req: CategoryRequest, reachable: bool)
    returns (r: Result<Category>)
    modifies db`categories, cache`entries
    ensures NameTaken(old(db.categories), req.name, None) ==>
      r == Err(DuplicateNameAsWritten(req.name)) &&
      db.categories == old(db.categories) && cache.entries == old(cache.entries)
    ensures !NameTaken(old(db.categories), req.name, None) ==>
      && r == Ok(Category(id, req.name, req.imageUrl))
      && db.categories == old(db.categories) + [r.value]
      && cache.entries == if reachable then old(cache.entries) - {CacheKey} else old(cache.entries)
    ensures UniqueNames(old(db.categories)) ==> UniqueNames(db.categories)
    ensures reachable && CacheCoherent(old(cache.entries), old(db.categories)) ==>
      CacheCoherent(cache.entries, db.categories)
  {
    if NameTaken(db.categories, req.name, None) {
      return Err(DuplicateNameAsWritten(req.name));
    }
    var row := Category(id, req.name, req.imageUrl);
    db.categories := db.categories + [row];
    InvalidateCache(cache, reachable);
    r := Ok(row);
  }

  function Renamed(categories: seq<Category>, id: Id, req: CategoryRequest): seq<Category> {
    Update(categories, (c: Category) => c.id == id, (c: Category) => Category(c.id, req.name, req.imageUrl))
  }

  /** A rename to a name no other category holds keeps the names unique. */
  lemma RenameKeepsNamesUnique(categories: seq<Category>, id: Id, req: CategoryRequest)
    requires UniqueIds(categories) && UniqueNames(categories)
    requires !NameTaken(categories, req.name, Some(id))
    ensures UniqueNames(Renamed(categories, id, req))
  {
    var r := Renamed(categories, id, req);
    forall i, j | 0 <= i < j < |r| ensures r[i].name != r[j].name {
      if categories[i].id == id {
        assert categories[j].id != id;
        assert r[j] == categories[j];
      } else if categories[j].id == id {
        assert r[i] == categories[i];
      }
    }
  }

  /** updateCategory: a name held by another category is refused; keeping
      its own name is allowed. The row is rewritten and returned; an
      unknown id changes no row and returns nothing. */
  method UpdateCategory(db: Database, cache: Redis, id: Id, req: CategoryRequest, reachable: bool)
    returns (r: Result<Option<Category>>)
    modifies db`categories, cache`entries
    ensures NameTaken(old(db.categories), req.name, Some(id)) ==>
      r == Err(DuplicateNameAsWritten(req.name)) &&
      db.categories == old(db.categories) && cache.entries == old(cache.entries)
    ensures !NameTaken(old(db.categories), req.name, Some(id)) ==>
      && db.categories == Renamed(old(db.categories), id, req)
      && r == Ok(CategoryWithId(db.categories, id))
      && (CategoryWithId(old(db.categories), id).None? <==> r.value.None?)
      && cache.entries == if reachable then old(cache.entries) - {CacheKey} else old(cache.entries)
    ensures reachable && CacheCoherent(old(cache.entries), old(db.categories)) ==>
      CacheCoherent(cache.entries, db.categories)
  {
    if NameTaken(db.categories, req.name, Some(id)) {
      return Err(DuplicateNameAsWritten(req.name));
    }
    ghost var before := db.categories;
    db.categories := Renamed(db.categories, id, req);
    RenameFinds(before, id, req);
    InvalidateCache(cache, reachable);
    r := Ok(CategoryWithId(db.categories, id));
  }

  /** The renamed row is found exactly when a row had that id. */
  lemma RenameFinds(categories: seq<Category>, id: Id, req: CategoryRequest)
    ensures CategoryWithId(Renamed(categories, id, req), id).None? <==> CategoryWithId(categories, id).None?
    ensures CategoryWithId(Renamed(categories, id, req), id).Some? ==>
      CategoryWithId(Renamed(categories, id, req), id).value == Category(id, req.name, req.imageUrl)
  {
    var r := Renamed(categories, id, req);
    assert forall i :: 0 <= i < |r| ==> r[i].id == categories[i].id;
  }

  /** deleteCategory: an unknown id is refused, and so is a category a
      menu item still belongs to (the foods' "set null" rule meets a column
      that cannot be null); otherwise the row goes and the cached list is
      dropped. */
  method DeleteCategory(db: Database, cache: Redis, id: Id, reachable: bool)
    returns (r: Result<Category>)
    modifies db`categories, cache`entries
    ensures CategoryWithId(old(db.categories), id).None? ==>
      r == Err(MissingId(id)) && db.categories == old(db.categories) && cache.entries == old(cache.entries)
    ensures CategoryWithId(old(db.categories), id).Some? && Exists(db.foods, (f: Food) => f.categoryId == id) ==>
      r == Err(DeleteRefused) && db.categories == old(db.categories) && cache.entries == old(cache.entries)
    ensures CategoryWithId(old(db.categories), id).Some? && !Exists(db.foods, (f: Food) => f.categoryId == id) ==>
      && r == Ok(CategoryWithId(old(db.categories), id).value)
      && db.categories == Keep(old(db.categories), (c: Category) => c.id != id)
      && CategoryWithId(db.categories, id).None?
      && cache.entries == if reachable then old(cache.entries) - {CacheKey} else old(cache.entries)
    ensures reachable && CacheCoherent(old(cache.entries), old(db.categories)) ==>
      CacheCoherent(cache.entries, db.categories)
  {
    var found := CategoryWithId(db.categories, id);
    if found.None? {
      return Err(MissingId(id));
    }
    if Exists(db.foods, (f: Food) => f.categoryId == id) {
      return Err(DeleteRefused);
    }
    db.categories := Keep(db.categories, (c: Category) => c.id != id);
    InvalidateCache(cache, reachable);
    r := Ok(found.value);
  }
}
