/**
 * `GET /api/categories` (every category by name, with its tool count) and
 * `POST /api/categories` (create one category, for a signed-in administrator).
 */
module CategoriesRoute {
  import opened Common
  import opened Store
  import Sorting

  /** A listed category with the number of tools that belong to it. */
  datatype CategoryEntry = CategoryEntry(category: Category, toolCount: nat)

  /** Ascending string order, character code by character code; a prefix comes first. */
  predicate NameLe(a: string, b: string)
  {
    a == [] || (b != [] && (a[0] < b[0] || (a[0] == b[0] && NameLe(a[1..], b[1..]))))
  }

  lemma {:induction false} NameLeTotal(a: string, b: string)
    ensures NameLe(a, b) || NameLe(b, a)
  {
    if a != [] && b != [] && a[0] == b[0] {
      NameLeTotal(a[1..], b[1..]);
    }
  }

  lemma {:induction false} NameLeTransitive(a: string, b: string, c: string)
    requires NameLe(a, b) && NameLe(b, c)
    ensures NameLe(a, c)
  {
    if a != [] && b != [] && c != [] && a[0] == b[0] && b[0] == c[0] {
      NameLeTransitive(a[1..], b[1..], c[1..]);
    }
  }

  predicate ByName(x: CategoryEntry, y: CategoryEntry)
  {
    NameLe(x.category.name, y.category.name)
  }

  /** Each category paired with its live tool count, in table order. */
  function Entries(categories: seq<Category>, tools: seq<Tool>): seq<CategoryEntry>
  {
    seq(|categories|, i requires 0 <= i < |categories| => CategoryEntry(categories[i], ToolCount(tools, categories[i].id)))
  }

  /**
   * The listing: every category exactly once, ordered by ascending name, each carrying
   * the number of tools that reference it.
   */
  function Listing(categories: seq<Category>, tools: seq<Tool>): (r: seq<CategoryEntry>)
    ensures |r| == |categories|
    ensures multiset(r) == multiset(Entries(categories, tools))
    ensures forall i, j :: 0 <= i < j < |r| ==> NameLe(r[i].category.name, r[j].category.name)
    ensures forall e :: e in r ==> e.category in categories && e.toolCount == ToolCount(tools, e.category.id)
    ensures forall c :: c in categories ==> CategoryEntry(c, ToolCount(tools, c.id)) in r
  {
    forall a, b | true ensures ByName(a, b) || ByName(b, a) {
      NameLeTotal(a.category.name, b.category.name);
    }
    forall a, b, c | ByName(a, b) && ByName(b, c) ensures ByName(a, c) {
      NameLeTransitive(a.category.name, b.category.name, c.category.name);
    }
    var entries := Entries(categories, tools);
    var r := Sorting.SortBy(entries, ByName);
    assert |r| == |multiset(r)| == |multiset(entries)| == |categories|;
    assert forall e :: e in r ==> e in entries by {
      forall e | e in r ensures e in entries {
        assert e in multiset(r);
      }
    }
    assert forall c :: c in categories ==> CategoryEntry(c, ToolCount(tools, c.id)) in r by {
      forall c | c in categories ensures CategoryEntry(c, ToolCount(tools, c.id)) in r {
        var i :| 0 <= i < |categories| && categories[i] == c;
        assert entries[i] == CategoryEntry(c, ToolCount(tools, c.id));
        assert entries[i] in multiset(entries);
      }
    }
    r
  }

  /** The listing handler: reads both tables and replies 200 with the listing. */
  function Get(db: Database): (r: Reply<seq<CategoryEntry>>)
    reads db
    ensures r.Success? && r.status == OK
    ensures |r.value| == |db.categories|
    ensures forall e :: e in r.value ==> e.toolCount == ToolCount(db.tools, e.category.id)
  {
    Success(OK, Listing(db.categories, db.tools))
  }

  /** The JSON body of a create request; a field the client left out is `None`. */
  datatype CategoryInput = CategoryInput(name: Option<string>, slug: Option<string>, description: Option<string>)

  /**
   * The create handler. The session is checked first, then `name` and `slug` must be
   * present and non-empty; the description is optional and stored as given.
   * `id` stands for the identifier the store generates.
   */
  method Post(db: Database, signedIn: bool, body: CategoryInput, id: string) returns (r: Reply<Category>)
    requires db.Valid()
    requires forall c :: c in db.categories ==> c.id != id
    modifies db
    ensures db.Valid()
    ensures db.tools == old(db.tools)
    ensures !signedIn ==>
      r == Failure(UNAUTHORIZED, "Unauthorized") && db.categories == old(db.categories)
    ensures signedIn && !(Truthy(body.name) && Truthy(body.slug)) ==>
      r == Failure(BAD_REQUEST, "Missing required fields") && db.categories == old(db.categories)
    ensures signedIn && Truthy(body.name) && Truthy(body.slug) ==>
      var c := Category(id, body.name.value, body.slug.value, body.description);
      r == Success(CREATED, c) && db.categories == old(db.categories) + [c]
    ensures r.Success? ==> CategoryEntry(r.value, 0) in Listing(db.categories, db.tools)
  {
    if !signedIn {
      return Failure(UNAUTHORIZED, "Unauthorized");
    }
    if !Truthy(body.name) || !Truthy(body.slug) {
      return Failure(BAD_REQUEST, "Missing required fields");
    }
    var category := Category(id, body.name.value, body.slug.value, body.description);
    CreateListsNewCategory(db, category);
    db.categories := db.categories + [category];
    r := Success(CREATED, category);
  }

  /** In a valid store, a category created with a fresh id is listed with no tools. */
  lemma CreateListsNewCategory(db: Database, c: Category)
    requires db.Valid()
    requires forall x :: x in db.categories ==> x.id != c.id
    ensures CategoryEntry(c, 0) in Listing(db.categories + [c], db.tools)
  {
    FreshCategoryHasNoTools(db, c.id);
    ListingAfterCreate(db.categories, db.tools, c);
  }

  /** After a category is created the listing holds one more entry, the new category with no tools yet. */
  lemma ListingAfterCreate(categories: seq<Category>, tools: seq<Tool>, c: Category)
    requires forall t :: t in tools ==> t.categoryId != c.id
    ensures |Listing(categories + [c], tools)| == |Listing(categories, tools)| + 1
    ensures CategoryEntry(c, 0) in Listing(categories + [c], tools)
  {
    assert ToolCount(tools, c.id) == 0 by {
      assert forall k :: 0 <= k < |tools| ==> References(tools)[k] != c.id;
      assert c.id !in References(tools);
    }
  }
}
