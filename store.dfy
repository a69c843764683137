/** The two tables the route handlers read and write: categories and the tools that belong to them. */
module Store {
  import opened Common
  import Seqs

  /** A row of the category table. */
  datatype Category = Category(id: string, name: string, slug: string, description: Option<string>)

  /** A row of the tool table; `createdAt` is the creation timestamp the store assigns. */
  datatype Tool = Tool(
    id: string,
    name: string,
    url: string,
    description: string,
    detailedDescription: Option<string>,
    icon: Option<string>,
    featured: bool,
    categoryId: string,
    createdAt: int)

  /** The database the handlers share; each table is a sequence of rows in insertion order. */
  class Database {
    var categories: seq<Category>
    var tools: seq<Tool>

    /** Ids are unique in each table and every tool references an existing category. */
    ghost predicate Valid()
      reads this
    {
      (forall i, j :: 0 <= i < j < |categories| ==> categories[i].id != categories[j].id) &&
      (forall i, j :: 0 <= i < j < |tools| ==> tools[i].id != tools[j].id) &&
      (forall t :: t in tools ==> HasCategory(categories, t.categoryId))
    }

    constructor ()
      ensures Valid()
      ensures categories == [] && tools == []
    {
      categories := [];
      tools := [];
    }
  }

  predicate HasCategory(categories: seq<Category>, id: string)
  {
    exists c :: c in categories && c.id == id
  }

  /** In a valid store, no tool references an id that no category has yet. */
  lemma FreshCategoryHasNoTools(db: Database, id: string)
    requires db.Valid()
    requires forall c :: c in db.categories ==> c.id != id
    ensures forall t :: t in db.tools ==> t.categoryId != id
  {
    forall t | t in db.tools ensures t.categoryId != id {
      assert HasCategory(db.categories, t.categoryId);
    }
  }

  /** The `categoryId` column of the tool table. */
  function References(tools: seq<Tool>): seq<string>
  {
    seq(|tools|, i requires 0 <= i < |tools| => tools[i].categoryId)
  }

  /** The live number of tools that belong to category `id` (the `_count.tools` relation count). */
  function ToolCount(tools: seq<Tool>, id: string): (n: nat)
    ensures n == multiset(References(tools))[id]
  {
    CountIsReferences(tools, id);
    |Seqs.Filter(tools, (t: Tool) => t.categoryId == id)|
  }

  lemma {:induction false} CountIsReferences(tools: seq<Tool>, id: string)
    ensures |Seqs.Filter(tools, (t: Tool) => t.categoryId == id)| == multiset(References(tools))[id]
  {
    if tools != [] {
      var rest := tools[1..];
      CountIsReferences(rest, id);
      ReferencesCons(tools);
    }
  }

  lemma ReferencesCons(tools: seq<Tool>)
    requires tools != []
    ensures References(tools) == [tools[0].categoryId] + References(tools[1..])
  {
  }

  /** Adding a tool raises the count of its own category by one and leaves every other count alone. */
  lemma ToolCountAfterInsert(tools: seq<Tool>, t: Tool, id: string)
    ensures ToolCount(tools + [t], id) == ToolCount(tools, id) + (if t.categoryId == id then 1 else 0)
  {
    assert References(tools + [t]) == References(tools) + [t.categoryId];
  }
}
