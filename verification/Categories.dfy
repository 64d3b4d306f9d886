/** The category catalogue (`CategoryService`): one in-memory list that
    add, update and delete replace after a push, a `map` or a `filter`. */
module Categories {

  import opened Wrappers
  import opened Collections
  import opened Models

  /** `{...cat, ...updates}`: the fields present in `p` override `c`'s. */
  function MergeCategory(c: Category, p: CategoryPatch): Category {
    Category(
      p.id.GetOr(c.id),
      p.name.GetOr(c.name),
      p.icon.GetOr(c.icon),
      p.color.GetOr(c.color),
      p.kind.GetOr(c.kind),
      p.budget.GetOr(c.budget),
      p.order.GetOr(c.order))
  }

  /** A category built from a draft and a generated id. */
  function WithId(d: CategoryDraft, id: string): Category {
    Category(id, d.name, d.icon, d.color, d.kind, d.budget, d.order)
  }

  /** The lookup `getCategoryById` performs on a catalogue. */
  function CategoryById(cs: seq<Category>, id: string): (r: Option<Category>)
    ensures r.Some? ==> exists i :: 0 <= i < |cs| && cs[i] == r.value && r.value.id == id
                                  && forall j :: 0 <= j < i ==> cs[j].id != id
    ensures r.None? <==> forall i :: 0 <= i < |cs| ==> cs[i].id != id
  {
    Find(cs, (c: Category) => c.id == id)
  }

  class CategoryService {

    /** `categoriesSubject.value`. */
    var categories: seq<Category>

    /** The catalogue starts empty: the constructor loads nothing. */
    constructor()
      ensures categories == []
    {
      categories := [];
    }

    /** `getCategoryById`: the first category with that id, or nothing. */
    function GetCategoryById(id: string): (r: Option<Category>)
      reads this
      ensures r.Some? ==> r.value in categories && r.value.id == id
      ensures r.Some? ==> exists i :: 0 <= i < |categories| && categories[i] == r.value
                                    && forall j :: 0 <= j < i ==> categories[j].id != id
      ensures r.None? <==> forall i :: 0 <= i < |categories| ==> categories[i].id != id
    {
      CategoryById(categories, id)
    }

    /** `addCategory`: appends exactly one category, the draft with the
        generated id, and returns it. */
    method AddCategory(draft: CategoryDraft, newId: string) returns (c: Category)
      modifies this
      ensures c == WithId(draft, newId)
      ensures categories == old(categories) + [c]
    {
      c := WithId(draft, newId);
      categories := categories + [c];
    }

    /** `updateCategory`: merges the patch into every entry with the id and
        leaves the others alone, keeping length and order. */
    method UpdateCategory(id: string, patch: CategoryPatch)
      modifies this
      ensures |categories| == |old(categories)|
      ensures forall i :: 0 <= i < |categories| ==>
                categories[i] == if old(categories)[i].id == id then MergeCategory(old(categories)[i], patch) else old(categories)[i]
    {
      categories := seq(|categories|, i requires 0 <= i < |categories| reads this =>
        if categories[i].id == id then MergeCategory(categories[i], patch) else categories[i]);
    }

    /** `deleteCategory`: keeps, in order, exactly the entries with another
        id. */
    method DeleteCategory(id: string)
      modifies this
      ensures categories == Filter(old(categories), (c: Category) => c.id != id)
    {
      categories := Filter(categories, (c: Category) => c.id != id);
    }
  }

  /** A merge changes only the fields the patch carries; in particular an
      update without an `id` keeps the category's id. */
  lemma MergeKeepsAbsentFields(c: Category, p: CategoryPatch)
    ensures p.id.None? ==> MergeCategory(c, p).id == c.id
    ensures p.name.None? ==> MergeCategory(c, p).name == c.name
    ensures p == CategoryPatch(None, None, None, None, None, None, None) ==> MergeCategory(c, p) == c
  {
  }

  /** After a delete no category with that id is left, and every category
      with another id survives. */
  lemma DeleteRemovesExactlyId(cs: seq<Category>, id: string)
    ensures CategoryById(Filter(cs, (c: Category) => c.id != id), id) == None
    ensures forall i :: 0 <= i < |cs| && cs[i].id != id ==> cs[i] in Filter(cs, (c: Category) => c.id != id)
  {
  }

  /** A category just added under a fresh id is what a lookup by that id
      finds. */
  lemma AddedIsFound(cs: seq<Category>, c: Category)
    requires forall i :: 0 <= i < |cs| ==> cs[i].id != c.id
    ensures CategoryById(cs + [c], c.id) == Some(c)
  {
    var r := CategoryById(cs + [c], c.id);
    assert (cs + [c])[|cs|].id == c.id;
    if r.Some? {
      var i :| 0 <= i < |cs + [c]| && (cs + [c])[i] == r.value && r.value.id == c.id;
      if i < |cs| {
        assert (cs + [c])[i] == cs[i];
      }
    }
  }
}
