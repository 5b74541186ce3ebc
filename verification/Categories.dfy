/** The in-memory category list of a budget.  The list is changed in place by `Add`, `Delete` and
    `SetCategoriesToDefaults`; the database writes that accompany those changes are not modelled. */
module CategoryList {
  import opened Wrappers
  import opened CategoryRecord

  /** What `GetCategoryFromId` throws when no category has the id. */
  datatype CategoryError = CategoryNotFound(id: int)

  predicate HasId(cats: seq<Category>, id: int) {
    exists k :: 0 <= k < |cats| && cats[k].id == id
  }

  /** No two categories share an id. */
  predicate DistinctIds(cats: seq<Category>) {
    forall j, k :: 0 <= j < k < |cats| ==> cats[j].id != cats[k].id
  }

  /** The index of the first category with `id`, or -1 (`List.FindIndex`). */
  function IndexOfId(cats: seq<Category>, id: int): (k: int)
    ensures -1 <= k < |cats|
    ensures k == -1 <==> !HasId(cats, id)
    ensures k != -1 ==> cats[k].id == id && forall j :: 0 <= j < k ==> cats[j].id != id
  {
    if cats == [] then -1
    else if cats[0].id == id then 0
    else
      var k := IndexOfId(cats[1..], id);
      assert forall j :: 0 < j < |cats| ==> cats[j] == cats[1..][j - 1];
      if k == -1 then -1 else k + 1
  }

  /** The largest id in a non-empty list (`Max` over the ids). */
  function MaxId(cats: seq<Category>): int
    requires cats != []
  {
    if |cats| == 1 then cats[0].id
    else
      var m := MaxId(cats[1..]);
      if cats[0].id < m then m else cats[0].id
  }

  /** `MaxId` is an id of the list and no id exceeds it. */
  lemma {:induction false} MaxIdIsMaximum(cats: seq<Category>)
    requires cats != []
    ensures forall k :: 0 <= k < |cats| ==> cats[k].id <= MaxId(cats)
    ensures HasId(cats, MaxId(cats))
  {
    if |cats| > 1 {
      MaxIdIsMaximum(cats[1..]);
      assert forall k :: 1 <= k < |cats| ==> cats[k] == cats[1..][k - 1];
    }
  }

  /** The id `Add` gives a new category: one more than the largest id, or 1 for an empty list. */
  function NextId(cats: seq<Category>): int {
    if cats == [] then 1 else MaxId(cats) + 1
  }

  /** The new id is larger than every id already in the list, so appending a category with it keeps
      the ids distinct. */
  lemma {:induction false} NextIdIsFresh(cats: seq<Category>, description: string, kind: CategoryType)
    requires DistinctIds(cats)
    ensures forall k :: 0 <= k < |cats| ==> cats[k].id < NextId(cats)
    ensures DistinctIds(cats + [Category(NextId(cats), description, kind)])
  {
    if cats != [] {
      MaxIdIsMaximum(cats);
    }
    var c := Category(NextId(cats), description, kind);
    var s := cats + [c];
    forall j, k | 0 <= j < k < |s| ensures s[j].id != s[k].id {
      if k == |cats| {
        assert s[j] == cats[j];
      }
    }
  }

  /** The ids are 1, 2, ..., n in list order. */
  predicate NumberedFromOne(cats: seq<Category>) {
    forall k :: 0 <= k < |cats| ==> cats[k].id == k + 1
  }

  /** When the ids are 1, 2, ..., n in order, the next id is n + 1. */
  lemma {:induction false} NextIdAfterConsecutive(cats: seq<Category>)
    requires NumberedFromOne(cats)
    ensures NextId(cats) == |cats| + 1
  {
    if cats != [] {
      MaxIdIsMaximum(cats);
      var m := MaxId(cats);
      var k :| 0 <= k < |cats| && cats[k].id == m;
      assert cats[|cats| - 1].id == |cats|;
    }
  }

  /** `Delete`'s effect on a list: the first category with `id` is removed; nothing else changes. */
  function RemoveFirstId(cats: seq<Category>, id: int): (r: seq<Category>)
    ensures IndexOfId(cats, id) == -1 ==> r == cats
    ensures IndexOfId(cats, id) != -1 ==>
      var k := IndexOfId(cats, id); r == cats[..k] + cats[k + 1..]
  {
    var k := IndexOfId(cats, id);
    if k == -1 then cats else cats[..k] + cats[k + 1..]
  }

  /** With distinct ids, deleting `id` removes exactly the category with that id: every other
      category stays, and none with `id` is left. */
  lemma {:induction false} RemoveFirstIdExact(cats: seq<Category>, id: int)
    requires DistinctIds(cats)
    ensures DistinctIds(RemoveFirstId(cats, id))
    ensures !HasId(RemoveFirstId(cats, id), id)
    ensures forall c :: c in RemoveFirstId(cats, id) <==> c in cats && c.id != id
    ensures |RemoveFirstId(cats, id)| == if HasId(cats, id) then |cats| - 1 else |cats|
  {
    var k := IndexOfId(cats, id);
    if k != -1 {
      RemoveAt(cats, k);
    } else {
      forall c | c in cats
        ensures c.id != id
      {
        var j :| 0 <= j < |cats| && cats[j] == c;
      }
    }
  }

  /** Removing the category at `k` from a list with distinct ids. */
  lemma RemoveAt(cats: seq<Category>, k: nat)
    requires DistinctIds(cats) && k < |cats|
    ensures var r := cats[..k] + cats[k + 1..];
            |r| == |cats| - 1
            && DistinctIds(r)
            && !HasId(r, cats[k].id)
            && forall c :: c in r <==> c in cats && c.id != cats[k].id
  {
    var r := cats[..k] + cats[k + 1..];
    assert forall j :: 0 <= j < |r| ==> r[j] == cats[if j < k then j else j + 1];
    forall c
      ensures c in r <==> c in cats && c.id != cats[k].id
    {
      if c in cats && c.id != cats[k].id {
        var j :| 0 <= j < |cats| && cats[j] == c;
        assert r[if j < k then j else j - 1] == c;
      }
    }
  }

  /** The sixteen categories a new budget starts with, numbered 1 to 16 in this order. */
  function DefaultCategories(): (d: seq<Category>)
    ensures |d| == 16
    ensures NumberedFromOne(d)
  {
    [ Category(1, "Utilities", Expense),
      Category(2, "Rent", Expense),
      Category(3, "Food", Expense),
      Category(4, "Entertainment", Expense),
      Category(5, "Education", Expense),
      Category(6, "Miscellaneous", Expense),
      Category(7, "Medical Expenses", Expense),
      Category(8, "Vacation", Expense),
      Category(9, "Credit Card", Credit),
      Category(10, "Clothes", Expense),
      Category(11, "Gifts", Expense),
      Category(12, "Insurance", Expense),
      Category(13, "Transportation", Expense),
      Category(14, "Eating Out", Expense),
      Category(15, "Savings", Savings),
      Category(16, "Income", Income) ]
  }

  /** The list after `Add(description, kind)`. */
  function WithAdded(cats: seq<Category>, description: string, kind: CategoryType): seq<Category> {
    cats + [Category(NextId(cats), description, kind)]
  }

  /** The list after the sixteen `Add` calls of `SetCategoriesToDefaults`, made on `cats`. */
  function WithDefaultsAdded(cats: seq<Category>): seq<Category> {
    var s1 := WithAdded(cats, "Utilities", Expense);
    var s2 := WithAdded(s1, "Rent", Expense);
    var s3 := WithAdded(s2, "Food", Expense);
    var s4 := WithAdded(s3, "Entertainment", Expense);
    var s5 := WithAdded(s4, "Education", Expense);
    var s6 := WithAdded(s5, "Miscellaneous", Expense);
    var s7 := WithAdded(s6, "Medical Expenses", Expense);
    var s8 := WithAdded(s7, "Vacation", Expense);
    var s9 := WithAdded(s8, "Credit Card", Credit);
    var s10 := WithAdded(s9, "Clothes", Expense);
    var s11 := WithAdded(s10, "Gifts", Expense);
    var s12 := WithAdded(s11, "Insurance", Expense);
    var s13 := WithAdded(s12, "Transportation", Expense);
    var s14 := WithAdded(s13, "Eating Out", Expense);
    var s15 := WithAdded(s14, "Savings", Savings);
    var s16 := WithAdded(s15, "Income", Income);
    s16
  }

  /** Adding to a list numbered 1..n gives the new category the id n + 1. */
  lemma AddToNumbered(cats: seq<Category>, description: string, kind: CategoryType)
    requires NumberedFromOne(cats)
    ensures WithAdded(cats, description, kind) == cats + [Category(|cats| + 1, description, kind)]
  {
    NextIdAfterConsecutive(cats);
  }

  /** One call of `SetCategoriesToDefaults`: adding the (k+1)-th default to the first k defaults
      gives the first k+1. */
  lemma DefaultsStep(cats: seq<Category>, k: nat, description: string, kind: CategoryType)
    requires k < 16 && cats == DefaultCategories()[..k]
    requires DefaultCategories()[k] == Category(k + 1, description, kind)
    ensures WithAdded(cats, description, kind) == DefaultCategories()[..k + 1]
  {
    AddToNumbered(cats, description, kind);
  }

  /** Made on an empty list, the sixteen calls give the default list. */
  lemma DefaultsAddedToEmpty(cats: seq<Category>)
    requires cats == []
    ensures WithDefaultsAdded(cats) == DefaultCategories()
  {
    var s0 := cats;
    DefaultsStep(s0, 0, "Utilities", Expense);
    var s1 := WithAdded(s0, "Utilities", Expense);
    DefaultsStep(s1, 1, "Rent", Expense);
    var s2 := WithAdded(s1, "Rent", Expense);
    DefaultsStep(s2, 2, "Food", Expense);
    var s3 := WithAdded(s2, "Food", Expense);
    DefaultsStep(s3, 3, "Entertainment", Expense);
    var s4 := WithAdded(s3, "Entertainment", Expense);
    DefaultsStep(s4, 4, "Education", Expense);
    var s5 := WithAdded(s4, "Education", Expense);
    DefaultsStep(s5, 5, "Miscellaneous", Expense);
    var s6 := WithAdded(s5, "Miscellaneous", Expense);
    DefaultsStep(s6, 6, "Medical Expenses", Expense);
    var s7 := WithAdded(s6, "Medical Expenses", Expense);
    DefaultsStep(s7, 7, "Vacation", Expense);
    var s8 := WithAdded(s7, "Vacation", Expense);
    DefaultsStep(s8, 8, "Credit Card", Credit);
    var s9 := WithAdded(s8, "Credit Card", Credit);
    DefaultsStep(s9, 9, "Clothes", Expense);
    var s10 := WithAdded(s9, "Clothes", Expense);
    DefaultsStep(s10, 10, "Gifts", Expense);
    var s11 := WithAdded(s10, "Gifts", Expense);
    DefaultsStep(s11, 11, "Insurance", Expense);
    var s12 := WithAdded(s11, "Insurance", Expense);
    DefaultsStep(s12, 12, "Transportation", Expense);
    var s13 := WithAdded(s12, "Transportation", Expense);
    DefaultsStep(s13, 13, "Eating Out", Expense);
    var s14 := WithAdded(s13, "Eating Out", Expense);
    DefaultsStep(s14, 14, "Savings", Savings);
    var s15 := WithAdded(s14, "Savings", Savings);
    DefaultsStep(s15, 15, "Income", Income);
    var s16 := WithAdded(s15, "Income", Income);
    assert DefaultCategories()[..16] == DefaultCategories();
  }

  class Categories {
    var cats: seq<Category>

    /** The list invariant: ids are unique. */
    ghost predicate Valid()
      reads this
    {
      DistinctIds(cats)
    }

    /** A new list holds the default categories. */
    constructor ()
      ensures Valid() && cats == DefaultCategories()
    {
      cats := [];
      new;
      SetCategoriesToDefaults();
    }

    /** The first category with id `i`; fails with `CategoryNotFound(i)` when there is none. */
    function GetCategoryFromId(i: int): (r: Result<Category, CategoryError>)
      reads this
      ensures r.Success? <==> HasId(cats, i)
      ensures r.Success? ==> exists k :: 0 <= k < |cats| && cats[k] == r.value && r.value.id == i &&
                                         forall j :: 0 <= j < k ==> cats[j].id != i
      ensures r.Failure? ==> r.error == CategoryNotFound(i)
    {
      var k := IndexOfId(cats, i);
      if k == -1 then Failure(CategoryNotFound(i)) else Success(cats[k])
    }

    /** Clears the list and adds the sixteen defaults one by one. */
    method SetCategoriesToDefaults()
      modifies this
      ensures Valid() && cats == DefaultCategories()
    {
      cats := [];
      ghost var cleared := cats;
      Add("Utilities", Expense);

      Add("Rent", Expense);

      Add("Food", Expense);

      Add("Entertainment", Expense);

      Add("Education", Expense);

      Add("Miscellaneous", Expense);

      Add("Medical Expenses", Expense);

      Add("Vacation", Expense);

      Add("Credit Card", Credit);

      Add("Clothes", Expense);

      Add("Gifts", Expense);

      Add("Insurance", Expense);

      Add("Transportation", Expense);

      Add("Eating Out", Expense);

      Add("Savings", Savings);

      Add("Income", Income);
      DefaultsAddedToEmpty(cleared);

    }

    /** Appends a category whose id is one more than the largest id (1 for an empty list). */
    method Add(description: string, kind: CategoryType)
      requires Valid()
      modifies this
      ensures Valid()
      ensures cats == WithAdded(old(cats), description, kind)
    {
      var newId := 1;
      if |cats| > 0 {
        newId := MaxId(cats);
        newId := newId + 1;
      }
      NextIdIsFresh(cats, description, kind);
      cats := cats + [NewCategory(newId, description, kind)];
    }

    /** Removes the first category with `Id`; does nothing when there is none. */
    method Delete(Id: int)
      requires Valid()
      modifies this
      ensures Valid()
      ensures cats == RemoveFirstId(old(cats), Id)
    {
      RemoveFirstIdExact(cats, Id);
      var i := IndexOfId(cats, Id);
      if i != -1 {
        cats := cats[..i] + cats[i + 1..];
      }
    }

    /** A fresh list of copies of the categories, in the same order. */
    method List() returns (newList: seq<Category>)
      ensures |newList| == |cats|
      ensures forall k :: 0 <= k < |cats| ==>
        newList[k].id == cats[k].id && newList[k].description == cats[k].description &&
        newList[k].kind == cats[k].kind
    {
      newList := [];
      var k := 0;
      while k < |cats|
        invariant 0 <= k <= |cats|
        invariant |newList| == k
        invariant forall j :: 0 <= j < k ==> newList[j] == CopyCategory(cats[j])
      {
        newList := newList + [CopyCategory(cats[k])];
        k := k + 1;
      }
    }
  }
}
