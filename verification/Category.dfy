/** One budget category: an id, a description and a type. */
module CategoryRecord {
  import opened Wrappers

  /** The four category types, declared in this order (ordinals 0 to 3). */
  datatype CategoryType = Income | Expense | Credit | Savings

  /** The ordinal of a type, the value of `(int)type`. */
  function Ordinal(t: CategoryType): (n: int)
    ensures 0 <= n < 4
  {
    match t
    case Income => 0
    case Expense => 1
    case Credit => 2
    case Savings => 3
  }

  /** The type with ordinal `n`, or `None` for an integer that names no declared member. */
  function FromOrdinal(n: int): (r: Option<CategoryType>)
    ensures r.Some? <==> 0 <= n < 4
    ensures r.Some? ==> Ordinal(r.value) == n
  {
    if n == 0 then Some(Income)
    else if n == 1 then Some(Expense)
    else if n == 2 then Some(Credit)
    else if n == 3 then Some(Savings)
    else None
  }

  /** The enumeration has exactly four members and `Ordinal` numbers them 0..3 in declaration order. */
  lemma {:induction false} OrdinalBijective(t: CategoryType, n: int)
    ensures FromOrdinal(Ordinal(t)) == Some(t)
    ensures 0 <= n < 4 <==> exists u: CategoryType :: Ordinal(u) == n
  {
    if 0 <= n < 4 {
      var u := FromOrdinal(n).value;
      assert Ordinal(u) == n;
    }
  }

  /** The type id written to the store: one more than the ordinal. */
  function StoredTypeId(t: CategoryType): (id: int)
    ensures 1 <= id <= 4
  {
    Ordinal(t) + 1
  }

  /** The type read back from a stored type id: the ordinal one less than the id. */
  function TypeFromStored(id: int): (r: Option<CategoryType>)
    ensures r.Some? <==> 1 <= id <= 4
  {
    FromOrdinal(id - 1)
  }

  /** Writing a type and reading it back gives the same type, for every type; and an id that reads
      back as a type is the id that type is written as. */
  lemma StoredTypeRoundTrip(t: CategoryType, id: int)
    ensures TypeFromStored(StoredTypeId(t)) == Some(t)
    ensures TypeFromStored(id).Some? ==> StoredTypeId(TypeFromStored(id).value) == id
  {
    OrdinalBijective(t, 0);
  }

  datatype Category = Category(id: int, description: string, kind: CategoryType)

  /** The constructor: assigns the three fields; the type defaults to `Expense`. No check is made. */
  function NewCategory(id: int, description: string, kind: CategoryType := Expense): (c: Category)
    ensures c.id == id && c.description == description && c.kind == kind
  {
    Category(id, description, kind)
  }

  /** The copy constructor: a category with the same three fields. */
  function CopyCategory(original: Category): (c: Category)
    ensures c.id == original.id && c.description == original.description && c.kind == original.kind
  {
    Category(original.id, original.description, original.kind)
  }

  /** The string form of a category is its description. */
  function ToString(c: Category): (s: string)
    ensures s == c.description
  {
    c.description
  }

  /** Omitting the type gives an `Expense` category. */
  lemma NewCategoryDefaultsToExpense(id: int, description: string)
    ensures NewCategory(id, description).kind == Expense
  {
  }
}
