/** `OrderBy(g => g.Key)` on groups keyed by category name: a stable insertion sort under the
    ordinal string order. */
module GroupOrder {
  import opened Grouping
  import opened OrdinalStrings

  /** Inserts `g` before the first group whose key is not smaller than `g`'s. */
  function InsertByKey<T>(g: Group<string, T>, gs: seq<Group<string, T>>): (r: seq<Group<string, T>>)
    ensures multiset(r) == multiset(gs) + multiset{g}
  {
    if gs == [] then [g]
    else if !Less(gs[0].key, g.key) then [g] + gs
    else
      assert gs == [gs[0]] + gs[1..];
      [gs[0]] + InsertByKey(g, gs[1..])
  }

  /** The groups sorted by key. */
  function OrderByKey<T>(gs: seq<Group<string, T>>): (r: seq<Group<string, T>>)
    ensures multiset(r) == multiset(gs)
  {
    if gs == [] then []
    else
      assert gs == [gs[0]] + gs[1..];
      InsertByKey(gs[0], OrderByKey(gs[1..]))
  }

  /** Sorting keeps exactly the same groups. */
  lemma OrderByKeyMembers<T>(gs: seq<Group<string, T>>)
    ensures forall g :: g in OrderByKey(gs) <==> g in gs
  {
    forall g
      ensures g in OrderByKey(gs) <==> g in gs
    {
      assert g in OrderByKey(gs) <==> g in multiset(OrderByKey(gs));
      assert g in gs <==> g in multiset(gs);
    }
  }

  predicate DistinctKeys<T>(gs: seq<Group<string, T>>) {
    forall i, j :: 0 <= i < j < |gs| ==> gs[i].key != gs[j].key
  }

  predicate StrictlyAscending<T>(gs: seq<Group<string, T>>) {
    forall i, j :: 0 <= i < j < |gs| ==> Less(gs[i].key, gs[j].key)
  }

  lemma PrependAscending<T>(h: Group<string, T>, gs: seq<Group<string, T>>)
    requires StrictlyAscending(gs)
    requires forall x :: x in gs ==> Less(h.key, x.key)
    ensures StrictlyAscending([h] + gs)
  {
    forall i, j | 0 <= i < j < |gs| + 1
      ensures Less(([h] + gs)[i].key, ([h] + gs)[j].key)
    {
      assert ([h] + gs)[j] == gs[j - 1];
      if i > 0 {
        assert ([h] + gs)[i] == gs[i - 1];
      }
    }
  }

  lemma {:induction false} InsertByKeyAscending<T>(g: Group<string, T>, gs: seq<Group<string, T>>)
    requires StrictlyAscending(gs)
    requires forall h :: h in gs ==> h.key != g.key
    ensures StrictlyAscending(InsertByKey(g, gs))
    decreases |gs|
  {
    if gs != [] {
      LessTotal(gs[0].key, g.key);
      if Less(gs[0].key, g.key) {
        var tail := gs[1..];
        assert StrictlyAscending(tail);
        InsertByKeyAscending(g, tail);
        var rest := InsertByKey(g, tail);
        forall x | x in rest
          ensures Less(gs[0].key, x.key)
        {
          assert x in multiset(rest);
          if x != g {
            assert x in multiset(tail);
            var j :| 0 <= j < |tail| && tail[j] == x;
            assert gs[j + 1] == x;
          }
        }
        PrependAscending(gs[0], rest);
      } else {
        forall x | x in gs
          ensures Less(g.key, x.key)
        {
          var j :| 0 <= j < |gs| && gs[j] == x;
          if j > 0 {
            LessTransitive(g.key, gs[0].key, gs[j].key);
          }
        }
        PrependAscending(g, gs);
      }
    }
  }

  /** Sorting groups with distinct keys leaves them strictly ascending by key. */
  lemma {:induction false} OrderByKeyAscending<T>(gs: seq<Group<string, T>>)
    requires DistinctKeys(gs)
    ensures StrictlyAscending(OrderByKey(gs))
    decreases |gs|
  {
    if gs != [] {
      var rest := OrderByKey(gs[1..]);
      OrderByKeyAscending(gs[1..]);
      forall h | h in rest
        ensures h.key != gs[0].key
      {
        assert h in multiset(gs[1..]);
        var j :| 0 <= j < |gs[1..]| && gs[1..][j] == h;
        assert gs[j + 1] == h;
      }
      InsertByKeyAscending(gs[0], rest);
    }
  }

  lemma {:induction false} InsertByKeySum<T>(g: Group<string, T>, gs: seq<Group<string, T>>, w: T -> int)
    ensures GroupsSum(InsertByKey(g, gs), w) == SumBy(g.items, w) + GroupsSum(gs, w)
    decreases |gs|
  {
    if gs == [] {
      GroupsSumCons(g, gs, w);
    } else if !Less(gs[0].key, g.key) {
      GroupsSumCons(g, gs, w);
    } else {
      InsertByKeySum(g, gs[1..], w);
      GroupsSumCons(gs[0], InsertByKey(g, gs[1..]), w);
      GroupsSumCons(gs[0], gs[1..], w);
      assert [gs[0]] + gs[1..] == gs;
    }
  }

  /** Sorting groups keeps their total. */
  lemma {:induction false} OrderByKeySum<T>(gs: seq<Group<string, T>>, w: T -> int)
    ensures GroupsSum(OrderByKey(gs), w) == GroupsSum(gs, w)
    decreases |gs|
  {
    if gs != [] {
      OrderByKeySum(gs[1..], w);
      InsertByKeySum(gs[0], OrderByKey(gs[1..]), w);
      GroupsSumCons(gs[0], gs[1..], w);
      assert [gs[0]] + gs[1..] == gs;
    }
  }
}
