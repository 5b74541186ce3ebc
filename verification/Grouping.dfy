/** The list operations the reports are built from, on plain sequences: a key filter (`Where`),
    LINQ's `GroupBy` (groups in order of each key's first appearance, elements in source order),
    the concatenation of a grouping's members (`Flatten`) and weighted sums. */
module Grouping {

  /** One group of `GroupBy`: its key and its elements, in source order. */
  datatype Group<K, T> = Group(key: K, items: seq<T>)

  /** The elements of `s` whose key is `k`, in their order in `s`. */
  function Where<T, K(==)>(s: seq<T>, key: T -> K, k: K): seq<T>
  {
    if s == [] then []
    else Where(s[..|s| - 1], key, k) + (if key(s[|s| - 1]) == k then [s[|s| - 1]] else [])
  }

  lemma {:induction false} WhereAppend<T, K>(a: seq<T>, b: seq<T>, key: T -> K, k: K)
    ensures Where(a + b, key, k) == Where(a, key, k) + Where(b, key, k)
    decreases |b|
  {
    if b == [] {
      assert a + b == a;
    } else {
      var b' := b[..|b| - 1];
      assert (a + b)[..|a + b| - 1] == a + b';
      WhereAppend(a, b', key, k);
    }
  }

  /** Selecting from a non-empty sequence: the selection from all but the last, then the last if
      it has key `k`. */
  lemma WhereStep<T, K>(s: seq<T>, key: T -> K, k: K)
    requires s != []
    ensures Where(s, key, k) == Where(s[..|s| - 1], key, k) + (if key(s[|s| - 1]) == k then [s[|s| - 1]] else [])
  {
  }

  /** Selecting from a sequence with a first element. */
  lemma WhereCons<T, K>(x: T, s: seq<T>, key: T -> K, k: K)
    ensures Where([x] + s, key, k) == (if key(x) == k then [x] else []) + Where(s, key, k)
  {
    WhereAppend([x], s, key, k);
    assert [x][..0] == [];
  }

  /** An element is kept exactly when it is in `s` and has key `k`. */
  lemma {:induction false} WhereMembership<T, K>(s: seq<T>, key: T -> K, k: K, x: T)
    ensures x in Where(s, key, k) <==> x in s && key(x) == k
    decreases |s|
  {
    if s != [] {
      var s' := s[..|s| - 1];
      assert s == s' + [s[|s| - 1]];
      WhereMembership(s', key, k, x);
    }
  }

  /** Keys no element has select nothing. */
  lemma {:induction false} WhereAbsent<T, K>(s: seq<T>, key: T -> K, k: K)
    requires forall i :: 0 <= i < |s| ==> key(s[i]) != k
    ensures Where(s, key, k) == []
    decreases |s|
  {
    if s != [] {
      WhereAbsent(s[..|s| - 1], key, k);
    }
  }

  /** A key only one element has selects that element alone. */
  lemma WhereUnique<T, K>(s: seq<T>, key: T -> K, k: K, m: nat)
    requires m < |s| && key(s[m]) == k
    requires forall i :: 0 <= i < |s| && i != m ==> key(s[i]) != k
    ensures Where(s, key, k) == [s[m]]
  {
    var front, back := s[..m], s[m + 1..];
    assert s == front + [s[m]] + back;
    WhereAbsent(front, key, k);
    forall i | 0 <= i < |back|
      ensures key(back[i]) != k
    {
      assert back[i] == s[m + 1 + i];
    }
    WhereAbsent(back, key, k);
    WhereAppend(front + [s[m]], back, key, k);
    WhereAppend(front, [s[m]], key, k);
    WhereStep([s[m]], key, k);
    assert [s[m]][..0] == [];
  }

  /** The distinct keys of `s`, in order of first appearance. */
  function Keys<T, K(==)>(s: seq<T>, key: T -> K): seq<K>
  {
    if s == [] then []
    else
      var ks := Keys(s[..|s| - 1], key);
      if key(s[|s| - 1]) in ks then ks else ks + [key(s[|s| - 1])]
  }

  /** A key is listed exactly when some element has it. */
  lemma {:induction false} KeysMembership<T, K>(s: seq<T>, key: T -> K, k: K)
    ensures k in Keys(s, key) <==> exists i :: 0 <= i < |s| && key(s[i]) == k
    decreases |s|
  {
    if s != [] {
      var s' := s[..|s| - 1];
      KeysMembership(s', key, k);
      if k in Keys(s', key) {
        var i :| 0 <= i < |s'| && key(s'[i]) == k;
        assert key(s[i]) == k;
      }
    }
  }

  /** No key is listed twice. */
  lemma {:induction false} KeysDistinct<T, K>(s: seq<T>, key: T -> K)
    ensures forall i, j :: 0 <= i < j < |Keys(s, key)| ==> Keys(s, key)[i] != Keys(s, key)[j]
    decreases |s|
  {
    if s != [] {
      KeysDistinct(s[..|s| - 1], key);
    }
  }

  /** Elements with equal keys stand together. */
  predicate Contiguous<T, K(==)>(s: seq<T>, key: T -> K) {
    forall i, j, l :: 0 <= i < j < l < |s| && key(s[i]) == key(s[l]) ==> key(s[j]) == key(s[i])
  }

  /** In a contiguous sequence the last key listed is the last element's. */
  lemma {:induction false} KeysLast<T, K>(s: seq<T>, key: T -> K)
    requires s != [] && Contiguous(s, key)
    ensures Keys(s, key) != [] && Keys(s, key)[|Keys(s, key)| - 1] == key(s[|s| - 1])
    decreases |s|
  {
    var s' := s[..|s| - 1];
    var x := s[|s| - 1];
    if key(x) in Keys(s', key) {
      KeysMembership(s', key, key(x));
      var i :| 0 <= i < |s'| && key(s'[i]) == key(x);
      assert key(s'[|s'| - 1]) == key(x) by {
        if i < |s'| - 1 {
          assert key(s[i]) == key(s[|s| - 1]);
        }
      }
      ContiguousInit(s, key);
      KeysLast(s', key);
    }
  }

  /** LINQ's `GroupBy`: one group per distinct key, in order of first appearance. */
  function GroupBy<T, K(==)>(s: seq<T>, key: T -> K): (gs: seq<Group<K, T>>)
    ensures |gs| == |Keys(s, key)|
    ensures forall i :: 0 <= i < |gs| ==> gs[i].key == Keys(s, key)[i]
    ensures forall i :: 0 <= i < |gs| ==> gs[i].items == Where(s, key, gs[i].key)
  {
    var ks := Keys(s, key);
    seq(|ks|, i requires 0 <= i < |ks| => Group(ks[i], Where(s, key, ks[i])))
  }

  /** The groups of `GroupBy` are exactly the keys present, each with its own elements, each once. */
  lemma GroupByCharacterized<T, K>(s: seq<T>, key: T -> K, k: K)
    ensures (exists i :: 0 <= i < |GroupBy(s, key)| && GroupBy(s, key)[i].key == k)
        <==> (exists i :: 0 <= i < |s| && key(s[i]) == k)
    ensures forall i, j :: 0 <= i < j < |GroupBy(s, key)| ==> GroupBy(s, key)[i].key != GroupBy(s, key)[j].key
    ensures forall g :: g in GroupBy(s, key) ==> g.items == Where(s, key, g.key) && g.items != []
  {
    KeysMembership(s, key, k);
    KeysDistinct(s, key);
    var gs := GroupBy(s, key);
    forall g | g in gs
      ensures g.items == Where(s, key, g.key) && g.items != []
    {
      KeysMembership(s, key, g.key);
      var i :| 0 <= i < |s| && key(s[i]) == g.key;
      WhereMembership(s, key, g.key, s[i]);
    }
    if exists i :: 0 <= i < |s| && key(s[i]) == k {
      var j :| 0 <= j < |Keys(s, key)| && Keys(s, key)[j] == k;
      assert gs[j].key == k;
    }
  }

  /** The elements of the groups, group after group. */
  function Flatten<K, T>(gs: seq<Group<K, T>>): seq<T>
  {
    if gs == [] then [] else Flatten(gs[..|gs| - 1]) + gs[|gs| - 1].items
  }

  /** Appending an element whose key is already listed (at `m`) extends that key's group. */
  lemma GroupByExtend<T, K>(s: seq<T>, x: T, key: T -> K, m: nat)
    requires m < |Keys(s, key)| && Keys(s, key)[m] == key(x)
    ensures GroupBy(s + [x], key) == GroupBy(s, key)[m := Group(key(x), GroupBy(s, key)[m].items + [x])]
  {
    var gs', gs := GroupBy(s, key), GroupBy(s + [x], key);
    assert (s + [x])[..|s|] == s;
    KeysDistinct(s, key);
    forall i | 0 <= i < |gs'|
      ensures gs[i] == gs'[m := Group(key(x), gs'[m].items + [x])][i]
    {
      WhereStep(s + [x], key, gs'[i].key);
    }
  }

  /** Appending an element with a new key opens a group of its own at the end. */
  lemma GroupByOpen<T, K>(s: seq<T>, x: T, key: T -> K)
    requires key(x) !in Keys(s, key)
    ensures GroupBy(s + [x], key) == GroupBy(s, key) + [Group(key(x), [x])]
  {
    var gs', gs := GroupBy(s, key), GroupBy(s + [x], key);
    assert (s + [x])[..|s|] == s;
    KeysMembership(s, key, key(x));
    WhereAbsent(s, key, key(x));
    forall i | 0 <= i < |gs|
      ensures gs[i] == (gs' + [Group(key(x), [x])])[i]
    {
      WhereStep(s + [x], key, gs[i].key);
    }
  }

  lemma ContiguousInit<T, K>(s: seq<T>, key: T -> K)
    requires s != [] && Contiguous(s, key)
    ensures Contiguous(s[..|s| - 1], key)
  {
    var s' := s[..|s| - 1];
    forall i, j, l | 0 <= i < j < l < |s'| && key(s'[i]) == key(s'[l])
      ensures key(s'[j]) == key(s'[i])
    {
      assert s'[i] == s[i] && s'[j] == s[j] && s'[l] == s[l];
    }
  }

  lemma FlattenSnoc<K, T>(gs: seq<Group<K, T>>, g: Group<K, T>)
    ensures Flatten(gs + [g]) == Flatten(gs) + g.items
  {
    assert (gs + [g])[..|gs|] == gs;
  }

  lemma FlattenGrowLast<K, T>(gs: seq<Group<K, T>>, x: T)
    requires gs != []
    ensures Flatten(gs[|gs| - 1 := Group(gs[|gs| - 1].key, gs[|gs| - 1].items + [x])]) == Flatten(gs) + [x]
  {
    var n := |gs| - 1;
    var grown := gs[n := Group(gs[n].key, gs[n].items + [x])];
    assert grown[..n] == gs[..n];
    assert Flatten(grown) == Flatten(gs[..n]) + (gs[n].items + [x]);
    assert Flatten(gs) == Flatten(gs[..n]) + gs[n].items;
  }

  /** When equal keys stand together, grouping loses and reorders nothing. */
  lemma {:induction false} FlattenGroupBy<T, K>(s: seq<T>, key: T -> K)
    requires Contiguous(s, key)
    ensures Flatten(GroupBy(s, key)) == s
    decreases |s|
  {
    if s != [] {
      var s' := s[..|s| - 1];
      var x := s[|s| - 1];
      assert s == s' + [x];
      ContiguousInit(s, key);
      FlattenGroupBy(s', key);
      var gs' := GroupBy(s', key);
      if key(x) in Keys(s', key) {
        KeysLast(s, key);
        var m := |gs'| - 1;
        GroupByExtend(s', x, key, m);
        FlattenGrowLast(gs', x);
      } else {
        GroupByOpen(s', x, key);
        FlattenSnoc(gs', Group(key(x), [x]));
      }
    }
  }

  /** The sum of `w` over `s`. */
  function SumBy<T>(s: seq<T>, w: T -> int): int
  {
    if s == [] then 0 else SumBy(s[..|s| - 1], w) + w(s[|s| - 1])
  }

  lemma {:induction false} SumByAppend<T>(a: seq<T>, b: seq<T>, w: T -> int)
    ensures SumBy(a + b, w) == SumBy(a, w) + SumBy(b, w)
    decreases |b|
  {
    if b == [] {
      assert a + b == a;
    } else {
      assert (a + b)[..|a + b| - 1] == a + b[..|b| - 1];
      SumByAppend(a, b[..|b| - 1], w);
    }
  }

  /** The sums of `w` over each group, added up. */
  function GroupsSum<K, T>(gs: seq<Group<K, T>>, w: T -> int): int
  {
    if gs == [] then 0 else GroupsSum(gs[..|gs| - 1], w) + SumBy(gs[|gs| - 1].items, w)
  }

  lemma {:induction false} GroupsSumCons<K, T>(g: Group<K, T>, gs: seq<Group<K, T>>, w: T -> int)
    ensures GroupsSum([g] + gs, w) == SumBy(g.items, w) + GroupsSum(gs, w)
    decreases |gs|
  {
    if gs != [] {
      assert ([g] + gs)[..|[g] + gs| - 1] == [g] + gs[..|gs| - 1];
      GroupsSumCons(g, gs[..|gs| - 1], w);
    }
  }

  lemma GroupsSumSnoc<K, T>(gs: seq<Group<K, T>>, g: Group<K, T>, w: T -> int)
    ensures GroupsSum(gs + [g], w) == GroupsSum(gs, w) + SumBy(g.items, w)
  {
    assert (gs + [g])[..|gs|] == gs;
  }

  /** Appending `x` to one group raises the total by `w(x)`. */
  lemma {:induction false} GroupsSumGrow<K, T>(gs: seq<Group<K, T>>, m: nat, x: T, w: T -> int)
    requires m < |gs|
    ensures GroupsSum(gs[m := Group(gs[m].key, gs[m].items + [x])], w) == GroupsSum(gs, w) + w(x)
    decreases |gs|
  {
    var gs2 := gs[m := Group(gs[m].key, gs[m].items + [x])];
    assert (gs[m].items + [x])[..|gs[m].items|] == gs[m].items;
    if m == |gs| - 1 {
      assert gs2[..|gs2| - 1] == gs[..|gs| - 1];
    } else {
      var init := gs[..|gs| - 1];
      assert gs2[..|gs2| - 1] == init[m := Group(init[m].key, init[m].items + [x])];
      GroupsSumGrow(init, m, x, w);
    }
  }

  /** Grouping keeps every element once: the group sums add up to the sum over `s`, whatever
      the order of `s`. */
  lemma {:induction false} GroupBySum<T, K>(s: seq<T>, key: T -> K, w: T -> int)
    ensures GroupsSum(GroupBy(s, key), w) == SumBy(s, w)
    decreases |s|
  {
    if s != [] {
      var s' := s[..|s| - 1];
      var x := s[|s| - 1];
      assert s == s' + [x];
      GroupBySum(s', key, w);
      var gs' := GroupBy(s', key);
      if key(x) in Keys(s', key) {
        var m :| 0 <= m < |Keys(s', key)| && Keys(s', key)[m] == key(x);
        GroupByExtend(s', x, key, m);
        GroupsSumGrow(gs', m, x, w);
      } else {
        GroupByOpen(s', x, key);
        GroupsSumSnoc(gs', Group(key(x), [x]), w);
      }
    }
  }
}
