/** Selection of the newest trades: `latest` and `select_per_group`.

    Python's `sorted` is stable. `StableSort` is that function; `StableSortUnique` shows that
    being sorted and keeping ties in input order leaves no freedom, so nothing depends on how
    the sort is carried out. */
module StreamSelection {

  /** A sort key: a moment and, inside it, a sequence number (compared as a Python tuple). */
  datatype Key = Key(moment: int, number: int)

  predicate Leq(a: Key, b: Key) {
    a.moment < b.moment || (a.moment == b.moment && a.number <= b.number)
  }

  // ---------------------------------------------------------------- stable sorting

  /** Puts x before the first element that is not smaller: x came first, so it wins ties. */
  function InsertFront<T>(x: T, s: seq<T>, key: T -> Key): (r: seq<T>)
    ensures |r| == |s| + 1
  {
    if s == [] then [x]
    else if Leq(key(x), key(s[0])) then [x] + s
    else [s[0]] + InsertFront(x, s[1..], key)
  }

  /** Inserts the elements of xs, last one first, into the sorted sequence `base`. */
  function SortOnto<T>(xs: seq<T>, base: seq<T>, key: T -> Key): (r: seq<T>)
    ensures |r| == |xs| + |base|
  {
    if xs == [] then base else InsertFront(xs[0], SortOnto(xs[1..], base, key), key)
  }

  /** Python's `sorted(items, key=key)`. */
  function StableSort<T>(items: seq<T>, key: T -> Key): (r: seq<T>)
    ensures |r| == |items|
  {
    SortOnto(items, [], key)
  }

  lemma {:induction false} InsertFrontPermutes<T>(x: T, s: seq<T>, key: T -> Key)
    ensures multiset(InsertFront(x, s, key)) == multiset{x} + multiset(s)
  {
    if s != [] && !Leq(key(x), key(s[0])) {
      InsertFrontPermutes(x, s[1..], key);
      assert s == [s[0]] + s[1..];
    }
  }

  lemma {:induction false} StableSortPermutes<T>(items: seq<T>, key: T -> Key)
    ensures multiset(StableSort(items, key)) == multiset(items)
  {
    if items != [] {
      StableSortPermutes(items[1..], key);
      InsertFrontPermutes(items[0], StableSort(items[1..], key), key);
      assert items == [items[0]] + items[1..];
    }
  }

  ghost predicate Sorted<T>(s: seq<T>, key: T -> Key) {
    forall i, j :: 0 <= i < j < |s| ==> Leq(key(s[i]), key(s[j]))
  }

  /** The elements of s with key k, in their order. */
  function WithKey<T>(s: seq<T>, k: Key, key: T -> Key): seq<T> {
    if s == [] then []
    else (if key(s[0]) == k then [s[0]] else []) + WithKey(s[1..], k, key)
  }

  lemma {:induction false} InsertFrontSorted<T>(x: T, s: seq<T>, key: T -> Key)
    requires Sorted(s, key)
    ensures Sorted(InsertFront(x, s, key), key)
  {
    if s != [] && !Leq(key(x), key(s[0])) {
      var t := InsertFront(x, s[1..], key);
      InsertFrontSorted(x, s[1..], key);
      InsertFrontPermutes(x, s[1..], key);
      forall j | 0 <= j < |t|
        ensures Leq(key(s[0]), key(t[j]))
      {
        assert t[j] in multiset(t);
        assert t[j] == x || t[j] in s[1..];
      }
    }
  }

  lemma {:induction false} SortOntoSorted<T>(xs: seq<T>, base: seq<T>, key: T -> Key)
    requires Sorted(base, key)
    ensures Sorted(SortOnto(xs, base, key), key)
  {
    if xs != [] {
      SortOntoSorted(xs[1..], base, key);
      InsertFrontSorted(xs[0], SortOnto(xs[1..], base, key), key);
    }
  }

  lemma {:induction false} InsertFrontKeepsTies<T>(x: T, s: seq<T>, k: Key, key: T -> Key)
    requires Sorted(s, key)
    ensures WithKey(InsertFront(x, s, key), k, key) == WithKey([x] + s, k, key)
  {
    assert ([x] + s)[1..] == s;
    if s != [] && !Leq(key(x), key(s[0])) {
      var rest, r := s[1..], InsertFront(x, s, key);
      assert r == [s[0]] + InsertFront(x, rest, key) && r[1..] == InsertFront(x, rest, key);
      InsertFrontKeepsTies(x, rest, k, key);
      assert ([x] + rest)[1..] == rest;
      var own, first := if key(x) == k then [x] else [], if key(s[0]) == k then [s[0]] else [];
      assert WithKey(r, k, key) == first + WithKey([x] + rest, k, key) == first + (own + WithKey(rest, k, key));
      assert WithKey([x] + s, k, key) == own + (first + WithKey(rest, k, key));
      assert own == [] || first == [];
    }
  }

  /** `sorted` orders by key, permutes its input and keeps equal keys in input order. */
  lemma {:induction false} StableSortIsStable<T>(items: seq<T>, k: Key, key: T -> Key)
    ensures Sorted(StableSort(items, key), key)
    ensures WithKey(StableSort(items, key), k, key) == WithKey(items, k, key)
  {
    SortOntoSorted(items, [], key);
    if items != [] {
      StableSortIsStable(items[1..], k, key);
      InsertFrontKeepsTies(items[0], StableSort(items[1..], key), k, key);
      assert [items[0]] + items[1..] == items;
      var t := StableSort(items[1..], key);
      assert ([items[0]] + t)[1..] == t;
    }
  }

  lemma {:induction false} WithKeyHead<T>(s: seq<T>, k: Key, key: T -> Key)
    ensures WithKey(s, k, key) == [] <==> forall x :: x in s ==> key(x) != k
    ensures WithKey(s, k, key) != [] ==> WithKey(s, k, key)[0] in s && key(WithKey(s, k, key)[0]) == k
  {
    if s != [] {
      WithKeyHead(s[1..], k, key);
      assert s == [s[0]] + s[1..];
    }
  }

  /** Nothing else is sorted and stable: any such rearrangement is the result of `sorted`. */
  lemma {:induction false} StableSortUnique<T>(s: seq<T>, t: seq<T>, key: T -> Key)
    requires Sorted(s, key) && Sorted(t, key)
    requires forall k :: WithKey(s, k, key) == WithKey(t, k, key)
    ensures s == t
  {
    if t != [] {
      WithKeyHead(t, key(t[0]), key);
      WithKeyHead(s, key(t[0]), key);
      assert t[0] in t;
    }
    if s == [] {
    } else {
      var k := key(s[0]);
      WithKeyHead(s, k, key);
      WithKeyHead(t, k, key);
      assert WithKey(t, k, key) != [];
      assert k == key(t[0]);
      assert WithKey(s, k, key)[0] == s[0] && WithKey(t, k, key)[0] == t[0];
      forall j ensures WithKey(s[1..], j, key) == WithKey(t[1..], j, key) {
        assert WithKey(s, j, key) == WithKey(t, j, key);
        var u, v := WithKey(s[1..], j, key), WithKey(t[1..], j, key);
        if j == k {
          assert ([s[0]] + u)[1..] == u && ([t[0]] + v)[1..] == v;
        } else {
          assert [] + u == u && [] + v == v;
        }
      }
      StableSortUnique(s[1..], t[1..], key);
    }
  }

  // ---------------------------------------------------------------- latest

  function LastN<T>(s: seq<T>, n: nat): seq<T> {
    if |s| <= n then s else s[|s| - n..]
  }

  /** At most n newest items, oldest first; nothing for n <= 0. */
  function Latest<T>(items: seq<T>, n: int, key: T -> Key): seq<T> {
    if n <= 0 then [] else LastN(StableSort(items, key), n)
  }

  /** How many elements of s are not older than k. */
  function CountFrom<T>(s: seq<T>, k: Key, key: T -> Key): nat {
    if s == [] then 0
    else (if Leq(k, key(s[0])) then 1 else 0) + CountFrom(s[1..], k, key)
  }

  lemma {:induction false} InsertFrontCount<T>(x: T, s: seq<T>, k: Key, key: T -> Key)
    ensures CountFrom(InsertFront(x, s, key), k, key)
            == CountFrom(s, k, key) + (if Leq(k, key(x)) then 1 else 0)
  {
    if s == [] {
    } else if Leq(key(x), key(s[0])) {
      assert ([x] + s)[1..] == s;
    } else {
      InsertFrontCount(x, s[1..], k, key);
      assert InsertFront(x, s, key)[1..] == InsertFront(x, s[1..], key);
    }
  }

  lemma {:induction false} SortOntoCount<T>(xs: seq<T>, base: seq<T>, k: Key, key: T -> Key)
    ensures CountFrom(SortOnto(xs, base, key), k, key)
            == CountFrom(base, k, key) + CountFrom(xs, k, key)
  {
    if xs != [] {
      SortOntoCount(xs[1..], base, k, key);
      InsertFrontCount(xs[0], SortOnto(xs[1..], base, key), k, key);
    }
  }

  lemma {:induction false} CountAll<T>(s: seq<T>, k: Key, key: T -> Key)
    requires forall x :: x in s ==> Leq(k, key(x))
    ensures CountFrom(s, k, key) == |s|
  {
    if s != [] {
      CountAll(s[1..], k, key);
    }
  }

  lemma {:induction false} CountAtMostLength<T>(s: seq<T>, k: Key, key: T -> Key)
    ensures CountFrom(s, k, key) <= |s|
  {
    if s != [] {
      CountAtMostLength(s[1..], k, key);
    }
  }

  /** An item that is not newer than n others never reaches the last n places. */
  lemma {:induction false} InsertFrontKeepsLast<T>(x: T, s: seq<T>, n: nat, key: T -> Key)
    requires CountFrom(s, key(x), key) >= n
    ensures LastN(InsertFront(x, s, key), n) == LastN(s, n)
  {
    CountAtMostLength(s, key(x), key);
    if s == [] || Leq(key(x), key(s[0])) {
      LastNCons(x, s, n);
    } else if CountFrom(s[1..], key(x), key) >= n {
      CountAtMostLength(s[1..], key(x), key);
      InsertFrontKeepsLast(x, s[1..], n, key);
      LastNCons(s[0], InsertFront(x, s[1..], key), n);
      LastNCons(s[0], s[1..], n);
      assert [s[0]] + s[1..] == s;
    }
  }

  lemma LastNCons<T>(x: T, s: seq<T>, n: nat)
    requires |s| >= n
    ensures LastN([x] + s, n) == LastN(s, n)
  {
    assert ([x] + s)[|s| + 1 - n..] == s[|s| - n..];
  }

  lemma {:induction false} InsertFrontCommutes<T>(x: T, y: T, s: seq<T>, key: T -> Key)
    requires !Leq(key(x), key(y))
    requires Sorted(s, key)
    ensures InsertFront(x, InsertFront(y, s, key), key) == InsertFront(y, InsertFront(x, s, key), key)
  {
    if s == [] {
      assert InsertFront(x, [y], key) == [y] + InsertFront(x, [y][1..], key);
    } else if Leq(key(y), key(s[0])) {
      assert ([y] + s)[1..] == s;
    } else {
      InsertFrontCommutes(x, y, s[1..], key);
      var a, b := InsertFront(x, s[1..], key), InsertFront(y, s[1..], key);
      assert ([s[0]] + a)[1..] == a && ([s[0]] + b)[1..] == b;
    }
  }

  lemma {:induction false} SortOntoInsert<T>(x: T, t: seq<T>, base: seq<T>, key: T -> Key)
    requires Sorted(base, key)
    ensures SortOnto(InsertFront(x, t, key), base, key) == InsertFront(x, SortOnto(t, base, key), key)
  {
    if t == [] {
      assert [x][1..] == [];
    } else if Leq(key(x), key(t[0])) {
      assert ([x] + t)[1..] == t;
    } else {
      SortOntoInsert(x, t[1..], base, key);
      SortOntoSorted(t[1..], base, key);
      assert InsertFront(x, t, key)[1..] == InsertFront(x, t[1..], key);
      InsertFrontCommutes(x, t[0], SortOnto(t[1..], base, key), key);
    }
  }

  lemma {:induction false} SortOntoSorts<T>(a: seq<T>, base: seq<T>, key: T -> Key)
    requires Sorted(base, key)
    ensures SortOnto(StableSort(a, key), base, key) == SortOnto(a, base, key)
  {
    if a != [] {
      SortOntoSorts(a[1..], base, key);
      SortOntoInsert(a[0], StableSort(a[1..], key), base, key);
    }
  }

  lemma {:induction false} SortOntoAppend<T>(a: seq<T>, b: seq<T>, base: seq<T>, key: T -> Key)
    ensures SortOnto(a + b, base, key) == SortOnto(a, SortOnto(b, base, key), key)
  {
    if a == [] {
      assert a + b == b;
    } else {
      assert (a + b)[1..] == a[1..] + b;
      SortOntoAppend(a[1..], b, base, key);
    }
  }

  /** Leaving out leading items that n later ones are at least as new as changes nothing. */
  lemma {:induction false} DropOldest<T>(d: seq<T>, l: seq<T>, base: seq<T>, n: nat, key: T -> Key)
    requires |l| >= n
    requires forall x, y :: x in d && y in l ==> Leq(key(x), key(y))
    ensures LastN(SortOnto(d + l, base, key), n) == LastN(SortOnto(l, base, key), n)
  {
    if d == [] {
      assert d + l == l;
    } else {
      var rest := d[1..] + l;
      assert (d + l)[1..] == rest;
      DropOldest(d[1..], l, base, n, key);
      var k := key(d[0]);
      CountAll(l, k, key);
      SortOntoAppend(d[1..], l, base, key);
      SortOntoCount(l, base, k, key);
      SortOntoCount(d[1..], SortOnto(l, base, key), k, key);
      InsertFrontKeepsLast(d[0], SortOnto(rest, base, key), n, key);
    }
  }

  /** Selecting page by page gives exactly what one selection over everything gives. */
  lemma LatestIsIncremental<T>(a: seq<T>, b: seq<T>, n: int, key: T -> Key)
    ensures Latest(Latest(a, n, key) + b, n, key) == Latest(a + b, n, key)
  {
    if n > 0 {
      var s, base := StableSort(a, key), StableSort(b, key);
      SortOntoSorted(a, [], key);
      SortOntoSorted(b, [], key);
      assert StableSort(a + b, key) == SortOnto(s, base, key) by {
        SortOntoAppend(a, b, [], key);
        SortOntoSorts(a, base, key);
      }
      assert StableSort(LastN(s, n) + b, key) == SortOnto(LastN(s, n), base, key) by {
        SortOntoAppend(LastN(s, n), b, [], key);
      }
      if |s| > n {
        SplitSorted(s, n, key);
        assert s == s[..|s| - n] + LastN(s, n);
        DropOldest(s[..|s| - n], LastN(s, n), base, n, key);
      }
    }
  }

  lemma SplitSorted<T>(s: seq<T>, n: nat, key: T -> Key)
    requires Sorted(s, key) && n < |s|
    ensures forall x, y :: x in s[..|s| - n] && y in LastN(s, n) ==> Leq(key(x), key(y))
  {
    forall x, y | x in s[..|s| - n] && y in LastN(s, n) ensures Leq(key(x), key(y)) {
      var i :| 0 <= i < |s| - n && s[i] == x;
      var j :| 0 <= j < n && s[|s| - n..][j] == y;
      assert s[|s| - n + j] == y;
    }
  }

  /** What `latest` keeps: a part of the input, and no item left out is newer than one kept. */
  lemma LatestKeepsNewest<T>(items: seq<T>, n: int, key: T -> Key) returns (dropped: seq<T>)
    ensures |Latest(items, n, key)| == if n <= 0 then 0 else if n < |items| then n else |items|
    ensures multiset(dropped) + multiset(Latest(items, n, key)) == multiset(items)
    ensures Sorted(Latest(items, n, key), key)
    ensures forall x, y :: x in dropped && y in Latest(items, n, key) ==> Leq(key(x), key(y))
  {
    var s := StableSort(items, key);
    SortOntoSorted(items, [], key);
    StableSortPermutes(items, key);
    if n <= 0 {
      dropped := items;
    } else if |s| <= n {
      dropped := [];
    } else {
      dropped := s[..|s| - n];
      assert s == dropped + s[|s| - n..];
      SplitSorted(s, n, key);
    }
  }

  /** Folding `latest` over pages, as the MOEX poller does. */
  function FoldLatest<T>(pages: seq<seq<T>>, n: int, key: T -> Key): seq<T> {
    if pages == [] then []
    else Latest(FoldLatest(pages[..|pages| - 1], n, key) + pages[|pages| - 1], n, key)
  }

  function Concat<T>(pages: seq<seq<T>>): seq<T> {
    if pages == [] then [] else Concat(pages[..|pages| - 1]) + pages[|pages| - 1]
  }

  lemma {:induction false} FoldLatestIsBatch<T>(pages: seq<seq<T>>, n: int, key: T -> Key)
    ensures FoldLatest(pages, n, key) == Latest(Concat(pages), n, key)
  {
    if pages != [] {
      var init, last := pages[..|pages| - 1], pages[|pages| - 1];
      FoldLatestIsBatch(init, n, key);
      LatestIsIncremental(Concat(init), last, n, key);
    }
  }

  // ---------------------------------------------------------------- per-group selection

  /** Joins f(g) for every g of `order`, in that order. */
  function Gather<G, T>(order: seq<G>, f: G -> seq<T>): seq<T> {
    if order == [] then [] else Gather(order[..|order| - 1], f) + f(order[|order| - 1])
  }

  ghost predicate Distinct<G>(s: seq<G>) {
    forall i, j :: 0 <= i < j < |s| ==> s[i] != s[j]
  }

  lemma {:induction false} GatherRemove<G, T>(order: seq<G>, i: nat, f: G -> seq<T>)
    requires i < |order|
    ensures multiset(Gather(order, f))
            == multiset(Gather(order[..i] + order[i + 1..], f)) + multiset(f(order[i]))
  {
    var init, last := order[..|order| - 1], order[|order| - 1];
    if i == |order| - 1 {
      assert order[..i] + order[i + 1..] == init;
    } else {
      GatherRemove(init, i, f);
      var rest := order[..i] + order[i + 1..];
      assert rest[..|rest| - 1] == init[..i] + init[i + 1..];
      assert rest[|rest| - 1] == last;
    }
  }

  lemma RemoveDistinct<G>(s: seq<G>, i: nat)
    requires Distinct(s) && i < |s|
    ensures Distinct(s[..i] + s[i + 1..])
    ensures forall g :: g in s[..i] + s[i + 1..] <==> g in s && g != s[i]
  {
    forall g | g in s && g != s[i] ensures g in s[..i] + s[i + 1..] {
      var k :| 0 <= k < |s| && s[k] == g;
      assert k < i ==> s[..i][k] == g;
      assert k > i ==> s[i + 1..][k - i - 1] == g;
    }
  }

  /** Only the groups that contribute something matter, and not the order they are visited in. */
  lemma {:induction false} GatherAnyOrder<G, T>(a: seq<G>, b: seq<G>, f: G -> seq<T>)
    requires Distinct(a) && Distinct(b)
    requires forall g :: g in a && g !in b ==> f(g) == []
    requires forall g :: g in b && g !in a ==> f(g) == []
    ensures multiset(Gather(a, f)) == multiset(Gather(b, f))
    decreases |a| + |b|
  {
    if a == [] {
      if b != [] {
        assert b[|b| - 1] in b;
        GatherAnyOrder(a, b[..|b| - 1], f);
      }
    } else {
      var g := a[|a| - 1];
      var init := a[..|a| - 1];
      assert g !in init;
      assert a == init + [g];
      if g in b {
        var i :| 0 <= i < |b| && b[i] == g;
        var rest := b[..i] + b[i + 1..];
        GatherRemove(b, i, f);
        RemoveDistinct(b, i);
        GatherAnyOrder(init, rest, f);
      } else {
        GatherAnyOrder(init, b, f);
      }
    }
  }

  /** The items of group g, in their order. */
  function OfGroup<T, G(==)>(items: seq<T>, g: G, groupKey: T -> G): seq<T> {
    if items == [] then []
    else
      var last := items[|items| - 1];
      OfGroup(items[..|items| - 1], g, groupKey) + if groupKey(last) == g then [last] else []
  }

  /** The groups in order of first appearance: the iteration order of the dictionary. */
  function GroupOrder<T, G(==)>(items: seq<T>, groupKey: T -> G): (r: seq<G>)
    ensures forall i :: 0 <= i < |items| ==> groupKey(items[i]) in r
    ensures forall g :: g in r ==> exists i :: 0 <= i < |items| && groupKey(items[i]) == g
    ensures Distinct(r)
  {
    if items == [] then []
    else
      var init, g := GroupOrder(items[..|items| - 1], groupKey), groupKey(items[|items| - 1]);
      if g in init then init else init + [g]
  }

  function SelectPerGroup<T, G(==)>(items: seq<T>, groupKey: T -> G,
                                    rule: seq<T> -> seq<T>, orderKey: T -> Key): seq<T>
  {
    StableSort(Gather(GroupOrder(items, groupKey), g => rule(OfGroup(items, g, groupKey))), orderKey)
  }

  /** Fills the dictionary of lists; `order` is the insertion order of its keys. */
  method GroupItems<T, G(==)>(items: seq<T>, groupKey: T -> G) returns (order: seq<G>, groups: map<G, seq<T>>)
    ensures order == GroupOrder(items, groupKey)
    ensures groups.Keys == set g | g in order
    ensures forall g :: g in groups ==> groups[g] == OfGroup(items, g, groupKey)
  {
    order, groups := [], map[];
    for i := 0 to |items|
      invariant order == GroupOrder(items[..i], groupKey)
      invariant groups.Keys == set g | g in order
      invariant forall g :: g in groups ==> groups[g] == OfGroup(items[..i], g, groupKey)
    {
      var g := groupKey(items[i]);
      assert items[..i + 1][..i] == items[..i];
      EmptyGroup(items[..i], g, groupKey);
      if g in groups {
        groups := groups[g := groups[g] + [items[i]]];
      } else {
        groups := groups[g := [items[i]]];
        order := order + [g];
      }
      assert groups.Keys == set h | h in order;
    }
    assert items[..|items|] == items;
  }

  method SelectPerGroupByDict<T, G(==)>(items: seq<T>, groupKey: T -> G,
                                        rule: seq<T> -> seq<T>, orderKey: T -> Key)
    returns (r: seq<T>)
    ensures r == SelectPerGroup(items, groupKey, rule, orderKey)
  {
    var order, groups := GroupItems(items, groupKey);
    var selected: seq<T> := [];
    ghost var f := g => rule(OfGroup(items, g, groupKey));
    for i := 0 to |order|
      invariant selected == Gather(order[..i], f)
    {
      assert order[..i + 1][..i] == order[..i];
      assert order[i] in groups;
      selected := selected + rule(groups[order[i]]);
    }
    assert order[..|order|] == order;
    r := StableSort(selected, orderKey);
  }

  lemma {:induction false} OfGroupCount<T, G>(items: seq<T>, g: G, groupKey: T -> G, x: T)
    ensures multiset(OfGroup(items, g, groupKey))[x]
            == if groupKey(x) == g then multiset(items)[x] else 0
  {
    if items != [] {
      OfGroupCount(items[..|items| - 1], g, groupKey, x);
      assert items == items[..|items| - 1] + [items[|items| - 1]];
    }
  }

  lemma {:induction false} GatherCount<T, G>(order: seq<G>, f: G -> seq<T>, groupKey: T -> G, x: T)
    requires Distinct(order)
    requires forall g :: forall y :: y in f(g) ==> groupKey(y) == g
    ensures multiset(Gather(order, f))[x]
            == if groupKey(x) in order then multiset(f(groupKey(x)))[x] else 0
  {
    if order != [] {
      var init, last := order[..|order| - 1], order[|order| - 1];
      GatherCount(init, f, groupKey, x);
      assert order == init + [last];
      if groupKey(x) != last {
        assert x !in f(last);
      }
    }
  }

  /** An active group never crowds out a rare one: of each group the result holds exactly
      what the rule picks from that group alone. */
  lemma SelectionIsPerGroup<T(!new), G(!new)>(items: seq<T>, groupKey: T -> G, rule: seq<T> -> seq<T>,
                                          orderKey: T -> Key, g: G)
    requires rule([]) == []
    requires forall s: seq<T>, y: T :: y in rule(s) ==> y in s
    ensures Sorted(SelectPerGroup(items, groupKey, rule, orderKey), orderKey)
    ensures multiset(OfGroup(SelectPerGroup(items, groupKey, rule, orderKey), g, groupKey))
            == multiset(rule(OfGroup(items, g, groupKey)))
  {
    var r := SelectPerGroup(items, groupKey, rule, orderKey);
    var order := GroupOrder(items, groupKey);
    var f := h => rule(OfGroup(items, h, groupKey));
    SortOntoSorted(Gather(order, f), [], orderKey);
    StableSortPermutes(Gather(order, f), orderKey);
    forall h, y | y in f(h) ensures groupKey(y) == h {
      OfGroupCount(items, h, groupKey, y);
      assert multiset(OfGroup(items, h, groupKey))[y] > 0;
    }
    forall x ensures multiset(OfGroup(r, g, groupKey))[x] == multiset(f(g))[x] {
      OfGroupCount(r, g, groupKey, x);
      GatherCount(order, f, groupKey, x);
      if groupKey(x) == g && g !in order {
        OfGroupCount(items, g, groupKey, x);
        EmptyGroup(items, g, groupKey);
      }
      if groupKey(x) != g {
        assert x !in f(g);
      }
    }
  }

  lemma {:induction false} PresentGroup<T, G>(items: seq<T>, g: G, groupKey: T -> G)
    ensures g in GroupOrder(items, groupKey) ==> OfGroup(items, g, groupKey) != []
  {
    if items != [] {
      PresentGroup(items[..|items| - 1], g, groupKey);
    }
  }

  lemma {:induction false} EmptyGroup<T, G>(items: seq<T>, g: G, groupKey: T -> G)
    ensures g !in GroupOrder(items, groupKey) ==> OfGroup(items, g, groupKey) == []
  {
    if items != [] {
      EmptyGroup(items[..|items| - 1], g, groupKey);
      assert groupKey(items[|items| - 1]) in GroupOrder(items, groupKey);
    }
  }
}
