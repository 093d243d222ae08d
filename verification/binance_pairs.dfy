/** Which pairs one Binance connection subscribes to, and in which control messages. */
module BinancePairs {

  /** A trading pair, numbered in alphabetical order. */
  type Pair = int

  const MAX_STREAMS_PER_CONNECTION := 1024
  const MAX_PARAMS_PER_REQUEST := 200

  lemma SomeMember(s: set<Pair>)
    ensures s == {} || exists x :: x in s
  {
    if forall x: Pair :: x !in s {
      assert s == {};
    }
  }

  lemma {:induction false} SmallestExists(s: set<Pair>)
    requires s != {}
    ensures exists m :: m in s && forall y :: y in s ==> m <= y
  {
    SomeMember(s);
    var x :| x in s;
    var rest := s - {x};
    assert forall y :: y in s <==> y in rest || y == x;
    if rest != {} {
      SmallestExists(rest);
      var m :| m in rest && forall y :: y in rest ==> m <= y;
      assert x <= m || (m in s && forall y :: y in s ==> m <= y);
    }
  }

  /** `sorted(pairs)`. */
  function SortedPairs(pairs: set<Pair>): (r: seq<Pair>)
    ensures |r| == |pairs|
    ensures forall p :: p in r <==> p in pairs
  {
    if pairs == {} then []
    else
      SmallestExists(pairs);
      var m :| m in pairs && forall y :: y in pairs ==> m <= y;
      [m] + SortedPairs(pairs - {m})
  }

  lemma {:induction false} SortedPairsAscend(pairs: set<Pair>)
    ensures forall i, j :: 0 <= i < j < |SortedPairs(pairs)| ==> SortedPairs(pairs)[i] < SortedPairs(pairs)[j]
  {
    if pairs != {} {
      var r := SortedPairs(pairs);
      var m := r[0];
      var rest := SortedPairs(pairs - {m});
      SortedPairsAscend(pairs - {m});
      SmallestExists(pairs);
      assert r == [m] + rest && forall y :: y in pairs ==> m <= y;
      forall j | 0 <= j < |rest| ensures m < rest[j] {
        assert rest[j] in rest;
      }
    }
  }

  /** The pairs actually subscribed to: the alphabetically first 1024. */
  function Capped(pairs: set<Pair>): set<Pair> {
    if |pairs| > MAX_STREAMS_PER_CONNECTION
    then set p | p in SortedPairs(pairs)[..MAX_STREAMS_PER_CONNECTION]
    else pairs
  }

  lemma {:induction false} CountDistinct(s: seq<Pair>)
    requires forall i, j :: 0 <= i < j < |s| ==> s[i] < s[j]
    ensures |set p | p in s| == |s|
  {
    if s != [] {
      var init, last := s[..|s| - 1], s[|s| - 1];
      CountDistinct(init);
      assert (set p | p in s) == (set p | p in init) + {last};
    }
  }

  lemma CappedIsFirst(pairs: set<Pair>)
    ensures Capped(pairs) <= pairs
    ensures |Capped(pairs)| == if |pairs| <= MAX_STREAMS_PER_CONNECTION then |pairs| else MAX_STREAMS_PER_CONNECTION
    ensures forall p, q :: p in Capped(pairs) && q in pairs - Capped(pairs) ==> p < q
  {
    if |pairs| > MAX_STREAMS_PER_CONNECTION {
      var r := SortedPairs(pairs);
      SortedPairsAscend(pairs);
      CountDistinct(r[..MAX_STREAMS_PER_CONNECTION]);
      forall p, q | p in Capped(pairs) && q in pairs - Capped(pairs) ensures p < q {
        var i :| 0 <= i < MAX_STREAMS_PER_CONNECTION && r[i] == p;
        assert q in r;
        var j :| 0 <= j < |r| && r[j] == q;
        assert j < MAX_STREAMS_PER_CONNECTION ==> q in Capped(pairs);
      }
    }
  }

  /** `_chunks`: slices of at most 200. */
  function Chunks(pairs: seq<Pair>): seq<seq<Pair>> {
    if |pairs| <= MAX_PARAMS_PER_REQUEST then (if pairs == [] then [] else [pairs])
    else [pairs[..MAX_PARAMS_PER_REQUEST]] + Chunks(pairs[MAX_PARAMS_PER_REQUEST..])
  }

  ghost function Members(chunks: seq<seq<Pair>>): set<Pair> {
    set i, p | 0 <= i < |chunks| && p in chunks[i] :: p
  }

  /** Chunks are never empty or too long for one request, and together they are the list. */
  lemma {:induction false} ChunksCover(pairs: seq<Pair>)
    ensures forall i :: 0 <= i < |Chunks(pairs)| ==> 0 < |Chunks(pairs)[i]| <= MAX_PARAMS_PER_REQUEST
    ensures Members(Chunks(pairs)) == set p | p in pairs
    ensures MAX_PARAMS_PER_REQUEST * (|Chunks(pairs)| - 1) < |pairs| || pairs == []
  {
    if |pairs| > MAX_PARAMS_PER_REQUEST {
      var head, rest := pairs[..MAX_PARAMS_PER_REQUEST], pairs[MAX_PARAMS_PER_REQUEST..];
      ChunksCover(rest);
      assert pairs == head + rest;
      var c, d := Chunks(pairs), Chunks(rest);
      assert c == [head] + d;
      forall p | p in pairs ensures p in Members(c) {
        if p in head {
          assert p in c[0];
        } else {
          assert p in Members(d);
          var i :| 0 <= i < |d| && p in d[i];
          assert c[i + 1] == d[i];
        }
      }
      forall p | p in Members(c) ensures p in pairs {
        var i :| 0 <= i < |c| && p in c[i];
        if i > 0 {
          assert c[i] == d[i - 1];
          assert p in Members(d);
        }
      }
    } else if pairs != [] {
      var c := Chunks(pairs);
      assert c == [pairs];
      forall p | p in pairs ensures p in Members(c) {
        assert p in c[0];
      }
    }
  }

  lemma SubsetSize(a: set<Pair>, b: set<Pair>)
    requires a <= b
    ensures |a| <= |b|
  {
    assert b == a + (b - a);
  }
}
