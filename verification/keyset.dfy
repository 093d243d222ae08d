/** Keyset pagination: pages in falling order of (timestamp, pk), each read from whatever the
    table is by then.

    Base64, ISO dates and integers in text are pairs of inverse functions here. */
module Keyset {
  import opened Wrappers
  import StreamSelection

  datatype Cursor = Cursor(timestamp: int, pk: int)

  datatype Row = Row(timestamp: int, pk: int, value: int)

  // ---------------------------------------------------------------- the cursor text

  /** Text of a moment and of a number, with the functions that read them back. */
  datatype Codec = Codec(iso: int -> string, fromIso: string -> Option<int>,
                         show: int -> string, number: string -> Option<int>)

  ghost predicate Inverse(c: Codec) {
    && (forall t: int :: c.fromIso(c.iso(t)) == Some(t) && '|' !in c.iso(t))
    && (forall n: int :: c.number(c.show(n)) == Some(n) && '|' !in c.show(n))
  }

  /** Python's `text.split("|")`. */
  function Split(text: string): (parts: seq<string>)
    ensures parts != []
  {
    if text == "" then [""]
    else
      var rest := Split(text[1..]);
      if text[0] == '|' then [""] + rest
      else [[text[0]] + rest[0]] + rest[1..]
  }

  function Bars(text: string): nat {
    if text == "" then 0 else (if text[0] == '|' then 1 else 0) + Bars(text[1..])
  }

  function EncodeCursor(cursor: Cursor, codec: Codec): string {
    codec.iso(cursor.timestamp) + "|" + codec.show(cursor.pk)
  }

  /** `Failure` is the error for an invalid cursor. */
  function DecodeCursor(text: string, codec: Codec): Result<Cursor, ()> {
    var parts := Split(text);
    if |parts| != 2 then Failure(())
    else
      var timestamp, pk := codec.fromIso(parts[0]), codec.number(parts[1]);
      if timestamp.Some? && pk.Some? then Success(Cursor(timestamp.value, pk.value)) else Failure(())
  }

  lemma {:induction false} SplitAtBar(a: string, b: string)
    requires '|' !in a
    ensures Split(a + "|" + b) == [a] + Split(b)
  {
    var text := a + "|" + b;
    if a == "" {
      assert text[1..] == b;
    } else {
      assert text[1..] == a[1..] + "|" + b;
      SplitAtBar(a[1..], b);
      assert [a[0]] + a[1..] == a;
    }
  }

  lemma {:induction false} SplitCounts(text: string)
    ensures |Split(text)| == Bars(text) + 1
    ensures Bars(text) == 0 ==> Split(text) == [text]
  {
    if text != "" {
      SplitCounts(text[1..]);
      assert [text[0]] + text[1..] == text;
    }
  }

  lemma {:induction false} NoBars(text: string)
    requires '|' !in text
    ensures Bars(text) == 0
  {
    if text != "" {
      NoBars(text[1..]);
    }
  }

  lemma CursorRoundTrip(cursor: Cursor, codec: Codec)
    requires Inverse(codec)
    ensures DecodeCursor(EncodeCursor(cursor, codec), codec) == Success(cursor)
  {
    var a, b := codec.iso(cursor.timestamp), codec.show(cursor.pk);
    SplitAtBar(a, b);
    NoBars(b);
    SplitCounts(b);
  }

  /** A text is accepted exactly if it has one bar, with a moment before it and a number after; any
      other text is an invalid cursor. */
  lemma DecodeAcceptsIff(text: string, codec: Codec, cursor: Cursor)
    ensures DecodeCursor(text, codec) == Success(cursor) <==>
            exists a, b ::
              && text == a + "|" + b && '|' !in a && '|' !in b
              && codec.fromIso(a) == Some(cursor.timestamp) && codec.number(b) == Some(cursor.pk)
  {
    SplitJoins(text);
    forall a, b | text == a + "|" + b && '|' !in a && '|' !in b ensures Split(text) == [a, b] {
      SplitAtBar(a, b);
      NoBars(b);
      SplitCounts(b);
    }
    if |Split(text)| == 2 {
      var a, b := Split(text)[0], Split(text)[1];
      assert Split(text) == [a, b];
    }
  }

  /** Two parts are what stands before and after the only bar. */
  lemma {:induction false} SplitJoins(text: string)
    ensures forall part :: part in Split(text) ==> '|' !in part
    ensures |Split(text)| == 1 ==> text == Split(text)[0]
    ensures |Split(text)| == 2 ==> text == Split(text)[0] + "|" + Split(text)[1]
  {
    if text != "" {
      var rest := Split(text[1..]);
      SplitJoins(text[1..]);
      assert text == [text[0]] + text[1..];
      assert rest[0] in rest;
      if text[0] != '|' {
        assert [text[0]] + (rest[0] + "|") == [text[0]] + rest[0] + "|";
        forall part | part in Split(text) ensures '|' !in part {
          assert part == [text[0]] + rest[0] || part in rest[1..];
        }
      } else {
        assert "" + "|" == "|" && text == "|" + text[1..];
      }
    }
  }

  lemma DecodeRefuses(text: string, codec: Codec)
    ensures DecodeCursor(text, codec) == Failure(()) <==>
            forall a, b :: text == a + "|" + b && '|' !in a && '|' !in b ==>
              codec.fromIso(a).None? || codec.number(b).None?
  {
    var result := DecodeCursor(text, codec);
    if result.Success? {
      DecodeAcceptsIff(text, codec, result.value);
    } else {
      forall a, b | text == a + "|" + b && '|' !in a && '|' !in b
        ensures codec.fromIso(a).None? || codec.number(b).None?
      {
        if codec.fromIso(a).Some? && codec.number(b).Some? {
          DecodeAcceptsIff(text, codec, Cursor(codec.fromIso(a).value, codec.number(b).value));
        }
      }
    }
  }

  // ---------------------------------------------------------------- one page

  function Descending(): Row -> StreamSelection.Key {
    (r: Row) => StreamSelection.Key(-r.timestamp, -r.pk)
  }

  /** The row comes strictly after the cursor in the order of the pages. */
  predicate Past(row: Row, cursor: Option<Cursor>) {
    cursor.None? || row.timestamp < cursor.value.timestamp ||
    (row.timestamp == cursor.value.timestamp && row.pk < cursor.value.pk)
  }

  function Filter(table: seq<Row>, cursor: Option<Cursor>): seq<Row> {
    if table == [] then []
    else (if Past(table[0], cursor) then [table[0]] else []) + Filter(table[1..], cursor)
  }

  function Take(rows: seq<Row>, n: nat): seq<Row> {
    if |rows| <= n then rows else rows[..n]
  }

  function Ordered(table: seq<Row>, cursor: Option<Cursor>): seq<Row> {
    StreamSelection.StableSort(Filter(table, cursor), Descending())
  }

  function At(row: Row): Option<Cursor> {
    Some(Cursor(row.timestamp, row.pk))
  }

  /** Reads one row more than asked for to see whether there is a next page. */
  function FetchCursorPage(table: seq<Row>, cursor: Option<Cursor>, limit: nat): (seq<Row>, Option<Cursor>) {
    var rows := Take(Ordered(table, cursor), limit + 1);
    var page := Take(rows, limit);
    (page, if |rows| > limit && page != [] then At(page[|page| - 1]) else None)
  }

  predicate UniquePk(table: seq<Row>) {
    forall i, j :: 0 <= i < j < |table| ==> table[i].pk != table[j].pk
  }

  predicate Falling(rows: seq<Row>) {
    forall i, j :: 0 <= i < j < |rows| ==> Past(rows[j], At(rows[i]))
  }

  lemma {:induction false} FilterKeeps(table: seq<Row>, cursor: Option<Cursor>, r: Row)
    ensures r in Filter(table, cursor) <==> r in table && Past(r, cursor)
  {
    if table != [] {
      FilterKeeps(table[1..], cursor, r);
      assert r in table <==> r == table[0] || r in table[1..];
    }
  }

  lemma {:induction false} FilterUnique(table: seq<Row>, cursor: Option<Cursor>)
    requires UniquePk(table)
    ensures UniquePk(Filter(table, cursor))
  {
    if table != [] {
      FilterUnique(table[1..], cursor);
      var rest := Filter(table[1..], cursor);
      forall i | 0 <= i < |rest| ensures rest[i].pk != table[0].pk {
        FilterKeeps(table[1..], cursor, rest[i]);
      }
    }
  }

  /** Rows of a table with unique keys appear once, however they are arranged. */
  lemma {:induction false} UniqueCount(table: seq<Row>, r: Row)
    requires UniquePk(table)
    ensures multiset(table)[r] <= 1
  {
    if table != [] {
      UniqueCount(table[1..], r);
      assert table == [table[0]] + table[1..];
      if r == table[0] {
        assert r !in table[1..];
      }
    }
  }

  lemma TwoPlaces(rows: seq<Row>, i: nat, j: nat)
    requires i < j < |rows| && rows[i] == rows[j]
    ensures multiset(rows)[rows[i]] >= 2
  {
    assert rows == rows[..i] + [rows[i]] + rows[i + 1..];
    assert rows[i + 1..][j - i - 1] == rows[j];
  }

  lemma UniqueStays(table: seq<Row>, rows: seq<Row>)
    requires UniquePk(table) && multiset(rows) == multiset(table)
    ensures UniquePk(rows)
  {
    forall i, j | 0 <= i < j < |rows| ensures rows[i].pk != rows[j].pk {
      if rows[i].pk == rows[j].pk {
        assert rows[i] in multiset(table) && rows[j] in multiset(table);
        UniqueCount(table, rows[i]);
        TwoPlaces(rows, i, j);
      }
    }
  }

  /** What the query returns before it is cut: the rows past the cursor, in falling order. */
  lemma OrderedIsFalling(table: seq<Row>, cursor: Option<Cursor>)
    requires UniquePk(table)
    ensures Falling(Ordered(table, cursor))
    ensures forall r :: r in Ordered(table, cursor) <==> r in table && Past(r, cursor)
  {
    var rows, some := Ordered(table, cursor), Filter(table, cursor);
    StreamSelection.StableSortIsStable(some, StreamSelection.Key(0, 0), Descending());
    StreamSelection.StableSortPermutes(some, Descending());
    FilterUnique(table, cursor);
    UniqueStays(some, rows);
    forall i, j | 0 <= i < j < |rows| ensures Past(rows[j], At(rows[i])) {
      assert StreamSelection.Leq(Descending()(rows[i]), Descending()(rows[j]));
    }
    forall r ensures r in rows <==> r in table && Past(r, cursor) {
      FilterKeeps(table, cursor, r);
      assert r in rows <==> r in multiset(rows);
    }
  }

  /** A page falls, lies past the cursor, and leaves out exactly the rows past its own end: none
      of them if there is no next cursor. */
  lemma PageLeavesOutWhatFollows(table: seq<Row>, cursor: Option<Cursor>, limit: nat, r: Row)
    requires UniquePk(table) && limit >= 1
    ensures
      var (page, next) := FetchCursorPage(table, cursor, limit);
      && Falling(page) && |page| <= limit
      && (next.Some? <==> |page| == limit < |Filter(table, cursor)|)
      && (next.Some? ==> next == At(page[|page| - 1]))
      && (r in page ==> r in table && Past(r, cursor))
      && (r in table && Past(r, cursor) && r !in page <==> next.Some? && r in table && Past(r, next))
  {
    hide Ordered, Falling, FetchCursorPage, Past, Filter;
    var rows := Ordered(table, cursor);
    var (page, next) := FetchCursorPage(table, cursor, limit);
    OrderedIsFalling(table, cursor);
    PageIsCut(table, cursor, limit);
    if next.Some? {
      CutLeaves(rows, limit, r);
      assert page[limit - 1] in rows;
      if Past(r, next) && r in table {
        PastTwice(r, page[limit - 1], cursor);
      }
    }
  }

  /** The page is all rows, or the first `limit` of more. */
  lemma PageIsCut(table: seq<Row>, cursor: Option<Cursor>, limit: nat)
    requires limit >= 1
    ensures
      var rows := Ordered(table, cursor);
      var (page, next) := FetchCursorPage(table, cursor, limit);
      && |rows| == |Filter(table, cursor)|
      && if |rows| > limit then page == rows[..limit] && next == At(rows[limit - 1]) else page == rows && next == None
  {
    hide Filter;
    var rows := Ordered(table, cursor);
    if |rows| > limit {
      assert rows[..limit + 1][..limit] == rows[..limit];
    }
  }

  /** Of falling rows the first `limit` leave out exactly those past the last of them. */
  lemma CutLeaves(rows: seq<Row>, limit: nat, r: Row)
    requires Falling(rows) && 1 <= limit < |rows|
    ensures Falling(rows[..limit])
    ensures r in rows ==> (r !in rows[..limit] <==> Past(r, At(rows[limit - 1])))
  {
    if r in rows {
      var k :| 0 <= k < |rows| && rows[k] == r;
      assert k < limit ==> rows[..limit][k] == r;
      assert k < limit - 1 ==> Past(rows[limit - 1], At(r));
      assert k >= limit ==> Past(r, At(rows[limit - 1]));
      if r in rows[..limit] {
        var l :| 0 <= l < limit && rows[l] == r;
        assert l < limit - 1 ==> Past(rows[limit - 1], At(r));
      }
    }
  }

  lemma PastTwice(r: Row, q: Row, cursor: Option<Cursor>)
    requires Past(q, cursor) && Past(r, At(q))
    ensures Past(r, cursor)
  {
  }

  // ---------------------------------------------------------------- following the cursors

  /** Follows the cursors; read k sees `tables[k]`. `done`: a page came without a next cursor. */
  function Follow(tables: seq<seq<Row>>, cursor: Option<Cursor>, limit: nat): (seq<Row>, bool) {
    if tables == [] then ([], false)
    else
      var (page, next) := FetchCursorPage(tables[0], cursor, limit);
      if next.None? then (page, true)
      else
        var (rest, done) := Follow(tables[1..], next, limit);
        (page + rest, done)
  }

  /** The rows come strictly falling and all past the cursor, whatever happens to the table. */
  lemma {:induction false} FollowFalls(tables: seq<seq<Row>>, cursor: Option<Cursor>, limit: nat)
    requires limit >= 1 && forall k :: 0 <= k < |tables| ==> UniquePk(tables[k])
    ensures Falling(Follow(tables, cursor, limit).0)
    ensures forall i :: 0 <= i < |Follow(tables, cursor, limit).0| ==> Past(Follow(tables, cursor, limit).0[i], cursor)
  {
    if tables != [] {
      var (page, next) := FetchCursorPage(tables[0], cursor, limit);
      forall i | 0 <= i < |page| ensures Past(page[i], cursor) {
        PageLeavesOutWhatFollows(tables[0], cursor, limit, page[i]);
      }
      PageLeavesOutWhatFollows(tables[0], cursor, limit, Row(0, 0, 0));
      if next.Some? {
        FollowFalls(tables[1..], next, limit);
        var rest := Follow(tables[1..], next, limit).0;
        var all := page + rest;
        forall i, j | 0 <= i < j < |all| ensures Past(all[j], At(all[i])) {
          assert i < |page| - 1 ==> Past(page[|page| - 1], At(page[i]));
          assert j >= |page| ==> all[j] == rest[j - |page|];
        }
      }
    }
  }

  /** Every row that is there all the time comes exactly once, whatever is inserted meanwhile. */
  lemma {:induction false} EveryRowOnce(tables: seq<seq<Row>>, cursor: Option<Cursor>, limit: nat, r: Row)
    requires limit >= 1 && forall k :: 0 <= k < |tables| ==> UniquePk(tables[k]) && r in tables[k]
    requires Follow(tables, cursor, limit).1
    ensures multiset(Follow(tables, cursor, limit).0)[r] == if Past(r, cursor) then 1 else 0
  {
    var rows := Follow(tables, cursor, limit).0;
    var (page, next) := FetchCursorPage(tables[0], cursor, limit);
    PageLeavesOutWhatFollows(tables[0], cursor, limit, r);
    FallingCount(page, r);
    if next.Some? {
      EveryRowOnce(tables[1..], next, limit, r);
    }
  }

  lemma {:induction false} FallingCount(rows: seq<Row>, r: Row)
    requires Falling(rows)
    ensures multiset(rows)[r] == if r in rows then 1 else 0
  {
    if rows != [] {
      FallingCount(rows[1..], r);
      assert rows == [rows[0]] + rows[1..];
      assert rows[0] !in rows[1..] by {
        forall i | 1 <= i < |rows| ensures rows[i] != rows[0] {
          assert Past(rows[i], At(rows[0]));
        }
      }
    }
  }

  /** A table that rests is read to the end, with a new row on every page. */
  lemma {:induction false} FollowEnds(table: seq<Row>, tables: seq<seq<Row>>, cursor: Option<Cursor>, limit: nat)
    requires limit >= 1 && UniquePk(table) && forall k :: 0 <= k < |tables| ==> tables[k] == table
    requires |tables| > |Filter(table, cursor)|
    ensures Follow(tables, cursor, limit).1
  {
    hide FetchCursorPage, Filter, Past, Falling;
    var (page, next) := FetchCursorPage(table, cursor, limit);
    PageLeavesOutWhatFollows(table, cursor, limit, Row(0, 0, 0));
    if next.Some? {
      var last := page[|page| - 1];
      PageLeavesOutWhatFollows(table, cursor, limit, last);
      FilterShrinks(table, cursor, last);
      FollowEnds(table, tables[1..], next, limit);
    }
  }

  lemma {:induction false} FilterShrinks(table: seq<Row>, cursor: Option<Cursor>, last: Row)
    requires Past(last, cursor)
    ensures |Filter(table, At(last))| <= |Filter(table, cursor)|
    ensures last in table ==> |Filter(table, At(last))| < |Filter(table, cursor)|
  {
    if table != [] {
      FilterShrinks(table[1..], cursor, last);
    }
  }
}
