/** Return, drawdown and volume of calendar periods, over exact reals and before rounding.

    Prices are positive, as the division by them in the program demands. */
module PeriodStats {
  import opened Wrappers
  import opened CalendarPeriods

  // ---------------------------------------------------------------- drawdown

  predicate Positive(prices: seq<real>) {
    forall i :: 0 <= i < |prices| ==> prices[i] > 0.0
  }

  /** The fall from price i to price j, as a share of price i. */
  function Fall(prices: seq<real>, i: nat, j: nat): real
    requires Positive(prices) && i <= j < |prices|
  {
    1.0 - prices[j] / prices[i]
  }

  lemma BiggerPeakBiggerFall(a: real, b: real, c: real)
    requires 0.0 < a <= b && c > 0.0
    ensures 1.0 - c / a <= 1.0 - c / b < 1.0
    ensures a / a == 1.0
  {
    assert c / b * (b / a) == c / a;
    assert b / a >= 1.0;
    assert c / b > 0.0;
  }

  /** The largest of all falls between any two prices in order, the base being the first. */
  ghost predicate IsLargestFall(prices: seq<real>, r: real) {
    && Positive(prices)
    && (exists i, j :: 0 <= i <= j < |prices| && Fall(prices, i, j) == r)
    && (forall i, j :: 0 <= i <= j < |prices| ==> Fall(prices, i, j) <= r)
  }

  lemma {:induction false} LargestFallUnique(prices: seq<real>, r: real, q: real)
    requires IsLargestFall(prices, r) && IsLargestFall(prices, q)
    ensures r == q && 0.0 <= r < 1.0
  {
    var i, j :| 0 <= i <= j < |prices| && Fall(prices, i, j) == r;
    var k, l :| 0 <= k <= l < |prices| && Fall(prices, k, l) == q;
    assert Fall(prices, i, j) <= q && Fall(prices, k, l) <= r;
    assert Fall(prices, 0, 0) <= r;
    assert Fall(prices, 0, 0) == 0.0;
    BiggerPeakBiggerFall(prices[i], prices[i], prices[j]);
  }

  /** No fall to price m is larger than the one from the peak. */
  lemma FallsTo(prices: seq<real>, m: nat, peak: real, drawdown: real)
    requires Positive(prices) && m < |prices| && peak > 0.0 && 1.0 - prices[m] / peak <= drawdown
    requires forall i :: 0 <= i <= m ==> prices[i] <= peak
    ensures forall i :: 0 <= i <= m ==> Fall(prices, i, m) <= drawdown
  {
    forall i | 0 <= i <= m ensures Fall(prices, i, m) <= drawdown {
      BiggerPeakBiggerFall(prices[i], peak, prices[m]);
    }
  }

  /** One pass, keeping only the highest price so far. */
  method MaxDrawdown(base: real, closes: seq<real>) returns (drawdown: real)
    requires base > 0.0 && Positive(closes)
    ensures IsLargestFall([base] + closes, drawdown) && 0.0 <= drawdown < 1.0
  {
    var prices := [base] + closes;
    var peak: real := base;
    drawdown := 0.0;
    ghost var top, from, to := 0, 0, 0;
    BiggerPeakBiggerFall(base, base, base);
    for n := 0 to |closes|
      invariant 0 <= top <= n && peak == prices[top]
      invariant forall i :: 0 <= i <= n ==> prices[i] <= peak
      invariant 0 <= from <= to <= n && Fall(prices, from, to) == drawdown
      invariant forall i, j :: 0 <= i <= j <= n ==> Fall(prices, i, j) <= drawdown
    {
      var close := closes[n];
      assert prices[n + 1] == close;
      if close > peak {
        peak, top := close, n + 1;
      }
      var fall := 1.0 - close / peak;
      assert fall == Fall(prices, top, n + 1);
      if fall > drawdown {
        drawdown, from, to := fall, top, n + 1;
      }
      FallsTo(prices, n + 1, peak, drawdown);
    }
    BiggerPeakBiggerFall(prices[from], prices[from], prices[to]);
  }

  // ---------------------------------------------------------------- grouping

  datatype Candle = Candle(date: Date, open: real, close: real, volume: real)

  function CandleKey(c: Candle, g: Granularity): PeriodKey {
    KeyOf(c.date, g)
  }

  /** Python's `groupby`: runs of neighbours with the same key. */
  function Groups(candles: seq<Candle>, g: Granularity): (r: seq<seq<Candle>>) {
    if candles == [] then [] else Join(Groups(candles[..|candles| - 1], g), candles[|candles| - 1], g)
  }

  /** Does the candle go on with the last group? */
  predicate GoesOn(groups: seq<seq<Candle>>, c: Candle, g: Granularity) {
    && groups != [] && groups[|groups| - 1] != []
    && CandleKey(groups[|groups| - 1][0], g) == CandleKey(c, g)
  }

  function Join(groups: seq<seq<Candle>>, c: Candle, g: Granularity): seq<seq<Candle>> {
    if GoesOn(groups, c, g) then groups[..|groups| - 1] + [groups[|groups| - 1] + [c]] else groups + [[c]]
  }

  function Flatten(groups: seq<seq<Candle>>): seq<Candle> {
    if groups == [] then [] else Flatten(groups[..|groups| - 1]) + groups[|groups| - 1]
  }

  /** All candles of a group have the key of the group, which is not empty. */
  predicate GroupOk(cs: seq<Candle>, g: Granularity) {
    cs != [] && forall i :: 0 <= i < |cs| ==> CandleKey(cs[i], g) == CandleKey(cs[0], g)
  }

  predicate SortedByDate(candles: seq<Candle>) {
    && (forall i :: 0 <= i < |candles| ==> Valid(candles[i].date))
    && forall i, j :: 0 <= i < j < |candles| ==> Leq(candles[i].date, candles[j].date)
  }

  lemma JoinFlattens(groups: seq<seq<Candle>>, c: Candle, g: Granularity)
    ensures Flatten(Join(groups, c, g)) == Flatten(groups) + [c]
  {
    var joined := Join(groups, c, g);
    var k := |joined| - 1;
    assert joined[..k] == if GoesOn(groups, c, g) then groups[..|groups| - 1] else groups;
  }

  lemma JoinKeepsGroups(groups: seq<seq<Candle>>, c: Candle, g: Granularity)
    requires forall k :: 0 <= k < |groups| ==> GroupOk(groups[k], g)
    ensures forall k :: 0 <= k < |Join(groups, c, g)| ==> GroupOk(Join(groups, c, g)[k], g)
  {
    hide CandleKey;
    if GoesOn(groups, c, g) {
      var n := |groups| - 1;
      assert GroupOk(groups[n], g) && (groups[n] + [c])[0] == groups[n][0];
      assert GroupOk(groups[n] + [c], g);
      hide GroupOk;
      assert forall k :: 0 <= k < n ==> Join(groups, c, g)[k] == groups[k];
    } else {
      assert GroupOk([c], g);
      hide GroupOk;
      assert forall k :: 0 <= k < |groups| ==> Join(groups, c, g)[k] == groups[k];
    }
  }

  lemma {:induction false} GroupsPartition(candles: seq<Candle>, g: Granularity)
    ensures Flatten(Groups(candles, g)) == candles
    ensures forall k :: 0 <= k < |Groups(candles, g)| ==> GroupOk(Groups(candles, g)[k], g)
  {
    hide GroupOk, Join;
    if candles != [] {
      var c, init := candles[|candles| - 1], candles[..|candles| - 1];
      GroupsPartition(init, g);
      JoinFlattens(Groups(init, g), c, g);
      JoinKeepsGroups(Groups(init, g), c, g);
    }
  }

  lemma {:induction false} FlattenPrefix(groups: seq<seq<Candle>>, k: nat)
    requires k < |groups|
    ensures Flatten(groups[..k]) + groups[k] == Flatten(groups[..k + 1]) <= Flatten(groups)
  {
    assert groups[..k + 1][..k] == groups[..k];
    if k + 1 < |groups| {
      FlattenPrefix(groups[..|groups| - 1], k);
      assert groups[..|groups| - 1][..k + 1] == groups[..k + 1];
      assert groups[..|groups| - 1][..k] == groups[..k];
    } else {
      assert groups[..k + 1] == groups;
    }
  }

  predicate KeyLess(a: PeriodKey, b: PeriodKey) { !KeyLeq(b, a) }

  predicate KeysAscend(groups: seq<seq<Candle>>, g: Granularity) {
    && (forall k :: 0 <= k < |groups| ==> GroupOk(groups[k], g))
    && forall k, l :: 0 <= k < l < |groups| ==> KeyLess(CandleKey(groups[k][0], g), CandleKey(groups[l][0], g))
  }

  lemma JoinAscends(groups: seq<seq<Candle>>, c: Candle, g: Granularity)
    requires KeysAscend(groups, g)
    requires groups != [] ==> KeyLeq(CandleKey(groups[|groups| - 1][0], g), CandleKey(c, g))
    ensures KeysAscend(Join(groups, c, g), g)
  {
    hide CandleKey;
    var joined := Join(groups, c, g);
    var n := |joined| - 1;
    forall k | 0 <= k < |joined| ensures GroupOk(joined[k], g) && (k < |groups| ==> joined[k][0] == groups[k][0]) {
      if k < n {
        assert joined[k] == groups[k];
      }
    }
  }

  /** The groups of a sorted history are its periods: the keys strictly ascend. */
  lemma {:induction false} GroupKeysAscend(candles: seq<Candle>, g: Granularity)
    requires SortedByDate(candles)
    ensures KeysAscend(Groups(candles, g), g)
  {
    hide KeyOf, KeyLeq, KeysAscend;
    if candles == [] {
      NoGroups(g);
    } else {
      var c, init := candles[|candles| - 1], candles[..|candles| - 1];
      var before := Groups(init, g);
      GroupKeysAscend(init, g);
      GroupsPartition(init, g);
      if before != [] {
        var last := before[|before| - 1];
        assert GroupOk(last, g);
        LastOfGroups(before, init, g);
        KeyIsMonotone(init[|init| - 1].date, c.date, g);
        assert CandleKey(last[|last| - 1], g) == CandleKey(last[0], g);
      }
      JoinAscends(before, c, g);
    }
  }

  lemma NoGroups(g: Granularity)
    ensures KeysAscend([], g)
  {
  }

  lemma LastOfGroups(groups: seq<seq<Candle>>, candles: seq<Candle>, g: Granularity)
    requires Flatten(groups) == candles && groups != [] && groups[|groups| - 1] != []
    ensures candles != [] && candles[|candles| - 1] == groups[|groups| - 1][|groups[|groups| - 1]| - 1]
  {
  }

  // ---------------------------------------------------------------- the rows

  /** `change` is the growth factor of the period less one. */
  datatype PeriodRow = PeriodRow(key: PeriodKey, firstDate: Date, lastDate: Date, tradingDays: nat, close: real,
                                 change: real, drawdown: real, volumeChange: Option<real>, partial: bool)

  datatype Query = Query(from: Date, to: Date, historyStart: Date, today: Date)

  function Closes(cs: seq<Candle>): seq<real> {
    seq(|cs|, i requires 0 <= i < |cs| => cs[i].close)
  }

  function TotalVolume(cs: seq<Candle>): real {
    if cs == [] then 0.0 else TotalVolume(cs[..|cs| - 1]) + cs[|cs| - 1].volume
  }

  function AverageVolume(cs: seq<Candle>): real
    requires cs != []
  {
    TotalVolume(cs) / |cs| as real
  }

  predicate Priced(cs: seq<Candle>) {
    forall i :: 0 <= i < |cs| ==> cs[i].open > 0.0 && cs[i].close > 0.0
  }

  predicate AllOk(groups: seq<seq<Candle>>, g: Granularity) {
    forall k :: 0 <= k < |groups| ==> GroupOk(groups[k], g) && Priced(groups[k]) && Valid(groups[k][0].date)
  }

  function Last(cs: seq<Candle>): Candle
    requires cs != []
  {
    cs[|cs| - 1]
  }

  /** What the return of group k is measured from: the close before it, or else its first open. */
  function BaseOf(groups: seq<seq<Candle>>, k: nat, baseBefore: Option<Candle>, g: Granularity): real
    requires AllOk(groups, g) && k < |groups|
  {
    if k > 0 then (assert GroupOk(groups[k - 1], g); Last(groups[k - 1]).close)
    else if baseBefore.Some? then baseBefore.value.close
    else (assert GroupOk(groups[k], g); groups[k][0].open)
  }

  function Later(a: Date, b: Date): Date { if Leq(a, b) then b else a }

  function Earlier(a: Date, b: Date): Date { if Leq(a, b) then a else b }

  /** Does the period reach outside the days that were asked for and that can have data? */
  predicate Partial(key: PeriodKey, g: Granularity, q: Query)
    requires ValidKey(key, g)
  {
    !Leq(Later(q.from, q.historyStart), Bounds(key, g).0) || !Leq(Bounds(key, g).1, Earlier(q.to, q.today))
  }

  /** A whole period is one all of whose days are asked for, in the history and not to come. */
  lemma WholePeriod(key: PeriodKey, g: Granularity, q: Query)
    requires ValidKey(key, g)
    ensures !Partial(key, g, q) <==>
            forall d :: Valid(d) && KeyOf(d, g) == key ==>
              Leq(q.from, d) && Leq(q.historyStart, d) && Leq(d, q.to) && Leq(d, q.today)
  {
    var (first, last) := Bounds(key, g);
    DateInItsPeriodOnly(first, key, g);
    DateInItsPeriodOnly(last, key, g);
    forall d | Valid(d) ensures KeyOf(d, g) == key <==> Leq(first, d) && Leq(d, last) {
      DateInItsPeriodOnly(d, key, g);
    }
  }

  /** Volume against that of the group before, unless that had none. */
  function VolumeChange(groups: seq<seq<Candle>>, k: nat, g: Granularity): Option<real>
    requires AllOk(groups, g) && k < |groups|
  {
    if k == 0 then None
    else
      assert GroupOk(groups[k - 1], g) && GroupOk(groups[k], g);
      var before := AverageVolume(groups[k - 1]);
      if before == 0.0 then None else Some(AverageVolume(groups[k]) / before - 1.0)
  }

  /** The row tells of group k. */
  ghost predicate RowOf(row: PeriodRow, groups: seq<seq<Candle>>, k: nat, baseBefore: Option<Candle>,
                        g: Granularity, q: Query)
    requires AllOk(groups, g) && k < |groups| && (baseBefore.Some? ==> baseBefore.value.close > 0.0)
  {
    var cs, base := groups[k], BaseOf(groups, k, baseBefore, g);
    && GroupOk(cs, g) && base > 0.0
    && row.key == CandleKey(cs[0], g) && ValidKey(row.key, g)
    && row.firstDate == cs[0].date && row.lastDate == Last(cs).date && row.tradingDays == |cs|
    && row.close == Last(cs).close && row.change == row.close / base - 1.0
    && IsLargestFall([base] + Closes(cs), row.drawdown)
    && row.volumeChange == VolumeChange(groups, k, g)
    && row.partial == Partial(row.key, g, q)
  }

  lemma BasePositive(groups: seq<seq<Candle>>, k: nat, baseBefore: Option<Candle>, g: Granularity)
    requires AllOk(groups, g) && k < |groups| && (baseBefore.Some? ==> baseBefore.value.close > 0.0)
    ensures BaseOf(groups, k, baseBefore, g) > 0.0
    ensures GroupOk(groups[k], g) && Priced(groups[k]) && ValidKey(CandleKey(groups[k][0], g), g)
    ensures Positive(Closes(groups[k]))
  {
    assert GroupOk(groups[k], g) && Priced(groups[k]);
    if k > 0 {
      assert GroupOk(groups[k - 1], g) && Priced(groups[k - 1]);
    }
    DateInItsPeriodOnly(groups[k][0].date, PeriodKey(1, if g.Year? then 0 else 1), g);
  }

  /** The rows tell of the groups from `skipped` on: those whose key is not before the first. */
  ghost predicate RowsOf(rows: seq<PeriodRow>, groups: seq<seq<Candle>>, skipped: nat, baseBefore: Option<Candle>,
                         g: Granularity, q: Query)
    requires AllOk(groups, g) && (baseBefore.Some? ==> baseBefore.value.close > 0.0)
  {
    && skipped + |rows| <= |groups|
    && (forall j :: 0 <= j < |rows| ==> RowOf(rows[j], groups, skipped + j, baseBefore, g, q))
  }

  /** The rows are those of the last groups: the ones whose key is not before that of `q.from`. */
  ghost predicate RowsFor(rows: seq<PeriodRow>, candles: seq<Candle>, baseBefore: Option<Candle>, g: Granularity,
                          q: Query)
    requires baseBefore.Some? ==> baseBefore.value.close > 0.0
  {
    var groups := Groups(candles, g);
    && |rows| <= |groups| && AllOk(groups, g)
    && RowsOf(rows, groups, |groups| - |rows|, baseBefore, g, q)
    && forall k :: 0 <= k < |groups| ==>
         (KeyLeq(KeyOf(q.from, g), CandleKey(groups[k][0], g)) <==> |groups| - |rows| <= k)
  }

  method RowFor(groups: seq<seq<Candle>>, k: nat, baseBefore: Option<Candle>, g: Granularity, q: Query,
                base: real, avgVolume: real, prevAvgVolume: Option<real>) returns (row: PeriodRow)
    requires AllOk(groups, g) && k < |groups| && (baseBefore.Some? ==> baseBefore.value.close > 0.0)
    requires base == BaseOf(groups, k, baseBefore, g)
    requires GroupOk(groups[k], g) && avgVolume == AverageVolume(groups[k])
    requires k > 0 ==> GroupOk(groups[k - 1], g)
    requires prevAvgVolume == if k > 0 then Some(AverageVolume(groups[k - 1])) else None
    ensures RowOf(row, groups, k, baseBefore, g, q)
  {
    hide Partial, ValidKey, KeyOf, AverageVolume, IsLargestFall, BaseOf;
    BasePositive(groups, k, baseBefore, g);
    var cs := groups[k];
    var key := CandleKey(cs[0], g);
    var volumeChange := None;
    if prevAvgVolume.Some? && prevAvgVolume.value != 0.0 {
      volumeChange := Some(avgVolume / prevAvgVolume.value - 1.0);
    }
    var drawdown := MaxDrawdown(base, Closes(cs));
    row := PeriodRow(key, cs[0].date, Last(cs).date, |cs|, Last(cs).close, Last(cs).close / base - 1.0,
                     drawdown, volumeChange, Partial(key, g, q));
  }

  /** Return, drawdown and volume change of every period from that of `q.from` on. */
  method PeriodRows(candles: seq<Candle>, baseBefore: Option<Candle>, g: Granularity, q: Query)
    returns (rows: seq<PeriodRow>)
    requires SortedByDate(candles) && Priced(candles) && (baseBefore.Some? ==> baseBefore.value.close > 0.0)
    ensures RowsFor(rows, candles, baseBefore, g, q)
  {
    hide KeyOf, SortedByDate, KeyLeq, RowOf, AverageVolume, VolumeChange, RowsOf, CarriedOver, KeysSplit, Groups;
    var firstKey := KeyOf(q.from, g);
    var groups := Groups(candles, g);
    GroupsAllOk(candles, g);
    GroupKeysAscend(candles, g);
    var prevClose: Option<real> := None;
    if baseBefore.Some? {
      prevClose := Some(baseBefore.value.close);
    }
    var prevAvgVolume: Option<real> := None;
    rows := [];
    ghost var skipped := 0;
    NoRows(groups, 0, baseBefore, g, q);
    NothingBefore(groups, baseBefore, firstKey, g);
    for i := 0 to |groups|
      invariant CarriedOver(groups, i, baseBefore, g, prevClose, prevAvgVolume)
      invariant skipped + |rows| == i && RowsOf(rows, groups, skipped, baseBefore, g, q)
      invariant KeysSplit(groups, firstKey, g, skipped, i)
    {
      var cs := groups[i];
      assert GroupOk(cs, g);
      var key := CandleKey(cs[0], g);
      var base := if prevClose.Some? then prevClose.value else cs[0].open;
      var avgVolume := AverageVolume(cs);
      Carry(groups, i, baseBefore, g, prevClose, prevAvgVolume);
      SplitGrows(groups, firstKey, g, skipped, i);
      if KeyLeq(firstKey, key) {
        var row := RowFor(groups, i, baseBefore, g, q, base, avgVolume, prevAvgVolume);
        OneMoreRow(rows, row, groups, skipped, baseBefore, g, q);
        rows := rows + [row];
      } else {
        skipped := skipped + 1;
        NoRows(groups, skipped, baseBefore, g, q);
      }
      prevClose, prevAvgVolume := Some(Last(cs).close), Some(avgVolume);
    }
    SplitDone(groups, firstKey, g, skipped);
  }

  /** What the loop carries from one group to the next. */
  ghost predicate CarriedOver(groups: seq<seq<Candle>>, i: nat, baseBefore: Option<Candle>, g: Granularity,
                              prevClose: Option<real>, prevAvgVolume: Option<real>)
    requires i <= |groups| && AllOk(groups, g)
  {
    if i == 0 then
      && prevClose == (if baseBefore.Some? then Some(baseBefore.value.close) else None)
      && prevAvgVolume == None
    else
      && GroupOk(groups[i - 1], g) && prevClose == Some(Last(groups[i - 1]).close)
      && prevAvgVolume == Some(AverageVolume(groups[i - 1]))
  }

  lemma Carry(groups: seq<seq<Candle>>, i: nat, baseBefore: Option<Candle>, g: Granularity,
              prevClose: Option<real>, prevAvgVolume: Option<real>)
    requires i < |groups| && AllOk(groups, g) && CarriedOver(groups, i, baseBefore, g, prevClose, prevAvgVolume)
    ensures GroupOk(groups[i], g)
    ensures (if prevClose.Some? then prevClose.value else groups[i][0].open) == BaseOf(groups, i, baseBefore, g)
    ensures i > 0 ==> GroupOk(groups[i - 1], g)
    ensures prevAvgVolume == if i > 0 then Some(AverageVolume(groups[i - 1])) else None
    ensures CarriedOver(groups, i + 1, baseBefore, g, Some(Last(groups[i]).close), Some(AverageVolume(groups[i])))
  {
    assert GroupOk(groups[i], g);
  }

  /** Of the first n groups exactly the first `skipped` have a key before `first`. */
  ghost predicate KeysSplit(groups: seq<seq<Candle>>, first: PeriodKey, g: Granularity, skipped: nat, n: nat)
    requires n <= |groups| && AllOk(groups, g)
  {
    forall k :: 0 <= k < n ==>
      GroupOk(groups[k], g) && (KeyLeq(first, CandleKey(groups[k][0], g)) <==> skipped <= k)
  }

  lemma NothingBefore(groups: seq<seq<Candle>>, baseBefore: Option<Candle>, first: PeriodKey, g: Granularity)
    requires AllOk(groups, g)
    ensures KeysSplit(groups, first, g, 0, 0)
    ensures CarriedOver(groups, 0, baseBefore, g,
                        if baseBefore.Some? then Some(baseBefore.value.close) else None, None)
  {
  }

  /** Once a key is not before the first one, none after it is. */
  lemma SplitGrows(groups: seq<seq<Candle>>, first: PeriodKey, g: Granularity, skipped: nat, n: nat)
    requires AllOk(groups, g) && KeysAscend(groups, g) && skipped <= n < |groups|
    requires KeysSplit(groups, first, g, skipped, n)
    ensures GroupOk(groups[n], g)
    ensures
      if KeyLeq(first, CandleKey(groups[n][0], g)) then KeysSplit(groups, first, g, skipped, n + 1)
      else skipped == n && KeysSplit(groups, first, g, n + 1, n + 1)
  {
    hide CandleKey;
    assert GroupOk(groups[n], g);
    if skipped < n {
      assert GroupOk(groups[n - 1], g) && KeyLeq(first, CandleKey(groups[n - 1][0], g));
      assert KeyLess(CandleKey(groups[n - 1][0], g), CandleKey(groups[n][0], g));
    }
  }

  lemma SplitDone(groups: seq<seq<Candle>>, first: PeriodKey, g: Granularity, skipped: nat)
    requires AllOk(groups, g) && KeysSplit(groups, first, g, skipped, |groups|)
    ensures forall k :: 0 <= k < |groups| ==>
              groups[k] != [] && (KeyLeq(first, CandleKey(groups[k][0], g)) <==> skipped <= k)
  {
    forall k | 0 <= k < |groups|
      ensures groups[k] != [] && (KeyLeq(first, CandleKey(groups[k][0], g)) <==> skipped <= k)
    {
      assert GroupOk(groups[k], g);
    }
  }

  lemma NoRows(groups: seq<seq<Candle>>, skipped: nat, baseBefore: Option<Candle>, g: Granularity, q: Query)
    requires AllOk(groups, g) && (baseBefore.Some? ==> baseBefore.value.close > 0.0) && skipped <= |groups|
    ensures RowsOf([], groups, skipped, baseBefore, g, q)
  {
  }

  lemma OneMoreRow(rows: seq<PeriodRow>, row: PeriodRow, groups: seq<seq<Candle>>, skipped: nat,
                   baseBefore: Option<Candle>, g: Granularity, q: Query)
    requires AllOk(groups, g) && (baseBefore.Some? ==> baseBefore.value.close > 0.0)
    requires RowsOf(rows, groups, skipped, baseBefore, g, q) && skipped + |rows| < |groups|
    requires RowOf(row, groups, skipped + |rows|, baseBefore, g, q)
    ensures RowsOf(rows + [row], groups, skipped, baseBefore, g, q)
  {
    hide RowOf;
  }

  lemma GroupIsSlice(groups: seq<seq<Candle>>, k: nat)
    requires k < |groups|
    ensures
      var start := |Flatten(groups[..k])|;
      start + |groups[k]| <= |Flatten(groups)| && groups[k] == Flatten(groups)[start..start + |groups[k]|]
  {
    FlattenPrefix(groups, k);
    var before := Flatten(groups[..k]);
    var both := before + groups[k];
    assert groups[k] == both[|before|..];
    assert both == Flatten(groups)[..|both|];
  }

  lemma GroupsAllOk(candles: seq<Candle>, g: Granularity)
    requires SortedByDate(candles) && Priced(candles)
    ensures AllOk(Groups(candles, g), g)
  {
    hide Groups;
    var groups := Groups(candles, g);
    GroupsPartition(candles, g);
    forall k | 0 <= k < |groups| ensures GroupOk(groups[k], g) && Priced(groups[k]) && Valid(groups[k][0].date) {
      GroupIsSlice(groups, k);
      var start := |Flatten(groups[..k])|;
      assert forall i :: 0 <= i < |groups[k]| ==> groups[k][i] == candles[start + i];
      assert GroupOk(groups[k], g);
    }
  }

  // ---------------------------------------------------------------- what the rows add up to

  function Days(rows: seq<PeriodRow>): nat {
    if rows == [] then 0 else Days(rows[..|rows| - 1]) + rows[|rows| - 1].tradingDays
  }

  // ---------------------------------------------------------------- volumes

  lemma Shared(total: real, n: real, x: real)
    requires n > 0.0
    ensures total / n * n == total
    ensures x * n <= total ==> x <= total / n
    ensures total <= x * n ==> total / n <= x
  {
    var share := total / n;
    assert share * n == total;
    if x > share {
      assert (x - share) * n > 0.0;
    } else if x < share {
      assert (share - x) * n > 0.0;
    }
  }

  lemma {:induction false} TotalBetween(cs: seq<Candle>, lo: real, hi: real)
    requires forall c :: c in cs ==> lo <= c.volume <= hi
    ensures lo * |cs| as real <= TotalVolume(cs) <= hi * |cs| as real
  {
    if cs != [] {
      var init, last := cs[..|cs| - 1], cs[|cs| - 1];
      TotalBetween(init, lo, hi);
      assert last in cs;
      assert |cs| as real == |init| as real + 1.0;
    }
  }

  /** An average lies between the bounds of what it averages; that of one candle is its volume. */
  lemma AverageIsBetween(cs: seq<Candle>, lo: real, hi: real)
    requires cs != [] && forall c :: c in cs ==> lo <= c.volume <= hi
    ensures lo <= AverageVolume(cs) <= hi
  {
    hide TotalVolume;
    TotalBetween(cs, lo, hi);
    Shared(TotalVolume(cs), |cs| as real, lo);
    Shared(TotalVolume(cs), |cs| as real, hi);
  }

  lemma {:induction false} TotalJoins(a: seq<Candle>, b: seq<Candle>)
    ensures TotalVolume(a + b) == TotalVolume(a) + TotalVolume(b)
  {
    if b == [] {
      assert a + b == a;
    } else {
      TotalJoins(a, b[..|b| - 1]);
      assert (a + b)[..|a + b| - 1] == a + b[..|b| - 1];
    }
  }

  /** Averages of two stretches join, weighted by their days. */
  lemma AverageJoins(a: seq<Candle>, b: seq<Candle>)
    requires a != [] && b != []
    ensures AverageVolume(a + b) * |a + b| as real
            == AverageVolume(a) * |a| as real + AverageVolume(b) * |b| as real
  {
    hide TotalVolume;
    TotalJoins(a, b);
    Shared(TotalVolume(a), |a| as real, 0.0);
    Shared(TotalVolume(b), |b| as real, 0.0);
    Shared(TotalVolume(a + b), |a + b| as real, 0.0);
  }

  /** A row's volume change leads from the average of the group before to its own; there is one unless
      the group is the first or the one before had no volume. */
  lemma VolumeChangeLeads(row: PeriodRow, groups: seq<seq<Candle>>, k: nat, baseBefore: Option<Candle>,
                          g: Granularity, q: Query)
    requires AllOk(groups, g) && k < |groups| && (baseBefore.Some? ==> baseBefore.value.close > 0.0)
    requires RowOf(row, groups, k, baseBefore, g, q)
    ensures GroupOk(groups[k], g) && (k > 0 ==> GroupOk(groups[k - 1], g))
    ensures row.volumeChange == None <==> k == 0 || AverageVolume(groups[k - 1]) == 0.0
    ensures row.volumeChange.Some? ==>
              AverageVolume(groups[k - 1]) * (1.0 + row.volumeChange.value) == AverageVolume(groups[k])
  {
    hide IsLargestFall, Partial, CandleKey, Closes, BaseOf, TotalVolume, AverageVolume;
    if k > 0 {
      assert GroupOk(groups[k - 1], g);
      var before, now := AverageVolume(groups[k - 1]), AverageVolume(groups[k]);
      if before != 0.0 {
        assert before * (now / before) == now;
      }
    }
  }

  /** The growth factors multiplied. */
  function Growth(rows: seq<PeriodRow>): real {
    if rows == [] then 1.0 else Growth(rows[..|rows| - 1]) * (1.0 + rows[|rows| - 1].change)
  }

  lemma {:induction false} GrowthChains(rows: seq<PeriodRow>, groups: seq<seq<Candle>>, skipped: nat,
                                        baseBefore: Option<Candle>, g: Granularity, q: Query)
    requires AllOk(groups, g) && (baseBefore.Some? ==> baseBefore.value.close > 0.0)
    requires rows != [] && RowsOf(rows, groups, skipped, baseBefore, g, q)
    ensures BaseOf(groups, skipped, baseBefore, g) * Growth(rows) == rows[|rows| - 1].close
  {
    hide AllOk, RowOf, BaseOf;
    var n := |rows| - 1;
    RowGrows(rows[n], groups, skipped + n, baseBefore, g, q);
    var base, first := BaseOf(groups, skipped + n, baseBefore, g), BaseOf(groups, skipped, baseBefore, g);
    if n > 0 {
      var init := rows[..n];
      GrowthChains(init, groups, skipped, baseBefore, g, q);
      assert init[n - 1] == rows[n - 1];
      BaseIsCloseBefore(rows[n - 1], groups, skipped + (n - 1), baseBefore, g, q);
      Chain(first, Growth(init), 1.0 + rows[n].change, base, rows[n].close);
    }
  }

  lemma RowGrows(row: PeriodRow, groups: seq<seq<Candle>>, k: nat, baseBefore: Option<Candle>, g: Granularity, q: Query)
    requires AllOk(groups, g) && k < |groups| && (baseBefore.Some? ==> baseBefore.value.close > 0.0)
    requires RowOf(row, groups, k, baseBefore, g, q)
    ensures BaseOf(groups, k, baseBefore, g) * (1.0 + row.change) == row.close
  {
    hide IsLargestFall, AllOk, VolumeChange, Partial, CandleKey, Closes, BaseOf;
    var base := BaseOf(groups, k, baseBefore, g);
    assert base * (row.close / base) == row.close;
  }

  lemma BaseIsCloseBefore(row: PeriodRow, groups: seq<seq<Candle>>, k: nat, baseBefore: Option<Candle>,
                          g: Granularity, q: Query)
    requires AllOk(groups, g) && k + 1 < |groups| && (baseBefore.Some? ==> baseBefore.value.close > 0.0)
    requires RowOf(row, groups, k, baseBefore, g, q)
    ensures BaseOf(groups, k + 1, baseBefore, g) == row.close
  {
  }

  lemma Chain(first: real, growth: real, factor: real, base: real, close: real)
    requires first * growth == base && base * factor == close
    ensures first * (growth * factor) == close
  {
  }

  lemma {:induction false} DaysAdd(rows: seq<PeriodRow>, groups: seq<seq<Candle>>, skipped: nat,
                                   baseBefore: Option<Candle>, g: Granularity, q: Query)
    requires AllOk(groups, g) && (baseBefore.Some? ==> baseBefore.value.close > 0.0)
    requires RowsOf(rows, groups, skipped, baseBefore, g, q)
    ensures |Flatten(groups[..skipped])| + Days(rows) == |Flatten(groups[..skipped + |rows|])|
  {
    hide IsLargestFall, AllOk, VolumeChange, Partial, CandleKey, Closes, BaseOf;
    if rows != [] {
      var n := |rows| - 1;
      DaysAdd(rows[..n], groups, skipped, baseBefore, g, q);
      assert RowOf(rows[n], groups, skipped + n, baseBefore, g, q);
      FlattenPrefix(groups, skipped + n);
    }
  }

  /** How many candles have a key before `first`. */
  function CountBefore(candles: seq<Candle>, first: PeriodKey, g: Granularity): nat {
    if candles == [] then 0
    else
      var c := candles[|candles| - 1];
      CountBefore(candles[..|candles| - 1], first, g) + if KeyLeq(first, CandleKey(c, g)) then 0 else 1
  }

  lemma {:induction false} CountBeforeIs(candles: seq<Candle>, first: PeriodKey, g: Granularity, n: nat)
    requires n <= |candles|
    requires forall i :: 0 <= i < |candles| ==> (KeyLeq(first, CandleKey(candles[i], g)) <==> n <= i)
    ensures CountBefore(candles, first, g) == n
  {
    if candles != [] {
      var l := |candles| - 1;
      CountBeforeIs(candles[..l], first, g, if n <= l then n else l);
    }
  }

  lemma {:induction false} FlattenLength(groups: seq<seq<Candle>>, a: nat, b: nat)
    requires a <= b <= |groups|
    ensures |Flatten(groups[..a])| <= |Flatten(groups[..b])|
  {
    if a < b {
      FlattenLength(groups, a, b - 1);
      FlattenPrefix(groups, b - 1);
    }
  }

  /** Which candles the first k groups hold, told apart by their keys. */
  lemma {:induction false} GroupsTellApart(candles: seq<Candle>, groups: seq<seq<Candle>>, skipped: nat,
                                           first: PeriodKey, g: Granularity, k: nat)
    requires candles == Flatten(groups) && skipped <= |groups| && k <= |groups|
    requires forall l :: 0 <= l < |groups| ==>
               GroupOk(groups[l], g) && (KeyLeq(first, CandleKey(groups[l][0], g)) <==> skipped <= l)
    ensures |Flatten(groups[..k])| <= |candles|
    ensures forall i :: 0 <= i < |Flatten(groups[..k])| ==>
              (KeyLeq(first, CandleKey(candles[i], g)) <==> |Flatten(groups[..skipped])| <= i)
  {
    hide CandleKey, KeyLeq;
    assert groups[..|groups|] == groups;
    FlattenLength(groups, k, |groups|);
    if k > 0 {
      GroupsTellApart(candles, groups, skipped, first, g, k - 1);
      GroupIsSlice(groups, k - 1);
      FlattenPrefix(groups, k - 1);
      var start := |Flatten(groups[..k - 1])|;
      if skipped <= k - 1 {
        FlattenLength(groups, skipped, k - 1);
      } else {
        FlattenLength(groups, k, skipped);
      }
      assert GroupOk(groups[k - 1], g);
      forall i | start <= i < start + |groups[k - 1]|
        ensures CandleKey(candles[i], g) == CandleKey(groups[k - 1][0], g)
      {
        assert candles[i] == groups[k - 1][i - start];
      }
    }
  }

  lemma SkippedIsCountBefore(candles: seq<Candle>, first: PeriodKey, g: Granularity, skipped: nat)
    requires skipped <= |Groups(candles, g)|
    requires forall l :: 0 <= l < |Groups(candles, g)| ==>
               Groups(candles, g)[l] != [] && (KeyLeq(first, CandleKey(Groups(candles, g)[l][0], g)) <==> skipped <= l)
    ensures |Flatten(Groups(candles, g)[..skipped])| == CountBefore(candles, first, g)
  {
    var groups := Groups(candles, g);
    GroupsPartition(candles, g);
    FlattenLength(groups, skipped, |groups|);
    assert groups[..|groups|] == groups;
    GroupsTellApart(candles, groups, skipped, first, g, |groups|);
    CountBeforeIs(candles, first, g, |Flatten(groups[..skipped])|);
  }

  /** What a return is measured from, seen from the candles: the close before candle m, or the close
      given, or the first open. */
  function BaseAt(candles: seq<Candle>, m: nat, baseBefore: Option<Candle>): real
    requires m < |candles|
  {
    if m > 0 then candles[m - 1].close
    else if baseBefore.Some? then baseBefore.value.close
    else candles[0].open
  }

  /** The ends of the rows, seen from the candles. */
  lemma RowsEnds(candles: seq<Candle>, rows: seq<PeriodRow>, skipped: nat, baseBefore: Option<Candle>,
                 g: Granularity, q: Query)
    requires AllOk(Groups(candles, g), g) && (baseBefore.Some? ==> baseBefore.value.close > 0.0)
    requires rows != [] && skipped + |rows| == |Groups(candles, g)|
    requires RowsOf(rows, Groups(candles, g), skipped, baseBefore, g, q)
    ensures
      var m := |Flatten(Groups(candles, g)[..skipped])|;
      && m < |candles| && BaseOf(Groups(candles, g), skipped, baseBefore, g) == BaseAt(candles, m, baseBefore)
      && rows[0].firstDate == candles[m].date && rows[|rows| - 1].lastDate == candles[|candles| - 1].date
      && rows[|rows| - 1].close == candles[|candles| - 1].close
  {
    hide Groups, AllOk, IsLargestFall, VolumeChange, Partial, CandleKey;
    var groups := Groups(candles, g);
    GroupsPartition(candles, g);
    GroupIsSlice(groups, skipped);
    var m, n := |Flatten(groups[..skipped])|, |rows| - 1;
    assert RowOf(rows[0], groups, skipped + 0, baseBefore, g, q);
    assert RowOf(rows[n], groups, skipped + n, baseBefore, g, q);
    LastOfGroups(groups, candles, g);
    assert candles[m] == groups[skipped][0];
    if skipped > 0 {
      var before := groups[..skipped];
      assert GroupOk(groups[skipped - 1], g);
      LastOfGroups(before, Flatten(before), g);
      FlattenPrefix(groups, skipped);
      assert Flatten(before) == candles[..m];
    }
  }

  lemma RowKeysAscend(rows: seq<PeriodRow>, groups: seq<seq<Candle>>, skipped: nat, baseBefore: Option<Candle>,
                      g: Granularity, q: Query)
    requires AllOk(groups, g) && (baseBefore.Some? ==> baseBefore.value.close > 0.0) && KeysAscend(groups, g)
    requires RowsOf(rows, groups, skipped, baseBefore, g, q)
    ensures forall i, j :: 0 <= i < j < |rows| ==> KeyLess(rows[i].key, rows[j].key)
  {
    hide AllOk, IsLargestFall, VolumeChange, Partial, CandleKey, BaseOf, KeyLess;
    forall i, j | 0 <= i < j < |rows| ensures KeyLess(rows[i].key, rows[j].key) {
      assert RowOf(rows[i], groups, skipped + i, baseBefore, g, q);
      assert RowOf(rows[j], groups, skipped + j, baseBefore, g, q);
    }
  }

  /** The rows cover the candles from the first period on, each once; their growth factors multiply
      to the last close over what the first return is measured from. */
  lemma PeriodRowsAddUp(rows: seq<PeriodRow>, candles: seq<Candle>, baseBefore: Option<Candle>, g: Granularity,
                        q: Query)
    requires SortedByDate(candles) && (baseBefore.Some? ==> baseBefore.value.close > 0.0)
    requires RowsFor(rows, candles, baseBefore, g, q)
    ensures Days(rows) + CountBefore(candles, KeyOf(q.from, g), g) == |candles|
    ensures rows == [] <==> CountBefore(candles, KeyOf(q.from, g), g) == |candles|
    ensures rows != [] ==>
              var m := CountBefore(candles, KeyOf(q.from, g), g);
              && BaseAt(candles, m, baseBefore) * Growth(rows) == candles[|candles| - 1].close
              && rows[0].firstDate == candles[m].date && rows[|rows| - 1].lastDate == candles[|candles| - 1].date
    ensures forall i, j :: 0 <= i < j < |rows| ==> KeyLess(rows[i].key, rows[j].key)
  {
    hide Groups, AllOk, RowsOf, CountBefore, Growth, Days, BaseOf, BaseAt, KeyOf, SortedByDate, KeyLess, Flatten;
    var groups := Groups(candles, g);
    var skipped := |groups| - |rows|;
    GroupsPartition(candles, g);
    GroupKeysAscend(candles, g);
    assert groups[..|groups|] == groups;
    DaysAdd(rows, groups, skipped, baseBefore, g, q);
    RowKeysAscend(rows, groups, skipped, baseBefore, g, q);
    SkippedIsCountBefore(candles, KeyOf(q.from, g), g, skipped);
    if rows != [] {
      RowsEnds(candles, rows, skipped, baseBefore, g, q);
      GrowthChains(rows, groups, skipped, baseBefore, g, q);
    }
  }
}
