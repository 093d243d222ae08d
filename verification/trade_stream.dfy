/** The trade stream as Redis and Postgres keep it: the log with its consumer group, and the
    rows written from it. Pure state, one function per server-side effect, and the invariant
    that every effect keeps.

    Entries are numbered in the order they were added; `Ordered` ties numbers to ids. */
module TradeStream {
  import opened Wrappers
  import opened Tables

  /** A stream id, `<ms>-<seq>`. */
  datatype Id = Id(ms: int, part: nat)

  predicate Before(a: Id, b: Id) {
    a.ms < b.ms || (a.ms == b.ms && a.part < b.part)
  }

  datatype TradeEvent = TradeEvent(tradingPair: string, tradeId: string, price: real, volume: real,
                                   side: string, timestamp: int)

  /** The fields of an entry: a trade, or something `deserialize_trade_event` rejects. */
  datatype Fields = Trade(event: TradeEvent) | Malformed

  datatype Entry = Entry(id: Id, fields: Fields)

  /** A message as XREADGROUP returns it; no fields when the entry is gone from the log. */
  datatype Message = Message(number: nat, id: Id, fields: Option<Fields>)

  /** Who removed an entry, and the clock it went by. */
  datatype Removal = ByCeiling(now: int) | ByGap(now: int)

  datatype Config = Config(ceilingMs: int, gapMs: int, intervalSeconds: int, readCount: int)

  datatype RowKey = RowKey(asset: int, tradeId: string)

  /** The log, its consumer group and the rows.
      - `added`: every entry ever added; the first |removal| of them are gone
      - `next`: number of the first entry never delivered; `pending`: delivered, not acknowledged
      - `written` / `failed` / `truncated`: entries of batches whose write took effect / raised
        without effect, and entries replayed after they had been removed */
  datatype State = State(
    added: seq<Entry>, removal: seq<Removal>, next: nat, pending: seq<nat>, acked: set<nat>,
    rows: map<RowKey, TradeEvent>, written: set<nat>, failed: set<nat>, truncated: set<nat>)

  const START := State([], [], 0, [], {}, map[], {}, {}, {})

  ghost predicate Ordered(added: seq<Entry>) {
    forall i, j :: 0 <= i < j < |added| ==> Before(added[i].id, added[j].id)
  }

  ghost predicate Ascending(s: seq<nat>) {
    forall i, j :: 0 <= i < j < |s| ==> s[i] < s[j]
  }

  // ---------------------------------------------------------------- rows

  /** The row an entry is meant to become, if its pair belongs to a known asset. */
  function Storable(e: Entry, assets: map<string, int>): Option<RowKey> {
    if e.fields.Trade? && e.fields.event.tradingPair in assets
    then Some(RowKey(assets[e.fields.event.tradingPair], e.fields.event.tradeId))
    else None
  }

  ghost function RowKeys(added: seq<Entry>, numbers: set<nat>, assets: map<string, int>): set<RowKey> {
    set n | n in numbers && n < |added| && Storable(added[n], assets).Some? :: Storable(added[n], assets).value
  }

  /** Each row is the trade of some written entry with that key. */
  ghost predicate RowsComeFrom(rows: map<RowKey, TradeEvent>, added: seq<Entry>, numbers: set<nat>,
                               assets: map<string, int>)
  {
    forall k :: k in rows ==> exists n :: n in numbers && n < |added|
                                          && Storable(added[n], assets) == Some(k)
                                          && rows[k] == added[n].fields.event
  }

  // ---------------------------------------------------------------- server-side effects

  function Max(a: int, b: int): int { if a < b then b else a }

  function Min(a: int, b: int): int { if a < b then a else b }

  /** COUNT of XREADGROUP; zero or less means no limit. */
  function Limit(count: int, available: nat): nat {
    if count <= 0 then available else Min(count, available)
  }

  /** May the entries up to `upTo` go under MINID `boundary`? Trimming is approximate: any
      prefix of what is eligible. */
  predicate MayTrim(s: State, boundary: int, upTo: nat) {
    |s.removal| <= upTo <= |s.added|
    && forall i :: |s.removal| <= i < upTo ==> s.added[i].id.ms < boundary
  }

  function Trim(s: State, upTo: nat, removal: Removal): State
    requires |s.removal| <= upTo
  {
    s.(removal := s.removal + seq(upTo - |s.removal|, _ => removal))
  }

  /** An entry the producer adds, by its clock; the server assigns ascending ids. */
  datatype Add = Add(id: Id, fields: Fields, now: int, upTo: nat)

  predicate MayAdd(added: seq<Entry>, a: Add) {
    added == [] || Before(added[|added| - 1].id, a.id)
  }

  /** The producer's XADD with its MINID ceiling. */
  function XAdd(s: State, a: Add, config: Config): State {
    var t := s.(added := s.added + [Entry(a.id, a.fields)]);
    if MayTrim(t, a.now - config.ceilingMs, a.upTo) then Trim(t, a.upTo, ByCeiling(a.now)) else t
  }

  function FirstNew(s: State): nat { Max(s.next, |s.removal|) }

  /** The numbers XREADGROUP `>` hands out. */
  function NewNumbers(s: State, count: int): seq<nat>
    requires |s.removal| <= |s.added| && s.next <= |s.added|
  {
    seq(Limit(count, |s.added| - FirstNew(s)), i requires 0 <= i => FirstNew(s) + i)
  }

  function Deliver(s: State, count: int): State
    requires |s.removal| <= |s.added| && s.next <= |s.added|
  {
    var numbers := NewNumbers(s, count);
    if numbers == [] then s
    else s.(next := FirstNew(s) + |numbers|, pending := s.pending + numbers)
  }

  /** The numbers XREADGROUP `0` hands out again. */
  function ReplayNumbers(s: State, count: int): seq<nat> {
    s.pending[..Limit(count, |s.pending|)]
  }

  function Messages(s: State, numbers: seq<nat>): (r: seq<Message>)
    requires forall n :: n in numbers ==> n < |s.added|
    ensures |r| == |numbers|
    ensures forall i :: 0 <= i < |r| ==> r[i].number == numbers[i]
  {
    seq(|numbers|, i requires 0 <= i < |numbers| =>
      var n := numbers[i];
      assert n in numbers;
      Message(n, s.added[n].id, if n < |s.removal| then None else Some(s.added[n].fields)))
  }

  function Numbers(batch: seq<Message>): (r: seq<nat>)
    ensures |r| == |batch| && forall i :: 0 <= i < |r| ==> r[i] == batch[i].number
  {
    seq(|batch|, i requires 0 <= i < |batch| => batch[i].number)
  }

  function Without(s: seq<nat>, gone: set<nat>): (r: seq<nat>)
    ensures forall n :: n in r <==> n in s && n !in gone
    ensures |r| <= |s|
    ensures (exists n :: n in s && n in gone) ==> |r| < |s|
  {
    if s == [] then []
    else
      assert s == s[..|s| - 1] + [s[|s| - 1]];
      Without(s[..|s| - 1], gone) + if s[|s| - 1] in gone then [] else [s[|s| - 1]]
  }

  /** XACK. */
  function Ack(s: State, numbers: set<nat>): State {
    s.(pending := Without(s.pending, numbers), acked := s.acked + set n | n in s.pending && n in numbers)
  }

  function Truncated(batch: seq<Message>): set<nat> {
    set m | m in batch && m.fields.None? :: m.number
  }

  function Readable(batch: seq<Message>): set<nat> {
    set m | m in batch && m.fields.Some? :: m.number
  }

  /** The trades of a batch: truncated and malformed messages are skipped. */
  function Decoded(batch: seq<Message>): seq<TradeEvent> {
    if batch == [] then []
    else
      var m := batch[|batch| - 1];
      Decoded(batch[..|batch| - 1]) +
      if m.fields.Some? && m.fields.value.Trade? then [m.fields.value.event] else []
  }

  /** The rows prepared for trades; a trade whose pair has no asset is skipped. */
  function Prepared(events: seq<TradeEvent>, assets: map<string, int>): seq<(RowKey, TradeEvent)> {
    if events == [] then []
    else
      var e := events[|events| - 1];
      Prepared(events[..|events| - 1], assets) +
      if e.tradingPair in assets then [(RowKey(assets[e.tradingPair], e.tradeId), e)] else []
  }

  function Snapshots(batch: seq<Message>, assets: map<string, int>): seq<(RowKey, TradeEvent)> {
    Prepared(Decoded(batch), assets)
  }

  /** A write of the batch that took effect in the database. */
  function Write(s: State, batch: seq<Message>, assets: map<string, int>): State {
    s.(rows := InsertIgnore(s.rows, Snapshots(batch, assets)),
       written := s.written + Readable(batch), truncated := s.truncated + Truncated(batch))
  }

  /** A write that raised and left the database as it was. */
  function FailWrite(s: State, batch: seq<Message>): State {
    s.(failed := s.failed + Readable(batch), truncated := s.truncated + Truncated(batch))
  }

  // ---------------------------------------------------------------- the invariant

  ghost predicate Removed(s: State, config: Config, n: nat)
    requires n < |s.removal| <= |s.added|
  {
    match s.removal[n]
    case ByCeiling(now) => s.added[n].id.ms < now - config.ceilingMs
    case ByGap(now) => s.added[n].id.ms < now - config.gapMs && n in s.acked
  }

  ghost predicate LogInv(s: State, config: Config) {
    && Ordered(s.added)
    && |s.removal| <= |s.added| && s.next <= |s.added|
    && forall n :: 0 <= n < |s.removal| ==> Removed(s, config, n)
  }

  ghost predicate GroupInv(s: State) {
    && Ascending(s.pending)
    && (forall n :: n in s.pending ==> n < s.next && n !in s.acked)
    && (forall n :: n in s.acked ==> n < s.next)
    && (forall n :: 0 <= n < s.next && n !in s.acked && n !in s.pending ==>
          n < |s.removal| && s.removal[n].ByCeiling?)
  }

  ghost predicate RowInv(s: State, assets: map<string, int>) {
    && s.rows.Keys == RowKeys(s.added, s.written, assets)
    && RowsComeFrom(s.rows, s.added, s.written, assets)
    && (forall n :: n in s.written ==> n in s.acked || n in s.pending)
    && (forall n :: n in s.acked ==> n in s.written || n in s.failed || n in s.truncated)
    && (forall n :: n in s.truncated ==> n < |s.removal| && s.removal[n].ByCeiling?)
  }

  ghost predicate Inv(s: State, config: Config, assets: map<string, int>) {
    LogInv(s, config) && GroupInv(s) && RowInv(s, assets)
  }

  /** A batch in hand: delivered entries, as the log shows them or showed them when read. */
  ghost predicate InHand(s: State, batch: seq<Message>) {
    forall m :: m in batch ==>
      && m.number in s.pending && m.number < |s.added| && m.id == s.added[m.number].id
      && (m.fields.Some? ==> m.fields.value == s.added[m.number].fields)
      && (m.fields.None? ==> m.number < |s.removal|)
  }

  /** What other processes may do to the state between two steps of the consumer. */
  ghost predicate OnlyProducer(s: State, t: State) {
    && s.added <= t.added && s.removal <= t.removal
    && t == s.(added := t.added, removal := t.removal)
    && forall n :: |s.removal| <= n < |t.removal| ==> t.removal[n].ByCeiling?
  }

  lemma AddKeepsInv(s: State, a: Add, config: Config, assets: map<string, int>)
    requires Inv(s, config, assets) && MayAdd(s.added, a)
    ensures Inv(XAdd(s, a, config), config, assets)
    ensures OnlyProducer(s, XAdd(s, a, config)) && XAdd(s, a, config).added == s.added + [Entry(a.id, a.fields)]
  {
    hide RowKeys, RowsComeFrom;
    var t := XAdd(s, a, config);
    assert Ordered(t.added) by {
      forall i, j | 0 <= i < j < |t.added| ensures Before(t.added[i].id, t.added[j].id) {
        if j == |s.added| && i < |s.added| - 1 {
          assert Before(s.added[i].id, s.added[|s.added| - 1].id);
        }
      }
    }
    forall n | 0 <= n < |t.removal| ensures Removed(t, config, n) {
      if n < |s.removal| {
        assert Removed(s, config, n);
      }
    }
    RowKeysGrow(s.added, t.added, s.written, assets, s);
    RowsStay(s.rows, s.added, t.added, s.written, assets);
  }

  /** Whatever is over the ceiling by the producer's clock may go when an entry is added. */
  lemma CeilingReaches(s: State, a: Add, config: Config)
    requires |s.removal| <= a.upTo <= |s.added|
    requires forall n :: |s.removal| <= n < a.upTo ==> s.added[n].id.ms < a.now - config.ceilingMs
    ensures |XAdd(s, a, config).removal| == a.upTo
  {
    var t := s.(added := s.added + [Entry(a.id, a.fields)]);
    assert forall n :: 0 <= n < |s.added| ==> t.added[n] == s.added[n];
  }

  lemma RowsStay(rows: map<RowKey, TradeEvent>, a: seq<Entry>, b: seq<Entry>, numbers: set<nat>,
                 assets: map<string, int>)
    requires RowsComeFrom(rows, a, numbers, assets) && a <= b
    ensures RowsComeFrom(rows, b, numbers, assets)
  {
    forall k | k in rows
      ensures exists n :: n in numbers && n < |b| && Storable(b[n], assets) == Some(k)
                          && rows[k] == b[n].fields.event
    {
      var n :| n in numbers && n < |a| && Storable(a[n], assets) == Some(k) && rows[k] == a[n].fields.event;
      assert b[n] == a[n];
    }
  }

  lemma RowKeysGrow(a: seq<Entry>, b: seq<Entry>, numbers: set<nat>, assets: map<string, int>, s: State)
    requires a <= b
    requires forall n :: n in numbers ==> n < |a| || n in s.acked || n in s.pending
    requires a == s.added && GroupInv(s) && s.next <= |s.added|
    ensures RowKeys(a, numbers, assets) == RowKeys(b, numbers, assets)
  {
    assert forall n :: n in numbers ==> n < |a| && a[n] == b[n];
  }

  lemma DeliverKeepsInv(s: State, count: int, config: Config, assets: map<string, int>)
    requires Inv(s, config, assets)
    ensures Inv(Deliver(s, count), config, assets)
    ensures forall n :: n in NewNumbers(s, count) ==> n < |s.added|
    ensures InHand(Deliver(s, count), Messages(s, NewNumbers(s, count)))
  {
    var numbers, t := NewNumbers(s, count), Deliver(s, count);
    forall n | n in numbers ensures FirstNew(s) <= n < |s.added| && n in t.pending {
      var i :| 0 <= i < |numbers| && numbers[i] == n;
      assert (s.pending + numbers)[|s.pending| + i] == n;
    }
    forall n | 0 <= n < |t.removal| ensures Removed(t, config, n) {
      assert Removed(s, config, n);
    }
    assert Ascending(t.pending) by {
      forall i | 0 <= i < |s.pending| ensures s.pending[i] < s.next {
        assert s.pending[i] in s.pending;
      }
    }
    assert forall n :: n in t.pending <==> n in s.pending || n in numbers;
    forall n | FirstNew(s) <= n < FirstNew(s) + |numbers| ensures n in numbers {
      assert numbers[n - FirstNew(s)] == n;
    }
    forall n | 0 <= n < t.next && n !in t.acked && n !in t.pending
      ensures n < |s.removal| && s.removal[n].ByCeiling?
    {
      assert n < FirstNew(s) || n in numbers;
      if n >= s.next {
        assert Removed(s, config, n);
      }
    }
  }

  lemma ReplayInHand(s: State, count: int, config: Config, assets: map<string, int>)
    requires Inv(s, config, assets)
    ensures forall n :: n in ReplayNumbers(s, count) ==> n < |s.added| && n in s.pending
    ensures InHand(s, Messages(s, ReplayNumbers(s, count)))
  {
    var numbers := ReplayNumbers(s, count);
    forall n | n in numbers ensures n < |s.added| && n in s.pending {
      var i :| 0 <= i < |numbers| && numbers[i] == n;
      assert s.pending[i] == n && s.pending[i] in s.pending;
    }
  }

  lemma {:induction false} WithoutAscending(s: seq<nat>, gone: set<nat>)
    requires Ascending(s)
    ensures Ascending(Without(s, gone))
  {
    if s != [] {
      var init := s[..|s| - 1];
      WithoutAscending(init, gone);
      var r := Without(init, gone);
      assert forall i :: 0 <= i < |r| ==> r[i] in init;
    }
  }

  /** Acknowledging entries that a write was attempted for. */
  lemma AckKeepsInv(s: State, batch: seq<Message>, config: Config, assets: map<string, int>)
    requires Inv(s, config, assets) && InHand(s, batch)
    requires forall m :: m in batch ==> m.number in s.written || m.number in s.failed || m.number in s.truncated
    ensures Inv(Ack(s, set n | n in Numbers(batch)), config, assets)
    ensures forall m :: m in batch ==> m.number in Ack(s, set n | n in Numbers(batch)).acked
    ensures batch != [] ==> |Ack(s, set n | n in Numbers(batch)).pending| < |s.pending|
  {
    var gone := set n | n in Numbers(batch);
    var t := Ack(s, gone);
    WithoutAscending(s.pending, gone);
    forall m | m in batch ensures m.number in gone {
      var i :| 0 <= i < |batch| && batch[i] == m;
      assert Numbers(batch)[i] == m.number;
    }
    forall n | n in gone ensures exists m :: m in batch && m.number == n {
      var i :| 0 <= i < |batch| && Numbers(batch)[i] == n;
      assert batch[i] in batch;
    }
    forall n | 0 <= n < |t.removal| ensures Removed(t, config, n) {
      assert Removed(s, config, n);
    }
    if batch != [] {
      assert batch[0] in batch;
    }
  }

  lemma {:induction false} SnapshotsOfBatch(s: State, batch: seq<Message>, assets: map<string, int>)
    requires InHand(s, batch)
    ensures forall p :: p in Snapshots(batch, assets) ==>
              exists n :: n in Readable(batch) && n < |s.added| && Storable(s.added[n], assets) == Some(p.0)
                          && p.1 == s.added[n].fields.event
    ensures forall n :: n in Readable(batch) && Storable(s.added[n], assets).Some? ==>
              (Storable(s.added[n], assets).value, s.added[n].fields.event) in Snapshots(batch, assets)
  {
    if batch != [] {
      var init, m := batch[..|batch| - 1], batch[|batch| - 1];
      assert batch == init + [m];
      assert m in batch;
      SnapshotsOfBatch(s, init, assets);
      var events := Decoded(init);
      if m.fields.Some? && m.fields.value.Trade? {
        assert (events + [m.fields.value.event])[..|events|] == events;
      } else {
        assert Decoded(batch) == events;
      }
      assert Readable(batch) == Readable(init) + if m.fields.Some? then {m.number} else {};
    }
  }

  lemma WriteRowKeys(s: State, batch: seq<Message>, assets: map<string, int>)
    requires s.rows.Keys == RowKeys(s.added, s.written, assets) && InHand(s, batch)
    ensures Write(s, batch, assets).rows.Keys == RowKeys(s.added, s.written + Readable(batch), assets)
  {
    hide Storable, Readable, InsertIgnore, Snapshots;
    InsertIgnoreRows(s.rows, Snapshots(batch, assets));
    KeysOfBatch(s, batch, assets);
    RowKeysUnite(s.added, s.written, Readable(batch), assets);
  }

  lemma RowKeysUnite(added: seq<Entry>, a: set<nat>, b: set<nat>, assets: map<string, int>)
    ensures RowKeys(added, a + b, assets) == RowKeys(added, a, assets) + RowKeys(added, b, assets)
  {
  }

  lemma KeysOfBatch(s: State, batch: seq<Message>, assets: map<string, int>)
    requires InHand(s, batch)
    ensures (set p | p in Snapshots(batch, assets) :: p.0) == RowKeys(s.added, Readable(batch), assets)
  {
    hide Readable, Snapshots;
    SnapshotsOfBatch(s, batch, assets);
    var snapshots := Snapshots(batch, assets);
    var keys := set p | p in snapshots :: p.0;
    forall k | k in keys ensures k in RowKeys(s.added, Readable(batch), assets) {
      var p :| p in snapshots && p.0 == k;
    }
    forall k | k in RowKeys(s.added, Readable(batch), assets) ensures k in keys {
      var n :| n in Readable(batch) && n < |s.added| && Storable(s.added[n], assets) == Some(k);
      assert (k, s.added[n].fields.event).0 == k;
    }
  }

  lemma WriteRowValues(s: State, batch: seq<Message>, assets: map<string, int>)
    requires RowsComeFrom(s.rows, s.added, s.written, assets) && InHand(s, batch)
    ensures RowsComeFrom(Write(s, batch, assets).rows, s.added, s.written + Readable(batch), assets)
  {
    var rows, snapshots := Write(s, batch, assets).rows, Snapshots(batch, assets);
    InsertIgnoreRows(s.rows, snapshots);
    SnapshotsOfBatch(s, batch, assets);
    forall k | k in rows
      ensures exists n :: n in s.written + Readable(batch) && n < |s.added|
                          && Storable(s.added[n], assets) == Some(k) && rows[k] == s.added[n].fields.event
    {
      if k in s.rows {
        var n :| n in s.written && n < |s.added| && Storable(s.added[n], assets) == Some(k)
                 && s.rows[k] == s.added[n].fields.event;
        assert n in s.written + Readable(batch);
      } else {
        assert (k, rows[k]) in snapshots;
      }
    }
  }

  lemma WriteKeepsInv(s: State, batch: seq<Message>, config: Config, assets: map<string, int>)
    requires Inv(s, config, assets) && InHand(s, batch)
    ensures Inv(Write(s, batch, assets), config, assets)
    ensures InHand(Write(s, batch, assets), batch)
  {
    var t := Write(s, batch, assets);
    WriteRowKeys(s, batch, assets);
    WriteRowValues(s, batch, assets);
    TruncatedByCeiling(s, batch, config, assets);
    forall n | 0 <= n < |t.removal| ensures Removed(t, config, n) {
      assert Removed(s, config, n);
    }
    forall n | n in t.written ensures n in t.acked || n in t.pending {
      if n !in s.written {
        var m :| m in batch && m.fields.Some? && m.number == n;
      }
    }
  }

  lemma TruncatedByCeiling(s: State, batch: seq<Message>, config: Config, assets: map<string, int>)
    requires Inv(s, config, assets) && InHand(s, batch)
    ensures forall n :: n in Truncated(batch) ==> n < |s.removal| && s.removal[n].ByCeiling?
  {
    forall n | n in Truncated(batch) ensures n < |s.removal| && s.removal[n].ByCeiling? {
      var m :| m in batch && m.fields.None? && m.number == n;
      assert Removed(s, config, n);
    }
  }

  lemma FailWriteKeepsInv(s: State, batch: seq<Message>, config: Config, assets: map<string, int>)
    requires Inv(s, config, assets) && InHand(s, batch)
    ensures Inv(FailWrite(s, batch), config, assets)
    ensures InHand(FailWrite(s, batch), batch)
  {
    var t := FailWrite(s, batch);
    TruncatedByCeiling(s, batch, config, assets);
    forall n | 0 <= n < |t.removal| ensures Removed(t, config, n) {
      assert Removed(s, config, n);
    }
  }

  /** The consumer's own trim. It is safe only because nothing is pending when it runs: every
      entry before the last written one has then been acknowledged. */
  lemma GapTrimKeepsInv(s: State, last: Id, now: int, upTo: nat, config: Config, assets: map<string, int>)
    requires Inv(s, config, assets)
    requires s.pending == []
    requires exists n :: 0 <= n < s.next && s.added[n].id == last
    requires MayTrim(s, Min(last.ms, now - config.gapMs), upTo)
    ensures Inv(Trim(s, upTo, ByGap(now)), config, assets)
    ensures forall n :: |s.removal| <= n < upTo ==> n in s.acked
  {
    var t := Trim(s, upTo, ByGap(now));
    var l :| 0 <= l < s.next && s.added[l].id == last;
    assert forall m :: l < m < |s.added| ==> Before(s.added[l].id, s.added[m].id);
    forall n | |s.removal| <= n < upTo ensures n in s.acked {
      assert s.added[n].id.ms < last.ms;
      assert n < l;
    }
    forall n | 0 <= n < |t.removal| ensures Removed(t, config, n) {
      if n < |s.removal| {
        assert Removed(s, config, n);
      }
    }
  }

  /** With something pending the same trim loses entries, whatever the gap: here one that was
      delivered, is pending and was never written is removed. */
  lemma TrimWithPendingIsUnsafe(config: Config)
    ensures exists s: State, last: Id, now: int, upTo: nat ::
      && Inv(s, config, map[]) && s.pending != []
      && (exists n :: 0 <= n < s.next && s.added[n].id == last)
      && MayTrim(s, Min(last.ms, now - config.gapMs), upTo)
      && !Inv(Trim(s, upTo, ByGap(now)), config, map[])
  {
    var s := State([Entry(Id(1, 0), Malformed), Entry(Id(2, 0), Malformed)], [], 2, [0], {1},
                   map[], {1}, {}, {});
    var now := config.gapMs + 2;
    var t := Trim(s, 1, ByGap(now));
    assert s.added[1].id == Id(2, 0);
    assert RowKeys(s.added, s.written, map[]) == {};
    assert Inv(s, config, map[]);
    assert t.removal[0] == ByGap(now) && !Removed(t, config, 0);
    assert MayTrim(s, Min(2, now - config.gapMs), 1);
  }
}
