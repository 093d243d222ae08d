/** Catching up daily candles of one asset: pages are read first and written as one insert.

    The source only grows: a new candle is later than all before it. Runs may overlap (a run for
    a new asset takes no lock) and may fail at any request or at the insert. */
module DailyCandles {
  import opened Wrappers

  /** A trading day counted from 1970-01-01; the rest of the row does not matter here. */
  datatype Candle = Candle(day: nat, close: int)

  const MAX_KLINES_LIMIT: nat := 1000
  const CANDLES_PAGE_ROWS: nat := 500

  /** `fetched`: rows read but not written yet, as positions in the source. */
  datatype Run = Run(from: nat, until: nat, fetched: Option<(nat, nat)>)

  datatype State = State(source: seq<Candle>, stored: seq<Candle>, runs: seq<Run>)

  datatype Event =
    | Grow(more: seq<Candle>)
    | Begin(until: nat)
    | Fetch(run: nat)
    | Write(run: nat)

  const START := State([], [], [])

  predicate Ascending(source: seq<Candle>) {
    forall i, j :: 0 <= i < j < |source| ==> source[i].day < source[j].day
  }

  /** How many candles of an ascending source are before `day`. */
  function Before(source: seq<Candle>, day: nat): (n: nat)
    ensures n <= |source|
    ensures Ascending(source) ==> forall i :: 0 <= i < |source| ==> (i < n <==> source[i].day < day)
  {
    if source == [] then 0
    else if source[|source| - 1].day < day then |source|
    else Before(source[..|source| - 1], day)
  }

  /** The candles of the days from..until, both included. */
  function InRange(source: seq<Candle>, from: nat, until: nat): seq<Candle> {
    if Before(source, from) <= Before(source, until + 1)
    then source[Before(source, from)..Before(source, until + 1)]
    else []
  }

  lemma InRangeHolds(source: seq<Candle>, from: nat, until: nat, c: Candle)
    requires Ascending(source)
    ensures c in InRange(source, from, until) <==> c in source && from <= c.day <= until
  {
    hide Ascending;
    var a, b := Before(source, from), Before(source, until + 1);
    if c in source && from <= c.day <= until {
      var i :| 0 <= i < |source| && source[i] == c;
      assert a <= i < b;
      assert source[a..b][i - a] == c;
    }
    if c in InRange(source, from, until) {
      var i :| 0 <= i < b - a && source[a..b][i] == c;
      assert source[a + i] == c;
    }
  }

  /** A range holds the candles of its days, in order. */
  lemma InRangeIs(source: seq<Candle>, from: nat, until: nat)
    requires Ascending(source)
    ensures forall c :: c in InRange(source, from, until) <==> c in source && from <= c.day <= until
    ensures Ascending(InRange(source, from, until))
  {
    hide InRange;
    forall c ensures c in InRange(source, from, until) <==> c in source && from <= c.day <= until {
      InRangeHolds(source, from, until, c);
    }
    RangeAscends(source, from, until);
  }

  lemma RangeAscends(source: seq<Candle>, from: nat, until: nat)
    requires Ascending(source)
    ensures Ascending(InRange(source, from, until))
  {
  }

  /** The day of the latest row, in whatever order the rows are. */
  function LastDay(rows: seq<Candle>): Option<nat> {
    if rows == [] then None
    else
      var last, before := rows[|rows| - 1].day, LastDay(rows[..|rows| - 1]);
      if before.None? || before.value < last then Some(last) else before
  }

  lemma NoLastDay(rows: seq<Candle>)
    ensures LastDay(rows) == None <==> rows == []
  {
  }

  predicate HasDay(rows: seq<Candle>, day: nat) {
    exists i :: 0 <= i < |rows| && rows[i].day == day
  }

  /** A bulk insert that ignores rows of days the table has; the order of the rows is kept, to show
      that the table grows at its end. */
  function AppendMissing(stored: seq<Candle>, rows: seq<Candle>): seq<Candle> {
    if rows == [] then stored
    else
      var before, c := AppendMissing(stored, rows[..|rows| - 1]), rows[|rows| - 1];
      if HasDay(before, c.day) then before else before + [c]
  }

  predicate IsUpToDate(last: Option<nat>, until: nat) {
    last.Some? && last.value >= until
  }

  function FirstMissing(stored: seq<Candle>): nat {
    var last := LastDay(stored);
    if last.Some? then last.value + 1 else 0
  }

  /** What does not apply changes nothing. */
  function Step(s: State, e: Event): State
    requires RunsOk(s)
  {
    match e
    case Grow(more) => if Ascending(s.source + more) then s.(source := s.source + more) else s
    case Begin(until) =>
      if IsUpToDate(LastDay(s.stored), until) then s
      else s.(runs := s.runs + [Run(FirstMissing(s.stored), until, None)])
    case Fetch(r) =>
      if r < |s.runs| then
        var run := s.runs[r];
        s.(runs := s.runs[r := run.(fetched := Some(Positions(s.source, run.from, run.until)))])
      else s
    case Write(r) =>
      if r < |s.runs| && s.runs[r].fetched.Some? then
        var (lo, hi) := s.runs[r].fetched.value;
        s.(stored := AppendMissing(s.stored, s.source[lo..hi]), runs := s.runs[r := s.runs[r].(fetched := None)])
      else s
  }

  function Positions(source: seq<Candle>, from: nat, until: nat): (p: (nat, nat))
    ensures p.0 <= p.1 <= |source| && source[p.0..p.1] == InRange(source, from, until)
  {
    var lo, hi := Before(source, from), Before(source, until + 1);
    if lo <= hi then (lo, hi) else (0, 0)
  }

  // ---------------------------------------------------------------- the invariant

  /** No candle that comes later can be before `day`. */
  predicate Settled(source: seq<Candle>, day: nat) {
    day == 0 || (source != [] && day <= source[|source| - 1].day + 1)
  }

  /** A run starts behind stored days only, and what it fetched starts there too. */
  predicate RunOk(s: State, run: Run) {
    && Settled(s.source, run.from) && Before(s.source, run.from) <= |s.stored|
    && (run.fetched.Some? ==> run.fetched.value.0 <= run.fetched.value.1 <= |s.source|
                              && run.fetched.value.0 <= |s.stored|)
  }

  predicate RunsOk(s: State) {
    forall r :: 0 <= r < |s.runs| ==> RunOk(s, s.runs[r])
  }

  /** The table is the beginning of the source, row by row. */
  predicate Inv(s: State) {
    Ascending(s.source) && s.stored <= s.source && RunsOk(s)
  }

  lemma {:induction false} LastDayIsLast(rows: seq<Candle>)
    requires Ascending(rows)
    ensures LastDay(rows) == if rows == [] then None else Some(rows[|rows| - 1].day)
  {
    if rows != [] {
      LastDayIsLast(rows[..|rows| - 1]);
    }
  }

  /** Inserting a stretch that starts inside the table extends the table to its end. */
  lemma {:induction false} InsertStretch(source: seq<Candle>, n: nat, lo: nat, hi: nat)
    requires Ascending(source) && n <= |source| && lo <= n && lo <= hi <= |source|
    ensures AppendMissing(source[..n], source[lo..hi]) == source[..if n < hi then hi else n]
  {
    if lo < hi {
      var rows := source[lo..hi];
      assert rows[..|rows| - 1] == source[lo..hi - 1];
      InsertStretch(source, n, lo, hi - 1);
      var m := if n < hi - 1 then hi - 1 else n;
      if n < hi {
        forall i | 0 <= i < m ensures source[..m][i].day != source[hi - 1].day {
        }
        assert source[..hi] == source[..m] + [source[hi - 1]];
      } else {
        assert source[..m][hi - 1].day == source[hi - 1].day;
      }
    }
  }

  lemma BeforeStands(source: seq<Candle>, source': seq<Candle>, day: nat)
    requires source <= source' && Ascending(source') && Settled(source, day)
    ensures Before(source', day) == Before(source, day) && Settled(source', day)
  {
    assert Ascending(source);
    var n := Before(source, day);
    if n < |source| {
      assert source'[n] == source[n];
    }
    if n > 0 {
      assert source'[n - 1] == source[n - 1];
    }
    if source != [] {
      assert source'[|source| - 1] == source[|source| - 1];
    }
  }

  /** Every interleaving of every run keeps the invariant. */
  lemma StepKeepsInv(s: State, e: Event)
    requires Inv(s)
    ensures Inv(Step(s, e))
  {
    match e
    case Grow(more) => GrowKeepsInv(s, more);
    case Begin(until) => FirstMissingFollows(s);
    case Fetch(r) =>
    case Write(r) => WriteKeepsInv(s, r);
  }

  lemma GrowKeepsInv(s: State, more: seq<Candle>)
    requires Inv(s)
    ensures Inv(Step(s, Grow(more)))
  {
    hide Before;
    if Ascending(s.source + more) {
      forall r | 0 <= r < |s.runs| ensures RunOk(Step(s, Grow(more)), s.runs[r]) {
        BeforeStands(s.source, s.source + more, s.runs[r].from);
      }
    }
  }

  lemma WriteKeepsInv(s: State, r: nat)
    requires Inv(s)
    ensures Inv(Step(s, Write(r)))
  {
    hide AppendMissing, Settled, Before;
    if r < |s.runs| && s.runs[r].fetched.Some? {
      var (lo, hi) := s.runs[r].fetched.value;
      assert s.stored == s.source[..|s.stored|];
      InsertStretch(s.source, |s.stored|, lo, hi);
    }
  }

  lemma FirstMissingFollows(s: State)
    requires Ascending(s.source) && s.stored <= s.source
    ensures Settled(s.source, FirstMissing(s.stored))
    ensures Before(s.source, FirstMissing(s.stored)) == |s.stored|
  {
    LastDayIsLast(s.stored);
    var n := |s.stored|;
    if n > 0 {
      assert s.stored[n - 1] == s.source[n - 1];
    }
    assert n < |s.source| ==> s.source[n].day >= FirstMissing(s.stored);
  }

  function After(events: seq<Event>): (s: State)
    ensures Inv(s)
  {
    if events == [] then START
    else
      var s := After(events[..|events| - 1]);
      StepKeepsInv(s, events[|events| - 1]);
      Step(s, events[|events| - 1])
  }

  /** Whatever runs overlapped or failed: the rows are exactly the source's candles up to the
      latest stored day, each once and as the source has it. */
  lemma CompletePrefix(events: seq<Event>, c: Candle)
    ensures
      var s := After(events);
      && (c in s.stored <==> c in s.source && LastDay(s.stored).Some? && c.day <= LastDay(s.stored).value)
      && (forall i, j :: 0 <= i < j < |s.stored| ==> s.stored[i].day != s.stored[j].day)
  {
    var s := After(events);
    assert s.stored == s.source[..|s.stored|];
    LastDayIsLast(s.stored);
    if c in s.stored {
      var i :| 0 <= i < |s.stored| && s.stored[i] == c;
      assert i < |s.stored| - 1 ==> s.stored[i].day < s.stored[|s.stored| - 1].day;
    }
    if c in s.source {
      var i :| 0 <= i < |s.source| && s.source[i] == c;
      assert i < |s.stored| ==> s.stored[i] == c;
      assert s.stored != [] ==> s.stored[|s.stored| - 1] == s.source[|s.stored| - 1];
    }
  }

  /** A run that gets through leaves nothing out up to the day it was asked for. */
  lemma FetchAndWriteCatchUp(s: State, r: nat)
    requires Inv(s) && r < |s.runs|
    ensures
      var s' := Step(Step(s, Fetch(r)), Write(r));
      s'.source == s.source && |s'.stored| >= Before(s.source, s.runs[r].until + 1)
  {
    var (lo, hi) := Positions(s.source, s.runs[r].from, s.runs[r].until);
    StepKeepsInv(s, Fetch(r));
    assert s.stored == s.source[..|s.stored|];
    InsertStretch(s.source, |s.stored|, lo, hi);
  }

  // ---------------------------------------------------------------- the runs

  /** One wait: what other runs and the source did meanwhile, and whether the call succeeded; an insert
      without an answer may have been `applied`. */
  datatype Tick = Tick(others: seq<Event>, ok: bool, applied: bool)

  predicate AllOk(tape: seq<Tick>) {
    forall t :: t in tape ==> t.ok
  }

  /** At most k ticks were taken; if all were to succeed, so are those left. */
  predicate Passed(before: seq<Tick>, after: seq<Tick>, k: nat) {
    |after| <= |before| <= |after| + k && (AllOk(before) ==> AllOk(after))
  }

  /** What others do: a run's own steps are left to it. */
  function OfOthers(events: seq<Event>, me: nat): seq<Event> {
    if events == [] then []
    else
      var last := events[|events| - 1];
      OfOthers(events[..|events| - 1], me) + if Of(last, me) then [] else [last]
  }

  predicate Of(e: Event, me: nat) {
    match e
    case Fetch(r) => r == me
    case Write(r) => r == me
    case _ => false
  }

  ghost predicate Later(s: State, s': State, me: nat) {
    && Inv(s') && s.source <= s'.source && s.stored <= s'.stored
    && me < |s.runs| <= |s'.runs| && s'.runs[me] == s.runs[me]
  }

  lemma StoredGrows(s: State, e: Event)
    requires Inv(s)
    ensures s.stored <= Step(s, e).stored && s.source <= Step(s, e).source
  {
    if e.Write? && e.run < |s.runs| && s.runs[e.run].fetched.Some? {
      var (lo, hi) := s.runs[e.run].fetched.value;
      assert s.stored == s.source[..|s.stored|];
      InsertStretch(s.source, |s.stored|, lo, hi);
    }
  }

  lemma OthersLeaveMe(s: State, e: Event, me: nat)
    requires Inv(s) && me < |s.runs| && !Of(e, me)
    ensures Later(s, Step(s, e), me)
  {
    hide Inv;
    StepKeepsInv(s, e);
    StoredGrows(s, e);
  }

  /** The first rows of the asked-for range, as one response. */
  function FirstRows(rows: seq<Candle>, limit: nat): seq<Candle> {
    if |rows| <= limit then rows else rows[..limit]
  }

  class World {
    var state: State
    var tape: seq<Tick>
    ghost var history: seq<Event>

    ghost predicate Valid()
      reads this
    {
      state == After(history)
    }

    constructor (tape: seq<Tick>)
      ensures Valid() && state == START && this.tape == tape
    {
      this.state, this.tape, history := START, tape, [];
    }

    method Act(e: Event)
      requires Valid()
      modifies this`state, this`history
      ensures Valid() && Inv(old(state)) && state == Step(old(state), e) && history == old(history) + [e]
    {
      hide Ascending, RunOk;
      state := Step(state, e);
      history := history + [e];
      assert history[..|history| - 1] == old(history);
    }

    method Await(me: nat) returns (ok: bool, applied: bool)
      requires Valid() && me < |state.runs|
      modifies this
      ensures Valid() && Later(old(state), state, me) && Inv(old(state))
      ensures if old(tape) == [] then !ok && !applied
              else ok == old(tape)[0].ok && applied == (old(tape)[0].ok || old(tape)[0].applied)
      ensures tape == if old(tape) == [] then [] else old(tape)[1..]
      ensures history == old(history) + if old(tape) == [] then [] else OfOthers(old(tape)[0].others, me)
      ensures Passed(old(tape), tape, 1) && (AllOk(old(tape)) ==> ok || tape == [])
    {
      hide Inv, After;
      if tape == [] {
        return false, false;
      }
      var tick := tape[0];
      assert tick in tape;
      tape := tape[1..];
      for i := 0 to |tick.others|
        invariant Valid() && Later(old(state), state, me) && tape == old(tape)[1..]
        invariant history == old(history) + OfOthers(tick.others[..i], me)
      {
        assert tick.others[..i + 1][..i] == tick.others[..i];
        if !Of(tick.others[i], me) {
          OthersLeaveMe(state, tick.others[i], me);
          Act(tick.others[i]);
        }
      }
      assert tick.others[..|tick.others|] == tick.others;
      ok, applied := tick.ok, tick.ok || tick.applied;
    }

    /** One page of candles: at most `limit` rows of the range, from row `index` of it. */
    method GetCandles(me: nat, from: nat, until: nat, index: nat, limit: nat) returns (rows: Option<seq<Candle>>)
      requires Valid() && me < |state.runs|
      modifies this
      ensures Valid() && Later(old(state), state, me) && Inv(old(state))
      ensures rows.Some? ==>
                var all := InRange(state.source, from, until);
                rows.value == FirstRows(if index <= |all| then all[index..] else [], limit)
      ensures old(history) <= history
      ensures rows.Some? <==> old(tape) != [] && old(tape)[0].ok
      ensures Passed(old(tape), tape, 1) && (AllOk(old(tape)) ==> rows.Some? || tape == [])
    {
      hide Inv;
      var ok, _ := Await(me);
      if !ok {
        return None;
      }
      var all := InRange(state.source, from, until);
      rows := Some(FirstRows(if index <= |all| then all[index..] else [], limit));
    }

    /** Crypto: every page starts on the day after the last row. The result is exactly the range,
        as the source has it when the last page is read. */
    method FetchByDate(me: nat, from: nat, until: nat) returns (rows: Option<seq<Candle>>)
      requires Valid() && me < |state.runs| && from <= until && Settled(state.source, from)
      modifies this
      ensures Valid() && Later(old(state), state, me) && old(history) <= history
      ensures rows.Some? ==> rows.value == InRange(state.source, from, until)
      ensures Passed(old(tape), tape, until + 1 - from) && (AllOk(old(tape)) ==> rows.Some? || tape == [])
    {
      hide Inv, Settled, InRange, Step, AllOk;
      var all, cursor := [], from;
      ghost var begun, before := state, state;
      StartOfRange(state, from, me);
      while true
        invariant Valid() && old(history) <= history && Later(begun, state, me) && from <= cursor <= until
        invariant Gathered(state.source, from, cursor, all) && Passed(old(tape), tape, cursor - from)
        decreases until - cursor
      {
        before := state;
        var batch := GetCandles(me, cursor, until, 0, MAX_KLINES_LIMIT);
        LaterTwice(begun, before, state, me);
        if batch.None? {
          return None;
        }
        GatheredStands(before, state, from, cursor, all, me);
        NextDays(state, from, cursor, until, all, batch.value);
        if batch.value == [] {
          return Some(all);
        }
        all := all + batch.value;
        if |batch.value| < MAX_KLINES_LIMIT {
          return Some(all);
        }
        cursor := batch.value[|batch.value| - 1].day + 1;
        if cursor > until {
          return Some(all);
        }
      }
    }

    /** Stock: every page starts behind the rows already read. Rows of the range that appear while
        it is being read come last, so nothing is skipped or read twice. */
    method FetchByOffset(me: nat, from: nat, until: nat) returns (rows: Option<seq<Candle>>)
      requires Valid() && me < |state.runs| && Settled(state.source, from)
      modifies this
      ensures Valid() && Later(old(state), state, me) && old(history) <= history
      ensures rows.Some? ==> rows.value == InRange(state.source, from, until)
      ensures Passed(old(tape), tape, until + 2) && (AllOk(old(tape)) ==> rows.Some? || tape == [])
    {
      hide Inv, Settled, InRange, Step, AllOk;
      var all, startIndex := [], 0;
      ghost var begun, before := state, state;
      StartOfRange(state, from, me);
      ReadNothing(state.source, from, until);
      while true
        invariant Valid() && old(history) <= history && Later(begun, state, me) && Settled(state.source, from)
        invariant Read(state.source, from, until, all) && startIndex == |all| && Passed(old(tape), tape, |all|)
        invariant until < from ==> all == []
        decreases if until < from then 0 else until + 1 - from - startIndex
      {
        before := state;
        var batch := GetCandles(me, from, until, startIndex, CANDLES_PAGE_ROWS);
        LaterTwice(begun, before, state, me);
        if batch.None? {
          return None;
        }
        ReadStands(before, state, from, until, all, me);
        NextRows(state.source, from, until, all, batch.value);
        if batch.value == [] {
          return Some(all);
        }
        all := all + batch.value;
        if |batch.value| < CANDLES_PAGE_ROWS {
          return Some(all);
        }
        startIndex := startIndex + |batch.value|;
      }
    }

    /** The insert of what was fetched: all of it or nothing, and possibly all of it when it fails. */
    method WriteCandles(me: nat, rows: seq<Candle>, until: nat) returns (ok: bool, ghost seen: nat)
      requires Valid() && me < |state.runs| && state.runs[me].until == until
      requires rows == InRange(state.source, state.runs[me].from, until)
      modifies this
      ensures Valid() && old(state.source) <= state.source && old(state.stored) <= state.stored
      ensures seen == |old(state.source)| <= |state.source| && old(history) <= history
      ensures ok <==> rows == [] || (old(tape) != [] && old(tape)[0].ok)
      ensures Passed(old(tape), tape, 1) && (AllOk(old(tape)) ==> ok || tape == [])
      ensures ok ==> forall i :: 0 <= i < seen && state.source[i].day <= until ==> i < |state.stored|
    {
      hide Inv, InRange, Ascending, RunsOk, RunOk, AllOk, After, OfOthers;
      seen := |state.source|;
      ghost var read := state;
      FetchedLeaves(state, me);
      if rows == [] {
        NothingToWrite(state, me);
        return true, seen;
      }
      Act(Fetch(me));
      var applied;
      ok, applied := Await(me);
      if applied {
        ghost var before := state;
        StoredGrows(state, Write(me));
        Act(Write(me));
        WrittenUpTo(read, before, me);
      }
    }

    /** Catches up a crypto asset, starting at the day after its latest row, or at the epoch. */
    method CatchUpCrypto(until: nat) returns (ok: bool, written: nat, upToDate: bool, ghost seen: nat)
      requires Valid()
      modifies this
      ensures Valid() && old(state.source) <= state.source && old(state.stored) <= state.stored
      ensures |old(state.source)| <= seen <= |state.source|
      ensures if upToDate then history == old(history) else old(history) + [Begin(until)] <= history
      ensures upToDate == IsUpToDate(old(LastDay(state.stored)), until) && (upToDate ==> ok && written == 0)
      ensures ok && !upToDate ==>
                written == |InRange(state.source[..seen], FirstMissing(old(state.stored)), until)|
      ensures Passed(old(tape), tape, until + 4)
      ensures AllOk(old(tape)) && |old(tape)| > until + 4 ==> ok
      ensures ok ==> forall i :: 0 <= i < seen && state.source[i].day <= until ==> i < |state.stored|
    {
      hide Inv, Ascending, InRange, RunsOk, Settled, LastDay, AllOk, After, OfOthers;
      seen := |state.source|;
      if IsUpToDate(LastDay(state.stored), until) {
        UpToDateHasAll(state, until);
        return true, 0, true, seen;
      }
      var from := FirstMissing(state.stored);
      BeginsAt(state, until);
      Act(Begin(until));
      var me := |state.runs| - 1;
      var rows := FetchByDate(me, from, until);
      seen := |state.source|;
      if rows.None? {
        return false, 0, false, seen;
      }
      ghost var read := state.source;
      ok, seen := WriteCandles(me, rows.value, until);
      assert state.source[..seen] == read;
      written, upToDate := |rows.value|, false;
    }

    /** Catches up a stock; with no rows yet it asks where the source begins. */
    method CatchUpStock(until: nat) returns (ok: bool, written: nat, upToDate: bool, ghost seen: nat)
      requires Valid()
      modifies this
      ensures Valid() && old(state.source) <= state.source && old(state.stored) <= state.stored
      ensures |old(state.source)| <= seen <= |state.source|
      ensures if upToDate then history == old(history) else old(history) + [Begin(until)] <= history
      ensures upToDate == IsUpToDate(old(LastDay(state.stored)), until) && (upToDate ==> ok && written == 0)
      ensures ok && !upToDate ==>
                written == |InRange(state.source[..seen], FirstMissing(old(state.stored)), until)|
      ensures Passed(old(tape), tape, until + 4)
      ensures AllOk(old(tape)) && |old(tape)| > until + 4 ==> ok || (old(state.stored) == [] && state.source == [])
      ensures ok ==> forall i :: 0 <= i < seen && state.source[i].day <= until ==> i < |state.stored|
    {
      hide Inv, Ascending, InRange, RunsOk, Settled, LastDay, AllOk, After, OfOthers;
      seen := |state.source|;
      var last := LastDay(state.stored);
      if IsUpToDate(last, until) {
        UpToDateHasAll(state, until);
        return true, 0, true, seen;
      }
      var from := FirstMissing(state.stored);
      BeginsAt(state, until);
      Act(Begin(until));
      var me := |state.runs| - 1;
      if last.None? {
        NoLastDay(state.stored);
        var answered, _ := Await(me);
        seen := |state.source|;
        if !answered || state.source == [] {
          return false, 0, false, seen;
        }
        from := state.source[0].day;
        FirstIsSettled(state);
      }
      ghost var asked := state;
      var rows := FetchByOffset(me, from, until);
      seen := |state.source|;
      if rows.None? {
        return false, 0, false, seen;
      }
      StartsAsWell(asked, state, me, from, until);
      ghost var read := state.source;
      ok, seen := WriteCandles(me, rows.value, until);
      assert state.source[..seen] == read;
      written, upToDate := |rows.value|, false;
    }
  }

  /** `rows` are the first rows of the range. */
  ghost predicate Read(source: seq<Candle>, from: nat, until: nat, rows: seq<Candle>) {
    Ascending(source) && rows <= InRange(source, from, until) && (from <= until ==> |rows| <= until + 1 - from)
  }

  lemma ReadNothing(source: seq<Candle>, from: nat, until: nat)
    requires Ascending(source)
    ensures Read(source, from, until, [])
  {
  }

  lemma ReadStands(s: State, s': State, from: nat, until: nat, rows: seq<Candle>, me: nat)
    requires Read(s.source, from, until, rows) && Settled(s.source, from) && Later(s, s', me)
    ensures Read(s'.source, from, until, rows) && Settled(s'.source, from)
  {
    BeforeStands(s.source, s'.source, from);
    var a, c, c' := Before(s.source, from), Before(s.source, until + 1), Before(s'.source, until + 1);
    if a <= c {
      if c > 0 {
        assert s'.source[c - 1] == s.source[c - 1];
      }
      assert c <= c';
      assert s.source[a..c] == s'.source[a..c];
    }
  }

  /** Ascending days from..until are at most as many as the days. */
  lemma {:induction false} AtMostOneADay(source: seq<Candle>, a: nat, c: nat)
    requires Ascending(source) && a < c <= |source|
    ensures c - a <= source[c - 1].day - source[a].day + 1
  {
    if a < c - 1 {
      AtMostOneADay(source, a, c - 1);
    }
  }

  lemma NextRows(source: seq<Candle>, from: nat, until: nat, rows: seq<Candle>, batch: seq<Candle>)
    requires Read(source, from, until, rows)
    requires batch == FirstRows(InRange(source, from, until)[|rows|..], CANDLES_PAGE_ROWS)
    ensures Read(source, from, until, rows + batch)
    ensures |batch| < CANDLES_PAGE_ROWS ==> rows + batch == InRange(source, from, until)
    ensures until < from ==> batch == []
    ensures batch == [] ==> rows == InRange(source, from, until)
  {
    var all := InRange(source, from, until);
    var a, c := Before(source, from), Before(source, until + 1);
    assert rows + all[|rows|..] == all;
    assert rows + batch == all[..|rows + batch|];
    if a < c {
      assert source[a].day >= from && source[c - 1].day < until + 1;
      AtMostOneADay(source, a, c);
    }
  }

  lemma FetchedLeaves(s: State, me: nat)
    requires Inv(s) && me < |s.runs|
    ensures
      var s' := Step(s, Fetch(me));
      var run := s.runs[me];
      && Inv(s') && s'.source == s.source && s'.stored == s.stored && |s'.runs| == |s.runs|
      && s'.runs[me] == run.(fetched := Some(Positions(s.source, run.from, run.until)))
  {
    StepKeepsInv(s, Fetch(me));
  }

  lemma NothingToWrite(s: State, me: nat)
    requires Inv(s) && me < |s.runs| && InRange(s.source, s.runs[me].from, s.runs[me].until) == []
    ensures forall i :: 0 <= i < |s.source| && s.source[i].day <= s.runs[me].until ==> i < |s.stored|
  {
    var run := s.runs[me];
    assert RunOk(s, run);
    var a, c := Before(s.source, run.from), Before(s.source, run.until + 1);
    assert a <= c ==> |s.source[a..c]| == c - a;
  }

  lemma WrittenUpTo(read: State, s: State, me: nat)
    requires Inv(read) && Inv(s) && read.source <= s.source && read.stored <= s.stored
    requires me < |s.runs| && me < |read.runs|
    requires
      var run := read.runs[me];
      s.runs[me].fetched == Some(Positions(read.source, run.from, run.until))
    ensures
      var s' := Step(s, Write(me));
      && s'.source == s.source
      && forall i :: 0 <= i < |read.source| && s.source[i].day <= read.runs[me].until ==> i < |s'.stored|
  {
    hide Settled, Positions;
    var run := read.runs[me];
    var (lo, hi) := s.runs[me].fetched.value;
    FetchedEnds(read, s, me);
    assert RunOk(s, s.runs[me]);
    assert s.stored == s.source[..|s.stored|];
    InsertStretch(s.source, |s.stored|, lo, hi);
  }

  lemma FetchedEnds(read: State, s: State, me: nat)
    requires Inv(read) && Inv(s) && read.source <= s.source && read.stored <= s.stored
    requires me < |s.runs| && me < |read.runs|
    requires
      var run := read.runs[me];
      s.runs[me].fetched == Some(Positions(read.source, run.from, run.until))
    ensures
      var hi := s.runs[me].fetched.value.1;
      forall i :: 0 <= i < |read.source| && s.source[i].day <= read.runs[me].until ==> i < hi || i < |s.stored|
  {
    hide AppendMissing;
    var run := read.runs[me];
    assert RunOk(read, run) && RunOk(s, s.runs[me]);
    var a, c := Before(read.source, run.from), Before(read.source, run.until + 1);
    forall i | 0 <= i < |read.source| && s.source[i].day <= run.until
      ensures i < s.runs[me].fetched.value.1 || i < |s.stored|
    {
      assert read.source[i] == s.source[i];
      assert i < c;
    }
  }

  lemma UpToDateHasAll(s: State, until: nat)
    requires Inv(s) && IsUpToDate(LastDay(s.stored), until)
    ensures forall i :: 0 <= i < |s.source| && s.source[i].day <= until ==> i < |s.stored|
  {
    LastDayIsLast(s.stored);
    var n := |s.stored|;
    assert s.stored[n - 1] == s.source[n - 1];
  }

  lemma BeginsAt(s: State, until: nat)
    requires Inv(s) && !IsUpToDate(LastDay(s.stored), until)
    ensures
      var s' := Step(s, Begin(until));
      && FirstMissing(s.stored) <= until && Settled(s.source, FirstMissing(s.stored))
      && s'.source == s.source && s'.stored == s.stored
      && s'.runs == s.runs + [Run(FirstMissing(s.stored), until, None)]
  {
    FirstMissingFollows(s);
  }

  lemma FirstIsSettled(s: State)
    requires Inv(s) && s.source != []
    ensures Settled(s.source, s.source[0].day)
  {
    var n := |s.source| - 1;
    assert n > 0 ==> s.source[0].day < s.source[n].day;
  }

  /** Asking from the first candle on is asking from the beginning. */
  lemma StartsAsWell(s: State, s': State, me: nat, from: nat, until: nat)
    requires Later(s, s', me)
    requires from == s.runs[me].from || (s.runs[me].from == 0 && s.source != [] && from == s.source[0].day)
    ensures InRange(s'.source, from, until) == InRange(s'.source, s.runs[me].from, until)
  {
    if from != s.runs[me].from {
      assert Before(s'.source, from) == 0 == Before(s'.source, 0);
    }
  }

  lemma LaterTwice(s: State, s1: State, s2: State, me: nat)
    requires Later(s, s1, me) && Later(s1, s2, me)
    ensures Later(s, s2, me)
  {
  }

  /** `rows` are the candles from `from` to before `cursor`, and no more can come. */
  ghost predicate Gathered(source: seq<Candle>, from: nat, cursor: nat, rows: seq<Candle>) {
    && Ascending(source) && Settled(source, from) && Settled(source, cursor)
    && Before(source, from) <= Before(source, cursor) && rows == source[Before(source, from)..Before(source, cursor)]
  }

  lemma StartOfRange(s: State, from: nat, me: nat)
    requires Inv(s) && Settled(s.source, from) && me < |s.runs|
    ensures Gathered(s.source, from, from, []) && Later(s, s, me)
  {
  }

  lemma GatheredStands(s: State, s': State, from: nat, cursor: nat, rows: seq<Candle>, me: nat)
    requires Gathered(s.source, from, cursor, rows) && Later(s, s', me)
    ensures Gathered(s'.source, from, cursor, rows)
  {
    BeforeStands(s.source, s'.source, from);
    BeforeStands(s.source, s'.source, cursor);
  }

  lemma DayAfter(source: seq<Candle>, k: nat)
    requires Ascending(source) && k < |source|
    ensures Before(source, source[k].day + 1) == k + 1 && Settled(source, source[k].day + 1)
  {
    assert k + 1 < |source| ==> source[k].day < source[k + 1].day;
    assert k < |source| - 1 ==> source[k].day < source[|source| - 1].day;
  }

  /** A short page ends the range; a full one moves the cursor past its last day. */
  lemma NextDays(s: State, from: nat, cursor: nat, until: nat, rows: seq<Candle>, batch: seq<Candle>)
    requires Gathered(s.source, from, cursor, rows) && cursor <= until
    requires batch == FirstRows(InRange(s.source, cursor, until), MAX_KLINES_LIMIT)
    ensures |batch| < MAX_KLINES_LIMIT ==> rows + batch == InRange(s.source, from, until)
    ensures batch == [] ==> rows == InRange(s.source, from, until)
    ensures |batch| >= MAX_KLINES_LIMIT ==>
              var next := batch[|batch| - 1].day + 1;
              && cursor < next <= until + 1 && Gathered(s.source, from, next, rows + batch)
              && (next > until ==> rows + batch == InRange(s.source, from, until))
  {
    hide Ascending, Settled, FirstRows, Before;
    BeforeMonotone(s.source, cursor, until + 1);
    if |batch| < MAX_KLINES_LIMIT {
      ShortPage(s.source, from, cursor, until, rows, batch);
    } else {
      FullPage(s.source, cursor, until, batch);
      var last := Before(s.source, cursor) + MAX_KLINES_LIMIT - 1;
      DayAfter(s.source, last);
      var a := Before(s.source, from);
      assert rows + batch == s.source[a..last + 1];
    }
  }

  lemma BeforeMonotone(source: seq<Candle>, a: nat, b: nat)
    requires Ascending(source) && a <= b
    ensures Before(source, a) <= Before(source, b)
  {
    var n := Before(source, a);
    if n > 0 {
      assert source[n - 1].day < a;
    }
  }

  lemma ShortPage(source: seq<Candle>, from: nat, cursor: nat, until: nat, rows: seq<Candle>, batch: seq<Candle>)
    requires Gathered(source, from, cursor, rows) && Before(source, cursor) <= Before(source, until + 1)
    requires batch == FirstRows(InRange(source, cursor, until), MAX_KLINES_LIMIT) && |batch| < MAX_KLINES_LIMIT
    ensures rows + batch == InRange(source, from, until)
  {
    hide Ascending, Settled, Before;
    var a, b, c := Before(source, from), Before(source, cursor), Before(source, until + 1);
    assert source[a..b] + source[b..c] == source[a..c];
  }

  lemma FullPage(source: seq<Candle>, cursor: nat, until: nat, batch: seq<Candle>)
    requires Ascending(source) && Before(source, cursor) <= Before(source, until + 1)
    requires batch == FirstRows(InRange(source, cursor, until), MAX_KLINES_LIMIT) && |batch| >= MAX_KLINES_LIMIT
    ensures
      var b := Before(source, cursor);
      var last := b + MAX_KLINES_LIMIT - 1;
      && last < Before(source, until + 1) && batch == source[b..last + 1] && batch[|batch| - 1] == source[last]
      && cursor <= source[last].day <= until
      && (source[last].day == until ==> Before(source, until + 1) == last + 1)
  {
    var b, c := Before(source, cursor), Before(source, until + 1);
    var last := b + MAX_KLINES_LIMIT - 1;
    assert batch == source[b..c][..MAX_KLINES_LIMIT];
    if last + 1 < c {
      assert source[last].day < source[last + 1].day;
    }
  }

  /** Catch-ups one after another, each tried in its turn, of a crypto asset or a stock, among any others: the rows are
      the source's candles up to the latest stored day, each once. */
  method AfterAnyRuns(tape: seq<Tick>, untils: seq<nat>, crypto: bool)
    returns (source: seq<Candle>, stored: seq<Candle>, ghost history: seq<Event>)
    ensures source == After(history).source && stored == After(history).stored
    ensures forall i :: 0 <= i < |untils| ==> Attempted(history, untils[i])
    ensures forall c :: c in stored <==> c in source && LastDay(stored).Some? && c.day <= LastDay(stored).value
    ensures forall i, j :: 0 <= i < j < |stored| ==> stored[i].day != stored[j].day
  {
    hide After, LastDay, Attempted;
    var w := new World(tape);
    for i := 0 to |untils|
      invariant fresh(w) && w.Valid() && forall j :: 0 <= j < i ==> Attempted(w.history, untils[j])
    {
      var ok, written, upToDate;
      ghost var seen;
      ghost var before := w.history;
      if crypto {
        ok, written, upToDate, seen := w.CatchUpCrypto(untils[i]);
      } else {
        ok, written, upToDate, seen := w.CatchUpStock(untils[i]);
      }
      NowAttempted(before, w.history, untils[i], upToDate);
      forall j | 0 <= j < i ensures Attempted(w.history, untils[j]) {
        StillAttempted(before, w.history, untils[j]);
      }
    }
    source, stored, history := w.state.source, w.state.stored, w.history;
    CompletePrefix(w.history, Candle(0, 0));
    forall c
      ensures c in stored <==> c in source && LastDay(stored).Some? && c.day <= LastDay(stored).value
    {
      CompletePrefix(w.history, c);
    }
  }

  /** At some moment the table was up to date, or a run began. */
  ghost predicate Attempted(history: seq<Event>, until: nat) {
    exists k :: 0 <= k <= |history| && AttemptedAt(history, until, k)
  }

  ghost predicate AttemptedAt(history: seq<Event>, until: nat, k: nat)
    requires k <= |history|
  {
    IsUpToDate(LastDay(After(history[..k]).stored), until) || (k < |history| && history[k] == Begin(until))
  }

  lemma StillAttempted(history: seq<Event>, longer: seq<Event>, until: nat)
    requires Attempted(history, until) && history <= longer
    ensures Attempted(longer, until)
  {
    var k :| 0 <= k <= |history| && AttemptedAt(history, until, k);
    assert longer[..k] == history[..k];
    assert AttemptedAt(longer, until, k);
  }

  lemma NowAttempted(history: seq<Event>, longer: seq<Event>, until: nat, upToDate: bool)
    requires if upToDate then longer == history else history + [Begin(until)] <= longer
    requires upToDate ==> IsUpToDate(LastDay(After(history).stored), until)
    ensures Attempted(longer, until) && history <= longer
  {
    assert longer[..|history|] == history;
    assert AttemptedAt(longer, until, |history|);
  }
}
