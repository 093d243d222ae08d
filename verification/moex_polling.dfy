/** Polling the MOEX trade feed of one asset: pages behind a cursor that is saved at the end.

    `State` and `Step` are every interleaving of any number of runs with a growing feed; a run
    may stop anywhere. `World.PollAsset` is the loop itself, and each of its effects is a step of
    that machine, while other runs act between them. The feed answers with trades in ascending
    order, without holes behind a cursor; a page may be shorter than what is there. */
module MoexPolling {
  import opened Wrappers
  import opened Tables
  import StreamSelection

  datatype Trade = Trade(id: int, moment: int, price: int, quantity: int)

  const TRADES_PAGE_ROWS: nat := 5000

  /** `fetched` is a page read but not written yet: the feed positions lo..hi. `since` is where the
      read began that had no cursor, in this run or in the one its cursor comes from. */
  datatype Run = Run(start: Option<int>, reached: Option<int>, fetched: Option<(nat, nat)>, alive: bool, since: nat)

  /** `oldest`: where a read without a cursor begins. `since`: where that of the saved cursor began. */
  datatype State = State(feed: seq<Trade>, oldest: nat, since: nat, rows: map<int, Trade>,
                         cursor: Option<int>, runs: seq<Run>, holder: Option<nat>)

  datatype Event =
    | Grow(more: seq<Trade>)
    | Forget(upTo: nat)
    | Begin
    | Acquire(run: nat)
    | Expire
    | Fetch(run: nat, n: nat)
    | Write(run: nat)
    | Save(run: nat)
    | Stop(run: nat)

  const START := State([], 0, 0, map[], None, [], None)

  predicate Ascending(feed: seq<Trade>) {
    forall i, j :: 0 <= i < j < |feed| ==> feed[i].id < feed[j].id
  }

  /** How many trades of an ascending feed are not after c. */
  function UpTo(feed: seq<Trade>, c: int): (n: nat)
    ensures n <= |feed|
    ensures Ascending(feed) ==> forall i :: 0 <= i < |feed| ==> (i < n <==> feed[i].id <= c)
  {
    if feed == [] then 0
    else if feed[|feed| - 1].id <= c then |feed|
    else UpTo(feed[..|feed| - 1], c)
  }

  /** The page a request gets: at most n and at most 5000 trades. */
  function Page(s: State, cursor: Option<int>, n: nat): (p: (nat, nat))
    requires s.oldest <= |s.feed|
    ensures p.0 <= p.1 <= |s.feed| && p.1 - p.0 <= TRADES_PAGE_ROWS
  {
    var lo := if cursor.None? then s.oldest else UpTo(s.feed, cursor.value);
    var size := if n < TRADES_PAGE_ROWS then n else TRADES_PAGE_ROWS;
    (lo, if |s.feed| - lo < size then |s.feed| else lo + size)
  }

  function Keyed(page: seq<Trade>): seq<(int, Trade)> {
    seq(|page|, i requires 0 <= i < |page| => (page[i].id, page[i]))
  }

  predicate Alive(s: State, r: nat) { r < |s.runs| && s.runs[r].alive }

  /** What does not apply changes nothing. */
  function Step(s: State, e: Event): State
    requires s.oldest <= |s.feed|
    requires forall r :: 0 <= r < |s.runs| && s.runs[r].fetched.Some? ==>
               s.runs[r].fetched.value.0 < s.runs[r].fetched.value.1 <= |s.feed|
  {
    match e
    case Grow(more) => if Ascending(s.feed + more) then s.(feed := s.feed + more) else s
    case Forget(upTo) => if s.oldest <= upTo <= |s.feed| then s.(oldest := upTo) else s
    case Begin => s.(runs := s.runs + [Run(s.cursor, s.cursor, None, true, s.since)])
    case Acquire(r) =>
      if !Alive(s, r) then s
      else if s.holder.None? then s.(holder := Some(r))
      else s.(runs := s.runs[r := s.runs[r].(alive := false)])
    case Expire => s.(holder := None)
    case Fetch(r, n) =>
      if Alive(s, r) && s.runs[r].fetched.None? then
        var p := Page(s, s.runs[r].reached, n);
        var run := if s.runs[r].reached.None? then s.runs[r].(since := s.oldest) else s.runs[r];
        s.(runs := s.runs[r := run.(fetched := if p.0 < p.1 then Some(p) else None)])
      else s
    case Write(r) =>
      if Alive(s, r) && s.runs[r].fetched.Some? then
        var (lo, hi) := s.runs[r].fetched.value;
        s.(rows := InsertIgnore(s.rows, Keyed(s.feed[lo..hi])),
           runs := s.runs[r := s.runs[r].(reached := Some(s.feed[hi - 1].id), fetched := None)])
      else s
    case Save(r) =>
      if Alive(s, r) && s.runs[r].fetched.None? && s.runs[r].reached != s.runs[r].start then
        Leave(s.(cursor := s.runs[r].reached, since := s.runs[r].since), r)
      else s
    case Stop(r) => if Alive(s, r) then Leave(s, r) else s
  }

  /** A run that ends gives up the lock if it is still its own. */
  function Leave(s: State, r: nat): State
    requires r < |s.runs|
  {
    s.(runs := s.runs[r := s.runs[r].(alive := false)],
       holder := if s.holder == Some(r) then None else s.holder)
  }

  // ---------------------------------------------------------------- the invariant

  predicate Stored(s: State, i: nat)
    requires i < |s.feed|
  {
    s.feed[i].id in s.rows && s.rows[s.feed[i].id] == s.feed[i]
  }

  /** From position `since` on, nothing at or below the cursor is missing. */
  predicate Covered(s: State, c: Option<int>, since: nat) {
    c.Some? ==>
      && s.feed != [] && c.value <= s.feed[|s.feed| - 1].id
      && forall i :: since <= i < |s.feed| && s.feed[i].id <= c.value ==> Stored(s, i)
  }

  predicate FromFeed(s: State) {
    forall id :: id in s.rows ==> exists i :: 0 <= i < |s.feed| && s.feed[i] == s.rows[id] && s.feed[i].id == id
  }

  predicate AtMost(a: Option<int>, b: Option<int>) {
    a.Some? ==> b.Some? && a.value <= b.value
  }

  predicate RunOk(s: State, run: Run) {
    && run.since <= |s.feed| && Covered(s, run.reached, run.since) && AtMost(run.start, run.reached)
    && (run.fetched.Some? ==>
          && run.fetched.value.0 < run.fetched.value.1 <= |s.feed|
          && AtMost(run.reached, Some(s.feed[run.fetched.value.0].id))
          && Behind(s, run.fetched.value.0, run.reached, run.since))
  }

  /** The trades from `since` to before position lo are at or below c. */
  predicate Behind(s: State, lo: nat, c: Option<int>, since: nat)
    requires lo <= |s.feed|
  {
    forall i :: since <= i < lo ==> AtMost(Some(s.feed[i].id), c)
  }

  predicate Inv(s: State) {
    && Ascending(s.feed) && s.oldest <= |s.feed| && s.since <= |s.feed|
    && FromFeed(s) && Covered(s, s.cursor, s.since)
    && forall r :: 0 <= r < |s.runs| ==> RunOk(s, s.runs[r])
  }

  lemma InsertKeeps(s: State, lo: nat, hi: nat)
    requires Inv(s) && lo < hi <= |s.feed|
    ensures
      var s' := s.(rows := InsertIgnore(s.rows, Keyed(s.feed[lo..hi])));
      && FromFeed(s') && (forall id :: id in s.rows ==> id in s'.rows && s'.rows[id] == s.rows[id])
      && (forall i :: 0 <= i < |s.feed| && (Stored(s, i) || lo <= i < hi) ==> Stored(s', i))
  {
    var page := Keyed(s.feed[lo..hi]);
    var s' := s.(rows := InsertIgnore(s.rows, page));
    InsertIgnoreRows(s.rows, page);
    hide InsertIgnore;
    forall id | id in s'.rows
      ensures exists i :: 0 <= i < |s.feed| && s.feed[i] == s'.rows[id] && s.feed[i].id == id
    {
      if id !in s.rows {
        var k :| 0 <= k < |page| && page[k] == (id, s'.rows[id]);
        assert s.feed[lo + k] == page[k].1;
      }
    }
    forall i | lo <= i < hi ensures Stored(s', i) {
      assert page[i - lo] == (s.feed[i].id, s.feed[i]);
      var j :| 0 <= j < |s.feed| && s.feed[j] == s'.rows[s.feed[i].id] && s.feed[j].id == s.feed[i].id;
      assert i == j;
    }
  }

  /** What holds of a state holds of one with more rows and a longer feed. */
  lemma RunStays(s: State, s': State, run: Run)
    requires RunOk(s, run) && s.feed <= s'.feed && Ascending(s'.feed)
    requires forall i :: 0 <= i < |s.feed| && Stored(s, i) ==> Stored(s', i)
    ensures RunOk(s', run)
  {
    CoveredStays(s, s', run.reached, run.since);
    if run.fetched.Some? {
      forall i | run.since <= i < run.fetched.value.0
        ensures AtMost(Some(s'.feed[i].id), run.reached)
      {
        assert s'.feed[i] == s.feed[i];
      }
    }
  }

  lemma CoveredStays(s: State, s': State, c: Option<int>, since: nat)
    requires Covered(s, c, since) && s.feed <= s'.feed && Ascending(s'.feed)
    requires forall i :: 0 <= i < |s.feed| && Stored(s, i) ==> Stored(s', i)
    ensures Covered(s', c, since)
  {
    if c.Some? {
      var n := |s.feed| - 1;
      assert s'.feed[n] == s.feed[n];
      forall i | since <= i < |s'.feed| && s'.feed[i].id <= c.value ensures Stored(s', i) {
        assert i <= n;
        assert Stored(s, i);
      }
    }
  }

  /** Every step of every run, in any interleaving and without any lock, keeps the invariant. */
  lemma StepKeepsInv(s: State, e: Event)
    requires Inv(s)
    ensures Inv(Step(s, e))
  {
    match e
    case Grow(more) => GrowKeepsInv(s, more);
    case Fetch(r, n) => FetchKeepsInv(s, r, n);
    case Write(r) => WriteKeepsInv(s, r);
    case _ => RestKeepsInv(s, e);
  }

  lemma RestKeepsInv(s: State, e: Event)
    requires Inv(s) && !e.Grow? && !e.Fetch? && !e.Write?
    ensures Inv(Step(s, e))
  {
    hide Ascending;
    var s' := Step(s, e);
    Others(s, s');
    if e.Save? && Alive(s, e.run) {
      assert RunOk(s, s.runs[e.run]);
    }
    assert s'.rows == s.rows && s'.feed == s.feed;
    hide Stored;
  }

  lemma GrowKeepsInv(s: State, more: seq<Trade>)
    requires Inv(s)
    ensures Inv(Step(s, Grow(more)))
  {
    var s' := Step(s, Grow(more));
    forall id | id in s'.rows
      ensures exists i :: 0 <= i < |s'.feed| && s'.feed[i] == s'.rows[id] && s'.feed[i].id == id
    {
      var i :| 0 <= i < |s.feed| && s.feed[i] == s.rows[id] && s.feed[i].id == id;
      assert s'.feed[i] == s.feed[i];
    }
    Others(s, s');
  }

  lemma FetchKeepsInv(s: State, r: nat, n: nat)
    requires Inv(s)
    ensures Inv(Step(s, Fetch(r, n)))
  {
    var s' := Step(s, Fetch(r, n));
    if Alive(s, r) && s.runs[r].fetched.None? {
      Others(s, s');
      var p := Page(s, s.runs[r].reached, n);
      assert RunOk(s, s.runs[r]);
      if p.0 < p.1 {
        assert RunOk(s', s'.runs[r]);
      }
      hide RunOk, Covered, FromFeed, Page;
    }
  }

  lemma WriteKeepsInv(s: State, r: nat)
    requires Inv(s)
    ensures Inv(Step(s, Write(r)))
  {
    hide Stored, Covered, FromFeed, Ascending, AtMost, InsertIgnore, Behind;
    var s' := Step(s, Write(r));
    if Alive(s, r) && s.runs[r].fetched.Some? {
      var (lo, hi) := s.runs[r].fetched.value;
      var mid := s.(rows := s'.rows);
      InsertKeeps(s, lo, hi);
      SameRows(mid, s');
      WriteCovers(s, s', r);
      Others(s, s');
      assert RunOk(s', s'.runs[r]);
    }
  }

  lemma SameRows(s: State, s': State)
    requires s.rows == s'.rows && s.feed == s'.feed
    ensures FromFeed(s) ==> FromFeed(s')
    ensures forall i :: 0 <= i < |s.feed| ==> Stored(s, i) == Stored(s', i)
  {
  }

  lemma WriteCovers(s: State, s': State, r: nat)
    requires Inv(s) && r < |s.runs| && s.runs[r].fetched.Some?
    requires s'.feed == s.feed
    requires
      var mid := s.(rows := s'.rows);
      var (lo, hi) := s.runs[r].fetched.value;
      forall i :: 0 <= i < |s.feed| && (Stored(s, i) || lo <= i < hi) ==> Stored(mid, i)
    ensures
      var hi := s.runs[r].fetched.value.1;
      && Covered(s', Some(s.feed[hi - 1].id), s.runs[r].since)
      && AtMost(s.runs[r].start, Some(s.feed[hi - 1].id))
  {
    var run := s.runs[r];
    var (lo, hi) := run.fetched.value;
    var mid := s.(rows := s'.rows);
    forall i | run.since <= i < |s.feed| && s.feed[i].id <= s.feed[hi - 1].id ensures Stored(s', i) {
      assert i <= hi - 1;
      if i < lo {
        assert Stored(s, i);
      }
      assert Stored(mid, i);
    }
    assert s.feed[lo].id <= s.feed[hi - 1].id;
  }

  lemma Others(s: State, s': State)
    requires Inv(s) && s.feed <= s'.feed && Ascending(s'.feed)
    requires forall i :: 0 <= i < |s.feed| && Stored(s, i) ==> Stored(s', i)
    ensures forall r :: 0 <= r < |s.runs| ==> RunOk(s', s.runs[r])
    ensures Covered(s', s.cursor, s.since)
  {
    CoveredStays(s, s', s.cursor, s.since);
    forall r | 0 <= r < |s.runs| ensures RunOk(s', s.runs[r]) {
      RunStays(s, s', s.runs[r]);
    }
  }

  /** The state after any history whatsoever. */
  function After(events: seq<Event>): (s: State)
    ensures Inv(s)
  {
    if events == [] then START
    else
      var s := After(events[..|events| - 1]);
      StepKeepsInv(s, events[|events| - 1]);
      Step(s, events[|events| - 1])
  }

  // ---------------------------------------------------------------- the main results

  /** Resume: whatever runs did and wherever they were cut off, every trade at or below the saved
      cursor is stored exactly as the feed had it, from where the read began that had no cursor and
      that this cursor comes from. */
  lemma ResumeInvariant(events: seq<Event>)
    ensures
      var s := After(events);
      forall i :: s.since <= i < |s.feed| && AtMost(Some(s.feed[i].id), s.cursor) ==>
        s.feed[i].id in s.rows && s.rows[s.feed[i].id] == s.feed[i]
  {
    var s := After(events);
    hide After, Inv;
    CursorCovered(s);
    forall i | s.since <= i < |s.feed| && AtMost(Some(s.feed[i].id), s.cursor)
      ensures s.feed[i].id in s.rows && s.rows[s.feed[i].id] == s.feed[i]
    {
      assert Stored(s, i);
    }
  }

  lemma CursorCovered(s: State)
    requires Inv(s)
    ensures Covered(s, s.cursor, s.since)
  {
  }

  /** Nothing else is stored. */
  lemma OnlyFeedTrades(events: seq<Event>)
    ensures
      var s := After(events);
      forall id :: id in s.rows ==> s.rows[id] in s.feed && s.rows[id].id == id
  {
    assert FromFeed(After(events));
  }

  /** A feed that forgets nothing is stored from its first trade on. */
  lemma {:induction false} NothingForgotten(events: seq<Event>)
    requires forall i :: 0 <= i < |events| ==> !events[i].Forget?
    ensures FromTheFirst(After(events)) && After(events).since == 0
  {
    hide FromTheFirst, Step, Inv;
    if events == [] {
      FromTheFirstAtStart();
    } else {
      NothingForgotten(events[..|events| - 1]);
      StaysFromTheFirst(After(events[..|events| - 1]), events[|events| - 1]);
    }
    FromTheFirstMeans(After(events));
  }

  predicate FromTheFirst(s: State) {
    s.oldest == s.since == 0 && forall r :: 0 <= r < |s.runs| ==> s.runs[r].since == 0
  }

  lemma FromTheFirstAtStart()
    ensures FromTheFirst(After([]))
  {
  }

  lemma FromTheFirstMeans(s: State)
    requires FromTheFirst(s)
    ensures s.since == 0
  {
  }

  lemma StaysFromTheFirst(s: State, e: Event)
    requires Inv(s) && FromTheFirst(s) && !e.Forget?
    ensures FromTheFirst(Step(s, e))
  {
    hide Covered, FromFeed, Ascending, Page, InsertIgnore, Behind;
  }

  /** A feed that gives all it has: the page after which the run stops (shorter than a full one)
      leaves nothing of the feed unread. */
  lemma ShortPageIsTheEnd(s: State, r: nat, n: nat)
    requires Inv(s) && Alive(s, r) && s.runs[r].fetched.None? && n >= TRADES_PAGE_ROWS
    requires
      var p := Page(s, s.runs[r].reached, n);
      p.1 - p.0 < TRADES_PAGE_ROWS
    ensures
      var s' := Step(Step(s, Fetch(r, n)), Write(r));
      && r < |s'.runs| && s'.feed == s.feed
      && forall i :: s'.runs[r].since <= i < |s'.feed| ==> Stored(s', i)
  {
    hide Stored, Ascending, Covered, FromFeed, Page, Alive, AtMost, Step;
    StepKeepsInv(s, Fetch(r, n));
    StepKeepsInv(Step(s, Fetch(r, n)), Write(r));
    ReachesTheEnd(s, r, n);
    EndCovered(Step(Step(s, Fetch(r, n)), Write(r)), r);
  }

  lemma EndCovered(s: State, r: nat)
    requires Inv(s) && r < |s.runs|
    requires s.runs[r].since < |s.feed| ==> AtMost(Some(s.feed[|s.feed| - 1].id), s.runs[r].reached)
    ensures forall i :: s.runs[r].since <= i < |s.feed| ==> Stored(s, i)
  {
    assert RunOk(s, s.runs[r]);
    var c := s.runs[r].reached;
    forall i | s.runs[r].since <= i < |s.feed| ensures Stored(s, i) {
      assert i < |s.feed| - 1 ==> s.feed[i].id < s.feed[|s.feed| - 1].id;
      assert s.feed[i].id <= c.value;
    }
  }

  lemma ReachesTheEnd(s: State, r: nat, n: nat)
    requires Inv(s) && Alive(s, r) && s.runs[r].fetched.None? && n >= TRADES_PAGE_ROWS
    requires
      var p := Page(s, s.runs[r].reached, n);
      p.1 - p.0 < TRADES_PAGE_ROWS
    requires Inv(Step(s, Fetch(r, n)))
    ensures
      var s' := Step(Step(s, Fetch(r, n)), Write(r));
      && r < |s'.runs| && s'.feed == s.feed
      && (s'.runs[r].since < |s'.feed| ==> AtMost(Some(s'.feed[|s'.feed| - 1].id), s'.runs[r].reached))
  {
    hide InsertIgnore, FromFeed, Covered;
    var p := Page(s, s.runs[r].reached, n);
    assert p.1 == |s.feed|;
  }

  // ---------------------------------------------------------------- the lock and the cursor

  /** Only the holder of the lock acts. */
  predicate Disciplined(s: State, e: Event) {
    (e.Fetch? || e.Write? || e.Save?) ==> s.holder == Some(e.run)
  }

  /** The lock is taken by a run whose cursor is still the saved one. */
  predicate UpToDate(s: State, e: Event) {
    e.Acquire? && Alive(s, e.run) && s.holder.None? ==> s.runs[e.run].start == s.cursor
  }

  predicate HolderOk(s: State) {
    s.holder.Some? && Alive(s, s.holder.value) ==> s.runs[s.holder.value].start == s.cursor
  }

  /** A history in which the lock does its work, with every run's cursor up to date when it
      takes the lock. */
  predicate Locked(events: seq<Event>) {
    forall k :: 0 <= k < |events| ==>
      Disciplined(After(events[..k]), events[k]) && UpToDate(After(events[..k]), events[k])
  }

  lemma CursorStep(s: State, e: Event)
    requires Inv(s) && HolderOk(s) && Disciplined(s, e) && UpToDate(s, e)
    ensures AtMost(s.cursor, Step(s, e).cursor) && HolderOk(Step(s, e))
  {
    hide Covered, FromFeed, Ascending, Page;
    if e.Save? && Alive(s, e.run) {
      assert RunOk(s, s.runs[e.run]);
    }
  }

  lemma {:induction false} CursorNeverGoesBack(events: seq<Event>, k: nat)
    requires Locked(events) && k <= |events|
    ensures AtMost(After(events[..k]).cursor, After(events).cursor)
    ensures HolderOk(After(events))
  {
    hide HolderOk, Disciplined, UpToDate, Inv, Step;
    if events == [] {
      Nobody();
    } else {
      var n := |events| - 1;
      var init := events[..n];
      forall j | 0 <= j < n
        ensures Disciplined(After(init[..j]), init[j]) && UpToDate(After(init[..j]), init[j])
      {
        assert init[..j] == events[..j];
      }
      CursorNeverGoesBack(init, if k <= n then k else n);
      CursorStep(After(init), events[n]);
      if k <= n {
        assert init[..k] == events[..k];
      } else {
        assert events[..k] == events;
      }
    }
  }

  lemma Nobody()
    ensures HolderOk(After([]))
  {
  }

  /** Every lock-holding action of the history was the holder's. */
  predicate AllDisciplined(events: seq<Event>) {
    forall k :: 0 <= k < |events| ==> Disciplined(After(events[..k]), events[k])
  }

  lemma NextDisciplined(events: seq<Event>, e: Event)
    requires AllDisciplined(events) && Disciplined(After(events), e)
    ensures AllDisciplined(events + [e]) && After(events + [e]) == Step(After(events), e)
  {
    hide Disciplined, Step;
    var more := events + [e];
    assert more[..|events|] == events;
    forall k | 0 <= k < |more| ensures Disciplined(After(more[..k]), more[k]) {
      if k < |events| {
        assert more[..k] == events[..k];
      }
    }
  }

  function Numbered(n: nat): seq<Trade> {
    seq(n, i requires 0 <= i < n => Trade(i + 1, 0, 0, 0))
  }

  /** The cursor is loaded before the lock is taken, so the lock alone is not enough. With a limit
      of one page a run, the second run below loads no cursor, two others read a page each, and
      then it takes the cursor back to the end of the first page, although no two runs ever held
      the lock together and every page is full. */
  lemma LockedRunTakesCursorBack() returns (before: seq<Event>, after: seq<Event>)
    ensures before < after && AllDisciplined(after)
    ensures FullPages(after)
    ensures After(before).cursor == Some(2 * TRADES_PAGE_ROWS)
    ensures After(after).cursor == Some(TRADES_PAGE_ROWS)
  {
    hide UpTo, Inv, AllDisciplined, FullPages, After;
    before := LoadedTwice();
    before := Turn(before, 0, 0);
    FullPagesGo(before, [Begin]);
    before := Push(before, Begin);
    before := Turn(before, 2, 1);
    after := Turn(before, 1, 0);
  }

  /** Every request of the history gets as much as a page holds. */
  predicate FullPages(events: seq<Event>) {
    forall k :: 0 <= k < |events| && events[k].Fetch? ==> events[k].n == TRADES_PAGE_ROWS
  }

  lemma FullPagesGo(a: seq<Event>, b: seq<Event>)
    requires FullPages(a) && FullPages(b)
    ensures FullPages(a + b)
  {
  }

  lemma LoadedTwice() returns (events: seq<Event>)
    ensures events == [Grow(Numbered(2 * TRADES_PAGE_ROWS)), Begin, Begin]
    ensures AllDisciplined(events) && FullPages(events)
    ensures
      var run := Run(None, None, None, true, 0);
      After(events) == State(Numbered(2 * TRADES_PAGE_ROWS), 0, 0, map[], None, [run, run], None)
  {
    hide Inv, AllDisciplined;
    var feed := Numbered(2 * TRADES_PAGE_ROWS);
    assert [] + feed == feed;
    events := Push([], Grow(feed));
    events := Push(events, Begin);
    events := Push(events, Begin);
  }

  function TurnEvents(r: nat): seq<Event> {
    [Acquire(r), Fetch(r, TRADES_PAGE_ROWS), Write(r), Save(r)]
  }

  lemma FullTurn(events: seq<Event>, r: nat)
    ensures FullPages(events) ==> FullPages(events + TurnEvents(r))
  {
    assert FullPages(TurnEvents(r));
    if FullPages(events) {
      FullPagesGo(events, TurnEvents(r));
    }
  }

  /** A run that takes the lock, reads and writes a full page and saves its cursor. */
  lemma Turn(events: seq<Event>, r: nat, k: nat) returns (more: seq<Event>)
    requires AllDisciplined(events) && k < 2
    requires
      var s := After(events);
      var c := if k == 0 then None else Some(k * TRADES_PAGE_ROWS);
      && s.feed == Numbered(2 * TRADES_PAGE_ROWS) && s.oldest == 0 && s.holder == None
      && s.since == 0 && r < |s.runs| && s.runs[r] == Run(c, c, None, true, 0)
    ensures more == events + TurnEvents(r) && AllDisciplined(more) && (FullPages(events) ==> FullPages(more))
    ensures
      var s, s' := After(events), After(more);
      && s'.feed == s.feed && s'.oldest == s'.since == 0 && s'.holder == None
      && s'.cursor == Some((k + 1) * TRADES_PAGE_ROWS)
      && |s'.runs| == |s.runs| && forall q :: 0 <= q < |s.runs| && q != r ==> s'.runs[q] == s.runs[q]
  {
    hide Inv, AllDisciplined, InsertIgnore, After, Page, Ascending, FullPages;
    more := Push(events, Acquire(r));
    PageOfNumbered(After(more), k);
    more := Push(more, Fetch(r, TRADES_PAGE_ROWS));
    more := Push(more, Write(r));
    more := Push(more, Save(r));
    assert more == events + TurnEvents(r);
    FullTurn(events, r);
  }

  lemma PageOfNumbered(s: State, k: nat)
    requires k < 2 && s.feed == Numbered(2 * TRADES_PAGE_ROWS) && s.oldest == 0
    ensures
      var c := if k == 0 then None else Some(k * TRADES_PAGE_ROWS);
      Page(s, c, TRADES_PAGE_ROWS) == (k * TRADES_PAGE_ROWS, (k + 1) * TRADES_PAGE_ROWS)
  {
    if k == 1 {
      assert Ascending(s.feed);
      var n := UpTo(s.feed, TRADES_PAGE_ROWS);
      assert n < |s.feed| ==> s.feed[n].id > TRADES_PAGE_ROWS;
      assert n > 0 ==> s.feed[n - 1].id <= TRADES_PAGE_ROWS;
    }
  }

  lemma Push(events: seq<Event>, e: Event) returns (more: seq<Event>)
    requires AllDisciplined(events) && Disciplined(After(events), e)
    ensures more == events + [e] && AllDisciplined(more) && After(more) == Step(After(events), e)
  {
    NextDisciplined(events, e);
    more := events + [e];
  }

  /** A page of a run that acts alone: the feed may grow before the request, which gets at most
      n trades. An empty page is written by doing nothing. */
  datatype Reply = Reply(more: seq<Trade>, n: nat)

  function NextPage(s: State, r: nat, reply: Reply): (t: State)
    requires Inv(s)
    ensures Inv(t)
  {
    StepKeepsInv(s, Grow(reply.more));
    var s1 := Step(s, Grow(reply.more));
    StepKeepsInv(s1, Fetch(r, reply.n));
    var s2 := Step(s1, Fetch(r, reply.n));
    StepKeepsInv(s2, Write(r));
    Step(s2, Write(r))
  }

  function Pages(s: State, r: nat, replies: seq<Reply>): (t: State)
    requires Inv(s)
    ensures Inv(t)
  {
    if replies == [] then s
    else NextPage(Pages(s, r, replies[..|replies| - 1]), r, replies[|replies| - 1])
  }

  /** A run of any number of pages, from its first request to its saved cursor. */
  function WholeRun(s: State, r: nat, replies: seq<Reply>): State
    requires Inv(s)
  {
    Step(Pages(s, r, replies), Save(r))
  }

  /** A run that has read nothing since state s, or else stands at or after s's saved cursor. */
  predicate NotBehind(s: State, t: State, r: nat) {
    && s.feed <= t.feed && t.cursor == s.cursor && t.oldest == s.oldest && Alive(t, r) && r < |s.runs|
    && t.runs[r].fetched.None? && t.runs[r].start == s.runs[r].start
    && (t.runs[r].reached == t.runs[r].start || AtMost(s.cursor, t.runs[r].reached))
  }

  /** The run has loaded its cursor and read nothing yet. */
  predicate Loaded(s: State, r: nat) {
    Alive(s, r) && s.runs[r].fetched.None? && s.runs[r].reached == s.runs[r].start
  }

  /** The first trade the run would read is not before the saved cursor. */
  predicate FirstNotBefore(s: State, r: nat)
    requires Inv(s) && Alive(s, r)
  {
    var lo := Page(s, s.runs[r].start, 1).0;
    lo < |s.feed| ==> AtMost(s.cursor, Some(s.feed[lo].id))
  }

  /** What a page does to the run that reads it. */
  lemma PageReads(t: State, r: nat, n: nat)
    requires Inv(t) && Alive(t, r) && t.runs[r].fetched.None?
    ensures
      var s1 := Step(t, Fetch(r, n));
      var p, u := Page(t, t.runs[r].reached, n), Step(s1, Write(r));
      && Inv(s1) && u.feed == t.feed && u.cursor == t.cursor && u.oldest == t.oldest && Alive(u, r)
      && u.runs[r].fetched.None? && u.runs[r].start == t.runs[r].start
      && u.runs[r].reached == if p.0 < p.1 then Some(t.feed[p.1 - 1].id) else t.runs[r].reached
  {
    hide Covered, FromFeed, Page, InsertIgnore, Ascending, Behind, AtMost;
    StepKeepsInv(t, Fetch(r, n));
  }

  /** The last trade of a page of the grown feed is not before the saved cursor, if the run was not
      behind it and its first trade was not. */
  lemma PageEndsNotBefore(s: State, t: State, r: nat, n: nat)
    requires Inv(s) && Inv(t) && Loaded(s, r) && NotBehind(s, t, r) && FirstNotBefore(s, r)
    ensures
      var p := Page(t, t.runs[r].reached, n);
      p.0 < p.1 ==> AtMost(s.cursor, Some(t.feed[p.1 - 1].id))
  {
    hide FromFeed, Behind;
    var p := Page(t, t.runs[r].reached, n);
    if p.0 < p.1 && s.cursor.Some? {
      assert t.feed[p.0].id <= t.feed[p.1 - 1].id;
      var lo := Page(s, s.runs[r].start, 1).0;
      if t.runs[r].reached != t.runs[r].start {
        assert t.runs[r].reached.Some? && t.feed[p.0].id > t.runs[r].reached.value;
      } else if lo < |s.feed| {
        if t.runs[r].start.Some? {
          UpToStands(s.feed, t.feed, t.runs[r].start.value);
        }
        assert p.0 == lo && t.feed[lo] == s.feed[lo];
      } else {
        FirstIsNew(s, t, t.runs[r].start, p.0);
      }
    }
  }

  /** With nothing left to read at first, what is read later is after the saved cursor. */
  lemma FirstIsNew(s: State, t: State, c: Option<int>, k: nat)
    requires Inv(s) && Inv(t) && s.feed <= t.feed && t.oldest == s.oldest && s.cursor.Some?
    requires Page(s, c, 1).0 == |s.feed| && k == Page(t, c, 1).0 && k < |t.feed|
    ensures t.feed[k].id > s.cursor.value
  {
    var last := |s.feed| - 1;
    assert Covered(s, s.cursor, s.since);
    assert t.feed[last] == s.feed[last];
    if c.Some? {
      assert s.feed[last].id <= c.value;
    }
    assert k > last;
  }

  lemma {:induction false} PagesNotBehind(s: State, r: nat, replies: seq<Reply>)
    requires Inv(s) && Loaded(s, r) && FirstNotBefore(s, r)
    ensures NotBehind(s, Pages(s, r, replies), r)
  {
    hide Inv, FirstNotBefore;
    if replies != [] {
      var init, reply := replies[..|replies| - 1], replies[|replies| - 1];
      PagesNotBehind(s, r, init);
      var t := Pages(s, r, init);
      PageNotBehind(s, t, r, reply);
    }
  }

  lemma PageNotBehind(s: State, t: State, r: nat, reply: Reply)
    requires Inv(s) && Inv(t) && Loaded(s, r) && NotBehind(s, t, r) && FirstNotBefore(s, r)
    ensures NotBehind(s, NextPage(t, r, reply), r)
  {
    hide FirstNotBefore, Page, Covered, FromFeed, Behind, AtMost, Ascending, Loaded, NotBehind;
    StepKeepsInv(t, Grow(reply.more));
    var g := Step(t, Grow(reply.more));
    GrowNotBehind(s, t, r, reply.more);
    StillReading(s, g, r);
    PageReads(g, r, reply.n);
    PageEndsNotBefore(s, g, r, reply.n);
    ReadNotBehind(s, g, NextPage(t, r, reply), r);
  }

  lemma GrowNotBehind(s: State, t: State, r: nat, more: seq<Trade>)
    requires Inv(t) && NotBehind(s, t, r)
    ensures NotBehind(s, Step(t, Grow(more)), r)
  {
  }

  lemma StillReading(s: State, t: State, r: nat)
    requires NotBehind(s, t, r)
    ensures Alive(t, r) && t.runs[r].fetched.None?
  {
  }

  lemma ReadNotBehind(s: State, g: State, u: State, r: nat)
    requires NotBehind(s, g, r)
    requires u.feed == g.feed && u.cursor == g.cursor && u.oldest == g.oldest && Alive(u, r)
    requires u.runs[r].fetched.None? && u.runs[r].start == g.runs[r].start
    requires u.runs[r].reached == g.runs[r].reached || AtMost(s.cursor, u.runs[r].reached)
    ensures NotBehind(s, u, r)
  {
  }

  /** With the cursor it loaded, no run, however many pages it reads, takes the saved cursor back
      if and only if the first trade it would read is not before that cursor. */
  lemma LoadedCursorIsSafeIff(s: State, r: nat)
    requires Inv(s) && Loaded(s, r)
    ensures (forall replies: seq<Reply> :: AtMost(s.cursor, WholeRun(s, r, replies).cursor)) <==> FirstNotBefore(s, r)
  {
    hide Inv, FirstNotBefore, Pages, WholeRun;
    if FirstNotBefore(s, r) {
      forall replies: seq<Reply> ensures AtMost(s.cursor, WholeRun(s, r, replies).cursor) {
        SafeRun(s, r, replies);
      }
    } else {
      OneTradeTakesBack(s, r);
      assert !AtMost(s.cursor, WholeRun(s, r, [Reply([], 1)]).cursor);
    }
  }

  lemma SafeRun(s: State, r: nat, replies: seq<Reply>)
    requires Inv(s) && Loaded(s, r) && FirstNotBefore(s, r)
    ensures AtMost(s.cursor, WholeRun(s, r, replies).cursor)
  {
    hide FirstNotBefore, Pages, Inv;
    PagesNotBehind(s, r, replies);
  }

  lemma OneTradeTakesBack(s: State, r: nat)
    requires Inv(s) && Loaded(s, r) && !FirstNotBefore(s, r)
    ensures !AtMost(s.cursor, WholeRun(s, r, [Reply([], 1)]).cursor)
  {
    hide Covered, FromFeed, Behind, Step, NextPage, AtMost;
    var replies := [Reply([], 1)];
    assert replies[..0] == [] && Pages(s, r, []) == s;
    var t := NextPage(s, r, Reply([], 1));
    assert Pages(s, r, replies) == t;
    FirstIsPast(s, s.runs[r].start);
    OneTradeRead(s, r);
    SaveSaves(t, r);
  }

  lemma OneTradeRead(s: State, r: nat)
    requires Inv(s) && Loaded(s, r)
    ensures
      var p, t := Page(s, s.runs[r].start, 1), NextPage(s, r, Reply([], 1));
      && Alive(t, r) && t.runs[r].fetched.None? && t.runs[r].start == s.runs[r].start
      && t.runs[r].reached == if p.0 < p.1 then Some(s.feed[p.1 - 1].id) else s.runs[r].start
  {
    hide Covered, FromFeed, Behind, Page, InsertIgnore;
    assert s.feed + [] == s.feed;
    assert Step(s, Grow([])) == s;
    PageReads(s, r, 1);
  }

  lemma SaveSaves(t: State, r: nat)
    requires Inv(t) && Alive(t, r) && t.runs[r].fetched.None? && t.runs[r].reached != t.runs[r].start
    ensures Step(t, Save(r)).cursor == t.runs[r].reached
  {
  }

  lemma FirstIsPast(s: State, c: Option<int>)
    requires Inv(s)
    ensures
      var p := Page(s, c, 1);
      && (p.0 < |s.feed| ==> p.1 == p.0 + 1 && c != Some(s.feed[p.0].id))
  {
  }

  /** The pages of a run that a full feed gives: each as many trades as a page holds, until one is
      short, but no more than `mores` says; the feed grows before each. */
  function ReadOn(s: State, r: nat, mores: seq<seq<Trade>>): (t: State)
    requires Inv(s) && Alive(s, r)
    ensures Inv(t)
    decreases |mores|
  {
    if mores == [] then s
    else
      var t := NextPage(s, r, Reply(mores[0], TRADES_PAGE_ROWS));
      if Alive(t, r) && NextPosition(t, r) - NextPosition(s, r) == TRADES_PAGE_ROWS
      then ReadOn(t, r, mores[1..]) else t
  }

  /** Where the next page of run r begins. */
  function NextPosition(s: State, r: nat): nat
    requires Inv(s) && Alive(s, r)
  {
    Page(s, s.runs[r].reached, 1).0
  }

  /** A growing feed does not move the next page. */
  lemma NextPositionStands(s: State, t: State, r: nat)
    requires Inv(s) && Inv(t) && Alive(s, r) && Alive(t, r) && s.feed <= t.feed && s.oldest == t.oldest
    requires s.runs[r].reached == t.runs[r].reached
    ensures NextPosition(t, r) == NextPosition(s, r)
  {
    var c := s.runs[r].reached;
    if c.Some? {
      assert RunOk(s, s.runs[r]);
      var n := UpTo(s.feed, c.value);
      if n < |s.feed| {
        UpToStands(s.feed, t.feed, c.value);
      } else {
        EndStands(s.feed, t.feed, c.value);
      }
    }
  }

  lemma EndStands(feed: seq<Trade>, feed': seq<Trade>, c: int)
    requires Ascending(feed) && feed <= feed' && Ascending(feed') && UpTo(feed, c) == |feed|
    requires feed != [] && c <= feed[|feed| - 1].id
    ensures UpTo(feed', c) == |feed|
  {
    var n := |feed|;
    assert feed'[n - 1] == feed[n - 1];
    assert n < |feed'| ==> feed'[n].id > feed'[n - 1].id;
  }

  /** Right behind a trade of the feed the next page begins. */
  lemma BehindATrade(s: State, r: nat, e: nat)
    requires Inv(s) && Alive(s, r) && 0 < e <= |s.feed| && s.runs[r].reached == Some(s.feed[e - 1].id)
    ensures NextPosition(s, r) == e
  {
    CursorStands(s.feed, s.feed, s.runs[r].reached, e);
  }

  /** One full page of a full feed. */
  lemma FullPageReads(s: State, r: nat, more: seq<Trade>)
    requires Inv(s) && Alive(s, r) && s.runs[r].fetched.None?
    ensures
      var t, b := NextPage(s, r, Reply(more, TRADES_PAGE_ROWS)), NextPosition(s, r);
      && s.feed <= t.feed && t.cursor == s.cursor && t.oldest == s.oldest && Alive(t, r)
      && t.runs[r].fetched.None? && t.runs[r].start == s.runs[r].start
      && b <= NextPosition(t, r) <= |t.feed|
      && (NextPosition(t, r) == b + TRADES_PAGE_ROWS
          || (NextPosition(t, r) == |t.feed| && |t.feed| < b + TRADES_PAGE_ROWS))
      && t.runs[r].reached == if NextPosition(t, r) == b then s.runs[r].reached
                              else Some(t.feed[NextPosition(t, r) - 1].id)
  {
    hide Covered, FromFeed, Behind, Page, InsertIgnore, AtMost;
    StepKeepsInv(s, Grow(more));
    var g := Step(s, Grow(more));
    PageReads(g, r, TRADES_PAGE_ROWS);
    var t := NextPage(s, r, Reply(more, TRADES_PAGE_ROWS));
    NextPositionStands(s, g, r);
    var p := Page(g, g.runs[r].reached, TRADES_PAGE_ROWS);
    PageBegins(g, r);
    if p.0 < p.1 {
      BehindATrade(t, r, p.1);
    } else {
      NextPositionStands(g, t, r);
    }
  }

  lemma PageBegins(s: State, r: nat)
    requires Inv(s) && Alive(s, r)
    ensures
      var p, b := Page(s, s.runs[r].reached, TRADES_PAGE_ROWS), NextPosition(s, r);
      p == (b, if |s.feed| - b < TRADES_PAGE_ROWS then |s.feed| else b + TRADES_PAGE_ROWS)
  {
  }

  /** Such a run ends at position e: all its pages further on, or at the end of the feed. */
  lemma {:induction false} ReadOnEnds(s: State, r: nat, mores: seq<seq<Trade>>) returns (e: nat)
    requires Inv(s) && Alive(s, r) && s.runs[r].fetched.None?
    ensures
      var t, b := ReadOn(s, r, mores), NextPosition(s, r);
      && s.feed <= t.feed && t.cursor == s.cursor && Alive(t, r) && t.runs[r].fetched.None?
      && t.runs[r].start == s.runs[r].start && b <= e <= |t.feed|
      && (e == b + TRADES_PAGE_ROWS * |mores| || (e == |t.feed| && e < b + TRADES_PAGE_ROWS * |mores|))
      && t.runs[r].reached == if e == b then s.runs[r].reached else Some(t.feed[e - 1].id)
    decreases |mores|
  {
    hide Inv, Page, NextPage, NextPosition;
    if mores == [] {
      PositionInFeed(s, r);
      e := NextPosition(s, r);
    } else {
      FullPageReads(s, r, mores[0]);
      var t := NextPage(s, r, Reply(mores[0], TRADES_PAGE_ROWS));
      if NextPosition(t, r) - NextPosition(s, r) == TRADES_PAGE_ROWS {
        e := ReadOnEnds(t, r, mores[1..]);
        assert TRADES_PAGE_ROWS * |mores| == TRADES_PAGE_ROWS + TRADES_PAGE_ROWS * |mores[1..]|;
      } else {
        e := NextPosition(t, r);
      }
    }
  }

  lemma PositionInFeed(s: State, r: nat)
    requires Inv(s) && Alive(s, r)
    ensures NextPosition(s, r) <= |s.feed|
  {
  }

  /** A run over a full feed, of at most |mores| pages, takes the saved cursor back if and only if that
      cursor is after the last trade of so many full pages behind the cursor it loaded. */
  lemma FullPagesAreSafeIff(s: State, r: nat, mores: seq<seq<Trade>>)
    requires Inv(s) && Loaded(s, r)
    ensures
      var hi := NextPosition(s, r) + TRADES_PAGE_ROWS * |mores|;
      AtMost(s.cursor, Step(ReadOn(s, r, mores), Save(r)).cursor)
      <==> (mores != [] && hi <= |s.feed| ==> AtMost(s.cursor, Some(s.feed[hi - 1].id)))
  {
    hide ReadOn, Page, FromFeed, Behind, Covered, Ascending;
    var e := ReadOnEnds(s, r, mores);
    var t, b := ReadOn(s, r, mores), NextPosition(s, r);
    PositionInFeed(s, r);
    if e == b {
      assert Step(t, Save(r)).cursor == s.cursor;
    } else {
      NextIsPast(s, t, r, e);
      SaveSaves(t, r);
      var hi := b + TRADES_PAGE_ROWS * |mores|;
      if e >= |s.feed| {
        EndIsNotBefore(s, t, e);
      }
      assert hi <= |s.feed| ==> e == hi && t.feed[hi - 1] == s.feed[hi - 1];
    }
  }

  lemma NextIsPast(s: State, t: State, r: nat, e: nat)
    requires Inv(s) && Inv(t) && Loaded(s, r) && s.feed <= t.feed && NextPosition(s, r) < e <= |t.feed|
    ensures s.runs[r].start != Some(t.feed[e - 1].id)
  {
    var c := s.runs[r].start;
    if c.Some? {
      assert RunOk(s, s.runs[r]);
      if UpTo(s.feed, c.value) < |s.feed| {
        UpToStands(s.feed, t.feed, c.value);
      } else {
        EndStands(s.feed, t.feed, c.value);
      }
    }
  }

  lemma EndIsNotBefore(s: State, t: State, e: nat)
    requires Inv(s) && Inv(t) && s.feed <= t.feed && |s.feed| <= e <= |t.feed| && e > 0
    ensures AtMost(s.cursor, Some(t.feed[e - 1].id))
  {
    if s.cursor.Some? {
      assert Covered(s, s.cursor, s.since);
      var last := |s.feed| - 1;
      assert t.feed[last] == s.feed[last] && t.feed[last].id <= t.feed[e - 1].id;
    }
  }

  // ---------------------------------------------------------------- the loop

  /** A cut-off for the live stream, and how many trades one run sends to it. */
  datatype Settings = Settings(pageLimit: nat, topN: int, cutoff: int)

  /** One wait: what the others did meanwhile, and how the call itself went (a page size for a
      request; for a write or a save only success matters). A write or a save without an answer may
      have been `applied`. */
  datatype Tick = Tick(others: seq<Event>, reply: Option<nat>, applied: bool)

  /** Every call on the tape succeeds. */
  predicate Answered(tape: seq<Tick>) {
    forall t :: t in tape ==> t.reply.Some?
  }

  /** And every request gets as much as a page holds. */
  predicate Full(tape: seq<Tick>) {
    forall t :: t in tape ==> t.reply.Some? && t.reply.value >= TRADES_PAGE_ROWS
  }

  lemma AnsweredNext(tape: seq<Tick>)
    ensures Answered([]) && Full([])
    ensures tape != [] && Answered(tape) ==> Answered(tape[1..])
    ensures tape != [] && Full(tape) ==> Full(tape[1..])
  {
  }

  function Recency(): Trade -> StreamSelection.Key {
    (t: Trade) => StreamSelection.Key(t.moment, t.id)
  }

  /** Of two different trades exactly one is earlier. */
  lemma EarlierOrders(t: Trade, u: Trade)
    ensures !(Earlier(t, u) && Earlier(u, t))
    ensures t.id != u.id ==> Earlier(t, u) || Earlier(u, t)
  {
  }

  /** The trades young enough for the live stream. */
  function FreshOnly(rows: seq<Trade>, cutoff: int): seq<Trade> {
    if rows == [] then []
    else
      var last := rows[|rows| - 1];
      FreshOnly(rows[..|rows| - 1], cutoff) + if last.moment >= cutoff then [last] else []
  }

  lemma {:induction false} FreshAppend(a: seq<Trade>, b: seq<Trade>, cutoff: int)
    ensures FreshOnly(a + b, cutoff) == FreshOnly(a, cutoff) + FreshOnly(b, cutoff)
  {
    if b == [] {
      assert a + b == a;
    } else {
      FreshAppend(a, b[..|b| - 1], cutoff);
      assert (a + b)[..|a + b| - 1] == a + b[..|b| - 1];
    }
  }

  /** What one selection over a whole range of the feed would send. */
  function Selected(rows: seq<Trade>, settings: Settings): seq<Trade> {
    StreamSelection.Latest(FreshOnly(rows, settings.cutoff), settings.topN, Recency())
  }

  /** Older, or of the same moment with the smaller number. */
  predicate Earlier(t: Trade, u: Trade) {
    t.moment < u.moment || (t.moment == u.moment && t.id < u.id)
  }

  /** What goes to the live stream of a stretch of the feed: of its trades not before the cut-off the
      newest, as many as allowed, oldest first. */
  ghost predicate IsNewest(published: seq<Trade>, stretch: seq<Trade>, settings: Settings) {
    var young := set i | 0 <= i < |stretch| && stretch[i].moment >= settings.cutoff;
    && (forall t :: t in published ==> t in stretch && t.moment >= settings.cutoff)
    && (forall t, u :: t in published && u in stretch && u.moment >= settings.cutoff && u !in published ==>
          Earlier(u, t))
    && |published| == (if settings.topN <= 0 then 0 else if settings.topN < |young| then settings.topN else |young|)
    && (forall i, j :: 0 <= i < j < |published| ==> Earlier(published[i], published[j]))
  }

  lemma {:induction false} FreshOnlyHolds(rows: seq<Trade>, cutoff: int, t: Trade)
    ensures t in FreshOnly(rows, cutoff) <==> t in rows && t.moment >= cutoff
    ensures multiset(FreshOnly(rows, cutoff))[t] <= multiset(rows)[t]
  {
    if rows != [] {
      var init, last := rows[..|rows| - 1], rows[|rows| - 1];
      FreshOnlyHolds(init, cutoff, t);
      assert rows == init + [last];
    }
  }

  lemma {:induction false} FreshOnlyCounts(rows: seq<Trade>, cutoff: int)
    ensures |FreshOnly(rows, cutoff)| == |set i | 0 <= i < |rows| && rows[i].moment >= cutoff|
  {
    if rows != [] {
      var n := |rows| - 1;
      var init := rows[..n];
      FreshOnlyCounts(init, cutoff);
      var some := set i | 0 <= i < n && init[i].moment >= cutoff;
      assert (set i | 0 <= i < |rows| && rows[i].moment >= cutoff)
          == some + if rows[n].moment >= cutoff then {n} else {};
    }
  }

  lemma {:induction false} AscendingOnce(rows: seq<Trade>, t: Trade)
    requires Ascending(rows)
    ensures multiset(rows)[t] <= 1
  {
    if rows != [] {
      var init, last := rows[..|rows| - 1], rows[|rows| - 1];
      AscendingOnce(init, t);
      assert rows == init + [last];
      if t == last {
        assert t !in init;
      }
    }
  }

  lemma TwoPlaces(rows: seq<Trade>, i: nat, j: nat)
    requires i < j < |rows| && rows[i] == rows[j]
    ensures multiset(rows)[rows[i]] >= 2
  {
    assert rows == rows[..i] + [rows[i]] + rows[i + 1..];
    assert rows[i + 1..][j - i - 1] == rows[j];
  }

  /** Two trades of an ascending stretch with the same number are one. */
  lemma SameNumber(rows: seq<Trade>, t: Trade, u: Trade)
    requires Ascending(rows) && t in rows && u in rows && t.id == u.id
    ensures t == u
  {
  }

  /** The selection from a stretch of the feed is what should go to the live stream. */
  lemma SelectedIsNewest(stretch: seq<Trade>, settings: Settings)
    requires Ascending(stretch)
    ensures IsNewest(Selected(stretch, settings), stretch, settings)
  {
    var young := FreshOnly(stretch, settings.cutoff);
    var kept := StreamSelection.Latest(young, settings.topN, Recency());
    var dropped := StreamSelection.LatestKeepsNewest(young, settings.topN, Recency());
    FreshOnlyCounts(stretch, settings.cutoff);
    hide FreshOnly, StreamSelection.Latest;
    forall t | t in kept || t in dropped ensures t in stretch && t.moment >= settings.cutoff {
      FreshOnlyHolds(stretch, settings.cutoff, t);
      assert t in multiset(dropped) + multiset(kept);
    }
    forall t, u | t in kept && u in stretch && u.moment >= settings.cutoff && u !in kept ensures Earlier(u, t) {
      FreshOnlyHolds(stretch, settings.cutoff, u);
      assert u in multiset(young) && u in multiset(dropped) + multiset(kept);
      assert u in dropped;
      KeysOrder(stretch, u, t);
    }
    forall i, j | 0 <= i < j < |kept| ensures Earlier(kept[i], kept[j]) {
      assert kept[i] in kept && kept[j] in kept;
      KeptOnce(stretch, settings, kept, dropped, i, j);
      KeysOrder(stretch, kept[i], kept[j]);
    }
  }

  lemma KeysOrder(stretch: seq<Trade>, t: Trade, u: Trade)
    requires Ascending(stretch) && t in stretch && u in stretch && t != u
    requires StreamSelection.Leq(Recency()(t), Recency()(u))
    ensures Earlier(t, u)
  {
    if t.id == u.id {
      SameNumber(stretch, t, u);
    }
  }

  lemma KeptOnce(stretch: seq<Trade>, settings: Settings, kept: seq<Trade>, dropped: seq<Trade>, i: nat, j: nat)
    requires Ascending(stretch) && i < j < |kept|
    requires multiset(dropped) + multiset(kept) == multiset(FreshOnly(stretch, settings.cutoff))
    ensures kept[i] != kept[j]
  {
    AscendingOnce(stretch, kept[i]);
    FreshOnlyHolds(stretch, settings.cutoff, kept[i]);
    if kept[i] == kept[j] {
      TwoPlaces(kept, i, j);
    }
  }

  /** The event of run `me`: the others do not act for it. */
  predicate Of(e: Event, me: nat) {
    match e
    case Acquire(r) => r == me
    case Fetch(r, _) => r == me
    case Write(r) => r == me
    case Save(r) => r == me
    case Stop(r) => r == me
    case _ => false
  }

  /** What run `me` may rely on while the others act. */
  ghost predicate Later(s: State, s': State, me: nat) {
    Inv(s') && Grown(s, s') && me < |s.runs| <= |s'.runs| && s'.runs[me] == s.runs[me]
  }

  lemma RunFetched(s: State, r: nat)
    requires Inv(s) && r < |s.runs| && s.runs[r].fetched.Some?
    ensures s.runs[r].fetched.value.0 < s.runs[r].fetched.value.1 <= |s.feed|
  {
    assert RunOk(s, s.runs[r]);
  }

  lemma OthersLeaveMe(s: State, e: Event, me: nat)
    requires Inv(s) && me < |s.runs| && !Of(e, me)
    ensures Later(s, Step(s, e), me)
  {
    hide RunOk, Covered, FromFeed, InsertIgnore;
    StepKeepsInv(s, e);
    if e.Write? && Alive(s, e.run) && s.runs[e.run].fetched.Some? {
      RunFetched(s, e.run);
      InsertKeeps(s, s.runs[e.run].fetched.value.0, s.runs[e.run].fetched.value.1);
    }
  }

  /** What others do: a run's own steps are left to it. */
  function OfOthers(events: seq<Event>, me: nat): seq<Event> {
    if events == [] then []
    else
      var last := events[|events| - 1];
      OfOthers(events[..|events| - 1], me) + if Of(last, me) then [] else [last]
  }

  /** Position b of the feed is where the cursor stands: right behind the trade it names. */
  predicate At(feed: seq<Trade>, c: Option<int>, b: nat) {
    0 < b <= |feed| && c == Some(feed[b - 1].id)
  }

  class World {
    var state: State
    var tape: seq<Tick>
    ghost var history: seq<Event>

    ghost predicate Valid()
      reads this
    {
      state == After(history)
    }

    constructor (tape: seq<Tick>)
      ensures Valid() && state == START && this.tape == tape
    {
      this.state, this.tape, history := START, tape, [];
    }

    /** One step; it becomes part of the history. */
    method Act(e: Event)
      requires Valid()
      modifies this`state, this`history
      ensures Valid() && state == Step(old(state), e) && history == old(history) + [e]
    {
      state := Step(state, e);
      history := history + [e];
      assert history[..|history| - 1] == old(history);
    }

    /** A wait of run `me`. */
    method Await(me: nat) returns (reply: Option<nat>, applied: bool)
      requires Valid() && me < |state.runs|
      modifies this
      ensures Valid() && Later(old(state), state, me) && (reply.Some? ==> applied)
      ensures if old(tape) == [] then tape == [] && reply == None
              else tape == old(tape)[1..] && reply == old(tape)[0].reply
      ensures history == old(history) + if old(tape) == [] then [] else OfOthers(old(tape)[0].others, me)
    {
      hide Inv, After;
      if tape == [] {
        return None, false;
      }
      var tick := tape[0];
      tape := tape[1..];
      for i := 0 to |tick.others|
        invariant Valid() && Later(old(state), state, me)
        invariant tape == old(tape)[1..]
        invariant history == old(history) + OfOthers(tick.others[..i], me)
      {
        assert tick.others[..i + 1][..i] == tick.others[..i];
        if !Of(tick.others[i], me) {
          OthersLeaveMe(state, tick.others[i], me);
          Act(tick.others[i]);
        }
      }
      assert tick.others[..|tick.others|] == tick.others;
      reply, applied := tick.reply, tick.reply.Some? || tick.applied;
    }

    /** The next page behind the run's cursor; no value when the request fails or runs out of time. */
    method GetTradesPage(me: nat) returns (rows: Option<seq<Trade>>, ghost lo: nat, ghost hi: nat)
      requires Valid() && Alive(state, me) && state.runs[me].fetched.None?
      modifies this
      ensures Valid() && Inv(state) && Grown(old(state), state) && Alive(state, me)
      ensures state.runs[me].start == old(state).runs[me].start && state.runs[me].reached == old(state).runs[me].reached
      ensures rows.None? ==> state.runs[me].fetched.None?
      ensures rows.Some? ==>
                && lo <= hi <= |state.feed| && hi - lo <= TRADES_PAGE_ROWS && rows.value == state.feed[lo..hi]
                && state.runs[me].fetched == (if lo == hi then None else Some((lo, hi)))
                && (state.runs[me].reached.Some? ==> lo == UpTo(state.feed, state.runs[me].reached.value))
                && (state.runs[me].reached.None? ==> lo == state.oldest)
      ensures Answered(old(tape)) ==> Answered(tape) && (rows.Some? || tape == [])
      ensures Full(old(tape)) ==> Full(tape) && (rows.Some? && hi - lo < TRADES_PAGE_ROWS ==> hi == |state.feed|)
    {
      hide Inv, RunOk, After;
      var reply, _ := Await(me);
      if reply.None? {
        return None, 0, 0;
      }
      Basics(state);
      var p := Page(state, state.runs[me].reached, reply.value);
      Act(Fetch(me, reply.value));
      lo, hi := p.0, p.1;
      rows := Some(state.feed[p.0..p.1]);
    }

    /** Writes the page read last; the insert happens or not as a whole, and may have happened when it
        fails. */
    method WriteTrades(me: nat) returns (ok: bool)
      requires Valid() && Alive(state, me) && state.runs[me].fetched.Some?
      modifies this
      ensures Valid() && Grown(old(state), state) && Alive(state, me)
      ensures Inv(old(state)) && Inv(state)
      ensures state.runs[me].start == old(state).runs[me].start
      ensures
        var (lo, hi) := old(state).runs[me].fetched.value;
        ok ==>
          && state.runs[me].fetched.None? && lo < hi <= |state.feed|
          && At(state.feed, state.runs[me].reached, hi)
          && forall i :: lo <= i < hi ==> Stored(state, i)
      ensures Answered(old(tape)) ==> Answered(tape) && (ok || tape == [])
      ensures Full(old(tape)) ==> Full(tape)
    {
      hide Inv, RunOk, After, Stored, At;
      var reply, applied := Await(me);
      ok := reply.Some?;
      if applied {
        ghost var before := state;
        Act(Write(me));
        WroteIt(before, state, me);
      }
    }

    /** Leaves the lock and ends. */
    method GiveUp(me: nat)
      requires Valid() && me < |state.runs|
      modifies this`state, this`history
      ensures Valid() && !Alive(state, me) && state.feed == old(state.feed) && state.rows == old(state.rows)
      ensures state.cursor == old(state.cursor) && Grown(old(state), state)
    {
      hide After, Inv;
      Act(Stop(me));
    }

    /** Saves the cursor the run reached and ends; a save that fails may have happened. */
    method SaveCursor(me: nat) returns (ok: bool)
      requires Valid() && Alive(state, me) && state.runs[me].fetched.None?
      requires state.runs[me].reached != state.runs[me].start
      modifies this
      ensures Valid() && Inv(old(state)) && Inv(state) && Grown(old(state), state) && !Alive(state, me)
      ensures ok ==> state.cursor == old(state).runs[me].reached
      ensures Answered(old(tape)) ==> Answered(tape) && (ok || tape == [])
    {
      hide After, RunOk;
      var reply, applied := Await(me);
      ok := reply.Some?;
      Act(if applied then Save(me) else Stop(me));
    }

    /** One turn of the page loop: reads a page, writes it and selects from it; an empty page ends
        the loop before that. No rows: the request or the write failed, and the run is over. */
    method PollPage(me: nat, settings: Settings, candidates: seq<Trade>, newCursor: Option<int>,
                    ghost cursor: Option<int>, ghost a: nat, ghost b: nat, ghost read: seq<Trade>)
      returns (rows: Option<seq<Trade>>, candidates': seq<Trade>, newCursor': Option<int>,
               ghost a': nat, ghost b': nat, ghost read': seq<Trade>)
      requires Valid() && Inv(state) && Alive(state, me) && state.runs[me].fetched.None?
      requires state.runs[me].start == cursor && state.runs[me].reached == newCursor
      requires Progress(state, cursor, newCursor, a, b, read) && candidates == Selected(read, settings)
      modifies this
      ensures Valid() && Inv(state) && Grown(old(state), state)
      ensures rows.None? ==> !Alive(state, me)
      ensures rows.Some? ==>
                && Alive(state, me) && state.runs[me].fetched.None?
                && state.runs[me].start == cursor && state.runs[me].reached == newCursor'
                && Progress(state, cursor, newCursor', a', b', read') && candidates' == Selected(read', settings)
                && |rows.value| <= TRADES_PAGE_ROWS && a' <= b' && b' - a' == b - a + |rows.value|
      ensures Answered(old(tape)) ==> Answered(tape) && (rows.Some? || tape == [])
      ensures Full(old(tape)) ==> Full(tape)
      ensures Full(old(tape)) && rows.Some? && |rows.value| < TRADES_PAGE_ROWS ==>
                CaughtUp(state, |old(state).feed|, cursor, a', b')
    {
      hide Inv, RunOk, After, Stored, Selected, At, Progress, Grown, UpTo, FreshOnly, StreamSelection.Latest,
           CaughtUp, Answered, Full;
      candidates', newCursor', a', b', read' := candidates, newCursor, a, b, read;
      ghost var begun := state;
      ghost var lo, hi;
      rows, lo, hi := GetTradesPage(me);
      ghost var before := state;
      ProgressStays(begun, before, cursor, newCursor, a, b, read);
      if rows.None? {
        GiveUp(me);
        GrownTwice(begun, before, state);
        return;
      }
      Ordered(before, cursor, newCursor, a, b, read);
      if rows.value == [] {
        if hi == |before.feed| {
          NothingLeft(begun, before, cursor, newCursor, a, b, read, lo);
        }
        return;
      }
      var written := WriteTrades(me);
      GrownTwice(begun, before, state);
      if !written {
        before := state;
        GiveUp(me);
        GrownTwice(begun, before, state);
        rows := None;
        return;
      }
      SelectedGrows(read, rows.value, settings);
      candidates' := StreamSelection.Latest(candidates + FreshOnly(rows.value, settings.cutoff),
                                            settings.topN, Recency());
      ProgressGrows(before, state, cursor, newCursor, a, b, read, lo, hi, state.runs[me].reached);
      LastRead(before, state, state.runs[me].reached, lo, hi);
      newCursor' := Some(rows.value[|rows.value| - 1].id);
      a', b', read' := if a == b then lo else a, hi, read + rows.value;
      if hi == |before.feed| {
        ReadToTheEnd(begun, before, state, cursor, newCursor', a', b', read');
      }
    }

    /** One run over the feed of the asset. A run that ends well has read, stored and selected
        from one unbroken stretch a..b of the feed, behind the cursor it loaded, and has saved
        where it got to; it hit the page limit exactly if every page was full. It does not take the
        saved cursor back if its first trade is not before that cursor. */
    method PollAsset(me: nat, settings: Settings)
      returns (ok: bool, published: seq<Trade>, hitPageLimit: bool, ghost a: nat, ghost b: nat)
      requires Valid() && Alive(state, me) && state.runs[me].fetched.None?
      requires state.runs[me].reached == state.runs[me].start
      modifies this
      ensures Valid() && Inv(state) && Grown(old(state), state) && !Alive(state, me)
      ensures ok ==>
                && a <= b <= |state.feed| && IsNewest(published, state.feed[a..b], settings)
                && (forall i :: a <= i < b ==> Stored(state, i))
                && (hitPageLimit <==> b - a == settings.pageLimit * TRADES_PAGE_ROWS)
                && (a < b && old(state).runs[me].start.Some? ==>
                      a == UpTo(state.feed, old(state).runs[me].start.value))
                && (a < b ==> state.cursor == Some(state.feed[b - 1].id))
      ensures Answered(old(tape)) && tape != [] ==> ok
      ensures Full(old(tape)) && ok && !hitPageLimit ==>
                CaughtUp(state, |old(state).feed|, old(state).runs[me].start, a, b)
      ensures ok && a < b && AtMost(old(state).cursor, Some(state.feed[a].id)) ==>
                AtMost(old(state).cursor, state.cursor)
    {
      hide Inv, RunOk, After, Stored, Selected, At, Progress, Grown, UpTo, CaughtUp, Answered, Full, IsNewest;
      var cursor := state.runs[me].start;
      ghost var begun, read := state, [];
      var candidates, newCursor;
      ok, candidates, newCursor, hitPageLimit, a, b, read := ReadPages(me, settings);
      if !ok {
        return false, [], false, 0, 0;
      }
      ghost var before := state;
      if newCursor != cursor {
        var saved := SaveCursor(me);
        GrownTwice(begun, before, state);
        if !saved {
          return false, [], false, 0, 0;
        }
      } else {
        GiveUp(me);
        GrownTwice(begun, before, state);
      }
      Concluded(before, state, cursor, newCursor, a, b, read);
      FeedStays(begun, before);
      if Full(old(tape)) && !hitPageLimit {
        CaughtUpStays(before, state, |begun.feed|, cursor, a, b);
      }
      Basics(state);
      StretchAscends(state.feed, a, b);
      SelectedIsNewest(read, settings);
      published := candidates;
    }

    /** The page loop. */
    method ReadPages(me: nat, settings: Settings)
      returns (ok: bool, candidates: seq<Trade>, newCursor: Option<int>, hitPageLimit: bool,
               ghost a: nat, ghost b: nat, ghost read: seq<Trade>)
      requires Valid() && Alive(state, me) && state.runs[me].fetched.None?
      requires state.runs[me].reached == state.runs[me].start
      modifies this
      ensures Valid() && Inv(state) && Grown(old(state), state)
      ensures !ok ==> !Alive(state, me)
      ensures ok ==>
                && Alive(state, me) && state.runs[me].fetched.None?
                && state.runs[me].start == old(state).runs[me].start && state.runs[me].reached == newCursor
                && Progress(state, old(state).runs[me].start, newCursor, a, b, read)
                && candidates == Selected(read, settings)
                && a <= b && (hitPageLimit <==> b - a == settings.pageLimit * TRADES_PAGE_ROWS)
      ensures Answered(old(tape)) ==> Answered(tape) && (ok || tape == [])
      ensures Full(old(tape)) && ok && !hitPageLimit ==>
                CaughtUp(state, |old(state).feed|, old(state).runs[me].start, a, b)
    {
      hide Inv, RunOk, After, Stored, Selected, At, Progress, Grown, UpTo, CaughtUp, Answered, Full;
      var cursor := state.runs[me].start;
      newCursor := cursor;
      candidates := [];
      var pages := 0;
      ok, hitPageLimit := true, true;
      a, b, read := 0, 0, [];
      ghost var begun := state;
      Nothing(state, cursor, settings);
      while pages < settings.pageLimit
        invariant Valid() && Inv(state) && Grown(begun, state)
        invariant Alive(state, me) && state.runs[me].fetched.None?
        invariant state.runs[me].start == cursor && state.runs[me].reached == newCursor
        invariant pages <= settings.pageLimit && hitPageLimit && ok
        invariant Progress(state, cursor, newCursor, a, b, read) && candidates == Selected(read, settings)
        invariant a <= b && b - a == pages * TRADES_PAGE_ROWS
        invariant Answered(old(tape)) ==> Answered(tape)
        invariant Full(old(tape)) ==> Full(tape)
      {
        ghost var before := state;
        var rows;
        rows, candidates, newCursor, a, b, read :=
          PollPage(me, settings, candidates, newCursor, cursor, a, b, read);
        GrownTwice(begun, before, state);
        if rows.None? {
          ok := false;
          return;
        }
        pages := pages + 1;
        if |rows.value| < TRADES_PAGE_ROWS {
          hitPageLimit := false;
          FeedStays(begun, before);
          if Full(old(tape)) {
            FewerCaughtUp(state, |before.feed|, |begun.feed|, cursor, a, b);
          }
          break;
        }
      }
    }

    /** Loads the asset with its cursor, then asks for the lock (`asked` is the state then); a busy lock
        ends the run. What it publishes are the newest trades of a stretch a..b of the feed that is
        stored, from the loaded cursor on. */
    method Poll(settings: Settings)
      returns (entered: bool, ok: bool, published: seq<Trade>, hitPageLimit: bool, ghost asked: State,
               ghost a: nat, ghost b: nat)
      requires Valid()
      modifies this
      ensures Valid() && Grown(old(state), state) && |old(state).runs| < |state.runs|
      ensures !Alive(state, |old(state).runs|)
      ensures asked == After(old(history) + [Begin] +
                             if old(tape) == [] then [] else OfOthers(old(tape)[0].others, |old(state).runs|))
      ensures entered <==> old(tape) != [] && old(tape)[0].reply.Some? && asked.holder.None?
      ensures if ok then entered else published == []
      ensures a <= b <= |state.feed| && IsNewest(published, state.feed[a..b], settings)
      ensures forall i :: a <= i < b ==> Stored(state, i)
      ensures ok ==> && (hitPageLimit <==> b - a == settings.pageLimit * TRADES_PAGE_ROWS)
                     && (a < b && old(state).cursor.Some? ==> a == UpTo(state.feed, old(state).cursor.value))
                     && (a < b ==> state.cursor == Some(state.feed[b - 1].id))
      ensures entered && Answered(old(tape)) && tape != [] ==> ok
      ensures Full(old(tape)) && ok && !hitPageLimit ==>
                CaughtUp(state, |old(state).feed|, old(state).cursor, a, b)
    {
      hide Inv, RunOk, After, Stored, Progress, Grown, Selected, IsNewest, CaughtUp, Answered, Full;
      var me := |state.runs|;
      ghost var begun, tape0 := state, tape;
      Nothing(state, None, settings);
      Begun(state);
      Act(Begin);
      ghost var before := state;
      var reply, _ := Await(me);
      AnsweredNext(tape0);
      GrownTwice(begun, before, state);
      before, asked := state, state;
      Asked(state, me);
      Act(if reply.None? then Stop(me) else Acquire(me));
      GrownTwice(begun, before, state);
      ok, published, hitPageLimit, a, b := false, [], false, 0, 0;
      NothingNewest(state.feed, settings);
      entered := state.runs[me].alive;
      if entered {
        before := state;
        ok, published, hitPageLimit, a, b := PollAsset(me, settings);
        RunsStay(before, state);
        FeedStays(begun, before);
        GrownTwice(begun, before, state);
        if !ok {
          published, a, b := [], 0, 0;
          NothingNewest(state.feed, settings);
        } else if Full(old(tape)) && !hitPageLimit {
          FewerCaughtUp(state, |before.feed|, |begun.feed|, begun.cursor, a, b);
        }
      }
    }
  }

  /** Runs one after another, each with its own settings, among any others. */
  method AfterAnyRuns(tape: seq<Tick>, settings: seq<Settings>)
    returns (feed: seq<Trade>, rows: map<int, Trade>, cursor: Option<int>, since: nat, ghost history: seq<Event>)
    ensures var s := After(history); feed == s.feed && rows == s.rows && cursor == s.cursor && |settings| <= |s.runs|
    ensures since <= |feed| && Ascending(feed)
    ensures forall i :: since <= i < |feed| && AtMost(Some(feed[i].id), cursor) ==>
              feed[i].id in rows && rows[feed[i].id] == feed[i]
    ensures forall id :: id in rows ==> rows[id] in feed && rows[id].id == id
  {
    hide After;
    var w := new World(tape);
    for i := 0 to |settings|
      invariant fresh(w) && w.Valid() && i <= |w.state.runs|
    {
      var entered, ok, published, hitPageLimit; ghost var asked, a, b;
      entered, ok, published, hitPageLimit, asked, a, b := w.Poll(settings[i]);
    }
    feed, rows, cursor, since := w.state.feed, w.state.rows, w.state.cursor, w.state.since;
    history := w.history;
    Conclusion(w.history);
  }

  lemma Conclusion(events: seq<Event>)
    ensures
      var s := After(events);
      && s.since <= |s.feed| && Ascending(s.feed)
      && (forall i :: s.since <= i < |s.feed| && AtMost(Some(s.feed[i].id), s.cursor) ==>
            s.feed[i].id in s.rows && s.rows[s.feed[i].id] == s.feed[i])
      && (forall id :: id in s.rows ==> s.rows[id] in s.feed && s.rows[id].id == id)
  {
    var s := After(events);
    ResumeInvariant(events);
    OnlyFeedTrades(events);
  }

  lemma Concluded(s: State, s': State, cursor: Option<int>, reached: Option<int>, a: nat, b: nat, read: seq<Trade>)
    requires Progress(s, cursor, reached, a, b, read) && Grown(s, s') && Inv(s) && Inv(s')
    ensures a <= b <= |s'.feed| && read == s'.feed[a..b] && forall i :: a <= i < b ==> Stored(s', i)
    ensures a < b ==> (cursor.Some? ==> a == UpTo(s'.feed, cursor.value)) && reached == Some(s'.feed[b - 1].id)
    ensures reached != cursor <==> a < b
  {
    ProgressStays(s, s', cursor, reached, a, b, read);
  }

  lemma LastRead(s: State, s': State, c: Option<int>, lo: nat, hi: nat)
    requires Grown(s, s') && lo < hi <= |s.feed| && At(s'.feed, c, hi)
    ensures c == Some(s.feed[lo..hi][hi - lo - 1].id)
  {
  }

  lemma RunsStay(s: State, s': State)
    requires Grown(s, s')
    ensures |s.runs| <= |s'.runs|
  {
  }

  lemma GrownTwice(s: State, s1: State, s2: State)
    requires Grown(s, s1) && Grown(s1, s2)
    ensures Grown(s, s2)
  {
  }

  lemma Nothing(s: State, cursor: Option<int>, settings: Settings)
    ensures Selected([], settings) == [] && Progress(s, cursor, cursor, 0, 0, []) && Grown(s, s)
  {
  }

  lemma StretchAscends(feed: seq<Trade>, a: nat, b: nat)
    requires Ascending(feed) && a <= b <= |feed|
    ensures Ascending(feed[a..b])
  {
  }

  lemma NothingNewest(feed: seq<Trade>, settings: Settings)
    ensures IsNewest([], feed[0..0], settings)
  {
    assert feed[0..0] == [] && Selected([], settings) == [];
    SelectedIsNewest([], settings);
  }

  lemma Begun(s: State)
    requires Inv(s)
    ensures
      var t := Step(s, Begin);
      && Grown(s, t) && t.runs == s.runs + [Run(s.cursor, s.cursor, None, true, s.since)]
  {
  }

  /** A run that stops or asks for the lock changes neither rows nor feed. */
  lemma Asked(s: State, me: nat)
    requires Inv(s) && Loaded(s, me)
    ensures Grown(s, Step(s, Stop(me))) && !Alive(Step(s, Stop(me)), me) && |Step(s, Stop(me)).runs| == |s.runs|
    ensures Grown(s, Step(s, Acquire(me))) && |Step(s, Acquire(me)).runs| == |s.runs|
    ensures Alive(Step(s, Acquire(me)), me) ==> Step(s, Acquire(me)).runs[me] == s.runs[me]
    ensures Alive(Step(s, Acquire(me)), me) <==> s.holder.None?
  {
  }

  lemma Ordered(s: State, cursor: Option<int>, reached: Option<int>, a: nat, b: nat, read: seq<Trade>)
    requires Progress(s, cursor, reached, a, b, read)
    ensures a <= b
  {
  }

  lemma Basics(s: State)
    requires Inv(s)
    ensures Ascending(s.feed) && s.oldest <= |s.feed|
  {
  }

  /** A cursor stands right behind its trade, also when the feed has grown. */
  lemma CursorStands(feed: seq<Trade>, feed': seq<Trade>, c: Option<int>, b: nat)
    requires At(feed, c, b) && feed <= feed' && Ascending(feed')
    ensures At(feed', c, b) && UpTo(feed', c.value) == b
  {
    assert feed'[b - 1] == feed[b - 1];
    assert b < |feed'| ==> feed'[b].id > feed'[b - 1].id;
  }

  lemma UpToStands(feed: seq<Trade>, feed': seq<Trade>, c: int)
    requires feed <= feed' && Ascending(feed') && Ascending(feed) && UpTo(feed, c) < |feed|
    ensures UpTo(feed', c) == UpTo(feed, c)
  {
    var n := UpTo(feed, c);
    assert feed'[n] == feed[n];
    if n > 0 {
      assert feed'[n - 1] == feed[n - 1];
    }
  }

  /** Rows, trades and runs only come. */
  ghost predicate Grown(s: State, s': State) {
    && s.feed <= s'.feed && |s.runs| <= |s'.runs| && s.oldest <= s'.oldest
    && forall id :: id in s.rows ==> id in s'.rows && s'.rows[id] == s.rows[id]
  }

  /** A run that loaded `cursor` stands at `reached`, having read and stored `read`: the feed from
      a to b. */
  ghost predicate Progress(s: State, cursor: Option<int>, reached: Option<int>, a: nat, b: nat, read: seq<Trade>) {
    && a <= b <= |s.feed| && read == s.feed[a..b] && (forall i :: a <= i < b ==> Stored(s, i))
    && (a < b ==> At(s.feed, reached, b)) && (a == b ==> reached == cursor)
    && (a < b && cursor.Some? ==> a == UpTo(s.feed, cursor.value))
    && (a < b && cursor.None? ==> a <= s.oldest)
  }

  /** Of the first n trades, those behind the cursor (or, without one, still given out) are in a..b. */
  ghost predicate CaughtUp(s: State, n: nat, cursor: Option<int>, a: nat, b: nat) {
    forall i :: 0 <= i < n && i < |s.feed| && Due(s, i, cursor) ==> a <= i < b
  }

  predicate Due(s: State, i: nat, cursor: Option<int>)
    requires i < |s.feed|
  {
    if cursor.Some? then s.feed[i].id > cursor.value else i >= s.oldest
  }

  lemma CaughtUpStays(s: State, s': State, n: nat, cursor: Option<int>, a: nat, b: nat)
    requires CaughtUp(s, n, cursor, a, b) && Grown(s, s') && n <= |s.feed|
    ensures CaughtUp(s', n, cursor, a, b)
  {
    forall i | 0 <= i < n && Due(s', i, cursor) ensures a <= i < b {
      assert s'.feed[i] == s.feed[i];
      assert Due(s, i, cursor);
    }
  }

  lemma FewerCaughtUp(s: State, n: nat, m: nat, cursor: Option<int>, a: nat, b: nat)
    requires CaughtUp(s, n, cursor, a, b) && m <= n
    ensures CaughtUp(s, m, cursor, a, b)
  {
  }

  lemma FeedStays(s: State, s': State)
    requires Grown(s, s')
    ensures |s.feed| <= |s'.feed|
  {
  }

  /** An empty page at the end of the feed: what has been read is all there is. */
  lemma NothingLeft(s: State, s': State, cursor: Option<int>, reached: Option<int>, a: nat, b: nat, read: seq<Trade>,
                    lo: nat)
    requires Progress(s', cursor, reached, a, b, read) && Grown(s, s') && Inv(s') && lo == |s'.feed|
    requires if reached.Some? then lo == UpTo(s'.feed, reached.value) else lo == s'.oldest
    ensures CaughtUp(s', |s.feed|, cursor, a, b)
  {
    Basics(s');
    if a < b {
      CursorStands(s'.feed, s'.feed, reached, b);
    }
  }

  lemma ReadToTheEnd(s: State, s': State, s'': State, cursor: Option<int>, reached: Option<int>, a: nat, b: nat,
                     read: seq<Trade>)
    requires Progress(s'', cursor, reached, a, b, read) && Grown(s, s') && Grown(s', s'') && Inv(s'')
    requires b == |s'.feed| && a < b
    ensures CaughtUp(s'', |s.feed|, cursor, a, b)
  {
    Basics(s'');
  }

  lemma ProgressStays(s: State, s': State, cursor: Option<int>, reached: Option<int>, a: nat, b: nat, read: seq<Trade>)
    requires Progress(s, cursor, reached, a, b, read) && Grown(s, s') && Inv(s) && Inv(s')
    ensures Progress(s', cursor, reached, a, b, read)
  {
    Basics(s);
    Basics(s');
    hide Inv, FromFeed, Ascending;
    assert s'.feed[a..b] == s.feed[a..b];
    forall i | a <= i < b ensures Stored(s', i) {
      assert Stored(s, i) && s'.feed[i] == s.feed[i];
    }
    if a < b {
      CursorStands(s.feed, s'.feed, reached, b);
      if cursor.Some? {
        UpToStands(s.feed, s'.feed, cursor.value);
      }
    }
  }

  lemma ProgressGrows(s: State, s': State, cursor: Option<int>, reached: Option<int>, a: nat, b: nat,
                      read: seq<Trade>, lo: nat, hi: nat, next: Option<int>)
    requires Progress(s, cursor, reached, a, b, read) && Grown(s, s') && Inv(s) && Inv(s')
    requires lo < hi <= |s.feed| && (reached.Some? ==> lo == UpTo(s.feed, reached.value))
    requires At(s'.feed, next, hi) && forall i :: lo <= i < hi ==> Stored(s', i)
    requires reached.None? ==> lo <= s.oldest
    ensures
      var a' := if a == b then lo else a;
      Progress(s', cursor, next, a', hi, read + s.feed[lo..hi]) && (a < b ==> lo == b)
  {
    hide Inv, FromFeed, Ascending, Stored, UpTo, At;
    ProgressStays(s, s', cursor, reached, a, b, read);
    Basics(s);
    Basics(s');
    if reached.Some? {
      UpToStands(s.feed, s'.feed, reached.value);
    }
    assert s'.feed[lo..hi] == s.feed[lo..hi];
    if a < b {
      CursorStands(s'.feed, s'.feed, reached, b);
      assert s'.feed[a..hi] == s'.feed[a..b] + s'.feed[lo..hi];
    } else {
      assert read + s.feed[lo..hi] == s'.feed[lo..hi];
    }
  }

  /** Selecting from the page after what was selected from the pages before. */
  lemma SelectedGrows(read: seq<Trade>, page: seq<Trade>, settings: Settings)
    ensures StreamSelection.Latest(Selected(read, settings) + FreshOnly(page, settings.cutoff),
                                   settings.topN, Recency())
            == Selected(read + page, settings)
  {
    FreshAppend(read, page, settings.cutoff);
    StreamSelection.LatestIsIncremental(FreshOnly(read, settings.cutoff), FreshOnly(page, settings.cutoff),
                                        settings.topN, Recency());
  }

  lemma WroteIt(s: State, s': State, me: nat)
    requires Inv(s) && Alive(s, me) && s.runs[me].fetched.Some? && s' == Step(s, Write(me))
    ensures
      var (lo, hi) := s.runs[me].fetched.value;
      lo < hi <= |s.feed| && Grown(s, s') && s'.feed == s.feed && At(s'.feed, s'.runs[me].reached, hi)
      && forall i :: lo <= i < hi ==> Stored(s', i)
  {
    hide Covered, FromFeed, Behind, InsertIgnore, AtMost, Stored, Ascending;
    var (lo, hi) := s.runs[me].fetched.value;
    assert RunOk(s, s.runs[me]);
    InsertKeeps(s, lo, hi);
    SameRows(s.(rows := s'.rows), s');
  }
}
