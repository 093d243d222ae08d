/** The command `consume_market_data_stream` in its own control flow, run against a world in
    which anything may happen at an `await`: the producer adds entries and trims, a command is
    lost before or after the server saw it, the process is killed, clocks read anything.

    A run is driven by a tape with one entry per `await`; every finite tape is allowed, so what
    holds at the end of `Supervise` holds in every reachable state. */
module TradePipeline {
  import opened Wrappers
  import opened Tables
  import opened TradeStream

  /** What becomes of one command sent at an `await`. */
  datatype Reply = Ok | LostAfter | LostBefore | Refused | KilledBefore | KilledAfter

  predicate Applied(r: Reply) { r.Ok? || r.LostAfter? || r.KilledAfter? }

  predicate Killed(r: Reply) { r.KilledBefore? || r.KilledAfter? }

  datatype Tick = Tick(adds: seq<Add>, reply: Reply, monotonic: int, now: int, upTo: nat)

  /** How a call of the command ends: normally, with a transient Redis error, or for good. */
  datatype Outcome = Fine | Transient | Dead

  function Ending(r: Reply): Outcome {
    match r
    case Ok => Fine
    case LostAfter => Transient
    case LostBefore => Transient
    case _ => Dead
  }

  /** The reply to the i-th command still to be sent; past its end the tape kills the process. */
  function ReplyAt(tape: seq<Tick>, i: nat): Reply {
    if i < |tape| then tape[i].reply else KilledBefore
  }

  /** The log after some adds; an entry whose id is not later than the last one is not added. */
  function Grow(added: seq<Entry>, adds: seq<Add>): seq<Entry>
    decreases adds
  {
    if adds == [] then added
    else Grow(if MayAdd(added, adds[0]) then added + [Entry(adds[0].id, adds[0].fields)] else added, adds[1..])
  }

  /** The log at the end of a tape. */
  function Log(added: seq<Entry>, tape: seq<Tick>): seq<Entry>
    decreases tape
  {
    if tape == [] then added else Log(Grow(added, tape[0].adds), tape[1..])
  }

  /** All that is added, in order. */
  function Entries(tape: seq<Tick>): seq<Entry> {
    if tape == [] then [] else EntriesOf(tape[0].adds) + Entries(tape[1..])
  }

  function EntriesOf(adds: seq<Add>): seq<Entry> {
    seq(|adds|, i requires 0 <= i < |adds| => Entry(adds[i].id, adds[i].fields))
  }

  /** With ascending ids, as a server assigns them, the log is all that is added. */
  lemma {:induction false} LogHasAll(added: seq<Entry>, tape: seq<Tick>)
    requires Ordered(added + Entries(tape))
    ensures Log(added, tape) == added + Entries(tape)
    decreases tape
  {
    if tape == [] {
    } else {
      var a, b := EntriesOf(tape[0].adds), Entries(tape[1..]);
      assert added + (a + b) == (added + a) + b;
      assert forall i :: 0 <= i < |added + a| ==> (added + a)[i] == ((added + a) + b)[i];
      GrowHasAll(added, tape[0].adds);
      LogHasAll(added + a, tape[1..]);
    }
  }

  lemma {:induction false} GrowHasAll(added: seq<Entry>, adds: seq<Add>)
    requires Ordered(added + EntriesOf(adds))
    ensures Grow(added, adds) == added + EntriesOf(adds)
    decreases adds
  {
    if adds == [] {
    } else {
      var all, n := added + EntriesOf(adds), |added|;
      assert all[n] == Entry(adds[0].id, adds[0].fields);
      assert added != [] ==> Before(all[n - 1].id, all[n].id);
      assert EntriesOf(adds) == [all[n]] + EntriesOf(adds[1..]);
      assert all == (added + [all[n]]) + EntriesOf(adds[1..]);
      GrowHasAll(added + [all[n]], adds[1..]);
    }
  }

  /** The last `calm` ticks: nothing is added and every command succeeds. */
  predicate CalmEnd(tape: seq<Tick>, calm: nat) {
    forall i :: 0 <= i < |tape| && |tape| - calm <= i ==> tape[i].adds == [] && tape[i].reply == Ok
  }

  predicate AllOk(tape: seq<Tick>) {
    forall t :: t in tape ==> t.reply == Ok
  }

  /** What is still to come: the log becomes `whole`, the tape ends calmly, and if `reliable` it is
      all well. */
  ghost predicate Ahead(added: seq<Entry>, tape: seq<Tick>, whole: seq<Entry>, reliable: bool, calm: nat) {
    Log(added, tape) == whole && CalmEnd(tape, calm) && (reliable ==> AllOk(tape))
  }

  lemma {:induction false} GrowGrows(added: seq<Entry>, adds: seq<Add>)
    ensures added <= Grow(added, adds)
    decreases adds
  {
    if adds != [] {
      var a := adds[0];
      GrowGrows(if MayAdd(added, a) then added + [Entry(a.id, a.fields)] else added, adds[1..]);
    }
  }

  lemma {:induction false} LogGrows(added: seq<Entry>, tape: seq<Tick>)
    ensures added <= Log(added, tape)
    decreases tape
  {
    if tape != [] {
      GrowGrows(added, tape[0].adds);
      LogGrows(Grow(added, tape[0].adds), tape[1..]);
    }
  }

  /** The next tick. */
  lemma TickAhead(added: seq<Entry>, tape: seq<Tick>, whole: seq<Entry>, reliable: bool, calm: nat)
    requires Ahead(added, tape, whole, reliable, calm) && tape != []
    ensures Ahead(Grow(added, tape[0].adds), tape[1..], whole, reliable, calm)
    ensures reliable ==> tape[0].reply == Ok
    ensures |tape| <= calm ==> tape[0].reply == Ok && tape[0].adds == []
  {
    assert tape[0] in tape;
    assert forall t :: t in tape[1..] ==> t in tape;
  }

  /** At most k ticks were taken off the front. */
  predicate Passed(before: seq<Tick>, after: seq<Tick>, k: nat) {
    |after| <= |before| <= |after| + k && after == before[|before| - |after|..]
  }

  lemma PassedTwice(a: seq<Tick>, b: seq<Tick>, c: seq<Tick>, j: nat, k: nat)
    requires Passed(a, b, j) && Passed(b, c, k)
    ensures Passed(a, c, j + k)
  {
  }

  /** Entries still to be acknowledged. */
  function Work(s: State): int { |s.pending| + |s.added| - FirstNew(s) }

  /** Ticks enough for one entry: read, look up, insert, acknowledge, read the clock, trim. */
  const RATE := 6

  const SLACK := 14

  /** Once only `calm` ticks are left the work gets done in the ticks that pass. */
  predicate OnTrack(left: nat, calm: nat, work: int, most: nat, slack: nat) {
    left <= calm ==> work == 0 || left + RATE * (most - work) + slack >= calm
  }

  /** Some ticks pass; within the calm end no work is added. */
  lemma TicksPass(left: nat, left': nat, calm: nat, work: int, work': int, most: nat, slack: nat)
    requires OnTrack(left, calm, work, most, slack) && left' <= left && 0 <= work' <= most
    requires left <= calm ==> work' <= work
    ensures OnTrack(left', calm, work', most, slack + left - left')
  {
  }

  /** A turn of at most RATE ticks; within the calm end it gets something done. */
  lemma TurnPasses(left: nat, left': nat, calm: nat, work: int, work': int, most: nat, slack: nat)
    requires OnTrack(left, calm, work, most, slack) && left' <= left <= left' + RATE && slack >= RATE
    requires 0 <= work' <= most && (left <= calm ==> work' == 0 || work' < work)
    ensures OnTrack(left', calm, work', most, slack)
  {
  }

  lemma {:induction false} AscendingIsShort(s: seq<nat>, bound: nat)
    requires Ascending(s) && forall n :: n in s ==> n < bound
    ensures |s| <= bound
  {
    if s != [] {
      var init, last := s[..|s| - 1], s[|s| - 1];
      assert last in s;
      forall n | n in init ensures n < last {
        var i :| 0 <= i < |init| && init[i] == n;
        assert s[i] < s[|s| - 1];
      }
      AscendingIsShort(init, last);
    }
  }

  lemma WorkBounds(s: State, config: Config, assets: map<string, int>)
    requires Inv(s, config, assets)
    ensures 0 <= Work(s) <= |s.added|
  {
    AscendingIsShort(s.pending, s.next);
  }

  /** Reading moves work from the log to the pending list. */
  lemma DeliverWork(s: State, count: int)
    requires |s.removal| <= |s.added| && s.next <= |s.added|
    ensures Work(Deliver(s, count)) == Work(s)
    ensures NewNumbers(s, count) == [] ==> FirstNew(s) == |s.added|
  {
  }

  class World {
    const config: Config
    const assets: map<string, int>
    var s: State
    var tape: seq<Tick>
    /** For the statements only: the log at the end, whether every reply is Ok, and how long the
        calm end of the tape is. */
    ghost const whole: seq<Entry>
    ghost const reliable: bool
    ghost const calm: nat

    ghost predicate Valid()
      reads this
    {
      Inv(s, config, assets) && Ahead(s.added, tape, whole, reliable, calm)
    }

    /** With `left` ticks left, commands succeed until the tape ends. */
    ghost predicate Fair(left: nat) { reliable || left <= calm }

    ghost predicate Track(slack: nat)
      reads this
    {
      OnTrack(|tape|, calm, Work(s), |whole|, slack)
    }

    /** Between two connections. */
    ghost predicate Well()
      reads this
    {
      && Track(SLACK) && (tape != [] ==> Track(RATE))
      && (reliable ==> s.failed == {} && s.truncated == {} && (tape == [] || s.pending == []))
    }

    lemma WorkIsBounded()
      requires Valid()
      ensures 0 <= Work(s) <= |whole|
    {
      WorkBounds(s, config, assets);
      LogGrows(s.added, tape);
    }

    constructor (config: Config, assets: map<string, int>, tape: seq<Tick>, ghost calm: nat)
      requires CalmEnd(tape, calm)
      ensures Valid() && s == START && Well()
      ensures this.config == config && this.assets == assets && this.tape == tape
      ensures whole == Log([], tape) && reliable == AllOk(tape) && this.calm == calm
    {
      this.config, this.assets, this.tape, this.s := config, assets, tape, START;
      whole, reliable, this.calm := Log([], tape), AllOk(tape), calm;
    }

    /** Other processes run; then the tape says what becomes of this command. */
    method Await() returns (t: Tick)
      requires Valid()
      modifies this
      ensures Valid() && OnlyProducer(old(s), s) && t.reply == ReplyAt(old(tape), 0)
      ensures if old(tape) == [] then tape == [] else tape == old(tape)[1..] && t == old(tape)[0]
      ensures old(tape) != [] && Fair(|old(tape)|) ==> t.reply == Ok
      ensures |old(tape)| <= calm ==> s == old(s)
    {
      hide Inv, Ahead, MayAdd, XAdd;
      if tape == [] {
        return Tick([], KilledBefore, 0, 0, 0);
      }
      TickAhead(s.added, tape, whole, reliable, calm);
      t, tape := tape[0], tape[1..];
      for i := 0 to |t.adds|
        invariant Inv(s, config, assets) && OnlyProducer(old(s), s) && tape == old(tape)[1..]
        invariant Grow(s.added, t.adds[i..]) == Grow(old(s).added, t.adds)
        invariant t.adds == [] ==> s == old(s)
      {
        assert t.adds[i..][0] == t.adds[i] && t.adds[i..][1..] == t.adds[i + 1..];
        if MayAdd(s.added, t.adds[i]) {
          AddKeepsInv(s, t.adds[i], config, assets);
          s := XAdd(s, t.adds[i], config);
        }
      }
    }

    method XReadGroupNew() returns (reply: Reply, batch: seq<Message>, ghost before: State)
      requires Valid()
      modifies this
      ensures Valid() && OnlyProducer(old(s), before) && InHand(s, batch) && Truncated(batch) == {}
      ensures Passed(old(tape), tape, 1) && (|tape| < |old(tape)| || reply == KilledBefore)
      ensures old(tape) != [] && Fair(|old(tape)|) ==> reply == Ok
      ensures |old(tape)| <= calm ==> before == old(s)
      ensures |before.removal| <= |before.added| && before.next <= |before.added|
      ensures s == if Applied(reply) then Deliver(before, config.readCount) else before
      ensures reply == Ok ==> Numbers(batch) == NewNumbers(before, config.readCount)
      ensures reply == Ok && old(s).pending == [] ==> s.pending == Numbers(batch)
      ensures old(s).added <= s.added && old(s).next <= s.next && old(s).removal <= s.removal && Untrimmed(old(s), s)
      ensures reply != Ok ==> batch == []
      ensures reply == Ok && batch == [] ==> s.next == old(s).next
      ensures batch != [] ==> 0 < s.next <= |s.added| && batch[|batch| - 1].id == s.added[s.next - 1].id
      ensures s.failed == old(s).failed && s.truncated == old(s).truncated
    {
      hide Ahead, Inv, InHand, Deliver, NewNumbers, Truncated, Messages;
      var t := Await();
      reply, batch, before := t.reply, [], s;
      InRange(s, config, assets);
      Handing(s, config.readCount, config, assets);
      if Applied(reply) {
        if reply == Ok {
          batch := Messages(s, NewNumbers(s, config.readCount));
        }
        s := Deliver(s, config.readCount);
      }
      NoneInHand(s);
    }

    method XReadGroupPending() returns (reply: Reply, batch: seq<Message>)
      requires Valid()
      modifies this
      ensures Valid() && OnlyProducer(old(s), s) && InHand(s, batch)
      ensures |tape| <= |old(tape)| <= |tape| + 1
      ensures old(tape) != [] && Fair(|old(tape)|) ==> reply == Ok
      ensures old(tape) == [] ==> Killed(reply)
      ensures |old(tape)| <= calm ==> s == old(s)
      ensures reply == Ok ==> Numbers(batch) == ReplayNumbers(s, config.readCount)
      ensures reply != Ok ==> batch == []
    {
      hide Ahead;
      var t := Await();
      reply, batch := t.reply, [];
      if reply == Ok {
        ReplayInHand(s, config.readCount, config, assets);
        batch := Messages(s, ReplayNumbers(s, config.readCount));
      }
    }

    method XAck(batch: seq<Message>) returns (reply: Reply)
      requires Valid() && InHand(s, batch) && Attempted(s, batch)
      modifies this
      ensures Valid() && Passed(old(tape), tape, 1)
      ensures old(tape) != [] && Fair(|old(tape)|) ==> reply == Ok
      ensures old(tape) == [] ==> Killed(reply)
      ensures OnlyProducer(if Applied(reply) then Ack(old(s), set n | n in Numbers(batch)) else old(s), s)
      ensures |old(tape)| <= calm ==> s.added == old(s).added && s.removal == old(s).removal
      ensures Untrimmed(old(s), s) && old(s).added <= s.added && s.next == old(s).next
      ensures reply == Ok && Numbers(batch) == old(s).pending ==> s.pending == []
      ensures reply == Ok ==> forall m :: m in batch ==> m.number in s.acked
      ensures reply == Ok && batch != [] ==> |s.pending| < |old(s).pending|
    {
      hide Ahead;
      var t := Await();
      reply := t.reply;
      if Applied(reply) {
        AckKeepsInv(s, batch, config, assets);
        WithoutAll(Numbers(batch), set n | n in Numbers(batch));
        s := Ack(s, set n | n in Numbers(batch));
      }
    }

    /** The insert: one transaction. `batch` is where the rows come from, for the history only. */
    method BulkCreate(snapshots: seq<(RowKey, TradeEvent)>, batch: seq<Message>) returns (reply: Reply)
      requires Valid() && InHand(s, batch) && snapshots == Snapshots(batch, assets)
      modifies this
      ensures Valid() && InHand(s, batch) && Passed(old(tape), tape, 1)
      ensures reply == ReplyAt(old(tape), 0)
      ensures old(tape) != [] && Fair(|old(tape)|) ==> reply == Ok
      ensures OnlyProducer(Effected(old(s), batch, assets, InsertEffect(reply)), s)
      ensures |old(tape)| <= calm ==> s == Effected(old(s), batch, assets, InsertEffect(reply))
      ensures !Killed(reply) ==> Attempted(s, batch)
    {
      hide Ahead, Inv, InHand, InsertIgnore, Readable, Truncated, Attempted, Untrimmed, SameGroup;
      ghost var begun := s;
      var t := Await();
      reply := t.reply;
      ProducerKeeps(begun, s, batch);
      WriteAttempts(s, batch, assets);
      if Applied(reply) {
        WriteKeepsInv(s, batch, config, assets);
        s := Write(s, batch, assets).(rows := InsertIgnore(s.rows, snapshots));
      } else if !Killed(reply) {
        FailWriteKeepsInv(s, batch, config, assets);
        s := FailWrite(s, batch);
      }
    }

    /** XTRIM MINID ~: removes any prefix of what lies before the boundary. */
    method XTrim(last: Id, now: int) returns (reply: Reply, ghost before: State)
      requires Valid() && s.pending == []
      requires exists n :: 0 <= n < s.next && s.added[n].id == last
      modifies this
      ensures Valid() && OnlyProducer(old(s), before)
      ensures reply == ReplyAt(old(tape), 0)
      ensures s == Trimmed(before, Min(last.ms, now - config.gapMs), now, old(tape))
      ensures Passed(old(tape), tape, 1)
      ensures old(tape) != [] && Fair(|old(tape)|) ==> reply == Ok
      ensures |old(tape)| <= calm ==> before == old(s)
    {
      hide Ahead;
      var t := Await();
      reply, before := t.reply, s;
      if Applied(reply) && MayTrim(s, Min(last.ms, now - config.gapMs), t.upTo) {
        GapTrimKeepsInv(s, last, now, t.upTo, config, assets);
        s := Trim(s, t.upTo, ByGap(now));
      }
    }
  }

  /** A trim sent next: the server may remove any prefix of what lies before the boundary. */
  function Trimmed(s: State, boundary: int, now: int, tape: seq<Tick>): State {
    if tape != [] && Applied(tape[0].reply) && MayTrim(s, boundary, tape[0].upTo)
    then Trim(s, tape[0].upTo, ByGap(now))
    else s
  }

  /** What a write of a batch did to the table. */
  datatype Effect = Wrote | Raised | Nothing

  function InsertEffect(r: Reply): Effect {
    if Applied(r) then Wrote else if Killed(r) then Nothing else Raised
  }

  /** The write of a batch with these trades, given the replies to its lookup and its insert. */
  function WriteEffect(events: seq<TradeEvent>, lookup: Reply, insert: Reply): Effect {
    if events == [] then Wrote
    else if lookup == Ok then InsertEffect(insert)
    else if Killed(lookup) then Nothing
    else Raised
  }

  function WriteReply(events: seq<TradeEvent>, lookup: Reply, insert: Reply): Reply {
    if events == [] then Ok
    else if lookup == Ok then insert
    else if Killed(lookup) then lookup
    else Refused
  }

  function Effected(s: State, batch: seq<Message>, assets: map<string, int>, e: Effect): State {
    match e
    case Wrote => Write(s, batch, assets)
    case Raised => FailWrite(s, batch)
    case Nothing => s
  }

  /** The producer's changes and those of a write do not depend on each other. */
  lemma EffectLater(s: State, t: State, u: State, batch: seq<Message>, assets: map<string, int>, e: Effect)
    requires OnlyProducer(s, t) && OnlyProducer(Effected(t, batch, assets, e), u)
    ensures OnlyProducer(Effected(s, batch, assets, e), u)
  {
    hide InsertIgnore, Snapshots, Readable, Truncated;
  }

  lemma EffectKeeps(s: State, t: State, batch: seq<Message>, assets: map<string, int>, e: Effect)
    requires OnlyProducer(Effected(s, batch, assets, e), t)
    ensures SameGroup(s, t) && Untrimmed(s, t)
    ensures var done := Effected(s, batch, assets, e); done.added == s.added && done.removal == s.removal
    ensures t.written == s.written + if e == Wrote then Readable(batch) else {}
    ensures t.failed == s.failed + if e == Raised then Readable(batch) else {}
    ensures s.truncated <= t.truncated <= s.truncated + Truncated(batch)
    ensures t.rows == if e == Wrote then InsertIgnore(s.rows, Snapshots(batch, assets)) else s.rows
  {
    hide InsertIgnore, Snapshots, Readable, Truncated;
  }

  lemma NoneInHand(s: State)
    ensures InHand(s, []) && Truncated([]) == {}
  {
  }

  lemma Handing(s: State, count: int, config: Config, assets: map<string, int>)
    requires Inv(s, config, assets) && |s.removal| <= |s.added| && s.next <= |s.added|
    ensures forall n :: n in NewNumbers(s, count) ==> n < |s.added|
    ensures var t, batch := Deliver(s, count), Messages(s, NewNumbers(s, count));
            && Inv(t, config, assets) && InHand(t, batch) && Truncated(batch) == {}
            && t == s.(next := t.next, pending := t.pending) && s.next <= t.next
            && Numbers(batch) == NewNumbers(s, count)
            && (s.pending == [] ==> t.pending == Numbers(batch)) && (batch == [] ==> t.next == s.next)
            && (batch != [] ==> 0 < t.next <= |s.added| && batch[|batch| - 1].id == s.added[t.next - 1].id)
  {
    hide Inv, InHand, Truncated;
    DeliverKeepsInv(s, count, config, assets);
    NewIsReadable(s, count);
  }

  /** What is read for the first time is still in the log. */
  lemma NewIsReadable(s: State, count: int)
    requires |s.removal| <= |s.added| && s.next <= |s.added|
    requires forall n :: n in NewNumbers(s, count) ==> n < |s.added|
    ensures Truncated(Messages(s, NewNumbers(s, count))) == {}
  {
    var batch := Messages(s, NewNumbers(s, count));
    forall m | m in batch ensures m.fields.Some? {
      var i :| 0 <= i < |batch| && batch[i] == m;
    }
  }

  ghost predicate Delivered(last: Option<Id>, s: State) {
    last.Some? ==> exists n :: 0 <= n < s.next && n < |s.added| && s.added[n].id == last.value
  }

  /** From s to t only the producer removed entries. */
  ghost predicate Untrimmed(s: State, t: State) {
    s.removal <= t.removal && forall n :: |s.removal| <= n < |t.removal| ==> t.removal[n].ByCeiling?
  }

  lemma UntrimmedTwice(s: State, t: State, u: State)
    requires Untrimmed(s, t) && Untrimmed(t, u)
    ensures Untrimmed(s, u) && s.removal <= t.removal <= u.removal
  {
  }

  lemma Same(s: State)
    ensures Untrimmed(s, s)
  {
  }

  lemma Producing(s: State, t: State)
    requires OnlyProducer(s, t)
    ensures Untrimmed(s, t) && s.removal <= t.removal && s.added <= t.added
    ensures t.pending == s.pending && t.failed == s.failed && t.truncated == s.truncated
  {
  }

  lemma DeliveredStays(last: Option<Id>, s: State, s': State)
    requires Delivered(last, s) && s.added <= s'.added && s.next <= s'.next
    ensures Delivered(last, s')
  {
    if last.Some? {
      var n :| 0 <= n < s.next && n < |s.added| && s.added[n].id == last.value;
      assert s'.added[n] == s.added[n];
    }
  }

  lemma ProducerDelivered(last: Option<Id>, s: State, t: State)
    requires Delivered(last, s) && OnlyProducer(s, t)
    ensures Delivered(last, t)
  {
    DeliveredStays(last, s, t);
  }

  lemma NobodyPending(batch: seq<Message>)
    requires batch == []
    ensures Numbers(batch) == []
  {
  }

  /** The trimmer knows entry n, or a later one, as written. */
  ghost predicate Noted(last: Option<Id>, s: State, n: nat) {
    n < |s.added| && last.Some? && !Before(last.value, s.added[n].id)
  }

  lemma LaterDelivered(a: Option<Id>, b: Option<Id>, s: State)
    requires Delivered(a, s) && Delivered(b, s)
    ensures Delivered(Later(a, b), s)
  {
  }

  lemma NotedStays(last: Option<Id>, id: Option<Id>, s: State, t: State, n: nat)
    requires Noted(last, s, n) && s.added <= t.added
    ensures Noted(Later(last, id), t, n)
  {
    assert t.added[n] == s.added[n];
  }

  lemma NotedLater(last: Option<Id>, id: Option<Id>, s: State, t: State)
    requires s.added <= t.added
    ensures forall n :: Noted(last, s, n) ==> Noted(Later(last, id), t, n)
  {
    forall n | Noted(last, s, n) ensures Noted(Later(last, id), t, n) {
      NotedStays(last, id, s, t, n);
    }
  }

  /** The last id of a replayed batch notes all of it. */
  lemma BatchNoted(s: State, t: State, batch: seq<Message>, last: Option<Id>, config: Config, assets: map<string, int>)
    requires Inv(s, config, assets) && InHand(s, batch) && batch != [] && s.added <= t.added
    requires Numbers(batch) == ReplayNumbers(s, config.readCount)
    ensures forall n :: n in Numbers(batch) ==> Noted(Later(last, Some(batch[|batch| - 1].id)), t, n)
  {
    var numbers, end := Numbers(batch), |batch| - 1;
    assert batch[end] in batch;
    forall n | n in numbers ensures Noted(Later(last, Some(batch[end].id)), t, n) {
      var i :| 0 <= i < |numbers| && numbers[i] == n;
      assert batch[i] in batch && numbers[i] == s.pending[i] && numbers[end] == s.pending[end];
      assert i < end ==> Before(s.added[n].id, s.added[batch[end].number].id);
    }
  }

  /** The later of two known ids; `None` moves nothing. */
  function Later(last: Option<Id>, id: Option<Id>): Option<Id> {
    if id.None? then last
    else if last.None? || Before(last.value, id.value) then id
    else last
  }

  /** The interval has passed on the clock read next. */
  predicate Due(tape: seq<Tick>, lastWritten: Option<Id>, lastTrimAt: int, intervalSeconds: int) {
    lastWritten.Some? && tape != [] && !Killed(tape[0].reply) && tape[0].monotonic - lastTrimAt >= intervalSeconds
  }

  /** What looking after the log leaves: trimmed if that was due, behind the older boundary. */
  function LookedAfter(s: State, tape: seq<Tick>, last: Option<Id>, trimmedAt: int, config: Config, interval: int)
    : State
  {
    if Due(tape, last, trimmedAt, interval) then
      var now := tape[0].now;
      Trimmed(s, Min(last.value.ms, now - config.gapMs), now, tape[1..])
    else s
  }

  class TradeStreamTrimmer {
    const intervalSeconds: int
    var lastWritten: Option<Id>
    var lastTrimAt: int

    constructor (intervalSeconds: int, monotonic: int)
      ensures lastWritten == None && lastTrimAt == monotonic && this.intervalSeconds == intervalSeconds
    {
      this.intervalSeconds, lastWritten, lastTrimAt := intervalSeconds, None, monotonic;
    }

    method NoteWritten(id: Option<Id>)
      modifies this`lastWritten
      ensures lastWritten == Later(old(lastWritten), id)
    {
      if id == None {
        return;
      }
      if lastWritten == None || Before(lastWritten.value, id.value) {
        lastWritten := id;
      }
    }

    /** Trims behind the older boundary, at most once per interval and whenever that has passed.
        That nothing is pending is demanded from the caller: it makes the trim lose nothing. */
    method MaybeTrim(world: World) returns (out: Outcome, ghost before: State)
      requires world.Valid() && world.s.pending == [] && Delivered(lastWritten, world.s)
      modifies this`lastTrimAt, world
      ensures world.Valid() && world.s.pending == [] && Delivered(lastWritten, world.s)
      ensures OnlyProducer(old(world.s), before)
      ensures lastTrimAt == if Due(old(world.tape), lastWritten, old(lastTrimAt), intervalSeconds)
                            then old(world.tape)[0].monotonic else old(lastTrimAt)
      ensures world.s == LookedAfter(before, old(world.tape), lastWritten, old(lastTrimAt), world.config,
                                     intervalSeconds)
      ensures Passed(old(world.tape), world.tape, 2)
      ensures world.Fair(|old(world.tape)|) ==> out == Fine || world.tape == []
      ensures Moved(old(world.s), world.s) && (|old(world.tape)| <= world.calm ==> Work(world.s) <= Work(old(world.s)))
    {
      hide Inv, Ahead, MayTrim;
      before := world.s;
      if lastWritten == None {
        return Fine, before;
      }
      var clock := world.Await();
      ghost var begun := before;
      before := world.s;
      if Killed(clock.reply) {
        return Dead, before;
      }
      if clock.monotonic - lastTrimAt < intervalSeconds {
        return Fine, before;
      }
      lastTrimAt := clock.monotonic;
      ProducerDelivered(lastWritten, begun, world.s);
      var reply;
      reply, before := world.XTrim(lastWritten.value, clock.now);
      if reply == Refused {
        return Fine, before;
      }
      out := Ending(reply);
    }
  }

  /** The group stands where it stood; the log may have grown and been trimmed. */
  ghost predicate Moved(s: State, t: State) {
    && s.added <= t.added && s.removal <= t.removal && t == s.(added := t.added, removal := t.removal)
  }

  class CryptoTradeIngestService {
    constructor () {}

    /** Resolves assets, prepares rows and inserts them; Ok means no exception. The replies to the
        lookup and to the insert alone decide what was done. */
    method WriteSnapshots(world: World, events: seq<TradeEvent>, batch: seq<Message>)
      returns (reply: Reply)
      requires world.Valid() && InHand(world.s, batch) && events == Decoded(batch)
      modifies world
      ensures world.Valid() && InHand(world.s, batch)
      ensures var lookup, insert := ReplyAt(old(world.tape), 0), ReplyAt(old(world.tape), 1);
              var done := Effected(old(world.s), batch, world.assets, WriteEffect(events, lookup, insert));
              && reply == WriteReply(events, lookup, insert) && OnlyProducer(done, world.s)
              && (|old(world.tape)| <= world.calm ==> world.s == done)
              && (world.Fair(|old(world.tape)|) ==> WriteEffect(events, lookup, insert) != Raised)
      ensures Passed(old(world.tape), world.tape, 2)
      ensures world.Fair(|old(world.tape)|) ==> reply == Ok || world.tape == []
      ensures !Killed(reply) ==> Attempted(world.s, batch)
    {
      hide Inv, Ahead, InHand, Readable, Truncated, Write, FailWrite, Attempted, Untrimmed, Prepared, Decoded;
      ghost var begun, tape := world.s, world.tape;
      if events == [] {
        WriteKeepsInv(world.s, batch, world.config, world.assets);
        WriteAttempts(world.s, batch, world.assets);
        world.s := Write(world.s, batch, world.assets);
        return Ok;
      }
      var lookup := world.Await();
      ProducerKeeps(begun, world.s, batch);
      ghost var before := world.s;
      if lookup.reply != Ok {
        reply := Refused;
        if Killed(lookup.reply) {
          return lookup.reply;
        }
        FailWriteKeepsInv(world.s, batch, world.config, world.assets);
        WriteAttempts(world.s, batch, world.assets);
        world.s := FailWrite(world.s, batch);
        EffectLater(begun, before, world.s, batch, world.assets, Raised);
        return;
      }
      var snapshots := Prepare(events, world.assets);
      reply := world.BulkCreate(snapshots, batch);
      EffectLater(begun, before, world.s, batch, world.assets, InsertEffect(reply));
    }

    /** The rows of the trades whose pair has an asset, in order. */
    method Prepare(events: seq<TradeEvent>, assets: map<string, int>) returns (snapshots: seq<(RowKey, TradeEvent)>)
      ensures snapshots == Prepared(events, assets)
    {
      snapshots := [];
      for i := 0 to |events|
        invariant snapshots == Prepared(events[..i], assets)
      {
        assert events[..i + 1][..i] == events[..i];
        if events[i].tradingPair in assets {
          snapshots := snapshots + [(RowKey(assets[events[i].tradingPair], events[i].tradeId), events[i])];
        }
      }
      assert events[..|events|] == events;
    }
  }

  lemma {:induction false} WithoutAll(s: seq<nat>, gone: set<nat>)
    requires forall n :: n in s ==> n in gone
    ensures Without(s, gone) == []
  {
    if s != [] {
      WithoutAll(s[..|s| - 1], gone);
    }
  }

  /** Every message of the batch was written, failed to be, or had been cut off. */
  ghost predicate Attempted(s: State, batch: seq<Message>) {
    forall m :: m in batch ==> m.number in s.written || m.number in s.failed || m.number in s.truncated
  }

  /** The group stands where it stood; the log only grew. */
  ghost predicate SameGroup(s: State, t: State) {
    t.pending == s.pending && t.acked == s.acked && t.next == s.next && s.added <= t.added
  }

  lemma WriteAttempts(s: State, batch: seq<Message>, assets: map<string, int>)
    ensures Attempted(Write(s, batch, assets), batch) && Readable(batch) <= Write(s, batch, assets).written
    ensures Attempted(FailWrite(s, batch), batch)
    ensures SameGroup(s, Write(s, batch, assets)) && SameGroup(s, FailWrite(s, batch))
    ensures Write(s, batch, assets).added == FailWrite(s, batch).added == s.added
    ensures Untrimmed(s, Write(s, batch, assets)) && Untrimmed(s, FailWrite(s, batch))
  {
    forall m | m in batch ensures m.number in Readable(batch) || m.number in Truncated(batch) {
    }
  }

  /** The last message of a batch has been delivered. */
  lemma LastDelivered(s: State, batch: seq<Message>, config: Config, assets: map<string, int>)
    requires Inv(s, config, assets) && InHand(s, batch) && batch != []
    ensures Delivered(Some(batch[|batch| - 1].id), s)
  {
    assert batch[|batch| - 1] in batch;
  }

  lemma ProducerKeeps(s: State, t: State, batch: seq<Message>)
    requires OnlyProducer(s, t) && InHand(s, batch)
    ensures Untrimmed(s, t) && SameGroup(s, t) && InHand(t, batch)
  {
  }

  /** A batch was written or not, then acknowledged or not. */
  ghost predicate Processed(s: State, t: State, batch: seq<Message>, assets: map<string, int>, e: Effect) {
    && t.next == s.next && s.added <= t.added && Untrimmed(s, t)
    && t.written == s.written + (if e == Wrote then Readable(batch) else {})
    && t.failed == s.failed + (if e == Raised then Readable(batch) else {})
    && s.truncated <= t.truncated <= s.truncated + Truncated(batch)
    && t.rows == (if e == Wrote then InsertIgnore(s.rows, Snapshots(batch, assets)) else s.rows)
    && |t.pending| <= |s.pending|
    && forall n :: n in s.pending ==> n in t.pending || n in Numbers(batch)
  }

  lemma AckKeeps(s: State, t: State, u: State, batch: seq<Message>, assets: map<string, int>, e: Effect, applied: bool)
    requires OnlyProducer(Effected(s, batch, assets, e), t)
    requires OnlyProducer(if applied then Ack(t, set n | n in Numbers(batch)) else t, u)
    ensures Processed(s, u, batch, assets, e)
  {
    hide InsertIgnore, Snapshots, Readable, Truncated, Effected;
    EffectKeeps(s, t, batch, assets, e);
    Producing(t, u.(pending := t.pending, acked := t.acked));
  }

  lemma NoAckKeeps(s: State, t: State, batch: seq<Message>, assets: map<string, int>, e: Effect)
    requires OnlyProducer(Effected(s, batch, assets, e), t)
    ensures Processed(s, t, batch, assets, e)
  {
    hide InsertIgnore, Snapshots, Readable, Truncated, Effected;
    AckKeeps(s, t, t, batch, assets, e, false);
  }

  /** One life of the process. */
  class ConsumeCommand {
    const ingest: CryptoTradeIngestService
    const trimmer: TradeStreamTrimmer

    constructor (intervalSeconds: int, monotonic: int)
      ensures fresh(trimmer) && trimmer.lastWritten == None
    {
      ingest := new CryptoTradeIngestService();
      trimmer := new TradeStreamTrimmer(intervalSeconds, monotonic);
    }

    /** Reconnects for ever; returns when the process dies. */
    method Run(world: World)
      requires world.Valid() && world.Well() && Delivered(trimmer.lastWritten, world.s)
      modifies world, trimmer
      ensures world.Valid() && world.Well() && Delivered(trimmer.lastWritten, world.s)
      ensures |world.tape| < |old(world.tape)| || world.tape == old(world.tape) == []
      ensures world.Fair(|old(world.tape)|) ==> world.tape == []
    {
      hide Inv, Ahead, OnTrack, Delivered;
      while true
        invariant world.Valid() && world.Well() && Delivered(trimmer.lastWritten, world.s)
        invariant |world.tape| < |old(world.tape)| || world.tape == old(world.tape)
        decreases |world.tape|
      {
        var out; ghost var recovered;
        out, recovered := RunConnection(world);
        if out == Dead {
          return;
        }
      }
    }

    /** One connection. `recovered` is the state, if it was reached, in which recovery had left
        nothing pending: until then the consumer trims nothing. */
    method RunConnection(world: World) returns (out: Outcome, ghost recovered: Option<State>)
      requires world.Valid() && world.Well() && Delivered(trimmer.lastWritten, world.s)
      modifies world, trimmer
      ensures world.Valid() && world.Well() && Delivered(trimmer.lastWritten, world.s)
      ensures recovered.None? ==> Untrimmed(old(world.s), world.s)
      ensures recovered.Some? ==>
                && recovered.value.pending == [] && Untrimmed(old(world.s), recovered.value)
                && recovered.value.removal <= world.s.removal
      ensures |world.tape| < |old(world.tape)| || out == Dead
      ensures |world.tape| < |old(world.tape)| || world.tape == old(world.tape) == []
      ensures world.Fair(|old(world.tape)|) ==> world.tape == []
    {
      hide Inv, Ahead, Work, Delivered, Untrimmed, OnlyProducer;
      // XGROUP CREATE; an existing group is not an error.
      ghost var begun, last, left := world.s, trimmer.lastWritten, |world.tape|;
      recovered := None;
      var group := world.Await();
      Producing(begun, world.s);
      ProducerDelivered(last, begun, world.s);
      world.WorkIsBounded();
      TicksPass(left, |world.tape|, world.calm, Work(begun), Work(world.s), |world.whole|,
                if left == 0 then SLACK else RATE);
      if group.reply != Ok && group.reply != Refused {
        if left > 0 {
          EndsInTime(world, left, RATE);
        }
        out := Ending(group.reply);
        return;
      }
      ghost var joined := world.s;
      out := RecoverPending(world, RATE + 1);
      UntrimmedTwice(begun, joined, world.s);
      if out != Fine {
        return;
      }
      recovered := Some(world.s);
      out := MainLoop(world);
    }

    /** Reads and processes until an error ends it. */
    method MainLoop(world: World) returns (out: Outcome)
      requires world.Valid() && world.s.pending == [] && Delivered(trimmer.lastWritten, world.s)
      requires world.Track(RATE + 2)
      modifies world, trimmer
      ensures world.Valid() && Delivered(trimmer.lastWritten, world.s)
      ensures old(world.s).removal <= world.s.removal && out != Fine
      ensures |world.tape| <= |old(world.tape)|
      ensures world.Track(SLACK) && (world.tape != [] ==> world.Track(RATE))
      ensures world.Fair(|old(world.tape)|) ==> world.tape == []
      ensures world.reliable ==> world.s.failed == old(world.s).failed && world.s.truncated == old(world.s).truncated
    {
      hide Inv, Ahead, OnTrack, Work, Delivered;
      out := Fine;
      while out == Fine
        invariant world.Valid() && Delivered(trimmer.lastWritten, world.s)
        invariant out == Fine ==> world.s.pending == [] && world.Track(RATE + 2)
        invariant out != Fine ==> world.Track(SLACK) && (world.tape != [] ==> world.Track(RATE))
        invariant old(world.s).removal <= world.s.removal
        invariant |world.tape| <= |old(world.tape)|
        invariant world.Fair(|old(world.tape)|) ==> out == Fine || world.tape == []
        invariant world.reliable ==>
                    world.s.failed == old(world.s).failed && world.s.truncated == old(world.s).truncated
        decreases out == Fine, |world.tape|
      {
        ghost var left, work := |world.tape|, Work(world.s);
        ghost var checked, before;
        out, checked, before := ReadAndProcess(world);
        world.WorkIsBounded();
        if out == Fine {
          TurnPasses(left, |world.tape|, world.calm, work, Work(world.s), |world.whole|, RATE + 2);
        } else {
          TicksPass(left, |world.tape|, world.calm, work, Work(world.s), |world.whole|, RATE + 2);
          EndsInTime(world, left, RATE + 2);
        }
      }
    }

    /** A turn that ended with an error: the tape is over, or the calm end had not begun. */
    lemma EndsInTime(world: World, left: nat, slack: nat)
      requires world.Valid() && |world.tape| <= left <= |world.tape| + RATE && slack <= RATE + 2
      requires world.Track(slack + left - |world.tape|)
      requires world.Fair(left) ==> world.tape == []
      ensures world.Track(SLACK) && (world.tape != [] ==> world.Track(RATE))
    {
      hide Inv, Ahead, Work;
      world.WorkIsBounded();
    }

    /** One turn of the main loop. It starts and, unless an error ends it, finishes with
        nothing pending. */
    method ReadAndProcess(world: World) returns (out: Outcome, ghost checked: seq<Tick>, ghost before: State)
      requires world.Valid() && world.s.pending == [] && Delivered(trimmer.lastWritten, world.s)
      modifies world, trimmer
      ensures world.Valid() && Delivered(trimmer.lastWritten, world.s)
      ensures out == Fine ==> world.s.pending == []
      ensures old(world.s).removal <= world.s.removal
      ensures |world.tape| < |old(world.tape)| <= |world.tape| + RATE || (out == Dead && world.tape == old(world.tape))
      ensures world.Fair(|old(world.tape)|) ==> out == Fine || world.tape == []
      ensures world.Fair(|old(world.tape)|) ==>
                world.s.failed == old(world.s).failed && world.s.truncated == old(world.s).truncated
      ensures |old(world.tape)| <= world.calm ==>
                && Work(world.s) <= Work(old(world.s))
                && (out == Fine ==> Work(world.s) == 0 || Work(world.s) < Work(old(world.s)))
      ensures out == Fine && world.Fair(|old(world.tape)|) && old(world.s).next < world.s.next <= |world.s.added| ==>
                trimmer.lastWritten == Later(old(trimmer.lastWritten), Some(world.s.added[world.s.next - 1].id))
      ensures out == Fine && old(world.s).next < world.s.next ==>
                && Passed(old(world.tape), checked, 4) && Passed(checked, world.tape, 2)
                && before.pending == [] && Untrimmed(old(world.s), before)
                && world.s == LookedAfter(before, checked, trimmer.lastWritten, old(trimmer.lastTrimAt), world.config,
                                          trimmer.intervalSeconds)
    {
      hide Inv, Ahead, InHand, Delivered, Deliver, NewNumbers, Readable, OnlyProducer, Numbers, Untrimmed, LookedAfter,
        Snapshots, InsertIgnore, Decoded, WriteReply, Before;
      ghost var last, begun := trimmer.lastWritten, world.s;
      ghost var tape0 := world.tape;
      checked, before := world.tape, world.s;
      var reply, batch; ghost var found;
      reply, batch, found := world.XReadGroupNew();
      DeliveredStays(last, begun, world.s);
      DeliverWork(found, world.config.readCount);
      if reply != Ok {
        out := Ending(reply);
        return;
      }
      if batch == [] {
        NobodyPending(batch);
        out := Fine;
        return;
      }
      ghost var tape1, read := world.tape, world.s;
      var written;
      out, written := ProcessBatch(world, batch);
      DeliveredStays(last, read, world.s);
      UntrimmedTwice(begun, read, world.s);
      checked := world.tape;
      PassedTwice(tape0, tape1, checked, 1, 3);
      if out == Fine {
        trimmer.NoteWritten(written);
        ghost var done := world.s;
        out, before := trimmer.MaybeTrim(world);
        Producing(done, before);
        UntrimmedTwice(begun, done, before);
      }
    }

    /** Replays this consumer's pending entries until none is left: each turn acknowledges at
        least one, so the turns run out. If all goes well the trimmer then knows them as written. */
    method RecoverPending(world: World, ghost slack: nat) returns (out: Outcome)
      requires world.Valid() && Delivered(trimmer.lastWritten, world.s)
      requires world.Track(slack) && RATE <= slack <= RATE + 1
      modifies world, trimmer
      ensures world.Valid() && Delivered(trimmer.lastWritten, world.s)
      ensures out == Fine ==> world.s.pending == [] && world.Track(slack + 1)
      ensures out != Fine ==> world.Track(SLACK) && (world.tape != [] ==> world.Track(RATE))
      ensures Untrimmed(old(world.s), world.s)
      ensures |world.tape| <= |old(world.tape)|
      ensures world.Fair(|old(world.tape)|) ==> out == Fine || world.tape == []
      ensures world.Fair(|old(world.tape)|) && out == Fine ==>
                forall n :: n in old(world.s.pending) ==> Noted(trimmer.lastWritten, world.s, n)
      ensures old(world.s).pending == [] ==>
                world.s.failed == old(world.s).failed && world.s.truncated == old(world.s).truncated
    {
      hide Inv, Ahead, InHand, Delivered, OnlyProducer, Untrimmed, Noted, OnTrack, Work;
      Same(world.s);
      out := Fine;
      var more := true;
      while more
        invariant world.Valid() && Delivered(trimmer.lastWritten, world.s) && Untrimmed(old(world.s), world.s)
        invariant |world.tape| <= |old(world.tape)|
        invariant more ==> out == Fine && world.Track(slack)
        invariant !more && out == Fine ==> world.s.pending == [] && world.Track(slack + 1)
        invariant out != Fine ==> world.Track(SLACK) && (world.tape != [] ==> world.Track(RATE))
        invariant world.Fair(|old(world.tape)|) ==> out == Fine || world.tape == []
        invariant world.Fair(|old(world.tape)|) && out == Fine ==>
                    forall n :: n in old(world.s.pending) ==>
                      n in world.s.pending || Noted(trimmer.lastWritten, world.s, n)
        invariant old(world.s).pending == [] ==>
                    && world.s.failed == old(world.s).failed && world.s.truncated == old(world.s).truncated
                    && world.s.pending == []
        decreases more, |world.s.pending|
      {
        ghost var begun := world.s;
        out, more := ReplayTurn(world, slack);
        UntrimmedTwice(old(world.s), begun, world.s);
      }
    }

    /** One turn of recovery. */
    method ReplayTurn(world: World, ghost slack: nat) returns (out: Outcome, more: bool)
      requires world.Valid() && Delivered(trimmer.lastWritten, world.s)
      requires world.Track(slack) && RATE <= slack <= RATE + 1
      modifies world, trimmer
      ensures world.Valid() && Delivered(trimmer.lastWritten, world.s)
      ensures |world.tape| <= |old(world.tape)| && Untrimmed(old(world.s), world.s)
      ensures more ==> out == Fine && |world.s.pending| < |old(world.s).pending| && world.Track(slack)
      ensures !more && out == Fine ==> world.s.pending == [] && world.Track(slack + 1)
      ensures out != Fine ==> world.Track(SLACK) && (world.tape != [] ==> world.Track(RATE))
      ensures world.Fair(|old(world.tape)|) ==> out == Fine || world.tape == []
      ensures world.Fair(|old(world.tape)|) && out == Fine ==>
                forall n :: n in old(world.s.pending) ==> n in world.s.pending || Noted(trimmer.lastWritten, world.s, n)
      ensures forall n :: Noted(old(trimmer.lastWritten), old(world.s), n) ==> Noted(trimmer.lastWritten, world.s, n)
      ensures old(world.s).pending == [] ==>
                && world.s.failed == old(world.s).failed && world.s.truncated == old(world.s).truncated
                && world.s.pending == []
    {
      hide Inv, Ahead, InHand, Readable, Delivered, Snapshots, InsertIgnore, Decoded, WriteReply, WriteEffect, Before,
        OnlyProducer, Untrimmed, Noted;
      ghost var begun, last, left, work := world.s, trimmer.lastWritten, |world.tape|, Work(world.s);
      more := false;
      var reply, batch := world.XReadGroupPending();
      Producing(begun, world.s);
      ProducerDelivered(last, begun, world.s);
      NotedLater(last, None, begun, world.s);
      world.WorkIsBounded();
      TicksPass(left, |world.tape|, world.calm, work, Work(world.s), |world.whole|, slack);
      if reply != Ok {
        EndsInTime(world, left, slack);
        out := Ending(reply);
        return;
      }
      if batch == [] {
        out := Fine;
        return;
      }
      ghost var read := world.s;
      var written;
      out, written := ProcessBatch(world, batch);
      DeliveredStays(last, read, world.s);
      UntrimmedTwice(begun, read, world.s);
      world.WorkIsBounded();
      if out != Fine {
        TicksPass(left, |world.tape|, world.calm, work, Work(world.s), |world.whole|, slack);
        EndsInTime(world, left, slack);
        NotedLater(last, None, begun, world.s);
        return;
      }
      more := true;
      TurnPasses(left, |world.tape|, world.calm, work, Work(world.s), |world.whole|, slack);
      trimmer.NoteWritten(written);
      LaterDelivered(last, written, world.s);
      NotedLater(last, written, begun, world.s);
      BatchNoted(read, world.s, batch, last, world.config, world.assets);
    }

    /** Writes the batch, then acknowledges it whether or not the write raised. */
    method ProcessBatch(world: World, batch: seq<Message>) returns (out: Outcome, lastWritten: Option<Id>)
      requires world.Valid() && InHand(world.s, batch) && batch != []
      modifies world
      ensures world.Valid() && Delivered(lastWritten, world.s)
      ensures Passed(old(world.tape), world.tape, 3)
      ensures var lookup, insert := ReplyAt(old(world.tape), 0), ReplyAt(old(world.tape), 1);
              var e := WriteEffect(Decoded(batch), lookup, insert);
              && Processed(old(world.s), world.s, batch, world.assets, e)
              && (world.Fair(|old(world.tape)|) ==> e != Raised)
              && lastWritten == if WriteReply(Decoded(batch), lookup, insert) == Ok then Some(batch[|batch| - 1].id)
                                else None
      ensures out == Fine ==> |world.s.pending| < |old(world.s).pending|
      ensures out == Fine && Numbers(batch) == old(world.s).pending ==> world.s.pending == []
      ensures out == Fine ==> forall m :: m in batch ==> m.number in world.s.acked
      ensures world.Fair(|old(world.tape)|) ==> (out == Fine || world.tape == []) && (out == Fine ==> lastWritten.Some?)
      ensures |old(world.tape)| <= world.calm ==>
                world.s.added == old(world.s).added && world.s.removal == old(world.s).removal
    {
      hide Inv, Ahead, InHand, Write, FailWrite, Decoded, Readable, Truncated, InsertIgnore, Snapshots, Delivered,
        Effected, Untrimmed, Attempted, Processed, OnlyProducer, Ack;
      lastWritten := None;
      ghost var begun := world.s;
      ghost var lookup, insert := ReplyAt(world.tape, 0), ReplyAt(world.tape, 1);
      var events := DecodeMessages(batch);
      var wrote := ingest.WriteSnapshots(world, events, batch);
      ghost var e := WriteEffect(events, lookup, insert);
      EffectKeeps(begun, world.s, batch, world.assets, e);
      NothingDelivered(world.s);
      if Killed(wrote) {
        NoAckKeeps(begun, world.s, batch, world.assets, e);
        return Dead, None;
      }
      LastDelivered(world.s, batch, world.config, world.assets);
      if wrote == Ok {
        lastWritten := Some(batch[|batch| - 1].id);
      }
      ghost var tried := world.s;
      var reply := world.XAck(batch);
      DeliveredStays(lastWritten, tried, world.s);
      AckKeeps(begun, tried, world.s, batch, world.assets, e, Applied(reply));
      out := Ending(reply);
    }

    method DecodeMessages(batch: seq<Message>) returns (events: seq<TradeEvent>)
      ensures events == Decoded(batch)
    {
      events := [];
      for i := 0 to |batch|
        invariant events == Decoded(batch[..i])
      {
        assert batch[..i + 1][..i] == batch[..i];
        if batch[i].fields == None {
          continue;
        }
        if batch[i].fields.value.Trade? {
          events := events + [batch[i].fields.value.event];
        }
      }
      assert batch[..|batch|] == batch;
    }
  }

  /** Any number of lives of the process, one after another, with a fresh trimmer each. */
  method Supervise(config: Config, assets: map<string, int>, tape: seq<Tick>, ghost calm: nat) returns (s: State)
    requires CalmEnd(tape, calm)
    ensures Inv(s, config, assets) && s.added == Log([], tape)
    ensures forall n :: 0 <= n < |s.removal| ==>
              n in s.acked || (s.removal[n].ByCeiling? && s.added[n].id.ms < s.removal[n].now - config.ceilingMs)
    ensures forall n :: 0 <= n < |s.removal| && s.removal[n].ByGap? ==>
              n in s.acked && s.added[n].id.ms < s.removal[n].now - config.gapMs
    ensures s.failed == {} && s.truncated == {} && s.pending == [] ==>
              s.rows.Keys == RowKeys(s.added, s.acked, assets) && RowsComeFrom(s.rows, s.added, s.acked, assets)
    ensures (forall t :: t in tape ==> t.reply == Ok) ==> s.failed == {} && s.truncated == {}
    ensures calm >= RATE * |s.added| + SLACK ==>
              s.pending == [] && forall n :: 0 <= n < |s.added| ==>
                n in s.acked || (n < |s.removal| && s.removal[n].ByCeiling?)
  {
    hide Inv, Ahead, OnTrack, Work;
    var world := new World(config, assets, tape, calm);
    while world.tape != []
      invariant world.Valid() && world.Well() && world.config == config && world.assets == assets
      decreases |world.tape|
    {
      var command := new ConsumeCommand(config.intervalSeconds, world.tape[0].monotonic);
      NothingDelivered(world.s);
      command.Run(world);
    }
    s := world.s;
    InRange(s, config, assets);
    forall n | 0 <= n < |s.removal|
      ensures n in s.acked || (s.removal[n].ByCeiling? && s.added[n].id.ms < s.removal[n].now - config.ceilingMs)
      ensures s.removal[n].ByGap? ==> n in s.acked && s.added[n].id.ms < s.removal[n].now - config.gapMs
    {
      RetentionSafety(s, config, assets, n);
    }
    if s.failed == {} && s.truncated == {} && s.pending == [] {
      RowsExactlyOnce(s, config, assets);
    }
    TapeIsOver(s.added, world.whole, world.reliable, calm);
    if calm >= RATE * |s.added| + SLACK {
      AllDone(s, config, assets, calm);
    }
  }

  lemma TapeIsOver(added: seq<Entry>, whole: seq<Entry>, reliable: bool, calm: nat)
    requires Ahead(added, [], whole, reliable, calm)
    ensures added == whole
  {
  }

  lemma NothingDelivered(s: State)
    ensures Delivered(None, s)
  {
  }

  /** With the calm end long enough for the whole log, nothing is left to do. */
  lemma AllDone(s: State, config: Config, assets: map<string, int>, calm: nat)
    requires Inv(s, config, assets) && OnTrack(0, calm, Work(s), |s.added|, SLACK)
    requires calm >= RATE * |s.added| + SLACK
    ensures s.pending == []
    ensures forall n :: 0 <= n < |s.added| ==> n in s.acked || (n < |s.removal| && s.removal[n].ByCeiling?)
  {
    WorkBounds(s, config, assets);
    forall n | 0 <= n < |s.added| ensures n in s.acked || (n < |s.removal| && s.removal[n].ByCeiling?) {
      NothingGoesMissing(s, config, assets, n);
    }
  }

  lemma InRange(s: State, config: Config, assets: map<string, int>)
    requires Inv(s, config, assets)
    ensures |s.removal| <= |s.added| && s.next <= |s.added|
  {
  }

  /** An entry that has left the log was acknowledged, or the producer found it older than its
      ceiling; the consumer itself removes only acknowledged entries older than the gap. */
  lemma RetentionSafety(s: State, config: Config, assets: map<string, int>, n: nat)
    requires Inv(s, config, assets) && n < |s.removal|
    ensures n in s.acked || (s.removal[n].ByCeiling? && s.added[n].id.ms < s.removal[n].now - config.ceilingMs)
    ensures s.removal[n].ByGap? ==> n in s.acked && s.added[n].id.ms < s.removal[n].now - config.gapMs
  {
    assert Removed(s, config, n);
  }

  /** No entry disappears: each is waiting in the log, or delivered and pending, or acknowledged
      after a write was attempted, or went over the producer's ceiling before it was read. */
  lemma NothingGoesMissing(s: State, config: Config, assets: map<string, int>, n: nat)
    requires Inv(s, config, assets) && n < |s.added|
    ensures
      var waiting := s.next <= n && |s.removal| <= n;
      var pending := n in s.pending;
      var acked := n in s.acked && (n in s.written || n in s.failed || n in s.truncated);
      var overCeiling := n < |s.removal| && s.removal[n].ByCeiling? && n !in s.acked && n !in s.pending;
      && (waiting || pending || acked || overCeiling)
      && !(waiting && (pending || acked || overCeiling)) && !(pending && (acked || overCeiling))
      && !(acked && overCeiling)
  {
    if n < |s.removal| {
      assert Removed(s, config, n);
    }
  }

  /** Redelivery never doubles a row and never loses one: the rows lie between those of the
      acknowledged entries whose write took effect and those of everything delivered. */
  lemma RowsOfDelivered(s: State, config: Config, assets: map<string, int>)
    requires Inv(s, config, assets)
    ensures RowKeys(s.added, s.acked - s.failed - s.truncated, assets) <= s.rows.Keys
    ensures s.rows.Keys <= RowKeys(s.added, s.acked + (set n | n in s.pending), assets)
  {
  }

  /** When no write raised, nothing was cut off unread and nothing is pending, the rows are
      exactly those of the acknowledged entries. */
  lemma RowsExactlyOnce(s: State, config: Config, assets: map<string, int>)
    requires Inv(s, config, assets)
    requires s.failed == {} && s.truncated == {} && s.pending == []
    ensures s.rows.Keys == RowKeys(s.added, s.acked, assets)
    ensures RowsComeFrom(s.rows, s.added, s.acked, assets)
  {
    assert s.written == s.acked;
  }

  /** One turn of recovery on a batch that was acknowledged: the pending list got shorter, so
      `|pending|` turns are enough. */
  lemma RecoveryTurn(s: State, config: Config, assets: map<string, int>)
    requires Inv(s, config, assets) && s.pending != []
    ensures
      var numbers := ReplayNumbers(s, config.readCount);
      && numbers != []
      && |Ack(s, set n | n in numbers).pending| < |s.pending|
  {
    var numbers := ReplayNumbers(s, config.readCount);
    assert numbers[0] == s.pending[0];
    assert s.pending[0] in s.pending && numbers[0] in numbers;
  }
}
