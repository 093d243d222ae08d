/** The change log of `CryptoAsset` and the loop that follows it: commit, then publish, then
    XREAD, then re-read the database, then hand the pairs to the consumer.

    Commits are numbered: `history[v]` is the set of active pairs after commit v. */
module AssetChanges {
  import opened Wrappers

  type Pair = int

  /** The database, the publications on their way and the stream.
      - `unpublished`: commits whose on-commit publication has not run yet
      - `stream`: every entry ever added, as the number of the commit it announces (None for an
        entry that cannot be parsed); the first `trimmed` of them are gone
      - `lost`: commits whose publication failed */
  datatype State = State(history: seq<set<Pair>>, unpublished: set<nat>, stream: seq<Option<nat>>,
                         trimmed: nat, lost: set<nat>)

  predicate Wellformed(s: State) {
    && s.history != []
    && (s.stream == [] ==> s.trimmed == 0) && (s.stream != [] ==> s.trimmed < |s.stream|)
  }

  function Latest(s: State): nat
    requires s.history != []
  {
    |s.history| - 1
  }

  datatype Happening =
    | Commit(pairs: set<Pair>)
    | Publish(commit: nat, trim: nat)  // MAXLEN ~ with a positive limit: the newest entry stays
    | PublishFails(commit: nat)
    | Garbage

  function Apply(s: State, h: Happening): (t: State)
    requires Wellformed(s)
    ensures Wellformed(t)
  {
    match h
    case Commit(pairs) => s.(history := s.history + [pairs], unpublished := s.unpublished + {|s.history|})
    case Publish(commit, trim) =>
      if commit in s.unpublished then
        s.(unpublished := s.unpublished - {commit}, stream := s.stream + [Some(commit)],
           trimmed := if s.trimmed <= trim <= |s.stream| then trim else s.trimmed)
      else s
    case PublishFails(commit) =>
      if commit in s.unpublished then
        s.(unpublished := s.unpublished - {commit}, lost := s.lost + {commit})
      else s
    case Garbage => s.(stream := s.stream + [None])
  }

  function ApplyAll(s: State, hs: seq<Happening>): (t: State)
    requires Wellformed(s)
    ensures Wellformed(t)
  {
    if hs == [] then s else Apply(ApplyAll(s, hs[..|hs| - 1]), hs[|hs| - 1])
  }

  /** An announcement of commit v that a reader at `lastId` has yet to see. Trimming may remove
      the entry itself, but never the newest one. */
  ghost predicate Announced(s: State, v: nat, lastId: nat) {
    exists i :: lastId <= i < |s.stream| && s.stream[i] == Some(v)
  }

  /** No change is lost: every commit after `seen` is still to be published, or announced beyond
      `lastId`, or its publication is known to have failed. */
  ghost predicate Covered(s: State, seen: nat, lastId: nat)
    requires s.history != []
  {
    && seen <= Latest(s) && lastId <= |s.stream|
    && forall v: nat :: seen < v <= Latest(s) ==> v in s.unpublished || v in s.lost || Announced(s, v, lastId)
  }

  /** Whatever other processes do, nothing gets lost. */
  lemma ApplyKeepsCovered(s: State, h: Happening, seen: nat, lastId: nat)
    requires Wellformed(s) && Covered(s, seen, lastId)
    ensures Covered(Apply(s, h), seen, lastId)
  {
    var t := Apply(s, h);
    forall v: nat | seen < v <= Latest(t) ensures v in t.unpublished || v in t.lost || Announced(t, v, lastId) {
      if v <= Latest(s) {
        if Announced(s, v, lastId) {
          var i :| lastId <= i < |s.stream| && s.stream[i] == Some(v);
          assert t.stream[i] == Some(v);
        } else if v in s.unpublished && v !in t.unpublished && v !in t.lost {
          assert t.stream[|s.stream|] == Some(v);
        }
      }
    }
  }

  lemma {:induction false} ApplyAllKeepsCovered(s: State, hs: seq<Happening>, seen: nat, lastId: nat)
    requires Wellformed(s) && Covered(s, seen, lastId)
    ensures Covered(ApplyAll(s, hs), seen, lastId)
    ensures |s.stream| <= |ApplyAll(s, hs).stream| && s.history <= ApplyAll(s, hs).history
  {
    if hs != [] {
      ApplyAllKeepsCovered(s, hs[..|hs| - 1], seen, lastId);
      ApplyKeepsCovered(ApplyAll(s, hs[..|hs| - 1]), hs[|hs| - 1], seen, lastId);
    }
  }

  /** The fate of every commit after the first: still to be published, failed to be, or told once. */
  ghost predicate FatesKnown(s: State)
    requires Wellformed(s)
  {
    && (forall v: nat :: v in s.unpublished || v in s.lost ==> 0 < v <= Latest(s) && Some(v) !in s.stream)
    && s.unpublished !! s.lost
    && (forall i :: 0 <= i < |s.stream| && s.stream[i].Some? ==> 0 < s.stream[i].value <= Latest(s))
    && (forall i, j :: 0 <= i < j < |s.stream| && s.stream[i].Some? ==> s.stream[i] != s.stream[j])
    && (forall v: nat :: 0 < v <= Latest(s) ==> v in s.unpublished || v in s.lost || Some(v) in s.stream)
  }

  lemma ApplyKeepsFates(s: State, h: Happening)
    requires Wellformed(s) && FatesKnown(s)
    ensures FatesKnown(Apply(s, h))
  {
    var t := Apply(s, h);
    if h.Publish? && h.commit in s.unpublished {
      assert t.stream[|s.stream|] == Some(h.commit);
    }
    assert forall i :: 0 <= i < |s.stream| ==> t.stream[i] == s.stream[i];
    forall v: nat | 0 < v <= Latest(t) ensures v in t.unpublished || v in t.lost || Some(v) in t.stream {
      if v <= Latest(s) && Some(v) in s.stream {
        var i :| 0 <= i < |s.stream| && s.stream[i] == Some(v);
        assert t.stream[i] == Some(v);
      }
    }
  }

  lemma {:induction false} ApplyAllKeepsFates(s: State, hs: seq<Happening>)
    requires Wellformed(s) && FatesKnown(s)
    ensures FatesKnown(ApplyAll(s, hs))
  {
    hide FatesKnown;
    if hs != [] {
      ApplyAllKeepsFates(s, hs[..|hs| - 1]);
      ApplyKeepsFates(ApplyAll(s, hs[..|hs| - 1]), hs[|hs| - 1]);
    }
  }

  /** MAXLEN may take all entries but the one just added. */
  lemma TrimSparesNewest(s: State, commit: nat, trim: nat)
    requires Wellformed(s) && commit in s.unpublished && s.trimmed <= trim
    ensures Apply(s, Publish(commit, trim)).trimmed == if trim <= |s.stream| then trim else s.trimmed
  {
  }

  /** XREAD after `lastId`: up to `count` of the entries still there. */
  function ReadFrom(s: State, lastId: nat): nat { if lastId < s.trimmed then s.trimmed else lastId }

  function XRead(s: State, lastId: nat, count: int): seq<Option<nat>>
    requires Wellformed(s)
  {
    var from := ReadFrom(s, lastId);
    if from >= |s.stream| then []
    else if count <= 0 || from + count >= |s.stream| then s.stream[from..]
    else s.stream[from..from + count]
  }

  /** Trimming cannot hide news: if anything was added after `lastId`, XREAD returns something. */
  lemma NewsIsVisible(s: State, lastId: nat, count: int)
    requires Wellformed(s)
    ensures XRead(s, lastId, count) != [] <==> lastId < |s.stream|
  {
  }

  datatype Reply = Ok | Lost | Killed

  datatype Tick = Tick(happenings: seq<Happening>, reply: Reply)

  /** The state at the end of a tape. */
  function Final(s: State, tape: seq<Tick>): (t: State)
    requires Wellformed(s)
    ensures Wellformed(t)
    decreases tape
  {
    if tape == [] then s else Final(ApplyAll(s, tape[0].happenings), tape[1..])
  }

  /** The last `calm` ticks: nothing happens and everything is answered. */
  predicate CalmEnd(tape: seq<Tick>, calm: nat) {
    forall i :: 0 <= i < |tape| && |tape| - calm <= i ==> tape[i].happenings == [] && tape[i].reply == Ok
  }

  /** Nothing kills the process but the end of the tape. */
  predicate NoKill(tape: seq<Tick>) {
    forall t :: t in tape ==> t.reply != Killed
  }

  lemma {:induction false} StreamGrows(s: State, tape: seq<Tick>)
    requires Wellformed(s)
    ensures |s.stream| <= |Final(s, tape).stream|
    decreases tape
  {
    if tape != [] {
      ApplyAllKeepsCovered(s, tape[0].happenings, Latest(s), |s.stream|);
      StreamGrows(ApplyAll(s, tape[0].happenings), tape[1..]);
    }
  }

  /** Ticks enough to read some news and to reconcile. */
  const RATE := 3

  /** Once only `calm` ticks are left the reader catches up in the ticks that pass. */
  predicate OnTrack(left: nat, calm: nat, behind: int, most: nat, slack: nat) {
    left <= calm ==> behind == 0 || left + RATE * (most - behind) + slack >= calm
  }

  function Min(a: int, b: int): int { if a < b then a else b }

  class World {
    const readCount: int
    var s: State
    var tape: seq<Tick>
    /** For the statements only: the state at the end of the tape, and how long its calm end is. */
    ghost const end: State
    ghost const calm: nat

    ghost predicate Valid()
      reads this
    {
      Wellformed(s) && FatesKnown(s) && Final(s, tape) == end && CalmEnd(tape, calm)
    }

    constructor (pairs: set<Pair>, readCount: int, tape: seq<Tick>, ghost calm: nat)
      requires CalmEnd(tape, calm)
      ensures Valid() && s == State([pairs], {}, [], 0, {}) && this.tape == tape && this.readCount == readCount
      ensures end == Final(s, tape) && this.calm == calm
    {
      s, this.tape, this.readCount := State([pairs], {}, [], 0, {}), tape, readCount;
      end, this.calm := Final(State([pairs], {}, [], 0, {}), tape), calm;
    }

    method Await() returns (reply: Reply)
      requires Valid()
      modifies this
      ensures Valid()
      ensures old(s).history <= s.history && |old(s).stream| <= |s.stream|
      ensures forall seen, lastId :: Covered(old(s), seen, lastId) ==> Covered(s, seen, lastId)
      ensures if old(tape) == [] then tape == [] && reply == Killed else tape == old(tape)[1..]
      ensures reply != Ok ==> |tape| >= calm || old(tape) == []
      ensures NoKill(old(tape)) ==> NoKill(tape) && (reply == Killed ==> tape == [])
      ensures |old(tape)| <= calm ==> s == old(s)
    {
      hide Apply, FatesKnown;
      if tape == [] {
        return Killed;
      }
      var t := tape[0];
      assert t in tape && forall u :: u in tape[1..] ==> u in tape;
      tape := tape[1..];
      ApplyAllKeepsCovered(s, t.happenings, Latest(s), |s.stream|);
      forall seen, lastId | Covered(s, seen, lastId) ensures Covered(ApplyAll(s, t.happenings), seen, lastId) {
        ApplyAllKeepsCovered(s, t.happenings, seen, lastId);
      }
      ApplyAllKeepsFates(s, t.happenings);
      s := ApplyAll(s, t.happenings);
      reply := t.reply;
    }
  }

  /** The part of `stream_binance` that follows the log. `handed` is the set last given to the
      consumer, read from the database after commit `seen`. */
  class Watcher {
    var lastId: nat
    var recovering: bool
    var handed: set<Pair>
    ghost var seen: nat

    ghost predicate Valid(world: World)
      reads this, world
    {
      world.Valid() && Covered(world.s, seen, lastId) && handed == world.s.history[seen]
    }

    constructor ()
    {
      lastId, recovering, handed, seen := 0, false, {}, 0;
    }

    /** `_active_trading_pairs`: the committed set at some moment of the await. */
    method ActivePairs(world: World) returns (reply: Reply, pairs: set<Pair>, ghost version: nat)
      requires world.Valid()
      modifies world
      ensures world.Valid() && old(world.s.history) <= world.s.history && |old(world.s.stream)| <= |world.s.stream|
      ensures reply == Ok ==> old(Latest(world.s)) <= version < |world.s.history| && pairs == world.s.history[version]
      ensures reply == Ok ==> forall id: nat :: id <= |old(world.s.stream)| ==> Covered(world.s, version, id)
      ensures forall v, id :: Covered(old(world.s), v, id) ==> Covered(world.s, v, id)
      ensures if old(world.tape) == [] then world.tape == [] && reply == Killed else |world.tape| < |old(world.tape)|
      ensures |old(world.tape)| <= |world.tape| + 2
      ensures reply == Ok ==> |old(world.tape)| == |world.tape| + 2
      ensures NoKill(old(world.tape)) ==> NoKill(world.tape) && (reply == Killed ==> world.tape == [])
      ensures reply != Ok ==> |world.tape| >= world.calm || (world.tape == [] && |old(world.tape)| <= 1)
      ensures reply == Lost ==> |world.tape| >= world.calm
      ensures |old(world.tape)| <= world.calm ==> world.s == old(world.s)
    {
      hide Final, CalmEnd, NoKill, FatesKnown;
      pairs, version := {}, 0;
      reply := world.Await();
      if reply != Ok {
        return;
      }
      // The query runs now; its answer arrives after a further wait.
      ghost var before := world.s;
      version, pairs := Latest(world.s), world.s.history[Latest(world.s)];
      forall id: nat | id <= |before.stream| ensures Covered(before, version, id) {
      }
      reply := world.Await();
    }

    /** Start: the newest id first, then the pairs. */
    method Start(world: World) returns (reply: Reply)
      requires world.Valid()
      modifies this, world
      ensures world.Valid() && |world.tape| <= |old(world.tape)|
      ensures reply != Ok ==> reply == Killed
      ensures reply == Ok ==> Valid(world) && !recovering && |world.tape| < |old(world.tape)|
      ensures NoKill(old(world.tape)) ==> NoKill(world.tape)
      ensures RATE <= world.calm <= |old(world.tape)| ==>
                if reply == Ok then |world.tape| + RATE >= world.calm else |world.tape| > 0
    {
      hide Final, CalmEnd, NoKill, FatesKnown;
      while true
        invariant world.Valid() && |world.tape| <= |old(world.tape)|
        invariant world.calm <= |old(world.tape)| ==> |world.tape| >= world.calm
        invariant NoKill(old(world.tape)) ==> NoKill(world.tape)
        decreases |world.tape|
      {
        reply := world.Await();
        if reply == Killed {
          return;
        }
        if reply == Ok {
          break;
        }
      }
      var startId := |world.s.stream|;
      ghost var version;
      var pairs;
      reply, pairs, version := ActivePairs(world);
      if reply != Ok {
        // A database error here ends the process.
        return Killed;
      }
      lastId, recovering, handed, seen := startId, false, pairs, version;
    }

    /** `_reconcile`: re-reads until the database answers, then hands the pairs over. */
    method Reconcile(world: World, ghost id: nat) returns (reply: Reply)
      requires Valid(world) && id <= |world.s.stream|
      modifies this`handed, this`seen, world
      ensures Valid(world) && |world.tape| <= |old(world.tape)|
      ensures reply == Ok || reply == Killed
      ensures reply == Ok ==> seen >= old(Latest(world.s)) && Covered(world.s, seen, id)
      ensures |world.tape| + 2 >= Min(|old(world.tape)|, world.calm)
      ensures NoKill(old(world.tape)) ==> NoKill(world.tape) && (reply == Killed ==> world.tape == [])
      ensures reply != Ok ==> |world.tape| >= world.calm || world.tape == []
      ensures |old(world.tape)| <= world.calm ==> world.s == old(world.s)
    {
      hide Final, CalmEnd, NoKill, FatesKnown;
      while true
        invariant Valid(world) && id <= |world.s.stream| && |world.tape| <= |old(world.tape)|
        invariant old(world.s.history) <= world.s.history
        invariant |world.tape| >= Min(|old(world.tape)|, world.calm)
        invariant NoKill(old(world.tape)) ==> NoKill(world.tape)
        invariant |old(world.tape)| <= world.calm ==> world.s == old(world.s)
        decreases |world.tape|
      {
        ghost var version;
        var pairs;
        reply, pairs, version := ActivePairs(world);
        if reply == Killed {
          return;
        }
        if reply == Ok {
          handed, seen := pairs, version;
          return;
        }
      }
    }

    /** How many entries the reader has still to read. */
    ghost function Behind(world: World): int
      reads this, world
    {
      |world.s.stream| - lastId
    }

    /** One turn of the inner loop: read, and reconcile if there is news or a reconnect to make
        up for; only then move on, behind all that was there or by as much as is read at once. */
    method Turn(world: World) returns (reply: Reply)
      requires Valid(world)
      modifies this, world
      ensures Valid(world)
      ensures |world.tape| < |old(world.tape)| || (reply == Killed && world.tape == old(world.tape))
      ensures reply == Ok && (old(recovering) || old(lastId < |world.s.stream|)) ==>
                seen >= old(Latest(world.s)) && !recovering
      ensures reply == Lost ==> recovering
      ensures if reply == Ok then
                lastId >= if world.readCount <= 0 then |old(world.s.stream)|
                          else Min(|old(world.s.stream)|, old(lastId) + world.readCount)
              else lastId == old(lastId)
      ensures |world.tape| + RATE >= Min(|old(world.tape)|, world.calm)
      ensures NoKill(old(world.tape)) ==> NoKill(world.tape) && (reply == Killed ==> world.tape == [])
      ensures reply == Lost ==> |world.tape| >= world.calm
      ensures |old(world.tape)| <= world.calm ==> world.s == old(world.s)
    {
      hide Final, CalmEnd, NoKill, FatesKnown;
      reply := world.Await();
      if reply == Lost {
        recovering := true;
      }
      if reply != Ok {
        return;
      }
      var entries := XRead(world.s, lastId, world.readCount);
      NewsIsVisible(world.s, lastId, world.readCount);
      if entries == [] && !recovering {
        return;
      }
      var newest := if entries == [] then lastId else ReadFrom(world.s, lastId) + |entries|;
      reply := Reconcile(world, newest);
      if reply == Ok {
        recovering := false;
        lastId := newest;
      }
    }

    /** Follows the log until the process dies. */
    method Watch(world: World)
      requires Valid(world)
      requires OnTrack(|world.tape|, world.calm, Behind(world), |world.end.stream|, RATE)
      modifies this, world
      ensures Valid(world)
      ensures world.tape == [] ==> OnTrack(0, world.calm, Behind(world), |world.end.stream|, 2 * RATE)
      ensures NoKill(old(world.tape)) ==> world.tape == []
    {
      hide Final, CalmEnd, NoKill, FatesKnown;
      while true
        invariant Valid(world) && (NoKill(old(world.tape)) ==> NoKill(world.tape))
        invariant OnTrack(|world.tape|, world.calm, Behind(world), |world.end.stream|, RATE)
        decreases |world.tape|
      {
        var reply := Turn(world);
        StreamGrows(world.s, world.tape);
        if reply == Killed {
          return;
        }
      }
    }
  }

  /** Any run of a process, from its start. Unless it dies before it is up: every later commit is
      still announced or known to be lost, and when neither is the case the consumer has exactly
      the committed pairs. If the process lives to the end of its tape (`rest` is empty) and this
      ends calmly for long enough, it is up and has read everything. */
  method AfterAnyRun(pairs: set<Pair>, readCount: int, tape: seq<Tick>, ghost calm: nat)
    returns (up: bool, s: State, handed: set<Pair>, lastId: nat, rest: seq<Tick>, ghost seen: nat)
    requires CalmEnd(tape, calm) && calm <= |tape|
    ensures Wellformed(s) && Final(s, rest) == Final(State([pairs], {}, [], 0, {}), tape)
    ensures up ==> Covered(s, seen, lastId) && handed == s.history[seen]
    ensures up && (forall v :: v in s.unpublished + s.lost ==> v <= seen) && lastId == |s.stream|
            ==> handed == s.history[Latest(s)]
    ensures up && (forall t :: t in tape ==> t.reply != Killed) ==> rest == []
    ensures FatesKnown(s)
    ensures rest == [] && calm > RATE * (|s.stream| + 2) ==> up && lastId == |s.stream|
  {
    hide Final, CalmEnd, FatesKnown;
    var world := new World(pairs, readCount, tape, calm);
    var watcher := new Watcher();
    var reply := watcher.Start(world);
    up := reply == Ok;
    if up {
      StreamGrows(world.s, world.tape);
      watcher.Watch(world);
    }
    s, handed, lastId, seen := world.s, watcher.handed, watcher.lastId, watcher.seen;
    rest := world.tape;
    AtTheEnd(s);
    if up && (forall v :: v in s.unpublished + s.lost ==> v <= seen) && lastId == |s.stream| {
      NothingPending(s, seen);
    }
  }

  lemma AtTheEnd(s: State)
    requires Wellformed(s)
    ensures Final(s, []) == s
  {
  }

  lemma NothingPending(s: State, seen: nat)
    requires Wellformed(s) && Covered(s, seen, |s.stream|)
    requires forall v :: v in s.unpublished + s.lost ==> v <= seen
    ensures seen == Latest(s)
  {
    assert !Announced(s, Latest(s), |s.stream|);
    assert Latest(s) in s.unpublished || Latest(s) in s.lost ==> Latest(s) in s.unpublished + s.lost;
  }
}
