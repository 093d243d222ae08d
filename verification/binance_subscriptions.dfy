/** Keeping the subscriptions of one Binance socket in step with the desired set of pairs.

    `SyncSubscriptions` runs under a lock; at each of its `await`s other tasks may set a new
    desired set, the socket may break, be dropped and be opened again. A run is driven by a tape
    that says what happens at each `await`; every finite tape is allowed. */
module BinanceSubscriptions {
  import opened Wrappers
  import opened BinancePairs

  /** What other tasks and the network may do while a task waits. */
  datatype Happening =
    | Update(pairs: set<Pair>)  // `update_pairs` sets a new set, then waits for the lock
    | Breaks                    // the socket stops working; `stream` has not noticed yet
    | Drops                     // `stream` leaves the connection
    | Dials                     // `stream` takes the current desired set and starts to connect
    | DialFails
    | Connects                  // the socket is open; `stream` then waits for the lock

  /** The fate of a control message. */
  datatype Sending = Sent | SentThenFailed | NotSent

  datatype Tick = Tick(before: seq<Happening>, sending: Sending, after: seq<Happening>, sync: bool)

  /** Everything that happens on a tape, in order. */
  function Happened(tape: seq<Tick>): seq<Happening> {
    if tape == [] then []
    else
      var t := tape[|tape| - 1];
      Happened(tape[..|tape| - 1]) + t.before + t.after
  }

  /** The set wanted after some happenings. */
  function LastWanted(happenings: seq<Happening>, before: set<Pair>): set<Pair> {
    if happenings == [] then before
    else
      var last := happenings[|happenings| - 1];
      if last.Update? then Capped(last.pairs) else LastWanted(happenings[..|happenings| - 1], before)
  }

  datatype Link = Off | Dialing | On

  /** A dial needs a wanted pair; only what was dialled connects. */
  function LinkStep(h: Happening, desired: set<Pair>, link: Link): Link {
    match h
    case Drops => if link == On then Off else link
    case Dials => if link == Off && desired != {} then Dialing else link
    case DialFails => if link == Dialing then Off else link
    case Connects => if link == Dialing then On else link
    case _ => link
  }

  /** How far the socket is after some happenings. */
  function LastLink(happenings: seq<Happening>, desired: set<Pair>, before: Link): Link {
    if happenings == [] then before
    else
      var init := happenings[..|happenings| - 1];
      LinkStep(happenings[|happenings| - 1], LastWanted(init, desired), LastLink(init, desired, before))
  }

  /** Nothing breaks, and somebody always wants a pair. */
  predicate Smooth(happenings: seq<Happening>) {
    forall h :: h in happenings ==> !h.Breaks? && (h.Update? ==> h.pairs != {})
  }

  predicate Reliable(tape: seq<Tick>) {
    Smooth(Happened(tape)) && forall t :: t in tape ==> t.sending == Sent
  }

  /** What has been taken off a tape. */
  function Taken(before: seq<Tick>, after: seq<Tick>): seq<Tick>
    requires |after| <= |before|
  {
    before[..|before| - |after|]
  }

  /** What a run is about: the tape left, what is wanted, how many syncs wait, how far the socket is,
      and whether all is well. */
  datatype View = View(tape: seq<Tick>, desired: set<Pair>, waiting: nat, link: Link, sound: bool)

  /** A stretch of a run leads from one view to the other. */
  ghost predicate Went(v: View, w: View) {
    && |w.tape| <= |v.tape| && v.tape == Taken(v.tape, w.tape) + w.tape
    && w.desired == LastWanted(Happened(Taken(v.tape, w.tape)), v.desired)
    && w.link == LastLink(Happened(Taken(v.tape, w.tape)), v.desired, v.link)
    && w.waiting <= v.waiting + |Happened(Taken(v.tape, w.tape))|
    && (v.sound && Reliable(Taken(v.tape, w.tape)) ==> w.sound)
  }

  lemma Grouped(a: seq<Happening>, b: seq<Happening>, c: seq<Happening>, d: seq<Happening>)
    ensures a + b + c + d == a + (b + c + d)
  {
  }

  lemma {:induction false} HappenedAppend(a: seq<Tick>, b: seq<Tick>)
    ensures Happened(a + b) == Happened(a) + Happened(b)
  {
    if b == [] {
      assert a + b == a;
    } else {
      var init, t := b[..|b| - 1], b[|b| - 1];
      HappenedAppend(a, init);
      assert (a + b)[..|a + b| - 1] == a + init && (a + b)[|a + b| - 1] == t;
      Grouped(Happened(a), Happened(init), t.before, t.after);
    }
  }

  lemma {:induction false} LastAppend(a: seq<Happening>, b: seq<Happening>, desired: set<Pair>, link: Link)
    ensures LastWanted(a + b, desired) == LastWanted(b, LastWanted(a, desired))
    ensures LastLink(a + b, desired, link) == LastLink(b, LastWanted(a, desired), LastLink(a, desired, link))
  {
    if b == [] {
      assert a + b == a;
    } else {
      LastAppend(a, b[..|b| - 1], desired, link);
      assert (a + b)[..|a + b| - 1] == a + b[..|b| - 1];
    }
  }

  lemma WentTwice(u: View, v: View, w: View)
    requires Went(u, v) && Went(v, w)
    ensures Went(u, w) && |w.tape| <= |v.tape| <= |u.tape|
    ensures u.tape == Taken(u.tape, v.tape) + v.tape && v.tape == Taken(v.tape, w.tape) + w.tape
    ensures Happened(Taken(u.tape, w.tape)) == Happened(Taken(u.tape, v.tape)) + Happened(Taken(v.tape, w.tape))
  {
    hide Happened, LastWanted, LastLink;
    var a, b := Taken(u.tape, v.tape), Taken(v.tape, w.tape);
    assert Taken(u.tape, w.tape) == a + b;
    HappenedAppend(a, b);
    LastAppend(Happened(a), Happened(b), u.desired, u.link);
    assert u.tape == (a + b) + w.tape;
    if Reliable(a + b) {
      assert Smooth(Happened(a)) && Smooth(Happened(b));
      assert forall t :: t in a ==> t in a + b;
      assert forall t :: t in b ==> t in a + b;
    }
  }

  /** Nothing is taken and nothing happens. */
  lemma Stood(v: View, w: View)
    requires w == v.(waiting := w.waiting) && w.waiting <= v.waiting
    ensures Went(v, w)
  {
    assert Taken(v.tape, v.tape) == [] && [] + v.tape == v.tape;
  }

  /** One tick, both parts of which happened; past its end a tape is quiet. */
  lemma OneTick(v: View, t: Tick, w: View)
    requires if v.tape == [] then w.tape == [] && t == QUIET else w.tape == v.tape[1..] && t == v.tape[0]
    requires w.desired == LastWanted(t.before + t.after, v.desired)
    requires w.link == LastLink(t.before + t.after, v.desired, v.link)
    requires w.waiting <= v.waiting + |t.before| + |t.after|
    requires v.sound && Smooth(t.before + t.after) && t.sending == Sent ==> w.sound
    ensures Went(v, w)
  {
    if v.tape == [] {
      assert [] + v.tape == v.tape && t.before + t.after == [];
    } else {
      var taken := Taken(v.tape, w.tape);
      assert taken == [t] && v.tape == [t] + w.tape;
      assert taken[..0] == [] && Happened(taken[..0]) == [];
      assert Happened(taken) == [] + t.before + t.after == t.before + t.after;
    }
  }

  const QUIET := Tick([], Sent, [], false)

  lemma {:induction false} CappedIsSome(pairs: set<Pair>)
    requires pairs != {}
    ensures Capped(pairs) != {}
  {
    if |pairs| > MAX_STREAMS_PER_CONNECTION {
      assert SortedPairs(pairs)[0] in Capped(pairs);
    }
  }

  lemma {:induction false} ChunksFew(pairs: seq<Pair>)
    ensures |Chunks(pairs)| * MAX_PARAMS_PER_REQUEST < |pairs| + MAX_PARAMS_PER_REQUEST
    decreases |pairs|
  {
    if |pairs| > MAX_PARAMS_PER_REQUEST {
      ChunksFew(pairs[MAX_PARAMS_PER_REQUEST..]);
    }
  }

  lemma NoMembers(chunks: seq<seq<Pair>>)
    ensures Members(chunks[..0]) == {}
  {
  }

  lemma AllChunks(pairs: set<Pair>, chunks: seq<seq<Pair>>)
    requires chunks == Chunks(SortedPairs(pairs))
    ensures |pairs| <= MAX_STREAMS_PER_CONNECTION ==> |chunks| <= MAX_CHUNKS
    ensures Members(chunks) == pairs && Members(chunks[..0]) == {} && chunks[..|chunks|] == chunks
    ensures forall k :: 0 <= k < |chunks| ==> |chunks[k]| <= MAX_PARAMS_PER_REQUEST
  {
    hide Chunks, SortedPairs, Members;
    ChunksCover(SortedPairs(pairs));
    ChunksFew(SortedPairs(pairs));
    NoMembers(chunks);
    assert chunks[..|chunks|] == chunks;
    assert Members(chunks) == set p | p in SortedPairs(pairs);
  }

  /** Unsubscribing first stays within both sets; subscribing then makes it the goal. */
  lemma TwoChanges(start: set<Pair>, goal: set<Pair>)
    ensures Changed(start, false, start - goal) <= goal
    ensures Changed(Changed(start, false, start - goal), true, goal - start) == goal
  {
  }

  lemma NothingChanged(subscribed: set<Pair>, subscribe: bool)
    ensures Changed(subscribed, subscribe, {}) == subscribed
  {
  }

  class BinanceTradeStreamConsumer {
    var desired: set<Pair>
    var subscribed: set<Pair>
    var connection: Option<nat>
    var pairsAvailable: bool
    /** Tasks waiting for the lock in order to sync. */
    var waiting: nat
    var dialing: Option<set<Pair>>
    /** The other end of the current connection: what it was told, whether it is usable, whether
        a send on it has failed; and the pairs sent to it whose sender has not resumed yet. */
    var told: set<Pair>
    var open: bool
    var failed: bool
    ghost var inFlight: set<Pair>
    var connections: nat
    var tape: seq<Tick>

    /** Holds in every state, in the middle of a sync too. */
    ghost predicate Always()
      reads this
    {
      && |desired| <= MAX_STREAMS_PER_CONNECTION && |subscribed| <= MAX_STREAMS_PER_CONNECTION
      && pairsAvailable == (desired != {})
      && (dialing.Some? ==> connection == None && |dialing.value| <= MAX_STREAMS_PER_CONNECTION)
      && (connection == None ==> subscribed == {} && told == {} && !open)
      && (connection.Some? ==> connection.value < connections)
      && |inFlight| <= MAX_PARAMS_PER_REQUEST
      && (connection.Some? && !failed ==>
            && |told| <= MAX_STREAMS_PER_CONNECTION
            && told <= subscribed + inFlight && subscribed <= told + inFlight)
    }

    /** Holds whenever no sync is running: with none waiting either, an open connection on which
        no send failed carries exactly the desired pairs. */
    ghost predicate Rest()
      reads this
    {
      && Always() && inFlight == {}
      && (connection.Some? && open && !failed && waiting == 0 ==> subscribed == desired)
    }

    /** A connection, if there is one, works, and something is wanted of it. */
    ghost predicate Sound()
      reads this
    {
      desired != {} && (connection.Some? ==> open && !failed)
    }

    ghost function Link(): Link
      reads this
    {
      if connection.Some? then On else if dialing.Some? then Dialing else Off
    }

    ghost function Now(): View
      reads this
    {
      View(tape, desired, waiting, Link(), Sound())
    }

    constructor (pairs: set<Pair>, tape: seq<Tick>)
      ensures pairs != {} ==> Sound()
      ensures Rest() && this.tape == tape && desired == Capped(pairs) && waiting == 0
      ensures Link() == Off
    {
      CappedIsFirst(pairs);
      if pairs != {} {
        CappedIsSome(pairs);
      }
      desired, subscribed, connection, pairsAvailable := Capped(pairs), {}, None, Capped(pairs) != {};
      waiting, dialing, told, open, failed, inFlight, connections := 0, None, {}, false, false, {}, 0;
      this.tape := tape;
    }

    method SetDesired(pairs: set<Pair>)
      requires Always()
      modifies this`desired, this`pairsAvailable
      ensures Always() && desired == Capped(pairs)
    {
      CappedIsFirst(pairs);
      desired := Capped(pairs);
      pairsAvailable := desired != {};
    }

    method Happen(h: Happening)
      requires Always()
      modifies this`desired, this`pairsAvailable, this`subscribed, this`connection, this`waiting, this`dialing,
               this`told, this`open, this`failed, this`connections, this`inFlight
      ensures Always()
      ensures Disturbed(old(desired), old(subscribed), old(told), old(connection), old(open), old(failed),
                        old(waiting), old(inFlight), old(connections))
      ensures desired == if h.Update? then Capped(h.pairs) else old(desired)
      ensures waiting == old(waiting) + if h.Update? || (h.Connects? && old(dialing).Some?) then 1 else 0
      ensures Link() == LinkStep(h, old(desired), old(Link()))
      ensures h.Dials? ==>
                dialing == if old(connection) == None && old(desired) != {} then Some(old(desired)) else old(dialing)
      ensures h.Connects? && old(dialing).Some? ==>
                connection == Some(old(connections)) && open && subscribed == told == old(dialing).value
      ensures h.DialFails? ==> dialing == None
      ensures if h.Breaks? || (h.Drops? && old(connection).Some?) then !open
              else h.Connects? || h.Drops? || open == old(open)
      ensures !h.Drops? && !h.Connects? ==> connection == old(connection) && subscribed == old(subscribed)
      ensures !h.Dials? && !h.Connects? && !h.DialFails? ==> dialing == old(dialing)
      ensures old(Sound()) && Smooth([h]) ==> Sound()
    {
      hide Capped;
      match h
      case Update(pairs) =>
        if pairs != {} {
          CappedIsSome(pairs);
        }
        assert h in [h];
        SetDesired(pairs);
        waiting := waiting + 1;
      case Breaks =>
        assert h in [h];
        open := false;
      case Drops =>
        LeaveConnection();
      case Dials =>
        if connection == None && desired != {} {
          dialing := Some(desired);
        }
      case DialFails =>
        dialing := None;
      case Connects =>
        if dialing.Some? {
          EnterConnection();
        }
    }

    method LeaveConnection()
      requires Always()
      modifies this`subscribed, this`connection, this`told, this`open
      ensures Always()
      ensures Disturbed(desired, old(subscribed), old(told), old(connection), old(open), failed, waiting, inFlight,
                        connections)
      ensures connection == None
    {
      connection, subscribed, told, open := None, {}, {}, false;
    }

    /** The socket that was dialled is open; its URL has told the server the pairs. */
    method EnterConnection()
      requires Always() && dialing.Some?
      modifies this`subscribed, this`connection, this`waiting, this`dialing, this`told, this`open, this`failed,
               this`connections
      ensures Always()
      ensures Disturbed(desired, old(subscribed), old(told), old(connection), old(open), old(failed), old(waiting),
                        inFlight, old(connections))
      ensures connection == Some(old(connections)) && open && !failed && subscribed == told == old(dialing).value
      ensures waiting == old(waiting) + 1 && dialing == None
    {
      connection, subscribed, told := Some(connections), dialing.value, dialing.value;
      connections, open, failed, dialing := connections + 1, true, false, None;
      waiting := waiting + 1;
    }

    /** What can have changed during an `await`: a new desired set leaves a waiting sync behind,
        so does a new connection; the old connection, while it lasts, can only break. */
    ghost predicate Disturbed(desired0: set<Pair>, subscribed0: set<Pair>, told0: set<Pair>, connection0: Option<nat>,
                              open0: bool, failed0: bool, waiting0: nat, inFlight0: set<Pair>, connections0: nat)
      reads this
    {
      && waiting >= waiting0 && connections >= connections0 && inFlight == inFlight0
      && (desired != desired0 ==> waiting > 0)
      && (connection == connection0 || connection == None ||
            (connection.value >= connections0 && waiting > 0 && told == subscribed && !failed))
      && (connection == connection0 && connection.Some? ==>
            subscribed == subscribed0 && told == told0 && failed == failed0 && (open ==> open0))
    }

    method Await(happenings: seq<Happening>)
      requires Always()
      modifies this`desired, this`pairsAvailable, this`subscribed, this`connection, this`waiting, this`dialing,
               this`told, this`open, this`failed, this`connections, this`inFlight
      ensures Always()
      ensures Disturbed(old(desired), old(subscribed), old(told), old(connection), old(open), old(failed),
                        old(waiting), old(inFlight), old(connections))
      ensures desired == LastWanted(happenings, old(desired)) && waiting <= old(waiting) + |happenings|
      ensures Link() == LastLink(happenings, old(desired), old(Link()))
      ensures old(Sound()) && Smooth(happenings) ==> Sound()
      ensures happenings == [] ==> waiting == old(waiting)
    {
      hide Capped;
      ghost var sound := Sound();
      for i := 0 to |happenings|
        invariant Always()
        invariant Disturbed(old(desired), old(subscribed), old(told), old(connection), old(open), old(failed),
                            old(waiting), old(inFlight), old(connections))
        invariant desired == LastWanted(happenings[..i], old(desired))
        invariant Link() == LastLink(happenings[..i], old(desired), old(Link()))
        invariant old(waiting) <= waiting <= old(waiting) + i
        invariant sound && Smooth(happenings) ==> Sound()
      {
        assert happenings[..i + 1][..i] == happenings[..i];
        assert happenings[i] in happenings;
        Happen(happenings[i]);
      }
      assert happenings[..|happenings|] == happenings;
    }

    method NextTick() returns (t: Tick)
      modifies this`tape
      ensures if old(tape) == [] then tape == [] && t == QUIET else tape == old(tape)[1..] && t == old(tape)[0]
      ensures old(Sound()) ==> Sound()
      ensures old(Always()) ==> Always()
    {
      if tape == [] {
        return QUIET;
      }
      t, tape := tape[0], tape[1..];
    }

    /** An `await` that sends nothing. */
    method Pause() returns (t: Tick)
      requires Always()
      modifies this
      ensures Always() && (old(tape) != [] ==> t == old(tape)[0])
      ensures Disturbed(old(desired), old(subscribed), old(told), old(connection), old(open), old(failed),
                        old(waiting), old(inFlight), old(connections))
      ensures Went(old(Now()), Now())
      ensures |tape| == if old(tape) == [] then 0 else |old(tape)| - 1
      ensures Happened(Taken(old(tape), tape)) == [] ==> waiting == old(waiting)
    {
      hide Happened, Went, LastWanted, Smooth, Sound, Taken, Always;
      ghost var v0 := Now();
      t := NextTick();
      Await(t.before);
      Await(t.after);
      BothParts(t, v0.desired, v0.link);
      OneTick(v0, t, Now());
      QuietTick(v0.tape, t, tape);
    }

    /** Brings the current connection to the desired set; unsubscribing goes first. The lock is
        held throughout, so no other sync runs. */
    method SyncSubscriptions()
      requires Always() && inFlight == {} && waiting > 0
      modifies this
      ensures Rest()
      ensures Went(old(Now()), Now())
      ensures |old(tape)| - |tape| <= MAX_TICKS_PER_SYNC
      ensures Happened(Taken(old(tape), tape)) == [] ==> waiting == old(waiting) - 1
    {
      hide Went, Happened, Taken, Sound;
      ghost var v0 := Now();
      NothingTaken(tape);
      TakeTurn();
      ghost var v1 := Now();
      Stood(v0, v1);
      if connection == None {
        return;
      }
      if desired == {} {
        Close();
      } else {
        BringTo(desired);
      }
      WentTwice(v0, v1, Now());
    }

    method TakeTurn()
      requires Always() && waiting > 0
      modifies this`waiting
      ensures Always() && waiting == old(waiting) - 1 && Sound() == old(Sound())
    {
      waiting := waiting - 1;
    }

    /** Nothing is wanted of the connection any more. */
    method Close()
      requires Always() && inFlight == {} && connection.Some? && desired == {}
      modifies this
      ensures Always() && inFlight == {}
      ensures waiting >= old(waiting)
      ensures connection == old(connection) || connection == None || waiting > 0
      ensures connection == old(connection) ==> !open
      ensures Went(old(Now()), Now())
      ensures |old(tape)| - |tape| <= MAX_TICKS_PER_SYNC
      ensures Happened(Taken(old(tape), tape)) == [] ==> waiting == old(waiting)
    {
      hide Went, Happened, Taken;
      open := false;
      var t := Pause();
    }

    /** Both kinds of change; a connection that stays and on which no send failed has them all. */
    method BringTo(goal: set<Pair>)
      requires Always() && inFlight == {} && connection.Some? && goal == desired
      modifies this
      ensures Always() && inFlight == {}
      ensures waiting >= old(waiting) && (desired == goal || waiting > 0)
      ensures connection == old(connection) || connection == None || waiting > 0
      ensures connection == old(connection) && !failed ==> subscribed == goal
      ensures Went(old(Now()), Now())
      ensures |old(tape)| - |tape| <= MAX_TICKS_PER_SYNC
      ensures Happened(Taken(old(tape), tape)) == [] ==> waiting == old(waiting)
    {
      hide Changed, Went, Happened, Taken, Sound;
      ghost var v0, start := Now(), subscribed;
      var current := connection.value;
      var surplus, missing := subscribed - goal, goal - subscribed;
      TwoChanges(start, goal);
      SubsetSize(surplus, subscribed);
      SubsetSize(missing, goal);
      var go := ApplyChange(current, false, surplus, subscribed);
      if go {
        ghost var v1 := Now();
        go := ApplyChange(current, true, missing, goal);
        WentTwice(v0, v1, Now());
      }
    }

    /** Sends one kind of change, chunk by chunk. `room` bounds what may be subscribed meanwhile. */
    method ApplyChange(current: nat, subscribe: bool, pairs: set<Pair>, ghost room: set<Pair>) returns (go: bool)
      requires Always() && inFlight == {} && connection == Some(current)
      requires subscribed <= room && |room| <= MAX_STREAMS_PER_CONNECTION && (subscribe ==> pairs <= room)
      requires |pairs| <= MAX_STREAMS_PER_CONNECTION
      modifies this
      ensures Always() && inFlight == {}
      ensures waiting >= old(waiting) && (desired == old(desired) || waiting > 0)
      ensures connection == Some(current) || connection == None || (waiting > 0 && connection.value >= old(connections))
      ensures go ==> connection == Some(current)
                     && subscribed == Changed(old(subscribed), subscribe, pairs)
      ensures !go && connection == Some(current) ==> failed
      ensures go && old(failed) == false ==> !failed
      ensures Went(old(Now()), Now())
      ensures |tape| <= |old(tape)| && |old(tape)| - |tape| <= MAX_CHUNKS
      ensures Happened(Taken(old(tape), tape)) == [] ==> waiting == old(waiting)
    {
      hide Chunks, SortedPairs, Members, Always, Changed, Went, Happened, Sound;
      var chunks := Chunks(SortedPairs(pairs));
      AllChunks(pairs, chunks);
      NothingChanged(subscribed, subscribe);
      ghost var start, done := subscribed, {};
      ghost var v0 := Now();
      Stood(v0, v0);
      NothingTaken(tape);
      for k := 0 to |chunks|
        invariant Always() && inFlight == {}
        invariant waiting >= old(waiting) && (desired == old(desired) || waiting > 0)
        invariant connection == Some(current) && connections >= old(connections)
        invariant subscribed <= room && failed == old(failed)
        invariant done == Members(chunks[..k]) && subscribed == Changed(start, subscribe, done)
        invariant Went(v0, Now())
        invariant |tape| <= |v0.tape| && |v0.tape| - |tape| <= k
        invariant Happened(Taken(v0.tape, tape)) == [] ==> waiting == old(waiting)
      {
        var chunk := ChunkSet(chunks, k);
        ChangedTwice(start, subscribe, done, chunk);
        done := done + chunk;
        ghost var v1 := Now();
        go := SendChunk(current, subscribe, chunk, room);
        WentTwice(v0, v1, Now());
        if !go {
          return;
        }
      }
      go := true;
    }

    /** Sends one chunk and, if the connection is still the same, records it. */
    method SendChunk(current: nat, subscribe: bool, chunk: set<Pair>, ghost room: set<Pair>) returns (go: bool)
      requires Always() && inFlight == {} && connection == Some(current)
      requires |chunk| <= MAX_PARAMS_PER_REQUEST
      requires subscribed <= room && |room| <= MAX_STREAMS_PER_CONNECTION && (subscribe ==> chunk <= room)
      modifies this
      ensures Always() && inFlight == {} && connections >= old(connections)
      ensures waiting >= old(waiting) && (desired == old(desired) || waiting > 0)
      ensures connection == Some(current) || connection == None || (waiting > 0 && connection.value >= old(connections))
      ensures go ==> connection == Some(current) && failed == old(failed)
                     && subscribed == Changed(old(subscribed), subscribe, chunk) && subscribed <= room
      ensures !go && connection == Some(current) ==> failed
      ensures Went(old(Now()), Now())
      ensures |tape| <= |old(tape)| <= |tape| + 1
      ensures Happened(Taken(old(tape), tape)) == [] ==> waiting == old(waiting)
    {
      hide Went, Happened, Taken, LastWanted, LastLink, Sound, Changed;
      var delivered := SendControl(current, subscribe, chunk, room);
      go := delivered && connection == Some(current);
      Resume(go, subscribe, chunk, room);
    }

    /** The sender goes on; after a delivery it records the change. */
    method Resume(record: bool, subscribe: bool, chunk: set<Pair>, ghost room: set<Pair>)
      requires Always()
      requires record ==> subscribed <= room && |room| <= MAX_STREAMS_PER_CONNECTION && (subscribe ==> chunk <= room)
      requires record ==> connection.Some? && (failed || told == Changed(subscribed, subscribe, chunk))
      requires !record && connection.Some? ==> failed || told == subscribed
      modifies this`subscribed, this`inFlight
      ensures Always() && inFlight == {} && Now() == old(Now())
      ensures subscribed == if record then Changed(old(subscribed), subscribe, chunk) else old(subscribed)
      ensures record ==> subscribed <= room
    {
      if record {
        subscribed := Changed(subscribed, subscribe, chunk);
        SubsetSize(subscribed, room);
      }
      inFlight := {};
    }

    /** One control message: throttle, send, resume. */
    method SendControl(current: nat, subscribe: bool, chunk: set<Pair>, ghost room: set<Pair>) returns (delivered: bool)
      requires Always() && inFlight == {} && connection == Some(current)
      requires |chunk| <= MAX_PARAMS_PER_REQUEST
      requires subscribed <= room && |room| <= MAX_STREAMS_PER_CONNECTION && (subscribe ==> chunk <= room)
      modifies this
      ensures Always() && connections >= old(connections)
      ensures waiting >= old(waiting) && (desired == old(desired) || waiting > 0)
      ensures connection == Some(current) || connection == None || (waiting > 0 && connection.value >= old(connections))
      ensures connection == Some(current) ==> subscribed == old(subscribed)
      ensures connection != Some(current) && connection.Some? ==> told == subscribed
      ensures delivered && connection == Some(current) ==>
                failed == old(failed) && (failed || told == Changed(subscribed, subscribe, chunk))
      ensures !delivered && connection == Some(current) ==> failed
      ensures Went(old(Now()), Now())
      ensures |tape| <= |old(tape)| <= |tape| + 1
      ensures Happened(Taken(old(tape), tape)) == [] ==> waiting == old(waiting)
    {
      hide Went, Happened, LastWanted, LastLink, Smooth, Sound, Taken, Changed;
      ghost var v0 := Now();
      var t := NextTick();
      Await(t.before);
      if connection == Some(current) && open && t.sending != NotSent {
        delivered := Transmit(subscribe, chunk, room, t.sending == Sent, t.after);
      } else {
        Fail(current, t.after);
        delivered := false;
      }
      BothParts(t, v0.desired, v0.link);
      OneTick(v0, t, Now());
      QuietTick(v0.tape, t, tape);
    }

    /** The send gets an exception, at once or because the connection is not open. */
    method Fail(current: nat, after: seq<Happening>)
      requires Always() && inFlight == {}
      modifies this
      ensures Always() && tape == old(tape)
      ensures waiting >= old(waiting) && (desired == old(desired) || waiting > 0) && connections >= old(connections)
      ensures connection == old(connection) || connection == None ||
              (waiting > 0 && connection.value >= old(connections))
      ensures connection == old(connection) && connection.Some? ==> subscribed == old(subscribed) && told == old(told)
      ensures connection != old(connection) && connection.Some? ==> told == subscribed
      ensures old(connection) == Some(current) && connection == old(connection) ==> failed
      ensures desired == LastWanted(after, old(desired)) && waiting <= old(waiting) + |after|
      ensures Link() == LastLink(after, old(desired), old(Link()))
      ensures (old(connection) != Some(current) || !old(open)) && old(Sound()) && Smooth(after) ==> Sound()
      ensures after == [] ==> waiting == old(waiting)
    {
      hide LastWanted, Smooth;
      if connection == Some(current) {
        failed := true;
      }
      Await(after);
    }

    /** The server has the message. */
    method Receive(subscribe: bool, chunk: set<Pair>, ghost room: set<Pair>, resumes: bool)
      requires Always() && inFlight == {} && connection.Some?
      requires |chunk| <= MAX_PARAMS_PER_REQUEST
      requires subscribed <= room && |room| <= MAX_STREAMS_PER_CONNECTION && (subscribe ==> chunk <= room)
      modifies this`told, this`failed, this`inFlight
      ensures Always()
      ensures failed == (old(failed) || !resumes)
      ensures !failed ==> told == Changed(subscribed, subscribe, chunk)
      ensures old(Sound()) && resumes ==> Sound()
    {
      assert !failed ==> told == subscribed;
      told := Changed(told, subscribe, chunk);
      if !resumes {
        failed := true;
      } else {
        inFlight := chunk;
        SubsetSize(Changed(subscribed, subscribe, chunk), room);
      }
    }

    /** The server has the message; the sender resumes later, or gets an exception. */
    method Transmit(subscribe: bool, chunk: set<Pair>, ghost room: set<Pair>, resumes: bool, after: seq<Happening>)
      returns (delivered: bool)
      requires Always() && inFlight == {} && connection.Some?
      requires |chunk| <= MAX_PARAMS_PER_REQUEST
      requires subscribed <= room && |room| <= MAX_STREAMS_PER_CONNECTION && (subscribe ==> chunk <= room)
      modifies this
      ensures Always() && tape == old(tape) && connections >= old(connections)
      ensures waiting >= old(waiting) && (desired == old(desired) || waiting > 0)
      ensures connection == old(connection) || connection == None ||
              (waiting > 0 && connection.value >= old(connections))
      ensures connection == old(connection) ==> subscribed == old(subscribed)
      ensures connection != old(connection) && connection.Some? ==> told == subscribed
      ensures delivered && connection == old(connection) ==>
                failed == old(failed) && (failed || told == Changed(subscribed, subscribe, chunk))
      ensures !delivered && connection == old(connection) ==> failed
      ensures desired == LastWanted(after, old(desired)) && waiting <= old(waiting) + |after|
      ensures Link() == LastLink(after, old(desired), old(Link()))
      ensures old(Sound()) && resumes && Smooth(after) ==> Sound()
      ensures after == [] ==> waiting == old(waiting)
    {
      hide LastWanted, Smooth, Sound;
      Receive(subscribe, chunk, room, resumes);
      Await(after);
      delivered := resumes;
    }

    /** One turn of the schedule: things happen, then a waiting sync may get the lock. */
    method Turn()
      requires Rest() && tape != []
      modifies this
      ensures Rest() && |tape| < |old(tape)| && |old(tape)| - |tape| <= MAX_TICKS_PER_SYNC + 1
      ensures Went(old(Now()), Now())
      ensures old(tape)[0].sync && Happened(Taken(old(tape), tape)) == [] ==>
                waiting == if old(waiting) > 0 then old(waiting) - 1 else 0
    {
      hide Happened, Went, LastWanted, Smooth, Sound, Taken;
      ghost var v0 := Now();
      var t := Pause();
      if t.sync && waiting > 0 {
        ghost var v1 := Now();
        SyncSubscriptions();
        WentTwice(v0, v1, Now());
      }
    }

    /** Any schedule: what happens between syncs, and when a waiting sync gets the lock. In the end the
        last set asked for is the desired one. If at last nothing happens any more and the lock is
        free for long enough, no sync is left waiting. */
    method Run(ghost calm: nat)
      requires Rest() && calm <= |tape| && Calm(tape[|tape| - calm..])
      modifies this
      ensures Rest() && tape == []
      ensures desired == LastWanted(Happened(old(tape)), old(desired))
      ensures Link() == LastLink(Happened(old(tape)), old(desired), old(Link()))
      ensures old(Sound()) && Reliable(old(tape)) ==> Sound()
      ensures calm > (MAX_TICKS_PER_SYNC + 1) * (old(waiting) + |Happened(old(tape))| + 1) ==> waiting == 0
    {
      hide Happened, Went, LastWanted, Reliable, Calm, Sound, Rest, Taken;
      ghost var v0 := Now();
      ghost var most := waiting + |Happened(tape)|;
      Stood(v0, v0);
      while tape != []
        invariant Rest() && |tape| <= |v0.tape| && waiting <= most
        invariant Went(v0, Now())
        invariant InTime(|tape|, calm, waiting, most)
        decreases |tape|
      {
        ghost var v1 := Now();
        Turn();
        WentTwice(v0, v1, Now());
        MostWaiting(v0, Now());
        StillInTime(v0.tape, v1.tape, tape, calm, v1.waiting, waiting, most);
      }
      WholeTape(v0, Now());
    }
  }

  const MAX_CHUNKS := 6
  const MAX_TICKS_PER_SYNC := 12

  /** Nothing happens, and the lock is free. */
  predicate Calm(tape: seq<Tick>) {
    forall t :: t in tape ==> t.before == [] && t.after == [] && t.sync
  }

  /** Once only `calm` ticks are left, the syncs get done in the ticks that pass. */
  predicate InTime(left: nat, calm: nat, waiting: nat, most: nat) {
    left <= calm ==> waiting == 0 || left >= calm - MAX_TICKS_PER_SYNC - (MAX_TICKS_PER_SYNC + 1) * (most - waiting)
  }

  lemma BothParts(t: Tick, desired: set<Pair>, link: Link)
    ensures LastWanted(t.after, LastWanted(t.before, desired)) == LastWanted(t.before + t.after, desired)
    ensures LastLink(t.after, LastWanted(t.before, desired), LastLink(t.before, desired, link))
            == LastLink(t.before + t.after, desired, link)
    ensures Smooth(t.before + t.after) <==> Smooth(t.before) && Smooth(t.after)
  {
    LastAppend(t.before, t.after, desired, link);
    if Smooth(t.before + t.after) {
      assert forall h :: h in t.before ==> h in t.before + t.after;
      assert forall h :: h in t.after ==> h in t.before + t.after;
    }
  }

  lemma NothingTaken(tape: seq<Tick>)
    ensures Happened(Taken(tape, tape)) == []
  {
  }

  /** If nothing happened on a tick that was taken, both its parts are empty. */
  lemma QuietTick(tape: seq<Tick>, t: Tick, tape': seq<Tick>)
    requires if tape == [] then tape' == [] && t == QUIET else tape' == tape[1..] && t == tape[0]
    ensures Happened(Taken(tape, tape')) == t.before + t.after
  {
    if tape != [] {
      var taken := Taken(tape, tape');
      assert taken == [t] && taken[..0] == [];
      assert Happened(taken) == [] + t.before + t.after == t.before + t.after;
    } else {
      assert t.before + t.after == [];
    }
  }

  lemma MostWaiting(v: View, w: View)
    requires Went(v, w)
    ensures w.waiting <= v.waiting + |Happened(v.tape)|
  {
    HappenedAppend(Taken(v.tape, w.tape), w.tape);
  }

  lemma {:induction false} CalmHappened(tape: seq<Tick>)
    requires Calm(tape)
    ensures Happened(tape) == []
  {
    if tape != [] {
      CalmHappened(tape[..|tape| - 1]);
      assert tape[|tape| - 1] in tape;
    }
  }

  /** Within the calm end of the tape a waiting sync gets done. */
  lemma StillInTime(tape0: seq<Tick>, tape1: seq<Tick>, tape2: seq<Tick>, calm: nat, waiting1: nat, waiting2: nat,
                    most: nat)
    requires |tape2| < |tape1| <= |tape0| && |tape1| - |tape2| <= MAX_TICKS_PER_SYNC + 1
    requires tape0 == Taken(tape0, tape1) + tape1 && tape1 == Taken(tape1, tape2) + tape2
    requires calm <= |tape0| && Calm(tape0[|tape0| - calm..])
    requires InTime(|tape1|, calm, waiting1, most) && waiting1 <= most && waiting2 <= most
    requires tape1[0].sync && Happened(Taken(tape1, tape2)) == [] ==>
               waiting2 == if waiting1 > 0 then waiting1 - 1 else 0
    ensures InTime(|tape2|, calm, waiting2, most)
  {
    if |tape1| <= calm {
      var end := tape0[|tape0| - calm..];
      assert end[calm - |tape1|..] == tape1;
      assert forall u :: u in tape1 ==> u in end;
      assert tape1[0] in tape1;
      var taken := Taken(tape1, tape2);
      assert forall u :: u in taken ==> u in tape1;
      CalmHappened(taken);
    }
  }

  lemma WholeTape(v: View, w: View)
    requires Went(v, w) && w.tape == []
    ensures w.desired == LastWanted(Happened(v.tape), v.desired)
    ensures w.link == LastLink(Happened(v.tape), v.desired, v.link)
    ensures v.sound && Reliable(v.tape) ==> w.sound
  {
    assert Taken(v.tape, []) == v.tape;
  }

  /** After any run: never more than 1024 pairs, the server knows what is recorded here, and once
      no sync is due the open connection carries exactly the desired pairs. These are the pairs asked
      for last. There is a connection only if one was opened and not left since, and there is one if a
      dial and what came of it were not lost. While nothing breaks it stays usable, and a calm end of
      the tape, long enough for what happened before it, leaves no sync due. */
  method AfterAnyRun(pairs: set<Pair>, tape: seq<Tick>, ghost calm: nat)
    returns (desired: set<Pair>, subscribed: set<Pair>, told: set<Pair>, connected: bool, usable: bool, due: bool)
    requires calm <= |tape| && Calm(tape[|tape| - calm..])
    ensures |desired| <= MAX_STREAMS_PER_CONNECTION && |subscribed| <= MAX_STREAMS_PER_CONNECTION
    ensures !connected ==> subscribed == {} && told == {}
    ensures connected && usable ==> told == subscribed
    ensures connected && usable && !due ==> subscribed == desired
    ensures forall i :: LastUpdate(Happened(tape), i) ==> desired == Capped(Happened(tape)[i].pairs)
    ensures (forall h :: h in Happened(tape) ==> !h.Update?) ==> desired == Capped(pairs)
    ensures (exists h :: h in Happened(tape) && h.Update?) ==> exists i :: LastUpdate(Happened(tape), i)
    ensures pairs != {} && Reliable(tape) && connected ==> usable
    ensures connected ==> exists j :: LastConnect(Happened(tape), j)
    ensures (exists i, j :: Opened(Happened(tape), Capped(pairs), i, j)) ==> connected
    ensures calm > (MAX_TICKS_PER_SYNC + 1) * (|Happened(tape)| + 1) ==> !due
  {
    hide Happened, Calm, Reliable, LastWanted, LastLink, Opened, LastConnect;
    var consumer := new BinanceTradeStreamConsumer(pairs, tape);
    consumer.Run(calm);
    desired, subscribed, told := consumer.desired, consumer.subscribed, consumer.told;
    connected := consumer.connection.Some?;
    usable, due := consumer.open && !consumer.failed, consumer.waiting > 0;
    if connected && usable {
      assert told <= subscribed + {} && subscribed <= told + {};
    }
    LastWantedIs(Happened(tape), Capped(pairs));
    LinkIs(Happened(tape), Capped(pairs));
    if h :| h in Happened(tape) && h.Update? {
      LastUpdateExists(Happened(tape), h);
    }
  }

  /** Happening i is the last update. */
  predicate LastUpdate(happenings: seq<Happening>, i: int) {
    && 0 <= i < |happenings| && happenings[i].Update?
    && forall j :: i < j < |happenings| ==> !happenings[j].Update?
  }

  /** Of some updates one is the last. */
  lemma {:induction false} LastUpdateExists(happenings: seq<Happening>, h: Happening)
    requires h in happenings && h.Update?
    ensures exists i :: LastUpdate(happenings, i)
  {
    var n := |happenings| - 1;
    var init := happenings[..n];
    if happenings[n].Update? {
      assert LastUpdate(happenings, n);
    } else {
      var k :| 0 <= k < |happenings| && happenings[k] == h;
      assert init[k] == h;
      LastUpdateExists(init, h);
      var i :| LastUpdate(init, i);
      assert LastUpdate(happenings, i);
    }
  }

  lemma {:induction false} LastWantedIs(happenings: seq<Happening>, before: set<Pair>)
    ensures forall i :: LastUpdate(happenings, i) ==> LastWanted(happenings, before) == Capped(happenings[i].pairs)
    ensures (forall h :: h in happenings ==> !h.Update?) ==> LastWanted(happenings, before) == before
  {
    if happenings != [] {
      var n := |happenings| - 1;
      var init := happenings[..n];
      LastWantedIs(init, before);
      assert happenings[n] in happenings;
      if !happenings[n].Update? {
        forall i | LastUpdate(happenings, i) ensures LastUpdate(init, i) && init[i] == happenings[i] {
        }
        assert forall h :: h in init ==> h in happenings;
      }
    }
  }

  /** Happening j connects and the connection is not left any more. */
  predicate LastConnect(happenings: seq<Happening>, j: int) {
    && 0 <= j < |happenings| && happenings[j].Connects?
    && forall k :: j < k < |happenings| ==> !happenings[k].Drops?
  }

  /** Happening i dials while something is wanted, and neither the dial nor the connection is lost after. */
  predicate Opened(happenings: seq<Happening>, desired: set<Pair>, i: int, j: int) {
    && 0 <= i < j < |happenings| && happenings[i].Dials? && happenings[j].Connects?
    && LastWanted(happenings[..i], desired) != {}
    && forall k :: i < k < |happenings| ==> !happenings[k].Drops? && !happenings[k].DialFails?
  }

  lemma {:induction false} LinkIs(happenings: seq<Happening>, desired: set<Pair>)
    ensures LastLink(happenings, desired, Off) == On ==> exists j :: LastConnect(happenings, j)
    ensures (exists i, j :: Opened(happenings, desired, i, j)) ==> LastLink(happenings, desired, Off) == On
  {
    if happenings != [] {
      var n := |happenings| - 1;
      var init := happenings[..n];
      LinkIs(init, desired);
      if LastLink(happenings, desired, Off) == On && !happenings[n].Connects? {
        var j :| LastConnect(init, j);
        assert LastConnect(happenings, j);
      } else if happenings[n].Connects? {
        assert LastConnect(happenings, n);
      }
      if i, j :| Opened(happenings, desired, i, j) {
        DialLasts(happenings, desired, i, n);
        assert j == n || Opened(init, desired, i, j) by {
          assert happenings[..i] == init[..i];
        }
      }
    }
  }

  /** A dial not lost since is still under way, unless there is a connection. */
  lemma {:induction false} DialLasts(happenings: seq<Happening>, desired: set<Pair>, i: nat, n: nat)
    requires i < n <= |happenings| && happenings[i].Dials? && LastWanted(happenings[..i], desired) != {}
    requires forall k :: i < k < |happenings| ==> !happenings[k].Drops? && !happenings[k].DialFails?
    ensures LastLink(happenings[..n], desired, Off) != Off
  {
    var init := happenings[..n];
    assert init[..n - 1] == happenings[..n - 1];
    if i < n - 1 {
      DialLasts(happenings, desired, i, n - 1);
    }
  }

  function Changed(s: set<Pair>, subscribe: bool, chunk: set<Pair>): set<Pair> {
    if subscribe then s + chunk else s - chunk
  }

  lemma ChangedTwice(s: set<Pair>, subscribe: bool, a: set<Pair>, b: set<Pair>)
    ensures Changed(Changed(s, subscribe, a), subscribe, b) == Changed(s, subscribe, a + b)
  {
  }

  /** The parameters of one control message. */
  function ChunkSet(chunks: seq<seq<Pair>>, k: nat): (r: set<Pair>)
    requires k < |chunks|
    ensures |r| <= |chunks[k]| && r <= Members(chunks)
    ensures Members(chunks[..k + 1]) == Members(chunks[..k]) + r
  {
    SetOfSeq(chunks[k]);
    assert forall p :: p in chunks[k] ==> p in Members(chunks);
    assert chunks[..k + 1] == chunks[..k] + [chunks[k]];
    MembersStep(chunks[..k], chunks[k]);
    set p | p in chunks[k]
  }

  lemma {:induction false} SetOfSeq(s: seq<Pair>)
    ensures |set p | p in s| <= |s|
  {
    if s != [] {
      var init, last := s[..|s| - 1], s[|s| - 1];
      SetOfSeq(init);
      assert (set p | p in s) == (set p | p in init) + {last};
    }
  }

  lemma MembersStep(chunks: seq<seq<Pair>>, chunk: seq<Pair>)
    ensures Members(chunks + [chunk]) == Members(chunks) + set p | p in chunk
  {
    var all := chunks + [chunk];
    forall p | p in Members(chunks) + set q | q in chunk ensures p in Members(all) {
      if p in chunk {
        assert p in all[|chunks|];
      } else {
        var i :| 0 <= i < |chunks| && p in chunks[i];
        assert p in all[i];
      }
    }
    forall p | p in Members(all) ensures p in Members(chunks) || p in chunk {
      var i :| 0 <= i < |all| && p in all[i];
      assert i < |chunks| ==> p in chunks[i];
    }
  }
}
