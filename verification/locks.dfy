/** The run lock: one key set only if it is free, with an expiry and the owner's token.

    Tokens are random in the program and never repeat here: a run's token is its number. */
module Locks {
  import opened Wrappers

  datatype Entry = Entry(token: nat, expires: int)

  /** A run that got the lock: when, for how long at most, and when it left the block. A run that
      dies leaves the block without releasing anything. */
  datatype Run = Run(entered: int, ttl: nat, left: Option<int>)

  datatype State = State(now: int, entry: Option<Entry>, runs: seq<Run>)

  datatype Event =
    | Pass(seconds: nat)
    | Enter(ttl: nat)
    | Leave(run: nat)
    | Die(run: nat)

  const START := State(0, None, [])

  /** An expired key is no key. */
  predicate Busy(s: State) {
    s.entry.Some? && s.now < s.entry.value.expires
  }

  predicate Inside(s: State, r: nat) {
    r < |s.runs| && s.runs[r].left.None?
  }

  function Out(s: State, r: nat): State
    requires r < |s.runs|
  {
    s.(runs := s.runs[r := s.runs[r].(left := Some(s.now))])
  }

  /** What does not apply changes nothing; a busy lock turns the run away. */
  function Step(s: State, e: Event): State {
    match e
    case Pass(seconds) => s.(now := s.now + seconds)
    case Enter(ttl) =>
      if Busy(s) || ttl == 0 then s
      else State(s.now, Some(Entry(|s.runs|, s.now + ttl)), s.runs + [Run(s.now, ttl, None)])
    case Leave(r) =>
      if !Inside(s, r) then s
      else if Busy(s) && s.entry.value.token == r then Out(s, r).(entry := None)
      else Out(s, r)
    case Die(r) => if Inside(s, r) then Out(s, r) else s
  }

  function After(events: seq<Event>): State {
    if events == [] then START else Step(After(events[..|events| - 1]), events[|events| - 1])
  }

  function Deadline(run: Run): int { run.entered + run.ttl }

  /** The run is over, or out of its time, at the moment t. */
  predicate OverBy(run: Run, t: int) {
    (run.left.Some? && run.left.value <= t) || Deadline(run) <= t
  }

  predicate EntryOk(s: State) {
    s.entry.Some? ==>
      s.entry.value.token < |s.runs| && s.entry.value.expires == Deadline(s.runs[s.entry.value.token])
  }

  /** A run inside the block holds the key until its time is over. */
  predicate HoldsWhileInside(s: State) {
    forall r :: 0 <= r < |s.runs| && s.runs[r].left.None? && s.now < Deadline(s.runs[r]) ==>
      s.entry == Some(Entry(r, Deadline(s.runs[r])))
  }

  predicate InThePast(s: State) {
    forall r :: 0 <= r < |s.runs| ==>
      s.runs[r].entered <= s.now && (s.runs[r].left.Some? ==> s.runs[r].left.value <= s.now)
  }

  predicate OneAfterAnother(s: State) {
    forall i, j :: 0 <= i < j < |s.runs| ==> OverBy(s.runs[i], s.runs[j].entered)
  }

  predicate Inv(s: State) {
    EntryOk(s) && HoldsWhileInside(s) && InThePast(s) && OneAfterAnother(s)
  }

  lemma StepKeepsInv(s: State, e: Event)
    requires Inv(s)
    ensures Inv(Step(s, e))
  {
    if e.Enter? && !Busy(s) && e.ttl > 0 {
      forall i | 0 <= i < |s.runs| ensures OverBy(s.runs[i], s.now) {
      }
    }
  }

  lemma {:induction false} AlwaysInv(events: seq<Event>)
    ensures Inv(After(events))
  {
    if events != [] {
      AlwaysInv(events[..|events| - 1]);
      StepKeepsInv(After(events[..|events| - 1]), events[|events| - 1]);
    }
  }

  // ---------------------------------------------------------------- the main results

  /** Of two runs that got the lock, the later one entered after the earlier one had left the
      block, or had outlived its time. */
  lemma RunsAreSerial(events: seq<Event>, i: nat, j: nat)
    requires i < j < |After(events).runs|
    ensures OverBy(After(events).runs[i], After(events).runs[j].entered)
  {
    AlwaysInv(events);
  }

  /** If every run finishes within its time, no two are ever in the block together. */
  lemma NoOverlapWithinTtl(events: seq<Event>, i: nat, j: nat)
    requires
      var s := After(events);
      && (forall r :: 0 <= r < |s.runs| ==>
            if s.runs[r].left.Some? then s.runs[r].left.value <= Deadline(s.runs[r]) else s.now < Deadline(s.runs[r]))
      && i < j < |s.runs|
    ensures
      var s := After(events);
      s.runs[i].left.Some? && s.runs[i].left.value <= s.runs[j].entered
  {
    AlwaysInv(events);
    var s := After(events);
    assert OverBy(s.runs[i], s.runs[j].entered);
  }

  /** Only its owner, or its expiry, ends a lock: a live key stays through whatever other runs do,
      as long as its time lasts, also when a run that outlived its own key leaves the block. */
  lemma LiveKeyStays(events: seq<Event>, e: Event)
    requires Busy(After(events))
    requires e != Leave(After(events).entry.value.token)
    ensures Step(After(events), e).entry == After(events).entry
  {
  }

  /** A release by its owner, in time, frees the lock. */
  lemma OwnerFrees(events: seq<Event>, r: nat)
    requires Inside(After(events), r) && After(events).now < Deadline(After(events).runs[r])
    ensures Busy(After(events)) && Step(After(events), Leave(r)).entry == None
  {
    AlwaysInv(events);
  }

  /** A run over its time shares the block with the next one, and its release spares the
      next one's key. */
  lemma LateRunOverlaps()
    ensures
      var s := After([Enter(10), Pass(10), Enter(10), Leave(0)]);
      && Inside(After([Enter(10), Pass(10), Enter(10)]), 0) && Inside(After([Enter(10), Pass(10), Enter(10)]), 1)
      && s.entry == Some(Entry(1, 20)) && Inside(s, 1) && !Inside(s, 0)
  {
    var e1, e2, e3 := [Enter(10)], [Enter(10), Pass(10)], [Enter(10), Pass(10), Enter(10)];
    var e4 := [Enter(10), Pass(10), Enter(10), Leave(0)];
    assert e4[..3] == e3 && e3[..2] == e2 && e2[..1] == e1 && e1[..0] == [];
  }

  // ---------------------------------------------------------------- the block itself

  /** While run r is in the block and in time nobody else enters. */
  lemma StaysInside(s: State, e: Event, r: nat)
    requires Inv(s) && Inside(s, r) && e != Leave(r) && e != Die(r)
    ensures var t := Step(s, e); r < |t.runs| && t.runs[r] == s.runs[r] && s.now <= t.now
    ensures Step(s, e).now < Deadline(s.runs[r]) ==> |Step(s, e).runs| == |s.runs|
  {
  }

  lemma Enters(s: State, ttl: nat)
    requires !Busy(s) && ttl > 0
    ensures var t := Step(s, Enter(ttl)); t.runs == s.runs + [Run(s.now, ttl, None)] && t.now == s.now
  {
  }

  lemma Leaves(s: State, r: nat)
    requires Inv(s) && Inside(s, r)
    ensures var t := Step(s, Leave(r)); !Inside(t, r) && |t.runs| == |s.runs| && t.now == s.now
    ensures s.now < Deadline(s.runs[r]) ==> Step(s, Leave(r)).entry == None
  {
  }

  class Redis {
    var state: State
    ghost var history: seq<Event>

    ghost predicate Valid()
      reads this
    {
      state == After(history)
    }

    constructor ()
      ensures Valid() && state == START
    {
      state, history := START, [];
    }

    method Act(e: Event)
      requires Valid()
      modifies this
      ensures Valid() && state == Step(old(state), e) && history == old(history) + [e]
    {
      state := Step(state, e);
      history := history + [e];
      assert history[..|history| - 1] == old(history);
    }

    /** Takes the lock around a block; `meanwhile` is what happens elsewhere before the block ends.
        In a block that ends in time nobody else entered, and the lock is free again after it. */
    method RedisLock(ttl: nat, meanwhile: seq<Event>) returns (busy: bool)
      requires Valid() && ttl > 0
      requires forall i :: 0 <= i < |meanwhile| ==>
                 meanwhile[i] != Leave(|state.runs|) && meanwhile[i] != Die(|state.runs|)
      modifies this
      ensures Valid() && busy == Busy(old(state))
      ensures busy ==> state == old(state)
      ensures !busy ==> history == old(history) + [Enter(ttl)] + meanwhile + [Leave(|old(state.runs)|)]
      ensures !busy ==> Inv(state) && !Inside(state, |old(state.runs)|)
      ensures !busy && state.now < old(state.now) + ttl ==>
                state.entry == None && |state.runs| == |old(state.runs)| + 1
    {
      hide Inv, Busy, After, Step;
      busy := Busy(state);
      if busy {
        return;
      }
      var token := |state.runs|;
      ghost var entered := state.now;
      Enters(state, ttl);
      Act(Enter(ttl));
      for i := 0 to |meanwhile|
        invariant Valid() && token < |state.runs| && state.runs[token] == Run(entered, ttl, None)
        invariant state.now < entered + ttl ==> |state.runs| == token + 1
        invariant history == old(history) + [Enter(ttl)] + meanwhile[..i]
      {
        AlwaysInv(history);
        StaysInside(state, meanwhile[i], token);
        Act(meanwhile[i]);
      }
      assert meanwhile[..|meanwhile|] == meanwhile;
      AlwaysInv(history);
      Leaves(state, token);
      Act(Leave(token));
      AlwaysInv(history);
    }
  }
}
