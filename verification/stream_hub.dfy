/** The shared SSE hub: one reader of a stream serves every subscriber of the process.

    The claim is a refinement. `PrivateBatch` is what a subscriber would get from a reader of its
    own; the hub, with its reference-counted groups and its common buffer, delivers the same
    batch to everyone who was there for the whole window, whoever else comes and goes. */
module StreamHub {
  import opened Wrappers
  import opened StreamSelection

  /** What a stream means: the group of a raw record (if any), how to decode it, and how the
      decoded items are ordered and selected. `decode` gives None for a malformed record. */
  datatype LiveStreamSpec<!F, !G, !T> = LiveStreamSpec(
    rawGroupKey: F -> Option<G>, decode: F -> Option<T>, orderKey: T -> Key, rule: seq<T> -> seq<T>)

  /** What a record contributes to group g: its item, if it belongs there and decodes. */
  function ItemOf<F, G(==), T>(spec: LiveStreamSpec<F, G, T>, record: F, g: G): seq<T> {
    if spec.rawGroupKey(record) == Some(g) && spec.decode(record).Some? then [spec.decode(record).value] else []
  }

  /** The decodable records of group g among `records`. */
  function OfWindow<F, G(==), T>(spec: LiveStreamSpec<F, G, T>, records: seq<F>, g: G): seq<T> {
    if records == [] then []
    else
      OfWindow(spec, records[..|records| - 1], g) + ItemOf(spec, records[|records| - 1], g)
  }

  /** A group without records contributes nothing; the rule is not asked. */
  function Pick<T>(rule: seq<T> -> seq<T>, items: seq<T>): seq<T> {
    if items == [] then [] else rule(items)
  }

  /** The batch of a reader that serves only one subscriber. */
  function PrivateBatch<F, G(==), T>(spec: LiveStreamSpec<F, G, T>, records: seq<F>, wanted: seq<G>): seq<T> {
    StableSort(Gather(wanted, g => Pick(spec.rule, OfWindow(spec, records, g))), spec.orderKey)
  }

  function At<G>(counts: map<G, int>, g: G): int {
    if g in counts then counts[g] else 0
  }

  function Buffered<G, T>(buffer: map<G, seq<T>>, g: G): seq<T> {
    if g in buffer then buffer[g] else []
  }

  ghost predicate IsSuffix<T>(a: seq<T>, b: seq<T>) {
    |a| <= |b| && a == b[|b| - |a|..]
  }

  /** The buffer holds, for each of these groups, all records but the first `missed`; and nothing
      else if none was missed. */
  ghost predicate Complete<F, G, T>(spec: LiveStreamSpec<F, G, T>, records: seq<F>, missed: nat, wanted: seq<G>,
                                    buffer: map<G, seq<T>>)
  {
    missed <= |records| &&
    forall i :: 0 <= i < |wanted| ==>
      var since := OfWindow(spec, records[missed..], wanted[i]);
      && IsSuffix(since, Buffered(buffer, wanted[i]))
      && (missed == 0 ==> since == Buffered(buffer, wanted[i]))
  }

  /** One record into the buffer: kept if someone wants its group and it decodes. */
  function Keep<F, G(==), T>(spec: LiveStreamSpec<F, G, T>, counts: map<G, int>, buffer: map<G, seq<T>>,
                            record: F): map<G, seq<T>> {
    var group := spec.rawGroupKey(record);
    if group.Some? && At(counts, group.value) > 0 && spec.decode(record).Some?
    then buffer[group.value := Buffered(buffer, group.value) + [spec.decode(record).value]]
    else buffer
  }

  lemma NewcomerComplete<F, G, T>(spec: LiveStreamSpec<F, G, T>, records: seq<F>, wanted: seq<G>,
                                  buffer: map<G, seq<T>>)
    requires records == [] ==> buffer == map[]
    ensures Complete(spec, records, |records|, wanted, buffer)
  {
    assert records[|records|..] == [];
  }

  lemma KeepComplete<F, G, T>(spec: LiveStreamSpec<F, G, T>, counts: map<G, int>, records: seq<F>, missed: nat,
                              wanted: seq<G>, buffer: map<G, seq<T>>, record: F)
    requires Complete(spec, records, missed, wanted, buffer)
    requires forall i :: 0 <= i < |wanted| ==> At(counts, wanted[i]) > 0
    ensures Complete(spec, records + [record], missed, wanted, Keep(spec, counts, buffer, record))
  {
    assert (records + [record])[missed..] == records[missed..] + [record];
    var after := Keep(spec, counts, buffer, record);
    forall i | 0 <= i < |wanted|
      ensures
        var since := OfWindow(spec, (records + [record])[missed..], wanted[i]);
        IsSuffix(since, Buffered(after, wanted[i])) && (missed == 0 ==> since == Buffered(after, wanted[i]))
    {
      OfWindowStep(spec, records[missed..], record, wanted[i]);
      KeepGroup(spec, counts, wanted[i], buffer, record);
      BothAppend(OfWindow(spec, records[missed..], wanted[i]), Buffered(buffer, wanted[i]),
                 ItemOf(spec, record, wanted[i]));
    }
  }

  /** A record lands in its group's list exactly as it lands in the group's records. */
  lemma KeepGroup<F, G, T>(spec: LiveStreamSpec<F, G, T>, counts: map<G, int>, g: G,
                           buffer: map<G, seq<T>>, record: F)
    requires At(counts, g) > 0
    ensures Buffered(Keep(spec, counts, buffer, record), g) == Buffered(buffer, g) + ItemOf(spec, record, g)
  {
  }

  lemma BothAppend<T>(a: seq<T>, b: seq<T>, x: seq<T>)
    requires IsSuffix(a, b)
    ensures IsSuffix(a + x, b + x)
  {
    assert (b + x)[|b| - |a|..] == a + x;
  }

  /** The cell after a flush: nothing relevant leaves the unread batch alone. */
  function Unread<T>(before: Option<seq<T>>, batch: seq<T>): Option<seq<T>> {
    if batch == [] then before else Some(batch)
  }

  /** One subscriber: a cell of depth one. `wanted` lists the wanted groups once each, in the
      order the frozen set is iterated in. */
  class Subscriber<!G(==,!new), T> {
    const wanted: seq<G>
    var closed: bool
    var pending: Option<seq<T>>
    var signalled: bool

    constructor (wanted: seq<G>)
      ensures this.wanted == wanted && !closed && pending == None && !signalled && Ready()
    {
      this.wanted, closed, pending, signalled := wanted, false, None, false;
    }

    /** Whoever waits is woken if there is something to read. */
    ghost predicate Ready()
      reads this
    {
      pending.Some? ==> signalled
    }

    /** Replaces the unread batch. */
    method Deliver(batch: seq<T>)
      modifies this
      ensures pending == Some(batch) && signalled && closed == old(closed)
    {
      pending, signalled := Some(batch), true;
    }

    method Close()
      modifies this
      ensures closed && signalled && pending == old(pending)
    {
      closed, signalled := true, true;
    }

    /** `wait` once the event is set: hands out the newest unread batch, at most once. */
    method Take() returns (batch: Option<seq<T>>)
      requires signalled
      modifies this
      ensures batch == old(pending) && pending == None && !signalled && closed == old(closed)
    {
      signalled := false;
      batch, pending := pending, None;
    }
  }

  ghost function Interested<G(!new), T>(subscribers: set<Subscriber<G, T>>, g: G): set<Subscriber<G, T>> {
    set s | s in subscribers && g in s.wanted
  }

  class Hub<!F, !G(==,!new), T> {
    const spec: LiveStreamSpec<F, G, T>
    var activeGroups: map<G, int>
    var buffer: map<G, seq<T>>
    var subscribers: set<Subscriber<G, T>>
    /** The records read since the last flush, and how many of them a subscriber missed. */
    ghost var window: seq<F>
    ghost var missed: map<Subscriber<G, T>, nat>

    /** The counters count the live subscribers of a group, exactly. */
    ghost predicate CountersExact()
      reads this`activeGroups, this`subscribers
    {
      && (forall g: G :: At(activeGroups, g) == |Interested(subscribers, g)|)
      && (forall g :: g in activeGroups ==> activeGroups[g] > 0)
    }

    ghost predicate Valid()
      reads this
    {
      && missed.Keys == subscribers
      && (forall s :: s in subscribers ==> Distinct(s.wanted) && Complete(spec, window, missed[s], s.wanted, buffer))
      && (forall g :: g in buffer ==> buffer[g] != []) && (window == [] ==> buffer == map[])
      && CountersExact()
    }

    constructor (spec: LiveStreamSpec<F, G, T>)
      ensures Valid() && subscribers == {} && window == [] && this.spec == spec
    {
      this.spec := spec;
      activeGroups, buffer, subscribers, window, missed := map[], map[], {}, [], map[];
    }

    method AddSubscriber(wanted: seq<G>) returns (subscriber: Subscriber<G, T>)
      requires Valid() && Distinct(wanted)
      modifies this
      ensures Valid() && fresh(subscriber) && subscriber.wanted == wanted && subscriber.pending == None
      ensures subscriber.Ready()
      ensures subscribers == old(subscribers) + {subscriber}
      ensures window == old(window) && missed == old(missed)[subscriber := |window|] && buffer == old(buffer)
    {
      CountUp(wanted);
      subscriber := new Subscriber(wanted);
      forall g: G ensures At(activeGroups, g) == |Interested(subscribers + {subscriber}, g)| {
        CountJoin(subscribers, subscriber, g);
      }
      subscribers := subscribers + {subscriber};
      missed := missed[subscriber := |window|];
      NewcomerComplete(spec, window, wanted, buffer);
    }

    method RemoveSubscriber(subscriber: Subscriber<G, T>)
      requires Valid() && subscriber in subscribers
      modifies this
      ensures Valid() && subscribers == old(subscribers) - {subscriber}
      ensures window == old(window) && missed == old(missed) - {subscriber} && buffer == old(buffer)
    {
      ghost var others := subscribers - {subscriber};
      assert subscribers == others + {subscriber};
      forall g: G ensures At(activeGroups, g) == |Interested(others, g)| + if g in subscriber.wanted then 1 else 0 {
        CountJoin(others, subscriber, g);
      }
      CountDown(subscriber.wanted);
      subscribers := subscribers - {subscriber};
      missed := missed - {subscriber};
    }

    method CountUp(wanted: seq<G>)
      requires Distinct(wanted) && forall g :: g in activeGroups ==> activeGroups[g] > 0
      modifies this`activeGroups
      ensures forall g: G :: At(activeGroups, g) == At(old(activeGroups), g) + if g in wanted then 1 else 0
      ensures forall g :: g in activeGroups ==> activeGroups[g] > 0
    {
      for i := 0 to |wanted|
        invariant forall g: G :: At(activeGroups, g) == At(old(activeGroups), g) + if g in wanted[..i] then 1 else 0
        invariant forall g :: g in activeGroups ==> activeGroups[g] > 0
      {
        assert wanted[..i + 1] == wanted[..i] + [wanted[i]];
        assert wanted[i] !in wanted[..i];
        activeGroups := activeGroups[wanted[i] := At(activeGroups, wanted[i]) + 1];
      }
      assert wanted[..|wanted|] == wanted;
    }

    method CountDown(wanted: seq<G>)
      requires Distinct(wanted) && forall g :: g in activeGroups ==> activeGroups[g] > 0
      requires forall g :: g in wanted ==> g in activeGroups
      modifies this`activeGroups
      ensures forall g: G :: At(activeGroups, g) == At(old(activeGroups), g) - if g in wanted then 1 else 0
      ensures forall g :: g in activeGroups ==> activeGroups[g] > 0
    {
      for i := 0 to |wanted|
        invariant forall g: G :: At(activeGroups, g) == At(old(activeGroups), g) - if g in wanted[..i] then 1 else 0
        invariant forall g :: g in activeGroups ==> activeGroups[g] > 0
      {
        assert wanted[..i + 1] == wanted[..i] + [wanted[i]];
        assert wanted[i] !in wanted[..i] && wanted[i] in wanted;
        var remaining := At(activeGroups, wanted[i]) - 1;
        if remaining <= 0 {
          activeGroups := activeGroups - {wanted[i]};
        } else {
          activeGroups := activeGroups[wanted[i] := remaining];
        }
      }
      assert wanted[..|wanted|] == wanted;
    }

    method Collect(record: F)
      requires Valid()
      modifies this`buffer, this`window
      ensures Valid() && window == old(window) + [record]
      ensures buffer == Keep(spec, activeGroups, old(buffer), record)
    {
      hide Complete;
      StillComplete(record);
      window := window + [record];
      var group := spec.rawGroupKey(record);
      if group.None? || At(activeGroups, group.value) <= 0 {
        return;
      }
      var item := spec.decode(record);
      if item.None? {
        return;
      }
      buffer := buffer[group.value := Buffered(buffer, group.value) + [item.value]];
    }

    /** Selects per group once and hands every subscriber its own batch. */
    method FlushWindow()
      requires Valid()
      modifies this, subscribers
      ensures Valid() && subscribers == old(subscribers) && window == [] && buffer == map[]
      ensures forall s :: s in subscribers ==> missed[s] == 0
      ensures forall s :: s in subscribers && old(missed)[s] == 0 ==>
                && s.pending == Unread(old(s.pending), PrivateBatch(spec, old(window), s.wanted))
                && s.signalled == (old(s.signalled) || PrivateBatch(spec, old(window), s.wanted) != [])
      ensures forall s :: s in subscribers && old(s.Ready()) ==> s.Ready()
      ensures forall s :: s in subscribers ==> s.closed == old(s.closed)
    {
      hide Complete, PrivateBatch, BufferedBatch, CountersExact;
      CompleteBatches();
      ghost var before := buffer;
      window, missed := [], map s | s in subscribers :: 0;
      if buffer != map[] {
        var selected := map g | g in buffer :: spec.rule(buffer[g]);
        buffer := map[];
        Distribute(selected, before);
      } else {
        forall s | s in subscribers ensures BufferedBatch(spec, before, s.wanted) == [] {
          NothingBuffered(spec, s.wanted);
        }
      }
      forall s | s in subscribers ensures Complete(spec, [], 0, s.wanted, buffer) {
        NewcomerComplete(spec, [], s.wanted, buffer);
      }
    }

    lemma CompleteBatches()
      requires Valid()
      ensures forall s :: s in subscribers && missed[s] == 0 ==>
                BufferedBatch(spec, buffer, s.wanted) == PrivateBatch(spec, window, s.wanted)
    {
      forall s | s in subscribers && missed[s] == 0
        ensures BufferedBatch(spec, buffer, s.wanted) == PrivateBatch(spec, window, s.wanted)
      {
        CompleteBatch(spec, window, s.wanted, buffer);
      }
    }

    lemma StillComplete(record: F)
      requires Valid()
      ensures forall s :: s in subscribers ==>
                Complete(spec, window + [record], missed[s], s.wanted, Keep(spec, activeGroups, buffer, record))
    {
      hide Complete;
      forall s | s in subscribers
        ensures Complete(spec, window + [record], missed[s], s.wanted, Keep(spec, activeGroups, buffer, record))
      {
        forall i | 0 <= i < |s.wanted| ensures At(activeGroups, s.wanted[i]) > 0 {
          assert s in Interested(subscribers, s.wanted[i]);
        }
        KeepComplete(spec, activeGroups, window, missed[s], s.wanted, buffer, record);
      }
    }

    method Distribute(selected: map<G, seq<T>>, ghost from: map<G, seq<T>>)
      requires selected == map g | g in from :: spec.rule(from[g])
      requires forall g :: g in from ==> from[g] != []
      modifies subscribers
      ensures forall s :: s in subscribers ==>
                && s.pending == Unread(old(s.pending), BufferedBatch(spec, from, s.wanted))
                && s.signalled == (old(s.signalled) || BufferedBatch(spec, from, s.wanted) != [])
      ensures forall s :: s in subscribers ==> s.closed == old(s.closed)
    {
      var rest := subscribers;
      while rest != {}
        invariant rest <= subscribers
        invariant forall s :: s in rest ==> s.pending == old(s.pending) && s.signalled == old(s.signalled)
        invariant forall s :: s in subscribers - rest ==>
                    && s.pending == Unread(old(s.pending), BufferedBatch(spec, from, s.wanted))
                    && s.signalled == (old(s.signalled) || BufferedBatch(spec, from, s.wanted) != [])
        invariant forall s :: s in subscribers ==> s.closed == old(s.closed)
        decreases rest
      {
        var s :| s in rest;
        var relevant := RelevantTo(s.wanted, selected, from);
        if relevant != [] {
          s.Deliver(StableSort(relevant, spec.orderKey));
        }
        rest := rest - {s};
      }
    }

    method RelevantTo(wanted: seq<G>, selected: map<G, seq<T>>, ghost from: map<G, seq<T>>) returns (relevant: seq<T>)
      requires selected == map g | g in from :: spec.rule(from[g])
      requires forall g :: g in from ==> from[g] != []
      ensures relevant == Gather(wanted, Picked(spec.rule, from))
    {
      relevant := [];
      for i := 0 to |wanted|
        invariant relevant == Gather(wanted[..i], Picked(spec.rule, from))
      {
        assert wanted[..i + 1][..i] == wanted[..i];
        relevant := relevant + if wanted[i] in selected then selected[wanted[i]] else [];
      }
      assert wanted[..|wanted|] == wanted;
    }
  }

  /** What a buffer holds for these groups, selected and ordered. */
  function BufferedBatch<F, G(==), T>(spec: LiveStreamSpec<F, G, T>, buffer: map<G, seq<T>>, wanted: seq<G>): seq<T> {
    StableSort(Gather(wanted, Picked(spec.rule, buffer)), spec.orderKey)
  }

  lemma CompleteBatch<F, G, T>(spec: LiveStreamSpec<F, G, T>, records: seq<F>, wanted: seq<G>, buffer: map<G, seq<T>>)
    requires Complete(spec, records, 0, wanted, buffer)
    ensures BufferedBatch(spec, buffer, wanted) == PrivateBatch(spec, records, wanted)
  {
    assert records[0..] == records;
    GatherSame(wanted, Picked(spec.rule, buffer), g => Pick(spec.rule, OfWindow(spec, records, g)));
  }

  function Picked<G, T>(rule: seq<T> -> seq<T>, buffer: map<G, seq<T>>): G -> seq<T> {
    g => Pick(rule, Buffered(buffer, g))
  }

  lemma {:induction false} GatherSame<G, T>(order: seq<G>, f: G -> seq<T>, h: G -> seq<T>)
    requires forall i :: 0 <= i < |order| ==> f(order[i]) == h(order[i])
    ensures Gather(order, f) == Gather(order, h)
  {
    if order != [] {
      GatherSame(order[..|order| - 1], f, h);
    }
  }

  lemma NothingBuffered<F, G, T>(spec: LiveStreamSpec<F, G, T>, wanted: seq<G>)
    ensures BufferedBatch(spec, map[], wanted) == []
  {
    GatherNothing(wanted, Picked(spec.rule, map[]));
  }

  lemma {:induction false} GatherNothing<G, T>(order: seq<G>, f: G -> seq<T>)
    requires forall i :: 0 <= i < |order| ==> f(order[i]) == []
    ensures Gather(order, f) == []
  {
    if order != [] {
      GatherNothing(order[..|order| - 1], f);
    }
  }

  lemma OfWindowStep<F, G, T>(spec: LiveStreamSpec<F, G, T>, records: seq<F>, record: F, g: G)
    ensures OfWindow(spec, records + [record], g)
            == OfWindow(spec, records, g) + ItemOf(spec, record, g)
  {
    assert (records + [record])[..|records|] == records;
  }

  lemma CountJoin<G(!new), T>(before: set<Subscriber<G, T>>, s: Subscriber<G, T>, g: G)
    requires s !in before
    ensures |Interested(before + {s}, g)| == |Interested(before, g)| + if g in s.wanted then 1 else 0
  {
    assert Interested(before + {s}, g) == Interested(before, g) + if g in s.wanted then {s} else {};
  }

  // ---------------------------------------------------------------- what a private batch is

  /** The decodable records of the wanted groups. */
  function Relevant<F, G(==), T>(spec: LiveStreamSpec<F, G, T>, records: seq<F>, wanted: seq<G>): seq<T> {
    if records == [] then []
    else
      var group := spec.rawGroupKey(records[|records| - 1]);
      Relevant(spec, records[..|records| - 1], wanted) +
      if group.Some? && group.value in wanted then ItemOf(spec, records[|records| - 1], group.value) else []
  }

  /** The group of a record can be read off its item again. */
  ghost predicate GroupOfItem<F(!new), G, T>(spec: LiveStreamSpec<F, G, T>, groupKey: T -> G) {
    forall f: F :: spec.decode(f).Some? && spec.rawGroupKey(f).Some?
                   ==> spec.rawGroupKey(f).value == groupKey(spec.decode(f).value)
  }

  lemma {:induction false} OfGroupOfRelevant<F(!new), G, T>(spec: LiveStreamSpec<F, G, T>, records: seq<F>,
                                                            wanted: seq<G>, g: G, groupKey: T -> G)
    requires GroupOfItem(spec, groupKey)
    ensures OfGroup(Relevant(spec, records, wanted), g, groupKey)
            == if g in wanted then OfWindow(spec, records, g) else []
  {
    if records != [] {
      var init, f := records[..|records| - 1], records[|records| - 1];
      OfGroupOfRelevant(spec, init, wanted, g, groupKey);
      var r := Relevant(spec, init, wanted);
      var group := spec.rawGroupKey(f);
      if group.Some? && group.value in wanted && spec.decode(f).Some? {
        assert (r + [spec.decode(f).value])[..|r|] == r;
      } else {
        assert Relevant(spec, records, wanted) == r;
      }
    }
  }

  /** A private batch is `select_per_group` over the window's decodable records in the wanted
      groups: the same items, in order. (Between equal order keys the iteration order of the
      wanted set decides, and it is not the order of first appearance.) */
  lemma PrivateBatchIsSelectPerGroup<F(!new), G, T>(spec: LiveStreamSpec<F, G, T>, records: seq<F>,
                                                    wanted: seq<G>, groupKey: T -> G)
    requires GroupOfItem(spec, groupKey) && Distinct(wanted)
    ensures
      var selected := SelectPerGroup(Relevant(spec, records, wanted), groupKey, spec.rule, spec.orderKey);
      && multiset(PrivateBatch(spec, records, wanted)) == multiset(selected)
      && Sorted(PrivateBatch(spec, records, wanted), spec.orderKey) && Sorted(selected, spec.orderKey)
  {
    var items := Relevant(spec, records, wanted);
    var order := GroupOrder(items, groupKey);
    var f := g => Pick(spec.rule, OfGroup(items, g, groupKey));
    forall i | 0 <= i < |order| ensures OfGroup(items, order[i], groupKey) != [] {
      PresentGroup(items, order[i], groupKey);
    }
    GatherSame(order, f, g => spec.rule(OfGroup(items, g, groupKey)));
    forall i | 0 <= i < |wanted| ensures OfGroup(items, wanted[i], groupKey) == OfWindow(spec, records, wanted[i]) {
      OfGroupOfRelevant(spec, records, wanted, wanted[i], groupKey);
    }
    GatherSame(wanted, f, g => Pick(spec.rule, OfWindow(spec, records, g)));
    forall g | g in order ensures g in wanted {
      OfGroupOfRelevant(spec, records, wanted, g, groupKey);
    }
    forall g | g in wanted && g !in order ensures f(g) == [] {
      EmptyGroup(items, g, groupKey);
    }
    GatherAnyOrder(order, wanted, f);
    StableSortPermutes(Gather(order, f), spec.orderKey);
    StableSortPermutes(Gather(wanted, f), spec.orderKey);
    SortOntoSorted(Gather(order, f), [], spec.orderKey);
    SortOntoSorted(Gather(wanted, f), [], spec.orderKey);
  }

  // ---------------------------------------------------------------- the registry of hubs

  /** The registry entry of one stream key: a hub is registered exactly while it is needed. */
  class Registry<!F, !G(==,!new), T> {
    var hub: Hub?<F, G, T>

    ghost predicate Valid()
      reads this, hub
    {
      hub != null ==> hub.Valid() && hub.subscribers != {}
    }

    constructor ()
      ensures Valid() && hub == null
    {
      hub := null;
    }

    method RegisterSubscriber(spec: LiveStreamSpec<F, G, T>, wanted: seq<G>)
      returns (joined: Hub<F, G, T>, subscriber: Subscriber<G, T>)
      requires Valid() && Distinct(wanted)
      modifies this, hub
      ensures Valid() && hub == joined && fresh(subscriber) && subscriber.wanted == wanted
      ensures old(hub) != null ==> joined == old(hub) && joined.subscribers == old(hub.subscribers) + {subscriber}
      ensures old(hub) == null ==> fresh(joined) && joined.spec == spec && joined.subscribers == {subscriber}
    {
      if hub == null {
        hub := new Hub(spec);
      }
      joined := hub;
      subscriber := joined.AddSubscriber(wanted);
    }

    /** The last subscriber takes the hub out of the registry. */
    method UnregisterSubscriber(subscriber: Subscriber<G, T>)
      requires Valid() && hub != null && subscriber in hub.subscribers
      modifies this, hub
      ensures Valid()
      ensures if old(hub.subscribers) == {subscriber} then hub == null
              else hub == old(hub) && hub.subscribers == old(hub.subscribers) - {subscriber}
    {
      hub.RemoveSubscriber(subscriber);
      if |hub.subscribers| == 0 {
        hub := null;
      }
    }
  }

  // ---------------------------------------------------------------- any run

  /** What happens to a hub within a window: someone joins, one of those who joined leaves, a
      record arrives. */
  datatype Happening<!F, !G> = Joins(wanted: seq<G>) | Leaves(index: nat) | Arrives(record: F)

  function RecordsOf<F, G>(happenings: seq<Happening<F, G>>): seq<F> {
    if happenings == [] then []
    else
      var last := happenings[|happenings| - 1];
      RecordsOf(happenings[..|happenings| - 1]) + if last.Arrives? then [last.record] else []
  }

  function JoinsOf<F, G>(happenings: seq<Happening<F, G>>): seq<seq<G>> {
    if happenings == [] then []
    else
      var last := happenings[|happenings| - 1];
      JoinsOf(happenings[..|happenings| - 1]) + if last.Joins? then [last.wanted] else []
  }

  /** Which of the others are there after some happenings; who joins gets the next number. */
  function PresentAfter<F, G>(present: set<nat>, n: nat, happenings: seq<Happening<F, G>>): set<nat> {
    if happenings == [] then present
    else
      var init := happenings[..|happenings| - 1];
      var before := PresentAfter(present, n, init);
      match happenings[|happenings| - 1]
      case Joins(_) => before + {n + |JoinsOf(init)|}
      case Leaves(index) => before - {index}
      case Arrives(_) => before
  }

  lemma {:induction false} JoinsAppend<F, G>(a: seq<Happening<F, G>>, b: seq<Happening<F, G>>)
    ensures JoinsOf(a + b) == JoinsOf(a) + JoinsOf(b)
  {
    if b == [] {
      assert a + b == a;
    } else {
      JoinsAppend(a, b[..|b| - 1]);
      assert (a + b)[..|a + b| - 1] == a + b[..|b| - 1];
    }
  }

  lemma {:induction false} PresentAppend<F, G>(present: set<nat>, n: nat, a: seq<Happening<F, G>>,
                                               b: seq<Happening<F, G>>)
    ensures PresentAfter(present, n, a + b) == PresentAfter(PresentAfter(present, n, a), n + |JoinsOf(a)|, b)
  {
    if b == [] {
      assert a + b == a;
    } else {
      var init := b[..|b| - 1];
      PresentAppend(present, n, a, init);
      JoinsAppend(a, init);
      assert (a + b)[..|a + b| - 1] == a + init;
    }
  }

  /** What happened in some windows, in order. */
  function Through<F, G>(windows: seq<seq<Happening<F, G>>>): seq<Happening<F, G>> {
    if windows == [] then [] else Through(windows[..|windows| - 1]) + windows[|windows| - 1]
  }

  /** The others in the hub, by their numbers. */
  ghost function Present<G(!new), T>(subscribers: set<Subscriber<G, T>>, others: seq<Subscriber<G, T>>): set<nat> {
    set i | 0 <= i < |others| && others[i] in subscribers
  }

  /** The others are different subscribers, and not `me`. */
  ghost predicate Others<G(!new), T>(me: Subscriber?<G, T>, others: seq<Subscriber<G, T>>) {
    Distinct(others) && forall i :: 0 <= i < |others| ==> others[i] != me
  }

  lemma OneMoreOther<G(!new), T>(me: Subscriber?<G, T>, subscribers: set<Subscriber<G, T>>,
                                 others: seq<Subscriber<G, T>>, newcomer: Subscriber<G, T>)
    requires Others(me, others) && newcomer != me && forall i :: 0 <= i < |others| ==> others[i] != newcomer
    ensures Others(me, others + [newcomer])
    ensures Present(subscribers + {newcomer}, others + [newcomer]) == Present(subscribers, others) + {|others|}
  {
    var all := others + [newcomer];
    forall i | 0 <= i < |all|
      ensures all[i] in subscribers + {newcomer} <==> i in Present(subscribers, others) + {|others|}
    {
      assert i < |others| ==> all[i] == others[i];
    }
  }

  lemma OneLessOther<G(!new), T>(me: Subscriber?<G, T>, subscribers: set<Subscriber<G, T>>,
                                 others: seq<Subscriber<G, T>>, index: nat)
    requires Others(me, others)
    ensures index < |others| ==>
              Present(subscribers - {others[index]}, others) == Present(subscribers, others) - {index}
    ensures index < |others| ==> others[index] != me
    ensures index >= |others| || others[index] !in subscribers ==>
              Present(subscribers, others) - {index} == Present(subscribers, others)
  {
    if index < |others| {
      forall i | 0 <= i < |others| && i != index ensures others[i] != others[index] {
        assert if i < index then others[i] != others[index] else others[index] != others[i];
      }
    }
  }

  ghost predicate EachWantedOnce<F, G>(happenings: seq<Happening<F, G>>) {
    forall i :: 0 <= i < |happenings| && happenings[i].Joins? ==> Distinct(happenings[i].wanted)
  }

  /** One happening: a newcomer is noted behind the others. */
  method PlayOne<F, G(==,!new), T>(hub: Hub<F, G, T>, me: Subscriber?<G, T>, others: seq<Subscriber<G, T>>,
                                   h: Happening<F, G>) returns (rest: seq<Subscriber<G, T>>)
    requires hub.Valid() && (h.Joins? ==> Distinct(h.wanted)) && (me != null ==> me in hub.subscribers)
    requires Others(me, others)
    modifies hub
    ensures hub.Valid() && hub.window == old(hub.window) + if h.Arrives? then [h.record] else []
    ensures me != null ==> me in hub.subscribers && hub.missed[me] == old(hub.missed)[me]
    ensures fresh(hub.subscribers - old(hub.subscribers)) && Others(me, rest)
    ensures |rest| == (|others| + if h.Joins? then 1 else 0) && others == rest[..|others|]
    ensures h.Joins? ==> rest[|others|].wanted == h.wanted
    ensures Present(hub.subscribers, rest) ==
              match h
              case Joins(_) => Present(old(hub.subscribers), others) + {|others|}
              case Leaves(index) => Present(old(hub.subscribers), others) - {index}
              case Arrives(_) => Present(old(hub.subscribers), others)
  {
    hide Complete, Others, Present, Keep, Hub.CountersExact;
    rest := others;
    match h
    case Joins(wanted) =>
      var other := hub.AddSubscriber(wanted);
      OneMoreOther(me, hub.subscribers - {other}, rest, other);
      assert hub.subscribers - {other} == old(hub.subscribers);
      rest := rest + [other];
    case Leaves(index) =>
      OneLessOther(me, hub.subscribers, rest, index);
      if index < |rest| && rest[index] in hub.subscribers {
        hub.RemoveSubscriber(rest[index]);
      }
    case Arrives(record) =>
      hub.Collect(record);
  }

  /** Plays a part of a window on the hub; `me`, if given, stays, `others` may leave. */
  method Play<F, G(==,!new), T>(hub: Hub<F, G, T>, me: Subscriber?<G, T>, others: seq<Subscriber<G, T>>,
                                happenings: seq<Happening<F, G>>) returns (rest: seq<Subscriber<G, T>>)
    requires hub.Valid() && EachWantedOnce(happenings) && (me != null ==> me in hub.subscribers) && Others(me, others)
    modifies hub
    ensures hub.Valid() && hub.window == old(hub.window) + RecordsOf(happenings)
    ensures me != null ==> me in hub.subscribers && hub.missed[me] == old(hub.missed)[me]
    ensures fresh(hub.subscribers - old(hub.subscribers))
    ensures Others(me, rest) && |rest| == |others| + |JoinsOf(happenings)| && others == rest[..|others|]
    ensures forall i :: 0 <= i < |JoinsOf(happenings)| ==> rest[|others| + i].wanted == JoinsOf(happenings)[i]
    ensures Present(hub.subscribers, rest)
            == PresentAfter(Present(old(hub.subscribers), others), |others|, happenings)
  {
    hide Complete, Others, Present, Keep, Hub.CountersExact;
    rest := others;
    ghost var window, missed, joined := hub.window, hub.missed, [];
    assert happenings[..0] == [] && others + joined == others;
    for i := 0 to |happenings|
      invariant hub.Valid() && hub.window == window + RecordsOf(happenings[..i])
      invariant me != null ==> me in hub.subscribers && hub.missed[me] == missed[me]
      invariant fresh(hub.subscribers - old(hub.subscribers))
      invariant rest == others + joined && Others(me, rest) && |joined| == |JoinsOf(happenings[..i])|
      invariant forall k :: 0 <= k < |joined| ==> joined[k].wanted == JoinsOf(happenings[..i])[k]
      invariant Present(hub.subscribers, rest)
                == PresentAfter(Present(old(hub.subscribers), others), |others|, happenings[..i])
    {
      assert happenings[..i + 1][..i] == happenings[..i];
      ghost var before := rest;
      rest := PlayOne(hub, me, rest, happenings[i]);
      joined := joined + rest[|before|..];
    }
    assert happenings[..|happenings|] == happenings;
  }

  /** One whole window; then `me` reads its cell, or does not get to it. */
  method PlayWindow<F, G(==,!new), T>(hub: Hub<F, G, T>, me: Subscriber<G, T>, others: seq<Subscriber<G, T>>,
                                      happenings: seq<Happening<F, G>>, takes: bool)
    returns (rest: seq<Subscriber<G, T>>, batch: Option<seq<T>>)
    requires hub.Valid() && me in hub.subscribers && EachWantedOnce(happenings)
    requires hub.window == [] && hub.missed[me] == 0 && me.Ready() && Others(me, others)
    modifies hub, hub.subscribers
    ensures hub.Valid() && me in hub.subscribers && hub.missed[me] == 0 && hub.window == [] && me.Ready()
    ensures fresh(hub.subscribers - old(hub.subscribers)) && Others(me, rest)
    ensures Present(hub.subscribers, rest)
            == PresentAfter(Present(old(hub.subscribers), others), |others|, happenings)
    ensures
      var cell := Unread(old(me.pending), PrivateBatch(hub.spec, RecordsOf(happenings), me.wanted));
      if takes then batch == cell && me.pending == None else batch == None && me.pending == cell
  {
    hide PrivateBatch, RecordsOf, Complete, Unread, Others, Present, PresentAfter, Hub.CountersExact;
    rest := Play(hub, me, others, happenings);
    assert [] + RecordsOf(happenings) == RecordsOf(happenings);
    hub.FlushWindow();
    batch := None;
    if takes && me.signalled {
      batch := me.Take();
    }
  }

  /** What a reader of its own would have left unread after window k: the cell is emptied by every
      read and overwritten by every private batch that is not empty. */
  function Cell<F, G(==), T>(spec: LiveStreamSpec<F, G, T>, wanted: seq<G>, windows: seq<seq<Happening<F, G>>>,
                             taken: seq<bool>, k: nat): Option<seq<T>>
    requires k < |windows| == |taken|
  {
    Unread(if k == 0 || taken[k - 1] then None else Cell(spec, wanted, windows, taken, k - 1),
           PrivateBatch(spec, RecordsOf(windows[k]), wanted))
  }

  /** The batch of the last window that had one, if the cell has not been read since. */
  ghost predicate LastBatch<F, G, T>(spec: LiveStreamSpec<F, G, T>, wanted: seq<G>,
                                         windows: seq<seq<Happening<F, G>>>, taken: seq<bool>, j: nat, k: nat)
    requires j <= k < |windows| == |taken|
  {
    && PrivateBatch(spec, RecordsOf(windows[j]), wanted) != []
    && forall l :: j < l <= k ==> Quiet(spec, wanted, windows, taken, l)
  }

  /** Nothing was read right before window k, and it has no batch. */
  ghost predicate Quiet<F, G, T>(spec: LiveStreamSpec<F, G, T>, wanted: seq<G>,
                                 windows: seq<seq<Happening<F, G>>>, taken: seq<bool>, k: nat)
    requires 0 < k < |windows| == |taken|
  {
    !taken[k - 1] && PrivateBatch(spec, RecordsOf(windows[k]), wanted) == []
  }

  /** A reader that skips windows gets the private batch of the last window that was not empty. */
  lemma {:induction false} CellIsLastBatch<F, G, T>(spec: LiveStreamSpec<F, G, T>, wanted: seq<G>,
                                                    windows: seq<seq<Happening<F, G>>>, taken: seq<bool>, k: nat)
    requires k < |windows| == |taken|
    ensures forall j :: 0 <= j <= k && LastBatch(spec, wanted, windows, taken, j, k) ==>
              Cell(spec, wanted, windows, taken, k) == Some(PrivateBatch(spec, RecordsOf(windows[j]), wanted))
    ensures Cell(spec, wanted, windows, taken, k).Some? ==>
              exists j :: 0 <= j <= k && LastBatch(spec, wanted, windows, taken, j, k)
  {
    hide PrivateBatch, RecordsOf;
    if k > 0 {
      CellIsLastBatch(spec, wanted, windows, taken, k - 1);
      forall j | 0 <= j < k && LastBatch(spec, wanted, windows, taken, j, k)
        ensures LastBatch(spec, wanted, windows, taken, j, k - 1) && Quiet(spec, wanted, windows, taken, k)
      {
      }
    }
    if Cell(spec, wanted, windows, taken, k).Some? {
      if PrivateBatch(spec, RecordsOf(windows[k]), wanted) != [] {
        assert LastBatch(spec, wanted, windows, taken, k, k);
      } else {
        assert k > 0 && Quiet(spec, wanted, windows, taken, k);
        var j :| 0 <= j <= k - 1 && LastBatch(spec, wanted, windows, taken, j, k - 1);
        assert LastBatch(spec, wanted, windows, taken, j, k);
      }
    }
  }

  /** Sharing a hub is having a reader of one's own: a subscriber joins a hub that has been in use,
      at any point of any window, and reads the rest of that window. From then on it gets, whenever
      it reads, exactly what a private reader would have left for it, whoever joins and leaves. */
  method SharedAsPrivate<F, G(==,!new), T>(spec: LiveStreamSpec<F, G, T>, wanted: seq<G>,
                                           before: seq<seq<Happening<F, G>>>, beforeJoin: seq<Happening<F, G>>,
                                           afterJoin: seq<Happening<F, G>>, windows: seq<seq<Happening<F, G>>>,
                                           taken: seq<bool>)
    returns (batches: seq<Option<seq<T>>>)
    requires Distinct(wanted) && EachWantedOnce(beforeJoin) && EachWantedOnce(afterJoin)
    requires forall k :: 0 <= k < |before| ==> EachWantedOnce(before[k])
    requires forall k :: 0 <= k < |windows| ==> EachWantedOnce(windows[k])
    requires |taken| == |windows|
    ensures |batches| == |windows|
    ensures forall k :: 0 <= k < |windows| ==>
              batches[k] == if taken[k] then Cell(spec, wanted, windows, taken, k) else None
  {
    hide PrivateBatch, RecordsOf, Complete, Unread, EachWantedOnce, Hub.CountersExact, Others, Present, PresentAfter;
    var hub, me, others := JoinedHub(spec, wanted, before, beforeJoin, afterJoin);
    batches := [];
    for k := 0 to |windows|
      invariant fresh(hub) && fresh(hub.subscribers) && hub.spec == spec
      invariant hub.Valid() && me in hub.subscribers && me in hub.missed && hub.missed[me] == 0 && hub.window == []
      invariant me.wanted == wanted && me.Ready() && |batches| == k && Others(me, others)
      invariant me.pending == if k == 0 || taken[k - 1] then None else Cell(spec, wanted, windows, taken, k - 1)
      invariant forall l :: 0 <= l < k ==>
                  batches[l] == if taken[l] then Cell(spec, wanted, windows, taken, l) else None
    {
      var batch;
      others, batch := PlayWindow(hub, me, others, windows[k], taken[k]);
      batches := batches + [batch];
    }
  }

  lemma NobodyThere<F, G(!new), T>()
    ensures Present<G, T>({}, []) == {} == PresentAfter<F, G>({}, 0, []) && JoinsOf<F, G>([]) == []
  {
  }

  /** A hub that has served any number of windows. */
  method UsedHub<F, G(==,!new), T>(spec: LiveStreamSpec<F, G, T>, windows: seq<seq<Happening<F, G>>>)
    returns (hub: Hub<F, G, T>, others: seq<Subscriber<G, T>>)
    requires forall k :: 0 <= k < |windows| ==> EachWantedOnce(windows[k])
    ensures fresh(hub) && fresh(hub.subscribers) && hub.spec == spec && hub.Valid()
    ensures Others(null, others) && hub.window == [] && |others| == |JoinsOf(Through(windows))|
    ensures Present(hub.subscribers, others) == PresentAfter({}, 0, Through(windows))
  {
    hide PrivateBatch, RecordsOf, Complete, Unread, EachWantedOnce, Hub.CountersExact, Present, PresentAfter;
    hub := new Hub(spec);
    others := [];
    NobodyThere<F, G, T>();
    for k := 0 to |windows|
      invariant fresh(hub) && fresh(hub.subscribers) && hub.spec == spec && hub.Valid() && Others(null, others)
      invariant hub.window == [] && |others| == |JoinsOf(Through(windows[..k]))|
      invariant Present(hub.subscribers, others) == PresentAfter({}, 0, Through(windows[..k]))
    {
      assert windows[..k + 1][..k] == windows[..k];
      JoinsAppend(Through(windows[..k]), windows[k]);
      PresentAppend({}, 0, Through(windows[..k]), windows[k]);
      others := Play(hub, null, others, windows[k]);
      hub.FlushWindow();
    }
    assert windows[..|windows|] == windows;
  }

  /** A used hub, and a subscriber that joined it in the middle of a window, after the end of that
      window; it has read what it got of it. */
  method JoinedHub<F, G(==,!new), T>(spec: LiveStreamSpec<F, G, T>, wanted: seq<G>,
                                     before: seq<seq<Happening<F, G>>>, beforeJoin: seq<Happening<F, G>>,
                                     afterJoin: seq<Happening<F, G>>)
    returns (hub: Hub<F, G, T>, me: Subscriber<G, T>, others: seq<Subscriber<G, T>>)
    requires Distinct(wanted) && EachWantedOnce(beforeJoin) && EachWantedOnce(afterJoin)
    requires forall k :: 0 <= k < |before| ==> EachWantedOnce(before[k])
    ensures fresh(hub) && fresh(hub.subscribers) && hub.spec == spec
    ensures hub.Valid() && me in hub.subscribers && me in hub.missed && hub.missed[me] == 0 && hub.window == []
    ensures me.wanted == wanted && me.pending == None && me.Ready() && Others(me, others)
    ensures Present(hub.subscribers, others) == PresentAfter({}, 0, Through(before) + beforeJoin + afterJoin)
  {
    hide PrivateBatch, RecordsOf, Complete, EachWantedOnce, Unread, Hub.CountersExact, Others, Present, PresentAfter;
    hub, others := UsedHub(spec, before);
    others := Play(hub, null, others, beforeJoin);
    JoinsAppend(Through(before), beforeJoin);
    PresentAppend({}, 0, Through(before), beforeJoin);
    PresentAppend({}, 0, Through(before) + beforeJoin, afterJoin);
    me, others := JoinAndFinish(hub, wanted, others, afterJoin);
    if me.signalled {
      var batch := me.Take();
    }
  }

  lemma NotAnOther<G(!new), T>(subscribers: set<Subscriber<G, T>>, me: Subscriber<G, T>,
                               others: seq<Subscriber<G, T>>)
    requires forall i :: 0 <= i < |others| ==> others[i] != me
    ensures Present(subscribers + {me}, others) == Present(subscribers, others)
  {
  }

  /** Joins the hub, and plays the window to its end. */
  method JoinAndFinish<F, G(==,!new), T>(hub: Hub<F, G, T>, wanted: seq<G>, others: seq<Subscriber<G, T>>,
                                         happenings: seq<Happening<F, G>>)
    returns (me: Subscriber<G, T>, rest: seq<Subscriber<G, T>>)
    requires hub.Valid() && Distinct(wanted) && EachWantedOnce(happenings) && Others(null, others)
    modifies hub, hub.subscribers
    ensures fresh(me) && fresh(hub.subscribers - old(hub.subscribers))
    ensures hub.Valid() && me in hub.subscribers && me in hub.missed && hub.missed[me] == 0 && hub.window == []
    ensures me.wanted == wanted && me.Ready() && Others(me, rest)
    ensures Present(hub.subscribers, rest)
            == PresentAfter(Present(old(hub.subscribers), others), |others|, happenings)
  {
    hide PrivateBatch, RecordsOf, Complete, EachWantedOnce, Unread, Hub.CountersExact, Present, PresentAfter;
    me := hub.AddSubscriber(wanted);
    NotAnOther(hub.subscribers - {me}, me, others);
    rest := Play(hub, me, others, happenings);
    hub.FlushWindow();
  }
}
