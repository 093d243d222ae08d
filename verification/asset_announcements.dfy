/** Saves and the change log together: a save that announces a change can be followed through the
    log; a silent save that changes the active pairs is a commit of which nothing tells. */
module AssetAnnouncements {
  import opened Wrappers
  import opened AssetTriggers
  import C = AssetChanges

  /** The exchange the stream is for, and an active asset, as values of their fields. */
  const BINANCE := 0
  const ACTIVE := 1

  /** The pair this asset contributes to the active ones. */
  function Own(row: Values): set<C.Pair>
    requires row.Keys == TRACKED
  {
    assert Exchange in TRACKED && TradingPair in TRACKED && IsActive in TRACKED;
    if row[Exchange] == BINANCE && row[IsActive] == ACTIVE then {row[TradingPair]} else {}
  }

  /** An asset counts while it is active and of this exchange: switching it on or off, or moving it to
      another exchange, adds or removes its pair and no other. */
  lemma OwnFollowsTheRow(row: Values, other: int)
    requires row.Keys == TRACKED
    ensures row[Exchange] == BINANCE ==>
              Own(row[IsActive := ACTIVE]) == {row[TradingPair]} && Own(row[IsActive := 1 - ACTIVE]) == {}
    ensures row[IsActive] == ACTIVE ==>
              Own(row[Exchange := other]) == if other == BINANCE then {row[TradingPair]} else {}
  {
  }

  /** One instance and its row, the pairs of all other assets, and the change log. */
  datatype Database = Database(instance: Instance, row: Values, others: set<C.Pair>, log: C.State)

  function Committed(d: Database): set<C.Pair>
    requires d.row.Keys == TRACKED
  {
    d.others + Own(d.row)
  }

  datatype Event =
    | Saving(save: Save)
    | Elsewhere(pairs: set<C.Pair>)  // an announced commit of another asset
    | Delivery(happening: C.Happening)

  lemma RowStays(i: Instance, row: Values, updateFields: Option<Names>)
    requires row.Keys == TRACKED
    ensures SaveRow(i, row, updateFields).Keys == TRACKED
  {
    EveryFieldIsTracked();
  }

  /** A save commits the pairs anew if it changes them or announces it did. */
  function AfterSave(d: Database, save: Save): (t: Database)
    requires d.row.Keys == TRACKED && C.Wellformed(d.log)
    ensures t.row.Keys == TRACKED && C.Wellformed(t.log)
  {
    var edited := Edited(d.instance, save);
    RowStays(edited, d.row, save.updateFields);
    var row := SaveRow(edited, d.row, save.updateFields);
    var pairs := d.others + Own(row);
    var log :=
      if Publishes(edited, d.row, false, false, save.updateFields) then C.Apply(d.log, C.Commit(pairs))
      else if pairs == Committed(d) then d.log
      else d.log.(history := d.log.history + [pairs]);
    Database(Saved(edited, d.row, false, false, save.updateFields), row, d.others, log)
  }

  function Next(d: Database, e: Event): (t: Database)
    requires d.row.Keys == TRACKED && C.Wellformed(d.log)
    ensures t.row.Keys == TRACKED && C.Wellformed(t.log)
  {
    match e
    case Saving(save) => AfterSave(d, save)
    case Elsewhere(pairs) => d.(others := pairs, log := C.Apply(d.log, C.Commit(pairs + Own(d.row))))
    case Delivery(happening) => if happening.Commit? then d else d.(log := C.Apply(d.log, happening))
  }

  function After(d: Database, events: seq<Event>): (t: Database)
    requires d.row.Keys == TRACKED && C.Wellformed(d.log)
    ensures t.row.Keys == TRACKED && C.Wellformed(t.log)
  {
    if events == [] then d else Next(After(d, events[..|events| - 1]), events[|events| - 1])
  }

  /** Commits that anything tells of have happened, and the last one is what the tables say. */
  ghost predicate Consistent(d: Database) {
    && d.row.Keys == TRACKED && C.Wellformed(d.log) && d.log.history[C.Latest(d.log)] == Committed(d)
    && (forall v :: v in d.log.unpublished || v in d.log.lost ==> v < |d.log.history|)
    && (forall k :: 0 <= k < |d.log.stream| && d.log.stream[k].Some? ==> d.log.stream[k].value < |d.log.history|)
  }

  lemma NextConsistent(d: Database, e: Event)
    requires Consistent(d)
    ensures Consistent(Next(d, e))
  {
    hide SaveRow, Publishes, Saved, Own;
  }

  /** After a save the follower of the log can still account for every commit if and only if the save
      did not change the active pairs silently. */
  lemma TracedIffNotSilent(d: Database, save: Save, seen: nat, lastId: nat)
    requires Consistent(d) && C.Covered(d.log, seen, lastId)
    ensures
      var t := AfterSave(d, save);
      C.Covered(t.log, seen, lastId)
      <==> !(Silent(Edited(d.instance, save), d.row, save.updateFields) && Committed(t) != Committed(d))
  {
    var edited, t := Edited(d.instance, save), AfterSave(d, save);
    RowStays(edited, d.row, save.updateFields);
    var v := |d.log.history|;
    if Publishes(edited, d.row, false, false, save.updateFields) {
      C.ApplyKeepsCovered(d.log, C.Commit(Committed(t)), seen, lastId);
    } else if Committed(t) != Committed(d) {
      assert SaveRow(edited, d.row, save.updateFields) != d.row;
      assert seen < v <= C.Latest(t.log) && v !in t.log.unpublished && v !in t.log.lost;
      assert !C.Announced(t.log, v, lastId);
    }
  }

  /** The saves of a run assign only, and none publishes while it leaves a loaded value unwritten. */
  ghost predicate NothingForgotten(d: Database, events: seq<Event>)
    requires d.row.Keys == TRACKED && C.Wellformed(d.log)
  {
    forall k :: 0 <= k < |events| && events[k].Saving? ==>
      var before, save := After(d, events[..k]), events[k].save;
      Grows(before.instance, save.values, save.others) && !Forgetful(before.instance, before.row, save)
  }

  /** From a true snapshot on, saves that forget nothing, commits of other assets and whatever the log
      does in between leave every commit accounted for, and the last of them is what the tables say. */
  lemma {:induction false} TracedWhileNothingForgotten(d: Database, events: seq<Event>, seen: nat, lastId: nat)
    requires Consistent(d) && Truthful((d.instance, d.row)) && C.Covered(d.log, seen, lastId)
    requires NothingForgotten(d, events)
    ensures
      var t := After(d, events);
      Consistent(t) && Truthful((t.instance, t.row)) && C.Covered(t.log, seen, lastId)
  {
    hide Consistent, Truthful, Next, NothingForgotten;
    if events != [] {
      var n := |events| - 1;
      ConsistentRow(d);
      PrefixForgetsNothing(d, events);
      TracedWhileNothingForgotten(d, events[..n], seen, lastId);
      TracedNext(After(d, events[..n]), events[n], seen, lastId);
    }
  }

  lemma ConsistentRow(d: Database)
    requires Consistent(d)
    ensures d.row.Keys == TRACKED && C.Wellformed(d.log)
  {
  }

  lemma PrefixForgetsNothing(d: Database, events: seq<Event>)
    requires d.row.Keys == TRACKED && C.Wellformed(d.log) && events != [] && NothingForgotten(d, events)
    ensures NothingForgotten(d, events[..|events| - 1])
    ensures
      var before, last := After(d, events[..|events| - 1]), events[|events| - 1];
      last.Saving? ==>
        && Grows(before.instance, last.save.values, last.save.others)
        && !Forgetful(before.instance, before.row, last.save)
  {
    hide After, Forgetful, Grows;
    var init := events[..|events| - 1];
    forall k | 0 <= k < |init| && init[k].Saving?
      ensures
        var before, save := After(d, init[..k]), init[k].save;
        Grows(before.instance, save.values, save.others) && !Forgetful(before.instance, before.row, save)
    {
      assert init[..k] == events[..k];
    }
  }

  lemma TracedNext(d: Database, e: Event, seen: nat, lastId: nat)
    requires Consistent(d) && Truthful((d.instance, d.row)) && C.Covered(d.log, seen, lastId)
    requires e.Saving? ==> Grows(d.instance, e.save.values, e.save.others) && !Forgetful(d.instance, d.row, e.save)
    ensures
      var t := Next(d, e);
      Consistent(t) && Truthful((t.instance, t.row)) && C.Covered(t.log, seen, lastId)
  {
    NextConsistent(d, e);
    match e
    case Saving(save) =>
      OneSave(d.instance, d.row, save);
      TracedIffNotSilent(d, save, seen, lastId);
      TruthfulSpeaks((d.instance, d.row));
    case Elsewhere(pairs) => C.ApplyKeepsCovered(d.log, C.Commit(pairs + Own(d.row)), seen, lastId);
    case Delivery(happening) => C.ApplyKeepsCovered(d.log, happening, seen, lastId);
  }
}
