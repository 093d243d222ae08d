/** When does saving a `CryptoAsset` announce a change of its subscription fields?

    An instance keeps a snapshot of the fields as it last knew them, and compares against it. Fields
    may be deferred; a save reads those it is asked to write, and so loads them. */
module AssetTriggers {
  import opened Wrappers

  /** SUBSCRIPTION_TRACKED_FIELDS. */
  datatype Field = Exchange | TradingPair | IsActive

  const TRACKED: set<Field> := {Exchange, TradingPair, IsActive}

  /** Values of tracked fields; a deferred field of an instance is simply absent. */
  type Values = map<Field, int>

  /** `others`: is any other field than the key loaded? */
  datatype Instance = Instance(values: Values, snapshot: Option<Values>, others: bool)

  /** `update_fields`: the tracked fields in it, and whether it has any other. */
  datatype Names = Names(tracked: set<Field>, other: bool)

  lemma EveryFieldIsTracked()
    ensures forall f: Field :: f in TRACKED
  {
    forall f: Field ensures f in TRACKED {
      match f
      case Exchange =>
      case TradingPair =>
      case IsActive =>
    }
  }

  /** The tracked fields a save is about: those named; without names the loaded ones, or all if
      nothing is loaded. */
  function Named(i: Instance, updateFields: Option<Names>): set<Field> {
    if updateFields.Some? then updateFields.value.tracked
    else if i.values.Keys == {} && !i.others then TRACKED
    else i.values.Keys
  }

  /** The instance once the save has read what it writes: deferred fields among it come from the row. */
  function Load(i: Instance, row: Values, updateFields: Option<Names>): Instance {
    var named := Named(i, updateFields);
    var everything := updateFields.None? && i.values.Keys == {} && !i.others;
    i.(values := (map f | f in named && f in row :: row[f]) + i.values,
       others := i.others || everything || (updateFields.Some? && updateFields.value.other))
  }

  /** The row the save leaves. */
  function SaveRow(i: Instance, row: Values, updateFields: Option<Names>): Values {
    var values := Load(i, row, updateFields).values;
    row + map f | f in Named(i, updateFields) && f in values :: values[f]
  }

  /** What a save writes: of the fields named, or of all without names, those with a value in the
      instance. It loads what it is asked to write, everything if nothing is loaded, and nothing else. */
  lemma SaveWrites(i: Instance, row: Values, updateFields: Option<Names>)
    requires row.Keys == TRACKED
    ensures SaveRow(i, row, updateFields).Keys == TRACKED
    ensures forall f :: f in TRACKED ==>
              var written := f in i.values && (updateFields.Some? ==> f in updateFields.value.tracked);
              SaveRow(i, row, updateFields)[f] == if written then i.values[f] else row[f]
    ensures forall f: Field :: f in Load(i, row, updateFields).values <==>
              || f in i.values
              || (updateFields.Some? && f in updateFields.value.tracked)
              || (updateFields.None? && i.values == map[] && !i.others)
    ensures Load(i, row, updateFields).others <==>
              || i.others || (updateFields.Some? && updateFields.value.other)
              || (updateFields.None? && i.values == map[] && !i.others)
    ensures forall f: Field :: f in Load(i, row, updateFields).values ==>
              Load(i, row, updateFields).values[f] == if f in i.values then i.values[f] else row[f]
  {
    EveryFieldIsTracked();
    assert i.values.Keys == {} <==> i.values == map[];
  }

  /** `subscription_fields_changed`, of the loaded instance and the names the signal gets. */
  predicate SubscriptionFieldsChanged(i: Instance, named: set<Field>) {
    if named == {} then false
    else if i.snapshot.None? then true
    else exists f :: f in named && f in i.values
                     && (f !in i.snapshot.value || i.snapshot.value[f] != i.values[f])
  }

  /** Does this save publish an event? */
  predicate Publishes(i: Instance, row: Values, created: bool, raw: bool, updateFields: Option<Names>) {
    !raw && (created || SubscriptionFieldsChanged(Load(i, row, updateFields), Named(i, updateFields)))
  }

  /** The instance after the save: publishing refreshes the snapshot, from all loaded fields. */
  function Saved(i: Instance, row: Values, created: bool, raw: bool, updateFields: Option<Names>): Instance {
    var loaded := Load(i, row, updateFields);
    if Publishes(i, row, created, raw, updateFields) then loaded.(snapshot := Some(loaded.values)) else loaded
  }

  /** The snapshot says what the row says. */
  predicate SnapshotTrue(i: Instance, row: Values) {
    i.snapshot.Some? ==> forall f :: f in i.snapshot.value ==> f in row && i.snapshot.value[f] == row[f]
  }

  /** A save of the instance that changes the row without an event. */
  predicate Silent(i: Instance, row: Values, updateFields: Option<Names>) {
    SaveRow(i, row, updateFields) != row && !Publishes(i, row, false, false, updateFields)
  }

  /** A loaded tracked value that this save leaves unwritten. */
  predicate LeavesUnsaved(i: Instance, row: Values, updateFields: Option<Names>) {
    exists f :: f in i.values && f !in Named(i, updateFields) && (f !in row || i.values[f] != row[f])
  }

  /** What became of an instance by assigning to it and reading it: fields are loaded, never
      unloaded. */
  predicate Grows(i: Instance, values: Values, others: bool) {
    i.values.Keys <= values.Keys && (i.others ==> others)
  }

  /** No next save of this instance can be silent, whatever is assigned before it. */
  ghost predicate NextSaveSpeaks(i: Instance, row: Values) {
    forall values: Values, others: bool, updateFields: Option<Names> ::
      Grows(i, values, others) ==> !Silent(i.(values := values, others := others), row, updateFields)
  }

  /** A snapshot that tells the truth is exactly what is needed: with it no save is silent,
      without it some save is, whatever values are assigned before. */
  lemma NoSilentSaveIffSnapshotTrue(i: Instance, row: Values)
    requires row.Keys == TRACKED && (i.snapshot.Some? ==> i.snapshot.value.Keys <= i.values.Keys)
    ensures SnapshotTrue(i, row) <==> NextSaveSpeaks(i, row)
  {
    EveryFieldIsTracked();
    if SnapshotTrue(i, row) {
      forall values: Values, others: bool, u: Option<Names> | Grows(i, values, others)
        ensures !Silent(i.(values := values, others := others), row, u)
      {
        TrueSnapshotPublishes(i.(values := values, others := others), row, u);
      }
    } else {
      var f :| f in i.snapshot.value && (f !in row || i.snapshot.value[f] != row[f]);
      OutdatedIsSilent(i, row, f);
    }
  }

  /** A field whose snapshot is out of date: setting it to its snapshot and saving it is silent. */
  lemma OutdatedIsSilent(i: Instance, row: Values, f: Field)
    requires row.Keys == TRACKED && i.snapshot.Some? && i.snapshot.value.Keys <= i.values.Keys
    requires f in i.snapshot.value && f in row && i.snapshot.value[f] != row[f]
    ensures !NextSaveSpeaks(i, row)
  {
    var values, u := i.values[f := i.snapshot.value[f]], Some(Names({f}, false));
    var j := i.(values := values);
    assert Grows(i, values, i.others);
    var loaded := Load(j, row, u);
    assert Named(j, u) == {f} && loaded.values[f] == i.snapshot.value[f];
    assert SaveRow(j, row, u)[f] != row[f];
    assert !Publishes(j, row, false, false, u);
    assert Silent(i.(values := values, others := i.others), row, u);
  }

  lemma TrueSnapshotPublishes(i: Instance, row: Values, updateFields: Option<Names>)
    requires row.Keys == TRACKED && SnapshotTrue(i, row)
    ensures SaveRow(i, row, updateFields) != row ==> Publishes(i, row, false, false, updateFields)
  {
    EveryFieldIsTracked();
    var after := SaveRow(i, row, updateFields);
    if after != row {
      assert after.Keys == row.Keys;
      var f :| f in row && after[f] != row[f];
      var loaded, named := Load(i, row, updateFields), Named(i, updateFields);
      assert f in named && f in loaded.values && after[f] == loaded.values[f];
    }
  }

  /** Some saves announce nothing: those that load fixtures, and of a row that exists those that name no
      tracked field. The others, with a whole and true snapshot, announce just what changes the row. */
  lemma AnnouncesJustChanges(i: Instance, row: Values, updateFields: Option<Names>, created: bool)
    requires row.Keys == TRACKED
    ensures !Publishes(i, row, created, true, updateFields)
    ensures updateFields.Some? && updateFields.value.tracked == {} ==> !Publishes(i, row, false, false, updateFields)
    ensures i.snapshot.Some? && i.snapshot.value == row ==>
              (Publishes(i, row, false, false, updateFields) <==> SaveRow(i, row, updateFields) != row)
  {
    if i.snapshot.Some? && i.snapshot.value == row {
      var after, loaded, named := SaveRow(i, row, updateFields), Load(i, row, updateFields), Named(i, updateFields);
      TrueSnapshotPublishes(i, row, updateFields);
      if Publishes(i, row, false, false, updateFields) {
        var f :| f in named && f in loaded.values && (f !in row || row[f] != loaded.values[f]);
        assert after[f] == loaded.values[f];
      }
    }
  }

  /** Exactly which saves keep the snapshot true: all but those that publish while another
      loaded field holds a value they do not write. A caller can check this before saving. */
  lemma SaveKeepsSnapshotTrue(i: Instance, row: Values, updateFields: Option<Names>)
    requires row.Keys == TRACKED && SnapshotTrue(i, row)
    ensures
      SnapshotTrue(Saved(i, row, false, false, updateFields), SaveRow(i, row, updateFields))
      <==> !(Publishes(i, row, false, false, updateFields) && LeavesUnsaved(i, row, updateFields))
  {
    EveryFieldIsTracked();
    var after, loaded, named := SaveRow(i, row, updateFields), Load(i, row, updateFields), Named(i, updateFields);
    assert after.Keys == row.Keys;
    if !Publishes(i, row, false, false, updateFields) {
      TrueSnapshotPublishes(i, row, updateFields);
    } else if LeavesUnsaved(i, row, updateFields) {
      var f :| f in i.values && f !in named && (f !in row || i.values[f] != row[f]);
      assert loaded.values[f] == i.values[f] && after[f] == row[f];
    } else {
      forall f | f in loaded.values ensures f in after && loaded.values[f] == after[f] {
        assert f in row;
        assert f !in named ==> f in i.values && loaded.values[f] == i.values[f];
      }
    }
  }

  /** What the instance has been made by assigning and reading, and the save that follows. */
  datatype Save = Save(values: Values, others: bool, updateFields: Option<Names>)

  /** Where an instance comes from: the database, with some fields loaded, or a constructor, for a row
      that is there already. */
  datatype Origin = Selected(fields: set<Field>, others: bool) | Built(values: Values)

  function Start(origin: Origin, row: Values): Instance {
    match origin
    case Selected(fields, others) =>
      var values := map f | f in fields && f in row :: row[f];
      Instance(values, Some(values), others)
    case Built(values) => Instance(values, None, true)
  }

  /** Creating a row publishes and leaves the instance as if it had just been selected. */
  lemma CreatedIsAsSelected(values: Values)
    requires values.Keys == TRACKED
    ensures
      var i := Start(Built(values), map[]);
      && Publishes(i, map[], true, false, None) && SaveRow(i, map[], None) == values
      && Saved(i, map[], true, false, None) == Start(Selected(TRACKED, true), values)
  {
    var i := Start(Built(values), map[]);
    assert Load(i, map[], None).values == values;
    assert (map f | f in TRACKED && f in values :: values[f]) == values;
  }

  function Edited(i: Instance, save: Save): Instance {
    i.(values := save.values, others := save.others)
  }

  /** The instance and the row after some saves of the instance, each row as the saves left it. */
  function AfterSaves(i: Instance, row: Values, saves: seq<Save>): (Instance, Values) {
    if saves == [] then (i, row)
    else
      var (j, before) := AfterSaves(i, row, saves[..|saves| - 1]);
      var last := saves[|saves| - 1];
      (Saved(Edited(j, last), before, false, false, last.updateFields),
       SaveRow(Edited(j, last), before, last.updateFields))
  }

  ghost predicate Assignable(i: Instance, row: Values, saves: seq<Save>) {
    forall k :: 0 <= k < |saves| ==> Grows(AfterSaves(i, row, saves[..k]).0, saves[k].values, saves[k].others)
  }

  /** This save publishes while it leaves a loaded value unwritten. */
  predicate Forgetful(i: Instance, row: Values, save: Save) {
    && Publishes(Edited(i, save), row, false, false, save.updateFields)
    && LeavesUnsaved(Edited(i, save), row, save.updateFields)
  }

  ghost predicate Forgets(i: Instance, row: Values, saves: seq<Save>, k: nat)
    requires k < |saves|
  {
    var (j, before) := AfterSaves(i, row, saves[..k]);
    Forgetful(j, before, saves[k])
  }

  /** The row is whole, and the snapshot, if there is one, has loaded fields only. */
  ghost predicate Whole(p: (Instance, Values)) {
    p.1.Keys == TRACKED && (p.0.snapshot.Some? ==> p.0.snapshot.value.Keys <= p.0.values.Keys)
  }

  ghost predicate Truthful(p: (Instance, Values)) {
    Whole(p) && SnapshotTrue(p.0, p.1)
  }

  lemma OneSave(i: Instance, row: Values, save: Save)
    requires Truthful((i, row)) && Grows(i, save.values, save.others)
    ensures
      var edited := Edited(i, save);
      var next := (Saved(edited, row, false, false, save.updateFields), SaveRow(edited, row, save.updateFields));
      Whole(next) && (Truthful(next) <==> !Forgetful(i, row, save))
  {
    EveryFieldIsTracked();
    var edited := Edited(i, save);
    SaveKeepsSnapshotTrue(edited, row, save.updateFields);
    assert SaveRow(edited, row, save.updateFields).Keys == TRACKED;
  }

  /** The snapshot tells the truth after a list of saves as long as no save forgets. */
  lemma {:induction false} TruthfulWhileNothingForgotten(i: Instance, row: Values, saves: seq<Save>)
    requires Truthful((i, row)) && Assignable(i, row, saves)
    requires forall k :: 0 <= k < |saves| ==> !Forgets(i, row, saves, k)
    ensures Truthful(AfterSaves(i, row, saves))
  {
    hide Forgets, Truthful, Assignable;
    if saves != [] {
      var n := |saves| - 1;
      var init := saves[..n];
      AssignablePrefix(i, row, saves, n);
      forall k | 0 <= k < n ensures !Forgets(i, row, init, k) {
        SameForgets(i, row, saves, n, k);
      }
      TruthfulWhileNothingForgotten(i, row, init);
      LastSaveTruthful(i, row, saves);
    }
  }

  lemma SameForgets(i: Instance, row: Values, saves: seq<Save>, n: nat, k: nat)
    requires k < n <= |saves|
    ensures saves[..n][..k] == saves[..k]
    ensures Forgets(i, row, saves[..n], k) == Forgets(i, row, saves, k)
  {
    assert saves[..n][..k] == saves[..k];
  }

  lemma AssignablePrefix(i: Instance, row: Values, saves: seq<Save>, n: nat)
    requires n <= |saves| && Assignable(i, row, saves)
    ensures Assignable(i, row, saves[..n])
  {
    hide AfterSaves, Grows;
    var part := saves[..n];
    forall k | 0 <= k < n ensures Grows(AfterSaves(i, row, part[..k]).0, part[k].values, part[k].others) {
      assert part[..k] == saves[..k];
    }
  }

  lemma LastSaveTruthful(i: Instance, row: Values, saves: seq<Save>)
    requires saves != [] && Truthful(AfterSaves(i, row, saves[..|saves| - 1])) && Assignable(i, row, saves)
    ensures Truthful(AfterSaves(i, row, saves)) <==> !Forgets(i, row, saves, |saves| - 1)
    ensures Whole(AfterSaves(i, row, saves))
  {
    hide Truthful, Whole, Saved, SaveRow, Forgetful;
    var (j, before) := AfterSaves(i, row, saves[..|saves| - 1]);
    OneSave(j, before, saves[|saves| - 1]);
  }

  /** Over any list of saves of an instance, selected or built: at no point of it can the next save be
      silent if and only if no save of the list publishes while it leaves a loaded value unwritten. */
  lemma {:induction false} AnnouncedIffNothingForgotten(origin: Origin, row: Values, saves: seq<Save>)
    requires row.Keys == TRACKED && Assignable(Start(origin, row), row, saves)
    ensures
      var i := Start(origin, row);
      (forall k :: 0 <= k <= |saves| ==>
         var (j, before) := AfterSaves(i, row, saves[..k]);
         NextSaveSpeaks(j, before))
      <==> forall k :: 0 <= k < |saves| ==> !Forgets(i, row, saves, k)
  {
    hide Forgets, Truthful, NextSaveSpeaks, Assignable, Start;
    var i := Start(origin, row);
    StartTruthful(origin, row);
    if forall k :: 0 <= k < |saves| ==> !Forgets(i, row, saves, k) {
      forall k | 0 <= k <= |saves|
        ensures
          var (j, before) := AfterSaves(i, row, saves[..k]);
          NextSaveSpeaks(j, before)
      {
        PrefixTruthful(i, row, saves, k);
        TruthfulSpeaks(AfterSaves(i, row, saves[..k]));
      }
    } else {
      var k := FirstForgotten(i, row, saves);
      AfterForgetting(i, row, saves, k);
      var (j, before) := AfterSaves(i, row, saves[..k + 1]);
      assert !NextSaveSpeaks(j, before);
    }
  }

  lemma StartTruthful(origin: Origin, row: Values)
    requires row.Keys == TRACKED
    ensures Truthful((Start(origin, row), row))
  {
  }

  lemma TruthfulSpeaks(p: (Instance, Values))
    requires Truthful(p)
    ensures NextSaveSpeaks(p.0, p.1)
  {
    NoSilentSaveIffSnapshotTrue(p.0, p.1);
  }

  lemma PrefixTruthful(i: Instance, row: Values, saves: seq<Save>, k: nat)
    requires Truthful((i, row)) && Assignable(i, row, saves) && k <= |saves|
    requires forall l :: 0 <= l < k ==> !Forgets(i, row, saves, l)
    ensures Truthful(AfterSaves(i, row, saves[..k]))
  {
    hide Truthful, Forgets, Assignable, AfterSaves;
    AssignablePrefix(i, row, saves, k);
    forall l | 0 <= l < k ensures !Forgets(i, row, saves[..k], l) {
      SameForgets(i, row, saves, k, l);
    }
    TruthfulWhileNothingForgotten(i, row, saves[..k]);
  }

  /** The first save of the list that forgets. */
  lemma FirstForgotten(i: Instance, row: Values, saves: seq<Save>) returns (k: nat)
    requires exists l :: 0 <= l < |saves| && Forgets(i, row, saves, l)
    ensures k < |saves| && Forgets(i, row, saves, k) && forall l :: 0 <= l < k ==> !Forgets(i, row, saves, l)
  {
    hide Forgets;
    k := 0;
    while !Forgets(i, row, saves, k)
      invariant k < |saves| && forall l :: 0 <= l < k ==> !Forgets(i, row, saves, l)
      decreases |saves| - k
    {
      k := k + 1;
    }
  }

  lemma AfterForgetting(i: Instance, row: Values, saves: seq<Save>, k: nat)
    requires Truthful((i, row)) && Assignable(i, row, saves) && k < |saves|
    requires Forgets(i, row, saves, k) && forall l :: 0 <= l < k ==> !Forgets(i, row, saves, l)
    ensures
      var (j, before) := AfterSaves(i, row, saves[..k + 1]);
      !NextSaveSpeaks(j, before)
  {
    hide Truthful, Forgets, Assignable, AfterSaves, Whole;
    PrefixTruthful(i, row, saves, k);
    var part := saves[..k + 1];
    AssignablePrefix(i, row, saves, k + 1);
    SameForgets(i, row, saves, k + 1, k);
    LastSaveTruthful(i, row, part);
    NotTruthful(AfterSaves(i, row, part));
  }

  lemma NotTruthful(p: (Instance, Values))
    requires Whole(p) && !Truthful(p)
    ensures !NextSaveSpeaks(p.0, p.1)
  {
    NoSilentSaveIffSnapshotTrue(p.0, p.1);
  }

  /** A concrete lost event: both fields are edited, only `is_active` is saved, and the later
      full save changes the trading pair without a word. */
  lemma LostEvent()
    ensures
      var row := map[Exchange := 0, TradingPair := 1, IsActive := 0];
      var edited := Instance(map[Exchange := 0, TradingPair := 2, IsActive := 1], Some(row), true);
      var first := Some(Names({IsActive}, false));
      && SnapshotTrue(edited, row)
      && Publishes(edited, row, false, false, first)
      && Silent(Saved(edited, row, false, false, first), SaveRow(edited, row, first), None)
  {
    var row := map[Exchange := 0, TradingPair := 1, IsActive := 0];
    var edited := Instance(map[Exchange := 0, TradingPair := 2, IsActive := 1], Some(row), true);
    var first := Some(Names({IsActive}, false));
    ForgottenPair(edited, row, first);
  }

  /** The same through a deferred field: saving by the name of the exchange loads and so announces
      it, and the new pair is remembered without having been written. */
  lemma LostEventOfDeferredField()
    ensures
      var row := map[Exchange := 0, TradingPair := 1, IsActive := 0];
      var selected := Start(Selected({TradingPair, IsActive}, true), row);
      var first := Save(map[TradingPair := 2, IsActive := 0], true, Some(Names({Exchange}, false)));
      var edited := Edited(selected, first);
      && Forgetful(selected, row, first)
      && SaveRow(edited, row, first.updateFields) == row
      && Silent(Saved(edited, row, false, false, first.updateFields), row, None)
  {
    var row := map[Exchange := 0, TradingPair := 1, IsActive := 0];
    var selected := Start(Selected({TradingPair, IsActive}, true), row);
    var first := Save(map[TradingPair := 2, IsActive := 0], true, Some(Names({Exchange}, false)));
    var edited := Edited(selected, first);
    assert Load(edited, row, first.updateFields).values == map[Exchange := 0, TradingPair := 2, IsActive := 0];
    assert edited.values[TradingPair] != row[TradingPair];
    assert SaveRow(edited, row, first.updateFields) == row;
    ForgottenPair(edited, row, first.updateFields);
  }

  /** A save that publishes, leaves an edited pair unwritten and has every field loaded afterwards:
      the next full save is silent. */
  lemma ForgottenPair(i: Instance, row: Values, updateFields: Option<Names>)
    requires row.Keys == TRACKED && Load(i, row, updateFields).values.Keys == TRACKED
    requires Publishes(i, row, false, false, updateFields)
    requires TradingPair in i.values && TradingPair !in Named(i, updateFields)
    requires i.values[TradingPair] != row[TradingPair]
    ensures Silent(Saved(i, row, false, false, updateFields), SaveRow(i, row, updateFields), None)
  {
    EveryFieldIsTracked();
    var after, next := SaveRow(i, row, updateFields), Saved(i, row, false, false, updateFields);
    assert after[TradingPair] == row[TradingPair] && next.values[TradingPair] == i.values[TradingPair];
    assert Load(next, after, None).values == next.values;
    assert SaveRow(next, after, None)[TradingPair] == i.values[TradingPair];
  }
}
