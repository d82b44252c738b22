/** Stored solution assets and their append-only outcomes. */
module SolutionStorage {
  import opened Wrappers
  import opened SolutionMemory

  datatype AssetRow = AssetRow(kind: nat, name: string, content: nat, state: AssetState)

  datatype Asset = Asset(id: Id, row: AssetRow)

  /** `runs` are the stored evaluator runs outcomes may refer to. */
  datatype Tables = Tables(assets: map<Id, AssetRow>, outcomes: seq<Outcome>, runs: set<Id>)

  datatype StorageError = Constraint | ImmutableConflict | NoHistory

  /** UNIQUE (asset_id, synthetic_run_sha256, evaluator_run_id). */
  predicate SameKey(a: Outcome, b: Outcome) {
    a.asset == b.asset && a.synthetic == b.synthetic && a.evaluatorRun == b.evaluatorRun
  }

  predicate KeyIn(outcomes: seq<Outcome>, o: Outcome) {
    exists p :: p in outcomes && SameKey(p, o)
  }

  predicate References(t: Tables, o: Outcome) {
    o.asset in t.assets && o.evaluatorRun in t.runs
  }

  ghost predicate UniqueKeys(outcomes: seq<Outcome>) {
    forall i, j :: 0 <= i < j < |outcomes| ==> !SameKey(outcomes[i], outcomes[j])
  }

  /** What the constraints of the schema guarantee. */
  ghost predicate Consistent(t: Tables) {
    && (forall o :: o in t.outcomes ==> References(t, o)) && UniqueKeys(t.outcomes)
    && (forall i, j :: i in t.assets && j in t.assets && SameReceipt(t.assets[i], t.assets[j]) ==> i == j)
  }

  predicate SameReceipt(a: AssetRow, b: AssetRow) {
    a.kind == b.kind && a.content == b.content
  }

  /** INSERT ... ON CONFLICT DO NOTHING, one outcome after the other. */
  function Deduplicated(stored: seq<Outcome>, batch: seq<Outcome>): seq<Outcome>
    decreases |batch|
  {
    if batch == [] then stored
    else
      var before := Deduplicated(stored, batch[..|batch| - 1]);
      if KeyIn(before, batch[|batch| - 1]) then before else before + [batch[|batch| - 1]]
  }

  /** The persisted outcomes of one asset, oldest first. */
  function HistoryOf(outcomes: seq<Outcome>, asset: Id): (own: seq<Outcome>)
    ensures OwnedBy(own, asset) && forall o :: o in own <==> o in outcomes && o.asset == asset
  {
    if outcomes == [] then []
    else HistoryOf(outcomes[..|outcomes| - 1], asset) + if outcomes[|outcomes| - 1].asset == asset then [outcomes[|outcomes| - 1]] else []
  }

  /** The state next_asset_state derives from the persisted history. */
  function Derived(t: Tables, asset: Id): Result<AssetState, MemoryError> {
    NextState(asset, HistoryOf(t.outcomes, asset))
  }

  /** persist_solution_outcomes commits. */
  ghost predicate Recordable(t: Tables, asset: Id, batch: seq<Outcome>) {
    (forall o :: o in batch ==> References(t, o)) && HistoryOf(Deduplicated(t.outcomes, batch), asset) != []
  }

  function WithOutcomes(t: Tables, asset: Id, batch: seq<Outcome>): Tables
    requires asset in t.assets && HistoryOf(Deduplicated(t.outcomes, batch), asset) != []
  {
    var outcomes := Deduplicated(t.outcomes, batch);
    var state := NextState(asset, HistoryOf(outcomes, asset)).value;
    t.(outcomes := outcomes, assets := t.assets[asset := t.assets[asset].(state := state)])
  }

  lemma {:induction false} DeduplicatedFacts(t: Tables, batch: seq<Outcome>)
    requires forall o :: o in batch ==> References(t, o)
    requires forall o :: o in t.outcomes ==> References(t, o)
    requires UniqueKeys(t.outcomes)
    ensures var all := Deduplicated(t.outcomes, batch);
            && t.outcomes <= all && UniqueKeys(all)
            && (forall o :: o in all ==> References(t, o) && (o in t.outcomes || o in batch))
            && (forall o :: o in batch ==> KeyIn(all, o))
    decreases |batch|
  {
    if batch != [] {
      var front, last := batch[..|batch| - 1], batch[|batch| - 1];
      DeduplicatedFacts(t, front);
      var before, all := Deduplicated(t.outcomes, front), Deduplicated(t.outcomes, batch);
      forall o | o in batch ensures KeyIn(all, o) {
        if o in front {
          assert KeyIn(before, o);
          var p :| p in before && SameKey(p, o);
          assert p in all;
        } else {
          assert o == last;
          if !KeyIn(before, last) { assert last in all && SameKey(last, last); }
        }
      }
    }
  }

  lemma HistoryOwner(t: Tables, asset: Id)
    requires HistoryOf(t.outcomes, asset) != [] && forall o :: o in t.outcomes ==> References(t, o)
    ensures asset in t.assets
  {
    assert HistoryOf(t.outcomes, asset)[0] in HistoryOf(t.outcomes, asset);
  }

  lemma ConsistentAfter(t: Tables, asset: Id, batch: seq<Outcome>)
    requires Consistent(t) && Recordable(t, asset, batch) && asset in t.assets
    ensures Consistent(WithOutcomes(t, asset, batch))
  {
    DeduplicatedFacts(t, batch);
    hide Deduplicated, HistoryOf, NextState;
  }

  class SolutionStore {
    var assets: map<Id, AssetRow>
    var outcomes: seq<Outcome>
    var runs: set<Id>

    constructor (known: set<Id>)
      ensures View() == Tables(map[], [], known)
    {
      assets, outcomes, runs := map[], [], known;
    }

    ghost function View(): Tables
      reads this
    {
      Tables(assets, outcomes, runs)
    }

    method FindReceipt(row: AssetRow) returns (id: Option<Id>)
      ensures id.Some? ==> id.value in assets && SameReceipt(assets[id.value], row)
      ensures id.None? ==> forall i :: i in assets ==> !SameReceipt(assets[i], row)
    {
      var rest := assets.Keys;
      while rest != {}
        invariant rest <= assets.Keys && forall i :: i in assets && i !in rest ==> !SameReceipt(assets[i], row)
        decreases |rest|
      {
        var i :| i in rest;
        if assets[i].kind == row.kind && assets[i].content == row.content {
          return Some(i);
        }
        rest := rest - {i};
      }
      id := None;
    }

    /** Registers a receipt without ever resetting the state of a known one. */
    method PersistAsset(asset: Asset) returns (r: Result<Id, StorageError>)
      requires Consistent(View())
      modifies `assets
      ensures Consistent(View())
      ensures (exists i :: i in old(assets) && SameReceipt(old(assets)[i], asset.row)) ==>
                && assets == old(assets)
                && (r.Success? ==> r.value in assets && SameReceipt(assets[r.value], asset.row) && assets[r.value].name == asset.row.name)
                && (r.Failure? ==> exists i :: i in assets && SameReceipt(assets[i], asset.row) && assets[i].name != asset.row.name)
      ensures !(exists i :: i in old(assets) && SameReceipt(old(assets)[i], asset.row)) ==>
                && (r == Success(asset.id) <==> asset.id !in old(assets))
                && assets == if asset.id in old(assets) then old(assets) else old(assets)[asset.id := asset.row]
    {
      var existing := FindReceipt(asset.row);
      if existing.Some? {
        if assets[existing.value].name != asset.row.name {
          return Failure(ImmutableConflict);
        }
        return Success(existing.value);
      }
      if asset.id in assets {
        return Failure(Constraint);
      }
      assets := assets[asset.id := asset.row];
      return Success(asset.id);
    }

    method HasKey(o: Outcome) returns (found: bool)
      ensures found <==> KeyIn(outcomes, o)
    {
      var i := 0;
      while i < |outcomes|
        invariant 0 <= i <= |outcomes| && forall j :: 0 <= j < i ==> !SameKey(outcomes[j], o)
      {
        if SameKey(outcomes[i], o) {
          return true;
        }
        i := i + 1;
      }
      found := false;
    }

    method SelectHistory(asset: Id) returns (history: seq<Outcome>)
      ensures history == HistoryOf(outcomes, asset)
    {
      history := [];
      var i := 0;
      while i < |outcomes|
        invariant 0 <= i <= |outcomes| && history == HistoryOf(outcomes[..i], asset)
      {
        assert outcomes[..i + 1][..i] == outcomes[..i];
        if outcomes[i].asset == asset {
          history := history + [outcomes[i]];
        }
        i := i + 1;
      }
      assert outcomes[..i] == outcomes;
    }

    /** The insert loop; a missing asset or evaluator run aborts the transaction. */
    method InsertAll(batch: seq<Outcome>) returns (ok: bool)
      requires Consistent(View())
      modifies `outcomes
      ensures ok <==> forall o :: o in batch ==> References(old(View()), o)
      ensures outcomes == if ok then Deduplicated(old(outcomes), batch) else old(outcomes)
    {
      var before := outcomes;
      ghost var t := View();
      var i := 0;
      while i < |batch|
        invariant 0 <= i <= |batch| && outcomes == Deduplicated(before, batch[..i])
        invariant forall o :: o in batch[..i] ==> References(t, o)
      {
        var o := batch[i];
        assert batch[..i + 1][..i] == batch[..i] && batch[..i + 1] == batch[..i] + [o];
        var known := HasKey(o);
        DeduplicatedFacts(t, batch[..i]);
        if !known {
          if o.asset !in assets || o.evaluatorRun !in runs {
            outcomes := before;
            assert o in batch && !References(t, o);
            return false;
          }
          outcomes := outcomes + [o];
        }
        i := i + 1;
      }
      assert batch[..i] == batch;
      ok := true;
    }

    /** Inserts the batch and recomputes the asset's state from its complete history; an error
        undoes everything. */
    method PersistOutcomes(asset: Id, batch: seq<Outcome>) returns (r: Result<Id, StorageError>)
      requires Consistent(View())
      modifies `assets, `outcomes
      ensures Consistent(View())
      ensures r.Success? <==> Recordable(old(View()), asset, batch)
      ensures r.Success? ==> r.value == asset && asset in old(assets) && View() == WithOutcomes(old(View()), asset, batch)
      ensures r.Failure? ==> View() == old(View())
    {
      var before := outcomes;
      ghost var t := View();
      var ok := InsertAll(batch);
      if !ok {
        return Failure(Constraint);
      }
      var history := SelectHistory(asset);
      if history == [] {
        outcomes := before;
        return Failure(NoHistory);
      }
      DeduplicatedFacts(t, batch);
      HistoryOwner(View(), asset);
      assets := assets[asset := assets[asset].(state := NextState(asset, history).value)];
      ConsistentAfter(t, asset, batch);
      return Success(asset);
    }
  }
}
