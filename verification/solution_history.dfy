/** Solution memory over whole histories of the store. */
module SolutionHistory {
  import opened Wrappers
  import opened SolutionMemory
  import opened SolutionStorage

  datatype Operation = Register(receipt: Asset) | Record(asset: Id, batch: seq<Outcome>)

  /** One successful operation; a failing one leaves the tables as they are. */
  ghost predicate Performs(t: Tables, op: Operation, t': Tables) {
    match op
    case Register(Asset(id, row)) =>
      && id !in t.assets && (forall i :: i in t.assets ==> !SameReceipt(t.assets[i], row))
      && t' == t.(assets := t.assets[id := row])
    case Record(asset, batch) => Recordable(t, asset, batch) && asset in t.assets && t' == WithOutcomes(t, asset, batch)
  }

  ghost predicate History(known: set<Id>, ts: seq<Tables>, ops: seq<Operation>) {
    && |ts| == |ops| + 1 && ts[0] == Tables(map[], [], known)
    && forall i :: 0 <= i < |ops| ==> Performs(ts[i], ops[i], ts[i + 1])
  }

  /** Every outcome handed in belongs to the asset it is recorded for. */
  ghost predicate OwnBatches(ops: seq<Operation>) {
    forall i :: 0 <= i < |ops| && ops[i].Record? ==> OwnedBy(ops[i].batch, ops[i].asset)
  }

  ghost predicate Current(t: Tables) {
    && Consistent(t)
    && forall a :: a in t.assets && HistoryOf(t.outcomes, a) != [] ==> Derived(t, a) == Success(t.assets[a].state)
  }

  lemma HistoryGrows(outcomes: seq<Outcome>, o: Outcome, asset: Id)
    ensures HistoryOf(outcomes + [o], asset) == HistoryOf(outcomes, asset) + if o.asset == asset then [o] else []
  {
    assert (outcomes + [o])[..|outcomes + [o]| - 1] == outcomes;
  }

  /** Appending keeps every history as a prefix, and outcomes of one asset leave the others alone. */
  lemma {:induction false} HistoryAfter(stored: seq<Outcome>, batch: seq<Outcome>, asset: Id)
    ensures HistoryOf(stored, asset) <= HistoryOf(Deduplicated(stored, batch), asset)
    ensures (forall o :: o in batch ==> o.asset != asset) ==> HistoryOf(Deduplicated(stored, batch), asset) == HistoryOf(stored, asset)
    decreases |batch|
  {
    if batch != [] {
      var front, last := batch[..|batch| - 1], batch[|batch| - 1];
      HistoryAfter(stored, front, asset);
      HistoryGrows(Deduplicated(stored, front), last, asset);
    }
  }

  lemma {:induction false} NoOutcomes(outcomes: seq<Outcome>, asset: Id)
    requires forall o :: o in outcomes ==> o.asset != asset
    ensures HistoryOf(outcomes, asset) == []
    decreases |outcomes|
  {
    if outcomes != [] { NoOutcomes(outcomes[..|outcomes| - 1], asset); }
  }

  predicate Names(batch: seq<Outcome>, a: Id) {
    exists o :: o in batch && o.asset == a
  }

  lemma NamedHasHistory(t: Tables, batch: seq<Outcome>, a: Id)
    requires Consistent(t) && (forall o :: o in batch ==> References(t, o)) && Names(batch, a)
    ensures HistoryOf(Deduplicated(t.outcomes, batch), a) != []
  {
    DeduplicatedFacts(t, batch);
    var o :| o in batch && o.asset == a;
    assert KeyIn(Deduplicated(t.outcomes, batch), o);
    hide Deduplicated;
    var p :| p in Deduplicated(t.outcomes, batch) && SameKey(p, o);
    assert p in HistoryOf(Deduplicated(t.outcomes, batch), a);
  }

  lemma Recomputed(t: Tables, asset: Id, batch: seq<Outcome>)
    requires Recordable(t, asset, batch) && asset in t.assets
    ensures var t' := WithOutcomes(t, asset, batch); Derived(t', asset) == Success(t'.assets[asset].state)
  {
    hide Deduplicated, HistoryOf;
  }

  lemma NotRecomputed(t: Tables, asset: Id, batch: seq<Outcome>, a: Id)
    requires Consistent(t) && Recordable(t, asset, batch) && asset in t.assets && a in t.assets && a != asset
    ensures var t' := WithOutcomes(t, asset, batch);
            && a in t'.assets && t'.assets[a] == t.assets[a]
            && (Names(batch, a) ==> HistoryOf(t'.outcomes, a) != [])
            && (!Names(batch, a) ==> HistoryOf(t'.outcomes, a) == HistoryOf(t.outcomes, a))
  {
    HistoryAfter(t.outcomes, batch, a);
    if Names(batch, a) { NamedHasHistory(t, batch, a); }
    hide Consistent, Deduplicated, HistoryOf, NextState;
  }

  /** Recording recomputes the state of one asset only: the store stays current exactly when every
      other asset the batch names still derives the state it has stored. */
  lemma StaysCurrentExactly(t: Tables, asset: Id, batch: seq<Outcome>, t': Tables)
    requires Current(t) && Performs(t, Record(asset, batch), t')
    ensures Current(t') <==>
              forall a :: a in t.assets && a != asset && Names(batch, a) ==> Derived(t', a) == Success(t.assets[a].state)
  {
    ConsistentAfter(t, asset, batch);
    Recomputed(t, asset, batch);
    forall a | a in t.assets && a != asset
      ensures t'.assets[a] == t.assets[a]
      ensures Names(batch, a) ==> HistoryOf(t'.outcomes, a) != []
      ensures !Names(batch, a) ==> HistoryOf(t'.outcomes, a) == HistoryOf(t.outcomes, a)
    {
      NotRecomputed(t, asset, batch, a);
    }
    assert t'.assets.Keys == t.assets.Keys;
    hide Consistent, WithOutcomes, Recordable, Deduplicated, HistoryOf, NextState, Names;
  }

  lemma CurrentRecord(t: Tables, asset: Id, batch: seq<Outcome>, t': Tables)
    requires Current(t) && Performs(t, Record(asset, batch), t') && OwnedBy(batch, asset)
    ensures Current(t')
  {
    StaysCurrentExactly(t, asset, batch, t');
  }

  lemma CurrentRegister(t: Tables, asset: Asset, t': Tables)
    requires Current(t) && Performs(t, Register(asset), t')
    ensures Current(t')
  {
    NoOutcomes(t.outcomes, asset.id);
    assert Consistent(t');
  }

  /** When every outcome belongs to its asset, the stored state of an asset with outcomes is, in
      every reachable store, the state next_asset_state derives from its deduplicated history. */
  lemma {:induction false} StateIsDerived(known: set<Id>, ts: seq<Tables>, ops: seq<Operation>, i: nat)
    requires History(known, ts, ops) && OwnBatches(ops) && i < |ts|
    ensures Current(ts[i])
    decreases i
  {
    if i > 0 {
      StateIsDerived(known, ts, ops, i - 1);
      assert Performs(ts[i - 1], ops[i - 1], ts[i - 1 + 1]);
      match ops[i - 1]
      case Register(asset) => CurrentRegister(ts[i - 1], asset, ts[i]);
      case Record(asset, batch) => CurrentRecord(ts[i - 1], asset, batch, ts[i]);
    }
  }

  /** ... and any other order of that history would give the same state. */
  lemma StateIgnoresOrder(known: set<Id>, ts: seq<Tables>, ops: seq<Operation>, i: nat, asset: Id, shuffled: seq<Outcome>)
    requires History(known, ts, ops) && OwnBatches(ops) && i < |ts| && asset in ts[i].assets
    requires multiset(shuffled) == multiset(HistoryOf(ts[i].outcomes, asset)) && shuffled != []
    ensures NextState(asset, shuffled) == Success(ts[i].assets[asset].state)
  {
    StateIsDerived(known, ts, ops, i);
    var own := HistoryOf(ts[i].outcomes, asset);
    assert own != [] by { assert |multiset(own)| == |multiset(shuffled)| == |shuffled|; }
    OrderIndependent(asset, own, shuffled);
  }

  /** In every reachable store no two assets share a kind and a content, and no two outcomes an
      asset, a synthetic run and an evaluator run. */
  lemma NothingTwice(known: set<Id>, ts: seq<Tables>, ops: seq<Operation>, i: nat)
    requires History(known, ts, ops) && OwnBatches(ops) && i < |ts|
    ensures forall a, b :: a in ts[i].assets && b in ts[i].assets && a != b ==>
              ts[i].assets[a].kind != ts[i].assets[b].kind || ts[i].assets[a].content != ts[i].assets[b].content
    ensures forall m, n :: 0 <= m < n < |ts[i].outcomes| ==>
              var o, p := ts[i].outcomes[m], ts[i].outcomes[n];
              o.asset != p.asset || o.synthetic != p.synthetic || o.evaluatorRun != p.evaluatorRun
  {
    StateIsDerived(known, ts, ops, i);
    hide Current, HistoryOf, History, OwnBatches;
    assert Consistent(ts[i]) by { CurrentIsConsistent(ts[i]); }
    var t := ts[i];
    forall a, b | a in t.assets && b in t.assets && a != b
      ensures t.assets[a].kind != t.assets[b].kind || t.assets[a].content != t.assets[b].content
    {
      assert !SameReceipt(t.assets[a], t.assets[b]);
    }
    forall m, n | 0 <= m < n < |t.outcomes|
      ensures var o, p := t.outcomes[m], t.outcomes[n];
              o.asset != p.asset || o.synthetic != p.synthetic || o.evaluatorRun != p.evaluatorRun
    {
      assert !SameKey(t.outcomes[m], t.outcomes[n]);
    }
  }

  lemma CurrentIsConsistent(t: Tables)
    requires Current(t)
    ensures Consistent(t)
  {
  }

  /** Every outcome ever handed in is there, under its own asset, synthetic run and evaluator run. */
  lemma BatchIsThere(known: set<Id>, ts: seq<Tables>, ops: seq<Operation>, i: nat, j: nat, o: Outcome)
    requires History(known, ts, ops) && OwnBatches(ops) && i < j < |ts| && ops[i].Record? && o in ops[i].batch
    ensures exists p :: p in ts[j].outcomes && p.asset == o.asset && p.synthetic == o.synthetic && p.evaluatorRun == o.evaluatorRun
  {
    RecordedStays(known, ts, ops, i, j);
    assert KeyIn(ts[j].outcomes, o);
    var p :| p in ts[j].outcomes && SameKey(p, o);
  }

  // ------------------------------------------------------------------ submitting again

  lemma {:induction false} NothingNew(stored: seq<Outcome>, batch: seq<Outcome>)
    requires forall o :: o in batch ==> KeyIn(stored, o)
    ensures Deduplicated(stored, batch) == stored
    decreases |batch|
  {
    if batch != [] {
      var front, last := batch[..|batch| - 1], batch[|batch| - 1];
      assert last in batch;
      NothingNew(stored, front);
    }
  }

  lemma OutcomesStay(t: Tables, op: Operation, t': Tables)
    requires Consistent(t) && Performs(t, op, t')
    ensures t.outcomes <= t'.outcomes && t.assets.Keys <= t'.assets.Keys
  {
    if op.Record? { DeduplicatedFacts(t, op.batch); }
  }

  lemma {:induction false} OutcomesStayForever(known: set<Id>, ts: seq<Tables>, ops: seq<Operation>, i: nat, j: nat)
    requires History(known, ts, ops) && OwnBatches(ops) && i <= j < |ts|
    ensures ts[i].outcomes <= ts[j].outcomes && ts[i].assets.Keys <= ts[j].assets.Keys
    decreases j
  {
    hide Performs, Consistent, OwnBatches, HistoryOf, Derived;
    if i < j {
      OutcomesStayForever(known, ts, ops, i, j - 1);
      StateIsDerived(known, ts, ops, j - 1);
      assert Performs(ts[j - 1], ops[j - 1], ts[j - 1 + 1]);
      OutcomesStay(ts[j - 1], ops[j - 1], ts[j]);
    }
  }

  /** A batch recorded once can be submitted again at any later time without any effect. */
  lemma ResubmissionChangesNothing(known: set<Id>, ts: seq<Tables>, ops: seq<Operation>, i: nat, j: nat)
    requires History(known, ts, ops) && OwnBatches(ops) && i < j < |ts| && ops[i].Record?
    ensures Recordable(ts[j], ops[i].asset, ops[i].batch) && ops[i].asset in ts[j].assets
    ensures WithOutcomes(ts[j], ops[i].asset, ops[i].batch) == ts[j]
  {
    var asset, batch := ops[i].asset, ops[i].batch;
    StateIsDerived(known, ts, ops, j);
    RecordedStays(known, ts, ops, i, j);
    hide Current, Consistent, History, OwnBatches, Deduplicated, HistoryOf;
    NothingNew(ts[j].outcomes, batch);
    SameAgain(ts[j], asset, batch);
  }

  lemma SameAgain(t: Tables, asset: Id, batch: seq<Outcome>)
    requires asset in t.assets && HistoryOf(t.outcomes, asset) != [] && Derived(t, asset) == Success(t.assets[asset].state)
    requires Deduplicated(t.outcomes, batch) == t.outcomes
    ensures WithOutcomes(t, asset, batch) == t
  {
    assert t.assets[asset := t.assets[asset].(state := t.assets[asset].state)] == t.assets;
  }

  /** What one recorded batch leaves behind for ever. */
  lemma RecordedStays(known: set<Id>, ts: seq<Tables>, ops: seq<Operation>, i: nat, j: nat)
    requires History(known, ts, ops) && OwnBatches(ops) && i < j < |ts| && ops[i].Record?
    ensures forall o :: o in ops[i].batch ==> KeyIn(ts[j].outcomes, o) && References(ts[j], o)
    ensures ops[i].asset in ts[j].assets && HistoryOf(ts[j].outcomes, ops[i].asset) != []
    ensures Derived(ts[j], ops[i].asset) == Success(ts[j].assets[ops[i].asset].state)
  {
    StateIsDerived(known, ts, ops, i);
    StateIsDerived(known, ts, ops, j);
    assert Performs(ts[i], ops[i], ts[i + 1]);
    OutcomesStayForever(known, ts, ops, i + 1, j);
    hide History, OwnBatches, Consistent, Performs;
    BatchStays(ts[i], ops[i].asset, ops[i].batch, ts[i + 1], ts[j]);
  }

  lemma BatchStays(before: Tables, asset: Id, batch: seq<Outcome>, after: Tables, t: Tables)
    requires Consistent(before) && Performs(before, Record(asset, batch), after)
    requires after.outcomes <= t.outcomes && after.assets.Keys <= t.assets.Keys && Current(t)
    ensures forall o :: o in batch ==> KeyIn(t.outcomes, o) && References(t, o)
    ensures asset in t.assets && HistoryOf(t.outcomes, asset) != []
    ensures Derived(t, asset) == Success(t.assets[asset].state)
  {
    DeduplicatedFacts(before, batch);
    hide Deduplicated, HistoryOf, UniqueKeys;
    forall o | o in batch ensures KeyIn(t.outcomes, o) && References(t, o) {
      assert KeyIn(after.outcomes, o);
      var p :| p in after.outcomes && SameKey(p, o);
      assert p in t.outcomes;
      assert References(t, p);
    }
    PrefixHistory(after.outcomes, t.outcomes, asset);
  }

  lemma {:induction false} PrefixHistory(a: seq<Outcome>, b: seq<Outcome>, asset: Id)
    requires a <= b
    ensures HistoryOf(a, asset) <= HistoryOf(b, asset)
    decreases |b|
  {
    if |a| < |b| {
      PrefixHistory(a, b[..|b| - 1], asset);
      HistoryGrows(b[..|b| - 1], b[|b| - 1], asset);
      assert b == b[..|b| - 1] + [b[|b| - 1]];
    } else {
      assert a == b;
    }
  }

  // ------------------------------------------------------------------ retirement

  /** Once its own history has retired an asset, it stays retired. */
  lemma RetiredForever(known: set<Id>, ts: seq<Tables>, ops: seq<Operation>, i: nat, j: nat, asset: Id)
    requires History(known, ts, ops) && OwnBatches(ops) && i <= j < |ts|
    requires asset in ts[i].assets && ts[i].assets[asset].state == Retired && HistoryOf(ts[i].outcomes, asset) != []
    ensures asset in ts[j].assets && ts[j].assets[asset].state == Retired
  {
    StateIsDerived(known, ts, ops, i);
    StateIsDerived(known, ts, ops, j);
    OutcomesStayForever(known, ts, ops, i, j);
    PrefixHistory(ts[i].outcomes, ts[j].outcomes, asset);
    hide History, OwnBatches, Consistent, HistoryOf, NextState;
    MoreRegressions(asset, HistoryOf(ts[i].outcomes, asset), HistoryOf(ts[j].outcomes, asset));
  }

  lemma MoreRegressions(asset: Id, own: seq<Outcome>, later: seq<Outcome>)
    requires own <= later && NextState(asset, own) == Success(Retired) && OwnedBy(later, asset)
    ensures NextState(asset, later) == Success(Retired)
  {
    assert later == own + later[|own|..];
    CountAppend(own, later[|own|..], Regressed);
  }

  const GOOD: Outcome := Outcome(1, 0, 0, Worked, 1.0, 1.0)

  lemma GoodBringsBack(t: Tables) returns (t': Tables)
    requires t == Tables(map[1 := AssetRow(0, "asset", 0, Retired)], [], {0})
    ensures Performs(t, Record(1, [GOOD]), t') && t'.assets[1].state == Candidate
  {
    AddOne([], GOOD, 1);
    GoodAlone();
    assert HistoryOf([], 1) == [];
    assert [] + [GOOD] == [GOOD];
    hide Deduplicated, HistoryOf, NextState;
    t' := WithOutcomes(t, 1, [GOOD]);
  }

  /** The failing side of RetiredForever: an asset that was merely registered as retired is brought
      back by its first outcome. */
  lemma RegisteredRetiredComesBack() returns (ts: seq<Tables>, ops: seq<Operation>)
    ensures History({0}, ts, ops) && OwnBatches(ops) && |ops| == 2 && 1 in ts[1].assets && 1 in ts[2].assets
    ensures ts[1].assets[1].state == Retired && ts[2].assets[1].state == Candidate
  {
    var empty := Tables(map[], [], {0});
    var one := empty.(assets := map[1 := AssetRow(0, "asset", 0, Retired)]);
    var back := GoodBringsBack(one);
    hide Recordable, WithOutcomes, Deduplicated, HistoryOf, NextState;
    ts, ops := [empty, one, back], [Register(Asset(1, AssetRow(0, "asset", 0, Retired))), Record(1, [GOOD])];
    assert Performs(empty, ops[0], one);
  }

  /** Recording one more outcome whose key is new. */
  lemma AddOne(stored: seq<Outcome>, o: Outcome, asset: Id)
    requires !KeyIn(stored, o)
    ensures Deduplicated(stored, [o]) == stored + [o]
    ensures HistoryOf(stored + [o], asset) == HistoryOf(stored, asset) + if o.asset == asset then [o] else []
  {
    assert [o][..0] == [] && Deduplicated(stored, []) == stored;
    HistoryGrows(stored, o, asset);
  }

  lemma GoodAlone()
    ensures NextState(1, [GOOD]) == Success(Candidate)
  {
    assert [GOOD][1..] == [];
    assert CountOf([], Regressed) == 0 && CountOf([], Worked) == 0;
    assert CountOf([GOOD], Regressed) == 0 && CountOf([GOOD], Worked) == 1;
    assert forall o :: o in [GOOD] ==> o == GOOD;
  }

  /** Recording keeps or makes an asset retired exactly when its complete history has two
      regressions, whatever state was stored before. */
  lemma RetiredExactly(t: Tables, asset: Id, batch: seq<Outcome>)
    requires Recordable(t, asset, batch) && asset in t.assets
    ensures WithOutcomes(t, asset, batch).assets[asset].state == Retired <==>
              CountOf(HistoryOf(Deduplicated(t.outcomes, batch), asset), Regressed) >= 2
  {
  }

  const BAD: Outcome := Outcome(2, 0, 0, Regressed, 0.0, 0.0)
  const WORSE: Outcome := Outcome(2, 1, 0, Regressed, 0.0, 0.0)

  lemma TwoRegressions()
    ensures NextState(2, [BAD, WORSE]) == Success(Retired)
  {
    assert [BAD, WORSE][1..] == [WORSE] && [WORSE][1..] == [];
    assert CountOf([WORSE], Regressed) == 1;
  }

  lemma AllThree()
    ensures var batch := [GOOD, BAD, WORSE];
            && Deduplicated([], batch) == batch && HistoryOf(batch, 1) == [GOOD] && HistoryOf(batch, 2) == [BAD, WORSE]
  {
    var two, three := [GOOD, BAD], [GOOD, BAD, WORSE];
    assert Deduplicated([], []) == [];
    AddLast([], [], GOOD);
    AddLast([], [GOOD], BAD);
    AddLast([], two, WORSE);
    assert [] + [GOOD] == [GOOD] && [GOOD] + [BAD] == two && two + [WORSE] == three;
    hide Deduplicated;
    Histories();
  }

  lemma Histories()
    ensures HistoryOf([GOOD, BAD, WORSE], 1) == [GOOD] && HistoryOf([GOOD, BAD, WORSE], 2) == [BAD, WORSE]
  {
    NoOutcomes([], 1);
    NoOutcomes([], 2);
    HistoryGrows([], GOOD, 1);
    HistoryGrows([], GOOD, 2);
    HistoryGrows([GOOD], BAD, 1);
    HistoryGrows([GOOD], BAD, 2);
    HistoryGrows([GOOD, BAD], WORSE, 1);
    HistoryGrows([GOOD, BAD], WORSE, 2);
    hide HistoryOf;
    assert [] + [GOOD] == [GOOD] && [GOOD] + [BAD] == [GOOD, BAD] && [GOOD, BAD] + [WORSE] == [GOOD, BAD, WORSE];
  }

  lemma AddLast(stored: seq<Outcome>, front: seq<Outcome>, last: Outcome)
    requires !KeyIn(Deduplicated(stored, front), last)
    ensures Deduplicated(stored, front + [last]) == Deduplicated(stored, front) + [last]
  {
    assert (front + [last])[..|front + [last]| - 1] == front;
  }

  lemma TwoForeignRegressions() returns (t: Tables, t': Tables)
    ensures t == Tables(map[1 := AssetRow(0, "one", 1, Candidate), 2 := AssetRow(0, "two", 2, Candidate)], [], {0})
    ensures Current(t) && Performs(t, Record(1, [GOOD, BAD, WORSE]), t')
    ensures 2 in t'.assets && t'.assets[2].state == Candidate && Derived(t', 2) == Success(Retired) && !Current(t')
  {
    hide Deduplicated, HistoryOf, NextState;
    AllThree();
    TwoRegressions();
    t := Tables(map[1 := AssetRow(0, "one", 1, Candidate), 2 := AssetRow(0, "two", 2, Candidate)], [], {0});
    t' := WithOutcomes(t, 1, [GOOD, BAD, WORSE]);
    assert HistoryOf(t.outcomes, 1) == [] && HistoryOf(t.outcomes, 2) == [] by { NoOutcomes([], 1); NoOutcomes([], 2); }
  }

  /** The failing side of StaysCurrentExactly, in a history from the empty store: two foreign
      regressions are stored and leave a candidate that its own history would retire. */
  lemma ForeignOutcomesGoStale() returns (ts: seq<Tables>, ops: seq<Operation>)
    ensures History({0}, ts, ops) && |ops| == 3 && ops[2] == Record(1, [GOOD, BAD, WORSE]) && Current(ts[2])
    ensures 2 in ts[3].assets && ts[3].assets[2].state == Candidate && Derived(ts[3], 2) == Success(Retired) && !Current(ts[3])
  {
    var t, t' := TwoForeignRegressions();
    hide Current, Recordable, WithOutcomes, Derived;
    var empty := Tables(map[], [], {0});
    var one := empty.(assets := map[1 := AssetRow(0, "one", 1, Candidate)]);
    ts := [empty, one, t, t'];
    ops := [Register(Asset(1, AssetRow(0, "one", 1, Candidate))), Register(Asset(2, AssetRow(0, "two", 2, Candidate))),
            Record(1, [GOOD, BAD, WORSE])];
    assert Performs(empty, ops[0], one);
    assert Performs(one, ops[1], t);
  }

  // ------------------------------------------------------------------ submission order

  /** Outcomes that agree on the key are the same outcome. */
  ghost predicate Unambiguous(outcomes: seq<Outcome>) {
    forall a, b :: a in outcomes && b in outcomes && SameKey(a, b) ==> a == b
  }

  lemma {:induction false} DeduplicatedElements(stored: seq<Outcome>, batch: seq<Outcome>)
    requires Unambiguous(stored + batch) && UniqueKeys(stored)
    ensures var all := Deduplicated(stored, batch);
            UniqueKeys(all) && forall o :: o in all <==> o in stored || o in batch
    decreases |batch|
  {
    if batch != [] {
      var front, last := batch[..|batch| - 1], batch[|batch| - 1];
      assert batch == front + [last];
      assert Unambiguous(stored + front) by {
        assert forall o :: o in stored + front ==> o in stored + batch;
      }
      DeduplicatedElements(stored, front);
      var before := Deduplicated(stored, front);
      if KeyIn(before, last) {
        var p :| p in before && SameKey(p, last);
        assert p in stored + batch && last in stored + batch;
      }
    }
  }

  lemma {:induction false} SameElementsSameMultiset(a: seq<Outcome>, b: seq<Outcome>)
    requires UniqueKeys(a) && UniqueKeys(b) && forall o :: o in a <==> o in b
    ensures multiset(a) == multiset(b)
  {
    forall o ensures multiset(a)[o] == multiset(b)[o] {
      OnceOrNever(a, o);
      OnceOrNever(b, o);
    }
  }

  lemma {:induction false} OnceOrNever(a: seq<Outcome>, o: Outcome)
    requires UniqueKeys(a)
    ensures multiset(a)[o] == if o in a then 1 else 0
    decreases |a|
  {
    if a != [] {
      var front, last := a[..|a| - 1], a[|a| - 1];
      OnceOrNever(front, o);
      assert a == front + [last];
      forall i | 0 <= i < |front| ensures front[i] != last {
        assert !SameKey(a[i], a[|a| - 1]);
      }
    }
  }

  lemma {:induction false} HistoryMultiset(outcomes: seq<Outcome>, asset: Id, o: Outcome)
    ensures multiset(HistoryOf(outcomes, asset))[o] == if o.asset == asset then multiset(outcomes)[o] else 0
    decreases |outcomes|
  {
    if outcomes != [] {
      var front, last := outcomes[..|outcomes| - 1], outcomes[|outcomes| - 1];
      HistoryMultiset(front, asset, o);
      assert outcomes == front + [last];
    }
  }

  /** Submitting the same outcomes in another order, with or without repetitions, leads to the same
      state, provided outcomes with equal keys are equal. */
  lemma SubmissionOrderIrrelevant(t: Tables, asset: Id, a: seq<Outcome>, b: seq<Outcome>)
    requires Consistent(t) && Unambiguous(t.outcomes + a) && forall o :: o in a <==> o in b
    requires Recordable(t, asset, a) && Recordable(t, asset, b) && asset in t.assets
    ensures WithOutcomes(t, asset, a).assets == WithOutcomes(t, asset, b).assets
    ensures multiset(WithOutcomes(t, asset, a).outcomes) == multiset(WithOutcomes(t, asset, b).outcomes)
  {
    assert Unambiguous(t.outcomes + b) by { assert forall o :: o in t.outcomes + b ==> o in t.outcomes + a; }
    DeduplicatedElements(t.outcomes, a);
    DeduplicatedElements(t.outcomes, b);
    var all, other := Deduplicated(t.outcomes, a), Deduplicated(t.outcomes, b);
    SameElementsSameMultiset(all, other);
    forall o ensures multiset(HistoryOf(all, asset))[o] == multiset(HistoryOf(other, asset))[o] {
      HistoryMultiset(all, asset, o);
      HistoryMultiset(other, asset, o);
    }
    OrderIndependent(asset, HistoryOf(all, asset), HistoryOf(other, asset));
  }
}
