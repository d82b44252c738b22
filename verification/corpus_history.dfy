/** The coverage gate over whole histories of the stored corpus. */
module CorpusHistory {
  import opened Wrappers
  import opened ResearchCorpus
  import opened CorpusStorage

  datatype Operation =
    | Observe(run: RunId, items: seq<Item>)
    | Receive(document: DocumentId, receipt: Document)
    | Review(claim: ClaimId, submission: Submission)

  /** One successful operation; a failing one leaves the tables as they are. */
  ghost predicate Performs(t: Tables, op: Operation, t': Tables) {
    match op
    case Observe(run, items) => t' == UpsertAll(t, run, items)
    case Receive(id, receipt) =>
      && receipt.source in t.sources && id !in t.documents
      && (forall d :: d in t.documents ==> !HasReceipt(t, d, receipt.source, receipt.sha))
      && t' == t.(documents := t.documents[id := receipt])
    case Review(id, s) =>
      && s.Valid() && PageBacked(t, s)
      && (HasClaim(t, id, s) || (id !in t.claims && forall c :: c in t.claims ==> !HasClaim(t, c, s)))
      && t' == WithClaim(t, id, s)
  }

  ghost predicate History(ts: seq<Tables>, ops: seq<Operation>) {
    && |ts| == |ops| + 1 && ts[0] == EMPTY
    && forall i :: 0 <= i < |ops| ==> Performs(ts[i], ops[i], ts[i + 1])
  }

  // ------------------------------------------------------------------ what every operation keeps

  ghost predicate Linked(t: Tables) {
    && (forall k :: k in t.scores ==> t.scores[k].reproducibility == 0.0 && k in t.sources)
    && (forall o :: o in t.observations ==> o.key in t.sources && o.key in t.scores)
    && (forall d :: d in t.documents ==> t.documents[d].source in t.sources)
  }

  /** A human-assessed claim about k was committed, with its pages inside a receipt of k. */
  ghost predicate HumanEvidence(t: Tables, k: Key) {
    exists h :: h in t.human && h.source == k
  }

  ghost predicate ClaimInside(t: Tables, h: Submission) {
    && 1 <= h.pageStart <= h.pageEnd <= 100 && h.assessor == Human
    && h.document in t.documents && t.documents[h.document].source == h.source && h.pageEnd <= t.documents[h.document].pages
  }

  ghost predicate Evidenced(t: Tables) {
    && (forall k :: k in t.sources && t.sources[k] == ContentVerified ==> HumanEvidence(t, k))
    && (forall h :: h in t.human ==> ClaimInside(t, h))
  }

  ghost predicate Sound(t: Tables) {
    Linked(t) && Evidenced(t)
  }

  lemma SoundUpsert(t: Tables, run: RunId, item: Item)
    requires Sound(t)
    ensures Sound(Upsert(t, run, item))
  {
    var t' := Upsert(t, run, item);
    forall k | k in t'.sources && t'.sources[k] == ContentVerified ensures HumanEvidence(t', k) {
      assert HumanEvidence(t, k);
    }
    forall h | h in t'.human ensures ClaimInside(t', h) {
      assert ClaimInside(t, h);
    }
  }

  lemma {:induction false} SoundUpsertAll(t: Tables, run: RunId, items: seq<Item>)
    requires Sound(t)
    ensures Sound(UpsertAll(t, run, items))
    decreases |items|
  {
    if items != [] {
      SoundUpsertAll(t, run, items[..|items| - 1]);
      SoundUpsert(UpsertAll(t, run, items[..|items| - 1]), run, items[|items| - 1]);
    }
  }

  lemma SoundReceive(t: Tables, id: DocumentId, receipt: Document, t': Tables)
    requires Sound(t) && Performs(t, Receive(id, receipt), t')
    ensures Sound(t')
  {
    forall k | k in t'.sources && t'.sources[k] == ContentVerified ensures HumanEvidence(t', k) {
      assert HumanEvidence(t, k);
    }
    forall h | h in t'.human ensures ClaimInside(t', h) {
      assert ClaimInside(t, h);
    }
  }

  lemma SoundReview(t: Tables, id: ClaimId, s: Submission, t': Tables)
    requires Sound(t) && Performs(t, Review(id, s), t')
    ensures Sound(t')
  {
    forall k | k in t'.sources && t'.sources[k] == ContentVerified ensures HumanEvidence(t', k) {
      if s.assessor == Human && k == s.source {
        assert s in t'.human;
      } else {
        assert HumanEvidence(t, k);
        var h :| h in t.human && h.source == k;
        assert h in t'.human;
      }
    }
    forall h | h in t'.human ensures ClaimInside(t', h) {
      if h in t.human { assert ClaimInside(t, h); }
    }
  }

  lemma {:induction false} AlwaysSound(ts: seq<Tables>, ops: seq<Operation>, i: nat)
    requires History(ts, ops) && i < |ts|
    ensures Sound(ts[i])
    decreases i
  {
    hide Sound;
    if i == 0 {
      assert Sound(EMPTY) by { EmptyIsSound(); }
    } else {
      AlwaysSound(ts, ops, i - 1);
      assert Performs(ts[i - 1], ops[i - 1], ts[i - 1 + 1]);
      match ops[i - 1]
      case Observe(run, items) => SoundUpsertAll(ts[i - 1], run, items);
      case Receive(id, receipt) => SoundReceive(ts[i - 1], id, receipt, ts[i]);
      case Review(id, s) => SoundReview(ts[i - 1], id, s, ts[i]);
    }
  }

  lemma EmptyIsSound()
    ensures Sound(EMPTY)
  {
  }

  // ------------------------------------------------------------------ what the gate sees

  lemma {:induction false} LoadedRows(t: Tables, observations: seq<Observation>)
    requires Linked(t)
    ensures forall a :: a in Load(t, observations) ==>
              a.key in t.sources && a.verification == t.sources[a.key] && a.reproducibility == 0.0
    decreases |observations|
  {
    if observations != [] { LoadedRows(t, observations[..|observations| - 1]); }
  }

  lemma {:induction false} NothingToSum(order: seq<Key>, best: map<Key, Assessment>)
    requires forall k :: k in order ==> k in best && best[k].reproducibility == 0.0
    ensures ReproducibilitySum(order, best) == 0.0
    decreases |order|
  {
    if order != [] { NothingToSum(order[..|order| - 1], best); }
  }

  lemma ZeroMean(stream: seq<Assessment>)
    requires forall a :: a in stream ==> a.reproducibility == 0.0
    ensures ReproducibilityMean(stream) == 0.0
  {
    KeptIsMaximal(stream);
    hide KeepAll, CountIf;
    var kept := KeepAll(stream);
    forall k | k in kept.order ensures kept.best[k].reproducibility == 0.0 {
      assert kept.best[k] in stream;
    }
    NothingToSum(kept.order, kept.best);
  }

  // ------------------------------------------------------------------ main results

  /** Whatever the policy: when the gate is open, at least as many distinct sources as the policy
      demands each had a human-assessed claim committed for pages inside a receipt of its own. */
  lemma ReadyNeedsHumanEvidence(ts: seq<Tables>, ops: seq<Operation>, i: nat, policy: Policy) returns (keys: set<Key>)
    requires History(ts, ops) && i < |ts| && MeetsPolicy(Corpus(ts[i]), policy)
    ensures |keys| >= policy.verified
    ensures forall k :: k in keys ==> HumanEvidence(ts[i], k)
    ensures forall h :: h in ts[i].human ==> ClaimInside(ts[i], h)
  {
    AlwaysSound(ts, ops, i);
    LoadedRows(ts[i], ts[i].observations);
    keys := VerifiedKeys(Corpus(ts[i]));
  }

  /** Exactly when a reachable corpus is ready: the counts suffice and the policy asks for no
      reproducibility at all, because classification never records any. */
  lemma ReadyExactly(ts: seq<Tables>, ops: seq<Operation>, i: nat, policy: Policy)
    requires History(ts, ops) && i < |ts|
    ensures var corpus := Corpus(ts[i]);
            MeetsPolicy(corpus, policy) <==>
              && policy.reproducibility <= 0.0
              && |Keys(corpus)| >= policy.uniqueSources && |Providers(corpus)| >= policy.providers
              && |VerifiedKeys(corpus)| >= policy.verified
              && forall layer :: KeptCount(corpus, IsInLayer(layer)) >= policy.perLayer
  {
    AlwaysSound(ts, ops, i);
    LoadedRows(ts[i], ts[i].observations);
    ZeroMean(Corpus(ts[i]));
  }

  /** Under the default policy the gate never opens. */
  lemma DefaultPolicyIsNeverMet(ts: seq<Tables>, ops: seq<Operation>, i: nat)
    requires History(ts, ops) && i < |ts|
    ensures !MeetsPolicy(Corpus(ts[i]), DEFAULT_POLICY)
  {
    ReadyExactly(ts, ops, i, DEFAULT_POLICY);
  }

  lemma StatusStep(t: Tables, op: Operation, t': Tables, k: Key)
    requires Performs(t, op, t') && k in t.sources
    ensures k in t'.sources && Rank(t'.sources[k]) >= Rank(t.sources[k])
  {
    if op.Observe? { StatusKept(t, op.run, op.items, k); }
  }

  lemma {:induction false} StatusKept(t: Tables, run: RunId, items: seq<Item>, k: Key)
    requires k in t.sources
    ensures k in UpsertAll(t, run, items).sources && UpsertAll(t, run, items).sources[k] == t.sources[k]
    decreases |items|
  {
    if items != [] { StatusKept(t, run, items[..|items| - 1], k); }
  }

  /** The verification status of a source never regresses. */
  lemma {:induction false} StatusNeverRegresses(ts: seq<Tables>, ops: seq<Operation>, i: nat, j: nat, k: Key)
    requires History(ts, ops) && i <= j < |ts| && k in ts[i].sources
    ensures k in ts[j].sources && Rank(ts[j].sources[k]) >= Rank(ts[i].sources[k])
    decreases j
  {
    if i < j {
      StatusNeverRegresses(ts, ops, i, j - 1, k);
      StatusStep(ts[j - 1], ops[j - 1], ts[j - 1 + 1], k);
    }
  }

  // ------------------------------------------------------------------ what the gate does not promise

  const ITEM: Item := Item(7, Arxiv, "a", Primary, {"system", "memory", "tools", "audit"})
  const RECEIPT: Document := Document(7, 0, 10)
  const BY_HUMAN: Submission := Submission(7, 1, 0, 1, 2, Human)
  const BY_MODEL: Submission := Submission(7, 1, 0, 3, 4, ApprovedModel)

  /** A source observed in every layer, its receipt, and a human claim about two of its pages. */
  lemma OneVerifiedSource() returns (ts: seq<Tables>, ops: seq<Operation>)
    ensures History(ts, ops) && |ts| == 4
    ensures ts[3].sources == map[7 := ContentVerified] && ts[3].observations == [Observation(0, 7, Arxiv, "a")]
    ensures ts[3].scores == map[7 := ScoresOf(ClassifyItem(ITEM))] && ts[3].documents == map[1 := RECEIPT]
    ensures ts[3].claims == map[0 := ClaimRow(7, 1, 0, 1, 2, true, Human)]
  {
    var t1 := Upsert(EMPTY, 0, ITEM);
    assert [ITEM][..0] == [] && UpsertAll(EMPTY, 0, []) == EMPTY;
    assert UpsertAll(EMPTY, 0, [ITEM]) == t1;
    assert t1.observations == [] + [Observation(0, 7, Arxiv, "a")];
    var t2 := t1.(documents := t1.documents[1 := RECEIPT]);
    var t3 := WithClaim(t2, 0, BY_HUMAN);
    ts, ops := [EMPTY, t1, t2, t3], [Observe(0, [ITEM]), Receive(1, RECEIPT), Review(0, BY_HUMAN)];
  }

  lemma AllLayersSignalled()
    ensures forall layer: Layer :: layer in ClassifyItem(ITEM).layers
  {
    ClassificationFollowsTitle(ITEM);
    assert "system" in ITEM.terms * LayerTerms(GlobalArchitecture);
    assert "memory" in ITEM.terms * LayerTerms(Subsystem);
    assert "tools" in ITEM.terms * LayerTerms(Component);
    assert "audit" in ITEM.terms * LayerTerms(Feature);
    forall layer: Layer ensures Signals(ITEM, layer) { match layer case _ => }
  }

  /** The gate does open for a policy without a reproducibility threshold. */
  lemma ReadinessIsReachable() returns (ts: seq<Tables>, ops: seq<Operation>)
    ensures History(ts, ops) && |ts| == 4 && MeetsPolicy(Corpus(ts[3]), Policy(1, 1, 1, 1, 0.0))
  {
    ts, ops := OneVerifiedSource();
    AllLayersSignalled();
    var t := ts[3];
    var o := Observation(0, 7, Arxiv, "a");
    var a := Row(t, o);
    assert [o][..0] == [] && Load(t, []) == [];
    assert Corpus(t) == [a];
    OneRowIsEnough(a);
  }

  lemma OneRowIsEnough(a: Assessment)
    requires a.verification == ContentVerified && a.reproducibility == 0.0 && forall layer: Layer :: layer in a.layers
    ensures MeetsPolicy([a], Policy(1, 1, 1, 1, 0.0))
  {
    assert [a][..0] == [] && KeepAll([]) == Kept([], map[]);
    assert KeepAll([a]) == Kept([a.key], map[a.key := a]);
    assert [a.key][..0] == [];
    assert a in [a];
    assert a.key in Keys([a]) && a.provider in Providers([a]) && a.key in VerifiedKeys([a]);
    forall layer: Layer ensures KeptCount([a], IsInLayer(layer)) >= 1 { }
    ZeroMean([a]);
  }

  /** Content verification records that a human once reviewed, not that a reviewed claim is still
      there: a model's claim with the same text takes the row over, its pages and status included,
      while the row goes on naming the human as assessor. */
  lemma ModelTakesOverReviewedClaim() returns (ts: seq<Tables>, ops: seq<Operation>)
    ensures History(ts, ops) && |ts| == 5
    ensures 7 in ts[4].sources && ts[4].sources[7] == ContentVerified && forall c :: c in ts[4].claims ==> !ts[4].claims[c].reviewed
    ensures 0 in ts[4].claims && ts[4].claims[0].assessor == Human && ts[4].claims[0].pageStart == BY_MODEL.pageStart
  {
    ts, ops := OneVerifiedSource();
    var t := WithClaim(ts[3], 0, BY_MODEL);
    assert Performs(ts[3], Review(0, BY_MODEL), t);
    ts, ops := ts + [t], ops + [Review(0, BY_MODEL)];
  }

  /** The submissions committed under one claim row, oldest first. */
  function Reviews(ops: seq<Operation>, id: ClaimId): seq<Submission> {
    if ops == [] then []
    else
      var last := ops[|ops| - 1];
      Reviews(ops[..|ops| - 1], id) + if last.Review? && last.claim == id then [last.submission] else []
  }

  lemma {:induction false} ClaimsKept(t: Tables, run: RunId, items: seq<Item>)
    ensures UpsertAll(t, run, items).claims == t.claims
    decreases |items|
  {
    if items != [] { ClaimsKept(t, run, items[..|items| - 1]); }
  }

  ghost predicate RowMatches(t: Tables, id: ClaimId, log: seq<Submission>) {
    && (id in t.claims <==> log != [])
    && (log != [] ==>
          && var row, first, last := t.claims[id], log[0], log[|log| - 1];
          && (row.reviewed <==> last.assessor == Human) && row.pageStart == last.pageStart && row.pageEnd == last.pageEnd
          && row.document == last.document && row.summary == last.summary
          && row.assessor == first.assessor && row.source == first.source)
  }

  lemma RowMatchesStep(t: Tables, op: Operation, t': Tables, id: ClaimId, log: seq<Submission>)
    requires RowMatches(t, id, log) && Performs(t, op, t')
    ensures RowMatches(t', id, log + if op.Review? && op.claim == id then [op.submission] else [])
  {
    if op.Observe? { ClaimsKept(t, op.run, op.items); }
    hide UpsertAll, HasReceipt, PageBacked;
  }

  /** Exactly: a claim row is reviewed if and only if its last submission was a human's, and has the
      pages of that one, while it names the assessor and the source of its first one. */
  lemma {:induction false} RowFollowsReviews(ts: seq<Tables>, ops: seq<Operation>, i: nat, id: ClaimId)
    requires History(ts, ops) && i < |ts|
    ensures RowMatches(ts[i], id, Reviews(ops[..i], id))
    decreases i
  {
    if i > 0 {
      RowFollowsReviews(ts, ops, i - 1, id);
      assert Performs(ts[i - 1], ops[i - 1], ts[i - 1 + 1]);
      hide Performs, RowMatches;
      RowMatchesStep(ts[i - 1], ops[i - 1], ts[i], id, Reviews(ops[..i - 1], id));
      assert ops[..i][..i - 1] == ops[..i - 1];
    }
  }

  // ------------------------------------------------------------------ what the rows hold

  /** The items observed so far, in order. */
  function ItemsOf(ops: seq<Operation>): seq<Item> {
    if ops == [] then []
    else
      var last := ops[|ops| - 1];
      ItemsOf(ops[..|ops| - 1]) + if last.Observe? then last.items else []
  }

  /** The item observed last under key k. */
  function LastItem(items: seq<Item>, k: Key): Option<Item> {
    if items == [] then None
    else if items[|items| - 1].key == k then Some(items[|items| - 1])
    else LastItem(items[..|items| - 1], k)
  }

  /** Scores and sources are there for exactly the observed keys, and the scores are those of the
      item observed last. */
  ghost predicate ScoredByLast(t: Tables, items: seq<Item>) {
    forall k ::
      && (k in t.scores <==> LastItem(items, k).Some?) && (k in t.sources <==> LastItem(items, k).Some?)
      && (k in t.scores ==> t.scores[k] == ScoresOf(ClassifyItem(LastItem(items, k).value)))
  }

  lemma {:induction false} ScoredAfter(t: Tables, before: seq<Item>, run: RunId, items: seq<Item>)
    requires ScoredByLast(t, before)
    ensures ScoredByLast(UpsertAll(t, run, items), before + items)
    decreases |items|
  {
    if items == [] {
      assert before + items == before;
    } else {
      var front, last := items[..|items| - 1], items[|items| - 1];
      ScoredAfter(t, before, run, front);
      hide ClassifyItem;
      assert (before + items)[..|before + items| - 1] == before + front && (before + items)[|before + items| - 1] == last;
      assert ClassifyItem(last).key == last.key by { ScoresExactly(last); }
    }
  }

  lemma {:induction false} AlwaysScoredByLast(ts: seq<Tables>, ops: seq<Operation>, i: nat)
    requires History(ts, ops) && i < |ts|
    ensures ScoredByLast(ts[i], ItemsOf(ops[..i]))
    decreases i
  {
    if i > 0 {
      AlwaysScoredByLast(ts, ops, i - 1);
      assert Performs(ts[i - 1], ops[i - 1], ts[i - 1 + 1]);
      assert ops[..i][..i - 1] == ops[..i - 1];
      hide UpsertAll, LastItem, ClassifyItem, HasReceipt, HasClaim;
      match ops[i - 1]
      case Observe(run, items) => ScoredAfter(ts[i - 1], ItemsOf(ops[..i - 1]), run, items);
      case Receive(_, _) => assert ItemsOf(ops[..i]) == ItemsOf(ops[..i - 1]);
      case Review(_, _) => assert ItemsOf(ops[..i]) == ItemsOf(ops[..i - 1]);
    }
  }

  lemma {:induction false} LoadIsRowByRow(t: Tables, observations: seq<Observation>)
    requires forall o :: o in observations ==> o.key in t.sources && o.key in t.scores
    ensures |Load(t, observations)| == |observations|
    ensures forall n :: 0 <= n < |observations| ==>
              var a, o := Load(t, observations)[n], observations[n];
              a.key == o.key && a.provider == o.provider && a.verification == t.sources[o.key] && ScoresOf(a) == t.scores[o.key]
    decreases |observations|
  {
    if observations != [] { LoadIsRowByRow(t, observations[..|observations| - 1]); }
  }

  /** What the coverage gate is given in a reachable corpus: one row for every observation, with its
      provider and the status of its source, and otherwise the classification of the item that was
      observed last under its key. */
  lemma CorpusIsTheLastClassification(ts: seq<Tables>, ops: seq<Operation>, i: nat, n: nat)
    requires History(ts, ops) && i < |ts| && n < |ts[i].observations|
    ensures |Corpus(ts[i])| == |ts[i].observations|
    ensures var a, o := Corpus(ts[i])[n], ts[i].observations[n];
            && LastItem(ItemsOf(ops[..i]), o.key).Some? && o.key in ts[i].sources
            && var c := ClassifyItem(LastItem(ItemsOf(ops[..i]), o.key).value);
               a == c.(key := o.key, provider := o.provider, verification := ts[i].sources[o.key])
  {
    AlwaysSound(ts, ops, i);
    AlwaysScoredByLast(ts, ops, i);
    LoadIsRowByRow(ts[i], ts[i].observations);
    hide Load, LastItem, ItemsOf, ClassifyItem;
    assert ts[i].observations[n] in ts[i].observations;
    assert Corpus(ts[i]) == Load(ts[i], ts[i].observations);
  }

  // ------------------------------------------------------------------ nothing is stored twice

  ghost predicate OneEach(t: Tables) {
    && (forall m, n :: 0 <= m < n < |t.observations| ==>
          var o, p := t.observations[m], t.observations[n];
          o.run != p.run || o.provider != p.provider || o.providerId != p.providerId)
    && (forall c, d :: c in t.claims && d in t.claims && c != d ==>
          t.claims[c].document != t.claims[d].document || t.claims[c].summary != t.claims[d].summary)
    && (forall c, d :: c in t.documents && d in t.documents && c != d ==>
          t.documents[c].source != t.documents[d].source || t.documents[c].sha != t.documents[d].sha)
  }

  /** The observation of an item is there. */
  ghost predicate Noted(t: Tables, run: RunId, item: Item) {
    exists o :: o in t.observations && o.run == run && o.provider == item.provider && o.providerId == item.providerId
  }

  lemma UpsertNotes(t: Tables, run: RunId, item: Item)
    requires OneEach(t)
    ensures OneEach(Upsert(t, run, item)) && Noted(Upsert(t, run, item), run, item) && t.observations <= Upsert(t, run, item).observations
  {
    hide ClassifyItem;
    var t' := Upsert(t, run, item);
    var o := Observation(run, ClassifyItem(item).key, item.provider, item.providerId);
    if Observed(t.observations, o) {
      var p :| p in t.observations && SameObservation(p, o);
      assert p in t'.observations;
    } else {
      assert o in t'.observations;
      forall m | 0 <= m < |t.observations| ensures !SameObservation(t.observations[m], o) { }
    }
  }

  lemma {:induction false} UpsertAllNotes(t: Tables, run: RunId, items: seq<Item>)
    requires OneEach(t)
    ensures OneEach(UpsertAll(t, run, items)) && t.observations <= UpsertAll(t, run, items).observations
    ensures forall item :: item in items ==> Noted(UpsertAll(t, run, items), run, item)
    decreases |items|
  {
    if items != [] {
      var front, last := items[..|items| - 1], items[|items| - 1];
      UpsertAllNotes(t, run, front);
      var mid := UpsertAll(t, run, front);
      UpsertNotes(mid, run, last);
      hide OneEach, Upsert;
      forall item | item in items ensures Noted(UpsertAll(t, run, items), run, item) {
        if item in front { NotedStays(mid, UpsertAll(t, run, items), run, item); }
      }
    }
  }

  lemma NotedStays(t: Tables, t': Tables, run: RunId, item: Item)
    requires Noted(t, run, item) && t.observations <= t'.observations
    ensures Noted(t', run, item)
  {
    var o :| o in t.observations && o.run == run && o.provider == item.provider && o.providerId == item.providerId;
    assert o in t'.observations;
  }

  lemma OneEachStep(t: Tables, op: Operation, t': Tables)
    requires OneEach(t) && Performs(t, op, t')
    ensures OneEach(t') && t.observations <= t'.observations
  {
    if op.Observe? {
      UpsertAllNotes(t, op.run, op.items);
    } else {
      hide UpsertAll;
    }
  }

  /** In every reachable store an observation is identified by its run, provider and provider's id, a
      claim by its document and text, and a receipt by its source and file. */
  lemma {:induction false} StoredOnce(ts: seq<Tables>, ops: seq<Operation>, i: nat)
    requires History(ts, ops) && i < |ts|
    ensures OneEach(ts[i])
    decreases i
  {
    hide Performs, OneEach;
    if i == 0 {
      assert OneEach(EMPTY) by { EmptyOneEach(); }
    } else {
      StoredOnce(ts, ops, i - 1);
      assert Performs(ts[i - 1], ops[i - 1], ts[i - 1 + 1]);
      OneEachStep(ts[i - 1], ops[i - 1], ts[i - 1 + 1]);
    }
  }

  lemma EmptyOneEach()
    ensures OneEach(EMPTY)
  {
  }

  /** Every item ever observed is noted for its run, for good. */
  lemma {:induction false} ObservedIsNoted(ts: seq<Tables>, ops: seq<Operation>, i: nat, j: nat, item: Item)
    requires History(ts, ops) && i < j < |ts| && ops[i].Observe? && item in ops[i].items
    ensures Noted(ts[j], ops[i].run, item)
    decreases j
  {
    hide OneEach, UpsertAll, Noted;
    StoredOnce(ts, ops, j - 1);
    assert Performs(ts[j - 1], ops[j - 1], ts[j - 1 + 1]);
    if i == j - 1 {
      UpsertAllNotes(ts[i], ops[i].run, ops[i].items);
    } else {
      ObservedIsNoted(ts, ops, i, j - 1, item);
      OneEachStep(ts[j - 1], ops[j - 1], ts[j - 1 + 1]);
      NotedStays(ts[j - 1], ts[j], ops[i].run, item);
    }
  }
}
