/** Title classification and the coverage gate of the research corpus. */
module ResearchCorpus {
  import opened Wrappers

  type Key = nat

  datatype Provider = Arxiv | OpenAlex | Crossref

  datatype Evidence = Primary | Secondary | Reference

  datatype Layer = GlobalArchitecture | Subsystem | Component | Feature

  const LAYERS: seq<Layer> := [GlobalArchitecture, Subsystem, Component, Feature]

  datatype Verification = MetadataObserved | MetadataCorroborated | ContentVerified

  function Rank(v: Verification): nat {
    match v
    case MetadataObserved => 0
    case MetadataCorroborated => 1
    case ContentVerified => 2
  }

  /** An observed item: `key` is the hash of its DOI or URL, `terms` the words of its title. */
  datatype Item = Item(key: Key, provider: Provider, providerId: string, evidence: Evidence, terms: set<string>)

  datatype Assessment = Assessment(key: Key, provider: Provider, layers: set<Layer>, confidence: real, conceptual: real,
                                   readiness: real, reproducibility: real, independence: real, verification: Verification)

  function LayerTerms(layer: Layer): set<string> {
    match layer
    case GlobalArchitecture => {"architecture", "architectures", "framework", "system", "systems", "agentic", "orchestration"}
    case Subsystem => {"pipeline", "workflow", "planner", "planning", "memory", "retrieval", "supervisor", "routing"}
    case Component => {"mcp", "langgraph", "tool", "tools", "evaluation", "benchmark", "guardrail", "testing", "agent"}
    case Feature => {"review", "trace", "tracing", "logging", "observability", "search", "ranking", "citation", "audit"}
  }

  function SignalledLayers(terms: set<string>): set<Layer> {
    set layer | layer in LAYERS && terms * LayerTerms(layer) != {}
  }

  function Lower(a: real, b: real): real { if a < b then a else b }

  /** classify_item: conservative scores from metadata only. */
  function ClassifyItem(item: Item): (a: Assessment)
    ensures a.layers != {} && a.reproducibility == 0.0 && a.readiness == 0.0 && a.verification == MetadataObserved
    ensures 0.2 <= a.confidence <= 0.8
  {
    var layers := SignalledLayers(item.terms);
    Assessment(item.key, item.provider,
               if layers == {} then {Component} else layers,
               if layers == {} then 0.2 else Lower(0.8, 0.35 + 0.1 * |layers| as real),
               match item.evidence case Reference => 0.45 case Secondary => 0.5 case Primary => 0.55,
               0.0, 0.0,
               if item.provider == Arxiv then 0.45 else 0.55,
               MetadataObserved)
  }

  predicate Signals(item: Item, layer: Layer) {
    item.terms * LayerTerms(layer) != {}
  }

  lemma AllLayers(layer: Layer)
    ensures layer in LAYERS
  {
    assert LAYERS[0] == GlobalArchitecture && LAYERS[1] == Subsystem && LAYERS[2] == Component && LAYERS[3] == Feature;
  }

  /** A title with a taxonomy signal is filed under exactly the layers it signals; one without any
      is filed under component, and only then with the low confidence that marks it for review. */
  lemma ClassificationFollowsTitle(item: Item)
    ensures var a := ClassifyItem(item);
            && (a.confidence == 0.2 <==> forall layer :: !Signals(item, layer))
            && (a.confidence != 0.2 ==> a.confidence >= 0.45 && forall layer :: layer in a.layers <==> Signals(item, layer))
            && (a.confidence == 0.2 ==> a.layers == {Component})
  {
    var layers := SignalledLayers(item.terms);
    forall layer: Layer ensures layer in layers <==> Signals(item, layer) {
      AllLayers(layer);
    }
    if layers != {} {
      var layer :| layer in layers;
      assert |layers| >= 1;
    }
  }

  lemma AtMostFourLayers(layers: set<Layer>)
    ensures |layers| <= 4
  {
    var all := {GlobalArchitecture, Subsystem, Component, Feature};
    forall layer | layer in layers ensures layer in all {
      match layer
      case GlobalArchitecture =>
      case Subsystem =>
      case Component =>
      case Feature =>
    }
    assert layers <= all;
    assert |all - layers| == |all| - |layers|;
  }

  /** The scores of a classified item: its evidence, its provider and the number of layers its title
      signals decide them. */
  lemma ScoresExactly(item: Item)
    ensures var a := ClassifyItem(item);
            && a.key == item.key && a.provider == item.provider
            && a.conceptual == (match item.evidence case Primary => 0.55 case Secondary => 0.5 case Reference => 0.45)
            && a.independence == (match item.provider case Arxiv => 0.45 case OpenAlex => 0.55 case Crossref => 0.55)
            && a.confidence == match |SignalledLayers(item.terms)|
                               case 0 => 0.2
                               case 1 => 0.45
                               case 2 => 0.55
                               case 3 => 0.65
                               case _ => 0.75
  {
    AtMostFourLayers(SignalledLayers(item.terms));
  }

  // ------------------------------------------------------------------ keeping the best assessment

  /** by_key after the stream: keys in order of first appearance, and what is kept for each. */
  datatype Kept = Kept(order: seq<Key>, best: map<Key, Assessment>)

  function Keep(kept: Kept, a: Assessment): Kept {
    if a.key !in kept.best then Kept(kept.order + [a.key], kept.best[a.key := a])
    else if Rank(a.verification) > Rank(kept.best[a.key].verification) then kept.(best := kept.best[a.key := a])
    else kept
  }

  function KeepAll(stream: seq<Assessment>): Kept {
    if stream == [] then Kept([], map[]) else Keep(KeepAll(stream[..|stream| - 1]), stream[|stream| - 1])
  }

  function Providers(stream: seq<Assessment>): set<Provider> {
    set a | a in stream :: a.provider
  }

  ghost predicate WellKept(kept: Kept) {
    Distinct(kept.order) && forall k :: k in kept.order <==> k in kept.best
  }

  /** Every kept assessment comes from the stream, with the highest rank seen for its key. */
  ghost predicate Maximal(kept: Kept, stream: seq<Assessment>) {
    && (forall a :: a in stream ==> a.key in kept.best && Rank(a.verification) <= Rank(kept.best[a.key].verification))
    && (forall k :: k in kept.best ==> kept.best[k] in stream && kept.best[k].key == k)
  }

  lemma KeepStep(kept: Kept, front: seq<Assessment>, last: Assessment)
    requires WellKept(kept) && Maximal(kept, front)
    ensures WellKept(Keep(kept, last)) && Maximal(Keep(kept, last), front + [last])
  {
    assert WellKept(Keep(kept, last)) by { hide Maximal; }
    hide WellKept;
  }

  lemma {:induction false} KeptMaximal(stream: seq<Assessment>)
    ensures WellKept(KeepAll(stream)) && Maximal(KeepAll(stream), stream)
    decreases |stream|
  {
    if stream != [] {
      var front, last := stream[..|stream| - 1], stream[|stream| - 1];
      KeptMaximal(front);
      hide WellKept, Maximal, Keep;
      KeepStep(KeepAll(front), front, last);
      assert stream == front + [last];
    }
  }

  /** After any stream, the kept assessment of a key comes from the stream and has the highest
      verification rank seen for that key. */
  lemma KeptIsMaximal(stream: seq<Assessment>)
    ensures var kept := KeepAll(stream);
            && WellKept(kept)
            && (forall a :: a in stream ==> a.key in kept.best && Rank(a.verification) <= Rank(kept.best[a.key].verification))
            && (forall k :: k in kept.best ==> kept.best[k] in stream && kept.best[k].key == k)
  {
    KeptMaximal(stream);
  }

  /** Assessment number n of the stream is the first with the rank its key is kept at. */
  ghost predicate FirstOfRank(stream: seq<Assessment>, n: nat) {
    n < |stream| && forall m :: 0 <= m < n && stream[m].key == stream[n].key ==> Rank(stream[m].verification) < Rank(stream[n].verification)
  }

  /** Of equally verified assessments the first stays. */
  lemma {:induction false} KeptIsFirst(stream: seq<Assessment>, k: Key) returns (n: nat)
    requires k in KeepAll(stream).best
    ensures FirstOfRank(stream, n) && stream[n].key == k && stream[n] == KeepAll(stream).best[k]
    decreases |stream|
  {
    var front, last := stream[..|stream| - 1], stream[|stream| - 1];
    KeptMaximal(front);
    assert stream == front + [last];
    if k in KeepAll(front).best && KeepAll(stream).best[k] == KeepAll(front).best[k] && !Replaces(KeepAll(front), last, k) {
      n := KeptIsFirst(front, k);
    } else {
      n := |front|;
      forall m | 0 <= m < n && stream[m].key == k ensures Rank(stream[m].verification) < Rank(last.verification) {
        assert front[m] in front;
      }
    }
  }

  predicate Replaces(kept: Kept, a: Assessment, k: Key) {
    a.key == k && (k !in kept.best || Rank(a.verification) > Rank(kept.best[k].verification))
  }

  /** What the gate asks of a kept assessment. */
  datatype Question = IsVerified | IsBuildable | IsInLayer(layer: Layer)

  predicate Holds(q: Question, a: Assessment) {
    match q
    case IsVerified => a.verification == ContentVerified
    case IsBuildable => Component in a.layers || Feature in a.layers
    case IsInLayer(layer) => layer in a.layers
  }

  function CountIf(order: seq<Key>, best: map<Key, Assessment>, q: Question): nat
    requires forall k :: k in order ==> k in best
    decreases |order|
  {
    if order == [] then 0
    else CountIf(order[..|order| - 1], best, q) + if Holds(q, best[order[|order| - 1]]) then 1 else 0
  }

  function KeysThat(order: seq<Key>, best: map<Key, Assessment>, q: Question): set<Key>
    requires forall k :: k in order ==> k in best
  {
    set k | k in order && Holds(q, best[k])
  }

  ghost predicate Distinct(order: seq<Key>) {
    forall i, j :: 0 <= i < j < |order| ==> order[i] != order[j]
  }

  lemma LastIsNew(order: seq<Key>)
    requires Distinct(order) && order != []
    ensures var front, last := order[..|order| - 1], order[|order| - 1];
            last !in front && Distinct(front) && order == front + [last]
  {
  }

  lemma KeysThatGrow(front: seq<Key>, last: Key, best: map<Key, Assessment>, q: Question)
    requires last !in front && last in best && forall k :: k in front ==> k in best
    ensures |KeysThat(front + [last], best, q)| == |KeysThat(front, best, q)| + if Holds(q, best[last]) then 1 else 0
  {
    if Holds(q, best[last]) {
      assert KeysThat(front + [last], best, q) == KeysThat(front, best, q) + {last};
    } else {
      assert KeysThat(front + [last], best, q) == KeysThat(front, best, q);
    }
  }

  /** A count over distinct keys is the size of a set of keys. */
  lemma {:induction false} CountIsSize(order: seq<Key>, best: map<Key, Assessment>, q: Question)
    requires Distinct(order) && forall k :: k in order ==> k in best
    ensures CountIf(order, best, q) == |KeysThat(order, best, q)|
    decreases |order|
  {
    if order == [] {
      assert KeysThat(order, best, q) == {};
    } else {
      LastIsNew(order);
      hide KeysThat, Distinct, Holds;
      CountIsSize(order[..|order| - 1], best, q);
      KeysThatGrow(order[..|order| - 1], order[|order| - 1], best, q);
    }
  }

  /** The keys some content-verified assessment of the stream is about. */
  function VerifiedKeys(stream: seq<Assessment>): set<Key> {
    set a | a in stream && a.verification == ContentVerified :: a.key
  }

  function Keys(stream: seq<Assessment>): set<Key> {
    set a | a in stream :: a.key
  }

  function Elements(order: seq<Key>): set<Key> {
    set k | k in order
  }

  lemma {:induction false} DistinctSize(order: seq<Key>)
    requires Distinct(order)
    ensures |Elements(order)| == |order|
    decreases |order|
  {
    if order == [] {
      assert Elements(order) == {};
    } else {
      LastIsNew(order);
      DistinctSize(order[..|order| - 1]);
      assert Elements(order) == Elements(order[..|order| - 1]) + {order[|order| - 1]};
    }
  }

  /** How many kept assessments of the stream answer yes. */
  function KeptCount(stream: seq<Assessment>, q: Question): nat {
    KeptIsMaximal(stream);
    CountIf(KeepAll(stream).order, KeepAll(stream).best, q)
  }

  /** A key is kept as content-verified exactly when some assessment of it was. */
  lemma VerifiedIsKept(stream: seq<Assessment>)
    ensures WellKept(KeepAll(stream))
    ensures KeysThat(KeepAll(stream).order, KeepAll(stream).best, IsVerified) == VerifiedKeys(stream)
  {
    KeptIsMaximal(stream);
    var kept := KeepAll(stream);
    hide KeepAll;
    forall k ensures k in KeysThat(kept.order, kept.best, IsVerified) <==> k in VerifiedKeys(stream) {
      if k in VerifiedKeys(stream) {
        var a :| a in stream && a.verification == ContentVerified && a.key == k;
        assert Rank(a.verification) <= Rank(kept.best[k].verification);
      }
      if k in KeysThat(kept.order, kept.best, IsVerified) { assert kept.best[k] in stream; }
    }
  }

  lemma KeptIsKeys(stream: seq<Assessment>)
    ensures Elements(KeepAll(stream).order) == Keys(stream)
  {
    KeptIsMaximal(stream);
    hide KeepAll;
  }

  /** The gate's source and verified counts are sizes of sets that do not depend on order. */
  lemma CountsAreSets(stream: seq<Assessment>)
    ensures |KeepAll(stream).order| == |Keys(stream)| && WellKept(KeepAll(stream))
    ensures KeptCount(stream, IsVerified) == |VerifiedKeys(stream)|
  {
    KeptIsMaximal(stream);
    KeptIsKeys(stream);
    VerifiedIsKept(stream);
    hide KeepAll, Keys, VerifiedKeys, Elements, KeysThat;
    DistinctSize(KeepAll(stream).order);
    CountIsSize(KeepAll(stream).order, KeepAll(stream).best, IsVerified);
  }

  /** Permuting or repeating the stream changes neither the number of unique sources, nor that of
      content-verified sources, nor the provider provenances. */
  lemma CountsIgnoreOrderAndRepetition(s: seq<Assessment>, t: seq<Assessment>)
    requires forall a :: a in s <==> a in t
    ensures |KeepAll(s).order| == |KeepAll(t).order| && Providers(s) == Providers(t)
    ensures WellKept(KeepAll(s)) && WellKept(KeepAll(t))
    ensures KeptCount(s, IsVerified) == KeptCount(t, IsVerified)
  {
    CountsAreSets(s);
    CountsAreSets(t);
    assert Keys(s) == Keys(t) && VerifiedKeys(s) == VerifiedKeys(t);
  }

  // ------------------------------------------------------------------ the gate

  datatype Policy = Policy(uniqueSources: int, perLayer: int, providers: int, verified: int, reproducibility: real)

  const DEFAULT_POLICY: Policy := Policy(12, 3, 2, 4, 0.35)

  datatype Unmet = FewSources(missing: int) | FewProviders | FewForLayer(layer: Layer, missing: int) | FewVerified(missing: int) | LowReproducibility

  datatype Coverage = Coverage(ready: bool, sources: nat, providers: nat, perLayer: map<Layer, nat>, verified: nat,
                               reproducibility: real, unmet: seq<Unmet>)

  function ReproducibilitySum(order: seq<Key>, best: map<Key, Assessment>): real
    requires forall k :: k in order ==> k in best
    decreases |order|
  {
    if order == [] then 0.0
    else
      var last := best[order[|order| - 1]];
      ReproducibilitySum(order[..|order| - 1], best) + if Holds(IsBuildable, last) then last.reproducibility else 0.0
  }

  /** Mean reproducibility of the kept component and feature sources. */
  function ReproducibilityMean(stream: seq<Assessment>): real {
    KeptIsMaximal(stream);
    var n := KeptCount(stream, IsBuildable);
    if n == 0 then 0.0 else ReproducibilitySum(KeepAll(stream).order, KeepAll(stream).best) / n as real
  }

  /** What the gate counts: kept sources filed under a layer, and those under component or feature. */
  lemma CountsExactly(stream: seq<Assessment>, layer: Layer)
    ensures var best := KeepAll(stream).best;
            && KeptCount(stream, IsInLayer(layer)) == |set k | k in best && layer in best[k].layers|
            && KeptCount(stream, IsBuildable) == |set k | k in best && (Component in best[k].layers || Feature in best[k].layers)|
  {
    KeptIsMaximal(stream);
    var kept := KeepAll(stream);
    CountIsSize(kept.order, kept.best, IsInLayer(layer));
    CountIsSize(kept.order, kept.best, IsBuildable);
    assert KeysThat(kept.order, kept.best, IsInLayer(layer)) == set k | k in kept.best && layer in kept.best[k].layers;
    assert KeysThat(kept.order, kept.best, IsBuildable)
        == set k | k in kept.best && (Component in kept.best[k].layers || Feature in kept.best[k].layers);
    hide KeepAll, CountIf;
  }

  predicate Times(sum: real, c: real, n: nat) { sum == c * n as real }

  lemma OneMoreTime(sum: real, c: real, n: nat)
    requires Times(sum, c, n)
    ensures Times(sum + c, c, n + 1)
  {
  }

  lemma Quotient(sum: real, c: real, n: nat)
    requires Times(sum, c, n) && n > 0
    ensures sum / n as real == c
  {
  }

  lemma {:induction false} EqualSum(order: seq<Key>, best: map<Key, Assessment>, c: real)
    requires forall k :: k in order ==> k in best
    requires forall k :: k in order && (Component in best[k].layers || Feature in best[k].layers) ==> best[k].reproducibility == c
    ensures Times(ReproducibilitySum(order, best), c, CountIf(order, best, IsBuildable))
    decreases |order|
  {
    if order != [] {
      var front := order[..|order| - 1];
      EqualSum(front, best, c);
      OneMoreTime(ReproducibilitySum(front, best), c, CountIf(front, best, IsBuildable));
      hide Times;
    }
  }

  /** The mean is one of the component and feature sources only: when these agree, it is what they
      agree on, whatever the other sources are like. */
  lemma MeanOfEquals(stream: seq<Assessment>, c: real)
    requires KeptCount(stream, IsBuildable) > 0
    requires forall k :: k in KeepAll(stream).best && (Component in KeepAll(stream).best[k].layers || Feature in KeepAll(stream).best[k].layers) ==>
               KeepAll(stream).best[k].reproducibility == c
    ensures ReproducibilityMean(stream) == c
  {
    hide Times, KeepAll, CountIf, ReproducibilitySum;
    KeptIsMaximal(stream);
    EqualSum(KeepAll(stream).order, KeepAll(stream).best, c);
    Quotient(ReproducibilitySum(KeepAll(stream).order, KeepAll(stream).best), c, KeptCount(stream, IsBuildable));
  }

  /** All the thresholds of the policy, read off the stream. */
  ghost predicate MeetsPolicy(stream: seq<Assessment>, policy: Policy) {
    && |Keys(stream)| >= policy.uniqueSources && |Providers(stream)| >= policy.providers
    && (forall layer :: KeptCount(stream, IsInLayer(layer)) >= policy.perLayer)
    && |VerifiedKeys(stream)| >= policy.verified && ReproducibilityMean(stream) >= policy.reproducibility
  }

  /** The list names exactly the thresholds that are missed, and by how much. */
  ghost predicate NamesWhatIsMissing(stream: seq<Assessment>, policy: Policy, unmet: seq<Unmet>) {
    && (forall missing :: FewSources(missing) in unmet <==> missing == policy.uniqueSources - |Keys(stream)| && missing > 0)
    && (FewProviders in unmet <==> |Providers(stream)| < policy.providers)
    && (forall layer, missing ::
          FewForLayer(layer, missing) in unmet <==> missing == policy.perLayer - KeptCount(stream, IsInLayer(layer)) && missing > 0)
    && (forall missing :: FewVerified(missing) in unmet <==> missing == policy.verified - |VerifiedKeys(stream)| && missing > 0)
    && (LowReproducibility in unmet <==> ReproducibilityMean(stream) < policy.reproducibility)
  }

  /** sum(... for assessment in values) over the kept assessments. */
  method Count(kept: Kept, q: Question) returns (n: nat)
    requires forall k :: k in kept.order ==> k in kept.best
    ensures n == CountIf(kept.order, kept.best, q)
  {
    n := 0;
    var i := 0;
    while i < |kept.order|
      invariant 0 <= i <= |kept.order| && n == CountIf(kept.order[..i], kept.best, q)
    {
      assert kept.order[..i + 1][..i] == kept.order[..i];
      if Holds(q, kept.best[kept.order[i]]) {
        n := n + 1;
      }
      i := i + 1;
    }
    assert kept.order[..i] == kept.order;
  }

  method SumReproducibility(kept: Kept) returns (sum: real)
    requires forall k :: k in kept.order ==> k in kept.best
    ensures sum == ReproducibilitySum(kept.order, kept.best)
  {
    sum := 0.0;
    var i := 0;
    while i < |kept.order|
      invariant 0 <= i <= |kept.order| && sum == ReproducibilitySum(kept.order[..i], kept.best)
    {
      assert kept.order[..i + 1][..i] == kept.order[..i];
      var a := kept.best[kept.order[i]];
      if Component in a.layers || Feature in a.layers {
        sum := sum + a.reproducibility;
      }
      i := i + 1;
    }
    assert kept.order[..i] == kept.order;
  }

  /** layer_counts, and one unmet requirement for each layer below the threshold. */
  method CountLayers(kept: Kept, threshold: int) returns (perLayer: map<Layer, nat>, unmet: seq<Unmet>)
    requires forall k :: k in kept.order ==> k in kept.best
    ensures forall layer :: layer in perLayer && perLayer[layer] == CountIf(kept.order, kept.best, IsInLayer(layer))
    ensures unmet == [] <==> forall layer :: perLayer[layer] >= threshold
    ensures forall u :: u in unmet ==> u.FewForLayer?
    ensures forall layer, missing :: FewForLayer(layer, missing) in unmet <==> missing == threshold - perLayer[layer] && missing > 0
  {
    perLayer, unmet := map[], [];
    var i := 0;
    while i < |LAYERS|
      invariant 0 <= i <= |LAYERS|
      invariant forall j :: 0 <= j < i ==> LAYERS[j] in perLayer && perLayer[LAYERS[j]] == CountIf(kept.order, kept.best, IsInLayer(LAYERS[j]))
      invariant unmet == [] <==> forall j :: 0 <= j < i ==> CountIf(kept.order, kept.best, IsInLayer(LAYERS[j])) >= threshold
      invariant forall u :: u in unmet ==> u.FewForLayer? && u.missing > 0 && u.missing == threshold - CountIf(kept.order, kept.best, IsInLayer(u.layer))
      invariant forall j :: 0 <= j < i && threshold - CountIf(kept.order, kept.best, IsInLayer(LAYERS[j])) > 0 ==>
                  FewForLayer(LAYERS[j], threshold - CountIf(kept.order, kept.best, IsInLayer(LAYERS[j]))) in unmet
    {
      var n := Count(kept, IsInLayer(LAYERS[i]));
      perLayer := perLayer[LAYERS[i] := n];
      if threshold - n > 0 {
        unmet := unmet + [FewForLayer(LAYERS[i], threshold - n)];
      }
      i := i + 1;
    }
    forall layer: Layer ensures layer in perLayer && perLayer[layer] == CountIf(kept.order, kept.best, IsInLayer(layer)) {
      AllLayers(layer);
    }
    forall layer: Layer, missing | missing == threshold - perLayer[layer] && missing > 0 ensures FewForLayer(layer, missing) in unmet {
      AllLayers(layer);
      var j :| 0 <= j < |LAYERS| && LAYERS[j] == layer;
    }
    if unmet == [] {
      forall layer: Layer ensures perLayer[layer] >= threshold {
        AllLayers(layer);
        var j :| 0 <= j < |LAYERS| && LAYERS[j] == layer;
      }
    } else {
      var j :| 0 <= j < |LAYERS| && CountIf(kept.order, kept.best, IsInLayer(LAYERS[j])) < threshold;
      assert perLayer[LAYERS[j]] < threshold;
    }
  }

  /** The first loop of evaluate_coverage. */
  method Fold(stream: seq<Assessment>) returns (kept: Kept, providers: set<Provider>)
    ensures kept == KeepAll(stream) && providers == Providers(stream)
  {
    var order: seq<Key> := [];
    var byKey: map<Key, Assessment> := map[];
    providers := {};
    var i := 0;
    while i < |stream|
      invariant 0 <= i <= |stream| && Kept(order, byKey) == KeepAll(stream[..i]) && providers == Providers(stream[..i])
    {
      var a := stream[i];
      assert stream[..i + 1] == stream[..i] + [a] && stream[..i + 1][..i] == stream[..i];
      providers := providers + {a.provider};
      assert providers == Providers(stream[..i + 1]);
      if a.key !in byKey {
        order := order + [a.key];
        byKey := byKey[a.key := a];
      } else if Rank(a.verification) > Rank(byKey[a.key].verification) {
        byKey := byKey[a.key := a];
      }
      i := i + 1;
    }
    assert stream[..i] == stream;
    kept := Kept(order, byKey);
  }

  /** What is missing of the demanded numbers, in the order of the policy. */
  method ListUnmet(policy: Policy, sources: nat, providers: nat, layers: seq<Unmet>, verified: nat, mean: real) returns (unmet: seq<Unmet>)
    requires forall u :: u in layers ==> u.FewForLayer?
    ensures forall missing :: FewSources(missing) in unmet <==> missing == policy.uniqueSources - sources && missing > 0
    ensures FewProviders in unmet <==> providers < policy.providers
    ensures forall layer, missing :: FewForLayer(layer, missing) in unmet <==> FewForLayer(layer, missing) in layers
    ensures forall missing :: FewVerified(missing) in unmet <==> missing == policy.verified - verified && missing > 0
    ensures LowReproducibility in unmet <==> mean < policy.reproducibility
    ensures unmet == [] <==>
              && sources >= policy.uniqueSources && providers >= policy.providers && layers == []
              && verified >= policy.verified && mean >= policy.reproducibility
  {
    unmet := [];
    if sources < policy.uniqueSources {
      unmet := unmet + [FewSources(policy.uniqueSources - sources)];
    }
    if providers < policy.providers {
      unmet := unmet + [FewProviders];
    }
    unmet := unmet + layers;
    if verified < policy.verified {
      unmet := unmet + [FewVerified(policy.verified - verified)];
    }
    if mean < policy.reproducibility {
      unmet := unmet + [LowReproducibility];
    }
  }

  /** The corpus is ready exactly when every threshold of the policy holds; otherwise the list names
      exactly the thresholds that are missed, and by how much. */
  method EvaluateCoverage(stream: seq<Assessment>, policy: Policy) returns (c: Coverage)
    ensures c.ready <==> MeetsPolicy(stream, policy)
    ensures c.ready <==> c.unmet == []
    ensures c.sources == |Keys(stream)| && c.verified == |VerifiedKeys(stream)| && c.providers == |Providers(stream)|
    ensures forall layer :: layer in c.perLayer && c.perLayer[layer] == KeptCount(stream, IsInLayer(layer))
    ensures c.reproducibility == ReproducibilityMean(stream)
    ensures NamesWhatIsMissing(stream, policy, c.unmet)
  {
    CountsAreSets(stream);
    KeptIsMaximal(stream);
    var kept, providers := Fold(stream);
    hide KeepAll, CountIf, ReproducibilitySum, Keys, VerifiedKeys, Providers, WellKept;
    var perLayer, unmetLayers := CountLayers(kept, policy.perLayer);
    var buildable := Count(kept, IsBuildable);
    var sum := SumReproducibility(kept);
    var mean := if buildable == 0 then 0.0 else sum / buildable as real;
    assert mean == ReproducibilityMean(stream);
    var verified := Count(kept, IsVerified);
    var unmet := ListUnmet(policy, |kept.order|, |providers|, unmetLayers, verified, mean);
    c := Coverage(unmet == [], |kept.order|, |providers|, perLayer, verified, mean, unmet);
    assert forall layer :: perLayer[layer] == KeptCount(stream, IsInLayer(layer));
    hide ReproducibilityMean, KeptCount;
  }
}
