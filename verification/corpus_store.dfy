/** The stored research corpus: sources, observations, document receipts and reviewed claims. */
module CorpusStorage {
  import opened Wrappers
  import opened ResearchCorpus

  type RunId = nat
  type DocumentId = nat
  type ClaimId = nat

  datatype Observation = Observation(run: RunId, key: Key, provider: Provider, providerId: string)

  /** A row of the assessments table. */
  datatype ScoreRow = ScoreRow(layers: set<Layer>, confidence: real, conceptual: real, readiness: real,
                               reproducibility: real, independence: real)

  datatype Document = Document(source: Key, sha: nat, pages: nat)

  datatype Assessor = Human | ApprovedModel

  /** A validated claim, as its constructor lets it through. */
  datatype Submission = Submission(source: Key, document: DocumentId, summary: nat, pageStart: int, pageEnd: int, assessor: Assessor)
  {
    predicate Valid() {
      1 <= pageStart <= pageEnd <= 100
    }
  }

  /** A row of claims with the assessor column of its claim_assessments row. */
  datatype ClaimRow = ClaimRow(source: Key, document: DocumentId, summary: nat, pageStart: int, pageEnd: int,
                               reviewed: bool, assessor: Assessor)

  /** `human` observes every claim a human assessment was committed for. */
  datatype Tables = Tables(sources: map<Key, Verification>, observations: seq<Observation>, scores: map<Key, ScoreRow>,
                           documents: map<DocumentId, Document>, claims: map<ClaimId, ClaimRow>, human: seq<Submission>)

  const EMPTY: Tables := Tables(map[], [], map[], map[], map[], [])

  datatype StorageError = Constraint | ClaimNotBacked

  // ------------------------------------------------------------------ transactions as functions

  /** UNIQUE (run_id, provider, provider_id). */
  predicate SameObservation(a: Observation, b: Observation) {
    a.run == b.run && a.provider == b.provider && a.providerId == b.providerId
  }

  predicate Observed(observations: seq<Observation>, o: Observation) {
    exists p :: p in observations && SameObservation(p, o)
  }

  function ScoresOf(a: Assessment): ScoreRow {
    ScoreRow(a.layers, a.confidence, a.conceptual, a.readiness, a.reproducibility, a.independence)
  }

  /** _upsert_assessment: a known source keeps its verification status. */
  function Upsert(t: Tables, run: RunId, item: Item): Tables {
    var a := ClassifyItem(item);
    var o := Observation(run, a.key, item.provider, item.providerId);
    t.(sources := if a.key in t.sources then t.sources else t.sources[a.key := a.verification],
       observations := if Observed(t.observations, o) then t.observations else t.observations + [o],
       scores := t.scores[a.key := ScoresOf(a)])
  }

  function UpsertAll(t: Tables, run: RunId, items: seq<Item>): Tables
    decreases |items|
  {
    if items == [] then t else Upsert(UpsertAll(t, run, items[..|items| - 1]), run, items[|items| - 1])
  }

  /** UNIQUE (source_key, pdf_sha256). */
  predicate HasReceipt(t: Tables, id: DocumentId, source: Key, sha: nat) {
    id in t.documents && t.documents[id].source == source && t.documents[id].sha == sha
  }

  /** UNIQUE (document_id, claim_summary). */
  predicate HasClaim(t: Tables, id: ClaimId, s: Submission) {
    id in t.claims && t.claims[id].document == s.document && t.claims[id].summary == s.summary
  }

  predicate PageBacked(t: Tables, s: Submission) {
    s.document in t.documents && t.documents[s.document].source == s.source && s.pageEnd <= t.documents[s.document].pages
  }

  /** persist_reviewed_claim under the row `id`: the assessor of an existing row is not updated. */
  function WithClaim(t: Tables, id: ClaimId, s: Submission): Tables {
    var assessor := if id in t.claims then t.claims[id].assessor else s.assessor;
    var source := if id in t.claims then t.claims[id].source else s.source;
    t.(claims := t.claims[id := ClaimRow(source, s.document, s.summary, s.pageStart, s.pageEnd, s.assessor == Human, assessor)],
       sources := if s.assessor == Human && s.source in t.sources then t.sources[s.source := ContentVerified] else t.sources,
       human := if s.assessor == Human then t.human + [s] else t.human)
  }

  /** The rows of the join in load_corpus_assessments. */
  function Load(t: Tables, observations: seq<Observation>): seq<Assessment>
    decreases |observations|
  {
    if observations == [] then []
    else
      var o := observations[|observations| - 1];
      Load(t, observations[..|observations| - 1]) +
        if o.key in t.sources && o.key in t.scores then [Row(t, o)] else []
  }

  function Row(t: Tables, o: Observation): Assessment
    requires o.key in t.sources && o.key in t.scores
  {
    var s := t.scores[o.key];
    Assessment(o.key, o.provider, s.layers, s.confidence, s.conceptual, s.readiness, s.reproducibility, s.independence, t.sources[o.key])
  }

  /** The corpus the coverage gate is given. */
  function Corpus(t: Tables): seq<Assessment> {
    Load(t, t.observations)
  }

  // ------------------------------------------------------------------ the store

  class CorpusStore {
    var sources: map<Key, Verification>
    var observations: seq<Observation>
    var scores: map<Key, ScoreRow>
    var documents: map<DocumentId, Document>
    var claims: map<ClaimId, ClaimRow>
    ghost var human: seq<Submission>

    constructor ()
      ensures View() == EMPTY
    {
      sources, observations, scores, documents, claims, human := map[], [], map[], map[], map[], [];
    }

    ghost function View(): Tables
      reads this
    {
      Tables(sources, observations, scores, documents, claims, human)
    }

    method HasObservation(o: Observation) returns (found: bool)
      ensures found <==> Observed(observations, o)
    {
      var i := 0;
      while i < |observations|
        invariant 0 <= i <= |observations| && forall j :: 0 <= j < i ==> !SameObservation(observations[j], o)
      {
        if SameObservation(observations[i], o) {
          return true;
        }
        i := i + 1;
      }
      found := false;
    }

    method UpsertAssessment(run: RunId, item: Item)
      modifies this
      ensures View() == Upsert(old(View()), run, item)
    {
      var a := ClassifyItem(item);
      if a.key !in sources {
        sources := sources[a.key := a.verification];
      }
      var o := Observation(run, a.key, item.provider, item.providerId);
      var seen := HasObservation(o);
      if !seen {
        observations := observations + [o];
      }
      scores := scores[a.key := ScoresOf(a)];
    }

    method PersistRun(run: RunId, items: seq<Item>)
      modifies this
      ensures View() == UpsertAll(old(View()), run, items)
    {
      hide Upsert;
      var i := 0;
      while i < |items|
        invariant 0 <= i <= |items| && View() == UpsertAll(old(View()), run, items[..i])
      {
        assert items[..i + 1][..i] == items[..i];
        UpsertAssessment(run, items[i]);
        i := i + 1;
      }
      assert items[..i] == items;
    }

    /** A receipt is stored once per source and file; its page count never changes. */
    method PersistFulltextReceipt(uuid: DocumentId, source: Key, sha: nat, pages: nat) returns (r: Result<DocumentId, StorageError>)
      requires uuid !in documents
      modifies `documents
      ensures r.Success? <==> source in sources
      ensures r.Success? ==> r.value in documents && documents[r.value].source == source && documents[r.value].sha == sha
      ensures documents == old(documents) ||
                (r == Success(uuid) && documents == old(documents)[uuid := Document(source, sha, pages)]
                 && forall d :: d in old(documents) ==> !HasReceipt(old(View()), d, source, sha))
    {
      if source !in sources {
        return Failure(Constraint);
      }
      var rest := documents.Keys;
      while rest != {}
        invariant rest <= documents.Keys && forall d :: d in documents && d !in rest ==> !HasReceipt(View(), d, source, sha)
        decreases |rest|
      {
        var d :| d in rest;
        if documents[d].source == source && documents[d].sha == sha {
          return Success(d);
        }
        rest := rest - {d};
      }
      documents := documents[uuid := Document(source, sha, pages)];
      return Success(uuid);
    }

    method FindClaim(s: Submission) returns (id: Option<ClaimId>)
      ensures id.Some? ==> HasClaim(View(), id.value, s)
      ensures id.None? ==> forall c :: c in claims ==> !HasClaim(View(), c, s)
    {
      var rest := claims.Keys;
      while rest != {}
        invariant rest <= claims.Keys && forall c :: c in claims && c !in rest ==> !HasClaim(View(), c, s)
        decreases |rest|
      {
        var c :| c in rest;
        if claims[c].document == s.document && claims[c].summary == s.summary {
          return Some(c);
        }
        rest := rest - {c};
      }
      id := None;
    }

    /** Accepts a claim exactly when its pages lie inside a receipt of its own source. */
    method PersistReviewedClaim(uuid: ClaimId, s: Submission) returns (r: Result<ClaimId, StorageError>)
      requires s.Valid() && uuid !in claims
      modifies this
      ensures r.Success? <==> s.document in old(documents) && old(documents)[s.document].source == s.source && s.pageEnd <= old(documents)[s.document].pages
      ensures r.Success? ==>
                && r.value in claims && claims[r.value].document == s.document && claims[r.value].summary == s.summary
                && claims[r.value].pageStart == s.pageStart && claims[r.value].pageEnd == s.pageEnd
                && (claims[r.value].reviewed <==> s.assessor == Human)
      ensures r.Success? && s.assessor == Human && s.source in old(sources) ==> s.source in sources && sources[s.source] == ContentVerified
      ensures r.Failure? ==> View() == old(View())
      ensures r.Success? ==>
                && View() == WithClaim(old(View()), r.value, s)
                && (HasClaim(old(View()), r.value, s) || (r.value == uuid && forall c :: c in old(claims) ==> !HasClaim(old(View()), c, s)))
    {
      if s.document !in documents || documents[s.document].source != s.source || s.pageEnd > documents[s.document].pages {
        return Failure(ClaimNotBacked);
      }
      var existing := FindClaim(s);
      var id: ClaimId;
      if existing.Some? {
        id := existing.value;
        claims := claims[id := claims[id].(pageStart := s.pageStart, pageEnd := s.pageEnd, reviewed := s.assessor == Human)];
      } else {
        id := uuid;
        claims := claims[id := ClaimRow(s.source, s.document, s.summary, s.pageStart, s.pageEnd, s.assessor == Human, s.assessor)];
      }
      if s.assessor == Human {
        if s.source in sources {
          sources := sources[s.source := ContentVerified];
        }
        human := human + [s];
      }
      return Success(id);
    }

    method LoadCorpusAssessments() returns (rows: seq<Assessment>)
      ensures rows == Corpus(View())
    {
      rows := [];
      var i := 0;
      while i < |observations|
        invariant 0 <= i <= |observations| && rows == Load(View(), observations[..i])
      {
        assert observations[..i + 1][..i] == observations[..i];
        var o := observations[i];
        if o.key in sources && o.key in scores {
          var s := scores[o.key];
          rows := rows + [Assessment(o.key, o.provider, s.layers, s.confidence, s.conceptual, s.readiness, s.reproducibility, s.independence, sources[o.key])];
        }
        i := i + 1;
      }
      assert observations[..i] == observations;
    }
  }
}
