/** Reassembling one static PDF from HTTP byte ranges. */
module RangeReassembly {
  import opened Wrappers

  newtype byte = x: int | 0 <= x < 256

  const MAX_PDF_BYTES: nat := 25 * 1024 * 1024
  const CHUNK_BYTES: nat := 256 * 1024

  /** `bytes first-last/total`, section 14.4 of RFC 9110. */
  datatype ContentRange = ContentRange(first: nat, last: nat, total: nat)

  datatype Response =
    | TransportFailure
    | Response(sameUrl: bool, status: int, contentRange: Option<ContentRange>, body: seq<byte>, contentType: string)

  /** The answer to request number n for bytes first-last. */
  type Server = (nat, nat, nat) -> Response

  datatype Rejection = Transport | RangeIgnored | NoContentRange | Discontinuous | OutsideLimit | SizeChanged | Incomplete

  datatype Pdf = Pdf(payload: seq<byte>, contentType: string)

  function LastRequested(first: nat): nat {
    if first + CHUNK_BYTES - 1 < MAX_PDF_BYTES - 1 then first + CHUNK_BYTES - 1 else MAX_PDF_BYTES - 1
  }

  /** What is wrong with an answer, when `have` bytes are assembled and the size seen so far is
      `total`; the checks apply in this order. */
  function Check(response: Response, have: nat, total: Option<nat>): Option<Rejection> {
    match response
    case TransportFailure => Some(Transport)
    case Response(sameUrl, status, contentRange, body, _) =>
      if !sameUrl || status != 206 then Some(RangeIgnored)
      else if contentRange.None? then Some(NoContentRange)
      else
        var range := contentRange.value;
        if range.first != have || range.last < range.first then Some(Discontinuous)
        else if range.total == 0 || range.total > MAX_PDF_BYTES || range.last >= range.total then Some(OutsideLimit)
        else if total.Some? && range.total != total.value then Some(SizeChanged)
        else if |body| != range.last - range.first + 1 then Some(Incomplete)
        else None
  }

  /** Which answers are accepted: from the address asked for, partial content, a range that starts
      where the assembled part ends and lies in a document of an admissible size, the same as
      before, with a body as long as the range. */
  lemma AcceptedExactly(response: Response, have: nat, total: Option<nat>)
    ensures Check(response, have, total).None? <==>
              && response.Response? && response.sameUrl && response.status == 206 && response.contentRange.Some?
              && var range := response.contentRange.value;
                 && range.first == have <= range.last < range.total <= 25 * 1024 * 1024
                 && (total == None || total == Some(range.total)) && |response.body| == range.last + 1 - range.first
  {
  }

  /** The loop, from the state (payload, total) before request number n. */
  function Assemble(server: Server, n: nat, payload: seq<byte>, total: Option<nat>): Result<Pdf, Rejection>
    requires total.Some? ==> |payload| < total.value <= MAX_PDF_BYTES
    requires total.None? ==> payload == []
    decreases MAX_PDF_BYTES - |payload|
  {
    var response := server(n, |payload|, LastRequested(|payload|));
    var problem := Check(response, |payload|, total);
    if problem.Some? then Failure(problem.value)
    else
      var longer := payload + response.body;
      var size := response.contentRange.value.total;
      if |longer| < size then Assemble(server, n + 1, longer, Some(size))
      else Success(Pdf(longer, response.contentType))
  }

  /** How many requests the loop makes from there on. */
  function Requests(server: Server, n: nat, payload: seq<byte>, total: Option<nat>): nat
    requires total.Some? ==> |payload| < total.value <= MAX_PDF_BYTES
    requires total.None? ==> payload == []
    decreases MAX_PDF_BYTES - |payload|
  {
    var response := server(n, |payload|, LastRequested(|payload|));
    if Check(response, |payload|, total).Some? then 1
    else
      var longer := payload + response.body;
      if |longer| < response.contentRange.value.total
      then 1 + Requests(server, n + 1, longer, Some(response.contentRange.value.total))
      else 1
  }

  /** One round of the loop, as Check sees it. */
  lemma AssembleStep(server: Server, n: nat, payload: seq<byte>, total: Option<nat>)
    requires total.Some? ==> |payload| < total.value <= MAX_PDF_BYTES
    requires total.None? ==> payload == []
    ensures var response := server(n, |payload|, LastRequested(|payload|));
            var problem := Check(response, |payload|, total);
            if problem.Some? then Assemble(server, n, payload, total) == Failure(problem.value) && Requests(server, n, payload, total) == 1
            else
              var longer, size := payload + response.body, response.contentRange.value.total;
              if |longer| < size then
                && Assemble(server, n, payload, total) == Assemble(server, n + 1, longer, Some(size))
                && Requests(server, n, payload, total) == 1 + Requests(server, n + 1, longer, Some(size))
              else
                && Assemble(server, n, payload, total) == Success(Pdf(longer, response.contentType))
                && Requests(server, n, payload, total) == 1
  {
  }

  /** Increasing requests from byte 0 on; each is nonempty, at most one chunk long and within the
      size limit. */
  predicate Ascending(asked: seq<(nat, nat)>) {
    && (asked != [] ==> asked[0].0 == 0)
    && (forall i :: 0 <= i < |asked| ==> asked[i].0 <= asked[i].1 < MAX_PDF_BYTES && asked[i].1 - asked[i].0 < CHUNK_BYTES)
    && (forall i, j :: 0 <= i < j < |asked| ==> asked[i].0 < asked[j].0)
  }

  lemma AskNext(asked: seq<(nat, nat)>, start: nat)
    requires Ascending(asked) && start < MAX_PDF_BYTES
    requires if asked == [] then start == 0 else asked[|asked| - 1].0 < start
    ensures Ascending(asked + [(start, LastRequested(start))])
  {
  }

  /** The body of the loop up to the assignments: what one answer contributes, or why it is refused. */
  method ReadRange(response: Response, expectedStart: nat, totalSize: Option<nat>) returns (part: Result<seq<byte>, Rejection>)
    ensures match Check(response, expectedStart, totalSize)
            case Some(problem) => part == Failure(problem)
            case None => part == Success(response.body)
    ensures part.Success? ==>
              var range := response.contentRange.value;
              && range.first == expectedStart && range.last + 1 == expectedStart + |response.body| && response.body != []
              && range.last < range.total <= MAX_PDF_BYTES && (totalSize.Some? ==> range.total == totalSize.value)
  {
    if response.TransportFailure? {
      return Failure(Transport);
    }
    if !response.sameUrl || response.status != 206 {
      return Failure(RangeIgnored);
    }
    if response.contentRange.None? {
      return Failure(NoContentRange);
    }
    var range := response.contentRange.value;
    if range.first != expectedStart || range.last < range.first {
      return Failure(Discontinuous);
    }
    if range.total <= 0 || range.total > MAX_PDF_BYTES || range.last >= range.total {
      return Failure(OutsideLimit);
    }
    if totalSize.Some? && range.total != totalSize.value {
      return Failure(SizeChanged);
    }
    var expectedLength := range.last - range.first + 1;
    // response.read(expectedLength + 1) is one byte longer than expected when the body is.
    var read := if |response.body| <= expectedLength + 1 then response.body else response.body[..expectedLength + 1];
    if |read| != expectedLength {
      return Failure(Incomplete);
    }
    part := Success(read);
  }

  /** Fetches contiguous ranges; every one asked for is nonempty, starts where the assembled part
      ends and stays within the size limit. */
  method ReadStaticPdfRanges(server: Server) returns (result: Result<Pdf, Rejection>, asked: seq<(nat, nat)>)
    ensures result == Assemble(server, 0, [], None)
    ensures |asked| == Requests(server, 0, [], None) && asked != [] && Ascending(asked)
    ensures result.Success? ==> |asked| <= |result.value.payload| <= MAX_PDF_BYTES
  {
    var payload: seq<byte> := [];
    var expectedStart := 0;
    var totalSize: Option<nat> := None;
    var contentType := "";
    asked := [];
    assert Ascending(asked);
    hide Assemble, Requests, Ascending, Check, LastRequested;
    while totalSize.None? || expectedStart < totalSize.value
      invariant expectedStart == |payload| && |asked| <= |payload|
      invariant totalSize.Some? ==> 0 < |payload| <= totalSize.value <= MAX_PDF_BYTES && asked != []
      invariant totalSize.None? ==> payload == [] && asked == []
      invariant Assemble(server, 0, [], None) ==
                if totalSize.None? || expectedStart < totalSize.value then Assemble(server, |asked|, payload, totalSize)
                else Success(Pdf(payload, contentType))
      invariant Requests(server, 0, [], None) ==
                |asked| + if totalSize.None? || expectedStart < totalSize.value then Requests(server, |asked|, payload, totalSize) else 0
      invariant Ascending(asked) && (asked != [] ==> asked[|asked| - 1].0 < expectedStart)
      decreases MAX_PDF_BYTES - expectedStart
    {
      var expectedEnd := LastRequested(expectedStart);
      var response := server(|asked|, expectedStart, expectedEnd);
      AssembleStep(server, |asked|, payload, totalSize);
      AskNext(asked, expectedStart);
      asked := asked + [(expectedStart, expectedEnd)];
      var part := ReadRange(response, expectedStart, totalSize);
      if part.Failure? {
        return Failure(part.error), asked;
      }
      totalSize := Some(response.contentRange.value.total);
      contentType := response.contentType;
      payload := payload + part.value;
      expectedStart := response.contentRange.value.last + 1;
    }
    result := Success(Pdf(payload, contentType));
  }

  // ------------------------------------------------------------------ servers with one document

  /** Whatever the server refuses, cuts short or ignores, an answer that announces a range of the
      document and has the announced length carries those very bytes. */
  ghost predicate AnswersFrom(server: Server, doc: seq<byte>) {
    forall n: nat, first: nat, last: nat ::
      var response := server(n, first, last);
      response.Response? && response.contentRange.Some? ==>
        var range := response.contentRange.value;
        && range.total == |doc|
        && (range.first <= range.last < |doc| && |response.body| == range.last - range.first + 1 ==>
              response.body == doc[range.first..range.last + 1])
  }

  lemma {:induction false} AssembleIsExact(server: Server, doc: seq<byte>, n: nat, payload: seq<byte>, total: Option<nat>)
    requires AnswersFrom(server, doc) && payload <= doc
    requires total.Some? ==> |payload| < total.value <= MAX_PDF_BYTES
    requires total.None? ==> payload == []
    ensures var r := Assemble(server, n, payload, total);
            r.Success? ==> r.value.payload == doc && 0 < |doc| <= MAX_PDF_BYTES
    decreases MAX_PDF_BYTES - |payload|
  {
    var response := server(n, |payload|, LastRequested(|payload|));
    if Check(response, |payload|, total).None? {
      var range := response.contentRange.value;
      assert response.body == doc[range.first..range.last + 1];
      assert payload + response.body == doc[..range.last + 1];
      if |payload + response.body| < range.total {
        AssembleIsExact(server, doc, n + 1, payload + response.body, Some(range.total));
      } else {
        assert doc[..range.last + 1] == doc;
      }
    }
  }

  /** Against any server answering from one fixed document, a normal return is exactly that
      document, of the declared length and within the limit. */
  lemma NormalReturnIsTheDocument(server: Server, doc: seq<byte>)
    requires AnswersFrom(server, doc)
    ensures var r := Assemble(server, 0, [], None); r.Success? ==> r.value.payload == doc && 0 < |doc| <= MAX_PDF_BYTES
  {
    AssembleIsExact(server, doc, 0, [], None);
  }

  // ------------------------------------------------------------------ any server at all

  /** From there on, every answer the loop accepts announces the size of doc and carries the bytes
      doc has in the announced range. */
  ghost predicate AcceptsOnly(server: Server, doc: seq<byte>, n: nat, payload: seq<byte>, total: Option<nat>)
    requires total.Some? ==> |payload| < total.value <= MAX_PDF_BYTES
    requires total.None? ==> payload == []
    decreases MAX_PDF_BYTES - |payload|
  {
    var response := server(n, |payload|, LastRequested(|payload|));
    Check(response, |payload|, total).None? ==>
      var range, longer := response.contentRange.value, payload + response.body;
      && range.total == |doc| && response.body == doc[range.first..range.last + 1]
      && (|longer| < range.total ==> AcceptsOnly(server, doc, n + 1, longer, Some(range.total)))
  }

  /** What is returned extends what was assembled, to the size that was announced. */
  lemma {:induction false} AssembleExtends(server: Server, n: nat, payload: seq<byte>, total: Option<nat>)
    requires total.Some? ==> |payload| < total.value <= MAX_PDF_BYTES
    requires total.None? ==> payload == []
    ensures var r := Assemble(server, n, payload, total);
            r.Success? ==>
              && payload <= r.value.payload && (total.Some? ==> |r.value.payload| == total.value)
              && var response := server(n, |payload|, LastRequested(|payload|));
                 && Check(response, |payload|, total).None? && payload + response.body <= r.value.payload
                 && |r.value.payload| == response.contentRange.value.total
    decreases MAX_PDF_BYTES - |payload|
  {
    var response := server(n, |payload|, LastRequested(|payload|));
    if Check(response, |payload|, total).None? {
      var longer := payload + response.body;
      if |longer| < response.contentRange.value.total {
        AssembleExtends(server, n + 1, longer, Some(response.contentRange.value.total));
      }
    }
  }

  /** The content type is that of the last answer. */
  lemma {:induction false} TypeIsTheLast(server: Server, n: nat, payload: seq<byte>, total: Option<nat>) returns (first: nat, last: nat)
    requires total.Some? ==> |payload| < total.value <= MAX_PDF_BYTES
    requires total.None? ==> payload == []
    requires Assemble(server, n, payload, total).Success?
    ensures n + Requests(server, n, payload, total) >= 1
    ensures var answer := server(n + Requests(server, n, payload, total) - 1, first, last);
            answer.Response? && Assemble(server, n, payload, total).value.contentType == answer.contentType
    decreases MAX_PDF_BYTES - |payload|
  {
    first, last := |payload|, LastRequested(|payload|);
    var response := server(n, first, last);
    AssembleStep(server, n, payload, total);
    AssembleExtends(server, n, payload, total);
    var longer, size := payload + response.body, response.contentRange.value.total;
    assert 0 < size <= MAX_PDF_BYTES && |longer| > |payload|;
    hide Assemble, Requests, Check;
    if |longer| < size {
      first, last := TypeIsTheLast(server, n + 1, longer, Some(size));
    }
  }

  lemma PrefixExactly(payload: seq<byte>, part: seq<byte>, doc: seq<byte>)
    requires payload <= doc && |payload| + |part| <= |doc|
    ensures payload + part <= doc <==> part == doc[|payload|..|payload| + |part|]
  {
    assert part == (payload + part)[|payload|..];
    assert part == doc[|payload|..|payload| + |part|] ==> payload + part == doc[..|payload| + |part|];
  }

  lemma {:induction false} AssembledFrom(server: Server, doc: seq<byte>, n: nat, payload: seq<byte>, total: Option<nat>)
    requires total.Some? ==> |payload| < total.value <= MAX_PDF_BYTES
    requires total.None? ==> payload == []
    requires payload <= doc && Assemble(server, n, payload, total).Success?
    ensures Assemble(server, n, payload, total).value.payload == doc <==> AcceptsOnly(server, doc, n, payload, total)
    decreases MAX_PDF_BYTES - |payload|
  {
    AssembleExtends(server, n, payload, total);
    var response := server(n, |payload|, LastRequested(|payload|));
    var range, longer := response.contentRange.value, payload + response.body;
    if range.total == |doc| { PrefixExactly(payload, response.body, doc); }
    if longer <= doc && |longer| < range.total { AssembledFrom(server, doc, n + 1, longer, Some(range.total)); }
  }

  /** Against any server whatever, what a normal return holds is the document if and only if every
      answer the loop accepted announced its size and carried its bytes. */
  lemma ReturnsExactly(server: Server, doc: seq<byte>)
    requires Assemble(server, 0, [], None).Success?
    ensures Assemble(server, 0, [], None).value.payload == doc <==> AcceptsOnly(server, doc, 0, [], None)
  {
    AssembledFrom(server, doc, 0, [], None);
  }

  /** The failing side: without one fixed document the size check is all there is, so a server that
      changes the document between requests, keeping its length, is accepted with a mixture. */
  function Changing(before: seq<byte>, after: seq<byte>): Server {
    (n: nat, first: nat, last: nat) =>
      var doc := if n == 0 then before else after;
      if first < |doc| then Response(true, 206, Some(ContentRange(first, first, |doc|)), [doc[first]], "application/pdf")
      else TransportFailure
  }

  lemma MixtureIsReturned()
    ensures Assemble(Changing([1, 2], [3, 4]), 0, [], None) == Success(Pdf([1, 4], "application/pdf"))
  {
    var server := Changing([1, 2], [3, 4]);
    assert server(0, 0, LastRequested(0)) == Response(true, 206, Some(ContentRange(0, 0, 2)), [1], "application/pdf");
    assert server(1, 1, LastRequested(1)) == Response(true, 206, Some(ContentRange(1, 1, 2)), [4], "application/pdf");
    assert [] + [1 as byte] == [1] && [1 as byte] + [4] == [1, 4];
    assert Assemble(server, 1, [1], Some(2)) == Success(Pdf([1, 4], "application/pdf"));
  }

  lemma ChangedDocumentIsAccepted()
    ensures AnswersFrom(Changing([1, 2], [1, 2]), [1, 2]) && AnswersFrom(Changing([3, 4], [3, 4]), [3, 4])
    ensures Assemble(Changing([1, 2], [3, 4]), 0, [], None) == Success(Pdf([1, 4], "application/pdf"))
    ensures forall doc :: AcceptsOnly(Changing([1, 2], [3, 4]), doc, 0, [], None) ==> doc == [1, 4]
  {
    hide Assemble, AcceptsOnly;
    MixtureIsReturned();
    forall doc | AcceptsOnly(Changing([1, 2], [3, 4]), doc, 0, [], None) ensures doc == [1, 4] {
      ReturnsExactly(Changing([1, 2], [3, 4]), doc);
    }
  }

  // ------------------------------------------------------------------ a server that serves exactly what is asked

  /** Sections 14.1.2 and 15.3.7 of RFC 9110: the requested range, clipped to the representation;
      a range starting beyond it is unsatisfiable. */
  function Exact(doc: seq<byte>): Server {
    (n: nat, first: nat, last: nat) =>
      if first <= last && first < |doc| then
        var clipped := if last < |doc| then last else |doc| - 1;
        Response(true, 206, Some(ContentRange(first, clipped, |doc|)), doc[first..clipped + 1], "application/pdf")
      else TransportFailure
  }

  function Chunks(size: int): int {
    (size + CHUNK_BYTES - 1) / CHUNK_BYTES
  }

  lemma ChunkStep(size: int)
    requires 0 < size
    ensures Chunks(size) == if size <= CHUNK_BYTES then 1 else 1 + Chunks(size - CHUNK_BYTES)
  {
  }

  lemma {:induction false} ExactAssembles(doc: seq<byte>, n: nat, have: nat, total: Option<nat>)
    requires have < |doc| <= MAX_PDF_BYTES && total == if have == 0 then None else Some(|doc|)
    ensures Assemble(Exact(doc), n, doc[..have], total) == Success(Pdf(doc, "application/pdf"))
    ensures Requests(Exact(doc), n, doc[..have], total) == Chunks(|doc| - have)
    decreases |doc| - have
  {
    var last := LastRequested(have);
    var clipped := if last < |doc| then last else |doc| - 1;
    var response := Exact(doc)(n, have, last);
    assert response == Response(true, 206, Some(ContentRange(have, clipped, |doc|)), doc[have..clipped + 1], "application/pdf");
    assert doc[..have] + doc[have..clipped + 1] == doc[..clipped + 1];
    assert Check(response, have, total).None?;
    ChunkStep(|doc| - have);
    hide Check, Exact, Chunks;
    if clipped + 1 < |doc| {
      assert clipped == have + CHUNK_BYTES - 1;
      ExactAssembles(doc, n + 1, clipped + 1, Some(|doc|));
    } else {
      assert doc[..clipped + 1] == doc;
    }
  }

  /** Against a server that serves exactly the clipped requested range, the document comes back if
      and only if it is neither empty nor above 25 MiB; that takes ceil(size / 256 KiB) requests,
      never more than 100. */
  lemma ExactServerRoundTrip(doc: seq<byte>)
    ensures Assemble(Exact(doc), 0, [], None) == Success(Pdf(doc, "application/pdf")) <==> 0 < |doc| <= MAX_PDF_BYTES
    ensures 0 < |doc| <= MAX_PDF_BYTES ==>
              Requests(Exact(doc), 0, [], None) == Chunks(|doc|) <= 100
  {
    if 0 < |doc| <= MAX_PDF_BYTES {
      assert doc[..0] == [];
      ExactAssembles(doc, 0, 0, None);
    }
  }
}
