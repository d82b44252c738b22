/** The provider client: retries, the token cache, one refresh of a rejected token; and how long
    all of that can take. The provider is an arbitrary function from request numbers to answers. */
module GigaChatClient {
  import opened Wrappers

  // ------------------------------------------------------------------ the provider as an oracle

  /** The Retry-After header as float() reads it; infinities count as very large or small numbers. */
  datatype RetryAfter = Absent | NotANumber | Nan | Seconds(value: real)

  /** A timestamp field of the OAuth answer as `or` and float() see it. `Missing` is absent, null or
      an empty text or container; a JSON number zero is falsy too, the text "0" is not. */
  datatype Stamp = Missing | Unparsable | Nan | Number(value: real) | Text(value: real)

  /** A Unix time as a Python float; comparisons with NaN are all false. */
  datatype Expiration = NaN | At(when: real)
  {
    predicate After(bound: real) { At? && when > bound }
    predicate NotAfter(bound: real) { At? && when <= bound }
  }

  /** A decoded answer; `get` of anything but an object raises AttributeError. */
  datatype Body = NotAnObject | Body(token: Option<nat>, expiresAt: Stamp, exp: Stamp)

  datatype Answer =
    | Json(body: Body)
    | Garbled                                   // not JSON: the decoding error escapes
    | Status(code: int, retryAfter: RetryAfter) // HTTPError
    | Unreachable                               // URLError or TimeoutError

  /** What a request brought back and how long it took. */
  datatype Exchange = Exchange(answer: Answer, took: real)

  /** Request number n, sent with the given timeout. */
  type Server = (nat, real) -> Exchange

  /** Every attempt respects its timeout. */
  ghost predicate Punctual(server: Server) {
    forall n: nat, timeout: real :: 0.0 <= server(n, timeout).took && (0.0 <= timeout ==> server(n, timeout).took <= timeout)
  }

  datatype Outcome = Loaded(body: Body) | Refused(status: Option<int>) | Escaped

  /** What one call of request_json used up. */
  datatype Trip = Trip(outcome: Outcome, requests: nat, slept: real, took: real)

  predicate Retryable(code: int) {
    code == 429 || 500 <= code < 600
  }

  function Pow2(n: nat): (p: int)
    ensures p >= 1
  {
    if n == 0 then 1 else 2 * Pow2(n - 1)
  }

  function Clamp(delay: real): (d: real)
    ensures 1.0 <= d <= 30.0
  {
    var atLeast := if delay < 1.0 then 1.0 else delay;
    if 30.0 < atLeast then 30.0 else atLeast
  }

  /** Seconds before the next attempt; None: sleeping NaN seconds raises ValueError. */
  function StatusDelay(header: RetryAfter, attempt: nat): Option<real> {
    match header
    case Seconds(value) => Some(Clamp(value))
    case Nan => None
    case _ => Some(Clamp(Pow2(attempt) as real))
  }

  function NetworkDelay(attempt: nat): (d: real)
    ensures 1.0 <= d <= 30.0
  {
    if 30 < Pow2(attempt) then 30.0 else Pow2(attempt) as real
  }

  function More(slept: real, took: real, rest: Trip): Trip {
    Trip(rest.outcome, rest.requests + 1, slept + rest.slept, took + rest.took)
  }

  /** request_json from its attempt-th round on, when n requests were sent before. */
  function RequestTrip(server: Server, timeout: real, retries: int, attempt: nat, n: nat): Trip
    decreases retries - attempt
  {
    if attempt >= retries then Trip(Refused(None), 0, 0.0, 0.0)
    else
      var x := server(n, timeout);
      match x.answer
      case Json(body) => Trip(Loaded(body), 1, 0.0, x.took)
      case Garbled => Trip(Escaped, 1, 0.0, x.took)
      case Status(code, header) =>
        if Retryable(code) && attempt + 1 < retries then
          match StatusDelay(header, attempt)
          case None => Trip(Escaped, 1, 0.0, x.took)
          case Some(delay) => More(delay, x.took, RequestTrip(server, timeout, retries, attempt + 1, n + 1))
        else Trip(Refused(Some(code)), 1, 0.0, x.took)
      case Unreachable =>
        if attempt + 1 < retries
        then More(NetworkDelay(attempt), x.took, RequestTrip(server, timeout, retries, attempt + 1, n + 1))
        else Trip(Refused(None), 1, 0.0, x.took)
  }

  function AtLeast0(n: int): nat { if n < 0 then 0 else n }

  /** After which answers another request is sent, while attempts are left: the network failed, or
      the provider asked for patience (429) or reported an error of its own (500 to 599), unless the
      time it asked to wait is not a number at all. */
  lemma RetriesExactly(server: Server, timeout: real, retries: int, attempt: nat, n: nat)
    requires attempt < retries
    ensures RequestTrip(server, timeout, retries, attempt, n).requests > 1 <==>
              && attempt + 1 < retries
              && match server(n, timeout).answer
                 case Unreachable => true
                 case Status(code, header) => (code == 429 || (500 <= code && code <= 599)) && header != RetryAfter.Nan
                 case _ => false
  {
    if attempt + 1 < retries { assert RequestTrip(server, timeout, retries, attempt + 1, n + 1).requests >= 1; }
  }

  /** How long the client waits: what the header says, brought into 1 to 30 seconds; without a usable
      header, a second that doubles with every attempt until it is 30. */
  lemma WaitsExactly(header: RetryAfter, attempt: nat)
    ensures header.Seconds? && header.value <= 1.0 ==> StatusDelay(header, attempt) == Some(1.0)
    ensures header.Seconds? && 1.0 <= header.value <= 30.0 ==> StatusDelay(header, attempt) == Some(header.value)
    ensures header.Seconds? && 30.0 <= header.value ==> StatusDelay(header, attempt) == Some(30.0)
    ensures header.Absent? || header.NotANumber? ==> StatusDelay(header, attempt) == Some(NetworkDelay(attempt))
    ensures header.Nan? <==> StatusDelay(header, attempt).None?
    ensures NetworkDelay(0) == 1.0
    ensures NetworkDelay(attempt + 1) == if NetworkDelay(attempt) <= 15.0 then 2.0 * NetworkDelay(attempt) else 30.0
  {
    assert Pow2(attempt + 1) == 2 * Pow2(attempt);
  }

  lemma {:induction false} RequestsAreBounded(server: Server, timeout: real, retries: int, attempt: nat, n: nat)
    ensures RequestTrip(server, timeout, retries, attempt, n).requests <= AtLeast0(retries - attempt)
    decreases retries - attempt
  {
    hide StatusDelay, NetworkDelay;
    if attempt + 1 < retries { RequestsAreBounded(server, timeout, retries, attempt + 1, n + 1); }
  }

  /** The longest sleep of a call with so many attempts left. */
  function SleepBudget(attempts: int): real {
    30.0 * AtLeast0(attempts - 1) as real
  }

  lemma SleepOnce(attempts: int, delay: real, rest: real)
    requires 1 < attempts && 1.0 <= delay <= 30.0 && 0.0 <= rest <= SleepBudget(attempts - 1)
    ensures 0.0 <= delay + rest <= SleepBudget(attempts)
  {
    assert AtLeast0(attempts - 1) as real == AtLeast0(attempts - 2) as real + 1.0;
  }

  lemma {:induction false} SleepIsBounded(server: Server, timeout: real, retries: int, attempt: nat, n: nat)
    ensures 0.0 <= RequestTrip(server, timeout, retries, attempt, n).slept <= SleepBudget(retries - attempt)
    decreases retries - attempt
  {
    hide SleepBudget, Pow2, Clamp;
    assert SleepBudget(retries - attempt) >= 0.0 by { SleepIsPositive(retries - attempt); }
    if attempt + 1 < retries {
      SleepIsBounded(server, timeout, retries, attempt + 1, n + 1);
      var rest := RequestTrip(server, timeout, retries, attempt + 1, n + 1).slept;
      SleepOnce(retries - attempt, NetworkDelay(attempt), rest);
      match server(n, timeout).answer {
        case Status(code, header) =>
          var delay := StatusDelay(header, attempt);
          if delay.Some? { SleepOnce(retries - attempt, delay.value, rest); }
        case _ =>
      }
    }
  }

  lemma SleepIsPositive(attempts: int)
    ensures SleepBudget(attempts) >= 0.0
  {
  }

  /** The longest time so many requests can take. */
  function TimeBudget(timeout: real, requests: nat): real {
    timeout * requests as real
  }

  lemma OneMore(timeout: real, requests: nat)
    ensures TimeBudget(timeout, 0) == 0.0 && TimeBudget(timeout, 1) == timeout
    ensures TimeBudget(timeout, requests + 1) == TimeBudget(timeout, requests) + timeout
  {
    assert timeout * (requests + 1) as real == timeout * requests as real + timeout;
  }

  lemma {:induction false} TimeIsBounded(server: Server, timeout: real, retries: int, attempt: nat, n: nat)
    requires Punctual(server) && 0.0 <= timeout
    ensures var trip := RequestTrip(server, timeout, retries, attempt, n); 0.0 <= trip.took <= TimeBudget(timeout, trip.requests)
    decreases retries - attempt
  {
    hide TimeBudget, StatusDelay, NetworkDelay;
    OneMore(timeout, 0);
    if attempt < retries {
      assert 0.0 <= server(n, timeout).took <= timeout;
      if attempt + 1 < retries {
        TimeIsBounded(server, timeout, retries, attempt + 1, n + 1);
        OneMore(timeout, RequestTrip(server, timeout, retries, attempt + 1, n + 1).requests);
      }
    }
  }

  /** One request_json call sends at most `retries` requests and sleeps at most 30 seconds between
      two of them. */
  lemma RequestIsBounded(server: Server, timeout: real, retries: int, attempt: nat, n: nat)
    requires Punctual(server) && 0.0 <= timeout
    ensures var trip := RequestTrip(server, timeout, retries, attempt, n);
            && trip.requests <= AtLeast0(retries - attempt)
            && 0.0 <= trip.slept <= SleepBudget(retries - attempt)
            && 0.0 <= trip.took <= TimeBudget(timeout, trip.requests)
  {
    RequestsAreBounded(server, timeout, retries, attempt, n);
    SleepIsBounded(server, timeout, retries, attempt, n);
    TimeIsBounded(server, timeout, retries, attempt, n);
  }

  // ------------------------------------------------------------------ tokens

  datatype Lane = Primary | Freemium | Unknown

  datatype Token = Token(value: nat, expiresAt: Expiration)

  const OAUTH_TIMEOUT: real := 30.0
  const CALL_TIMEOUT: real := 120.0

  function FromEpoch(value: real): Expiration {
    At(if value > 100000000000.0 then value / 1000.0 else value)
  }

  /** normalize_expiry_timestamp. */
  function Normalize(stamp: Stamp): Expiration {
    match stamp
    case Number(value) => FromEpoch(value)
    case Text(value) => FromEpoch(value)
    case Nan => NaN
    case _ => At(0.0)
  }

  /** expires_at, or exp when the former is falsy. */
  function Expiry(body: Body): Expiration
    requires body.Body?
  {
    if body.expiresAt.Missing? || body.expiresAt == Number(0.0) then Normalize(body.exp) else Normalize(body.expiresAt)
  }

  datatype TokenResult = Bearer(token: nat) | NoToken(outcome: Outcome)

  datatype Usage = Usage(outcome: Outcome, tokens: map<Lane, Token>, requests: nat, slept: real, took: real)

  /** access_token. */
  function TokenCall(server: Server, retries: int, configured: set<Lane>, tokens: map<Lane, Token>, lane: Lane, now: real, n: nat): (TokenResult, Usage) {
    if lane in tokens && tokens[lane].expiresAt.After(now + 60.0) then
      (Bearer(tokens[lane].value), Usage(Refused(None), tokens, 0, 0.0, 0.0))
    else if lane !in configured then
      (NoToken(Refused(None)), Usage(Refused(None), tokens, 0, 0.0, 0.0))
    else
      var trip := RequestTrip(server, OAUTH_TIMEOUT, retries, 0, n);
      var used := Usage(trip.outcome, tokens, trip.requests, trip.slept, trip.took);
      if !trip.outcome.Loaded? then (NoToken(trip.outcome), used)
      else
        var body := trip.outcome.body;
        if body.NotAnObject? then (NoToken(Escaped), used)
        else if body.token.None? || Expiry(body).NotAfter(now + trip.took + trip.slept + 60.0)
        then (NoToken(Refused(None)), used)
        else (Bearer(body.token.value), used.(tokens := tokens[lane := Token(body.token.value, Expiry(body))]))
  }

  /** A token whose expiry is NaN passes the check that follows the exchange. It is returned and
      stored, but the cache never serves it: the next call fetches another one. */
  lemma NanExpiryIsReturned(server: Server, retries: int, configured: set<Lane>, tokens: map<Lane, Token>, lane: Lane, now: real, n: nat)
    requires lane in configured && !(lane in tokens && tokens[lane].expiresAt.After(now + 60.0))
    requires var outcome := RequestTrip(server, OAUTH_TIMEOUT, retries, 0, n).outcome;
             outcome.Loaded? && outcome.body.Body? && outcome.body.token.Some? && Expiry(outcome.body) == NaN
    ensures var token := RequestTrip(server, OAUTH_TIMEOUT, retries, 0, n).outcome.body.token.value;
            var (first, used) := TokenCall(server, retries, configured, tokens, lane, now, n);
            && first == Bearer(token) && used.tokens[lane] == Token(token, NaN)
            && forall later: real, m: nat ::
                 TokenCall(server, retries, configured, used.tokens, lane, later, m).1.requests
                 == RequestTrip(server, OAUTH_TIMEOUT, retries, 0, m).requests >= 1
  {
    hide StatusDelay, NetworkDelay;
  }

  // ------------------------------------------------------------------ what the provider announced

  /** The field says T: in Unix seconds, or in milliseconds, which are told by their size. */
  predicate Says(stamp: Stamp, T: real) {
    (stamp.Number? || stamp.Text?) && ((stamp.value == T && T <= 100000000000.0) || (stamp.value == 1000.0 * T && stamp.value > 100000000000.0))
  }

  /** `or` skips a field that is missing or the number zero. */
  function Asked(body: Body): Stamp
    requires body.Body?
  {
    if body.expiresAt == Missing || (body.expiresAt.Number? && body.expiresAt.value == 0.0) then body.exp else body.expiresAt
  }

  /** The answer announces that its token expires at T. */
  predicate Announces(body: Body, T: real) {
    body.Body? && Says(Asked(body), T)
  }

  /** The recorded expiry is the announced one, whether it came in seconds or in milliseconds; a
      field float() cannot read counts as the epoch. */
  lemma RecordedIsAnnounced(body: Body)
    requires body.Body?
    ensures forall T :: Announces(body, T) ==> Expiry(body) == At(T)
    ensures Expiry(body).At? ==> Announces(body, Expiry(body).when) || (Expiry(body).when == 0.0 && (Asked(body).Missing? || Asked(body).Unparsable?))
    ensures Expiry(body) == NaN <==> Asked(body) == Stamp.Nan
  {
  }

  /** The token came with an answer to one of the first n requests, and expires when that answer says. */
  ghost predicate CameWith(server: Server, m: nat, token: Token) {
    && server(m, OAUTH_TIMEOUT).answer.Json?
    && var body := server(m, OAUTH_TIMEOUT).answer.body;
       body.Body? && body.token == Some(token.value) && token.expiresAt == Expiry(body)
  }

  ghost predicate Grounded(server: Server, tokens: map<Lane, Token>, n: nat) {
    forall lane :: lane in tokens ==> exists m: nat :: m < n && CameWith(server, m, tokens[lane])
  }

  lemma {:induction false} LoadedFromServer(server: Server, timeout: real, retries: int, attempt: nat, n: nat) returns (m: nat)
    requires RequestTrip(server, timeout, retries, attempt, n).outcome.Loaded?
    ensures n <= m < n + RequestTrip(server, timeout, retries, attempt, n).requests
    ensures server(m, timeout).answer == Json(RequestTrip(server, timeout, retries, attempt, n).outcome.body)
    decreases retries - attempt
  {
    hide StatusDelay, NetworkDelay;
    if server(n, timeout).answer.Json? { m := n; } else { m := LoadedFromServer(server, timeout, retries, attempt + 1, n + 1); }
  }

  lemma GroundedLater(server: Server, tokens: map<Lane, Token>, n: nat, later: nat)
    requires Grounded(server, tokens, n) && n <= later
    ensures Grounded(server, tokens, later)
  {
    forall lane | lane in tokens ensures exists m: nat :: m < later && CameWith(server, m, tokens[lane]) {
      var m: nat :| m < n && CameWith(server, m, tokens[lane]);
      assert m < later;
    }
  }

  lemma TokenCallKeepsGrounded(server: Server, retries: int, configured: set<Lane>, tokens: map<Lane, Token>, lane: Lane, now: real, n: nat)
    requires Grounded(server, tokens, n)
    ensures var used := TokenCall(server, retries, configured, tokens, lane, now, n).1; Grounded(server, used.tokens, n + used.requests)
  {
    hide RequestTrip, Expiry;
    var used := TokenCall(server, retries, configured, tokens, lane, now, n).1;
    GroundedLater(server, tokens, n, n + used.requests);
    if used.tokens != tokens {
      var m := LoadedFromServer(server, OAUTH_TIMEOUT, retries, 0, n);
      assert CameWith(server, m, used.tokens[lane]);
    }
  }

  /** A token served from the cache is one the provider handed out, and the moment it announced for
      its expiry is still more than 60 seconds away; the others are fetched again. */
  ghost predicate InTime(server: Server, n: nat, token: nat, now: real) {
    exists m: nat, T: real :: m < n && now + 60.0 < T && CameWith(server, m, Token(token, At(T))) &&
      (Announces(server(m, OAUTH_TIMEOUT).answer.body, T) || T == 0.0)
  }

  lemma CachedIsInTime(server: Server, tokens: map<Lane, Token>, n: nat, lane: Lane, now: real)
    requires Grounded(server, tokens, n) && lane in tokens && tokens[lane].expiresAt.After(now + 60.0)
    ensures InTime(server, n, tokens[lane].value, now)
  {
    var m: nat :| m < n && CameWith(server, m, tokens[lane]);
    RecordedIsAnnounced(server(m, OAUTH_TIMEOUT).answer.body);
    hide Expiry;
    assert tokens[lane] == Token(tokens[lane].value, At(tokens[lane].expiresAt.when));
  }

  /** From 60 seconds before the announced moment on, the cache is not used any more. */
  lemma StaleTokenIsFetchedAgain(server: Server, retries: int, configured: set<Lane>, tokens: map<Lane, Token>, lane: Lane, now: real, n: nat,
                                 m: nat, T: real)
    requires lane in tokens && CameWith(server, m, tokens[lane]) && Announces(server(m, OAUTH_TIMEOUT).answer.body, T)
    requires now >= T - 60.0 && lane in configured
    ensures var (result, used) := TokenCall(server, retries, configured, tokens, lane, now, n);
            && used.requests == RequestTrip(server, OAUTH_TIMEOUT, retries, 0, n).requests
            && (retries >= 1 ==> used.requests >= 1) && (retries <= 0 ==> result.NoToken?)
  {
    RecordedIsAnnounced(server(m, OAUTH_TIMEOUT).answer.body);
    hide Expiry, Announces;
  }

  /** One round of authorized_request_json: a token, then the request itself. */
  function RoundCall(server: Server, retries: int, configured: set<Lane>, tokens: map<Lane, Token>, lane: Lane, now: real, n: nat): Usage {
    var (granted, used) := TokenCall(server, retries, configured, tokens, lane, now, n);
    match granted
    case NoToken(outcome) => used.(outcome := outcome)
    case Bearer(_) =>
      var trip := RequestTrip(server, CALL_TIMEOUT, retries, 0, n + used.requests);
      Usage(trip.outcome, used.tokens, used.requests + trip.requests, used.slept + trip.slept, used.took + trip.took)
  }

  /** Only a 401 of the request itself, not of the token exchange, is retried. */
  predicate Rejected(server: Server, retries: int, configured: set<Lane>, tokens: map<Lane, Token>, lane: Lane, now: real, n: nat) {
    && TokenCall(server, retries, configured, tokens, lane, now, n).0.Bearer?
    && RoundCall(server, retries, configured, tokens, lane, now, n).outcome == Refused(Some(401))
  }

  /** authorized_request_json: at most one refresh. */
  function AuthorizedCall(server: Server, retries: int, configured: set<Lane>, tokens: map<Lane, Token>, lane: Lane, now: real, n: nat): Usage {
    var first := RoundCall(server, retries, configured, tokens, lane, now, n);
    if !Rejected(server, retries, configured, tokens, lane, now, n) then first
    else
      var second := RoundCall(server, retries, configured, first.tokens - {lane}, lane, now + first.took + first.slept, n + first.requests);
      Usage(second.outcome, second.tokens, first.requests + second.requests, first.slept + second.slept, first.took + second.took)
  }

  lemma RoundBudget(retries: int, first: nat, second: nat)
    requires first <= AtLeast0(retries) && second <= AtLeast0(retries)
    ensures TimeBudget(OAUTH_TIMEOUT, first) + TimeBudget(CALL_TIMEOUT, second) <= 150.0 * AtLeast0(retries) as real
    ensures SleepBudget(retries) + SleepBudget(retries) == 60.0 * AtLeast0(retries - 1) as real
    ensures 0.0 <= TimeBudget(OAUTH_TIMEOUT, first) && 0.0 <= TimeBudget(CALL_TIMEOUT, second) && 0.0 <= SleepBudget(retries)
  {
  }

  lemma RoundKeepsGrounded(server: Server, retries: int, configured: set<Lane>, tokens: map<Lane, Token>, lane: Lane, now: real, n: nat)
    requires Grounded(server, tokens, n)
    ensures var used := RoundCall(server, retries, configured, tokens, lane, now, n); Grounded(server, used.tokens, n + used.requests)
  {
    hide RequestTrip, TokenCall, Grounded;
    TokenCallKeepsGrounded(server, retries, configured, tokens, lane, now, n);
    var (_, used) := TokenCall(server, retries, configured, tokens, lane, now, n);
    var after := RoundCall(server, retries, configured, tokens, lane, now, n);
    GroundedLater(server, used.tokens, n + used.requests, n + after.requests);
  }

  lemma RoundIsBounded(server: Server, retries: int, configured: set<Lane>, tokens: map<Lane, Token>, lane: Lane, now: real, n: nat)
    requires Punctual(server)
    ensures var r := RoundCall(server, retries, configured, tokens, lane, now, n);
            && r.requests <= 2 * AtLeast0(retries)
            && 0.0 <= r.slept <= 60.0 * AtLeast0(retries - 1) as real
            && 0.0 <= r.took <= 150.0 * AtLeast0(retries) as real
  {
    hide TimeBudget, SleepBudget, RequestTrip;
    RequestIsBounded(server, OAUTH_TIMEOUT, retries, 0, n);
    var (_, used) := TokenCall(server, retries, configured, tokens, lane, now, n);
    RequestIsBounded(server, CALL_TIMEOUT, retries, 0, n + used.requests);
    RoundBudget(retries, used.requests, RequestTrip(server, CALL_TIMEOUT, retries, 0, n + used.requests).requests);
    RoundBudget(retries, used.requests, 0);
    RoundBudget(retries, 0, 0);
  }

  /** Seconds one chat or embeddings call can take at most. */
  function CallBudget(retries: int): real {
    300.0 * AtLeast0(retries) as real + 120.0 * AtLeast0(retries - 1) as real
  }

  /** One call makes at most 4R requests and sleeps at most 120(R - 1) seconds, so it is over
      within 300R + 120(R - 1) seconds. */
  lemma CallIsBounded(server: Server, retries: int, configured: set<Lane>, tokens: map<Lane, Token>, lane: Lane, now: real, n: nat)
    requires Punctual(server)
    ensures var c := AuthorizedCall(server, retries, configured, tokens, lane, now, n);
            && c.requests <= 4 * AtLeast0(retries)
            && 0.0 <= c.slept <= 120.0 * AtLeast0(retries - 1) as real
            && c.took + c.slept <= CallBudget(retries)
  {
    RoundIsBounded(server, retries, configured, tokens, lane, now, n);
    var first := RoundCall(server, retries, configured, tokens, lane, now, n);
    RoundIsBounded(server, retries, configured, first.tokens - {lane}, lane, now + first.took + first.slept, n + first.requests);
  }

  // ------------------------------------------------------------------ the bound is exact

  /** Milliseconds, as the OAuth endpoint reports them; beyond the end of every call. */
  function Far(retries: int): Stamp {
    Number(1000.0 * (100000000000.0 + 1000.0 * retries as real))
  }

  /** Four exchanges of R requests each: all but the last of an exchange answer 503 with
      Retry-After 30; the last ones grant a token, reject it with 401, grant a token again and
      finally succeed. Every request takes its whole timeout. */
  function Hostile(retries: int): Server {
    (n: nat, timeout: real) =>
      Exchange(if n + 1 == 2 * retries then Status(401, Absent)
               else if n + 1 == retries || n + 1 == 3 * retries || n + 1 == 4 * retries then Json(Body(Some(n), Far(retries), Missing))
               else Status(503, Seconds(30.0)),
               if timeout < 0.0 then 0.0 else timeout)
  }

  /** Exchange number `block`, from request `attempt` of it on. */
  lemma {:induction false} HostileRequest(retries: int, timeout: real, attempt: nat, block: nat, first: nat)
    requires attempt < retries && 0.0 <= timeout && block < 4
    requires first == if block == 0 then 0 else if block == 1 then retries else if block == 2 then 2 * retries else 3 * retries
    ensures var trip := RequestTrip(Hostile(retries), timeout, retries, attempt, first + attempt);
            && trip.requests == retries - attempt
            && trip.slept == SleepBudget(retries - attempt)
            && trip.took == TimeBudget(timeout, retries - attempt)
            && trip.outcome == if block == 1 then Refused(Some(401)) else Loaded(Body(Some(first + retries - 1), Far(retries), Missing))
    decreases retries - attempt
  {
    hide TimeBudget, SleepBudget;
    var n := first + attempt;
    OneMore(timeout, retries - attempt - 1);
    SleepStep(retries - attempt);
    if attempt + 1 < retries {
      HostileRequest(retries, timeout, attempt + 1, block, first);
      assert Hostile(retries)(n, timeout) == Exchange(Status(503, Seconds(30.0)), timeout);
    } else {
      assert Hostile(retries)(n, timeout).took == timeout;
    }
  }

  lemma SleepStep(attempts: nat)
    requires 1 <= attempts
    ensures SleepBudget(attempts) == if attempts == 1 then 0.0 else SleepBudget(attempts - 1) + 30.0
  {
    assert attempts > 1 ==> AtLeast0(attempts - 1) as real == AtLeast0(attempts - 2) as real + 1.0;
  }

  lemma HostileRound(retries: int, tokens: map<Lane, Token>, now: real, again: bool)
    requires 1 <= retries && Primary !in tokens && 0.0 <= now <= 210.0 * retries as real
    ensures var n := if again then 2 * retries else 0;
            var r := RoundCall(Hostile(retries), retries, {Primary}, tokens, Primary, now, n);
            && r.requests == 2 * retries && r.slept == 60.0 * (retries - 1) as real && r.took == 150.0 * retries as real
            && (again ==> r.outcome == Loaded(Body(Some(4 * retries - 1), Far(retries), Missing)))
            && (!again ==> r.outcome == Refused(Some(401)) && Rejected(Hostile(retries), retries, {Primary}, tokens, Primary, now, n))
  {
    hide Hostile, RequestTrip;
    var first := if again then 2 * retries else 0;
    HostileRequest(retries, OAUTH_TIMEOUT, 0, if again then 2 else 0, first);
    HostileRequest(retries, CALL_TIMEOUT, 0, if again then 3 else 1, first + retries);
    var trip := RequestTrip(Hostile(retries), OAUTH_TIMEOUT, retries, 0, first + 0);
    assert Expiry(trip.outcome.body).After(now + trip.took + trip.slept + 60.0);
  }

  /** The bound is attained: some provider that respects every timeout uses all of it. */
  lemma BoundIsAttained(retries: int)
    requires 1 <= retries
    ensures Punctual(Hostile(retries))
    ensures var c := AuthorizedCall(Hostile(retries), retries, {Primary}, map[], Primary, 0.0, 0);
            c.requests == 4 * retries && c.slept == 120.0 * (retries - 1) as real && c.took + c.slept == CallBudget(retries)
  {
    HostileRound(retries, map[], 0.0, false);
    var first := RoundCall(Hostile(retries), retries, {Primary}, map[], Primary, 0.0, 0);
    HostileRound(retries, first.tokens - {Primary}, first.took + first.slept, true);
  }

  // ------------------------------------------------------------------ the client object

  /** One worker's client: its token cache and a running account of requests, sleep and time. */
  class Client {
    const server: Server
    const retries: int
    const configured: set<Lane>
    var tokens: map<Lane, Token>
    var sent: nat
    var slept: real
    var now: real

    constructor (provider: Server, attempts: int, lanes: set<Lane>, start: real)
      ensures server == provider && retries == attempts && configured == lanes
      ensures tokens == map[] && sent == 0 && slept == 0.0 && now == start && Sound()
    {
      server, retries, configured := provider, attempts, lanes;
      tokens, sent, slept, now := map[], 0, 0.0, start;
    }

    /** Every cached token came from the provider and expires when it said. */
    ghost predicate Sound()
      reads this
    {
      Grounded(server, tokens, sent)
    }

    /** Retries 429, 5xx and network failures with a bounded delay; everything else ends the call. */
    method RequestJson(timeout: real) returns (outcome: Outcome)
      modifies `sent, `slept, `now
      ensures var trip := RequestTrip(server, timeout, retries, 0, old(sent));
              && outcome == trip.outcome && sent == old(sent) + trip.requests
              && slept == old(slept) + trip.slept && now == old(now) + trip.took + trip.slept
    {
      ghost var whole := RequestTrip(server, timeout, retries, 0, sent);
      var attempt := 0;
      while attempt < retries
        invariant 0 <= attempt && sent == old(sent) + attempt
        invariant var rest := RequestTrip(server, timeout, retries, attempt, sent);
                  && whole.outcome == rest.outcome && whole.requests == attempt + rest.requests
                  && slept + rest.slept == old(slept) + whole.slept
                  && now + rest.took + rest.slept == old(now) + whole.took + whole.slept
        decreases retries - attempt
      {
        var x := server(sent, timeout);
        sent, now := sent + 1, now + x.took;
        match x.answer {
          case Json(body) => return Loaded(body);
          case Garbled => return Escaped;
          case Status(code, header) =>
            if !(Retryable(code) && attempt + 1 < retries) {
              return Refused(Some(code));
            }
            var delay := StatusDelay(header, attempt);
            if delay.None? {
              return Escaped;
            }
            slept, now := slept + delay.value, now + delay.value;
          case Unreachable =>
            if attempt + 1 >= retries {
              return Refused(None);
            }
            var delay := NetworkDelay(attempt);
            slept, now := slept + delay, now + delay;
        }
        attempt := attempt + 1;
      }
      outcome := Refused(None);
    }

    /** A cached token is handed out only while its recorded expiry is more than 60 seconds away.
        A freshly fetched one is, if and only if its expiry is not NaN; what is handed out is in
        the cache afterwards. */
    method AccessToken(lane: Lane) returns (result: TokenResult)
      modifies this
      ensures var (expected, used) := TokenCall(server, retries, configured, old(tokens), lane, old(now), old(sent));
              && result == expected && tokens == used.tokens && sent == old(sent) + used.requests
              && slept == old(slept) + used.slept && now == old(now) + used.took + used.slept
      ensures result.Bearer? ==> lane in tokens && tokens[lane].value == result.token
      ensures result.Bearer? ==> (tokens[lane].expiresAt.After(now + 60.0) <==> tokens[lane].expiresAt != NaN)
      ensures result.Bearer? && sent == old(sent) ==> tokens == old(tokens) && tokens[lane].expiresAt.After(now + 60.0)
      ensures old(Sound()) ==> Sound() && (result.Bearer? && sent == old(sent) ==> InTime(server, sent, result.token, now))
    {
      hide Grounded, InTime;
      if Sound() { TokenCallKeepsGrounded(server, retries, configured, tokens, lane, now, sent); }
      if Sound() && lane in tokens && tokens[lane].expiresAt.After(now + 60.0) { CachedIsInTime(server, tokens, sent, lane, now); }
      if lane in tokens && tokens[lane].expiresAt.After(now + 60.0) {
        return Bearer(tokens[lane].value);
      }
      if lane !in configured {
        return NoToken(Refused(None));
      }
      var outcome := RequestJson(OAUTH_TIMEOUT);
      if !outcome.Loaded? {
        return NoToken(outcome);
      }
      if outcome.body.NotAnObject? {
        return NoToken(Escaped);
      }
      if outcome.body.token.None? {
        return NoToken(Refused(None));
      }
      var expiresAt := Expiry(outcome.body);
      if expiresAt.NotAfter(now + 60.0) {
        return NoToken(Refused(None));
      }
      tokens := tokens[lane := Token(outcome.body.token.value, expiresAt)];
      return Bearer(outcome.body.token.value);
    }

    /** A token, then the request; `tried` says whether the request itself was sent. */
    method Round(lane: Lane) returns (outcome: Outcome, tried: bool)
      modifies this
      ensures var used := RoundCall(server, retries, configured, old(tokens), lane, old(now), old(sent));
              && outcome == used.outcome && tokens == used.tokens && sent == old(sent) + used.requests
              && slept == old(slept) + used.slept && now == old(now) + used.took + used.slept
      ensures tried && outcome == Refused(Some(401)) <==>
                Rejected(server, retries, configured, old(tokens), lane, old(now), old(sent))
      ensures old(Sound()) ==> Sound()
    {
      hide RequestTrip, TokenCall, Grounded, InTime;
      if Sound() { RoundKeepsGrounded(server, retries, configured, tokens, lane, now, sent); }
      var token := AccessToken(lane);
      if token.NoToken? {
        return token.outcome, false;
      }
      outcome := RequestJson(CALL_TIMEOUT);
      tried := true;
    }

    /** A 401 drops the cached token and is retried once with a new one; the whole call stays
        within the request, sleep and time bounds. */
    method AuthorizedRequestJson(lane: Lane) returns (outcome: Outcome)
      modifies this
      ensures var used := AuthorizedCall(server, retries, configured, old(tokens), lane, old(now), old(sent));
              && outcome == used.outcome && tokens == used.tokens && sent == old(sent) + used.requests
              && slept == old(slept) + used.slept && now == old(now) + used.took + used.slept
      ensures Punctual(server) ==>
                && sent <= old(sent) + 4 * AtLeast0(retries)
                && slept <= old(slept) + 120.0 * AtLeast0(retries - 1) as real
                && now <= old(now) + CallBudget(retries)
      ensures old(Sound()) ==> Sound()
    {
      hide RoundCall, Rejected, Punctual, CallBudget;
      if Punctual(server) { CallIsBounded(server, retries, configured, tokens, lane, now, sent); }
      ghost var first := RoundCall(server, retries, configured, tokens, lane, now, sent);
      var attempt := 0;
      while attempt < 2
        invariant 0 <= attempt <= 1
        invariant attempt == 0 ==> tokens == old(tokens) && sent == old(sent) && slept == old(slept) && now == old(now)
        invariant attempt == 1 ==>
                    && Rejected(server, retries, configured, old(tokens), lane, old(now), old(sent))
                    && tokens == first.tokens - {lane} && sent == old(sent) + first.requests
                    && slept == old(slept) + first.slept && now == old(now) + first.took + first.slept
        invariant old(Sound()) ==> Sound()
        decreases 2 - attempt
      {
        var tried;
        outcome, tried := Round(lane);
        if !tried || outcome != Refused(Some(401)) || attempt == 1 {
          return;
        }
        tokens := tokens - {lane};
        attempt := attempt + 1;
      }
    }
  }
}
