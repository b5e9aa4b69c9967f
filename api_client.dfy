/**
 * The client of the phrase-analytics service: the retrying request loop, the
 * poll loop that waits for an extended-keywords report, and the wrappers that
 * turn a missing response into a default value.
 *
 * The network is a parameter: `answers(a)` is what the service does on the
 * a-th attempt of a request (a reply with a status, a `Retry-After` header and
 * a JSON body, or a transport fault). Time is the integer clock of the rate
 * limiter; every `time.sleep(d)` advances it by `d`, and a request itself takes
 * no time.
 */
module KeysApi {
  import opened Common
  import opened Records
  import opened RateLimiting

  /** A field of a JSON response body. */
  datatype Field = Scalar(value: Value) | Strings(items: seq<string>) | Rows(rows: seq<Record>)

  /** A JSON object as the service returns it. */
  type Body = map<string, Field>

  /** The `Retry-After` header of a 429 reply: absent, an integer, or text `int()` cannot parse. */
  datatype RetryAfter = Absent | Seconds(n: int) | Unparsable

  /** A reply; `body` is `None` when it is not valid JSON. */
  datatype Reply = Reply(status: int, retryAfter: RetryAfter, body: Option<Body>)

  /** What the service does on one attempt. */
  datatype Outcome = Answered(reply: Reply) | TransportFault

  /** The exceptions that leave the client. */
  datatype ApiError =
    | InvalidToken              // 401
    | ServerErrorAfterRetries   // 500 on the last attempt
    | RequestFailed(status: Option<int>)  // a `RequestException` on the last attempt: the failing status, if any
    | BadRetryAfter             // `int()` or `time.sleep()` refused the `Retry-After` value
    | ReportFailed              // the report reached state 2
    | ReportTimedOut            // the report was not ready within `max_wait`

  /** What `_request` returns: the decoded body, `None`, or the exception raised. */
  datatype Fetched = Body(body: Body) | NoBody | Raised(error: ApiError)

  /** What one attempt decides: sleep and go on to the next attempt, or leave the loop. */
  datatype Verdict = Retry(pause: nat) | Finish(result: Fetched)

  /** The reaction to a `RequestException` (or a 500) at attempt `attempt` of `maxRetries`. */
  function Backoff(attempt: nat, maxRetries: int, e: ApiError): Verdict {
    if attempt < maxRetries - 1 then Retry(Pow2(attempt)) else Finish(Raised(e))
  }

  /**
   * One attempt of `_request`: the status checks in their order, then
   * `raise_for_status()` for every other 4xx/5xx status, then the JSON
   * decoding. A transport fault, an `HTTPError` of `raise_for_status()` and a
   * body that is not JSON are all `RequestException`s.
   */
  function Judge(o: Outcome, attempt: nat, maxRetries: int): Verdict {
    match o
    case TransportFault => Backoff(attempt, maxRetries, RequestFailed(None))
    case Answered(rep) =>
      if rep.status == 202 then Retry(2)
      else if rep.status == 429 then
        match rep.retryAfter
        case Absent => Retry(15)
        case Seconds(k) => if k >= 0 then Retry(k) else Finish(Raised(BadRetryAfter))
        case Unparsable => Finish(Raised(BadRetryAfter))
      else if rep.status == 401 then Finish(Raised(InvalidToken))
      else if rep.status == 404 then Finish(NoBody)
      else if rep.status == 500 then Backoff(attempt, maxRetries, ServerErrorAfterRetries)
      else if 400 <= rep.status < 600 then Backoff(attempt, maxRetries, RequestFailed(Some(rep.status)))
      else
        match rep.body
        case Some(b) => Finish(Body(b))
        case None => Backoff(attempt, maxRetries, RequestFailed(None))
  }

  /** The clock `d` seconds later; the timestamps and the deque are unchanged. */
  function Sleep(t: Trace, d: nat): Trace {
    Trace(t.stamps, t.queue, t.clock + d)
  }

  /**
   * A finished `_request`: its result, the limiter state and clock after it,
   * how many requests it sent, and the pauses it slept between attempts.
   */
  datatype Session = Session(result: Fetched, trace: Trace, attempts: nat, pauses: seq<nat>)

  /**
   * `_request` from attempt `attempt` on, with limiter state and clock `t`: wait
   * for the limiter, send, judge the outcome, and sleep before the next attempt.
   */
  function Attempts(t: Trace, answers: nat -> Outcome, attempt: nat, maxRetries: int, n: int, w: int, paused: seq<nat>): (s: Session)
    requires n >= 1
    ensures s.trace.clock >= t.clock
    ensures |s.trace.stamps| == |t.stamps| + (s.attempts - attempt)
    ensures attempt <= s.attempts <= Max(attempt, maxRetries)
    decreases maxRetries - attempt
  {
    if attempt >= maxRetries then Session(NoBody, t, attempt, paused)
    else
      var u := Step(t, t.clock, n, w);
      AdmitShape(t.queue, t.clock, n, w);
      match Judge(answers(attempt), attempt, maxRetries)
      case Retry(p) => Attempts(Sleep(u, p), answers, attempt + 1, maxRetries, n, w, paused + [p])
      case Finish(r) => Session(r, u, attempt + 1, paused)
  }

  /**
   * An attempt of `_request` that ends the loop: from trace `t` the limiter
   * moved to timestamps `h` and deque `q` and returned clock reading `stamp`,
   * and the outcome was judged final.
   */
  lemma AttemptFinishes(t: Trace, answers: nat -> Outcome, attempt: nat, maxRetries: int, n: int, w: int, paused: seq<nat>,
                        h: seq<int>, q: seq<int>, stamp: int, r: Fetched)
    requires n >= 1 && attempt < maxRetries && Judge(answers(attempt), attempt, maxRetries) == Finish(r)
    requires h == t.stamps + [stamp]
    requires q == Admit(t.queue, t.clock, n, w).queue && stamp == Admit(t.queue, t.clock, n, w).stamp
    ensures Attempts(t, answers, attempt, maxRetries, n, w, paused) == Session(r, Trace(h, q, stamp), attempt + 1, paused)
  {
  }

  /** An attempt of `_request` that sleeps `p` and goes on, the clock then reading `clock`. */
  lemma AttemptRetries(t: Trace, answers: nat -> Outcome, attempt: nat, maxRetries: int, n: int, w: int, paused: seq<nat>,
                       h: seq<int>, q: seq<int>, stamp: int, p: nat)
    requires n >= 1 && attempt < maxRetries && Judge(answers(attempt), attempt, maxRetries) == Retry(p)
    requires h == t.stamps + [stamp]
    requires q == Admit(t.queue, t.clock, n, w).queue && stamp == Admit(t.queue, t.clock, n, w).stamp
    ensures Attempts(t, answers, attempt, maxRetries, n, w, paused) ==
      Attempts(Sleep(Trace(h, q, stamp), p), answers, attempt + 1, maxRetries, n, w, paused + [p])
  {
  }

  /** Once every attempt is used, `_request` returns `None`. */
  lemma AttemptsExhausted(t: Trace, answers: nat -> Outcome, attempt: nat, maxRetries: int, n: int, w: int, paused: seq<nat>)
    requires n >= 1 && attempt >= maxRetries
    ensures Attempts(t, answers, attempt, maxRetries, n, w, paused) == Session(NoBody, t, attempt, paused)
  {
  }

  /** An attempt that the loop answers with `continue` without any backoff: a 202, or a 429 with a usable `Retry-After`. */
  predicate Pending(o: Outcome) {
    o.Answered? &&
    (o.reply.status == 202 ||
     (o.reply.status == 429 && (o.reply.retryAfter.Absent? || (o.reply.retryAfter.Seconds? && o.reply.retryAfter.n >= 0))))
  }

  /**
   * The exception an outcome leads to on the backoff path, if it takes that
   * path: a transport fault, a 500, any other 4xx/5xx status except 401, 404
   * and 429 (`raise_for_status()`), and a success whose body is not JSON.
   */
  function Fault(o: Outcome): Option<ApiError> {
    match o
    case TransportFault => Some(RequestFailed(None))
    case Answered(rep) =>
      if rep.status in {202, 429, 401, 404} then None
      else if rep.status == 500 then Some(ServerErrorAfterRetries)
      else if 400 <= rep.status < 600 then Some(RequestFailed(Some(rep.status)))
      else if rep.body.None? then Some(RequestFailed(None))
      else None
  }

  /** The pauses `2^a, ..., 2^(b-1)` of the backoff path from attempt `a` up to attempt `b`. */
  function Doublings(a: nat, b: int): seq<nat>
    decreases b - a
  {
    if a >= b then [] else [Pow2(a)] + Doublings(a + 1, b)
  }

  /** A busy outcome sleeps (2 seconds, or `Retry-After` with 15 as default) and goes on to the next attempt. */
  lemma PendingRetries(o: Outcome, attempt: nat, maxRetries: int)
    requires Pending(o)
    ensures Judge(o, attempt, maxRetries).Retry?
    ensures o.reply.status == 202 ==> Judge(o, attempt, maxRetries) == Retry(2)
    ensures o.reply.status == 429 && o.reply.retryAfter.Absent? ==> Judge(o, attempt, maxRetries) == Retry(15)
    ensures o.reply.status == 429 && o.reply.retryAfter.Seconds? ==> Judge(o, attempt, maxRetries) == Retry(o.reply.retryAfter.n)
  {
  }

  /** Every outcome on the backoff path sleeps `2^attempt` before the last attempt and raises at the last one. */
  lemma FaultBacksOff(o: Outcome, attempt: nat, maxRetries: int)
    requires Fault(o).Some?
    ensures attempt < maxRetries - 1 ==> Judge(o, attempt, maxRetries) == Retry(Pow2(attempt))
    ensures attempt >= maxRetries - 1 ==> Judge(o, attempt, maxRetries) == Finish(Raised(Fault(o).value))
  {
  }

  /**
   * When every attempt from `attempt` on is busy, the loop runs out of
   * attempts and `_request` returns `None` after sending one request per
   * attempt.
   */
  lemma {:induction false} AllPendingGivesNone(t: Trace, answers: nat -> Outcome, attempt: nat, maxRetries: int, paused: seq<nat>)
    requires forall a :: attempt <= a < maxRetries ==> Pending(answers(a))
    ensures var s := Attempts(t, answers, attempt, maxRetries, 10, 10, paused);
      s.result == NoBody && s.attempts == Max(attempt, maxRetries)
    decreases maxRetries - attempt
  {
    if attempt < maxRetries {
      PendingRetries(answers(attempt), attempt, maxRetries);
      var u := Step(t, t.clock, 10, 10);
      var p := Judge(answers(attempt), attempt, maxRetries).pause;
      AllPendingGivesNone(Sleep(u, p), answers, attempt + 1, maxRetries, paused + [p]);
    }
  }

  /**
   * The first attempt whose outcome is not retried decides the result: if
   * attempts `attempt .. k-1` are all retried and attempt `k` is final, the
   * result is that of attempt `k` and exactly `k + 1` requests have been
   * made; no request follows it.
   */
  lemma {:induction false} FirstFinalDecides(t: Trace, answers: nat -> Outcome, attempt: nat, maxRetries: int, paused: seq<nat>,
                                              k: nat, r: Fetched)
    requires attempt <= k < maxRetries
    requires forall a :: attempt <= a < k ==> Judge(answers(a), a, maxRetries).Retry?
    requires Judge(answers(k), k, maxRetries) == Finish(r)
    ensures var s := Attempts(t, answers, attempt, maxRetries, 10, 10, paused);
      s.result == r && s.attempts == k + 1
    decreases k - attempt
  {
    if attempt < k {
      var u := Step(t, t.clock, 10, 10);
      var p := Judge(answers(attempt), attempt, maxRetries).pause;
      FirstFinalDecides(Sleep(u, p), answers, attempt + 1, maxRetries, paused + [p], k, r);
    }
  }

  /** A 401 after busy attempts raises at once; a 404 returns `None`. */
  lemma UnauthorizedOrMissingStops(t: Trace, answers: nat -> Outcome, maxRetries: int, k: nat)
    requires k < maxRetries && forall a :: 0 <= a < k ==> Pending(answers(a))
    requires answers(k).Answered? && answers(k).reply.status in {401, 404}
    ensures var s := Attempts(t, answers, 0, maxRetries, 10, 10, []);
      && s.attempts == k + 1
      && s.result == (if answers(k).reply.status == 401 then Raised(InvalidToken) else NoBody)
  {
    forall a | 0 <= a < k
      ensures Judge(answers(a), a, maxRetries).Retry?
    {
      PendingRetries(answers(a), a, maxRetries);
    }
    FirstFinalDecides(t, answers, 0, maxRetries, [], k, if answers(k).reply.status == 401 then Raised(InvalidToken) else NoBody);
  }

  /**
   * When every attempt fails on the backoff path, `_request` sleeps 1, 2, 4,
   * ... between the attempts, makes every attempt, and raises the exception of
   * the last one.
   */
  lemma {:induction false} AllFaultsBackOff(t: Trace, answers: nat -> Outcome, attempt: nat, maxRetries: int, paused: seq<nat>)
    requires attempt < maxRetries
    requires forall a :: attempt <= a < maxRetries ==> Fault(answers(a)).Some?
    ensures var s := Attempts(t, answers, attempt, maxRetries, 10, 10, paused);
      && s.result == Raised(Fault(answers(maxRetries - 1)).value)
      && s.attempts == maxRetries
      && s.pauses == paused + Doublings(attempt, maxRetries - 1)
    decreases maxRetries - attempt
  {
    FaultBacksOff(answers(attempt), attempt, maxRetries);
    if attempt < maxRetries - 1 {
      var p := Pow2(attempt);
      var next := Sleep(Step(t, t.clock, 10, 10), p);
      RetryStep(t, answers, attempt, maxRetries, paused, p);
      AllFaultsBackOff(next, answers, attempt + 1, maxRetries, paused + [p]);
      ConcatAssoc(paused, [p], Doublings(attempt + 1, maxRetries - 1));
    } else {
      assert paused + Doublings(attempt, maxRetries - 1) == paused;
    }
  }

  /** One retried attempt, unfolded. */
  lemma RetryStep(t: Trace, answers: nat -> Outcome, attempt: nat, maxRetries: int, paused: seq<nat>, p: nat)
    requires attempt < maxRetries && Judge(answers(attempt), attempt, maxRetries) == Retry(p)
    ensures Attempts(t, answers, attempt, maxRetries, 10, 10, paused) ==
      Attempts(Sleep(Step(t, t.clock, 10, 10), p), answers, attempt + 1, maxRetries, 10, 10, paused + [p])
  {
  }

  lemma ConcatAssoc(a: seq<nat>, b: seq<nat>, c: seq<nat>)
    ensures a + b + c == a + (b + c)
  {
  }

  /** `_request` started from trace `t` with the default three attempts and the client's 10-in-10 limiter. */
  function Call(t: Trace, answers: nat -> Outcome): Session {
    Attempts(t, answers, 0, 3, 10, 10, [])
  }

  /** Python truthiness of a decoded response: a non-empty object. */
  predicate Answered(f: Fetched) {
    f.Body? && f.body != map[]
  }

  /** `response.get(key, [])` for a list of strings; a field of another JSON type reads as `[]`. */
  function KeysField(b: Body, key: string): seq<string> {
    if key in b && b[key].Strings? then b[key].items else []
  }

  /**
   * `response.get("keys", []) if response else default`, the exception of
   * `_request` passed on: `suggest` uses the default `[]`, `delete_doubles`
   * the list it sent.
   */
  function KeysOr(f: Fetched, default: seq<string>): (r: Result<seq<string>, ApiError>)
    ensures f.Raised? <==> r.Err?
    ensures f.Raised? ==> r.error == f.error
    ensures r.Ok? && !Answered(f) ==> r.value == default
    ensures Answered(f) && "keys" in f.body && f.body["keys"].Strings? ==> r == Ok(f.body["keys"].items)
    ensures Answered(f) && "keys" !in f.body ==> r == Ok([])
  {
    match f
    case Raised(e) => Err(e)
    case NoBody => Ok(default)
    case Body(b) => Ok(if b != map[] then KeysField(b, "keys") else default)
  }

  /**
   * `create_extended_keywords`: `response.get("uid") if response else None`,
   * with `None` as `Null`. A scalar `uid` of any JSON type is returned as it
   * is; a `uid` that is a list reads as `Null`.
   */
  function CreatedUid(f: Fetched): (r: Result<Value, ApiError>)
    ensures f.Raised? <==> r.Err?
    ensures f.Raised? ==> r.error == f.error
    ensures !f.Raised? && !Answered(f) ==> r == Ok(Null)
    ensures Answered(f) && "uid" !in f.body ==> r == Ok(Null)
    ensures Answered(f) && "uid" in f.body && f.body["uid"].Scalar? ==> r == Ok(f.body["uid"].value)
    ensures r.Ok? && r.value != Null ==> Answered(f) && "uid" in f.body && f.body["uid"] == Scalar(r.value)
  {
    match f
    case Raised(e) => Err(e)
    case NoBody => Ok(Null)
    case Body(b) =>
      if b != map[] && "uid" in b && b["uid"].Scalar? then Ok(b["uid"].value) else Ok(Null)
  }

  /** The answer `check_extended_keywords_state` substitutes for a missing one. */
  const NoState: Body := map["state" := Scalar(Int(0)), "progress" := Scalar(Int(0))]

  /** The answer `get_extended_keywords` substitutes for a missing one. */
  const NoPage: Body := map["data" := Rows([]), "total" := Scalar(Int(0))]

  /** `response if response else default`, the exception of `_request` passed on. */
  function BodyOr(f: Fetched, default: Body): (r: Result<Body, ApiError>)
    ensures f.Raised? <==> r.Err?
    ensures f.Raised? ==> r.error == f.error
    ensures Answered(f) ==> r == Ok(f.body)
    ensures (f.NoBody? || (f.Body? && f.body == map[])) ==> r == Ok(default)
  {
    match f
    case Raised(e) => Err(e)
    case NoBody => Ok(default)
    case Body(b) => Ok(if b != map[] then b else default)
  }

  /** The query string of `get_extended_keywords`: `filter` is sent only when the filter text is not empty. */
  function PageParams(page: int, perPage: int, filters: string, sort: string): (m: map<string, Value>)
    ensures m.Keys == {"page", "per_page", "sort"} + (if filters != "" then {"filter"} else {})
    ensures m["page"] == Int(page) && m["per_page"] == Int(perPage) && m["sort"] == Str(sort)
    ensures filters != "" ==> m["filter"] == Str(filters)
  {
    var params := map["page" := Int(page), "per_page" := Int(perPage), "sort" := Str(sort)];
    if filters != "" then params["filter" := Str(filters)] else params
  }

  /** `state.get("state") == k`. */
  predicate StateIs(b: Body, k: int) {
    "state" in b && b["state"].Scalar? && NumEquals(b["state"].value, k)
  }

  /** A missing state answer reads as state 0: neither ready nor failed. */
  lemma NoStateIsPending()
    ensures !StateIs(NoState, 10) && !StateIs(NoState, 2)
  {
  }

  /** What `wait_for_extended_keywords` ends with, the trace when it does, and how many polls it made. */
  datatype Waited = Waited(result: Result<bool, ApiError>, trace: Trace, polls: nat)

  /**
   * `wait_for_extended_keywords` from trace `t`, started at clock reading
   * `start`, with `polls(k)` the service's answers to the k-th state request:
   * poll while less than `maxWait` seconds have passed, return on state 10,
   * raise on state 2, else sleep 3 seconds.
   */
  function Polling(t: Trace, start: int, maxWait: int, polls: nat -> nat -> Outcome, k: nat): (w: Waited)
    ensures w.result != Ok(false)
    ensures w.polls >= k && w.trace.clock >= t.clock
    decreases start + maxWait - t.clock
  {
    if t.clock - start >= maxWait then Waited(Err(ReportTimedOut), t, k)
    else
      var s := Call(t, polls(k));
      match BodyOr(s.result, NoState)
      case Err(e) => Waited(Err(e), s.trace, k + 1)
      case Ok(state) =>
        if StateIs(state, 10) then Waited(Ok(true), s.trace, k + 1)
        else if StateIs(state, 2) then Waited(Err(ReportFailed), s.trace, k + 1)
        else Polling(Sleep(s.trace, 3), start, maxWait, polls, k + 1)
  }

  /**
   * Each poll after the first came at least 3 seconds after the one before,
   * and every poll started before `maxWait` seconds had passed: so at most
   * `maxWait / 3 + 1` polls, and none when the time is already up.
   */
  lemma {:induction false} PollsBounded(t: Trace, start: int, maxWait: int, polls: nat -> nat -> Outcome, k: nat)
    ensures var w := Polling(t, start, maxWait, polls, k);
      && (w.polls == k <==> t.clock - start >= maxWait)
      && (w.polls > k ==> 3 * (w.polls - k - 1) < start + maxWait - t.clock)
    decreases start + maxWait - t.clock
  {
    if t.clock - start < maxWait {
      var s := Call(t, polls(k));
      var r := BodyOr(s.result, NoState);
      if r.Ok? && !StateIs(r.value, 10) && !StateIs(r.value, 2) {
        var t' := Sleep(s.trace, 3);
        assert Polling(t, start, maxWait, polls, k) == Polling(t', start, maxWait, polls, k + 1);
        PollsBounded(t', start, maxWait, polls, k + 1);
      }
    }
  }

  /** A service that answers 202 to every attempt of every poll makes the wait time out. */
  lemma {:induction false} AlwaysProcessingTimesOut(t: Trace, start: int, maxWait: int, polls: nat -> nat -> Outcome, k: nat)
    requires forall j, a :: j >= k ==> Pending(polls(j)(a))
    ensures Polling(t, start, maxWait, polls, k).result == Err(ReportTimedOut)
    decreases start + maxWait - t.clock
  {
    if t.clock - start < maxWait {
      var s := Call(t, polls(k));
      AllPendingGivesNone(t, polls(k), 0, 3, []);
      NoStateIsPending();
      AlwaysProcessingTimesOut(Sleep(s.trace, 3), start, maxWait, polls, k + 1);
    }
  }

  /** A state answer, with the default for a missing one, that is neither ready (10) nor failed (2). */
  predicate InProgress(r: Result<Body, ApiError>) {
    r.Ok? && !StateIs(r.value, 10) && !StateIs(r.value, 2)
  }

  /** From poll `k` on, whatever the limiter's state, no state request is answered with state 10. */
  ghost predicate NeverReady(polls: nat -> nat -> Outcome, k: nat) {
    forall j, t' :: j >= k ==>
      var r := BodyOr(Call(t', polls(j)).result, NoState); r.Ok? ==> !StateIs(r.value, 10)
  }

  /** From poll `k` on, every state request is answered with a state that is still in progress. */
  ghost predicate StaysInProgress(polls: nat -> nat -> Outcome, k: nat) {
    forall j, t' :: j >= k ==> InProgress(BodyOr(Call(t', polls(j)).result, NoState))
  }

  /** The wait returns `True` only after some poll reported state 10. */
  lemma {:induction false} NeverReadyNeverTrue(t: Trace, start: int, maxWait: int, polls: nat -> nat -> Outcome, k: nat)
    requires NeverReady(polls, k)
    ensures Polling(t, start, maxWait, polls, k).result != Ok(true)
    decreases start + maxWait - t.clock
  {
    if t.clock - start < maxWait {
      var s := Call(t, polls(k));
      var r := BodyOr(s.result, NoState);
      if InProgress(r) {
        var t' := Sleep(s.trace, 3);
        assert Polling(t, start, maxWait, polls, k) == Polling(t', start, maxWait, polls, k + 1);
        NeverReadyNeverTrue(t', start, maxWait, polls, k + 1);
      }
    }
  }

  /** A job that answers every poll with an in-progress state (say `{"state": 5}`) makes the wait time out. */
  lemma {:induction false} StaysInProgressTimesOut(t: Trace, start: int, maxWait: int, polls: nat -> nat -> Outcome, k: nat)
    requires StaysInProgress(polls, k)
    ensures Polling(t, start, maxWait, polls, k).result == Err(ReportTimedOut)
    decreases start + maxWait - t.clock
  {
    if t.clock - start < maxWait {
      var s := Call(t, polls(k));
      assert InProgress(BodyOr(s.result, NoState));
      var t' := Sleep(s.trace, 3);
      assert Polling(t, start, maxWait, polls, k) == Polling(t', start, maxWait, polls, k + 1);
      StaysInProgressTimesOut(t', start, maxWait, polls, k + 1);
    }
  }

  /** `results[region] = suggested` when `suggested` is not empty. */
  function Noted(found: map<int, seq<string>>, region: int, keys: seq<string>): map<int, seq<string>> {
    if keys != [] then found[region := keys] else found
  }

  /** What `suggest_multi_region` ends with and the trace when it does. */
  datatype Gathered = Gathered(result: Result<map<int, seq<string>>, ApiError>, trace: Trace)

  /**
   * The loop of `suggest_multi_region` from region `i` on, `found` holding the
   * regions so far: `suggest` for the region (with `answers(i)` the service's
   * answers), recorded only when the list is not empty.
   */
  function Regions(t: Trace, regions: seq<int>, answers: nat -> nat -> Outcome, i: nat, found: map<int, seq<string>>): (g: Gathered)
    requires i <= |regions|
    decreases |regions| - i
  {
    if i == |regions| then Gathered(Ok(found), t)
    else
      var s := Call(t, answers(i));
      match KeysOr(s.result, [])
      case Err(e) => Gathered(Err(e), s.trace)
      case Ok(keys) => Regions(s.trace, regions, answers, i + 1, Noted(found, regions[i], keys))
  }

  /** Every region recorded has a non-empty list and is one of the regions asked for. */
  lemma {:induction false} RegionsFoundNonEmpty(t: Trace, regions: seq<int>, answers: nat -> nat -> Outcome, i: nat, found: map<int, seq<string>>)
    requires i <= |regions|
    requires forall k :: k in found ==> found[k] != [] && k in regions
    ensures var g := Regions(t, regions, answers, i, found);
      g.result.Ok? ==> forall k :: k in g.result.value ==> g.result.value[k] != [] && k in regions
    decreases |regions| - i
  {
    if i < |regions| {
      var s := Call(t, answers(i));
      if KeysOr(s.result, []).Ok? {
        RegionsFoundNonEmpty(s.trace, regions, answers, i + 1, Noted(found, regions[i], KeysOr(s.result, []).value));
      }
    }
  }

  /** A region once recorded keeps a non-empty list: a later empty answer for the same region does not remove it. */
  lemma {:induction false} RegionsKeepFound(t: Trace, regions: seq<int>, answers: nat -> nat -> Outcome, i: nat, found: map<int, seq<string>>)
    requires i <= |regions|
    ensures var g := Regions(t, regions, answers, i, found);
      g.result.Ok? ==> found.Keys <= g.result.value.Keys
    decreases |regions| - i
  {
    if i < |regions| {
      var s := Call(t, answers(i));
      if KeysOr(s.result, []).Ok? {
        RegionsKeepFound(s.trace, regions, answers, i + 1, Noted(found, regions[i], KeysOr(s.result, []).value));
      }
    }
  }

  /** One region of the loop whose `suggest` raised. */
  lemma RegionRaises(t: Trace, regions: seq<int>, answers: nat -> nat -> Outcome, i: nat, found: map<int, seq<string>>,
                     s: Session, e: ApiError)
    requires i < |regions| && s == Call(t, answers(i)) && KeysOr(s.result, []) == Err(e)
    ensures Regions(t, regions, answers, i, found) == Gathered(Err(e), s.trace)
  {
  }

  /** One region of the loop whose `suggest` returned `keys`. */
  lemma RegionAnswers(t: Trace, regions: seq<int>, answers: nat -> nat -> Outcome, i: nat, found: map<int, seq<string>>,
                      s: Session, keys: seq<string>)
    requires i < |regions| && s == Call(t, answers(i)) && KeysOr(s.result, []) == Ok(keys)
    ensures Regions(t, regions, answers, i, found) == Regions(s.trace, regions, answers, i + 1, Noted(found, regions[i], keys))
  {
  }

  /** One poll that ends the wait: the request raised, or the state is 10 or 2. */
  lemma PollEnds(t: Trace, start: int, maxWait: int, polls: nat -> nat -> Outcome, k: nat, s: Session, r: Result<bool, ApiError>)
    requires t.clock - start < maxWait && s == Call(t, polls(k))
    requires var state := BodyOr(s.result, NoState);
      || (state.Err? && r == Err(state.error))
      || (state.Ok? && StateIs(state.value, 10) && r == Ok(true))
      || (state.Ok? && !StateIs(state.value, 10) && StateIs(state.value, 2) && r == Err(ReportFailed))
    ensures Polling(t, start, maxWait, polls, k) == Waited(r, s.trace, k + 1)
  {
  }

  /** One poll that finds the report still in progress. */
  lemma PollGoesOn(t: Trace, start: int, maxWait: int, polls: nat -> nat -> Outcome, k: nat, s: Session)
    requires t.clock - start < maxWait && s == Call(t, polls(k))
    requires var state := BodyOr(s.result, NoState);
      state.Ok? && !StateIs(state.value, 10) && !StateIs(state.value, 2)
    ensures Polling(t, start, maxWait, polls, k) == Polling(Sleep(s.trace, 3), start, maxWait, polls, k + 1)
  {
  }

  class KeysApiClient {
    const apiToken: string
    const limiter: RateLimiter

    /** The limiter the client shares between its requests: 10 requests in any 10 seconds. */
    ghost predicate Valid()
      reads this, limiter
    {
      limiter.Valid() && limiter.maxRequests == 10 && limiter.timeWindow == 10
    }

    /** The limiter's timestamps and deque, with the clock reading `now`. */
    ghost function State(now: int): Trace
      reads limiter
    {
      Trace(limiter.history, limiter.requests, now)
    }

    constructor (apiToken: string)
      ensures Valid() && this.apiToken == apiToken
      ensures fresh(limiter) && limiter.requests == [] && limiter.history == []
    {
      this.apiToken := apiToken;
      limiter := new RateLimiter(10, 10);
    }

    /**
     * `_request(...)` started at clock reading `now`, the service answering
     * attempt `a` with `answers(a)`; returns the result and the clock reading
     * when it returns or raises.
     */
    method Request(now: int, answers: nat -> Outcome, maxRetries: int := 3) returns (r: Fetched, clock: int)
      requires Valid() && limiter.ClockNotBehind(now)
      modifies limiter
      ensures Valid() && limiter.ClockNotBehind(clock)
      ensures r == Attempts(old(State(now)), answers, 0, maxRetries, 10, 10, []).result
      ensures State(clock) == Attempts(old(State(now)), answers, 0, maxRetries, 10, 10, []).trace
    {
      ghost var goal := Attempts(State(now), answers, 0, maxRetries, 10, 10, []);
      clock := now;
      var attempt: nat := 0;
      ghost var paused: seq<nat> := [];
      while attempt < maxRetries
        invariant Valid() && limiter.ClockNotBehind(clock)
        invariant goal == Attempts(State(clock), answers, attempt, maxRetries, 10, 10, paused)
        decreases maxRetries - attempt
      {
        var verdict, after := Attempt(answers, attempt, maxRetries, clock, paused, State(clock));
        clock := after;
        if verdict.Finish? {
          r := verdict.result;
          return;
        }
        paused := paused + [verdict.pause];
        attempt := attempt + 1;
      }
      r := NoBody;
      AttemptsExhausted(State(clock), answers, attempt, maxRetries, 10, 10, paused);
    }

    /** `suggest(keywords, region)`: no request at all without a token. */
    method Suggest(keywords: seq<string>, region: int, now: int, answers: nat -> Outcome)
      returns (r: Result<seq<string>, ApiError>, clock: int)
      requires Valid() && limiter.ClockNotBehind(now)
      modifies limiter
      ensures Valid() && limiter.ClockNotBehind(clock)
      ensures apiToken == "" ==> r == Ok([]) && clock == now && State(clock) == old(State(now))
      ensures apiToken != "" ==> r == KeysOr(Call(old(State(now)), answers).result, [])
      ensures apiToken != "" ==> State(clock) == Call(old(State(now)), answers).trace
    {
      if apiToken == "" {
        return Ok([]), now;
      }
      var res;
      res, clock := Request(now, answers);
      r := KeysOr(res, []);
    }

    /** `suggest_multi_region(keywords, regions)`, `answers(i)` being the service's answers for the i-th region. */
    method SuggestMultiRegion(keywords: seq<string>, regions: seq<int>, now: int, answers: nat -> nat -> Outcome)
      returns (r: Result<map<int, seq<string>>, ApiError>, clock: int)
      requires Valid() && limiter.ClockNotBehind(now)
      modifies limiter
      ensures Valid() && limiter.ClockNotBehind(clock)
      ensures apiToken == "" ==> r == Ok(map[]) && clock == now && State(clock) == old(State(now))
      ensures apiToken != "" ==> r == Regions(old(State(now)), regions, answers, 0, map[]).result
      ensures apiToken != "" ==> State(clock) == Regions(old(State(now)), regions, answers, 0, map[]).trace
    {
      if apiToken == "" {
        return Ok(map[]), now;
      }
      ghost var init := State(now);
      var found: map<int, seq<string>> := map[];
      clock := now;
      var i := 0;
      while i < |regions|
        invariant 0 <= i <= |regions|
        invariant Valid() && limiter.ClockNotBehind(clock)
        invariant Regions(init, regions, answers, 0, map[]) == Regions(State(clock), regions, answers, i, found)
      {
        ghost var before := State(clock);
        var keys;
        keys, clock := Suggest(keywords, regions[i], clock, answers(i));
        ghost var s := Call(before, answers(i));
        if keys.Err? {
          RegionRaises(before, regions, answers, i, found, s, keys.error);
          return Err(keys.error), clock;
        }
        RegionAnswers(before, regions, answers, i, found, s, keys.value);
        found := Noted(found, regions[i], keys.value);
        i := i + 1;
      }
      r := Ok(found);
    }

    /** `create_extended_keywords(base, keywords, ...)`: the job's uid, `Null` if the service gave none. */
    method CreateExtendedKeywords(base: string, keywords: seq<string>, now: int, answers: nat -> Outcome,
                                  similarity: int := 30, deleteDuplicate: bool := true, additions: bool := true)
      returns (r: Result<Value, ApiError>, clock: int)
      requires Valid() && limiter.ClockNotBehind(now)
      modifies limiter
      ensures Valid() && limiter.ClockNotBehind(clock)
      ensures r == CreatedUid(Call(old(State(now)), answers).result)
      ensures State(clock) == Call(old(State(now)), answers).trace
    {
      var res;
      res, clock := Request(now, answers);
      r := CreatedUid(res);
    }

    /** `check_extended_keywords_state(uid)`. */
    method CheckExtendedKeywordsState(uid: string, now: int, answers: nat -> Outcome)
      returns (r: Result<Body, ApiError>, clock: int)
      requires Valid() && limiter.ClockNotBehind(now)
      modifies limiter
      ensures Valid() && limiter.ClockNotBehind(clock)
      ensures r == BodyOr(Call(old(State(now)), answers).result, NoState)
      ensures State(clock) == Call(old(State(now)), answers).trace
    {
      var res;
      res, clock := Request(now, answers);
      r := BodyOr(res, NoState);
    }

    /** `get_extended_keywords(uid, page, per_page, filters, sort)`; `params` is the query string it sends. */
    method GetExtendedKeywords(uid: string, now: int, answers: nat -> Outcome,
                               page: int := 1, perPage: int := 100, filters: string := "", sort: string := "wsk|asc")
      returns (r: Result<Body, ApiError>, clock: int, params: map<string, Value>)
      requires Valid() && limiter.ClockNotBehind(now)
      modifies limiter
      ensures Valid() && limiter.ClockNotBehind(clock)
      ensures params == PageParams(page, perPage, filters, sort)
      ensures r == BodyOr(Call(old(State(now)), answers).result, NoPage)
      ensures State(clock) == Call(old(State(now)), answers).trace
    {
      params := map["page" := Int(page), "per_page" := Int(perPage), "sort" := Str(sort)];
      if filters != "" {
        params := params["filter" := Str(filters)];
      }
      var res;
      res, clock := Request(now, answers);
      r := BodyOr(res, NoPage);
    }

    /**
     * `wait_for_extended_keywords(uid, max_wait)` started at clock reading
     * `now`, `polls(k)` being the service's answers to the k-th state request.
     */
    method WaitForExtendedKeywords(uid: string, now: int, polls: nat -> nat -> Outcome, maxWait: int := 60)
      returns (r: Result<bool, ApiError>, clock: int)
      requires Valid() && limiter.ClockNotBehind(now)
      modifies limiter
      ensures Valid() && limiter.ClockNotBehind(clock)
      ensures r == Polling(old(State(now)), now, maxWait, polls, 0).result
      ensures State(clock) == Polling(old(State(now)), now, maxWait, polls, 0).trace
    {
      ghost var init := State(now);
      var start := now;
      clock := now;
      var k: nat := 0;
      while clock - start < maxWait
        invariant Valid() && limiter.ClockNotBehind(clock)
        invariant Polling(init, start, maxWait, polls, 0) == Polling(State(clock), start, maxWait, polls, k)
        decreases start + maxWait - clock
      {
        ghost var before := State(clock);
        var state;
        state, clock := CheckExtendedKeywordsState(uid, clock, polls(k));
        ghost var s := Call(before, polls(k));
        if state.Err? {
          r := Err(state.error);
          PollEnds(before, start, maxWait, polls, k, s, r);
          return;
        }
        if StateIs(state.value, 10) {
          r := Ok(true);
          PollEnds(before, start, maxWait, polls, k, s, r);
          return;
        }
        if StateIs(state.value, 2) {
          r := Err(ReportFailed);
          PollEnds(before, start, maxWait, polls, k, s, r);
          return;
        }
        PollGoesOn(before, start, maxWait, polls, k, s);
        clock := clock + 3;
        assert State(clock) == Sleep(s.trace, 3);
        k := k + 1;
      }
      r := Err(ReportTimedOut);
    }

    /** `delete_doubles(keywords)`: the list sent back when the service gives no answer. */
    method DeleteDoubles(keywords: seq<string>, now: int, answers: nat -> Outcome)
      returns (r: Result<seq<string>, ApiError>, clock: int)
      requires Valid() && limiter.ClockNotBehind(now)
      modifies limiter
      ensures Valid() && limiter.ClockNotBehind(clock)
      ensures r == KeysOr(Call(old(State(now)), answers).result, keywords)
      ensures State(clock) == Call(old(State(now)), answers).trace
    {
      var res;
      res, clock := Request(now, answers);
      r := KeysOr(res, keywords);
    }

    /** One pass of the `for attempt` loop: `wait_if_needed()`, send, judge the outcome and, before a retry, sleep; `after` is the clock reading at its end. */
    method Attempt(answers: nat -> Outcome, attempt: nat, maxRetries: int, clock: int, ghost paused: seq<nat>, ghost before: Trace)
      returns (verdict: Verdict, after: int)
      requires Valid() && limiter.ClockNotBehind(clock) && attempt < maxRetries
      requires before == State(clock)
      modifies limiter
      ensures Valid() && limiter.ClockNotBehind(after)
      ensures verdict == Judge(answers(attempt), attempt, maxRetries)
      ensures verdict.Finish? ==>
        Attempts(before, answers, attempt, maxRetries, 10, 10, paused) == Session(verdict.result, State(after), attempt + 1, paused)
      ensures verdict.Retry? ==>
        Attempts(before, answers, attempt, maxRetries, 10, 10, paused) ==
        Attempts(State(after), answers, attempt + 1, maxRetries, 10, 10, paused + [verdict.pause])
    {
      var stamp := limiter.WaitIfNeeded(clock);
      ghost var h, q := limiter.history, limiter.requests;
      verdict := Judge(answers(attempt), attempt, maxRetries);
      match verdict
      case Finish(res) =>
        AttemptFinishes(before, answers, attempt, maxRetries, 10, 10, paused, h, q, stamp, res);
        after := stamp;
      case Retry(p) =>
        AttemptRetries(before, answers, attempt, maxRetries, 10, 10, paused, h, q, stamp, p);
        after := stamp + p;
        assert State(after) == Sleep(Trace(h, q, stamp), p);
    }
  }
}
