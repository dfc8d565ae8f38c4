/**
 The parameter store client and its retry loop (internal/magiclink/store.go), with everything the
 program does not control - replies, cancellation, random draws, timer races - given by a `World`.
 A write may take effect and still report an error.
 */
module MagicLinkStore {
  import opened Options
  import opened Config
  import opened Backoff

  const RETRY_ATTEMPTS: nat := 3

  datatype Fault =
    | AccessDenied | ParameterNotFound | ValidationFailed | InvalidKeyId | MaxVersionLimit
    | Canceled          // the context's error
    | Other             // anything else: throttling, timeouts, HTTP failures, own error texts

  /** Go error values: leaves, the sentinel ErrTokenRotated, `fmt.Errorf("%w")` and `errors.Join`. */
  datatype Err = Fault(fault: Fault) | TokenRotated | Wrapped(inner: Err) | Joined(first: Err, second: Err)

  /** `errors.As` for a fault: it is somewhere in the tree. */
  predicate HasFault(e: Err, fault: Fault) {
    match e
    case Fault(f) => f == fault
    case TokenRotated => false
    case Wrapped(inner) => HasFault(inner, fault)
    case Joined(first, second) => HasFault(first, fault) || HasFault(second, fault)
  }

  /** `errors.Is(e, ErrTokenRotated)`. */
  predicate IsTokenRotated(e: Err) {
    match e
    case Fault(_) => false
    case TokenRotated => true
    case Wrapped(inner) => IsTokenRotated(inner)
    case Joined(first, second) => IsTokenRotated(first) || IsTokenRotated(second)
  }

  /** Errors of other packages: the sentinel is this program's own. */
  type ForeignErr = e: Err | !IsTokenRotated(e) witness Fault(Other)

  predicate IsRetryable(e: Err) {
    !(HasFault(e, AccessDenied) || HasFault(e, ParameterNotFound) || HasFault(e, ValidationFailed)
      || HasFault(e, InvalidKeyId) || HasFault(e, MaxVersionLimit))
  }

  /** The leaves of an error tree, which errors.As and errors.Is search. */
  function Leaves(e: Err): set<Err> {
    match e
    case Fault(_) => {e}
    case TokenRotated => {e}
    case Wrapped(inner) => Leaves(inner)
    case Joined(first, second) => Leaves(first) + Leaves(second)
  }

  lemma {:induction false} TreeSearch(e: Err, fault: Fault)
    ensures HasFault(e, fault) <==> Fault(fault) in Leaves(e)
    ensures IsTokenRotated(e) <==> TokenRotated in Leaves(e)
  {
    match e
    case Wrapped(inner) => TreeSearch(inner, fault);
    case Joined(first, second) =>
      TreeSearch(first, fault);
      TreeSearch(second, fault);
    case _ =>
  }

  /** An error is retried unless the tree holds one of the five permanent faults. */
  lemma RetryableMeans(e: Err)
    ensures IsRetryable(e) <==>
      forall leaf | leaf in Leaves(e) ::
        leaf.Fault? ==>
          leaf.fault !in {AccessDenied, ParameterNotFound, ValidationFailed, InvalidKeyId, MaxVersionLimit}
  {
    TreeSearch(e, AccessDenied);
    TreeSearch(e, ParameterNotFound);
    TreeSearch(e, ValidationFailed);
    TreeSearch(e, InvalidKeyId);
    TreeSearch(e, MaxVersionLimit);
  }

  /** What the i-th request meets. `shape` is how much of a successful GetParameter answer is present. */
  datatype Shape = NoParameter | NoValue | Full
  datatype Reply = Reply(error: Option<ForeignErr>, tookEffect: bool, shape: Shape)

  /**
   `done(t)` says whether the context is cancelled at observation point `t`; request i starts at point
   3i, its error is followed by the check at 3i+1, and the backoff wait after it ends at 3i+2.
   */
  datatype World = World(reply: nat -> Reply, done: nat -> bool, draw: nat -> int, timerWins: nat -> bool)

  /** A cancelled context stays cancelled. */
  ghost predicate Monotone(w: World) {
    forall t, u :: t <= u && w.done(t) ==> w.done(u)
  }

  datatype Op = GetParameter | PutParameter(value: Raw)

  /** One request as it went: its error, whether the context was already cancelled, whether it wrote. */
  datatype Call = Call(error: Option<Err>, ctxDone: bool, wrote: bool)

  /** A put met by this reply changes the parameter. */
  predicate TakesEffect(reply: Reply) {
    reply.error.None? || reply.tookEffect
  }

  /** The attempt-th request in this world: its reply, the context at its start, and whether it writes. */
  function CallAt(op: Op, w: World, attempt: nat): Call {
    Call(w.reply(attempt).error, w.done(3 * attempt),
         op.PutParameter? && TakesEffect(w.reply(attempt)))
  }

  datatype Result = Ok(shape: Shape) | Failed(error: Err) | Panicked

  // --- How many requests a loop makes ---

  /** The context is cancelled during the wait after the attempt-th request. */
  predicate Interrupted(w: World, attempt: nat)
    requires 1 <= attempt <= 36
  {
    BackoffDelay(attempt, w.draw(attempt)) > 0 && w.done(3 * attempt + 2) && !w.timerWins(attempt)
  }

  /** After the attempt-th request the loop goes on to another one, if its limit allows it. */
  predicate GoesOn(w: World, attempt: nat)
    requires attempt >= 1
  {
    && attempt <= 36
    && w.reply(attempt).error.Some? && IsRetryable(w.reply(attempt).error.value)
    && !w.done(3 * attempt + 1) && !Interrupted(w, attempt)
  }

  /** The number of the last request of a loop that is about to make its `first`. */
  function LastRequest(limit: nat, w: World, first: nat): (n: nat)
    requires 1 <= first <= limit
    ensures first <= n <= limit
    decreases limit - first
  {
    if first == limit || !GoesOn(w, first) then first else LastRequest(limit, w, first + 1)
  }

  lemma {:induction false} StopsAtLast(limit: nat, w: World, first: nat)
    requires 1 <= first <= limit
    ensures LastRequest(limit, w, first) == limit || !GoesOn(w, LastRequest(limit, w, first))
    decreases limit - first
  {
    if LastRequest(limit, w, first) != first {
      StopsAtLast(limit, w, first + 1);
    }
  }

  /** The number of requests of one Get or Put. */
  function Requests(w: World): nat {
    LastRequest(RETRY_ATTEMPTS, w, 1)
  }

  /**
   Requests are repeated only after retryable errors under a good context, and not after a wait that the
   context cuts short; short of the limit they stop for a success, a permanent error, or a context that is
   cancelled by the end of the wait.
   */
  lemma {:induction false} WhenRequestsStop(limit: nat, w: World, first: nat)
    requires 1 <= first <= limit <= 37 && Monotone(w)
    ensures var n := LastRequest(limit, w, first);
      && (forall i | first <= i < n ::
        && w.reply(i).error.Some? && IsRetryable(w.reply(i).error.value) && !w.done(3 * i + 1)
        && (w.done(3 * i + 2) ==> w.timerWins(i) || BackoffDelay(i, w.draw(i)) == 0))
      && (n < limit ==> w.reply(n).error.None? || !IsRetryable(w.reply(n).error.value) || w.done(3 * n + 2))
    decreases limit - first
  {
    hide IsRetryable, BackoffDelay;
    assert w.done(3 * first + 1) ==> w.done(3 * first + 2);
    if LastRequest(limit, w, first) != first {
      WhenRequestsStop(limit, w, first + 1);
    }
  }

  /** Under a context that stays good: three requests, fewer only after a success or a permanent error. */
  lemma UndisturbedRequests(w: World)
    requires forall t :: !w.done(t)
    ensures Requests(w) ==
      if w.reply(1).error.None? || !IsRetryable(w.reply(1).error.value) then 1
      else if w.reply(2).error.None? || !IsRetryable(w.reply(2).error.value) then 2
      else 3
  {
    assert !w.done(4) && !w.done(5) && !w.done(7) && !w.done(8);
    assert LastRequest(3, w, 1) == if GoesOn(w, 1) then LastRequest(3, w, 2) else 1;
    assert LastRequest(3, w, 2) == if GoesOn(w, 2) then 3 else 2;
  }

  // --- The trace specification of the retry loop ---

  /** Every request but the last failed with a retryable error while the context was still good. */
  ghost predicate RetriedRightly(calls: seq<Call>) {
    forall i | 0 <= i < |calls| - 1 ::
      calls[i].error.Some? && IsRetryable(calls[i].error.value) && !calls[i].ctxDone
  }

  /** Waits are drawn below the ceiling of the attempt they follow. */
  ghost predicate WaitsBelowCeilings(waits: seq<int>) {
    forall i | 0 <= i < |waits| :: 0 <= waits[i] < BackoffCeiling(i + 1)
  }

  ghost predicate RetryTrace(limit: nat, calls: seq<Call>, waits: seq<int>, result: Result) {
    && 1 <= |calls| <= limit
    && RetriedRightly(calls)
    && |calls| - 1 <= |waits| <= |calls| && |waits| <= limit - 1 && |waits| <= 36
    && WaitsBelowCeilings(waits)
    && var last := calls[|calls| - 1].error;
    && (result.Ok? <==> last.None?)
    && (result.Failed? ==> result.error == last.value || result.error == Joined(last.value, Fault(Canceled)))
    && (result.Panicked? ==> |calls| == 37 && limit > 37 && IsRetryable(last.value))
  }

  /** The first `n` requests in this world. */
  function CallsOf(op: Op, w: World, n: nat): (calls: seq<Call>)
    ensures |calls| == n && forall i | 0 <= i < n :: calls[i] == CallAt(op, w, i + 1)
  {
    seq(n, i requires 0 <= i < n => CallAt(op, w, i + 1))
  }

  /** The delays drawn after the first `n` requests. */
  function WaitsOf(w: World, n: nat): (waits: seq<int>)
    requires n <= 36
    ensures |waits| == n && forall i | 0 <= i < n :: waits[i] == BackoffDelay(i + 1, w.draw(i + 1))
  {
    seq(n, i requires 0 <= i < n => BackoffDelay(i + 1, w.draw(i + 1)))
  }

  /** `calls` are the first `n` requests, and `waits` the delays after the first `m`. */
  ghost predicate Traces(op: Op, w: World, calls: seq<Call>, n: nat, waits: seq<int>, m: nat) {
    m <= 36 && calls == CallsOf(op, w, n) && waits == WaitsOf(w, m)
  }

  lemma NextCall(op: Op, w: World, calls: seq<Call>, n: nat, waits: seq<int>, m: nat, call: Call)
    requires Traces(op, w, calls, n, waits, m) && call == CallAt(op, w, n + 1)
    ensures Traces(op, w, calls + [call], n + 1, waits, m)
  {
  }

  lemma NextWait(op: Op, w: World, calls: seq<Call>, n: nat, waits: seq<int>, m: nat)
    requires Traces(op, w, calls, n, waits, m) && m < 36
    ensures Traces(op, w, calls, n, waits + [BackoffDelay(m + 1, w.draw(m + 1))], m + 1)
  {
  }

  /** The result of a loop whose last request is the `n`-th. */
  function ResultAt(limit: nat, w: World, n: nat): Result
    requires 1 <= n <= limit
  {
    var error := w.reply(n).error;
    if error.None? then Ok(w.reply(n).shape)
    else if !IsRetryable(error.value) || n == limit then Failed(error.value)
    else if w.done(3 * n + 1) || n <= 36 then Failed(Joined(error.value, Fault(Canceled)))
    else Panicked
  }

  /** The loop has gone on up to its `n`-th request. */
  ghost predicate Reaches(limit: nat, w: World, n: nat) {
    1 <= n <= limit && n <= 37 && forall i: nat | 1 <= i < n :: GoesOn(w, i)
  }

  /** The loop stops after its `n`-th request, with this result. */
  ghost predicate Stops(limit: nat, w: World, n: nat, result: Result) {
    1 <= n <= limit && (n == limit || !GoesOn(w, n)) && result == ResultAt(limit, w, n)
  }

  lemma SuccessStops(limit: nat, w: World, n: nat)
    requires 1 <= n <= limit && w.reply(n).error.None?
    ensures Stops(limit, w, n, Ok(w.reply(n).shape))
  {
  }

  lemma ReachesNext(limit: nat, w: World, n: nat)
    requires Reaches(limit, w, n) && n < limit && GoesOn(w, n)
    ensures Reaches(limit, w, n + 1)
  {
  }

  lemma {:induction false} ReachedIsLast(limit: nat, w: World, n: nat, first: nat)
    requires Reaches(limit, w, n) && (n == limit || !GoesOn(w, n)) && 1 <= first <= n
    ensures LastRequest(limit, w, first) == n
    decreases n - first
  {
    if first < n {
      ReachedIsLast(limit, w, n, first + 1);
    }
  }

  lemma GoodBefore(w: World, attempt: nat)
    requires Monotone(w) && attempt >= 1 && GoesOn(w, attempt)
    ensures !w.done(3 * attempt)
  {
    assert 3 * attempt <= 3 * attempt + 1;
  }

  /** Every loop has a trace as specified, whether it waited after its last request or not. */
  lemma TraceIsRight(
      limit: nat, op: Op, w: World, calls: seq<Call>, n: nat, waits: seq<int>, m: nat, result: Result)
    requires Monotone(w) && Reaches(limit, w, n) && Stops(limit, w, n, result)
    requires Traces(op, w, calls, n, waits, m) && (m == n - 1 || (m == n && n < limit))
    ensures RetryTrace(limit, calls, waits, result)
    ensures result.Failed? ==> !IsTokenRotated(result.error)
    ensures n == LastRequest(limit, w, 1) == |calls| && result == ResultAt(limit, w, n)
    ensures Traces(op, w, calls, n, waits, |waits|)
  {
    hide IsRetryable, BackoffCeiling, BackoffDelay, LastRequest;
    ReachedIsLast(limit, w, n, 1);
    forall i: nat | 1 <= i < n
      ensures GoesOn(w, i) && !w.done(3 * i)
    {
      GoodBefore(w, i);
    }
  }

  /** A loop that fails early on a retryable error was cancelled, and its error says both. */
  lemma CancelledResult(limit: nat, w: World)
    requires 1 <= limit && Monotone(w)
    ensures var n := LastRequest(limit, w, 1);
      n < limit && w.reply(n).error.Some? && IsRetryable(w.reply(n).error.value) ==>
        || ResultAt(limit, w, n).Panicked?
        || (w.done(3 * n + 2) && ResultAt(limit, w, n) == Failed(Joined(w.reply(n).error.value, Fault(Canceled))))
  {
    hide IsRetryable, BackoffDelay;
    var n := LastRequest(limit, w, 1);
    StopsAtLast(limit, w, 1);
    assert w.done(3 * n + 1) ==> w.done(3 * n + 2);
  }

  /** At most one request starts after the context is cancelled, and it is the last one. */
  lemma AtMostOneCallAfterCancellation(limit: nat, calls: seq<Call>, waits: seq<int>, result: Result, i: nat, j: nat)
    requires RetryTrace(limit, calls, waits, result)
    requires i < |calls| && calls[i].ctxDone && j < |calls| && calls[j].ctxDone
    ensures i == j == |calls| - 1
  {
  }

  /** No request follows a success or a permanent error. */
  lemma NoCallAfterTheEnd(limit: nat, calls: seq<Call>, waits: seq<int>, result: Result, i: nat)
    requires RetryTrace(limit, calls, waits, result) && i < |calls|
    requires calls[i].error.None? || !IsRetryable(calls[i].error.value)
    ensures i == |calls| - 1
    ensures result.Ok? || result.Failed?
  {
  }

  /** The waits requested by a loop of up to 37 attempts sum to less than its first limit-1 ceilings. */
  lemma WaitsAreBounded(limit: nat, calls: seq<Call>, waits: seq<int>, result: Result)
    requires RetryTrace(limit, calls, waits, result) && 2 <= limit <= 37
    ensures Sum(waits) < SumOfCeilings(limit - 1)
  {
    DelaysBelowCeilings(waits, limit - 1);
  }

  /** The program's own limit: no panic, at most three requests, less than 600 ms of waiting. */
  lemma ThreeAttempts(calls: seq<Call>, waits: seq<int>, result: Result)
    requires RetryTrace(RETRY_ATTEMPTS, calls, waits, result)
    ensures |calls| <= 3 && !result.Panicked? && Sum(waits) < 600_000_000
  {
    ProductionWaitsAreShort(waits);
  }

  /** The content after the requests of `calls`. */
  function Written(before: Raw, op: Op, calls: seq<Call>): Raw {
    if op.PutParameter? && (exists i | 0 <= i < |calls| :: calls[i].wrote) then op.value else before
  }

  /** The content after one more request. */
  function Effect(op: Op, reply: Reply, value: Raw): Raw {
    if op.PutParameter? && TakesEffect(reply) then op.value else value
  }

  lemma WrittenNext(before: Raw, op: Op, w: World, calls: seq<Call>, call: Call, attempt: nat)
    requires call == CallAt(op, w, attempt)
    ensures Written(before, op, calls + [call]) == Effect(op, w.reply(attempt), Written(before, op, calls))
  {
    var all := calls + [call];
    assert all[|calls|] == call;
    assert forall i | 0 <= i < |calls| :: all[i] == calls[i];
  }

  /** Up to attempt 37, the shift has wrapped exactly if the ceiling is not positive. */
  lemma CeilingSign(attempt: int)
    requires 1 <= attempt <= 37
    ensures BackoffCeiling(attempt) > 0 <==> attempt <= 36
  {
    if attempt <= 36 {
      CeilingDoublesUpToTheCap(attempt);
    } else {
      CeilingWrapsAt37();
    }
  }

  /** What GetParameter's answer holds of the parameter: None is an error, and a missing value is an empty one. */
  function ContentOf(reply: Reply, value: Raw): Option<Raw> {
    if reply.error.Some? || reply.shape.NoParameter? then None
    else if reply.shape.NoValue? then Some(Empty)
    else Some(value)
  }

  /** Every fault of the cause is still found in the error. */
  ghost predicate KeepsCause(cause: Option<Err>, error: Err) {
    cause.Some? ==> forall fault :: HasFault(cause.value, fault) ==> HasFault(error, fault)
  }

  /**
   The loop body after the attempt-th request failed: the result the loop stops with, if it stops, and the
   delay it drew, if it got that far.
   */
  method AfterFailure(limit: nat, w: World, attempt: nat, error: Err) returns (stop: Option<Result>, delay: Option<int>)
    requires 1 <= attempt <= limit && attempt <= 37 && w.reply(attempt).error == Some(error)
    ensures stop.Some? ==> Stops(limit, w, attempt, stop.value)
    ensures stop.None? ==> attempt < limit && GoesOn(w, attempt) && delay.Some?
    ensures delay.Some? ==>
      attempt < limit && attempt <= 36 && delay.value == BackoffDelay(attempt, w.draw(attempt))
  {
    if !IsRetryable(error) || attempt == limit {
      return Some(Failed(error)), None;
    }
    if w.done(3 * attempt + 1) {
      return Some(Failed(Joined(error, Fault(Canceled)))), None;
    }
    CeilingSign(attempt);
    if BackoffCeiling(attempt) <= 0 {
      // crypto/rand.Int panics on a non-positive bound
      return Some(Panicked), None;
    }
    var d := BackoffDelay(attempt, w.draw(attempt));
    if d > 0 && w.done(3 * attempt + 2) && !w.timerWins(attempt) {
      return Some(Failed(Joined(error, Fault(Canceled)))), Some(d);
    }
    return None, Some(d);
  }

  class SsmClient {
    var value: Raw        // the parameter
    var puts: nat         // PutParameter requests so far

    constructor (value: Raw)
      ensures this.value == value && puts == 0
    {
      this.value, puts := value, 0;
    }

    method Request(op: Op, reply: Reply) returns (error: Option<Err>, wrote: bool)
      modifies this
      ensures error == reply.error
      ensures wrote <==> op.PutParameter? && (reply.error.None? || reply.tookEffect)
      ensures value == Effect(op, reply, old(value))
      ensures puts == old(puts) + if op.PutParameter? then 1 else 0
    {
      error, wrote := reply.error, false;
      if op.PutParameter? {
        puts := puts + 1;
        if TakesEffect(reply) {
          value, wrote := op.value, true;
        }
      }
    }
  }

  class Store {
    const client: SsmClient

    constructor (client: SsmClient)
      ensures this.client == client
    {
      this.client := client;
    }

    /** withRetry around one request, for a general attempt limit. */
    method WithRetry(op: Op, limit: nat, w: World) returns (result: Result, calls: seq<Call>, waits: seq<int>)
      requires limit >= 1 && Monotone(w)
      modifies client
      ensures RetryTrace(limit, calls, waits, result)
      ensures Traces(op, w, calls, LastRequest(limit, w, 1), waits, |waits|)
      ensures result == ResultAt(limit, w, LastRequest(limit, w, 1))
      ensures result.Failed? ==> !IsTokenRotated(result.error)
      ensures client.value == Written(old(client.value), op, calls)
      ensures client.puts == old(client.puts) + if op.PutParameter? then LastRequest(limit, w, 1) else 0
    {
      calls, waits := [], [];
      var attempt := 1;
      assert Reaches(limit, w, 1);
      ghost var m := 0;
      assert Traces(op, w, calls, 0, waits, m) && Written(client.value, op, calls) == client.value;
      hide Written, IsRetryable, IsTokenRotated, BackoffDelay, RetryTrace, LastRequest, Reaches, Interrupted;
      hide TakesEffect, Monotone, Traces, Effect, BackoffCeiling, HasFault, GoesOn, ResultAt, Stops;
      while true
        invariant 1 <= attempt <= limit && attempt <= 37 && Reaches(limit, w, attempt)
        invariant m == attempt - 1 && Traces(op, w, calls, attempt - 1, waits, m)
        invariant client.value == Written(old(client.value), op, calls)
        invariant client.puts == old(client.puts) + if op.PutParameter? then attempt - 1 else 0
        decreases limit - attempt
      {
        var error, wrote := client.Request(op, w.reply(attempt));
        var call := Call(error, w.done(3 * attempt), wrote);
        assert call == CallAt(op, w, attempt);
        hide CallAt, CallsOf, WaitsOf;
        WrittenNext(old(client.value), op, w, calls, call, attempt);
        NextCall(op, w, calls, attempt - 1, waits, m, call);
        calls := calls + [call];
        if error.None? {
          result := Ok(w.reply(attempt).shape);
          SuccessStops(limit, w, attempt);
          break;
        }
        var stop, delay := AfterFailure(limit, w, attempt, error.value);
        if delay.Some? {
          NextWait(op, w, calls, attempt, waits, m);
          waits, m := waits + [delay.value], m + 1;
        }
        if stop.Some? {
          result := stop.value;
          break;
        }
        ReachesNext(limit, w, attempt);
        attempt := attempt + 1;
      }
      TraceIsRight(limit, op, w, calls, attempt, waits, m, result);
    }

    /** What the last of the requests answers; an error keeps its cause and is never the sentinel. */
    method Get(w: World) returns (raw: Option<Raw>, error: Option<Err>)
      requires Monotone(w)
      modifies client
      ensures client.value == old(client.value) && client.puts == old(client.puts)
      ensures raw == ContentOf(w.reply(Requests(w)), client.value)
      ensures error.Some? <==> w.reply(Requests(w)).error.Some? || w.reply(Requests(w)).shape.NoParameter?
      ensures raw.Some? <==> error.None?
      ensures raw.Some? ==> raw.value == client.value || raw.value == Empty
      ensures w.reply(1).error.None? && w.reply(1).shape.Full? ==> raw == Some(client.value)
      ensures error.Some? ==> !IsTokenRotated(error.value) && KeepsCause(w.reply(Requests(w)).error, error.value)
    {
      var result, calls, waits := WithRetry(GetParameter, RETRY_ATTEMPTS, w);
      assert calls[|calls| - 1].error == w.reply(|calls|).error;
      if !result.Ok? {
        ThreeAttempts(calls, waits, result);
        return None, Some(Wrapped(result.error));
      }
      match result.shape
      case NoParameter => return None, Some(Fault(Other));
      case NoValue => return Some(Empty), None;
      case Full => return Some(client.value), None;
    }

    /**
     Malformed blobs are refused before any request. Otherwise the error is nil exactly if the last request
     succeeded, and the store holds the new blob exactly if some request took effect.
     */
    method Put(value: Raw, w: World) returns (error: Option<Err>)
      requires Monotone(w)
      modifies client
      ensures error.Some? ==> !IsTokenRotated(error.value)
      ensures ParseMagicLink(value).None? ==>
        error.Some? && client.value == old(client.value) && client.puts == old(client.puts)
      ensures ParseMagicLink(value).Some? ==>
        && client.puts == old(client.puts) + Requests(w)
        && 1 <= Requests(w) <= 3
        && (error.None? <==> w.reply(Requests(w)).error.None?)
        && (error.Some? ==> KeepsCause(w.reply(Requests(w)).error, error.value))
        && (error.None? ==> client.value == value)
        && ((exists i | 1 <= i <= Requests(w) :: w.reply(i).error.None? || w.reply(i).tookEffect) ==>
          client.value == value)
        && ((forall i | 1 <= i <= Requests(w) :: w.reply(i).error.Some? && !w.reply(i).tookEffect) ==>
          client.value == old(client.value))
        && (client.value == value || client.value == old(client.value))
        && (w.reply(1).error.None? ==> error.None?)
        && (w.reply(1).error.Some? && !IsRetryable(w.reply(1).error.value) ==>
          error.Some? && client.puts == old(client.puts) + 1)
    {
      if ParseMagicLink(value).None? {
        return Some(Fault(Other));
      }
      var result, calls, waits := WithRetry(PutParameter(value), RETRY_ATTEMPTS, w);
      assert calls[|calls| - 1].error == w.reply(|calls|).error;
      assert forall i | 1 <= i <= |calls| :: calls[i - 1].wrote <==> TakesEffect(w.reply(i));
      if !result.Ok? {
        ThreeAttempts(calls, waits, result);
        return Some(Wrapped(result.error));
      }
      return None;
    }
  }
}
