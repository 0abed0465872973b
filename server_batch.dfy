/** The server's batch engine: validation of a cancel or unfollow request,
    the producer loop that calls the platform once per id and records each
    result in the task and its queue, and the progress stream that folds
    the queue into messages for the browser. The platform's answer to each
    call is an input; the queue is a sequence the producer extends. */
module ServerBatch {

  import opened Json
  import InstagramApi
  import Wrappers

  /** `Config.MAX_CANCELS_PER_SESSION`. */
  const MaxCancelsPerSession: nat := 200

  /** Why `_start_batch` refuses a request. */
  datatype BatchError = NoUsersSelected | TooManyUsers

  /** `data.get(key, [])` on a decoded request body, as the `not` and `len`
      checks of `_start_batch` and `api_resolve_usernames` see it. `None` is
      an exception (answered 500): `.get` on a body that is not an object,
      or `len` on a truthy number or boolean. A missing or falsy value reads
      as empty, which `not` refuses. Otherwise the values `len` counts and a
      `for` visits: a list's items, a string's characters, an object's keys
      in the order they were decoded. */
  function RequestList(body: Json, key: string, keyOrder: seq<string>): Wrappers.Option<seq<Json>> {
    if !body.Obj? then Wrappers.None
    else
      var v := GetOr(body.fields, key, Arr([]));
      if !PyTruthy(v) then Wrappers.Some([])
      else match v
        case Arr(xs) => Wrappers.Some(xs)
        case Str(chars) => Wrappers.Some(Characters(chars))
        case Obj(_) => Wrappers.Some(KeyStrings(keyOrder))
        case _ => Wrappers.None
  }

  /** Each shape of body and field gets Python's answer: a body that is not
      an object, or a truthy number or boolean field, raises; a missing or
      falsy field is empty; a non-empty list, string or object gives its
      items, its characters or its keys, never nothing. */
  lemma {:induction false} RequestListCases(body: Json, key: string, keyOrder: seq<string>)
    ensures !body.Obj? ==> RequestList(body, key, keyOrder).None?
    ensures body.Obj? && key !in body.fields ==> RequestList(body, key, keyOrder) == Wrappers.Some([])
    ensures body.Obj? && key in body.fields && !PyTruthy(body.fields[key]) ==> RequestList(body, key, keyOrder) == Wrappers.Some([])
    ensures body.Obj? && key in body.fields && PyTruthy(body.fields[key]) && (body.fields[key].Num? || body.fields[key].Bool?)
      ==> RequestList(body, key, keyOrder).None?
    ensures body.Obj? && key in body.fields && PyTruthy(body.fields[key]) && body.fields[key].Arr?
      ==> RequestList(body, key, keyOrder) == Wrappers.Some(body.fields[key].items) && |body.fields[key].items| > 0
    ensures body.Obj? && key in body.fields && PyTruthy(body.fields[key]) && body.fields[key].Str?
      ==> var r := RequestList(body, key, keyOrder);
        && r.Some? && |r.value| == |body.fields[key].s| > 0
        && forall k :: 0 <= k < |r.value| ==> r.value[k] == Str([body.fields[key].s[k]])
    ensures body.Obj? && key in body.fields && PyTruthy(body.fields[key]) && body.fields[key].Obj?
      && IsKeyOrder(keyOrder, body.fields[key].fields)
      ==> var r := RequestList(body, key, keyOrder);
        && r.Some? && |r.value| > 0
        && forall k :: k in body.fields[key].fields <==> Str(k) in r.value
  {
    if body.Obj? && key in body.fields && PyTruthy(body.fields[key]) && body.fields[key].Obj?
      && IsKeyOrder(keyOrder, body.fields[key].fields)
    {
      var m := body.fields[key].fields;
      var r := KeyStrings(keyOrder);
      assert RequestList(body, key, keyOrder) == Wrappers.Some(r);
      forall k ensures k in m <==> Str(k) in r {
        if k in m {
          var i :| 0 <= i < |keyOrder| && keyOrder[i] == k;
          assert r[i] == Str(k);
        }
        if Str(k) in r {
          var i :| 0 <= i < |r| && r[i] == Str(k);
          assert keyOrder[i] == k;
        }
      }
      var k0 :| k0 in m;
      assert Str(k0) in r;
    }
  }

  /** The ids the page posts, as JSON numbers. */
  function NumList(ids: seq<int>): (r: seq<Json>)
    ensures |r| == |ids| && forall k :: 0 <= k < |ids| ==> r[k] == Num(ids[k])
  {
    seq(|ids|, k requires 0 <= k < |ids| => Num(ids[k]))
  }

  /** The body the page sends, `{"user_ids": [...]}` with integer ids, is read
      as exactly those ids, and is checked by their number. */
  lemma {:induction false} PageBatchBody(ids: seq<int>, keyOrder: seq<string>)
    ensures RequestList(Obj(map["user_ids" := Arr(NumList(ids))]), "user_ids", keyOrder) == Wrappers.Some(NumList(ids))
    ensures ValidateBatch(NumList(ids)) == ValidateBatch(ids)
  {
    var m := map["user_ids" := Arr(NumList(ids))];
    assert "user_ids" in m && m["user_ids"] == Arr(NumList(ids));
    if ids == [] {
      assert NumList(ids) == [];
    }
  }

  /** A string `user_ids` passes both checks as a batch of its characters:
      `"12"` starts a batch of two. */
  lemma {:induction false} StringUserIdsBatch()
    ensures RequestList(Obj(map["user_ids" := Str("12")]), "user_ids", []) == Wrappers.Some([Str("1"), Str("2")])
    ensures ValidateBatch([Str("1"), Str("2")]).None?
  {
    var m := map["user_ids" := Str("12")];
    assert "user_ids" in m && m["user_ids"] == Str("12");
    assert PyTruthy(Str("12"));
    var r := Characters("12");
    assert r == [Str("1"), Str("2")];
  }

  /** `_start_batch`'s checks: an empty list, or one longer than the session maximum, is refused. */
  function ValidateBatch<T>(ids: seq<T>): (e: Wrappers.Option<BatchError>)
    ensures e == Wrappers.Some(NoUsersSelected) <==> |ids| == 0
    ensures e == Wrappers.Some(TooManyUsers) <==> |ids| > MaxCancelsPerSession
    ensures e.None? <==> 0 < |ids| <= MaxCancelsPerSession
  {
    if |ids| == 0 then Wrappers.Some(NoUsersSelected)
    else if |ids| > MaxCancelsPerSession then Wrappers.Some(TooManyUsers)
    else Wrappers.None
  }

  /** How `_run_batch`'s except clauses see one `cancel_follow_request` call. */
  datatype CallOutcome = Ok | RateLimit | Auth | OtherErr

  function OutcomeOfCall(o: InstagramApi.Outcome<Json>): (c: CallOutcome)
    ensures c == Ok <==> o.Value?
    ensures c == RateLimit <==> o == InstagramApi.Raise(InstagramApi.RateLimitError)
    ensures c == Auth <==> o == InstagramApi.Raise(InstagramApi.AuthenticationError)
  {
    if o.Value? then Ok
    else if o.exc == InstagramApi.RateLimitError then RateLimit
    else if o.exc == InstagramApi.AuthenticationError then Auth
    else OtherErr
  }

  /** Rate limiting and a rejected session end the batch. */
  predicate Stops(o: CallOutcome) {
    o == RateLimit || o == Auth
  }

  /** The `status` of one result record. */
  datatype ItemStatus = Cancelled | RateLimited | AuthError | Error

  function StatusOf(o: CallOutcome): (s: ItemStatus)
    ensures s == Cancelled <==> o == Ok
    ensures s == RateLimited <==> o == RateLimit
    ensures s == AuthError <==> o == Auth
  {
    match o
    case Ok => Cancelled
    case RateLimit => RateLimited
    case Auth => AuthError
    case OtherErr => Error
  }

  /** `{"user_id": uid, "index": i, "status": ...}`. */
  datatype BatchResult = BatchResult(userId: int, index: nat, status: ItemStatus)

  /** An entry of the task's queue: a result, or the `None` that ends it. */
  datatype QueueEntry = Item(result: BatchResult) | Sentinel

  /** The task's `status`: `running`, then `completed`, `rate_limited` or `auth_error`. */
  datatype TaskStatus = Running | Completed | RateLimitedStop | AuthErrorStop

  /** The task record as a value. */
  datatype TaskState = TaskState(
    status: TaskStatus, total: nat, completed: nat, succeeded: nat, failed: nat,
    results: seq<BatchResult>, queue: seq<QueueEntry>)

  /** The record `_start_batch` creates. */
  function Initial(total: nat): TaskState {
    TaskState(Running, total, 0, 0, 0, [], [])
  }

  function CountCancelled(rs: seq<BatchResult>): nat {
    if rs == [] then 0
    else CountCancelled(rs[..|rs| - 1]) + (if rs[|rs| - 1].status == Cancelled then 1 else 0)
  }

  function CountNotCancelled(rs: seq<BatchResult>): nat {
    if rs == [] then 0
    else CountNotCancelled(rs[..|rs| - 1]) + (if rs[|rs| - 1].status == Cancelled then 0 else 1)
  }

  /** Every result is either a success or a failure. */
  lemma {:induction false} CountsPartition(rs: seq<BatchResult>)
    ensures CountCancelled(rs) + CountNotCancelled(rs) == |rs|
    decreases |rs|
  {
    if rs != [] {
      CountsPartition(rs[..|rs| - 1]);
    }
  }

  /** The queue entries for a list of results. */
  function Items(rs: seq<BatchResult>): (q: seq<QueueEntry>)
    ensures |q| == |rs|
  {
    seq(|rs|, k requires 0 <= k < |rs| => Item(rs[k]))
  }

  lemma ItemsSnoc(rs: seq<BatchResult>, r: BatchResult)
    ensures Items(rs + [r]) == Items(rs) + [Item(r)]
  {
    var l := Items(rs + [r]);
    var m := Items(rs) + [Item(r)];
    forall k | 0 <= k < |l| ensures l[k] == m[k] {
      if k < |rs| {
        assert (rs + [r])[k] == rs[k];
      }
    }
  }

  function CountSentinels(q: seq<QueueEntry>): nat {
    if q == [] then 0 else CountSentinels(q[..|q| - 1]) + (if q[|q| - 1] == Sentinel then 1 else 0)
  }

  lemma {:induction false} NoSentinelInItems(rs: seq<BatchResult>)
    ensures CountSentinels(Items(rs)) == 0
    decreases |rs|
  {
    if rs != [] {
      NoSentinelInItems(rs[..|rs| - 1]);
      assert rs == rs[..|rs| - 1] + [rs[|rs| - 1]];
      ItemsSnoc(rs[..|rs| - 1], rs[|rs| - 1]);
      assert Items(rs)[..|rs| - 1] == Items(rs[..|rs| - 1]);
    }
  }

  /** `n` items are processed: either none of them stops the batch and
      they are all the items, or the `n`-th is the first that stops it. */
  predicate ProcessedUpTo(outs: seq<CallOutcome>, n: nat) {
    && n <= |outs|
    && (forall k :: 0 <= k < n - 1 ==> !Stops(outs[k]))
    && ((n == |outs| && (n == 0 || !Stops(outs[n - 1]))) || (0 < n && Stops(outs[n - 1])))
  }

  /** How many items `_run_batch` processes. */
  function Processed(outs: seq<CallOutcome>): (n: nat)
    ensures ProcessedUpTo(outs, n)
  {
    if outs == [] then 0 else if Stops(outs[0]) then 1 else 1 + Processed(outs[1..])
  }

  /** The result records of the first `n` items. */
  function ResultsOf(ids: seq<int>, outs: seq<CallOutcome>, n: nat): (rs: seq<BatchResult>)
    requires n <= |ids| && n <= |outs|
    ensures |rs| == n
  {
    seq(n, k requires 0 <= k < n => BatchResult(ids[k], k, StatusOf(outs[k])))
  }

  lemma ResultsOfSnoc(ids: seq<int>, outs: seq<CallOutcome>, n: nat)
    requires n < |ids| && n < |outs|
    ensures ResultsOf(ids, outs, n + 1) == ResultsOf(ids, outs, n) + [BatchResult(ids[n], n, StatusOf(outs[n]))]
  {
    var l := ResultsOf(ids, outs, n + 1);
    var r := ResultsOf(ids, outs, n) + [BatchResult(ids[n], n, StatusOf(outs[n]))];
    forall k | 0 <= k < |l| ensures l[k] == r[k] {
    }
  }

  function FinalStatus(outs: seq<CallOutcome>): TaskStatus {
    var n := Processed(outs);
    if n > 0 && outs[n - 1] == RateLimit then RateLimitedStop
    else if n > 0 && outs[n - 1] == Auth then AuthErrorStop
    else Completed
  }

  /** The task record once `_run_batch` has returned: the processed items'
      results, counted, each queued, then one sentinel. */
  function FinalState(ids: seq<int>, outs: seq<CallOutcome>): TaskState
    requires |ids| == |outs|
  {
    var rs := ResultsOf(ids, outs, Processed(outs));
    TaskState(FinalStatus(outs), |ids|, |rs|, CountCancelled(rs), CountNotCancelled(rs), rs, Items(rs) + [Sentinel])
  }

  /** The counters of a task record. */
  datatype Counters = Counters(status: TaskStatus, total: nat, completed: nat, succeeded: nat, failed: nat)

  function CountersOf(t: TaskState): Counters {
    Counters(t.status, t.total, t.completed, t.succeeded, t.failed)
  }

  /** `completed == succeeded + failed <= total`. */
  predicate Consistent(c: Counters) {
    c.completed == c.succeeded + c.failed <= c.total
  }

  /** The counters right after the `n`-th result is queued (the status is
      still `running` then: a stopping item sets it after queueing). */
  function CountersAfter(ids: seq<int>, outs: seq<CallOutcome>, n: nat): Counters
    requires n <= |ids| == |outs|
  {
    var rs := ResultsOf(ids, outs, n);
    Counters(Running, |ids|, n, CountCancelled(rs), CountNotCancelled(rs))
  }

  lemma {:induction false} CountersAfterConsistent(ids: seq<int>, outs: seq<CallOutcome>, n: nat)
    requires n <= |ids| == |outs|
    ensures Consistent(CountersAfter(ids, outs, n))
  {
    CountsPartition(ResultsOf(ids, outs, n));
  }

  /** However the batch ends: the counters are consistent, the results are
      the processed items in index order, and the queue holds them followed
      by exactly one sentinel, which is last. */
  lemma {:induction false} FinalStateShape(ids: seq<int>, outs: seq<CallOutcome>)
    requires |ids| == |outs|
    ensures var t := FinalState(ids, outs);
      && Consistent(CountersOf(t))
      && t.total == |ids| && t.completed == |t.results|
      && (forall k :: 0 <= k < |t.results| ==> t.results[k] == BatchResult(ids[k], k, StatusOf(outs[k])))
      && t.queue[..|t.queue| - 1] == Items(t.results)
      && t.queue[|t.queue| - 1] == Sentinel && CountSentinels(t.queue) == 1
  {
    var t := FinalState(ids, outs);
    CountsPartition(t.results);
    NoSentinelInItems(t.results);
    assert t.queue[..|t.queue| - 1] == Items(t.results);
  }

  /** A rate limit or a rejected session on item `k` ends the batch there:
      the item is counted as failed and completed, no later item is
      processed, and the status names the cause. */
  lemma {:induction false} FinalStateStopsAt(ids: seq<int>, outs: seq<CallOutcome>, k: nat)
    requires |ids| == |outs| && k < |outs| && Stops(outs[k])
    requires forall j :: 0 <= j < k ==> !Stops(outs[j])
    ensures var t := FinalState(ids, outs);
      && t.completed == k + 1 && |t.results| == k + 1
      && t.results[k].status == StatusOf(outs[k])
      && (forall r :: r in t.results ==> r.index <= k)
      && t.status == (if outs[k] == RateLimit then RateLimitedStop else AuthErrorStop)
      && t.failed >= 1
  {
    AfterStop(outs, k);
    var rs := ResultsOf(ids, outs, k + 1);
    ResultsOfSnoc(ids, outs, k);
    assert rs[..k] == ResultsOf(ids, outs, k);
    assert rs[k].status == StatusOf(outs[k]);
  }

  /** Without a stopping error every item is processed and the task completes. */
  lemma {:induction false} FinalStateCompletes(ids: seq<int>, outs: seq<CallOutcome>)
    requires |ids| == |outs|
    requires forall j :: 0 <= j < |outs| ==> !Stops(outs[j])
    ensures var t := FinalState(ids, outs);
      && t.completed == t.total == |ids| && t.status == Completed
  {
  }

  /** One task record, updated in place by the producer loop. */
  class BatchTask {
    var status: TaskStatus
    var total: nat
    var completed: nat
    var succeeded: nat
    var failed: nat
    var results: seq<BatchResult>
    var queue: seq<QueueEntry>

    function State(): TaskState
      reads this
    {
      TaskState(status, total, completed, succeeded, failed, results, queue)
    }

    /** The record `_start_batch` stores for `total` ids. */
    constructor (total: nat)
      ensures State() == Initial(total)
    {
      status := Running;
      this.total := total;
      completed := 0;
      succeeded := 0;
      failed := 0;
      results := [];
      queue := [];
    }

    /** `_run_batch(task_id, user_ids, cookies)`: one `cancel_follow_request`
        per id, in order, whatever the action; `outs[i]` is how the `i`-th
        call ended and `calls` counts the calls made. */
    method Run(ids: seq<int>, outs: seq<CallOutcome>) returns (calls: nat)
      requires |outs| == |ids| && State() == Initial(|ids|)
      modifies this
      ensures State() == FinalState(ids, outs)
      ensures calls == Processed(outs)
    {
      var i := 0;
      while i < |ids|
        invariant i <= |ids|
        invariant forall k :: 0 <= k < i ==> !Stops(outs[k])
        invariant State() == InProgress(ids, outs, i)
      {
        var result := BatchResult(ids[i], i, StatusOf(outs[i]));
        Record(result);
        RunningStep(ids, outs, i);
        if Stops(outs[i]) {
          Finish(if outs[i] == RateLimit then RateLimitedStop else AuthErrorStop);
          StoppedState(ids, outs, i);
          return i + 1;
        }
        i := i + 1;
      }
      Finish(Completed);
      CompletedState(ids, outs);
      return |ids|;
    }

    /** Counting one processed item, then appending its result to `results`
        and putting it on the queue. */
    method Record(result: BatchResult)
      modifies this
      ensures State() == old(State()).(
        completed := old(completed) + 1,
        succeeded := old(succeeded) + (if result.status == Cancelled then 1 else 0),
        failed := old(failed) + (if result.status == Cancelled then 0 else 1),
        results := old(results) + [result],
        queue := old(queue) + [Item(result)])
    {
      if result.status == Cancelled {
        succeeded := succeeded + 1;
      } else {
        failed := failed + 1;
      }
      completed := completed + 1;
      results := results + [result];
      queue := queue + [Item(result)];
    }

    /** Setting the final status and putting the `None` sentinel on the queue. */
    method Finish(s: TaskStatus)
      modifies this
      ensures State() == old(State()).(status := s, queue := old(queue) + [Sentinel])
    {
      status := s;
      queue := queue + [Sentinel];
    }
  }

  /** The record while the loop runs, after `n` items none of which stopped it. */
  function InProgress(ids: seq<int>, outs: seq<CallOutcome>, n: nat): TaskState
    requires n <= |ids| == |outs|
  {
    var rs := ResultsOf(ids, outs, n);
    TaskState(Running, |ids|, n, CountCancelled(rs), CountNotCancelled(rs), rs, Items(rs))
  }

  lemma {:induction false} RunningStep(ids: seq<int>, outs: seq<CallOutcome>, i: nat)
    requires i < |ids| == |outs|
    ensures var t := InProgress(ids, outs, i);
      var r := BatchResult(ids[i], i, StatusOf(outs[i]));
      InProgress(ids, outs, i + 1) == t.(
        completed := t.completed + 1,
        succeeded := t.succeeded + (if r.status == Cancelled then 1 else 0),
        failed := t.failed + (if r.status == Cancelled then 0 else 1),
        results := t.results + [r],
        queue := t.queue + [Item(r)])
  {
    var rs := ResultsOf(ids, outs, i + 1);
    ResultsOfSnoc(ids, outs, i);
    assert rs[..i] == ResultsOf(ids, outs, i);
    ItemsSnoc(ResultsOf(ids, outs, i), BatchResult(ids[i], i, StatusOf(outs[i])));
  }

  lemma {:induction false} StoppedState(ids: seq<int>, outs: seq<CallOutcome>, i: nat)
    requires i < |ids| == |outs| && Stops(outs[i])
    requires forall k :: 0 <= k < i ==> !Stops(outs[k])
    ensures Processed(outs) == i + 1
    ensures var t := InProgress(ids, outs, i + 1);
      FinalState(ids, outs) == t.(
        status := if outs[i] == RateLimit then RateLimitedStop else AuthErrorStop,
        queue := t.queue + [Sentinel])
  {
    AfterStop(outs, i);
  }

  lemma {:induction false} CompletedState(ids: seq<int>, outs: seq<CallOutcome>)
    requires |ids| == |outs|
    requires forall k :: 0 <= k < |outs| ==> !Stops(outs[k])
    ensures Processed(outs) == |ids|
    ensures var t := InProgress(ids, outs, |ids|);
      FinalState(ids, outs) == t.(status := Completed, queue := t.queue + [Sentinel])
  {
    NoStopProcessesAll(outs);
  }

  /** The first stopping item fixes how many items `_run_batch` processes. */
  lemma {:induction false} AfterStop(outs: seq<CallOutcome>, i: nat)
    requires i < |outs| && Stops(outs[i])
    requires forall k :: 0 <= k < i ==> !Stops(outs[k])
    ensures Processed(outs) == i + 1
    decreases i
  {
    if i > 0 {
      AfterStop(outs[1..], i - 1);
    }
  }

  /** Without a stopping item every item is processed. */
  lemma {:induction false} NoStopProcessesAll(outs: seq<CallOutcome>)
    requires forall k :: 0 <= k < |outs| ==> !Stops(outs[k])
    ensures Processed(outs) == |outs|
    decreases |outs|
  {
    if outs != [] {
      NoStopProcessesAll(outs[1..]);
    }
  }

  // ------------------------------------------------------------------
  // The progress stream
  // ------------------------------------------------------------------

  /** One `queue.get(timeout=60)`: nothing within the timeout, or an entry
      together with the task's counters at the moment the message is built. */
  datatype Poll = Timeout | Got(entry: QueueEntry, task: Counters)

  /** A server-sent event of `/api/progress/<task_id>`. */
  datatype StreamMsg =
    | Keepalive
    | ProgressMsg(userId: int, index: nat, resultStatus: ItemStatus,
                  completed: nat, total: nat, succeeded: nat, failed: nat)
    | CompleteMsg(status: TaskStatus, total: nat, succeeded: nat, failed: nat)

  /** The message one poll yields: a timeout only keeps the stream alive, a
      result is reported with the task's counters, the sentinel completes. */
  function MessageOf(p: Poll): (m: StreamMsg)
    ensures m == Keepalive <==> p == Timeout
    ensures m.CompleteMsg? <==> p.Got? && p.entry == Sentinel
    ensures m.ProgressMsg? ==>
      && p.Got? && p.entry.Item?
      && m.userId == p.entry.result.userId && m.index == p.entry.result.index
      && m.resultStatus == p.entry.result.status
      && m.completed == p.task.completed && m.total == p.task.total
      && m.succeeded == p.task.succeeded && m.failed == p.task.failed
    ensures m.CompleteMsg? ==>
      m == CompleteMsg(p.task.status, p.task.total, p.task.succeeded, p.task.failed)
  {
    match p
    case Timeout => Keepalive
    case Got(Sentinel, c) => CompleteMsg(c.status, c.total, c.succeeded, c.failed)
    case Got(Item(r), c) => ProgressMsg(r.userId, r.index, r.status, c.completed, c.total, c.succeeded, c.failed)
  }

  /** Index of the first poll that reads the sentinel, or `|polls|`. */
  function SentinelAt(polls: seq<Poll>): (n: nat)
    ensures n <= |polls|
    ensures forall k :: 0 <= k < n ==> !(polls[k].Got? && polls[k].entry == Sentinel)
    ensures n < |polls| ==> polls[n].Got? && polls[n].entry == Sentinel
  {
    if polls == [] then 0
    else if polls[0].Got? && polls[0].entry == Sentinel then 0
    else 1 + SentinelAt(polls[1..])
  }

  /** The `generate()` loop of `api_progress` over the polls it makes: one
      message per poll up to and including the sentinel, after which the
      stream ends; `ended` tells whether the sentinel was read. */
  method ProgressStream(polls: seq<Poll>) returns (msgs: seq<StreamMsg>, ended: bool)
    ensures ended <==> SentinelAt(polls) < |polls|
    ensures |msgs| == (if ended then SentinelAt(polls) + 1 else |polls|)
    ensures forall k :: 0 <= k < |msgs| ==> msgs[k] == MessageOf(polls[k])
    ensures forall k :: 0 <= k < |msgs| - 1 ==> !msgs[k].CompleteMsg?
    ensures ended <==> |msgs| > 0 && msgs[|msgs| - 1].CompleteMsg?
  {
    msgs := [];
    ended := false;
    var i := 0;
    while i < |polls|
      invariant 0 <= i <= |polls| && i <= SentinelAt(polls)
      invariant |msgs| == i
      invariant forall k :: 0 <= k < i ==> msgs[k] == MessageOf(polls[k]) && !msgs[k].CompleteMsg?
    {
      var p := polls[i];
      match p {
        case Timeout =>
          msgs := msgs + [Keepalive];
        case Got(entry, c) =>
          if entry == Sentinel {
            msgs := msgs + [CompleteMsg(c.status, c.total, c.succeeded, c.failed)];
            ended := true;
            return;
          }
          var r := entry.result;
          msgs := msgs + [ProgressMsg(r.userId, r.index, r.status, c.completed, c.total, c.succeeded, c.failed)];
      }
      i := i + 1;
    }
  }

  /** The polls of a consumer that reads each entry as soon as it is queued:
      the `k`-th result with the counters it was queued with, then the
      sentinel with the final counters. */
  function LockstepPolls(ids: seq<int>, outs: seq<CallOutcome>): (polls: seq<Poll>)
    requires |ids| == |outs|
    ensures |polls| == Processed(outs) + 1
    ensures forall k :: 0 <= k < Processed(outs) ==>
      polls[k] == Got(Item(FinalState(ids, outs).results[k]), CountersAfter(ids, outs, k + 1))
    ensures polls[Processed(outs)] == Got(Sentinel, CountersOf(FinalState(ids, outs)))
  {
    var n := Processed(outs);
    PollsUpTo(ids, outs, n) + [Got(Sentinel, CountersOf(FinalState(ids, outs)))]
  }

  function PollsUpTo(ids: seq<int>, outs: seq<CallOutcome>, n: nat): (polls: seq<Poll>)
    requires n <= |ids| == |outs|
    ensures |polls| == n
  {
    seq(n, k requires 0 <= k < n => Got(Item(BatchResult(ids[k], k, StatusOf(outs[k]))), CountersAfter(ids, outs, k + 1)))
  }

  lemma {:induction false} SentinelAtIs(polls: seq<Poll>, n: nat)
    requires n < |polls| && polls[n].Got? && polls[n].entry == Sentinel
    requires forall k :: 0 <= k < n ==> !(polls[k].Got? && polls[k].entry == Sentinel)
    ensures SentinelAt(polls) == n
    decreases n
  {
    if n > 0 {
      SentinelAtIs(polls[1..], n - 1);
    }
  }

  /** Under that schedule the stream ends at the sentinel, every message
      before it reports one more completed item with consistent counters,
      and the one completion reports the task's final status and counters. */
  lemma {:induction false} LockstepStream(ids: seq<int>, outs: seq<CallOutcome>)
    requires |ids| == |outs|
    ensures var polls := LockstepPolls(ids, outs);
      && SentinelAt(polls) == Processed(outs)
      && (forall k :: 0 <= k < |polls| - 1 ==>
            var m := MessageOf(polls[k]);
            m.ProgressMsg? && m.completed == k + 1 && m.completed == m.succeeded + m.failed <= m.total)
      && MessageOf(polls[|polls| - 1]) == CompleteMsg(
           FinalState(ids, outs).status, |ids|, FinalState(ids, outs).succeeded, FinalState(ids, outs).failed)
  {
    var polls := LockstepPolls(ids, outs);
    var n := Processed(outs);
    SentinelAtIs(polls, n);
    forall k | 0 <= k < |polls| - 1
      ensures var m := MessageOf(polls[k]);
        m.ProgressMsg? && m.completed == k + 1 && m.completed == m.succeeded + m.failed <= m.total
    {
      CountersAfterConsistent(ids, outs, k + 1);
    }
  }
}
