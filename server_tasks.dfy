/** The server's in-memory task table: batch tasks created by `/api/cancel`
    and `/api/unfollow`, username lists registered by `/api/pending-sent`,
    the lookups the streaming endpoints make, and the periodic removal of
    tasks older than ten minutes. The clock is a parameter. */
module ServerTasks {

  import opened Wrappers
  import opened Json
  import opened Text
  import opened ServerBatch
  import ServerNames

  /** A table entry: a running or finished batch, or a list of usernames
      waiting for a check-sent or cancel-all-sent stream. */
  datatype StoredTask =
    | BatchEntry(task: BatchTask)
    | SentEntry(usernames: seq<string>, dates: map<string, string>)

  /** The task id: action, account and whole seconds, joined by `_`. */
  function TaskIdAt(action: string, account: string, seconds: nat): string {
    action + "_" + account + "_" + NatToDecimal(seconds)
  }

  /** The id of a task created when the clock reads `clock` seconds. */
  function TaskId(action: string, account: string, clock: real): string
    requires 0.0 <= clock
  {
    TaskIdAt(action, account, clock.Floor)
  }

  /** `float(k.split("_")[-1])`, for keys whose last segment is decimal digits. */
  function Timestamp(key: string): Option<nat> {
    ParseDecimal(LastSegment(key, '_'))
  }

  /** Tasks live for ten minutes. */
  const TaskLifetime: real := 600.0

  predicate ExpiredAt(created: nat, now: real) {
    now - (created as real) > TaskLifetime
  }

  /** Every id the server creates carries its creation second as its last
      segment, whatever the action and account. */
  lemma {:induction false} TaskIdTimestamp(action: string, account: string, seconds: nat)
    ensures Timestamp(TaskIdAt(action, account, seconds)) == Some(seconds)
  {
    var digits := NatToDecimal(seconds);
    assert '_' !in digits;
    assert TaskIdAt(action, account, seconds) == (action + "_" + account) + ['_'] + digits;
    LastSegmentOfSuffix(action + "_" + account, '_', digits);
    DecimalRoundTrip(seconds);
  }

  /** A task is kept while it is less than 599 seconds old, and is due for
      removal once it is more than 600 seconds old (the id keeps only the
      whole second of creation). */
  lemma {:induction false} TaskLifetimeBounds(action: string, account: string, clock: real, now: real)
    requires 0.0 <= clock
    ensures Timestamp(TaskId(action, account, clock)) == Some(clock.Floor)
    ensures now - clock <= TaskLifetime - 1.0 ==> !ExpiredAt(clock.Floor, now)
    ensures now - clock > TaskLifetime ==> ExpiredAt(clock.Floor, now)
  {
    TaskIdTimestamp(action, account, clock.Floor);
  }

  /** The table once `_cleanup_old_tasks` has run: when every key carries a
      timestamp, the keys older than ten minutes are gone; a key without one
      makes `float` raise before anything is removed. */
  ghost function AfterCleanup(tasks: map<string, StoredTask>, now: real): map<string, StoredTask> {
    if forall k :: k in tasks ==> Timestamp(k).Some? then
      map k | k in tasks && !ExpiredAt(Timestamp(k).value, now) :: tasks[k]
    else tasks
  }

  /** `_start_batch`'s answer; `StartServerError` is the 500 of an exception
      raised while reading `user_ids`. */
  datatype StartReply = Started(taskId: string, total: nat) | StartRejected(error: BatchError) | StartServerError

  datatype SentReply = SentRegistered(taskId: string, total: nat) | SentRejected(httpStatus: int)

  /** Where `/api/progress/<task_id>` ends up. */
  datatype ProgressTarget = ProgressNotFound | BatchStream(task: BatchTask) | NoQueue

  /** Where `/api/check-sent/<task_id>` and `/api/cancel-all-sent/<task_id>` end up. */
  datatype SentTarget = SentNotFound | SentFound(usernames: seq<string>, dates: map<string, string>)

  function ProgressLookup(tasks: map<string, StoredTask>, id: string): (t: ProgressTarget)
    ensures t.ProgressNotFound? <==> id !in tasks
    ensures t.BatchStream? <==> id in tasks && tasks[id].BatchEntry?
  {
    if id !in tasks then ProgressNotFound
    else match tasks[id]
      case BatchEntry(task) => BatchStream(task)
      case SentEntry(_, _) => NoQueue
  }

  function SentLookup(tasks: map<string, StoredTask>, id: string): (t: SentTarget)
    ensures t.SentFound? <==> id in tasks && tasks[id].SentEntry?
  {
    if id in tasks && tasks[id].SentEntry? then SentFound(tasks[id].usernames, tasks[id].dates)
    else SentNotFound
  }

  /** The bounds `/api/resolve-usernames` checks before resolving anything. */
  datatype ResolveError = NoUsernamesGiven | TooManyUsernames

  const MaxResolve: nat := 200

  function ValidateResolve(usernames: seq<Json>): (e: Option<ResolveError>)
    ensures e == Some(NoUsernamesGiven) <==> |usernames| == 0
    ensures e == Some(TooManyUsernames) <==> |usernames| > MaxResolve
    ensures e == None <==> 1 <= |usernames| <= MaxResolve
  {
    if |usernames| == 0 then Some(NoUsernamesGiven)
    else if |usernames| > MaxResolve then Some(TooManyUsernames)
    else None
  }

  /** What `api_resolve_usernames` decides before resolving anything. */
  datatype ResolveCheck = ResolveServerError | ResolveRefused(error: ResolveError) | ResolveAccepted(usernames: seq<Json>)

  /** `api_resolve_usernames` on the decoded body: an exception while reading
      `usernames` is a 500, an empty or overlong list is refused, and an
      accepted list reaches the `get_pending_from_usernames` call. */
  function CheckResolve(body: Json, keyOrder: seq<string>): (c: ResolveCheck)
    ensures c.ResolveServerError? <==> RequestList(body, "usernames", keyOrder).None?
    ensures c.ResolveRefused? <==>
      RequestList(body, "usernames", keyOrder).Some? && ValidateResolve(RequestList(body, "usernames", keyOrder).value).Some?
    ensures c.ResolveRefused? ==> c.error == ValidateResolve(RequestList(body, "usernames", keyOrder).value).value
    ensures c.ResolveAccepted? ==>
      c.usernames == RequestList(body, "usernames", keyOrder).value && 1 <= |c.usernames| <= MaxResolve
  {
    match RequestList(body, "usernames", keyOrder)
    case None => ResolveServerError
    case Some(us) =>
      match ValidateResolve(us)
      case Some(e) => ResolveRefused(e)
      case None => ResolveAccepted(us)
  }

  /** The status `api_resolve_usernames` answers with. The API class defines
      no `get_pending_from_usernames`, so an accepted list makes that call
      raise AttributeError, which the last `except Exception` answers with
      500: as written, no request is ever answered 200. */
  function ResolveStatus(body: Json, keyOrder: seq<string>): (status: nat)
    ensures status == 400 <==> CheckResolve(body, keyOrder).ResolveRefused?
    ensures status == 500 <==> !CheckResolve(body, keyOrder).ResolveRefused?
    ensures status != 200
  {
    match CheckResolve(body, keyOrder)
    case ResolveRefused(_) => 400
    case _ => 500
  }

  /** A request the page could send, one to two hundred usernames as strings,
      passes the bounds and is still answered 500. */
  lemma AcceptedResolveFails(names: seq<string>)
    requires 1 <= |names| <= MaxResolve
    ensures CheckResolve(Obj(map["usernames" := Arr(KeyStrings(names))]), ["usernames"]).ResolveAccepted?
    ensures ResolveStatus(Obj(map["usernames" := Arr(KeyStrings(names))]), ["usernames"]) == 500
  {
    var m := map["usernames" := Arr(KeyStrings(names))];
    assert "usernames" in m && m["usernames"] == Arr(KeyStrings(names));
  }

  class TaskStore {
    var tasks: map<string, StoredTask>

    constructor ()
      ensures tasks == map[]
    {
      tasks := map[];
    }

    /** `_start_batch` on the decoded body: reads `user_ids`, validates it,
        then stores a new running task under an id made of the action, the
        account and the current second (an earlier task with the same id is
        replaced). Running the batch is `BatchTask.Run`, on its own thread. */
    method StartBatch(action: string, account: string, body: Json, keyOrder: seq<string>, clock: real) returns (reply: StartReply)
      requires 0.0 <= clock
      modifies this
      ensures RequestList(body, "user_ids", keyOrder).None? ==> reply == StartServerError && tasks == old(tasks)
      ensures RequestList(body, "user_ids", keyOrder).Some? ==>
        var ids := RequestList(body, "user_ids", keyOrder).value;
        && (ValidateBatch(ids).Some? ==> reply == StartRejected(ValidateBatch(ids).value) && tasks == old(tasks))
        && (ValidateBatch(ids).None? ==>
          var id := TaskId(action, account, clock);
          && reply == Started(id, |ids|)
          && id in tasks && tasks[id].BatchEntry? && fresh(tasks[id].task)
          && tasks[id].task.State() == Initial(|ids|)
          && tasks == old(tasks)[id := tasks[id]]
          && ProgressLookup(tasks, id) == BatchStream(tasks[id].task)
          && SentLookup(tasks, id) == SentNotFound)
    {
      var read := RequestList(body, "user_ids", keyOrder);
      if read.None? {
        return StartServerError;
      }
      var ids := read.value;
      var err := ValidateBatch(ids);
      if err.Some? {
        return StartRejected(err.value);
      }
      var id := TaskId(action, account, clock);
      var task := new BatchTask(|ids|);
      tasks := tasks[id := BatchEntry(task)];
      reply := Started(id, |ids|);
    }

    /** The end of `api_pending_sent`: an accepted list is stored under a
        `sent_` id and its length returned; otherwise nothing is stored. */
    method RegisterSent(account: string, result: ServerNames.PendingSentResult, clock: real) returns (reply: SentReply)
      requires 0.0 <= clock
      modifies this
      ensures result.NoUsernamesProvided? ==> reply == SentRejected(400) && tasks == old(tasks)
      ensures result.ServerError? ==> reply == SentRejected(500) && tasks == old(tasks)
      ensures result.Accepted? ==>
        var id := TaskId("sent", account, clock);
        && reply == SentRegistered(id, |result.usernames|)
        && tasks == old(tasks)[id := SentEntry(result.usernames, result.dates)]
        && SentLookup(tasks, id) == SentFound(result.usernames, result.dates)
        && ProgressLookup(tasks, id) == NoQueue
    {
      match result
      case NoUsernamesProvided =>
        reply := SentRejected(400);
      case ServerError =>
        reply := SentRejected(500);
      case Accepted(usernames, dates) =>
        var id := TaskId("sent", account, clock);
        tasks := tasks[id := SentEntry(usernames, dates)];
        reply := SentRegistered(id, |usernames|);
    }

    /** `_cleanup_old_tasks`: collects the expired keys, then removes them. */
    method CleanupOldTasks(now: real)
      modifies this
      ensures tasks == AfterCleanup(old(tasks), now)
    {
      var ok, expired := ExpiredKeys(tasks.Keys, now);
      if !ok {
        return;
      }
      CleanupRemovesExpired(tasks, now, expired);
      tasks := map k | k in tasks && k !in expired :: tasks[k];
    }
  }

  /** Removing exactly the expired keys leaves the table `AfterCleanup` gives. */
  lemma CleanupRemovesExpired(tasks: map<string, StoredTask>, now: real, expired: set<string>)
    requires forall k :: k in tasks ==> Timestamp(k).Some?
    requires forall k :: k in expired <==> k in tasks && ExpiredAt(Timestamp(k).value, now)
    ensures (map k | k in tasks && k !in expired :: tasks[k]) == AfterCleanup(tasks, now)
  {
  }

  /** The list comprehension of `_cleanup_old_tasks`: `ok` is false when some
      key has no timestamp (where `float` raises); otherwise `expired` holds
      exactly the keys more than ten minutes old. */
  method ExpiredKeys(keys: set<string>, now: real) returns (ok: bool, expired: set<string>)
    ensures ok <==> forall k :: k in keys ==> Timestamp(k).Some?
    ensures ok ==> forall k :: k in expired <==> k in keys && ExpiredAt(Timestamp(k).value, now)
  {
    expired := {};
    var todo := keys;
    while todo != {}
      invariant todo <= keys
      invariant forall k :: k in keys && k !in todo ==> Timestamp(k).Some?
      invariant forall k :: k in expired <==> k in keys && k !in todo && ExpiredAt(Timestamp(k).value, now)
      decreases |todo|
    {
      var k :| k in todo;
      var t := Timestamp(k);
      if t.None? {
        return false, expired;
      }
      if ExpiredAt(t.value, now) {
        expired := expired + {k};
      }
      todo := todo - {k};
    }
    ok := true;
  }

  /** A task the server created is still there after a cleanup less than 599
      seconds later, and gone after one more than 600 seconds later, provided
      every key in the table carries a timestamp. */
  lemma {:induction false} CleanupKeepsRecentTasks(tasks: map<string, StoredTask>, action: string, account: string, clock: real, now: real)
    requires 0.0 <= clock
    requires TaskId(action, account, clock) in tasks
    requires forall k :: k in tasks ==> Timestamp(k).Some?
    ensures now - clock <= TaskLifetime - 1.0 ==> TaskId(action, account, clock) in AfterCleanup(tasks, now)
    ensures now - clock > TaskLifetime ==> TaskId(action, account, clock) !in AfterCleanup(tasks, now)
  {
    TaskLifetimeBounds(action, account, clock, now);
  }
}
