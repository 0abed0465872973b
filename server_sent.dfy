/** The two sent-request streams: `/api/check-sent/<task_id>` reports the
    status of each username, `/api/cancel-all-sent/<task_id>` resolves each
    username and withdraws the request, keeping running counters. What the
    platform answers for each username (its lookup, friendship or cancel
    call) is an input. */
module ServerSent {

  import opened Wrappers
  import opened Json
  import opened InstagramApi

  /** The username lookup raised one of the exceptions that end a stream. */
  predicate LookupStops(o: Outcome<Option<User>>) {
    o == Raise(RateLimitError) || o == Raise(AuthenticationError)
  }

  /** `n` usernames are handled: none of their lookups stops the stream and
      they are all the usernames, or the `n`-th is the first that stops it. */
  predicate HandledUpTo(lookups: seq<Outcome<Option<User>>>, n: nat) {
    && n <= |lookups|
    && (forall k :: 0 <= k < n - 1 ==> !LookupStops(lookups[k]))
    && ((n == |lookups| && (n == 0 || !LookupStops(lookups[n - 1]))) || (0 < n && LookupStops(lookups[n - 1])))
  }

  function Handled(lookups: seq<Outcome<Option<User>>>): (n: nat)
    ensures HandledUpTo(lookups, n)
  {
    if lookups == [] then 0 else if LookupStops(lookups[0]) then 1 else 1 + Handled(lookups[1..])
  }

  lemma {:induction false} HandledAtStop(lookups: seq<Outcome<Option<User>>>, i: nat)
    requires i < |lookups| && LookupStops(lookups[i])
    requires forall k :: 0 <= k < i ==> !LookupStops(lookups[k])
    ensures Handled(lookups) == i + 1
    decreases i
  {
    if i > 0 {
      HandledAtStop(lookups[1..], i - 1);
    }
  }

  lemma {:induction false} HandledAll(lookups: seq<Outcome<Option<User>>>)
    requires forall k :: 0 <= k < |lookups| ==> !LookupStops(lookups[k])
    ensures Handled(lookups) == |lookups|
    decreases |lookups|
  {
    if lookups != [] {
      HandledAll(lookups[1..]);
    }
  }

  /** Why a stream completed: `done`, `rate_limited` or `auth_error`. */
  datatype Reason = DoneReason | RateLimitedReason | AuthErrorReason

  function ReasonOf(lookups: seq<Outcome<Option<User>>>): (r: Reason)
  {
    var n := Handled(lookups);
    if n > 0 && lookups[n - 1] == Raise(RateLimitError) then RateLimitedReason
    else if n > 0 && lookups[n - 1] == Raise(AuthenticationError) then AuthErrorReason
    else DoneReason
  }

  /** A stream that stops at the `i`-th username has handled `i + 1` of
      them and completes with the reason that lookup raised. */
  lemma {:induction false} StopFacts(lookups: seq<Outcome<Option<User>>>, i: nat)
    requires i < |lookups| && LookupStops(lookups[i])
    requires forall k :: 0 <= k < i ==> !LookupStops(lookups[k])
    ensures Handled(lookups) == i + 1
    ensures ReasonOf(lookups) == if lookups[i] == Raise(RateLimitError) then RateLimitedReason else AuthErrorReason
  {
    HandledAtStop(lookups, i);
  }

  /** A stream that no lookup stops handles every username and completes `done`. */
  lemma {:induction false} AllFacts(lookups: seq<Outcome<Option<User>>>)
    requires forall k :: 0 <= k < |lookups| ==> !LookupStops(lookups[k])
    ensures Handled(lookups) == |lookups| && ReasonOf(lookups) == DoneReason
  {
    HandledAll(lookups);
  }

  /** The `request_date` the data export gave for a username, if any. */
  function DateOf(dates: map<string, string>, username: string): Option<string> {
    if username in dates then Some(dates[username]) else None
  }

  // ------------------------------------------------------------------
  // Check-sent stream
  // ------------------------------------------------------------------

  /** The `status` of one check-sent record. */
  datatype CheckStatus = Classified(status: LookupStatus) | RateLimitedItem | AuthErrorItem | ErrorItem

  /** One check-sent record: the username, its position, the export date,
      the user fields merged in (absent when the lookup raised) and the status. */
  datatype CheckRecord = CheckRecord(
    username: string, index: nat, total: nat, date: Option<string>,
    user: Option<User>, status: CheckStatus)

  /** What the platform answers for one username: the lookup, and the
      friendship call made when a user was found. */
  datatype CheckInput = CheckInput(lookup: Outcome<Option<User>>, friendship: Outcome<Json>)

  /** The record `api_check_sent` yields for the `i`-th username. */
  function CheckItem(username: string, i: nat, total: nat, dates: map<string, string>, input: CheckInput): (rec: CheckRecord)
  {
    var date := DateOf(dates, username);
    match input.lookup
    case Value(Some(u)) => CheckRecord(username, i, total, date, Some(u), Classified(ClassifyFriendship(input.friendship)))
    case Value(None) => CheckRecord(username, i, total, date, Some(NotFoundUser(username)), Classified(NotFound))
    case Raise(e) =>
      CheckRecord(username, i, total, date, None,
        if e == RateLimitError then RateLimitedItem else if e == AuthenticationError then AuthErrorItem else ErrorItem)
  }

  /** The record keeps the username, its position and its export date; it
      is `not_found` with an empty user exactly when the lookup found
      nobody, carries the user and the friendship status when it found one,
      and has a stopping status exactly when the lookup raised that error. */
  lemma {:induction false} CheckItemSpec(username: string, i: nat, total: nat, dates: map<string, string>, input: CheckInput)
    ensures var rec := CheckItem(username, i, total, dates, input);
      && rec.username == username && rec.index == i && rec.total == total && rec.date == DateOf(dates, username)
      && (rec.status == Classified(NotFound) <==> input.lookup == Value(None))
      && (rec.status == Classified(NotFound) ==> rec.user == Some(NotFoundUser(username)) && rec.user.value.userId == Null)
      && (input.lookup.Value? && input.lookup.value.Some? ==>
            rec.user == input.lookup.value && rec.status == Classified(ClassifyFriendship(input.friendship)))
      && (rec.status == RateLimitedItem <==> input.lookup == Raise(RateLimitError))
      && (rec.status == AuthErrorItem <==> input.lookup == Raise(AuthenticationError))
      && (rec.status == ErrorItem <==> input.lookup.Raise? && !LookupStops(input.lookup))
  {
  }

  datatype CheckEvent = CheckItemEvent(rec: CheckRecord) | CheckComplete(reason: Reason)

  /** The records of the first `n` usernames. */
  function CheckEvents(usernames: seq<string>, dates: map<string, string>, inputs: seq<CheckInput>, n: nat): seq<CheckEvent>
    requires n <= |inputs| == |usernames|
  {
    if n == 0 then []
    else CheckEvents(usernames, dates, inputs, n - 1) + [CheckItemEvent(CheckItem(usernames[n - 1], n - 1, |usernames|, dates, inputs[n - 1]))]
  }

  lemma {:induction false} CheckEventsSpec(usernames: seq<string>, dates: map<string, string>, inputs: seq<CheckInput>, n: nat)
    requires n <= |inputs| == |usernames|
    ensures var evs := CheckEvents(usernames, dates, inputs, n);
      && |evs| == n
      && forall k :: 0 <= k < n ==> evs[k] == CheckItemEvent(CheckItem(usernames[k], k, |usernames|, dates, inputs[k]))
    decreases n
  {
    if n > 0 {
      CheckEventsSpec(usernames, dates, inputs, n - 1);
    }
  }

  /** The `generate()` loop of `api_check_sent`: one record per username in
      order, until a lookup is rate limited or rejected; that record is
      still sent, then `complete` with that reason ends the stream;
      otherwise it ends with `complete`/`done`. */
  method CheckSent(usernames: seq<string>, dates: map<string, string>, inputs: seq<CheckInput>) returns (events: seq<CheckEvent>)
    requires |inputs| == |usernames|
    ensures events == CheckEvents(usernames, dates, inputs, Handled(Lookups(inputs))) + [CheckComplete(ReasonOf(Lookups(inputs)))]
  {
    var total := |usernames|;
    events := [];
    var i := 0;
    while i < total
      invariant i <= total
      invariant forall k :: 0 <= k < i ==> !LookupStops(inputs[k].lookup)
      invariant events == CheckEvents(usernames, dates, inputs, i)
    {
      var rec := CheckItem(usernames[i], i, total, dates, inputs[i]);
      events := events + [CheckItemEvent(rec)];
      if LookupStops(inputs[i].lookup) {
        StopFacts(Lookups(inputs), i);
        events := events + [CheckComplete(if inputs[i].lookup == Raise(RateLimitError) then RateLimitedReason else AuthErrorReason)];
        return;
      }
      i := i + 1;
    }
    AllFacts(Lookups(inputs));
    events := events + [CheckComplete(DoneReason)];
  }

  /** The lookup outcome of each username. */
  function Lookups(inputs: seq<CheckInput>): seq<Outcome<Option<User>>> {
    seq(|inputs|, k requires 0 <= k < |inputs| => inputs[k].lookup)
  }

  // ------------------------------------------------------------------
  // Cancel-all-sent stream
  // ------------------------------------------------------------------

  /** The `status` of one cancel-all-sent record. */
  datatype CancelStatus = CancelledItem | CancelFailed | NotFoundItem | RateLimitedCancel | AuthErrorCancel | ErrorCancel

  predicate IsSucceeded(s: CancelStatus) { s == CancelledItem }
  predicate IsSkipped(s: CancelStatus) { s == NotFoundItem }
  predicate IsFailed(s: CancelStatus) { !IsSucceeded(s) && !IsSkipped(s) }

  /** What the platform answers for one username: the lookup, and the
      cancel call made when a user with an id was found. */
  datatype CancelInput = CancelInput(lookup: Outcome<Option<User>>, cancel: Outcome<Json>)

  /** The status of one username in `api_cancel_all_sent`. */
  function CancelStatusOf(input: CancelInput): CancelStatus {
    match input.lookup
    case Value(Some(u)) =>
      if !PyTruthy(u.userId) then NotFoundItem
      else if input.cancel.Value? then CancelledItem
      else CancelFailed
    case Value(None) => NotFoundItem
    case Raise(e) =>
      if e == RateLimitError then RateLimitedCancel else if e == AuthenticationError then AuthErrorCancel else ErrorCancel
  }

  /** A lookup without a user id is skipped as not found; a user with an id
      is cancelled, and any exception from the cancel call itself, a rate
      limit included, only marks that item `cancel_failed`; an exception
      from the lookup gives the stopping statuses or `error`. */
  lemma {:induction false} CancelStatusSpec(input: CancelInput)
    ensures var s := CancelStatusOf(input);
      var found := input.lookup.Value? && input.lookup.value.Some? && PyTruthy(input.lookup.value.value.userId);
      && (s == CancelledItem <==> found && input.cancel.Value?)
      && (s == CancelFailed <==> found && input.cancel.Raise?)
      && (s == NotFoundItem <==> input.lookup.Value? && !found)
      && (s == RateLimitedCancel <==> input.lookup == Raise(RateLimitError))
      && (s == AuthErrorCancel <==> input.lookup == Raise(AuthenticationError))
      && (s == ErrorCancel <==> input.lookup.Raise? && !LookupStops(input.lookup))
  {
  }

  /** The succeeded, failed and skipped counters after the first `n` usernames. */
  datatype Tally = Tally(succeeded: nat, failed: nat, skipped: nat)

  /** The counters once one more username with status `s` is handled. */
  function Counted(t: Tally, s: CancelStatus): Tally {
    Tally(t.succeeded + (if IsSucceeded(s) then 1 else 0),
          t.failed + (if IsFailed(s) then 1 else 0),
          t.skipped + (if IsSkipped(s) then 1 else 0))
  }

  function TallyOf(inputs: seq<CancelInput>, n: nat): Tally
    requires n <= |inputs|
  {
    if n == 0 then Tally(0, 0, 0) else Counted(TallyOf(inputs, n - 1), CancelStatusOf(inputs[n - 1]))
  }

  /** After the `i`-th record, `succeeded + failed + skipped == i + 1`. */
  lemma {:induction false} TallyPartition(inputs: seq<CancelInput>, n: nat)
    requires n <= |inputs|
    ensures var t := TallyOf(inputs, n); t.succeeded + t.failed + t.skipped == n
    decreases n
  {
    if n > 0 {
      TallyPartition(inputs, n - 1);
    }
  }

  /** The user fields a cancel-all-sent record carries: id, picture and name. */
  datatype FoundUser = FoundUser(userId: Json, profilePicUrl: Json, fullName: Json)

  datatype CancelRecord = CancelRecord(
    username: string, index: nat, total: nat, date: Option<string>,
    user: Option<FoundUser>, status: CancelStatus, tally: Tally)

  /** The fields copied from a lookup that found a user with an id. */
  function FoundOf(input: CancelInput): Option<FoundUser> {
    if input.lookup.Value? && input.lookup.value.Some? && PyTruthy(input.lookup.value.value.userId) then
      var u := input.lookup.value.value;
      Some(FoundUser(u.userId, u.profilePicUrl, u.fullName))
    else None
  }

  /** The record `api_cancel_all_sent` yields for the `i`-th username, with the counters so far. */
  function CancelItem(usernames: seq<string>, dates: map<string, string>, inputs: seq<CancelInput>, i: nat): CancelRecord
    requires i < |inputs| == |usernames|
  {
    CancelRecord(usernames[i], i, |usernames|, DateOf(dates, usernames[i]),
                 FoundOf(inputs[i]), CancelStatusOf(inputs[i]), TallyOf(inputs, i + 1))
  }

  datatype CancelEvent = CancelItemEvent(rec: CancelRecord) | CancelComplete(reason: Reason, tally: Tally)

  /** The lookup outcome of each username. */
  function CancelLookups(inputs: seq<CancelInput>): seq<Outcome<Option<User>>> {
    seq(|inputs|, k requires 0 <= k < |inputs| => inputs[k].lookup)
  }

  /** The records of the first `n` usernames. */
  function CancelEvents(usernames: seq<string>, dates: map<string, string>, inputs: seq<CancelInput>, n: nat): seq<CancelEvent>
    requires n <= |inputs| == |usernames|
  {
    if n == 0 then []
    else CancelEvents(usernames, dates, inputs, n - 1) + [CancelItemEvent(CancelItem(usernames, dates, inputs, n - 1))]
  }

  lemma {:induction false} CancelEventsSpec(usernames: seq<string>, dates: map<string, string>, inputs: seq<CancelInput>, n: nat)
    requires n <= |inputs| == |usernames|
    ensures var evs := CancelEvents(usernames, dates, inputs, n);
      && |evs| == n
      && forall k :: 0 <= k < n ==> evs[k] == CancelItemEvent(CancelItem(usernames, dates, inputs, k))
    decreases n
  {
    if n > 0 {
      CancelEventsSpec(usernames, dates, inputs, n - 1);
    }
  }

  /** The `generate()` loop of `api_cancel_all_sent`: one record per
      username in order, each carrying the running counters, until a lookup
      is rate limited or rejected; then `complete` with the reason and the
      final counters. */
  method CancelAllSent(usernames: seq<string>, dates: map<string, string>, inputs: seq<CancelInput>)
    returns (events: seq<CancelEvent>)
    requires |inputs| == |usernames|
    ensures var n := Handled(CancelLookups(inputs));
      events == CancelEvents(usernames, dates, inputs, n) + [CancelComplete(ReasonOf(CancelLookups(inputs)), TallyOf(inputs, n))]
  {
    var total := |usernames|;
    var succeeded, failed, skipped := 0, 0, 0;
    events := [];
    var i := 0;
    while i < total
      invariant i <= total
      invariant forall k :: 0 <= k < i ==> !LookupStops(inputs[k].lookup)
      invariant Tally(succeeded, failed, skipped) == TallyOf(inputs, i)
      invariant events == CancelEvents(usernames, dates, inputs, i)
    {
      var status := CancelStatusOf(inputs[i]);
      if IsSucceeded(status) {
        succeeded := succeeded + 1;
      } else if IsSkipped(status) {
        skipped := skipped + 1;
      } else {
        failed := failed + 1;
      }
      assert Tally(succeeded, failed, skipped) == TallyOf(inputs, i + 1);
      var rec := CancelRecord(usernames[i], i, total, DateOf(dates, usernames[i]),
                              FoundOf(inputs[i]), status, Tally(succeeded, failed, skipped));
      events := events + [CancelItemEvent(rec)];
      if LookupStops(inputs[i].lookup) {
        StopFacts(CancelLookups(inputs), i);
        events := events + [CancelComplete(
          if inputs[i].lookup == Raise(RateLimitError) then RateLimitedReason else AuthErrorReason,
          Tally(succeeded, failed, skipped))];
        return;
      }
      i := i + 1;
    }
    AllFacts(CancelLookups(inputs));
    events := events + [CancelComplete(DoneReason, Tally(succeeded, failed, skipped))];
  }

  /** Every record's counters account for exactly the usernames handled so
      far, and a stopping lookup is counted as failed. */
  lemma {:induction false} CancelRecordCounters(usernames: seq<string>, dates: map<string, string>, inputs: seq<CancelInput>, i: nat)
    requires i < |inputs| == |usernames|
    ensures var rec := CancelItem(usernames, dates, inputs, i);
      && rec.tally.succeeded + rec.tally.failed + rec.tally.skipped == i + 1
      && (LookupStops(inputs[i].lookup) ==> rec.tally.failed >= 1 && IsFailed(rec.status))
      && (inputs[i].lookup == Value(None) ==> rec.status == NotFoundItem && rec.tally.skipped >= 1)
      && (rec.user.Some? <==> rec.status in {CancelledItem, CancelFailed})
  {
    TallyPartition(inputs, i + 1);
    CancelStatusSpec(inputs[i]);
  }
}
