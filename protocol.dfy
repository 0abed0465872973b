/** The two halves of the application put together: what the browser ends
    up showing for a batch the server ran, how the check-sent records turn
    into rows of the sent tab, and where the server's and the browser's
    reading of the same input part ways. */
module Protocol {

  import opened Wrappers
  import opened Json
  import opened Text
  import opened ServerBatch
  import opened ClientProgress
  import InstagramApi
  import ServerSent
  import ServerNames
  import ClientNames
  import ClientSent
  import Lists

  // ------------------------------------------------------------------
  // A batch, from `_run_batch` to the overlay
  // ------------------------------------------------------------------

  /** Each message of the stream handed to `es.onmessage`, in order. */
  function Delivered(msgs: seq<StreamMsg>): (evs: seq<ClientEvent>)
    ensures |evs| == |msgs| && forall k :: 0 <= k < |msgs| ==> evs[k] == Message(msgs[k])
    decreases |msgs|
  {
    if msgs == [] then [] else Delivered(msgs[..|msgs| - 1]) + [Message(msgs[|msgs| - 1])]
  }

  /** The log lines of the first `n` items the batch processed. */
  function ExpectedLog(ctx: Ctx, ids: seq<int>, outs: seq<CallOutcome>, n: nat): (log: seq<LogEntry>)
    requires n <= |ids| == |outs|
    ensures |log| == n && forall k :: 0 <= k < n ==> log[k] == LogEntryFor(ctx, ids[k], StatusOf(outs[k]))
  {
    seq(n, k requires 0 <= k < n => LogEntryFor(ctx, ids[k], StatusOf(outs[k])))
  }

  lemma ExpectedLogSnoc(ctx: Ctx, ids: seq<int>, outs: seq<CallOutcome>, before: seq<LogEntry>, n: nat)
    requires n < |ids| == |outs|
    ensures before + ExpectedLog(ctx, ids, outs, n + 1)
      == (before + ExpectedLog(ctx, ids, outs, n)) + [LogEntryFor(ctx, ids[n], StatusOf(outs[n]))]
  {
    var l := before + ExpectedLog(ctx, ids, outs, n + 1);
    var r := (before + ExpectedLog(ctx, ids, outs, n)) + [LogEntryFor(ctx, ids[n], StatusOf(outs[n]))];
    forall k | 0 <= k < |l| ensures l[k] == r[k] {
    }
  }

  /** The ids of the first `n` items. */
  function IdsUpTo(ids: seq<int>, n: nat): set<int>
    requires n <= |ids|
  {
    set k | 0 <= k < n :: ids[k]
  }

  lemma {:induction false} IdsUpToSnoc(ids: seq<int>, n: nat)
    requires n < |ids|
    ensures IdsUpTo(ids, n + 1) == IdsUpTo(ids, n) + {ids[n]}
  {
  }

  /** The counters shown after the `n`-th progress message. */
  function ShownAfter(ids: seq<int>, outs: seq<CallOutcome>, n: nat): Shown
    requires n <= |ids| == |outs|
  {
    var c := CountersAfter(ids, outs, n);
    Shown(c.completed, c.total, c.succeeded, c.failed)
  }

  lemma {:induction false} ReplayConcat(v: View, ctx: Ctx, a: seq<ClientEvent>, b: seq<ClientEvent>)
    ensures Replay(v, ctx, a + b) == Replay(Replay(v, ctx, a), ctx, b)
    decreases |a|
  {
    if a == [] {
      assert a + b == b;
    } else {
      assert (a + b)[0] == a[0] && (a + b)[1..] == a[1..] + b;
      ReplayConcat(Receive(v, ctx, a[0]), ctx, a[1..], b);
    }
  }

  /** `msgs` is what `api_progress` sends when it reads each queue entry as
      soon as it is put there. */
  predicate LockstepMessages(ids: seq<int>, outs: seq<CallOutcome>, msgs: seq<StreamMsg>)
    requires |ids| == |outs|
  {
    var polls := LockstepPolls(ids, outs);
    |msgs| == |polls| && forall k :: 0 <= k < |msgs| ==> msgs[k] == MessageOf(polls[k])
  }

  /** The progress message of the `k`-th item of that stream. */
  function ProgressAt(ids: seq<int>, outs: seq<CallOutcome>, k: nat): StreamMsg
    requires k < |ids| == |outs|
  {
    var c := CountersAfter(ids, outs, k + 1);
    ProgressMsg(ids[k], k, StatusOf(outs[k]), c.completed, c.total, c.succeeded, c.failed)
  }

  /** The stream is the progress message of each processed item, then the
      completion with the task's final status and counters. */
  lemma {:induction false} LockstepShape(ids: seq<int>, outs: seq<CallOutcome>, msgs: seq<StreamMsg>)
    requires |ids| == |outs| && LockstepMessages(ids, outs, msgs)
    ensures |msgs| == Processed(outs) + 1
    ensures forall k :: 0 <= k < Processed(outs) ==> msgs[k] == ProgressAt(ids, outs, k)
    ensures var t := FinalState(ids, outs);
      msgs[Processed(outs)] == CompleteMsg(t.status, t.total, t.succeeded, t.failed)
  {
  }

  /** The overlay after the first `n` progress messages. */
  function AfterProgress(v: View, ctx: Ctx, ids: seq<int>, outs: seq<CallOutcome>, n: nat): View
    requires n <= |ids| == |outs|
  {
    v.(shown := if n == 0 then v.shown else ShownAfter(ids, outs, n),
       log := v.log + ExpectedLog(ctx, ids, outs, n),
       marked := v.marked + IdsUpTo(ids, n) * ctx.rows)
  }

  /** What one progress message does to an open overlay. */
  lemma {:induction false} ReceiveProgress(w: View, ctx: Ctx, uid: int, index: nat, st: ItemStatus, c: nat, t: nat, ok: nat, bad: nat)
    requires w.channel == Open
    ensures Receive(w, ctx, Message(ProgressMsg(uid, index, st, c, t, ok, bad))) ==
      w.(shown := Shown(c, t, ok, bad), log := w.log + [LogEntryFor(ctx, uid, st)], marked := w.marked + {uid} * ctx.rows)
  {
  }

  lemma {:induction false} ProgressStep(v: View, ctx: Ctx, ids: seq<int>, outs: seq<CallOutcome>, n: nat)
    requires n < |ids| == |outs| && v.channel == Open
    ensures Receive(AfterProgress(v, ctx, ids, outs, n), ctx, Message(ProgressAt(ids, outs, n)))
      == AfterProgress(v, ctx, ids, outs, n + 1)
  {
    var w := AfterProgress(v, ctx, ids, outs, n);
    var c := CountersAfter(ids, outs, n + 1);
    var e := LogEntryFor(ctx, ids[n], StatusOf(outs[n]));
    ReceiveProgress(w, ctx, ids[n], n, StatusOf(outs[n]), c.completed, c.total, c.succeeded, c.failed);
    IdsUpToSnoc(ids, n);
    ExpectedLogSnoc(ctx, ids, outs, v.log, n);
    assert v.marked + IdsUpTo(ids, n + 1) * ctx.rows == w.marked + {ids[n]} * ctx.rows;
  }

  /** After the first `n` progress messages the overlay shows the counters
      of the `n`-th, one log line per item, and the rows of those items marked. */
  lemma {:induction false} ReplayProgress(v: View, ctx: Ctx, ids: seq<int>, outs: seq<CallOutcome>, msgs: seq<StreamMsg>, n: nat)
    requires n <= |msgs| && n <= |ids| == |outs| && v.channel == Open
    requires forall k :: 0 <= k < n ==> msgs[k] == ProgressAt(ids, outs, k)
    ensures Replay(v, ctx, Delivered(msgs[..n])) == AfterProgress(v, ctx, ids, outs, n)
    decreases n
  {
    if n == 0 {
      assert Delivered(msgs[..0]) == [];
      assert v.log + [] == v.log;
      assert IdsUpTo(ids, 0) == {};
    } else {
      ReplayProgress(v, ctx, ids, outs, msgs, n - 1);
      var before := Delivered(msgs[..n - 1]);
      assert msgs[..n][..n - 1] == msgs[..n - 1];
      assert Delivered(msgs[..n]) == before + [Message(msgs[n - 1])];
      ReplayConcat(v, ctx, before, [Message(msgs[n - 1])]);
      var w := Replay(v, ctx, before);
      assert Replay(w, ctx, [Message(msgs[n - 1])]) == Receive(w, ctx, Message(msgs[n - 1]));
      ProgressStep(v, ctx, ids, outs, n - 1);
    }
  }

  /** The overlay once the whole stream of a batch has been delivered. */
  function FinalView(v: View, ctx: Ctx, ids: seq<int>, outs: seq<CallOutcome>): View
    requires |ids| == |outs|
  {
    var t := FinalState(ids, outs);
    AfterProgress(v, ctx, ids, outs, Processed(outs)).(
      channel := Closed, fullBar := true, title := CompleteTitle(ctx.runner, t.status, t.succeeded), closeButton := true)
  }

  lemma {:induction false} BatchReplay(v: View, ctx: Ctx, ids: seq<int>, outs: seq<CallOutcome>, msgs: seq<StreamMsg>, later: seq<ClientEvent>)
    requires |ids| == |outs| && LockstepMessages(ids, outs, msgs) && v.channel == Open
    ensures Replay(v, ctx, Delivered(msgs) + later) == FinalView(v, ctx, ids, outs)
  {
    var n := Processed(outs);
    var t := FinalState(ids, outs);
    LockstepShape(ids, outs, msgs);
    ReplayProgress(v, ctx, ids, outs, msgs, n);
    CompleteAfterProgress(v, ctx, AfterProgress(v, ctx, ids, outs, n), msgs, n, t.status, t.total, t.succeeded, t.failed, later);
  }

  /** A batch seen from the browser: once the launcher's overlay has its
      task id and the whole stream is delivered, the overlay is still open
      with the close button shown and a full bar; its title is the one for
      the task's final status; it shows the task's final counters, one log
      line per processed item in order, and marks exactly the listed rows of
      the processed items; anything delivered afterwards changes nothing. */
  lemma {:induction false} BatchEndToEnd(v0: View, ctx: Ctx, taskId: string, ids: seq<int>, outs: seq<CallOutcome>, msgs: seq<StreamMsg>, later: seq<ClientEvent>)
    requires |ids| == |outs| && LockstepMessages(ids, outs, msgs)
    ensures var w := Replay(Submitted(Begin(v0, ctx.runner, |ids|), SubmitTask(taskId)), ctx, Delivered(msgs) + later);
      var t := FinalState(ids, outs);
      && w.overlay && w.channel == Closed && w.fullBar && w.closeButton
      && w.title == CompleteTitle(ctx.runner, t.status, t.succeeded)
      && w.log == ExpectedLog(ctx, ids, outs, Processed(outs))
      && (ids != [] ==> w.shown == Shown(t.completed, t.total, t.succeeded, t.failed))
      && w.marked == v0.marked + IdsUpTo(ids, Processed(outs)) * ctx.rows
  {
    var v := Submitted(Begin(v0, ctx.runner, |ids|), SubmitTask(taskId));
    BatchReplay(v, ctx, ids, outs, msgs, later);
    assert v.log == [] && v.overlay && v.marked == v0.marked;
    assert [] + ExpectedLog(ctx, ids, outs, Processed(outs)) == ExpectedLog(ctx, ids, outs, Processed(outs));
  }

  /** What the completion does to an open overlay. */
  lemma {:induction false} ReceiveComplete(w: View, ctx: Ctx, status: TaskStatus, total: nat, ok: nat, bad: nat)
    requires w.channel == Open
    ensures Receive(w, ctx, Message(CompleteMsg(status, total, ok, bad))) ==
      w.(channel := Closed, fullBar := true, title := CompleteTitle(ctx.runner, status, ok), closeButton := true)
  {
  }

  lemma {:induction false} CompleteAfterProgress(v: View, ctx: Ctx, w: View, msgs: seq<StreamMsg>, n: nat, status: TaskStatus, total: nat, ok: nat, bad: nat, later: seq<ClientEvent>)
    requires |msgs| == n + 1 && w.channel == Open
    requires Replay(v, ctx, Delivered(msgs[..n])) == w
    requires msgs[n] == CompleteMsg(status, total, ok, bad)
    ensures Replay(v, ctx, Delivered(msgs) + later) ==
      w.(channel := Closed, fullBar := true, title := CompleteTitle(ctx.runner, status, ok), closeButton := true)
  {
    assert msgs == msgs[..n] + [msgs[n]];
    assert Delivered(msgs) == Delivered(msgs[..n]) + [Message(msgs[n])];
    ReplayConcat(v, ctx, Delivered(msgs[..n]), [Message(msgs[n])]);
    ReplayConcat(v, ctx, Delivered(msgs), later);
    ReceiveComplete(w, ctx, status, total, ok, bad);
    var u := Receive(w, ctx, Message(msgs[n]));
    assert Replay(w, ctx, [Message(msgs[n])]) == u;
    NotOpenIgnoresEvents(u, ctx, later);
  }

  // ------------------------------------------------------------------
  // Check-sent records as rows of the sent tab
  // ------------------------------------------------------------------

  /** The `status` string of a check-sent record. */
  function CheckStatusName(s: ServerSent.CheckStatus): string {
    match s
    case Classified(st) =>
      if st.Pending? then "pending"
      else if st.Accepted? then "accepted"
      else if st.NotPending? then "not_pending"
      else if st.Unknown? then "unknown"
      else "not_found"
    case RateLimitedItem => "rate_limited"
    case AuthErrorItem => "auth_error"
    case ErrorItem => "error"
  }

  /** The row the page keeps for a record: the user fields merged in
      overwrite the username and supply the id; without them the id is absent. */
  function RowOf(rec: ServerSent.CheckRecord): ClientSent.SentRow {
    var name := if rec.user.Some? && rec.user.value.username.Str? then rec.user.value.username.s else rec.username;
    var id := if rec.user.Some? then rec.user.value.userId else Null;
    ClientSent.SentRow(name, id, CheckStatusName(rec.status))
  }

  /** Only pending, accepted and not-found records are counted under their
      own filter; every other status — including a lookup that was rate
      limited or rejected — counts as "other" and reads "Not Pending". */
  lemma {:induction false} StatusNamesOnTheSentTab(s: ServerSent.CheckStatus)
    ensures ClientSent.Counted(CheckStatusName(s)) <==>
      s in {ServerSent.Classified(InstagramApi.Pending), ServerSent.Classified(InstagramApi.Accepted), ServerSent.Classified(InstagramApi.NotFound)}
    ensures CheckStatusName(s) == "pending" <==> s == ServerSent.Classified(InstagramApi.Pending)
    ensures !ClientSent.Counted(CheckStatusName(s)) ==> ClientSent.Badge(CheckStatusName(s)) == "Not Pending"
  {
    var n := CheckStatusName(s);
    if s.Classified? {
      var st := s.status;
      if st.Accepted? {
        assert n[0] == 'a';
      } else if st.NotPending? {
        assert n[4] == 'p';
      } else if st.Unknown? {
        assert n[0] == 'u';
      } else if st.NotFound? {
        assert n[0] == 'n' && n[1] == 'o' && n[4] == 'f';
      }
    } else if s.RateLimitedItem? {
      assert n[0] == 'r';
    } else if s.AuthErrorItem? {
      assert n[0] == 'a' && n[1] == 'u';
    } else {
      assert n[0] == 'e';
    }
  }

  /** A record is picked by "Cancel All Pending" exactly when the friendship
      check said pending and the user merged in has a usable id; a username
      no endpoint resolved is never picked. */
  lemma {:induction false} RecordIsCandidate(rec: ServerSent.CheckRecord)
    ensures ClientSent.CancelCandidates([RowOf(rec)]) != [] <==>
      rec.status == ServerSent.Classified(InstagramApi.Pending) && rec.user.Some? && JsTruthy(rec.user.value.userId)
    ensures rec.status == ServerSent.Classified(InstagramApi.NotFound) && rec.user == Some(InstagramApi.NotFoundUser(rec.username)) ==>
      ClientSent.CancelCandidates([RowOf(rec)]) == []
  {
    var rows := [RowOf(rec)];
    assert rows[..0] == [];
    StatusNamesOnTheSentTab(rec.status);
  }

  // ------------------------------------------------------------------
  // A rate-limited lookup during check-sent
  // ------------------------------------------------------------------

  /** As written: the lookup swallows a 429 from both endpoints, so the
      username is reported not found and the stream goes on to the next one. */
  lemma {:induction false} RateLimitReadsAsNotFound(username: string, i: nat, total: nat, dates: map<string, string>, info: InstagramApi.Reply, web: InstagramApi.Reply, friendship: InstagramApi.Outcome<Json>)
    requires info.Response? && info.status == 429 && web.Response? && web.status == 429
    ensures var input := ServerSent.CheckInput(InstagramApi.Value(InstagramApi.GetUserByUsername(info, web, username)), friendship);
      && ServerSent.CheckItem(username, i, total, dates, input).status == ServerSent.Classified(InstagramApi.NotFound)
      && !ServerSent.LookupStops(input.lookup)
  {
    InstagramApi.RejectedLookupIsNotFound(info, web, username);
    var input := ServerSent.CheckInput(InstagramApi.Value(InstagramApi.GetUserByUsername(info, web, username)), friendship);
    ServerSent.CheckItemSpec(username, i, total, dates, input);
  }

  /** As written, with lookups that never raise, no check-sent stream ever
      stops early: every username is handled and the reason is `done`. */
  lemma {:induction false} AsWrittenNeverStops(inputs: seq<ServerSent.CheckInput>)
    requires forall k :: 0 <= k < |inputs| ==> inputs[k].lookup.Value?
    ensures ServerSent.Handled(ServerSent.Lookups(inputs)) == |inputs|
    ensures ServerSent.ReasonOf(ServerSent.Lookups(inputs)) == ServerSent.DoneReason
  {
    ServerSent.HandledAll(ServerSent.Lookups(inputs));
  }

  /** With the lookup raising as its callers expect, the same reply yields
      the `rate_limited` record and ends the stream with that reason. */
  lemma {:induction false} RateLimitStopsStrict(username: string, i: nat, total: nat, dates: map<string, string>, info: InstagramApi.Reply, web: InstagramApi.Reply, friendship: InstagramApi.Outcome<Json>)
    requires info.Response? && info.status == 429
    ensures var input := ServerSent.CheckInput(InstagramApi.GetUserByUsernameStrict(info, web, username), friendship);
      && ServerSent.CheckItem(username, i, total, dates, input).status == ServerSent.RateLimitedItem
      && ServerSent.LookupStops(input.lookup)
      && ServerSent.ReasonOf([input.lookup]) == ServerSent.RateLimitedReason
  {
    var l := InstagramApi.GetUserByUsernameStrict(info, web, username);
    assert l == InstagramApi.Raise(InstagramApi.RateLimitError);
    ServerSent.CheckItemSpec(username, i, total, dates, ServerSent.CheckInput(l, friendship));
    ServerSent.HandledAtStop([l], 0);
  }

  // ------------------------------------------------------------------
  // The two `usernames` values of `fetchSentRequests`
  // ------------------------------------------------------------------

  /** As written: with names extracted in the browser and text pasted too,
      the form carries two `usernames` values, and the server keeps only the
      first, so a pasted name that was not extracted is not checked; reading
      every value keeps it. */
  lemma {:induction false} PastedNamesDropped(extracted: seq<string>, hasFile: bool, paste: string, x: string)
    requires extracted != [] && forall i :: 0 <= i < |extracted| ==> ServerNames.CleanName(extracted[i])
    requires Strip(JavaScript, paste) != ""
    requires x !in extracted && x in ServerNames.Cleaned(ServerNames.PastedTokens(Strip(JavaScript, paste)))
    ensures var f := ClientSent.BuildSentForm(extracted, hasFile, paste);
      && f.Form? && !f.withFile && f.values == [Join(extracted, "\n"), Strip(JavaScript, paste)]
      && x !in ServerNames.MultipartNames(None, ServerNames.FormGet(f.values))
      && x in ServerNames.MultipartNamesAll(None, f.values)
  {
    var p := Strip(JavaScript, paste);
    var f := ClientSent.BuildSentForm(extracted, hasFile, paste);
    assert |f.values| == 2 && f.values[0] == Join(extracted, "\n") && f.values[1] == p;
    assert f.values == [Join(extracted, "\n"), p];
    FirstValueOnly(extracted, p, x);
  }

  /** The server's side of it: of the two values only the first is read. */
  lemma {:induction false} FirstValueOnly(extracted: seq<string>, p: string, x: string)
    requires extracted != [] && forall i :: 0 <= i < |extracted| ==> ServerNames.CleanName(extracted[i])
    requires x !in extracted && x in ServerNames.Cleaned(ServerNames.PastedTokens(p))
    ensures var values := [Join(extracted, "\n"), p];
      && x !in ServerNames.MultipartNames(None, ServerNames.FormGet(values))
      && x in ServerNames.MultipartNamesAll(None, values)
  {
    var j := Join(extracted, "\n");
    var values := [j, p];
    JoinStartsWith(extracted, "\n");
    assert IsSeparator(Python, '\n');
    SplitJoin(Python, extracted, '\n');
    assert ServerNames.PastedTokens(j) == extracted;
    forall i | 0 <= i < |extracted| ensures extracted[i] != "" && ServerNames.Normalize(extracted[i]) == extracted[i] {
      ServerNames.NormalizeClean(extracted[i]);
    }
    ServerNames.CleanedOfClean(extracted);
    Lists.AppendNewSpec([], extracted);
    ServerNames.MultipartNamesAllSpec(None, values);
    assert values[1] == p;
  }

  // ------------------------------------------------------------------
  // Leading `@` on the two sides
  // ------------------------------------------------------------------

  lemma {:induction false} LStripTwo(x: string)
    requires x != [] && x[0] != '@'
    ensures LStripAll("@@" + x, '@') == x
  {
    var s := "@@" + x;
    assert s[0] == '@' && s[1..][0] == '@' && s[1..][1..] == x;
    assert LeadingRun(x, '@') == 0;
    assert LeadingRun(s[1..], '@') == 1;
    assert LeadingRun(s, '@') == 2;
    assert s[2..] == x;
  }

  /** The server removes every leading `@`, the browser only one: a name
      typed as `@@x` reaches the server's lists as `x` but is looked up by
      the browser as `@x`. */
  lemma {:induction false} AtPrefixReadDifferently(x: string)
    requires ServerNames.CleanName(x) && ClientNames.PlainName(x)
    ensures ServerNames.Normalize("@@" + x) == x
    ensures ClientNames.ClientName("@@" + x) == "@" + x
  {
    var t := "@@" + x;
    assert NoSeparator(Python, t) by {
      forall i | 0 <= i < |t| ensures !IsSeparator(Python, t[i]) {
        if i >= 2 {
          assert t[i] == x[i - 2];
        }
      }
    }
    StripClean(Python, t);
    LStripTwo(x);
    ClientNames.DoubleAtKeepsOne(x);
  }
}
