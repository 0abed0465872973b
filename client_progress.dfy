/** The browser side of a batch: the progress overlay that `autoCancelAll`,
    `autoCancelSent`, `autoUnfollowAll` and `startBatchAction` open, and the
    handlers that fold the server's progress stream into it; and the single
    button of `cancelSingle`. The DOM is reduced to the state it shows. */
module ClientProgress {

  import opened Text
  import opened ServerBatch

  /** `currentTab`. */
  datatype Tab = PendingTab | NfbTab | SentTab

  /** Which of the four batch launchers opened the overlay. */
  datatype Runner = DeclineAll | CancelSent | UnfollowAll | BatchSelected(tab: Tab)

  datatype Endpoint = CancelEndpoint | UnfollowEndpoint

  /** Unfollowing goes to `/api/unfollow`; declining and cancelling to `/api/cancel`. */
  function EndpointOf(r: Runner): Endpoint {
    match r
    case UnfollowAll => UnfollowEndpoint
    case BatchSelected(tab) => if tab == NfbTab then UnfollowEndpoint else CancelEndpoint
    case _ => CancelEndpoint
  }

  function StartTitle(r: Runner): string {
    match r
    case DeclineAll => "Declining Requests..."
    case CancelSent => "Cancelling Sent Requests..."
    case UnfollowAll => "Auto Unfollowing..."
    case BatchSelected(tab) => if tab == NfbTab then "Unfollowing..." else "Cancelling Requests..."
  }

  /** The log text of an item whose `result_status` is `cancelled`. */
  function SuccessWord(r: Runner): string {
    match r
    case DeclineAll => "Declined"
    case CancelSent => "Cancelled"
    case UnfollowAll => "Unfollowed"
    case BatchSelected(_) => "Done"
  }

  /** The wire names of item statuses, which the log shows for a failed item. */
  function ItemStatusText(s: ItemStatus): string {
    match s
    case Cancelled => "cancelled"
    case RateLimited => "rate_limited"
    case AuthError => "auth_error"
    case Error => "error"
  }

  const RateLimitedTitle: string := "Rate Limited — Try again later"
  const StoppedTitle: string := "Stopped"
  const ConnectionLost: string := "Connection Lost"

  /** The overlay title a `complete` message sets; it depends on the
      launcher, the status and (for the totals) the success count only. */
  function CompleteTitle(r: Runner, status: TaskStatus, succeeded: nat): string {
    var n := NatToDecimal(succeeded);
    match r
    case BatchSelected(_) =>
      if status == Completed then "All Done!" else if status == RateLimitedStop then "Rate Limited" else StoppedTitle
    case _ =>
      if status == Completed then
        match r
        case DeclineAll => "Done! Declined " + n + " requests"
        case CancelSent => "Done! Cancelled " + n + " requests"
        case UnfollowAll => "Done! Unfollowed " + n + " users"
      else if status == RateLimitedStop then RateLimitedTitle
      else StoppedTitle
  }

  /** `progress-text`, `progress-succeeded` and `progress-failed`. */
  datatype Shown = Shown(completed: nat, total: nat, succeeded: nat, failed: nat)

  /** The `EventSource` of `/api/progress/<task_id>`. */
  datatype Channel = NotOpened | Open | Closed

  datatype LogEntry = LogEntry(name: string, text: string, success: bool)

  /** What the page shows of a batch. `actionBar` is whether the
      `#action-bar` element is displayed, the same element whose visibility
      `ClientSelection.Bar.visible` tracks; `closeProgress()` hides it. */
  datatype View = View(
    overlay: bool, actionBar: bool, title: string, shown: Shown, fullBar: bool,
    closeButton: bool, channel: Channel, marked: set<int>, log: seq<LogEntry>)

  /** What the handlers close over: the launcher, `usernameMap`, and the ids
      of the rows the row selector can find. */
  datatype Ctx = Ctx(runner: Runner, names: map<int, string>, rows: set<int>)

  /** The answer to the POST that starts the batch. */
  datatype SubmitReply = SubmitTask(taskId: string) | SubmitError(message: string) | SubmitFailed

  datatype ClientEvent = Message(msg: StreamMsg) | TransportError

  /** The logged name: `@` and the known username, or `@` and the id when none is known. */
  function NameOf(names: map<int, string>, id: int): string {
    "@" + (if id in names && names[id] != "" then names[id] else IntToDecimal(id))
  }

  /** A listed user, as far as the launchers use it. */
  datatype Listed = Listed(userId: int, username: string)

  /** The id-to-username map the page builds from the listed users: a later
      user with the same id overwrites an earlier one. */
  function UsernameMap(users: seq<Listed>): map<int, string> {
    if users == [] then map[]
    else
      var last := users[|users| - 1];
      UsernameMap(users[..|users| - 1])[last.userId := last.username]
  }

  /** `k` is the last position listing `id`. */
  predicate LastListed(users: seq<Listed>, k: int, id: int) {
    0 <= k < |users| && users[k].userId == id && forall j :: k < j < |users| ==> users[j].userId != id
  }

  /** Every listed id is in the map, with the username of the last user
      listed under it, and nothing else is. */
  lemma {:induction false} UsernameMapSpec(users: seq<Listed>)
    ensures forall k :: 0 <= k < |users| ==> users[k].userId in UsernameMap(users)
    ensures forall id :: id in UsernameMap(users) ==>
      exists k :: LastListed(users, k, id) && UsernameMap(users)[id] == users[k].username
    decreases |users|
  {
    if users != [] {
      var init := users[..|users| - 1];
      var last := users[|users| - 1];
      UsernameMapSpec(init);
      var m := UsernameMap(users);
      forall id | id in m
        ensures exists k :: LastListed(users, k, id) && m[id] == users[k].username
      {
        if id == last.userId {
          assert LastListed(users, |users| - 1, id);
        } else {
          var k :| LastListed(init, k, id) && UsernameMap(init)[id] == init[k].username;
          assert users[k] == init[k];
          forall j | k < j < |users| ensures users[j].userId != id {
            if j < |init| {
              assert users[j] == init[j];
            }
          }
          assert LastListed(users, k, id);
        }
      }
      forall k | 0 <= k < |users| ensures users[k].userId in m {
        if k < |init| {
          assert users[k] == init[k];
        }
      }
    }
  }

  /** The overlay as a launcher sets it up before submitting `count` ids.
      Rows marked earlier stay marked. */
  function Begin(v: View, r: Runner, count: nat): View {
    View(true, v.actionBar, StartTitle(r), Shown(0, count, 0, 0), false, false, NotOpened, v.marked, [])
  }

  /** An error reply or a failed request closes the overlay (and the action
      bar) without opening a channel; a task id opens the channel. */
  function Submitted(v: View, reply: SubmitReply): View {
    match reply
    case SubmitTask(_) => v.(channel := Open)
    case _ => v.(overlay := false, actionBar := false)
  }

  /** The log line of one item: a success iff it was cancelled. */
  function LogEntryFor(ctx: Ctx, uid: int, st: ItemStatus): LogEntry {
    var ok := st == Cancelled;
    LogEntry(NameOf(ctx.names, uid), if ok then SuccessWord(ctx.runner) else ItemStatusText(st), ok)
  }

  /** One `onmessage`/`onerror` call. Nothing is delivered to a channel that
      is not open. */
  function Receive(v: View, ctx: Ctx, ev: ClientEvent): View {
    if v.channel != Open then v
    else
      match ev
      case TransportError => Lost(v)
      case Message(Keepalive) => v
      case Message(ProgressMsg(uid, _, st, completed, total, succeeded, failed)) =>
        v.(shown := Shown(completed, total, succeeded, failed),
           log := v.log + [LogEntryFor(ctx, uid, st)],
           marked := if uid in ctx.rows then v.marked + {uid} else v.marked)
      case Message(CompleteMsg(status, _, succeeded, _)) =>
        v.(channel := Closed, fullBar := true, title := CompleteTitle(ctx.runner, status, succeeded), closeButton := true)
  }

  /** `es.onerror` on an open channel. */
  function Lost(v: View): View {
    v.(channel := Closed, title := ConnectionLost, closeButton := true)
  }

  /** The events of one stream, in order. */
  function Replay(v: View, ctx: Ctx, evs: seq<ClientEvent>): View
    decreases |evs|
  {
    if evs == [] then v else Replay(Receive(v, ctx, evs[0]), ctx, evs[1..])
  }

  predicate Closes(ev: ClientEvent) {
    ev == TransportError || (ev.Message? && ev.msg.CompleteMsg?)
  }

  /** The ids of the progress messages delivered before the channel closes. */
  function DeliveredIds(evs: seq<ClientEvent>): set<int>
    decreases |evs|
  {
    if evs == [] || Closes(evs[0]) then {}
    else (if evs[0].Message? && evs[0].msg.ProgressMsg? then {evs[0].msg.userId} else {}) + DeliveredIds(evs[1..])
  }

  /** A progress message sets the counters from the message alone, whatever
      was shown before; it adds exactly one log entry, a success iff the item
      was cancelled, named after the username or else the raw id; it marks
      the row with that id if there is one. */
  lemma {:induction false} ProgressMessageEffect(v: View, ctx: Ctx, uid: int, index: nat, st: ItemStatus, completed: nat, total: nat, succeeded: nat, failed: nat)
    requires v.channel == Open
    ensures var w := Receive(v, ctx, Message(ProgressMsg(uid, index, st, completed, total, succeeded, failed)));
      && w.shown == Shown(completed, total, succeeded, failed)
      && |w.log| == |v.log| + 1 && w.log[..|v.log|] == v.log
      && w.log[|v.log|].success == (st == Cancelled)
      && (uid in ctx.names && ctx.names[uid] != "" ==> w.log[|v.log|].name == "@" + ctx.names[uid])
      && (uid !in ctx.names ==> w.log[|v.log|].name == "@" + IntToDecimal(uid))
      && (uid in ctx.names && ctx.names[uid] == "" ==> w.log[|v.log|].name == "@" + IntToDecimal(uid))
      && w.marked == v.marked + ({uid} * ctx.rows)
      && w.channel == Open && w.title == v.title
  {
  }

  /** `complete` closes the channel, shows the close button and fills the
      bar; the counters keep what the last progress message set. */
  lemma {:induction false} CompleteMessageEffect(v: View, ctx: Ctx, status: TaskStatus, total: nat, succeeded: nat, failed: nat)
    requires v.channel == Open
    ensures var w := Receive(v, ctx, Message(CompleteMsg(status, total, succeeded, failed)));
      && w.channel == Closed && w.closeButton && w.fullBar
      && w.title == CompleteTitle(ctx.runner, status, succeeded)
      && w.shown == v.shown && w.log == v.log && w.marked == v.marked
  {
  }

  /** Only `completed` and `rate_limited` have titles of their own; every
      other status (`auth_error` included) reads "Stopped". */
  lemma {:induction false} CompleteTitleByStatus(r: Runner, status: TaskStatus, n: nat, m: nat)
    ensures status != Completed && status != RateLimitedStop ==> CompleteTitle(r, status, n) == StoppedTitle
    ensures status != Completed ==> CompleteTitle(r, status, n) == CompleteTitle(r, status, m)
    ensures CompleteTitle(r, Completed, n) != CompleteTitle(r, RateLimitedStop, n)
    ensures CompleteTitle(r, Completed, n) != StoppedTitle && CompleteTitle(r, RateLimitedStop, n) != StoppedTitle
  {
    var done := CompleteTitle(r, Completed, n);
    assert done[0] == (if r.BatchSelected? then 'A' else 'D');
  }

  /** A transport error closes the channel with "Connection Lost", which is
      none of the titles a `complete` message can set, and keeps the
      counters, the log and the marked rows. */
  lemma {:induction false} TransportErrorEffect(v: View, ctx: Ctx, status: TaskStatus, n: nat)
    requires v.channel == Open
    ensures var w := Receive(v, ctx, TransportError);
      && w.channel == Closed && w.closeButton && w.title == ConnectionLost
      && w.shown == v.shown && w.log == v.log && w.marked == v.marked
    ensures CompleteTitle(ctx.runner, status, n) != ConnectionLost
  {
    var t := CompleteTitle(ctx.runner, status, n);
    assert t[0] in {'A', 'D', 'R', 'S'};
  }

  /** Once the channel is closed, or was never opened, later events change nothing. */
  lemma {:induction false} NotOpenIgnoresEvents(v: View, ctx: Ctx, evs: seq<ClientEvent>)
    requires v.channel != Open
    ensures Replay(v, ctx, evs) == v
    decreases |evs|
  {
    if evs != [] {
      NotOpenIgnoresEvents(v, ctx, evs[1..]);
    }
  }

  /** A rejected submit opens no channel and closes the overlay, so the
      stream's events never reach the view. */
  lemma {:induction false} RejectedSubmitShowsNothing(v: View, r: Runner, count: nat, reply: SubmitReply, ctx: Ctx, evs: seq<ClientEvent>)
    requires !reply.SubmitTask?
    ensures var w := Submitted(Begin(v, r, count), reply);
      && w.channel == NotOpened && !w.overlay && !w.actionBar
      && Replay(w, ctx, evs) == w
  {
    NotOpenIgnoresEvents(Submitted(Begin(v, r, count), reply), ctx, evs);
  }

  /** The rows marked at the end are those marked before plus the rows
      whose ids the delivered progress messages carry: a set, so the order
      in which the messages arrive does not matter. */
  lemma {:induction false} ReplayMarked(v: View, ctx: Ctx, evs: seq<ClientEvent>)
    requires v.channel == Open
    ensures Replay(v, ctx, evs).marked == v.marked + (DeliveredIds(evs) * ctx.rows)
    decreases |evs|
  {
    if evs != [] {
      var w := Receive(v, ctx, evs[0]);
      if Closes(evs[0]) {
        NotOpenIgnoresEvents(w, ctx, evs[1..]);
      } else {
        ReplayMarked(w, ctx, evs[1..]);
      }
    }
  }

  /** The overlay of the page, field by field. */
  class ProgressOverlay {
    var overlay: bool
    var actionBar: bool
    var title: string
    var shown: Shown
    var fullBar: bool
    var closeButton: bool
    var channel: Channel
    var marked: set<int>
    var log: seq<LogEntry>

    function Current(): View
      reads this
    {
      View(overlay, actionBar, title, shown, fullBar, closeButton, channel, marked, log)
    }

    /** The page before any batch: overlay hidden, nothing marked. */
    constructor (actionBar: bool)
      ensures Current() == View(false, actionBar, "", Shown(0, 0, 0, 0), false, false, NotOpened, {}, [])
    {
      overlay := false;
      this.actionBar := actionBar;
      title := "";
      shown := Shown(0, 0, 0, 0);
      fullBar := false;
      closeButton := false;
      channel := NotOpened;
      marked := {};
      log := [];
    }

    /** A launcher: its guards, then its set-up lines. Without users, or
        when the user dismisses the confirm dialog, it returns before
        touching the overlay and posts nothing; `posted` says whether the
        request goes out. */
    method Launch(r: Runner, count: nat, confirmed: bool) returns (posted: bool)
      modifies this
      ensures posted == Launches(r, count, confirmed)
      ensures Current() == if posted then Begin(old(Current()), r, count) else old(Current())
    {
      if !Launches(r, count, confirmed) {
        return false;
      }
      posted := true;
      title := StartTitle(r);
      shown := Shown(0, count, 0, 0);
      fullBar := false;
      closeButton := false;
      channel := NotOpened;
      log := [];
      overlay := true;
    }

    /** The `.then(data => ...)` and `.catch(...)` of the submit. */
    method OnSubmitReply(reply: SubmitReply)
      modifies this
      ensures Current() == Submitted(old(Current()), reply)
    {
      if reply.SubmitTask? {
        channel := Open;
      } else {
        overlay := false;
        actionBar := false;
      }
    }

    /** `es.onmessage`. */
    method OnMessage(ctx: Ctx, msg: StreamMsg)
      modifies this
      ensures Current() == Receive(old(Current()), ctx, Message(msg))
    {
      if channel != Open {
        return;
      }
      match msg {
        case Keepalive =>
        case ProgressMsg(uid, _, st, completed, total, succeeded, failed) =>
          shown := Shown(completed, total, succeeded, failed);
          log := log + [LogEntryFor(ctx, uid, st)];
          if uid in ctx.rows {
            marked := marked + {uid};
          }
        case CompleteMsg(status, _, succeeded, _) =>
          channel := Closed;
          fullBar := true;
          title := CompleteTitle(ctx.runner, status, succeeded);
          closeButton := true;
      }
    }

    /** `es.onerror`. */
    method OnError()
      modifies this
      ensures Current() == if old(channel) == Open then Lost(old(Current())) else old(Current())
    {
      if channel != Open {
        return;
      }
      channel := Closed;
      title := ConnectionLost;
      closeButton := true;
    }
  }

  // ------------------------------------------------------------------
  // Launch guards
  // ------------------------------------------------------------------

  /** Whether a launcher gets as far as opening the overlay: it needs at
      least one user, and the three "all" launchers also need the user to
      confirm the dialog. */
  predicate Launches(r: Runner, count: nat, confirmed: bool) {
    count > 0 && (r.BatchSelected? || confirmed)
  }

  /** An empty list never launches; the selected-users launcher needs no
      confirmation, and the three "all" launchers launch exactly when the
      dialog is confirmed. */
  lemma {:induction false} LaunchGuards(r: Runner, count: nat, confirmed: bool)
    ensures count == 0 ==> !Launches(r, count, confirmed)
    ensures count > 0 && r.BatchSelected? ==> Launches(r, count, confirmed)
    ensures count > 0 && !r.BatchSelected? ==> (Launches(r, count, confirmed) <==> confirmed)
  {
  }

  /** `Math.ceil(count * 7.5 / 60)`, the minutes the confirm dialog
      announces: one minute per eight users, rounded up. */
  function EstimateMinutes(count: nat): nat {
    (count + 7) / 8
  }

  /** The estimate is the ceiling of `count * 7.5 / 60`. */
  lemma {:induction false} EstimateIsCeiling(count: nat)
    ensures var m := EstimateMinutes(count) as real;
      && m >= (count as real) * 7.5 / 60.0
      && m - 1.0 < (count as real) * 7.5 / 60.0
  {
    var m := EstimateMinutes(count);
    assert 8 * m >= count && 8 * (m - 1) < count;
    assert (count as real) * 7.5 / 60.0 == (count as real) / 8.0;
  }

  // ------------------------------------------------------------------
  // cancelSingle
  // ------------------------------------------------------------------

  datatype Caption = Spinner | Written(text: string) | DoneCheck

  /** The button of one row and the stream it watches. */
  datatype Single = Single(disabled: bool, caption: Caption, channel: Channel, marked: set<int>)

  /** The label `renderUserList`/`renderUserListWithStatus` gave the row's
      button: "Decline" or "Cancel" on the pending tab, "Unfollow" on the
      not-following-back tab, "Cancel" on the sent tab. */
  predicate RenderedLabel(tab: Tab, text: string) {
    match tab
    case PendingTab => text == "Decline" || text == "Cancel"
    case NfbTab => text == "Unfollow"
    case SentTab => text == "Cancel"
  }

  /** The label the source restores after an error reply. */
  function ErrorLabel(tab: Tab): string {
    if tab == PendingTab then "Cancel" else "Unfollow"
  }

  /** The click: the button is disabled with a spinner. */
  function SingleStart(s: Single): Single {
    s.(disabled := true, caption := Spinner)
  }

  /** The reply to the one-id POST, as written. */
  function SingleSubmitted(s: Single, tab: Tab, reply: SubmitReply): Single {
    match reply
    case SubmitTask(_) => s.(channel := Open)
    case SubmitError(_) => s.(disabled := false, caption := Written(ErrorLabel(tab)))
    case SubmitFailed => s.(disabled := false, caption := Written("Retry"))
  }

  /** The reply to the one-id POST, restoring the label the button had. */
  function SingleSubmittedFixed(s: Single, before: string, reply: SubmitReply): Single {
    match reply
    case SubmitTask(_) => s.(channel := Open)
    case SubmitError(_) => s.(disabled := false, caption := Written(before))
    case SubmitFailed => s.(disabled := false, caption := Written("Retry"))
  }

  /** The first `progress` or `complete` message closes the stream and, when
      the row is found, marks it and shows "Done"; a transport error offers a retry. */
  function SingleReceive(s: Single, userId: int, rows: set<int>, ev: ClientEvent): Single {
    if s.channel != Open then s
    else
      match ev
      case TransportError => s.(channel := Closed, disabled := false, caption := Written("Retry"))
      case Message(Keepalive) => s
      case Message(_) =>
        if userId in rows then s.(channel := Closed, marked := s.marked + {userId}, caption := DoneCheck)
        else s.(channel := Closed)
  }

  /** The single action reports "Done" on the first message whatever the
      item's `result_status`: a rate-limited or failed cancel looks the same
      as a successful one. */
  lemma {:induction false} SingleDoneWhateverStatus(s: Single, userId: int, rows: set<int>, index: nat, st: ItemStatus, c: nat, t: nat, ok: nat, bad: nat)
    requires s.channel == Open && userId in rows
    ensures var w := SingleReceive(s, userId, rows, Message(ProgressMsg(userId, index, st, c, t, ok, bad)));
      w.caption == DoneCheck && w.channel == Closed && userId in w.marked
  {
  }

  /** On the sent tab an error reply relabels a "Cancel" button "Unfollow". */
  lemma {:induction false} SentTabErrorLabel(s: Single, message: string)
    ensures RenderedLabel(SentTab, "Cancel")
    ensures SingleSubmitted(SingleStart(s), SentTab, SubmitError(message)).caption == Written("Unfollow")
    ensures !RenderedLabel(SentTab, "Unfollow")
  {
  }

  /** With the label remembered, an error reply gives the button back as it was rendered. */
  lemma {:induction false} FixedErrorLabel(s: Single, tab: Tab, before: string, message: string)
    requires RenderedLabel(tab, before)
    ensures var w := SingleSubmittedFixed(SingleStart(s), before, SubmitError(message));
      && !w.disabled && w.caption == Written(before) && RenderedLabel(tab, w.caption.text)
      && w.channel == s.channel
  {
  }
}
