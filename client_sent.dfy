/** The sent-requests tab in the browser: the form `fetchSentRequests`
    submits, the rows the check-sent stream delivers, the tally shown on the
    filter buttons, the filters, and the rows "Cancel All Pending" selects. */
module ClientSent {

  import opened Json
  import opened Text

  // ------------------------------------------------------------------
  // The request
  // ------------------------------------------------------------------

  /** The multipart body `fetchSentRequests` builds: whether the chosen file
      is attached, and the values of the `usernames` field in the order they
      were appended; or no request at all when there is nothing to send. */
  datatype SentForm = NoInput | Form(withFile: bool, values: seq<string>)

  /** Names extracted in the browser are sent instead of the file, joined by
      newlines; the trimmed paste is appended as a further value. */
  function BuildSentForm(extracted: seq<string>, hasFile: bool, paste: string): (f: SentForm)
    ensures f == NoInput <==> extracted == [] && !hasFile && Strip(JavaScript, paste) == ""
    ensures f.Form? ==> f.withFile == (extracted == [] && hasFile)
    ensures f.Form? ==> |f.values| <= 2
    ensures f.Form? && extracted != [] ==> |f.values| >= 1 && f.values[0] == Join(extracted, "\n")
    ensures f.Form? && Strip(JavaScript, paste) != "" ==> |f.values| >= 1 && f.values[|f.values| - 1] == Strip(JavaScript, paste)
    ensures f.Form? ==> (|f.values| == 2 <==> extracted != [] && Strip(JavaScript, paste) != "")
  {
    var p := Strip(JavaScript, paste);
    var first := if extracted != [] then [Join(extracted, "\n")] else [];
    var second := if p != "" then [p] else [];
    if extracted == [] && !hasFile && p == "" then NoInput
    else Form(extracted == [] && hasFile, first + second)
  }

  // ------------------------------------------------------------------
  // Rows, tally and filters
  // ------------------------------------------------------------------

  /** One check-sent record as the page keeps it in `allSentUsers`. */
  datatype SentRow = SentRow(username: string, userId: Json, status: string)

  /** The counters of the filter bar. */
  datatype Counts = Counts(pending: nat, accepted: nat, notFound: nat, other: nat)

  /** The three statuses that have a counter and a filter of their own. */
  predicate Counted(s: string) {
    s == "pending" || s == "accepted" || s == "not_found"
  }

  /** The rows whose status is `s`, in order. */
  function WithStatus(users: seq<SentRow>, s: string): seq<SentRow>
    decreases |users|
  {
    if users == [] then []
    else
      var u := users[|users| - 1];
      WithStatus(users[..|users| - 1], s) + (if u.status == s then [u] else [])
  }

  /** The rows whose status has no counter of its own, in order. */
  function Others(users: seq<SentRow>): seq<SentRow>
    decreases |users|
  {
    if users == [] then []
    else
      var u := users[|users| - 1];
      Others(users[..|users| - 1]) + (if !Counted(u.status) then [u] else [])
  }

  /** The counters the tally should arrive at. */
  function Tally(users: seq<SentRow>): Counts {
    Counts(|WithStatus(users, "pending")|, |WithStatus(users, "accepted")|,
           |WithStatus(users, "not_found")|, |Others(users)|)
  }

  /** The `forEach` of the complete handler: each row bumps the counter of
      its status, or `other`. */
  method TallySent(users: seq<SentRow>) returns (c: Counts)
    ensures c == Tally(users)
  {
    c := Counts(0, 0, 0, 0);
    var i := 0;
    while i < |users|
      invariant 0 <= i <= |users|
      invariant c == Tally(users[..i])
    {
      var u := users[i];
      assert users[..i + 1][..i] == users[..i] && users[..i + 1][i] == u;
      if u.status == "pending" {
        c := c.(pending := c.pending + 1);
      } else if u.status == "accepted" {
        c := c.(accepted := c.accepted + 1);
      } else if u.status == "not_found" {
        c := c.(notFound := c.notFound + 1);
      } else {
        c := c.(other := c.other + 1);
      }
      i := i + 1;
    }
    assert users[..i] == users;
  }

  /** A row shows up under status `s` exactly when it is a row with that status. */
  lemma {:induction false} WithStatusSpec(users: seq<SentRow>, s: string)
    ensures forall r :: r in WithStatus(users, s) <==> r in users && r.status == s
    decreases |users|
  {
    if users != [] {
      var init := users[..|users| - 1];
      WithStatusSpec(init, s);
      assert users == init + [users[|users| - 1]];
    }
  }

  lemma {:induction false} OthersSpec(users: seq<SentRow>)
    ensures forall r :: r in Others(users) <==> r in users && !Counted(r.status)
    decreases |users|
  {
    if users != [] {
      var init := users[..|users| - 1];
      OthersSpec(init);
      assert users == init + [users[|users| - 1]];
    }
  }

  /** The four counters split the rows: they add up to the "All" count. */
  lemma {:induction false} TallyPartition(users: seq<SentRow>)
    ensures var c := Tally(users); c.pending + c.accepted + c.notFound + c.other == |users|
    decreases |users|
  {
    if users != [] {
      TallyPartition(users[..|users| - 1]);
    }
  }

  /** What `filterSent(filter)` renders once it has found the filter's button:
      "all" shows every row, a counted status its rows, and any other name
      leaves `filtered` undefined, which shows nothing. */
  function FilterSent(users: seq<SentRow>, filter: string): seq<SentRow> {
    if filter == "all" then users
    else if Counted(filter) then WithStatus(users, filter)
    else []
  }

  /** Each filter shows as many rows as its button counts, exactly the rows
      with that status; "all" shows every row. */
  lemma {:induction false} FilterMatchesCounts(users: seq<SentRow>)
    ensures FilterSent(users, "all") == users && |users| == |FilterSent(users, "all")|
    ensures |FilterSent(users, "pending")| == Tally(users).pending
    ensures |FilterSent(users, "accepted")| == Tally(users).accepted
    ensures |FilterSent(users, "not_found")| == Tally(users).notFound
    ensures forall f, r :: Counted(f) ==> (r in FilterSent(users, f) <==> r in users && r.status == f)
  {
    forall f | Counted(f) ensures forall r :: r in FilterSent(users, f) <==> r in users && r.status == f {
      WithStatusSpec(users, f);
    }
  }

  /** `.filter(u => u.user_id)`: the rows a checkbox or a bulk action can use. */
  function Selectable(rows: seq<SentRow>): seq<SentRow>
    decreases |rows|
  {
    if rows == [] then []
    else
      var u := rows[|rows| - 1];
      Selectable(rows[..|rows| - 1]) + (if JsTruthy(u.userId) then [u] else [])
  }

  /** The rows the auto-cancel button acts on: pending, with a truthy user id. */
  function CancelCandidates(users: seq<SentRow>): seq<SentRow>
    decreases |users|
  {
    if users == [] then []
    else
      var u := users[|users| - 1];
      CancelCandidates(users[..|users| - 1]) + (if u.status == "pending" && JsTruthy(u.userId) then [u] else [])
  }

  /** "Cancel All Pending" takes exactly the rows the pending filter offers
      for selection, in the same order. */
  lemma {:induction false} CandidatesArePendingSelectable(users: seq<SentRow>)
    ensures CancelCandidates(users) == Selectable(FilterSent(users, "pending"))
    decreases |users|
  {
    if users != [] {
      var init := users[..|users| - 1];
      var u := users[|users| - 1];
      CandidatesArePendingSelectable(init);
      var p := WithStatus(init, "pending");
      if u.status == "pending" {
        assert WithStatus(users, "pending") == p + [u];
        assert (p + [u])[..|p|] == p;
      } else {
        assert WithStatus(users, "pending") == p;
      }
    }
  }

  /** Every candidate is a pending row with a usable id, and every such row
      is a candidate. */
  lemma {:induction false} CancelCandidatesSpec(users: seq<SentRow>)
    ensures forall r :: r in CancelCandidates(users) <==> r in users && r.status == "pending" && JsTruthy(r.userId)
    decreases |users|
  {
    if users != [] {
      var init := users[..|users| - 1];
      CancelCandidatesSpec(init);
      assert users == init + [users[|users| - 1]];
    }
  }

  /** The button is shown whenever there is something to cancel, but a
      pending row without a usable id shows it with nothing to cancel. */
  lemma {:induction false} CandidatesNeedPendingCount(users: seq<SentRow>, name: string)
    ensures CancelCandidates(users) != [] ==> Tally(users).pending > 0
    ensures var only := [SentRow(name, Null, "pending")];
      Tally(only).pending == 1 && CancelCandidates(only) == []
  {
    CancelCandidatesSpec(users);
    WithStatusSpec(users, "pending");
    if CancelCandidates(users) != [] {
      var r := CancelCandidates(users)[0];
      assert r in WithStatus(users, "pending");
    }
    var only := [SentRow(name, Null, "pending")];
    assert only[..0] == [];
    assert WithStatus(only, "pending") == [only[0]];
    assert CancelCandidates(only) == [];
  }

  /** The badge of a row: statuses other than the three counted ones read "Not Pending". */
  function Badge(status: string): (b: string)
    ensures !Counted(status) ==> b == "Not Pending"
  {
    if status == "pending" then "Pending"
    else if status == "accepted" then "Accepted"
    else if status == "not_found" then "Not Found"
    else "Not Pending"
  }

  /** The four badges mark the four counters: a badge is "Pending",
      "Accepted" or "Not Found" exactly for the rows with that status. */
  lemma {:induction false} BadgeMatchesCounter(status: string)
    ensures Badge(status) == "Pending" <==> status == "pending"
    ensures Badge(status) == "Accepted" <==> status == "accepted"
    ensures Badge(status) == "Not Found" <==> status == "not_found"
  {
    if status == "pending" {
      assert Badge(status)[0] == 'P';
    } else if status == "accepted" {
      assert Badge(status)[0] == 'A';
    } else if status == "not_found" {
      assert Badge(status)[4] == 'F';
    } else {
      assert Badge(status)[0] == 'N' && Badge(status)[4] == 'P';
    }
  }

  // ------------------------------------------------------------------
  // The page state
  // ------------------------------------------------------------------

  /** The sent tab: `allSentUsers`, whether the stream is open, the filter
      bar, the bulk-cancel button, `currentUsers.sent` and the rendered list. */
  class SentPage {
    var rows: seq<SentRow>
    var checking: bool
    var counts: Counts
    var filterBar: bool
    var autoCancelButton: bool
    var selectable: seq<SentRow>
    var shown: seq<SentRow>

    constructor ()
      ensures rows == [] && !checking && !filterBar && !autoCancelButton && selectable == [] && shown == []
    {
      rows := [];
      checking := false;
      counts := Counts(0, 0, 0, 0);
      filterBar := false;
      autoCancelButton := false;
      selectable := [];
      shown := [];
    }

    /** What `fetchSentRequests` does before it posts: the list and
      `allSentUsers` are emptied and the filter bar and the bulk-cancel
      button are hidden; `currentUsers.sent` keeps its old rows. */
    method Reset()
      modifies this
      ensures rows == [] && shown == [] && !filterBar && !autoCancelButton
      ensures checking == old(checking) && counts == old(counts) && selectable == old(selectable)
    {
      rows := [];
      shown := [];
      filterBar := false;
      autoCancelButton := false;
    }

    /** The answer to the post: a task id opens the check-sent stream; an
      error reply or a failed request opens nothing and undoes nothing. */
    method OnPostReply(accepted: bool)
      modifies this
      ensures checking == (accepted || old(checking))
      ensures rows == old(rows) && shown == old(shown) && counts == old(counts) && selectable == old(selectable)
      ensures filterBar == old(filterBar) && autoCancelButton == old(autoCancelButton)
    {
      if accepted {
        checking := true;
      }
    }

    /** `fetchSentRequests` up to the stream: the reset, then the post. A
      rejected or failed post leaves the page emptied, with nothing for the
      bulk-cancel button to act on, while the selectable rows of the
      previous check stay. */
    method FetchSent(accepted: bool)
      modifies this
      ensures rows == [] && shown == [] && !filterBar && !autoCancelButton
      ensures checking == (accepted || old(checking))
      ensures counts == old(counts) && selectable == old(selectable)
      ensures CancelCandidates(rows) == [] && Tally(rows) == Counts(0, 0, 0, 0)
    {
      Reset();
      OnPostReply(accepted);
    }

    /** A record: appended to `allSentUsers` and to the list. */
    method OnRecord(row: SentRow)
      modifies this
      ensures checking ==> rows == old(rows) + [row] && shown == old(shown) + [row]
      ensures !checking ==> rows == old(rows) && shown == old(shown)
      ensures checking == old(checking) && counts == old(counts) && filterBar == old(filterBar)
      ensures autoCancelButton == old(autoCancelButton) && selectable == old(selectable)
    {
      if checking {
        rows := rows + [row];
        shown := shown + [row];
      }
    }

    /** `complete`: the stream is closed, the counters are filled in and
      shown, the bulk-cancel button appears when some row is pending, and
      every row with a usable id becomes selectable. */
    method OnComplete()
      modifies this
      ensures old(checking) ==>
        && !checking && counts == Tally(rows) && filterBar
        && autoCancelButton == (old(autoCancelButton) || Tally(rows).pending > 0)
        && selectable == Selectable(rows)
      ensures !old(checking) ==>
        checking == old(checking) && counts == old(counts) && filterBar == old(filterBar)
        && autoCancelButton == old(autoCancelButton) && selectable == old(selectable)
      ensures rows == old(rows) && shown == old(shown)
    {
      if checking {
        checking := false;
        var c := TallySent(rows);
        counts := c;
        filterBar := true;
        if c.pending > 0 {
          autoCancelButton := true;
        }
        selectable := Selectable(rows);
      }
    }

    /** `es.onerror`: the stream is closed and nothing else changes. */
    method OnTransportError()
      modifies this
      ensures !checking && rows == old(rows) && shown == old(shown) && counts == old(counts)
      ensures filterBar == old(filterBar) && autoCancelButton == old(autoCancelButton) && selectable == old(selectable)
    {
      checking := false;
    }

    /** `filterSent(filter)`. `buttonExists` says whether the page has an
      element `sent-filter-<filter>`; when it has none, marking it active
      throws before anything changes. */
    method ApplyFilter(filter: string, buttonExists: bool)
      modifies this
      ensures buttonExists ==> shown == FilterSent(rows, filter) && selectable == Selectable(shown)
      ensures !buttonExists ==> shown == old(shown) && selectable == old(selectable)
      ensures rows == old(rows) && checking == old(checking) && counts == old(counts)
      ensures filterBar == old(filterBar) && autoCancelButton == old(autoCancelButton)
    {
      if !buttonExists {
        return;
      }
      shown := FilterSent(rows, filter);
      selectable := Selectable(shown);
    }
  }
}
