# A verified model of the follow-request manager

The system is a small web application for managing Instagram follow
relationships. A Flask server talks to Instagram's private API on behalf of
a logged-in session. A browser page lists incoming requests, sent requests
and the accounts that do not follow back, and lets the user decline, cancel
or unfollow them, one at a time or in batches. A long operation runs on a
background thread on the server. Its per-user results go through a queue,
and the page reads them as a server-sent-events stream, which drives a
progress overlay.

This project models the core of that system in Dafny and proves what it
promises. It has fourteen modules:

- `Json`: the decoded wire values, the Python and JavaScript truthiness
  rules the code relies on, and what Python's `for` and `len` see in a
  string or an object.
- `Text`: the character classes and the string operations that both sides
  use. These are splitting on `[\n,\s]+`, `strip`/`trim`, stripping a
  leading `@`, decimal printing and parsing, and the last `_`-segment of a
  key.
- `Lists`: the "append unless already present" deduplication idiom the
  server uses everywhere.
- `Wrappers`: an `Option` type.
- `InstagramApi`: the client of the platform API. It covers:
  - `_handle` and the exception hierarchy (`InstagramAPIError`, with
    `RateLimitError` and `AuthenticationError`);
  - `_parse_user`;
  - the two paginations, incoming pending requests and friendships;
  - `get_not_following_back`;
  - the two-endpoint fallback of `get_user_by_username`;
  - `check_friendship`;
  - `check_outgoing_from_usernames`.
- `ServerNames`: how `/api/pending-sent` builds its username list from an
  uploaded export, pasted text or a JSON body.
- `ServerBatch`: the batch task of `/api/cancel` and `/api/unfollow` and the
  `/api/progress` stream.
  - `BatchTask` is a class whose fields the worker (`_run_batch`) updates in
    place.
  - `FinalState` is the specification of the whole run.
- `ServerSent`: the `/api/check-sent` and `/api/cancel-all-sent` streams,
  including the events they yield, their counters and their stop rules.
- `ServerTasks`: the server's task table, as a class `TaskStore`. It covers
  creating a batch, registering a sent list, the lookups the streams make,
  the ten-minute cleanup, and the bounds and the reply status of `/api/resolve-usernames`.
- `ClientNames`: how the page parses the username textarea.
- `ClientProgress`: the progress overlay of the three bulk actions and of
  the batch action.
  - The class `ProgressOverlay` holds what the overlay shows.
  - `Receive` is its event handler.
  - It also models the single cancel button and the duration estimate.
- `ClientSent`: the sent-requests page. This is a class `SentPage` covering
  the form it posts, the live record list, the status tally, `filterSent`
  and the auto-cancel selection.
- `ClientSelection`: the checkboxes, `updateActionBar`, `toggleSelectAll`,
  and how the batch action reads user ids with `parseInt`.
- `Protocol`: ties the server's stream to the page's handlers end to end.
  It also holds the lemmas behind the findings below.

The model takes the world as parameters:

- Each HTTP reply is a `Reply`: a status with an optional decoded body, or a
  network failure.
- Each cancel call's outcome is a `CallOutcome`.
- Each read of the progress queue is a `Poll`: a timeout, or an entry
  together with the task counters at that moment.
- The clock is a non-negative `real` number of seconds.
- The two regular-expression scans of an uploaded export are a `FileScan`:
  the `(username, date)` pairs and the plain profile links.

The batch protocol is proved for the lockstep schedule: the stream reads
each entry right after the worker puts it (`LockstepPolls`). `ProgressStream`
is proved for every sequence of polls.

## Model

| member | source | states |
|---|---|---|
| `Text.Split` | app.py:219 | Splitting on runs of `[\n,\s]` always yields at least one field. |
| `Text.SplitFieldsHaveNoSeparator` | app.py:219 | No field that the split yields contains a separator character. |
| `Text.SplitJoin` | static/js/app.js:220 | Splitting a list of non-empty, separator-free names joined by one separator gives the list back. |
| `Text.LeadingSpace` | app.py:220 | The result is the exact length of the leading whitespace run: all whitespace before it, and not whitespace at it. |
| `Text.TrailingStart` | app.py:220 | The result is exactly where the trailing whitespace run starts. |
| `Text.StripSpec` | app.py:220 | `strip`/`trim` returns an infix of the input with only whitespace around it, and the result neither starts nor ends with whitespace. |
| `Text.Strip` | app.py:220 | Definition of `strip`/`trim`; `StripSpec` states it. |
| `Text.StripClean` | app.py:220 | A separator-free string is its own strip. |
| `Text.StripNoEdges` | static/js/app.js:213 | A string that neither starts nor ends with whitespace is its own trim. |
| `Text.FieldEnd` | app.py:219 | The result is the index of the first separator, or the length when there is none. |
| `Text.DropSeparators` | app.py:219 | The result is the suffix after the leading separator run, and it does not start with a separator. |
| `Text.LeadingRun` | app.py:220 | The result is the exact length of the leading run of the given character, which is what `lstrip("@")` removes. |
| `Text.RemoveOneLeading` | static/js/app.js:221 | `replace(/^@/, '')` removes one leading `@` when there is one, and otherwise leaves the string unchanged. |
| `Text.DigitChar` | app.py:456 | A digit value maps to the digit character with that value. |
| `Text.NatToDecimal` | app.py:456 | A printed number is a non-empty string of decimal digits. |
| `Text.DecimalRoundTrip` | app.py:39 | Parsing a printed number gives the number back. |
| `Text.ParseDecimal` | app.py:39 | Definition of reading a timestamp segment; `DecimalRoundTrip` states it inverts printing. |
| `Text.LastSegment` | app.py:39 | `split("_")[-1]` is a suffix containing no `_`, and a `_` precedes it unless it is the whole string. |
| `Text.LastSegmentOfSuffix` | app.py:39 | Whatever precedes the last `_`, the segment after it is recovered exactly. |
| `Lists.AppendNewSpec` | app.py:221-222 | The dedup loop keeps the accumulated prefix and adds no duplicate. An element is in the result exactly when it was in the accumulator or in the input. What it appends is exactly `FirstOccurrences`, in that order. |
| `Lists.FirstOccurrences` | app.py:221-222 | Definition: the elements of the input that are in neither the accumulator nor earlier in the input, in input order. It is defined from the last element, independently of the loop; `AppendNewFirstOccurrences` relates the two. |
| `Lists.AppendNewMembers` | app.py:221-222 | An element ends up in the accumulated list exactly when it was in the accumulator or in the input, for any accumulator. |
| `Lists.AppendNewFirstOccurrences` | app.py:221-222 | The dedup loop returns the accumulator followed by the first occurrences of the new elements, in first-occurrence order. |
| `Lists.AppendNewConcat` | app.py:208-222 | Running the dedup loop over one list and then another equals running it over their concatenation. |
| `Lists.AppendNewOfDistinct` | app.py:221-222 | On input without repeats, and with nothing in common with the accumulator, nothing is dropped. |
| `InstagramApi.Handle` | instagram_api.py:50-69 | 429 raises `RateLimitError`. 401 and 403 raise `AuthenticationError`, and so does 400 with `checkpoint_required`. Another 400 raises a plain `InstagramAPIError`. 404 yields None. Any other 4xx/5xx status raises an HTTP error. Any other status yields its decoded body, and fails when the body is not JSON. Each direction is stated as an iff. |
| `InstagramApi.Call` | instagram_api.py:241-243 | A network failure raises `RequestException`; a response goes through `Handle`. |
| `InstagramApi.CancelFollowRequest` | instagram_api.py:241-246 | Definition: the destroy call through `Handle`, which `unfollow_user` reuses; `OutcomeOfCall` states how the batch reads it. |
| `InstagramApi.ParseUser` | instagram_api.py:265-274 | For a dict, each field is its key's value, or that key's default when the key is missing. A non-dict raises `AttributeError`. |
| `InstagramApi.ParseUsers` | instagram_api.py:194-195 | The list parses exactly when every item is a dict, one user per item in order. Otherwise it raises `AttributeError` at a non-dict item. |
| `InstagramApi.ReadPage` | instagram_api.py:216-228 | Falsy data ends the listing. A next cursor exists exactly when `big_list` and `next_max_id` are truthy, and the cursor is that `next_max_id`. The page's users are its parsed `users`. |
| `InstagramApi.StepOf` | instagram_api.py:188-192 | On the incoming listing, an `InstagramAPIError` quietly ends the listing. On the friendship listings every exception propagates. Otherwise the listing reads the decoded page. |
| `InstagramApi.StepsOf` | instagram_api.py:178-199 | Definition: the page step of each reply, one per reply, in order; `StepsOfAt` states the `k`-th. |
| `InstagramApi.StepsOfAt` | instagram_api.py:178-199 | The `k`-th page step is the step of the `k`-th reply. |
| `InstagramApi.Requests` | instagram_api.py:213-230 | The number of requests the pagination makes fits in the replies, and its last request ends the listing. |
| `InstagramApi.SentMaxIds` | instagram_api.py:186-187 | The first request sends no `max_id`, and each later one the cursor of the page before it. |
| `InstagramApi.Paginate` | instagram_api.py:213-230 | The loop returns the specification `Gather` of the replies. It makes `Requests` requests, sending none as the first `max_id` and then each page's `next_max_id`. |
| `InstagramApi.FetchPage` | instagram_api.py:219 | One request yields the page step of that reply. |
| `InstagramApi.GatherConcatenatesPages` | instagram_api.py:205-211 | A listing without failures returns the users of all its pages, concatenated in order. |
| `InstagramApi.GatherFrom` | instagram_api.py:224-228 | Following `next_max_id` from page `i` on appends the users of exactly the pages requested. |
| `InstagramApi.Gather` | instagram_api.py:178-230 | Definition of what a listing returns from its page steps; `Paginate` computes it and `GatherConcatenatesPages`, `GatherStopsAtDone`, `GatherStopsAtFailed` state it. |
| `InstagramApi.GatherStopsAtDone` | instagram_api.py:220-222 | An empty page ends the listing with the users gathered so far. |
| `InstagramApi.GatherStopsAtFailed` | instagram_api.py:219 | An exception at request `k` is what the friendship listing raises. |
| `InstagramApi.ApiErrorMidListing` | instagram_api.py:189-190 | At an API error mid-listing, the incoming listing returns the users gathered so far, while a friendship listing raises that error. |
| `InstagramApi.Ids` | instagram_api.py:233 | Definition: the id of each user, in order. |
| `InstagramApi.LastIndexWithId` | instagram_api.py:233 | The dict keyed by id takes the last user carrying that id. |
| `InstagramApi.KeepUnfollowedMembers` | instagram_api.py:235 | Every user kept is followed, and its id is not a follower's. |
| `InstagramApi.KeepUnfollowedComplete` | instagram_api.py:235 | Every followed id that no follower carries is kept. |
| `InstagramApi.KeepUnfollowedNoDup` | instagram_api.py:235 | The kept ids have no duplicates. |
| `InstagramApi.NotFollowingBackSpec` | instagram_api.py:232-235 | The result has no repeated id. It holds exactly the followed users whose id no follower carries, and shares no id with any follower. |
| `InstagramApi.NotFollowingBack` | instagram_api.py:232-235 | Definition of the dict of followed users minus followers' ids; `NotFollowingBackSpec` states it. |
| `InstagramApi.GetNotFollowingBack` | instagram_api.py:232-235 | An exception from the following listing propagates first, then one from the followers listing. Otherwise the result is `NotFollowingBack` of the two listings. |
| `InstagramApi.TryEndpoint` | instagram_api.py:94-110 | An endpoint yields a user only from a 200 reply whose user has a truthy id. |
| `InstagramApi.GetUserByUsername` | instagram_api.py:91-131 | The mobile endpoint's user wins. Otherwise the web endpoint's user is taken. The lookup is None exactly when both fail, and it never raises. |
| `InstagramApi.RejectedLookupIsNotFound` | instagram_api.py:97-110 | When both endpoints answer 401, 403 or 429, the lookup reads as "no such user". |
| `InstagramApi.GetUserByUsernameStrict` | instagram_api.py:91-131 | The corrected lookup raises only `RateLimitError` or `AuthenticationError`, which is what a rejecting first endpoint raises. Without rejections it agrees with the original. |
| `InstagramApi.CheckFriendship` | instagram_api.py:133-139 | It raises exactly when the call raises. It returns the data when truthy, and None otherwise. |
| `InstagramApi.ClassifyFriendship` | instagram_api.py:152-163 | Pending exactly when `outgoing_request` is truthy. Accepted exactly when it is not but `following` is. Unknown exactly when the check raised or returned a non-dict truthy value. Never not_found. |
| `InstagramApi.CheckOutgoing` | instagram_api.py:150-175 | A username is not_found exactly when the lookup fails, and its record is then the placeholder. Otherwise the record is the looked-up user with the friendship classification. |
| `InstagramApi.CheckOutgoingFromUsernames` | instagram_api.py:145-176 | There is exactly one record per username, in order, each being `CheckOutgoing` of that username. |
| `ServerNames.MapStrings` | app.py:219-220 | Definition: the function applied to each token, in order. |
| `ServerNames.AddTokens` | app.py:218-222 | The pasted-token loop is the dedup idiom over the normalized non-empty tokens. |
| `ServerNames.FirstDateOfLonger` | app.py:208-211 | A name's date is fixed by its first pair, and later pairs do not change it. |
| `ServerNames.FirstDateOfNew` | app.py:209-211 | A pair with a new name records that pair's date. |
| `ServerNames.DatesOfSpec` | app.py:208-211 | The dates map has exactly the names of the pairs as keys, each with the stripped date of its first pair. |
| `ServerNames.DatesOfKeys` | app.py:211 | A name has a date exactly when some pair names it. |
| `ServerNames.FromExport` | app.py:199-216 | The export's names come from the pairs when there are any, and otherwise from the plain links. Only pairs supply dates. |
| `ServerNames.FromPairs` | app.py:208-211 | The pairs loop yields the deduplicated names and the first-pair dates. |
| `ServerNames.AddNames` | app.py:214-216 | The fallback loop is the dedup idiom over the links. |
| `ServerNames.FormGet` | app.py:217 | `form.get` reads the first value of the field, or `""` when there is none. |
| `ServerNames.PendingSentMultipart` | app.py:198-232 | The multipart branch answers "No usernames provided." exactly when the combined list is empty. Otherwise it accepts that list with the export's dates. |
| `ServerNames.PendingSentJson` | app.py:223-232 | A body without `.get`, or a `usernames` value that is not iterable, raises (HTTP 500). Otherwise the branch answers what the loop gives for the values `JsonItems` visits. |
| `ServerNames.NamesFromList` | app.py:226-232 | The loop over the visited values computes `ListOutcome` of them. |
| `ServerNames.ListOutcomeSpec` | app.py:226-232 | A server error exactly when some value is not a string. An accepted list has no duplicates and is exactly the first occurrences of the cleaned names, in order. 400 exactly when every value is a string and none cleans to a name. |
| `ServerNames.JsonBodyCases` | app.py:224-225 | A missing or falsy body, or a missing key, visits nothing and answers 400. A truthy non-object body, or a `null`, number or boolean `usernames`, raises. |
| `ServerNames.StringIteratedByCharacter` | app.py:225-229 | A string `usernames` is iterated by character: `"bob"` is accepted as `["b", "o"]`. |
| `ServerNames.ObjectIteratedByKeys` | app.py:225-229 | An object `usernames` contributes its keys: distinct clean keys are accepted exactly, in decoded order. |
| `Json.Characters` | app.py:226 | The values a string visits, and `len` counts, are its one-character strings, in order. |
| `Json.KeyStrings` | app.py:226 | The values an object visits, and `len` counts, are its keys, in the decoded order. |
| `ServerNames.JsonItems` | app.py:224-226 | Definition: a list visits its items, a string its characters, an object its keys; anything else, or a body without `.get`, raises (`None`). |
| `ServerNames.BodyFields` | app.py:224 | Definition: `request.get_json() or {}` read as fields; a truthy non-object has none. |
| `ServerNames.ListOutcome` | app.py:226-232 | Definition of the loop's answer; `ListOutcomeSpec` states it. |
| `ServerNames.Strings` | app.py:226-227 | The strings of an all-string list are read in order. |
| `ServerNames.Normalize` | app.py:220 | Definition of `u.strip().lstrip("@")`; `NormalizeToken` states what it yields. |
| `ServerNames.NormalizeToken` | app.py:220 | A separator-free token that normalizes non-empty becomes a clean name. |
| `ServerNames.CleanedPastedShape` | app.py:219-222 | Every pasted name kept is non-empty, holds no separator and does not begin with `@`. |
| `ServerNames.MultipartNamesSpec` | app.py:198-222 | The list has no duplicates and starts with the export's names. A name is in it exactly when it came from the export or from the cleaned pasted tokens. After the export's names come the first occurrences of the new pasted names, in order. |
| `ServerNames.MultipartNames` | app.py:198-222 | Definition of the multipart list; `MultipartNamesSpec` states it. |
| `ServerNames.MultipartNamesAllSpec` | app.py:217-222 | The corrected reading of every `usernames` value keeps the export's names first and has no duplicates. It contains every pasted name of every value, and matches the original when there is one value. |
| `ServerNames.MultipartNamesAll` | app.py:217-222 | Definition of the corrected multipart list; `MultipartNamesAllSpec` states it. |
| `ServerNames.PastedTokensAllContains` | app.py:217-222 | A name pasted in any value of the field is kept by the corrected reading. |
| `ServerBatch.ValidateBatch` | app.py:451-454 | Of the values `user_ids` yields, an empty list is rejected with "No users selected.", and more than 200 with the per-session maximum. Both directions are stated. |
| `ServerBatch.RequestList` | app.py:450-453 | Definition of `data.get(key, [])` as `not` and `len` see it; `RequestListCases` states each case. |
| `ServerBatch.RequestListCases` | app.py:450-453 | A body that is not an object, or a truthy number or boolean field, raises (500). A missing or falsy field reads as empty. A non-empty list, string or object yields its items, its characters or its keys, and is never empty. |
| `ServerBatch.NumList` | static/js/app.js:865 | The ids the page posts, each as a JSON number, in order. |
| `ServerBatch.PageBatchBody` | static/js/app.js:865 | The page's body `{"user_ids": [...]}` is read as exactly its ids, and checked by their number. |
| `ServerBatch.StringUserIdsBatch` | app.py:450-459 | A string `user_ids` passes both checks as a batch of its characters: `"12"` starts a batch of two. |
| `ServerBatch.OutcomeOfCall` | app.py:486-510 | A cancel call counts as success exactly when it returns, as a rate limit exactly when it raises `RateLimitError`, and as an auth error exactly on `AuthenticationError`. |
| `ServerBatch.StatusOf` | app.py:484-510 | A result is `cancelled`, `rate_limited` or `auth_error` exactly for those outcomes. |
| `ServerBatch.CountsPartition` | app.py:486-510 | The cancelled and not-cancelled results partition the results. |
| `ServerBatch.NoSentinelInItems` | app.py:512-514 | Result entries are never the end-of-stream sentinel. |
| `ServerBatch.Processed` | app.py:483-520 | The worker processes items up to and including the first that stops it, or all of them. |
| `ServerBatch.CountersAfterConsistent` | app.py:486-514 | After any number of items, `completed == succeeded + failed <= total`. |
| `ServerBatch.FinalStateShape` | app.py:479-520 | The finished task's counters are consistent. Its results are the processed ids in order, with their indices and statuses. Its queue is exactly those results followed by one sentinel. |
| `ServerBatch.FinalState` | app.py:479-520 | Definition of the finished task; `BatchTask.Run` reaches it and `FinalStateShape`, `FinalStateStopsAt` and `FinalStateCompletes` state it. |
| `ServerBatch.FinalStateStopsAt` | app.py:489-506 | A rate limit or auth error at item `k` stops the batch after `k + 1` items with the matching status. It counts at least one failure, and no later index appears. |
| `ServerBatch.FinalStateCompletes` | app.py:519-520 | Without a stop, every item is processed and the status is `completed`. |
| `ServerBatch.BatchTask.constructor` | app.py:457-465 | A new task is running, with zero counters, no results and an empty queue. |
| `ServerBatch.BatchTask.Run` | app.py:479-520 | The worker loop leaves the task in exactly `FinalState(ids, outs)` and makes `Processed(outs)` cancel calls. |
| `ServerBatch.BatchTask.Record` | app.py:486-514 | Recording a result increments `completed`, and `succeeded` or `failed` by its status. It appends the result to `results` and to the queue. |
| `ServerBatch.BatchTask.Finish` | app.py:495-520 | Finishing sets the status and puts the sentinel; nothing else changes. |
| `ServerBatch.AfterStop` | app.py:489-506 | The first stopping item is the last one processed. |
| `ServerBatch.NoStopProcessesAll` | app.py:483-520 | Without a stopping outcome, every item is processed. |
| `ServerBatch.MessageOf` | app.py:535-546 | A timeout yields a keepalive, exactly. The sentinel yields `complete`, exactly, with the task's status and counters. An item yields `progress` with the item's id, index and status and the task's counters. |
| `ServerBatch.SentinelAt` | app.py:542-544 | The result is the position of the first sentinel, or the length when there is none. |
| `ServerBatch.ProgressStream` | app.py:527-552 | The stream ends exactly when a sentinel is read. It yields one message per poll up to and including that sentinel, and `complete` only as its last message. |
| `ServerBatch.LockstepPolls` | app.py:512-520 | Under the lockstep schedule, the polls are each result with the counters right after it, then the sentinel with the final counters. |
| `ServerBatch.LockstepStream` | app.py:527-552 | Under the lockstep schedule, there is one consistent `progress` message per processed item, with `completed` counting up from 1. It ends with `complete` carrying the final status and counters. |
| `ServerSent.Handled` | app.py:261-308 | A stream handles usernames up to and including the first lookup that stops it. |
| `ServerSent.HandledAtStop` | app.py:290-299 | A stream stopping at username `i` has handled `i + 1` usernames. |
| `ServerSent.HandledAll` | app.py:261-308 | Without a stopping lookup, every username is handled. |
| `ServerSent.StopFacts` | app.py:290-299 | The stream stops at the first rate-limited or auth-rejected lookup, with the reason `rate_limited` or `auth_error`. |
| `ServerSent.AllFacts` | app.py:308 | Without a stop, the stream handles everything and reports `done`. |
| `ServerSent.CheckItemSpec` | app.py:262-303 | A record carries its username, index, total and export date. It is not_found exactly when the lookup returns None, and then carries the placeholder user. A found user is classified from the friendship check. A rate limit, auth error or other exception gives the matching item status. |
| `ServerSent.CheckItem` | app.py:265-301 | Definition of the record for one username; `CheckItemSpec` states it. |
| `ServerSent.CheckEventsSpec` | app.py:261-303 | Event `k` of the check stream is the record of username `k`. |
| `ServerSent.CheckSent` | app.py:245-314 | The check stream is the records of the handled usernames, then `complete` with the stop reason. |
| `ServerSent.CancelStatusSpec` | app.py:341-387 | Cancelled exactly when the user is found and the cancel returns. Cancel-failed exactly when the user is found and the cancel raises. Not-found exactly when the lookup returns no user with a truthy id. Rate-limited, auth-error and error each correspond exactly to the lookup's exception. |
| `ServerSent.CancelStatusOf` | app.py:345-382 | Definition of one username's cancel status; `CancelStatusSpec` states it. |
| `ServerSent.TallyPartition` | app.py:337-387 | `succeeded + failed + skipped` is the number of usernames handled. |
| `ServerSent.CancelEventsSpec` | app.py:333-387 | Event `k` of the cancel stream is the record of username `k`. |
| `ServerSent.CancelAllSent` | app.py:317-398 | The cancel stream is the records of the handled usernames, then `complete` with the stop reason and the final tally. |
| `ServerSent.CancelRecordCounters` | app.py:337-387 | After record `i`, the counters sum to `i + 1`. A stopping lookup counts as a failure, and a missing user as skipped. A record carries a user exactly when a cancel was attempted. |
| `ServerSent.CancelItem` | app.py:340-387 | Definition of the record for one username with its counters; `CancelRecordCounters` states it. |
| `ServerTasks.TaskIdTimestamp` | app.py:35-39 | Every id the server creates parses back, in the cleanup, to its creation second. |
| `ServerTasks.TaskId` | app.py:456 | Definition: action, account and `int(time.time())` joined by `_`; `TaskIdTimestamp` states it parses back. |
| `ServerTasks.TaskLifetimeBounds` | app.py:35-39 | A task is kept while less than 599 seconds old, and is due for removal once more than 600 seconds old. |
| `ServerTasks.ProgressLookup` | app.py:527-532 | An unknown id gives 404. A batch id gives its stream. |
| `ServerTasks.SentLookup` | app.py:249-251 | The sent streams find exactly the ids registered with a username list. |
| `ServerTasks.ValidateResolve` | app.py:586-589 | An empty list is rejected, and so is a list of more than 200 usernames. Otherwise the list is accepted. Both directions are stated. |
| `ServerTasks.CheckResolve` | app.py:584-589 | An exception while reading `usernames` is exactly the 500 case. The list is refused exactly when `ValidateResolve` refuses the values read, and is otherwise passed on, with between 1 and 200 values. |
| `ServerTasks.ResolveStatus` | app.py:582-601 | 400 exactly when the bounds refuse the list, 500 otherwise, and never 200: the API class defines no `get_pending_from_usernames` (instagram_api.py:27-266), so an accepted list raises AttributeError at app.py:593, which app.py:600-601 answers with 500. |
| `ServerTasks.AcceptedResolveFails` | app.py:582-601 | The page's request, one to two hundred usernames as strings, passes the bounds and is still answered 500. |
| `ServerTasks.TaskStore.constructor` | app.py:32 | The table starts empty. |
| `ServerTasks.TaskStore.StartBatch` | app.py:449-476 | An exception while reading `user_ids` answers 500 and a rejected selection 400, and neither stores anything. Otherwise a new initial task with the number of values read goes under `action_account_seconds`, and only that entry changes. |
| `ServerTasks.TaskStore.RegisterSent` | app.py:231-242 | An empty list answers 400 and a bad JSON item 500, and neither stores anything. Otherwise the list and dates go under a `sent_` id, where the sent streams, and not the progress stream, find them. |
| `ServerTasks.TaskStore.CleanupOldTasks` | app.py:35-42 | The table afterwards is `AfterCleanup` of the table before. |
| `ServerTasks.ExpiredKeys` | app.py:38-39 | `ok` is false exactly when some key has no timestamp. Otherwise the result is exactly the keys more than 600 seconds old. |
| `ServerTasks.AfterCleanup` | app.py:35-41 | Definition of the table after `_cleanup_old_tasks`; `TaskStore.CleanupOldTasks` reaches it and `CleanupKeepsRecentTasks` states it. |
| `ServerTasks.CleanupKeepsRecentTasks` | app.py:35-42 | A created task survives a cleanup less than 599 seconds later, and is removed by one more than 600 seconds later. |
| `ClientNames.ParseUsernames` | static/js/app.js:213-227 | Blank input is rejected. Input whose tokens all clean to empty gives "No valid usernames". Otherwise the names parsed are the kept tokens. Each direction is stated. |
| `ClientNames.OneAtRemoved` | static/js/app.js:221 | A token loses exactly one leading `@`. |
| `ClientNames.DoubleAtKeepsOne` | static/js/app.js:221 | `@@x` parses as `@x`. |
| `ClientNames.ClientNameClean` | static/js/app.js:220-221 | Cleaning a token introduces no separator. |
| `ClientNames.ClientName` | static/js/app.js:221 | Definition: trim, then remove at most one leading `@`; `OneAtRemoved` and `ClientNameClean` state it. |
| `ClientNames.KeepNames` | static/js/app.js:221-222 | Definition: each token cleaned, empty results dropped; `KeepNamesShape` and `KeepPlainNames` state it. |
| `ClientNames.KeepNamesShape` | static/js/app.js:220-222 | Every kept name is non-empty and separator-free. |
| `ClientNames.ParsedNamesShape` | static/js/app.js:220-222 | Every name the textarea parse yields is non-empty and separator-free. |
| `ClientNames.KeepPlainNames` | static/js/app.js:221-222 | Plain names pass through unchanged. |
| `ClientNames.ParseOfLines` | static/js/app.js:213-222 | One plain name per line parses back to exactly that list. |
| `ClientNames.DuplicatesKept` | static/js/app.js:220-222 | The page does not deduplicate, so a repeated name stays repeated. |
| `ClientProgress.UsernameMapSpec` | static/js/app.js:153-154 | Every listed id is in the map, and its name is the last listed user's with that id. |
| `ClientProgress.UsernameMap` | static/js/app.js:153-154 | Definition: each listed id mapped to its username, later users overwriting earlier ones; `UsernameMapSpec` states it. |
| `ClientProgress.NameOf` | static/js/app.js:184 | Definition: `@` and the known non-empty username, else `@` and the printed id; `ProgressMessageEffect` states each case. |
| `ClientProgress.Begin` | static/js/app.js:156-164 | Definition: the overlay a launcher shows before posting, with the title, zero counters, an empty log and no close button; `ProgressOverlay.Launch` applies it and `RejectedSubmitShowsNothing` states what follows. |
| `ClientProgress.Submitted` | static/js/app.js:171-174 | Definition: an error reply or failed request closes the overlay, a task id opens the stream; `RejectedSubmitShowsNothing` states the effect. |
| `ClientProgress.Receive` | static/js/app.js:175-203 | Definition of one `onmessage`/`onerror` call; `ProgressMessageEffect`, `CompleteMessageEffect`, `TransportErrorEffect` and `NotOpenIgnoresEvents` state each case. |
| `ClientProgress.CompleteTitle` | static/js/app.js:193-195 | Definition of the title a `complete` message sets; `CompleteTitleByStatus` states it. |
| `ClientProgress.ProgressMessageEffect` | static/js/app.js:177-188 | A progress message sets the counters shown and appends one log line: success exactly for `cancelled`, named `@username`, or `@id` when the name is unknown or empty. It marks the row when listed and changes nothing else. |
| `ClientProgress.CompleteMessageEffect` | static/js/app.js:189-197 | A complete message closes the stream, fills the bar, shows the close button and sets the title for the status. Counters and log stay. |
| `ClientProgress.CompleteTitleByStatus` | static/js/app.js:193-195 | Only `completed` and `rate_limited` have their own titles, and any other status reads "Stopped". |
| `ClientProgress.TransportErrorEffect` | static/js/app.js:199-203 | An error closes the stream, shows the close button and reads "Connection Lost", which no complete title reads. |
| `ClientProgress.NotOpenIgnoresEvents` | static/js/app.js:174-204 | With no stream open, events change nothing. |
| `ClientProgress.RejectedSubmitShowsNothing` | static/js/app.js:172-173 | An error reply or failed request closes the overlay, and no stream is ever opened. |
| `ClientProgress.ReplayMarked` | static/js/app.js:186-187 | The rows marked completed are exactly the listed rows of the delivered progress ids. |
| `ClientProgress.ProgressOverlay.constructor` | static/js/app.js:156-164 | The overlay starts hidden, with zero counters and no stream. |
| `ClientProgress.ProgressOverlay.Launch` | static/js/app.js:140-164 | A launcher posts exactly when `Launches` holds. It then resets the title, counters, log and close button and shows the overlay; otherwise nothing changes. |
| `ClientProgress.Launches` | static/js/app.js:140-150 | Definition of the launch guards: at least one user, and for the three "all" launchers (also app.js:495-500 and 594-604) a confirmed dialog; `startBatchAction` (app.js:840-843) needs no dialog. |
| `ClientProgress.LaunchGuards` | static/js/app.js:140-150 | An empty list never launches. The selected-users launcher needs no confirmation, and an "all" launcher launches exactly when confirmed. |
| `ClientProgress.ProgressOverlay.OnSubmitReply` | static/js/app.js:171-174 | An error reply closes the overlay; a task id opens the stream. |
| `ClientProgress.ProgressOverlay.OnMessage` | static/js/app.js:175-198 | The overlay's new state is what `Receive` gives for the message. |
| `ClientProgress.ProgressOverlay.OnError` | static/js/app.js:199-203 | An error on an open stream loses the connection, and is otherwise ignored. |
| `ClientProgress.EstimateIsCeiling` | static/js/app.js:148 | The estimate is the least whole number of minutes at or above 7.5 s per user. |
| `ClientProgress.EstimateMinutes` | static/js/app.js:148 | Definition: `Math.ceil(count * 7.5 / 60)` in integers; `EstimateIsCeiling` states it is that ceiling. |
| `ClientProgress.SingleDoneWhateverStatus` | static/js/app.js:807-818 | Any first progress message marks the single action done, whatever its status. |
| `ClientProgress.SingleStart` | static/js/app.js:787-788 | Definition: the clicked button is disabled and shows a spinner. |
| `ClientProgress.SingleSubmitted` | static/js/app.js:797-806 | Definition of the reply to the one-id post, as written; `SentTabErrorLabel` states what its error branch restores. |
| `ClientProgress.SingleReceive` | static/js/app.js:807-824 | Definition: the first message closes the stream and marks a found row done; an error offers a retry; `SingleDoneWhateverStatus` states it. |
| `ClientProgress.SentTabErrorLabel` | static/js/app.js:799-802 | As written, an error restores the sent tab's "Cancel" button as "Unfollow", a label that tab never renders. |
| `ClientProgress.FixedErrorLabel` | static/js/app.js:799-802 | The corrected handler restores the label the button had. |
| `ClientSelection.CountsCompared` | static/js/app.js:754-773 | Checked boxes never outnumber enabled ones. The counts are equal exactly when every enabled box is checked. |
| `ClientSelection.AllSelectedMeans` | static/js/app.js:771 | "All selected" holds exactly when some box is enabled and every enabled box is checked. |
| `ClientSelection.Toggled` | static/js/app.js:778 | Definition: every enabled box set to the flag, every other box unchanged, values and enabledness kept. |
| `ClientSelection.ToggledCounts` | static/js/app.js:775-780 | Toggling keeps the enabled boxes and every value. It checks all enabled boxes or none, and leaves each disabled box exactly as it was, so disabled boxes stay unchecked. |
| `ClientSelection.SelectAllEffect` | static/js/app.js:754-780 | Selecting all shows the bar with the enabled count, "Deselect All" and the tab's action text. Deselecting hides the bar and reads "Select All". |
| `ClientSelection.ActionTextNamesEndpoint` | static/js/app.js:763-765 | The action text names the endpoint the batch goes to: "Unfollow" for `/api/unfollow`, "Cancel" for `/api/cancel`. |
| `ClientSelection.SelectionPanel.constructor` | static/js/app.js:754-773 | A panel starts with the given boxes and a hidden bar. |
| `ClientSelection.SelectionPanel.UpdateActionBar` | static/js/app.js:754-773 | The boxes stay, and the bar becomes `UpdateBar` of them. |
| `ClientSelection.SelectionPanel.ToggleSelectAll` | static/js/app.js:775-780 | It flips "all selected", sets every enabled box to the new value, then updates the bar. |
| `ClientSelection.UpdateBar` | static/js/app.js:754-773 | Definition of `updateActionBar()`; `SelectAllEffect` and `AllSelectedMeans` state it. |
| `ClientSelection.DigitPrefix` | static/js/app.js:838 | The longest prefix of radix digits, which is what `parseInt` reads. |
| `ClientSelection.ParseUnsigned` | static/js/app.js:838 | A decimal string parses to its value. |
| `ClientSelection.ParseNegative` | static/js/app.js:838 | `-` followed by digits parses to the negated value. |
| `ClientSelection.ParseIntRoundTrip` | static/js/app.js:838 | Every printed integer id parses back to itself. |
| `ClientSelection.ParseInt` | static/js/app.js:838 | Definition of `parseInt` without a radix; `ParseUnsigned`, `ParseNegative`, `ParseIntRoundTrip` and `EmptyValueIsNaN` state it. |
| `ClientSelection.EmptyValueIsNaN` | static/js/app.js:838 | An empty value is NaN and is dropped. |
| `ClientSelection.CheckedValues` | static/js/app.js:837 | Definition: the values of the checked boxes in document order, one per checked box; `CheckedValuesMembers` states the contents. |
| `ClientSelection.ParsedIds` | static/js/app.js:838 | Definition: `parseInt` of each value, NaN dropped, so never more ids than values; `ParsedIdsMembers` states the contents. |
| `ClientSelection.BatchIds` | static/js/app.js:837-838 | The batch sends at most one id per checked box; `BatchIdsMembers` states which. |
| `ClientSelection.CheckedValuesMembers` | static/js/app.js:837 | A value is read exactly when some checked box holds it. |
| `ClientSelection.ParsedIdsMembers` | static/js/app.js:838 | An id is sent exactly when `parseInt` reads it from some value. |
| `ClientSelection.ParsedIdsSound` | static/js/app.js:838 | Every id sent was read from one of the values. |
| `ClientSelection.ParsedIdsComplete` | static/js/app.js:838 | Every value that reads as a number contributes that number. |
| `ClientSelection.BatchIdsMembers` | static/js/app.js:837-838 | The batch holds exactly the numbers read from checked boxes; a checked box whose value is not a number contributes nothing. |
| `ClientSelection.ParsedIdsOfDecimals` | static/js/app.js:838 | Boxes whose values are printed ids give back exactly those ids, in order. |
| `ClientSent.BuildSentForm` | static/js/app.js:343-363 | Nothing is sent without names, file or pasted text. The file is attached only when there are no extracted names. The extracted names come first and the trimmed paste last, so the form may carry two `usernames` values. |
| `ClientSent.TallySent` | static/js/app.js:400-407 | The tally loop computes `Tally`. |
| `ClientSent.WithStatusSpec` | static/js/app.js:487-489 | A status filter keeps exactly the rows with that status. |
| `ClientSent.OthersSpec` | static/js/app.js:400-407 | The "other" rows are exactly those with an uncounted status. |
| `ClientSent.TallyPartition` | static/js/app.js:400-407 | The four counters sum to the number of rows. |
| `ClientSent.Tally` | static/js/app.js:402-408 | Definition of the four counters; `TallySent` computes it and `TallyPartition` states it. |
| `ClientSent.FilterMatchesCounts` | static/js/app.js:481-493 | "all" shows every row. Each status filter shows exactly its rows, as many as the tally counted. |
| `ClientSent.FilterSent` | static/js/app.js:485-490 | Definition of `filtered`; `FilterMatchesCounts` states it. |
| `ClientSent.Selectable` | static/js/app.js:491 | Definition: the rows with a truthy user id; `CandidatesArePendingSelectable` relates it to auto-cancel. |
| `ClientSent.CandidatesArePendingSelectable` | static/js/app.js:496 | Auto-cancel acts on exactly the selectable rows of the pending filter. |
| `ClientSent.CancelCandidatesSpec` | static/js/app.js:496 | A row is a candidate exactly when it is pending with a truthy user id. |
| `ClientSent.CancelCandidates` | static/js/app.js:496 | Definition of the auto-cancel rows; `CancelCandidatesSpec` states it. |
| `ClientSent.CandidatesNeedPendingCount` | static/js/app.js:496-498 | Candidates imply a positive pending count. The converse fails for a pending row without an id. |
| `ClientSent.Badge` | static/js/app.js:440-442 | An uncounted status reads "Not Pending". |
| `ClientSent.BadgeMatchesCounter` | static/js/app.js:404-442 | Each badge text corresponds exactly to the status its counter counts. |
| `ClientSent.SentPage.constructor` | static/js/app.js:339-341 | A page starts with no rows and nothing shown. |
| `ClientSent.SentPage.Reset` | static/js/app.js:366-371 | Starting a check clears the rows and the list and hides the filter bar and the auto-cancel button; the old selectable rows and counters stay. |
| `ClientSent.SentPage.OnPostReply` | static/js/app.js:373-478 | A task id starts checking. An error reply or a failed request opens no stream and changes nothing else. |
| `ClientSent.SentPage.FetchSent` | static/js/app.js:366-478 | After the reset and the reply, nothing is listed, tallied or a cancel candidate, and checking holds exactly when the post was accepted (or a check was already running). |
| `ClientSent.SentPage.OnRecord` | static/js/app.js:430-459 | While checking, a record is appended to the rows and to the list. After completion it is ignored. |
| `ClientSent.SentPage.OnComplete` | static/js/app.js:396-427 | Completion stops checking, sets the counters to the tally, shows the filter bar, and shows auto-cancel when something is pending. |
| `ClientSent.SentPage.OnTransportError` | static/js/app.js:466-471 | An error stops checking and keeps everything else. |
| `ClientSent.SentPage.ApplyFilter` | static/js/app.js:481-493 | When the filter's button exists, the list shows `FilterSent` of the rows and only the shown rows with ids are selectable. When it does not, the lookup throws and nothing changes. |
| `Protocol.Delivered` | app.py:527-546 | Each stream message is delivered as one page event, in order. |
| `Protocol.ExpectedLog` | static/js/app.js:877-898 | Definition: one log line per processed item, the `k`-th being the entry for id `k` and its status. |
| `Protocol.LockstepShape` | app.py:527-552 | The lockstep stream is one progress message per processed item, then `complete` with the final state. |
| `Protocol.BatchReplay` | static/js/app.js:877-912 | Feeding the page the whole stream, and anything after it, leaves exactly the final view. |
| `Protocol.BatchEndToEnd` | static/js/app.js:836-918 | From submit to `complete`: the overlay shows the final counters, one log line per processed item with its outcome, and the title for the final status. The right rows are marked and the stream is closed. |
| `Protocol.StatusNamesOnTheSentTab` | static/js/app.js:404-406 | The page counts a server status exactly when it is pending, accepted or not_found; every other status gets a "Not Pending" badge. |
| `Protocol.RecordIsCandidate` | static/js/app.js:496 | A streamed record can be auto-cancelled exactly when it is pending with a truthy id. A not_found record never can. |
| `Protocol.RowOf` | app.py:284-289 | Definition of the row the page keeps for a record; `RecordIsCandidate` states when it can be auto-cancelled. |
| `Protocol.RateLimitReadsAsNotFound` | app.py:262-301 | As written, a username whose lookups are both rate-limited is reported not_found and does not stop the stream. |
| `Protocol.AsWrittenNeverStops` | app.py:290-299 | The lookup as written never produces a stop, so the check stream always handles every username and reports `done`. |
| `Protocol.RateLimitStopsStrict` | app.py:290-294 | With the corrected lookup, a rate-limited username stops the stream with `rate_limited`. |
| `Protocol.PastedNamesDropped` | app.py:217 | With extracted names and a paste, a pasted name that was not extracted never reaches the server's list. |
| `Protocol.FirstValueOnly` | app.py:217 | Reading the first value drops such a name, which reading every value keeps. |
| `Protocol.LStripTwo` | app.py:220 | The server removes every leading `@`. |
| `Protocol.AtPrefixReadDifferently` | static/js/app.js:221 | The server reads `@@x` as `x`, while the page reads it as `@x`. |

## Left out

- I/O is left out: HTTP, the session cookies, `time.sleep` and the random delays between calls. Replies and the clock are parameters.
- Concurrency is left out. The worker thread and the stream are proved together under the lockstep schedule only. `ProgressStream` covers any interleaving of polls, but not the relation between counters read at different moments.
- HTML rendering, avatars, the toast messages and the login/logout pages are not part of this model, because they carry no logic worth proving.
- The image proxy, `extract-zip` and `validate_session` are left out. So is `fetch_image`, because these are I/O wrappers.
- The regular expressions that scan an export are left out. The model starts from their matches, a `FileScan`.
- `/api/resolve-usernames` calls `get_pending_from_usernames`, which the API class does not define. The call is treated as opaque: the model records only that, as written, an accepted request ends in the 500 of the last `except Exception`. The page shows that reply as an error.
- The re-arming `threading.Timer(300, …)` of the cleanup is left out. The model has one cleanup step at a given clock reading.
- The percentages and bar widths (`Math.round`) are left out, because they are display arithmetic on floating point.
- `ClientSelection.ParseInt`: models `parseInt` with exact integers. Double rounding, `Infinity` and values beyond 2^53 are not captured.
- `ServerTasks.Timestamp`: recognises only a last segment of decimal digits. Python's `float` would also accept forms such as `1e9`, `inf` or `12.5`, which the server never writes.
- `ServerTasks.TaskStore.CleanupOldTasks`: when some key has no timestamp, the model leaves the table unchanged. The source raises inside the timer thread.
- `InstagramApi.Paginate`: requires that the last reply ends the listing. A server that pages forever is not modelled.
- `InstagramApi.GetNotFollowingBack`: carries the same requirement on both listings.
- `Json`: numbers are integers only. Floating-point JSON numbers are not modelled, and neither is the truthiness of `0.0` or `NaN`. Every number the core reads (ids, counters, indices) is integral.
- `ServerBatch.BatchTask.Run`: takes the ids as integers, the form the page posts (app.js:838 and 865). A batch of characters or keys that `StartBatch` accepts is stored with its length, but running it is not modelled.
- `ServerBatch.BatchTask.Record` and `ServerSent.CancelItem`: the `error` text (`str(e)`) a failed record carries is not modelled. The page reads only a record's status.
- `ServerTasks.TaskStore.StartBatch` and `ServerTasks.CheckResolve`: take the decoded body. The framework's own answers to a body that is not JSON, or has the wrong content type, come before the view runs and are not modelled. A `null` body is the `Json` value `Null`.
- `ServerNames.PendingSentJson`: takes the decoded body as a parameter. The framework's own answers to a body that is not JSON (400) or a wrong content type (415) come before the view runs, and are not modelled. The order of an object's keys is a parameter, because the decoded `Json` value does not record it.
- `ClientSent.SentPage.ApplyFilter`: whether the page has a `sent-filter-…` button for the name is a parameter, because the page's HTML is not part of this model.
- `InstagramApi.ParseUser`: keeps the JSON values as they are. It does not model what later code does with a non-string `username` or a non-integer `pk`.

## Findings

| source | as written | input that shows it | evidently intended | confidence | as-written member | corrected member |
|---|---|---|---|---|---|---|
| instagram_api.py:91-131 | `get_user_by_username` catches every exception and returns a user only from a 200 reply, so a 429/401/403 reads as "no such user". The `RateLimitError`/`AuthenticationError` branches of the two sent streams can never run. | Both lookup endpoints answer 429. The check stream reports `not_found` and keeps going. | A rejected lookup raises, so the stream stops with `rate_limited` or `auth_error`. | not executed | `Protocol.RateLimitReadsAsNotFound` | `Protocol.RateLimitStopsStrict` |
| static/js/app.js:347-357 | With extracted names and pasted text, the form carries two `usernames` values, and the server's `form.get` reads only the first. | Extracted `["alice"]` with pasted `bob`. The server's list is `["alice"]`. | Every name the user gave reaches the list. | not executed | `Protocol.PastedNamesDropped` | `ServerNames.MultipartNamesAllSpec` |
| static/js/app.js:799-802 | On an error reply, the single button is relabelled `'Cancel'` only on the pending tab, so the sent tab's "Cancel" button comes back as "Unfollow". | Sent tab, the server answers `{"error": …}`. | The button gets back the label it had. | not executed | `ClientProgress.SentTabErrorLabel` | `ClientProgress.FixedErrorLabel` |
