/** The platform client: classification of HTTP replies into results and
    exceptions, user records, the two username lookups, the friendship
    classifier, pagination over follower lists, and the not-following-back
    difference. HTTP exchanges are inputs: each call the code makes is given
    the reply the platform would send. */
module InstagramApi {

  import opened Wrappers
  import opened Json
  import Lists

  /** The exceptions this layer raises or lets through. The first three are the
      package's own hierarchy: `RateLimitError` and `AuthenticationError` are
      subclasses of `InstagramAPIError`. */
  datatype Exc =
    | RateLimitError
    | AuthenticationError
    | InstagramAPIError
    | HTTPError          // from `raise_for_status` on another 4xx or 5xx status
    | JSONDecodeError    // `resp.json()` on a body that is not JSON
    | RequestException   // the HTTP call itself failed (connection, timeout)
    | AttributeError     // `.get` on a decoded value that is not a dict
    | TypeError          // iterating a decoded value that is not iterable

  /** What `except InstagramAPIError:` catches. */
  predicate IsInstagramAPIError(e: Exc) {
    e.RateLimitError? || e.AuthenticationError? || e.InstagramAPIError?
  }

  /** A Python call that returns a value or raises. */
  datatype Outcome<+T> = Value(value: T) | Raise(exc: Exc)

  /** One HTTP exchange: a response with its status code and its body (None
      when the body is not valid JSON), or no response at all. */
  datatype Reply = Response(status: int, body: Option<Json>) | NetworkFailure

  const Checkpoint: Json := Str("checkpoint_required")

  /** `_handle(resp)`: 429, 401/403 and 400 raise the package's exceptions,
      404 yields None (`Null`), another error status raises `HTTPError`, and
      every other status yields the decoded body. */
  function Handle(status: int, body: Option<Json>): (o: Outcome<Json>)
    ensures o == Raise(RateLimitError) <==> status == 429
    ensures o == Raise(AuthenticationError) <==>
      || status == 401 || status == 403
      || (status == 400 && body.Some? && body.value.Obj? && GetField(body.value.fields, "message") == Checkpoint)
    ensures (o.Raise? && IsInstagramAPIError(o.exc)) <==>
      status in {400, 401, 403, 429} && !(status == 400 && body.Some? && !body.value.Obj?)
    ensures o.Value? <==> status == 404 || (!(400 <= status < 600) && body.Some?)
    ensures o.Value? && status != 404 ==> o.value == body.value
    ensures status == 404 ==> o == Value(Null)
  {
    if status == 429 then Raise(RateLimitError)
    else if status == 401 || status == 403 then Raise(AuthenticationError)
    else if status == 400 then
      match body
      case None => Raise(InstagramAPIError)
      case Some(Obj(m)) =>
        if GetField(m, "message") == Checkpoint then Raise(AuthenticationError) else Raise(InstagramAPIError)
      case Some(_) => Raise(AttributeError)
    else if status == 404 then Value(Null)
    else if 400 <= status < 600 then Raise(HTTPError)
    else
      match body
      case None => Raise(JSONDecodeError)
      case Some(j) => Value(j)
  }

  /** `self._handle(self.http.get(...))` and likewise for POST. */
  function Call(reply: Reply): (o: Outcome<Json>)
    ensures reply.NetworkFailure? ==> o == Raise(RequestException)
    ensures reply.Response? ==> o == Handle(reply.status, reply.body)
  {
    match reply
    case NetworkFailure => Raise(RequestException)
    case Response(status, body) => Handle(status, body)
  }

  /** `cancel_follow_request(user_id)`; `unfollow_user` is this same call. */
  function CancelFollowRequest(reply: Reply): Outcome<Json> {
    Call(reply)
  }

  /** A user record as the code builds it; every field holds whatever the
      platform sent (None reads as `Null`). */
  datatype User = User(
    userId: Json, username: Json, fullName: Json,
    profilePicUrl: Json, isPrivate: Json, isVerified: Json)

  /** `_parse_user(user)`: `pk` becomes the user id; a missing full name or
      picture defaults to `""` and a missing flag to `False`. */
  function ParseUser(u: Json): (o: Outcome<User>)
    ensures o.Raise? <==> !u.Obj?
    ensures o.Raise? ==> o.exc == AttributeError
    ensures o.Value? ==>
      var m := u.fields;
      && o.value.userId == (if "pk" in m then m["pk"] else Null)
      && o.value.username == (if "username" in m then m["username"] else Null)
      && o.value.fullName == (if "full_name" in m then m["full_name"] else Str(""))
      && o.value.profilePicUrl == (if "profile_pic_url" in m then m["profile_pic_url"] else Str(""))
      && o.value.isPrivate == (if "is_private" in m then m["is_private"] else Bool(false))
      && o.value.isVerified == (if "is_verified" in m then m["is_verified"] else Bool(false))
  {
    match u
    case Obj(m) => Value(User(
      GetField(m, "pk"), GetField(m, "username"),
      GetOr(m, "full_name", Str("")), GetOr(m, "profile_pic_url", Str("")),
      GetOr(m, "is_private", Bool(false)), GetOr(m, "is_verified", Bool(false))))
    case _ => Raise(AttributeError)
  }

  /** Parsing every element of a users array; the first non-dict raises. */
  function ParseUsers(items: seq<Json>): (o: Outcome<seq<User>>)
    ensures o.Value? ==>
      && |o.value| == |items|
      && forall k :: 0 <= k < |items| ==> ParseUser(items[k]) == Value(o.value[k])
    ensures o.Raise? ==> o.exc == AttributeError && exists k :: 0 <= k < |items| && !items[k].Obj?
    ensures (forall k :: 0 <= k < |items| ==> items[k].Obj?) ==> o.Value?
  {
    if items == [] then Value([])
    else
      match ParseUser(items[0])
      case Raise(e) => Raise(e)
      case Value(u) =>
        match ParseUsers(items[1..])
        case Raise(e) => Raise(e)
        case Value(us) => Value([u] + us)
  }

  /** The users of a page, each parsed by `ParseUser`; a `users` value that is a
      string or an object is iterated by characters or keys, which are not dicts. */
  function PageUsers(m: map<string, Json>): Outcome<seq<User>> {
    match GetOr(m, "users", Arr([]))
    case Arr(items) => ParseUsers(items)
    case Str(s) => if s == "" then Value([]) else Raise(AttributeError)
    case Obj(f) => if f == map[] then Value([]) else Raise(AttributeError)
    case _ => Raise(TypeError)
  }

  /** What one page of a paginated listing contributes. */
  datatype PageStep =
    | Done                                       // no data: stop, add nothing
    | Page(users: seq<User>, next: Option<Json>) // add these users; go on with `next` as max_id if present
    | Failed(exc: Exc)                           // an exception leaves the loop

  predicate Ends(step: PageStep) {
    !(step.Page? && step.next.Some?)
  }

  /** The body of both pagination loops once a page is decoded: falsy data
      stops; otherwise its users are added, and the loop goes on only while
      both `big_list` and `next_max_id` are truthy. */
  function ReadPage(data: Json): (step: PageStep)
    ensures !PyTruthy(data) <==> step == Done
    ensures step.Page? && step.next.Some? <==>
      && data.Obj? && data.fields != map[] && PageUsers(data.fields).Value?
      && PyTruthy(GetField(data.fields, "big_list")) && PyTruthy(GetField(data.fields, "next_max_id"))
    ensures step.Page? && step.next.Some? ==>
      step.next.value == data.fields["next_max_id"] && PyTruthy(step.next.value)
    ensures step.Page? ==> data.Obj? && Value(step.users) == PageUsers(data.fields)
  {
    if !PyTruthy(data) then Done
    else
      match data
      case Obj(m) =>
        (match PageUsers(m)
         case Raise(e) => Failed(e)
         case Value(us) =>
           if !PyTruthy(GetField(m, "big_list")) || !PyTruthy(GetField(m, "next_max_id")) then Page(us, None)
           else Page(us, Some(m["next_max_id"])))
      case _ => Failed(AttributeError)
  }

  /** The two listing loops differ only in how they treat an exception from `_handle`. */
  datatype Listing =
    | IncomingPending   // `get_incoming_pending_requests`: any InstagramAPIError ends the loop quietly
    | Friendships       // `_paginate_friendships`: every exception propagates

  function StepOf(mode: Listing, reply: Reply): (step: PageStep)
    ensures mode == IncomingPending && Call(reply).Raise? && IsInstagramAPIError(Call(reply).exc) ==> step == Done
    ensures mode == Friendships && Call(reply).Raise? ==> step == Failed(Call(reply).exc)
    ensures Call(reply).Value? ==> step == ReadPage(Call(reply).value)
  {
    match Call(reply)
    case Raise(e) => if mode == IncomingPending && IsInstagramAPIError(e) then Done else Failed(e)
    case Value(data) => ReadPage(data)
  }

  /** What each reply contributes to a listing. */
  function StepsOf(mode: Listing, replies: seq<Reply>): (steps: seq<PageStep>)
    ensures |steps| == |replies|
  {
    if replies == [] then [] else [StepOf(mode, replies[0])] + StepsOf(mode, replies[1..])
  }

  lemma {:induction false} StepsOfAt(mode: Listing, replies: seq<Reply>, k: nat)
    requires k < |replies|
    ensures StepsOf(mode, replies)[k] == StepOf(mode, replies[k])
    decreases k
  {
    if k > 0 {
      StepsOfAt(mode, replies[1..], k - 1);
    }
  }

  /** What a listing returns when its pages contribute `steps[i..]`. */
  function Gather(steps: seq<PageStep>, i: nat): Outcome<seq<User>>
    decreases |steps| - i
  {
    if i >= |steps| then Value([])
    else
      match steps[i]
      case Done => Value([])
      case Failed(e) => Raise(e)
      case Page(us, None) => Value(us)
      case Page(us, Some(_)) => Prepend(us, Gather(steps, i + 1))
  }

  function Prepend(us: seq<User>, o: Outcome<seq<User>>): Outcome<seq<User>> {
    match o
    case Value(rest) => Value(us + rest)
    case Raise(e) => Raise(e)
  }

  lemma {:induction false} PrependAssoc(a: seq<User>, b: seq<User>, o: Outcome<seq<User>>)
    ensures Prepend(a, Prepend(b, o)) == Prepend(a + b, o)
  {
    if o.Value? {
      assert a + (b + o.value) == (a + b) + o.value;
    }
  }

  lemma {:induction false} PrependNothing(o: Outcome<seq<User>>)
    ensures Prepend([], o) == o
  {
    if o.Value? {
      assert [] + o.value == o.value;
    }
  }

  /** Whether the last page given ends the listing. */
  predicate EndsByLast(steps: seq<PageStep>) {
    |steps| > 0 && Ends(steps[|steps| - 1])
  }

  /** Number of requests a listing makes from the `i`-th on: up to and
      including the first page that ends it. */
  function Requests(steps: seq<PageStep>, i: nat): (n: nat)
    ensures i <= |steps| ==> i + n <= |steps|
    ensures i < |steps| && EndsByLast(steps) ==> 0 < n && Ends(steps[i + n - 1])
    decreases |steps| - i
  {
    if i >= |steps| then 0
    else if Ends(steps[i]) then 1
    else 1 + Requests(steps, i + 1)
  }

  /** The `max_id` parameters of the first `n` requests: none on the first,
      afterwards the previous page's `next_max_id`. */
  function SentMaxIds(steps: seq<PageStep>, n: nat): (sent: seq<Option<Json>>)
    requires n <= |steps|
    ensures |sent| == n && (n > 0 ==> sent[0] == None)
    ensures forall k :: 0 < k < n ==> sent[k] == NextOf(steps[k - 1])
  {
    seq(n, k requires 0 <= k < n => if k == 0 then None else NextOf(steps[k - 1]))
  }

  /** The `next_max_id` a step hands to the following request, if any. */
  function NextOf(step: PageStep): Option<Json> {
    if step.Page? then step.next else None
  }

  lemma SentMaxIdsSnoc(steps: seq<PageStep>, i: nat)
    requires i < |steps|
    ensures SentMaxIds(steps, i + 1) == SentMaxIds(steps, i) + [if i == 0 then None else NextOf(steps[i - 1])]
  {
    var l := SentMaxIds(steps, i + 1);
    var r := SentMaxIds(steps, i) + [if i == 0 then None else NextOf(steps[i - 1])];
    forall k | 0 <= k < |l| ensures l[k] == r[k] {
    }
  }

  /** `get_incoming_pending_requests()` and `list(_paginate_friendships(path))`:
      request pages until one ends the listing, and return the users of all
      pages or the exception that ended it; `sent` holds the `max_id`
      parameter of each request made. The platform is assumed to end the
      listing by the last reply given. */
  method Paginate(mode: Listing, replies: seq<Reply>) returns (o: Outcome<seq<User>>, sent: seq<Option<Json>>)
    requires EndsByLast(StepsOf(mode, replies))
    ensures o == Gather(StepsOf(mode, replies), 0)
    ensures Requests(StepsOf(mode, replies), 0) <= |replies|
    ensures sent == SentMaxIds(StepsOf(mode, replies), Requests(StepsOf(mode, replies), 0))
  {
    ghost var steps := StepsOf(mode, replies);
    var users: seq<User> := [];
    var maxId: Option<Json> := None;
    var i := 0;
    sent := [];
    PrependNothing(Gather(steps, 0));
    while true
      invariant 0 <= i < |steps|
      invariant Gather(steps, 0) == Prepend(users, Gather(steps, i))
      invariant Requests(steps, 0) == i + Requests(steps, i)
      invariant sent == SentMaxIds(steps, i)
      invariant maxId == (if i == 0 then None else NextOf(steps[i - 1]))
      decreases |steps| - i
    {
      SentMaxIdsSnoc(steps, i);
      sent := sent + [maxId];
      var step := FetchPage(mode, replies, i);
      if Ends(step) {
        LastStep(steps, i);
        match step {
          case Done =>
            o := Value(users);
            assert users + [] == users;
          case Failed(e) =>
            o := Raise(e);
          case Page(us, _) =>
            o := Value(users + us);
        }
        return;
      }
      NextStep(steps, i);
      PrependAssoc(users, step.users, Gather(steps, i + 1));
      users := users + step.users;
      maxId := step.next;
      i := i + 1;
    }
  }

  /** A page that ends the listing is the last request made from it on. */
  lemma LastStep(steps: seq<PageStep>, i: nat)
    requires i < |steps| && Ends(steps[i])
    ensures Requests(steps, i) == 1
    ensures Gather(steps, i) == (match steps[i]
      case Done => Value([])
      case Failed(e) => Raise(e)
      case Page(us, _) => Value(us))
  {
  }

  /** A page that hands on a `next_max_id` is followed by another request. */
  lemma NextStep(steps: seq<PageStep>, i: nat)
    requires EndsByLast(steps) && i < |steps| && !Ends(steps[i])
    ensures i + 1 < |steps|
    ensures Requests(steps, i) == 1 + Requests(steps, i + 1)
    ensures Gather(steps, i) == Prepend(steps[i].users, Gather(steps, i + 1))
  {
  }

  /** One request of a listing: the `i`-th reply read as a page. */
  method FetchPage(mode: Listing, replies: seq<Reply>, i: nat) returns (step: PageStep)
    requires i < |replies|
    ensures step == StepsOf(mode, replies)[i]
  {
    step := StepOf(mode, replies[i]);
    StepsOfAt(mode, replies, i);
  }

  /** Concatenation of the users of the first `n` pages. */
  function UsersOfPages(steps: seq<PageStep>, n: nat): seq<User>
    requires n <= |steps|
  {
    if n == 0 then []
    else UsersOfPages(steps, n - 1) + (if steps[n - 1].Page? then steps[n - 1].users else [])
  }

  /** A listing that ends without an exception returns the users of all the
      pages it requested, in page order. */
  lemma {:induction false} GatherConcatenatesPages(steps: seq<PageStep>)
    requires EndsByLast(steps)
    requires forall k :: 0 <= k < Requests(steps, 0) ==> !steps[k].Failed?
    ensures Gather(steps, 0) == Value(UsersOfPages(steps, Requests(steps, 0)))
  {
    GatherFrom(steps, 0);
    PrependNothing(Gather(steps, 0));
  }

  lemma {:induction false} GatherFrom(steps: seq<PageStep>, i: nat)
    requires i < |steps| && EndsByLast(steps)
    requires forall k :: i <= k < i + Requests(steps, i) ==> !steps[k].Failed?
    ensures Prepend(UsersOfPages(steps, i), Gather(steps, i)) == Value(UsersOfPages(steps, i + Requests(steps, i)))
    decreases |steps| - i
  {
    var acc := UsersOfPages(steps, i);
    assert !steps[i].Failed?;
    if Ends(steps[i]) {
      if steps[i].Done? {
        assert acc + [] == acc;
      }
    } else {
      assert i + 1 < |steps|;
      GatherFrom(steps, i + 1);
      PrependAssoc(acc, steps[i].users, Gather(steps, i + 1));
    }
  }

  /** A listing stopped at page `k` without data returns the users of the pages before it. */
  lemma {:induction false} GatherStopsAtDone(steps: seq<PageStep>, k: nat, j: nat)
    requires j <= k < |steps| && steps[k] == Done
    requires forall i :: j <= i < k ==> !Ends(steps[i])
    ensures Prepend(UsersOfPages(steps, j), Gather(steps, j)) == Value(UsersOfPages(steps, k))
    decreases k - j
  {
    var acc := UsersOfPages(steps, j);
    if j == k {
      assert acc + [] == acc;
    } else {
      GatherStopsAtDone(steps, k, j + 1);
      PrependAssoc(acc, steps[j].users, Gather(steps, j + 1));
    }
  }

  /** A listing whose page `k` raises raises that exception. */
  lemma {:induction false} GatherStopsAtFailed(steps: seq<PageStep>, k: nat, j: nat)
    requires j <= k < |steps| && steps[k].Failed?
    requires forall i :: j <= i < k ==> !Ends(steps[i])
    ensures Gather(steps, j) == Raise(steps[k].exc)
    decreases k - j
  {
    if j < k {
      GatherStopsAtFailed(steps, k, j + 1);
    }
  }

  /** When the platform answers request `k` with an InstagramAPIError (a 429,
      a 401, ...), the incoming-requests listing returns the users of the
      pages before it, while the friendships listing raises that error. */
  lemma {:induction false} ApiErrorMidListing(replies: seq<Reply>, k: nat)
    requires k < |replies|
    requires forall i :: 0 <= i < k ==> !Ends(StepOf(IncomingPending, replies[i]))
    requires Call(replies[k]).Raise? && IsInstagramAPIError(Call(replies[k]).exc)
    ensures Gather(StepsOf(IncomingPending, replies), 0) == Value(UsersOfPages(StepsOf(IncomingPending, replies), k))
    ensures Gather(StepsOf(Friendships, replies), 0) == Raise(Call(replies[k]).exc)
  {
    var inc := StepsOf(IncomingPending, replies);
    var fr := StepsOf(Friendships, replies);
    forall i | 0 <= i < k ensures !Ends(inc[i]) && !Ends(fr[i]) {
      StepsOfAt(IncomingPending, replies, i);
      StepsOfAt(Friendships, replies, i);
      assert Call(replies[i]).Value?;
    }
    StepsOfAt(IncomingPending, replies, k);
    StepsOfAt(Friendships, replies, k);
    GatherStopsAtDone(inc, k, 0);
    PrependNothing(Gather(inc, 0));
    GatherStopsAtFailed(fr, k, 0);
  }

  // ------------------------------------------------------------------
  // Not following back
  // ------------------------------------------------------------------

  function Ids(us: seq<User>): (ids: seq<Json>)
    ensures |ids| == |us| && forall k :: 0 <= k < |us| ==> ids[k] == us[k].userId
  {
    seq(|us|, k requires 0 <= k < |us| => us[k].userId)
  }

  lemma {:induction false} IdsConcat(a: seq<User>, b: seq<User>)
    ensures Ids(a + b) == Ids(a) + Ids(b)
  {
    assert |Ids(a + b)| == |Ids(a) + Ids(b)|;
    forall k | 0 <= k < |a + b| ensures Ids(a + b)[k] == (Ids(a) + Ids(b))[k] {
      if k < |a| {
        assert (a + b)[k] == a[k];
      } else {
        assert (a + b)[k] == b[k - |a|];
      }
    }
  }

  /** Where the id-keyed dict of followed users takes the value for `id`
      from: the last user carrying it. */
  function LastIndexWithId(us: seq<User>, id: Json): (j: nat)
    requires id in Ids(us)
    ensures j < |us| && us[j].userId == id
    ensures forall k :: j < k < |us| ==> us[k].userId != id
  {
    var n := |us| - 1;
    if us[n].userId == id then n
    else
      IdsConcat(us[..n], [us[n]]);
      assert us[..n] + [us[n]] == us;
      LastIndexWithId(us[..n], id)
  }

  /** The dict's users whose id no follower carries, in the dict's key order,
      which is the order in which each id first appeared. */
  function NotFollowingBack(following: seq<User>, followers: seq<User>): seq<User> {
    Lists.AppendNewSpec([], Ids(following));
    KeepUnfollowed(following, Lists.AppendNew([], Ids(following)), Ids(followers))
  }

  function KeepUnfollowed(following: seq<User>, keys: seq<Json>, followerIds: seq<Json>): (r: seq<User>)
    requires forall k :: k in keys ==> k in Ids(following)
  {
    if keys == [] then []
    else
      (if keys[0] in followerIds then [] else [following[LastIndexWithId(following, keys[0])]])
      + KeepUnfollowed(following, keys[1..], followerIds)
  }

  lemma {:induction false} KeepUnfollowedMembers(following: seq<User>, keys: seq<Json>, followerIds: seq<Json>)
    requires forall k :: k in keys ==> k in Ids(following)
    ensures forall u :: u in KeepUnfollowed(following, keys, followerIds) ==>
      u in following && u.userId in keys && u.userId !in followerIds
    decreases |keys|
  {
    if keys != [] {
      KeepUnfollowedMembers(following, keys[1..], followerIds);
    }
  }

  lemma {:induction false} KeepUnfollowedComplete(following: seq<User>, keys: seq<Json>, followerIds: seq<Json>)
    requires forall k :: k in keys ==> k in Ids(following)
    ensures forall id :: id in keys && id !in followerIds ==> id in Ids(KeepUnfollowed(following, keys, followerIds))
    decreases |keys|
  {
    if keys != [] {
      KeepUnfollowedComplete(following, keys[1..], followerIds);
      var head := if keys[0] in followerIds then [] else [following[LastIndexWithId(following, keys[0])]];
      IdsConcat(head, KeepUnfollowed(following, keys[1..], followerIds));
      assert keys == [keys[0]] + keys[1..];
      if head != [] {
        assert Ids(head)[0] == keys[0];
      }
    }
  }

  lemma {:induction false} KeepUnfollowedNoDup(following: seq<User>, keys: seq<Json>, followerIds: seq<Json>)
    requires forall k :: k in keys ==> k in Ids(following)
    requires Lists.NoDup(keys)
    ensures Lists.NoDup(Ids(KeepUnfollowed(following, keys, followerIds)))
    decreases |keys|
  {
    if keys != [] {
      var tail := KeepUnfollowed(following, keys[1..], followerIds);
      KeepUnfollowedNoDup(following, keys[1..], followerIds);
      KeepUnfollowedMembers(following, keys[1..], followerIds);
      if keys[0] in followerIds {
        assert [] + tail == tail;
      } else {
        var head := following[LastIndexWithId(following, keys[0])];
        IdsConcat([head], tail);
        assert keys[0] !in keys[1..] by {
          forall j | 0 <= j < |keys[1..]| ensures keys[1..][j] != keys[0] {
            assert keys[1..][j] == keys[j + 1];
          }
        }
        assert head.userId !in Ids(tail) by {
          forall j | 0 <= j < |tail| ensures Ids(tail)[j] != keys[0] {
            assert tail[j] in tail;
          }
        }
        Lists.NoDupCons(head.userId, Ids(tail));
      }
    }
  }

  /** `get_not_following_back` keeps exactly the followed users whose id is not
      a follower's id, each id once: every result is followed and is not a
      follower, the ids are distinct, and every followed non-follower is there. */
  lemma {:induction false} NotFollowingBackSpec(following: seq<User>, followers: seq<User>)
    ensures var r := NotFollowingBack(following, followers);
      && Lists.NoDup(Ids(r))
      && (forall u :: u in r ==> u in following && u.userId !in Ids(followers))
      && (forall u :: u in following && u.userId !in Ids(followers) ==> u.userId in Ids(r))
      && (forall u, f :: u in r && f in followers ==> u.userId != f.userId)
  {
    var keys := Lists.AppendNew([], Ids(following));
    Lists.AppendNewSpec([], Ids(following));
    KeepUnfollowedMembers(following, keys, Ids(followers));
    KeepUnfollowedComplete(following, keys, Ids(followers));
    KeepUnfollowedNoDup(following, keys, Ids(followers));
    var r := NotFollowingBack(following, followers);
    forall u | u in following && u.userId !in Ids(followers) ensures u.userId in Ids(r) {
      var k :| 0 <= k < |following| && following[k] == u;
      assert Ids(following)[k] == u.userId;
    }
    forall u, f | u in r && f in followers ensures u.userId != f.userId {
      var k :| 0 <= k < |followers| && followers[k] == f;
      assert Ids(followers)[k] == f.userId;
    }
  }

  /** `get_not_following_back()`: following is listed first, then followers;
      an exception from either listing propagates. */
  method GetNotFollowingBack(followingReplies: seq<Reply>, followersReplies: seq<Reply>) returns (o: Outcome<seq<User>>)
    requires EndsByLast(StepsOf(Friendships, followingReplies))
    requires EndsByLast(StepsOf(Friendships, followersReplies))
    ensures Gather(StepsOf(Friendships, followingReplies), 0).Raise? ==> o == Gather(StepsOf(Friendships, followingReplies), 0)
    ensures Gather(StepsOf(Friendships, followingReplies), 0).Value? && Gather(StepsOf(Friendships, followersReplies), 0).Raise? ==>
      o == Gather(StepsOf(Friendships, followersReplies), 0)
    ensures Gather(StepsOf(Friendships, followingReplies), 0).Value? && Gather(StepsOf(Friendships, followersReplies), 0).Value? ==>
      o == Value(NotFollowingBack(Gather(StepsOf(Friendships, followingReplies), 0).value, Gather(StepsOf(Friendships, followersReplies), 0).value))
  {
    var following, _ := Paginate(Friendships, followingReplies);
    if following.Raise? {
      return following;
    }
    var followers, _ := Paginate(Friendships, followersReplies);
    if followers.Raise? {
      return followers;
    }
    o := Value(NotFollowingBack(following.value, followers.value));
  }

  // ------------------------------------------------------------------
  // Username lookup and friendship status
  // ------------------------------------------------------------------

  /** The record both lookup endpoints build from a user dict, taking the id from `idKey`. */
  function LookupRecord(um: map<string, Json>, idKey: string, username: string): User {
    User(GetField(um, idKey), GetOr(um, "username", Str(username)),
         GetOr(um, "full_name", Str("")), GetOr(um, "profile_pic_url", Str("")),
         GetOr(um, "is_private", Bool(false)), GetOr(um, "is_verified", Bool(false)))
  }

  /** The user dict found at `path` in a decoded body, when every step is a dict. */
  function UserAt(data: Json, path: seq<string>): Option<map<string, Json>>
    decreases |path|
  {
    if !data.Obj? then None
    else if path == [] then Some(data.fields)
    else UserAt(GetOr(data.fields, path[0], Obj(map[])), path[1..])
  }

  /** One try-block of `get_user_by_username`: only a 200 reply with a dict
      body whose user dict has a truthy id yields a user; anything else
      (another status, a body that is not JSON, a non-dict along the
      way, a network failure) yields nothing, since every exception is swallowed. */
  function TryEndpoint(reply: Reply, path: seq<string>, idKey: string, username: string): (r: Option<User>)
    ensures r.Some? ==> reply.Response? && reply.status == 200 && PyTruthy(r.value.userId)
  {
    if reply.NetworkFailure? || reply.status != 200 || reply.body.None? then None
    else
      match UserAt(reply.body.value, path)
      case None => None
      case Some(um) => if um != map[] && PyTruthy(GetField(um, idKey)) then Some(LookupRecord(um, idKey, username)) else None
  }

  /** `usernameinfo` endpoint: the user is at `data["user"]`, id `pk`. */
  function FromUsernameInfo(reply: Reply, username: string): Option<User> {
    TryEndpoint(reply, ["user"], "pk", username)
  }

  /** `web_profile_info` endpoint: the user is at `data["data"]["user"]`, id `id`. */
  function FromWebProfile(reply: Reply, username: string): Option<User> {
    TryEndpoint(reply, ["data", "user"], "id", username)
  }

  /** `get_user_by_username(username)`: the mobile endpoint first, the web
      profile endpoint only when the first yields no user with an id; nothing
      when neither does. It never raises. */
  function GetUserByUsername(info: Reply, web: Reply, username: string): (r: Option<User>)
    ensures r.Some? ==> PyTruthy(r.value.userId)
    ensures FromUsernameInfo(info, username).Some? ==> r == FromUsernameInfo(info, username)
    ensures FromUsernameInfo(info, username).None? ==> r == FromWebProfile(web, username)
    ensures r.None? <==> FromUsernameInfo(info, username).None? && FromWebProfile(web, username).None?
  {
    var first := FromUsernameInfo(info, username);
    if first.Some? then first else FromWebProfile(web, username)
  }

  /** A rate-limited or rejected lookup is indistinguishable from an unknown
      username: both endpoints answering 429 (or 401/403) gives no user. */
  lemma {:induction false} RejectedLookupIsNotFound(info: Reply, web: Reply, username: string)
    requires info.Response? && info.status in {401, 403, 429}
    requires web.Response? && web.status in {401, 403, 429}
    ensures GetUserByUsername(info, web, username) == None
  {
  }

  predicate IsRejection(reply: Reply) {
    reply.Response? && reply.status in {401, 403, 429}
  }

  /** The lookup as the callers' `except RateLimitError` / `except
      AuthenticationError` clauses expect it: a 429 or 401/403 reply from an
      endpoint that is consulted goes through `_handle` and raises. */
  function GetUserByUsernameStrict(info: Reply, web: Reply, username: string): (o: Outcome<Option<User>>)
    ensures o.Raise? ==> o.exc in {RateLimitError, AuthenticationError}
    ensures !IsRejection(info) && !IsRejection(web) ==> o == Value(GetUserByUsername(info, web, username))
    ensures IsRejection(info) ==> o.Raise? && Call(info) == Raise(o.exc)
    ensures o.Value? && o.value.Some? ==> PyTruthy(o.value.value.userId)
  {
    if IsRejection(info) then (if info.status == 429 then Raise(RateLimitError) else Raise(AuthenticationError))
    else
      var first := FromUsernameInfo(info, username);
      if first.Some? then Value(first)
      else if IsRejection(web) then (if web.status == 429 then Raise(RateLimitError) else Raise(AuthenticationError))
      else Value(FromWebProfile(web, username))
  }

  /** `check_friendship(user_id)`: the decoded reply, falsy data as None;
      exceptions from `_handle` propagate. */
  function CheckFriendship(reply: Reply): (o: Outcome<Json>)
    ensures o.Raise? <==> Call(reply).Raise?
    ensures o.Value? && PyTruthy(o.value) ==> o == Call(reply)
    ensures o.Value? && !PyTruthy(o.value) ==> o.value == Null
  {
    match Call(reply)
    case Raise(e) => Raise(e)
    case Value(data) => if !PyTruthy(data) then Value(Null) else Value(data)
  }

  /** The per-username statuses of the outgoing-request check. */
  datatype LookupStatus = Pending | Accepted | NotPending | Unknown | NotFound

  /** The classifier shared by `check_outgoing_from_usernames` and the
      check-sent stream: `outgoing_request` means pending, else `following`
      means accepted, else not pending; an exception in the friendship call
      or in reading its result means unknown. */
  function ClassifyFriendship(o: Outcome<Json>): (s: LookupStatus)
    ensures s != NotFound
    ensures s == Pending <==> o.Value? && o.value.Obj? && PyTruthy(GetField(o.value.fields, "outgoing_request"))
    ensures s == Accepted <==>
      && o.Value? && o.value.Obj?
      && !PyTruthy(GetField(o.value.fields, "outgoing_request"))
      && PyTruthy(GetField(o.value.fields, "following"))
    ensures s == Unknown <==> o.Raise? || (PyTruthy(o.value) && !o.value.Obj?)
  {
    match o
    case Raise(_) => Unknown
    case Value(data) =>
      if !PyTruthy(data) then NotPending
      else
        match data
        case Obj(m) =>
          if PyTruthy(GetField(m, "outgoing_request")) then Pending
          else if PyTruthy(GetField(m, "following")) then Accepted
          else NotPending
        case _ => Unknown
  }

  /** The replies one username's check meets: the two lookup endpoints and,
      when a user was found, the friendship call. */
  datatype LookupReplies = LookupReplies(info: Reply, web: Reply, friendship: Reply)

  datatype StatusRecord = StatusRecord(user: User, status: LookupStatus)

  /** The record for a username no endpoint resolved. */
  function NotFoundUser(username: string): User {
    User(Null, Str(username), Str(""), Str(""), Bool(false), Bool(false))
  }

  /** One iteration of `check_outgoing_from_usernames`. */
  function CheckOutgoing(username: string, r: LookupReplies): (rec: StatusRecord)
    ensures rec.status == NotFound <==> GetUserByUsername(r.info, r.web, username).None?
    ensures rec.status == NotFound ==> rec.user == NotFoundUser(username)
    ensures rec.status != NotFound ==>
      && rec.user == GetUserByUsername(r.info, r.web, username).value
      && rec.status == ClassifyFriendship(CheckFriendship(r.friendship))
  {
    match GetUserByUsername(r.info, r.web, username)
    case Some(u) => StatusRecord(u, ClassifyFriendship(CheckFriendship(r.friendship)))
    case None => StatusRecord(NotFoundUser(username), NotFound)
  }

  /** `check_outgoing_from_usernames(usernames)`: exactly one record per
      username, in input order. */
  method CheckOutgoingFromUsernames(usernames: seq<string>, replies: seq<LookupReplies>) returns (results: seq<StatusRecord>)
    requires |replies| == |usernames|
    ensures |results| == |usernames|
    ensures forall k :: 0 <= k < |usernames| ==> results[k] == CheckOutgoing(usernames[k], replies[k])
  {
    results := [];
    var i := 0;
    while i < |usernames|
      invariant 0 <= i <= |usernames|
      invariant |results| == i
      invariant forall k :: 0 <= k < i ==> results[k] == CheckOutgoing(usernames[k], replies[k])
    {
      var user := GetUserByUsername(replies[i].info, replies[i].web, usernames[i]);
      if user.Some? {
        var status := ClassifyFriendship(CheckFriendship(replies[i].friendship));
        results := results + [StatusRecord(user.value, status)];
      } else {
        results := results + [StatusRecord(NotFoundUser(usernames[i]), NotFound)];
      }
      i := i + 1;
    }
  }
}
