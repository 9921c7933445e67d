/**
 * The users router: the profile endpoints and the friend graph. A friendship is
 * kept in two arrays of each profile, `friends` and `friendRequests` (incoming),
 * updated with Firestore's `arrayUnion` and `arrayRemove`. A handler whose
 * awaited store call throws sends no response; that outcome is `Rejected`.
 */
module UsersRoutes {
  import opened Wrappers
  import opened JsonValue
  import opened VerifyFirebaseToken
  import opened UserController

  /** How a handler ends: `{ ok: true }`, a 400 with `{ error }`, or a thrown store call. */
  datatype Outcome = OkTrue | BadRequest(error: string) | Rejected

  /** The outcome of a handler together with the collection it leaves behind. */
  datatype Step = Step(outcome: Outcome, users: Users)

  /** `arrayUnion(x)`: `x` is added at the end unless present; a missing array becomes `[x]`. */
  function ArrayUnion(existing: Option<seq<string>>, x: string): (r: seq<string>)
    ensures x in r
    ensures forall y :: y in r <==> y == x || (existing.Some? && y in existing.value)
    ensures existing.Some? && x in existing.value ==> r == existing.value
    ensures existing.Some? && x !in existing.value ==> r == existing.value + [x]
  {
    if existing.None? then [x]
    else if x in existing.value then existing.value
    else existing.value + [x]
  }

  /** `arrayRemove(x)`: every copy of `x` is dropped, the rest kept in order; a missing array becomes `[]`. */
  function ArrayRemove(existing: Option<seq<string>>, x: string): (r: seq<string>)
    ensures x !in r
    ensures forall y :: y in r <==> y != x && existing.Some? && y in existing.value
    ensures existing.Some? && x !in existing.value ==> r == existing.value
  {
    if existing.None? then []
    else Without(existing.value, x)
  }

  function Without(s: seq<string>, x: string): (r: seq<string>)
    ensures forall y :: y in r <==> y != x && y in s
    ensures x !in s ==> r == s
    ensures |r| <= |s|
  {
    if s == [] then []
    else if s[0] == x then Without(s[1..], x)
    else [s[0]] + Without(s[1..], x)
  }

  /** Union adds nothing the second time. */
  lemma ArrayUnionIdempotent(existing: Option<seq<string>>, x: string)
    ensures ArrayUnion(Some(ArrayUnion(existing, x)), x) == ArrayUnion(existing, x)
  {
  }

  /** Union never creates a duplicate in an array that had none. */
  lemma ArrayUnionKeepsDistinct(existing: seq<string>, x: string)
    requires forall i, j :: 0 <= i < j < |existing| ==> existing[i] != existing[j]
    ensures var r := ArrayUnion(Some(existing), x);
      forall i, j :: 0 <= i < j < |r| ==> r[i] != r[j]
  {
  }

  /** The profile `/init` writes for a first sign-in: the token's claims, no friends yet. */
  function InitialProfile(decoded: DecodedToken, now: int): (p: UserProfile)
    ensures p.uid == decoded.uid && p.friends == Some([]) && p.friendRequests == None
    ensures p.email == decoded.email && p.displayName == decoded.name && p.photoURL == decoded.picture
  {
    UserProfile(decoded.uid, decoded.email, decoded.name, decoded.picture, Some([]), None, None, None, None, now, None)
  }

  /**
   * Whether Firestore accepts `/init`'s write: the profile object names `email`,
   * `displayName` and `photoURL`, so a claim the token lacks is an `undefined`
   * field, which Firestore refuses.
   */
  predicate InitWritable(decoded: DecodedToken)
  {
    decoded.email.Some? && decoded.name.Some? && decoded.picture.Some?
  }

  /** POST /init as a step on the collection. */
  function InitStep(users: Users, decoded: DecodedToken, now: int): (s: Step)
    ensures decoded.uid in users ==> s == Step(OkTrue, users)
    ensures decoded.uid !in users && !InitWritable(decoded) ==> s == Step(Rejected, users)
    ensures decoded.uid !in users && InitWritable(decoded) ==>
      && s.outcome == OkTrue
      && s.users.Keys == users.Keys + {decoded.uid}
      && (forall k :: k in users ==> s.users[k] == users[k])
      && s.users[decoded.uid] == InitialProfile(decoded, now).(updatedAt := Some(now))
  {
    if decoded.uid in users then Step(OkTrue, users)
    else if !InitWritable(decoded) then Step(Rejected, users)
    else Step(OkTrue, CreateIfAbsent(users, InitialProfile(decoded, now), now))
  }

  /** Signing in again never resets a profile, friends included. */
  lemma InitIdempotent(users: Users, decoded: DecodedToken, now: int, later: int)
    ensures var first := InitStep(users, decoded, now);
      InitStep(first.users, decoded, later).users == first.users
  {
  }

  /** POST /friends/request as a step: `toUid` is the body's property, the sender is the caller. */
  function RequestStep(users: Users, fromUid: string, toUid: Option<Json>): (s: Step)
    ensures !Truthy(toUid) ==> s == Step(BadRequest("toUid required"), users)
    ensures s.users.Keys == users.Keys
    ensures forall k :: k in users && (toUid != Some(JStr(k))) ==> s.users[k] == users[k]
    ensures s.outcome == OkTrue <==> toUid.Some? && toUid.value.JStr? && toUid.value.s != "" && toUid.value.s in users
    ensures s.outcome == OkTrue ==>
      var requests := s.users[toUid.value.s].friendRequests;
      requests.Some? && fromUid in requests.value
    ensures s.outcome != OkTrue ==> s.users == users
    ensures s.outcome == OkTrue ==>
      var t := toUid.value.s;
      s.users == users[t := users[t].(friendRequests := Some(ArrayUnion(users[t].friendRequests, fromUid)))]
  {
    if !Truthy(toUid) then Step(BadRequest("toUid required"), users)
    else if !toUid.value.JStr? || toUid.value.s !in users then Step(Rejected, users)
    else
      var target := toUid.value.s;
      var p := users[target];
      Step(OkTrue, users[target := p.(friendRequests := Some(ArrayUnion(p.friendRequests, fromUid)))])
  }

  /** Sending the same request twice leaves the collection as sending it once. */
  lemma RequestIdempotent(users: Users, fromUid: string, toUid: Option<Json>)
    ensures var once := RequestStep(users, fromUid, toUid);
      RequestStep(once.users, fromUid, toUid) == once
  {
    var once := RequestStep(users, fromUid, toUid);
    if once.outcome == OkTrue {
      var target := toUid.value.s;
      ArrayUnionIdempotent(users[target].friendRequests, fromUid);
    }
  }

  /**
   * POST /friends/accept as a step. `fromUid` must name a document before anything
   * is written; then my profile gains the friend and loses the request, then the
   * friend's profile gains me. The two writes are separate, so a missing friend
   * profile leaves my half written.
   */
  function AcceptStep(users: Users, myUid: string, fromUid: Option<Json>): (s: Step)
    ensures s.users.Keys == users.Keys
    ensures s.outcome == OkTrue || s.outcome == Rejected
    ensures fromUid.None? || !fromUid.value.JStr? || fromUid.value.s == "" || myUid !in users ==>
      s == Step(Rejected, users)
    ensures fromUid.Some? && fromUid.value.JStr? && fromUid.value.s != "" && myUid in users ==>
      var friend, me := fromUid.value.s, users[myUid];
      && s.users[myUid].friends == Some(ArrayUnion(me.friends, friend))
      && s.users[myUid].friendRequests == Some(ArrayRemove(me.friendRequests, friend))
      && s.users[myUid].(friends := me.friends, friendRequests := me.friendRequests) == me
      && (s.outcome == Rejected <==> friend !in users)
      && (friend !in users ==> s.users == users[myUid := s.users[myUid]])
      && (friend in users && friend != myUid ==>
            s.users == users[myUid := s.users[myUid]]
                            [friend := users[friend].(friends := Some(ArrayUnion(users[friend].friends, myUid)))])
  {
    if fromUid.None? || !fromUid.value.JStr? || fromUid.value.s == "" || myUid !in users then Step(Rejected, users)
    else
      var friend := fromUid.value.s;
      var me := users[myUid];
      var afterMe := users[myUid := me.(friends := Some(ArrayUnion(me.friends, friend)),
                                          friendRequests := Some(ArrayRemove(me.friendRequests, friend)))];
      if friend !in afterMe then Step(Rejected, afterMe)
      else
        var f := afterMe[friend];
        Step(OkTrue, afterMe[friend := f.(friends := Some(ArrayUnion(f.friends, myUid)))])
  }

  /**
   * Accept succeeds exactly when both profiles exist, whether or not a request was
   * pending: the handler never reads `friendRequests`.
   */
  lemma AcceptIgnoresPendingRequests(users: Users, myUid: string, fromUid: Option<Json>)
    ensures AcceptStep(users, myUid, fromUid).outcome == OkTrue <==>
      fromUid.Some? && fromUid.value.JStr? && fromUid.value.s != "" && myUid in users && fromUid.value.s in users
  {
  }

  /** After a successful accept the two are friends of each other and the request is gone. */
  lemma {:induction false} AcceptMakesFriends(users: Users, myUid: string, fromUid: string)
    requires AcceptStep(users, myUid, Some(JStr(fromUid))).outcome == OkTrue
    ensures var after := AcceptStep(users, myUid, Some(JStr(fromUid))).users;
      && fromUid in after[myUid].friends.value
      && myUid in after[fromUid].friends.value
      && (myUid != fromUid ==> fromUid !in after[myUid].friendRequests.value)
  {
    var me := users[myUid];
    var afterMe := users[myUid := me.(friends := Some(ArrayUnion(me.friends, fromUid)),
                                        friendRequests := Some(ArrayRemove(me.friendRequests, fromUid)))];
    var f := afterMe[fromUid];
    var after := afterMe[fromUid := f.(friends := Some(ArrayUnion(f.friends, myUid)))];
    assert AcceptStep(users, myUid, Some(JStr(fromUid))).users == after;
    if myUid == fromUid {
      assert f.friends == Some(ArrayUnion(me.friends, fromUid));
    }
  }

  /** Accept touches only the caller's and the friend's profiles. */
  lemma AcceptTouchesOnlyTwo(users: Users, myUid: string, fromUid: Option<Json>, k: string)
    requires k in users && k != myUid && fromUid != Some(JStr(k))
    ensures AcceptStep(users, myUid, fromUid).users[k] == users[k]
  {
  }

  /** Accepting from a uid with no profile still writes my half before failing. */
  lemma AcceptHalfApplied(users: Users, myUid: string, fromUid: string)
    requires myUid in users && fromUid != "" && fromUid !in users
    ensures AcceptStep(users, myUid, Some(JStr(fromUid))).outcome == Rejected
    ensures fromUid in AcceptStep(users, myUid, Some(JStr(fromUid))).users[myUid].friends.value
  {
  }

  /** The router's handlers, each on the authenticated caller's claims. */
  class Router {
    const store: UserStore

    constructor (store: UserStore)
      ensures this.store == store
    {
      this.store := store;
    }

    /** GET /me: my stored profile, or null. */
    method GetMe(caller: DecodedToken) returns (body: Option<UserProfile>)
      ensures body.Some? <==> caller.uid in store.users
      ensures body.Some? ==> body.value == store.users[caller.uid]
    {
      body := store.GetUser(caller.uid);
    }

    /** POST /init. */
    method Init(caller: DecodedToken, now: int) returns (o: Outcome)
      modifies store
      ensures Step(o, store.users) == InitStep(old(store.users), caller, now)
    {
      var ok := store.CreateUserIfNotExists(InitialProfile(caller, now), now, InitWritable(caller));
      o := if ok then OkTrue else Rejected;
    }

    /** PATCH /me: the body is merged into my profile. */
    method PatchMe(caller: DecodedToken, body: ProfileUpdate, now: int) returns (o: Outcome)
      modifies store
      ensures o == OkTrue <==> caller.uid in old(store.users)
      ensures o == Rejected <==> caller.uid !in old(store.users)
      ensures store.users == (if o == OkTrue then UpdateProfile(old(store.users), caller.uid, body, now).value else old(store.users))
    {
      var ok := store.UpdateUser(caller.uid, body, now);
      o := if ok then OkTrue else Rejected;
    }

    /** POST /friends/request. */
    method FriendRequest(caller: DecodedToken, toUid: Option<Json>) returns (o: Outcome)
      modifies store
      ensures Step(o, store.users) == RequestStep(old(store.users), caller.uid, toUid)
    {
      if !Truthy(toUid) {
        return BadRequest("toUid required");
      }
      if !toUid.value.JStr? || toUid.value.s !in store.users {
        return Rejected;
      }
      var target := toUid.value.s;
      var p := store.users[target];
      store.users := store.users[target := p.(friendRequests := Some(ArrayUnion(p.friendRequests, caller.uid)))];
      o := OkTrue;
    }

    /** POST /friends/accept: two writes, mine first. */
    method FriendAccept(caller: DecodedToken, fromUid: Option<Json>) returns (o: Outcome)
      modifies store
      ensures Step(o, store.users) == AcceptStep(old(store.users), caller.uid, fromUid)
    {
      var myUid := caller.uid;
      if fromUid.None? || !fromUid.value.JStr? || fromUid.value.s == "" {
        return Rejected;
      }
      var friend := fromUid.value.s;
      if myUid !in store.users {
        return Rejected;
      }
      var me := store.users[myUid];
      store.users := store.users[myUid := me.(friends := Some(ArrayUnion(me.friends, friend)),
                                              friendRequests := Some(ArrayRemove(me.friendRequests, friend)))];
      if friend !in store.users {
        return Rejected;
      }
      var f := store.users[friend];
      store.users := store.users[friend := f.(friends := Some(ArrayUnion(f.friends, myUid)))];
      o := OkTrue;
    }
  }
}
