/**
 * The user-profile controller over the `users` collection, modelled as a map from
 * document id (the uid) to profile. A profile field that is not stored is `None`.
 * Firestore's `update` of a missing document fails and changes nothing; whether a
 * `set` is accepted is passed in.
 */
module UserController {
  import opened Wrappers

  datatype ThreatLevel = Low | Medium | High | Critical

  datatype FavoriteSong = FavoriteSong(title: string, artist: Option<string>, url: Option<string>)

  datatype CurrentThreat = CurrentThreat(level: ThreatLevel, probabilityPct: real, updatedAt: int, source: Option<string>)

  datatype Location = Location(lat: real, lon: real, updatedAt: int)

  datatype UserProfile = UserProfile(
    uid: string,
    email: Option<string>,
    displayName: Option<string>,
    photoURL: Option<string>,
    friends: Option<seq<string>>,
    friendRequests: Option<seq<string>>,
    favoriteSong: Option<FavoriteSong>,
    currentThreat: Option<CurrentThreat>,
    lastLocation: Option<Location>,
    createdAt: int,
    updatedAt: Option<int>)

  /** A `Partial<UserProfile>`: the fields an update brings. */
  datatype ProfileUpdate = ProfileUpdate(
    uid: Option<string>,
    email: Option<string>,
    displayName: Option<string>,
    photoURL: Option<string>,
    friends: Option<seq<string>>,
    friendRequests: Option<seq<string>>,
    favoriteSong: Option<FavoriteSong>,
    currentThreat: Option<CurrentThreat>,
    lastLocation: Option<Location>,
    createdAt: Option<int>,
    updatedAt: Option<int>)

  type Users = map<string, UserProfile>

  /** An update that brings no field. */
  const NoFields := ProfileUpdate(None, None, None, None, None, None, None, None, None, None, None)

  /** `{ ...profile, createdAt: now, updatedAt: now }`: the stamps replace whatever the profile carried. */
  function Stamped(profile: UserProfile, now: int): (p: UserProfile)
    ensures p.createdAt == now && p.updatedAt == Some(now)
    ensures p.(createdAt := profile.createdAt, updatedAt := profile.updatedAt) == profile
  {
    profile.(createdAt := now, updatedAt := Some(now))
  }

  /** `createUserIfNotExists` once its write is accepted: a profile is stored only under a new uid. */
  function CreateIfAbsent(users: Users, profile: UserProfile, now: int): (r: Users)
    ensures r.Keys == users.Keys + {profile.uid}
    ensures forall k :: k in users ==> r[k] == users[k]
    ensures profile.uid !in users ==> r[profile.uid] == Stamped(profile, now)
  {
    if profile.uid in users then users else users[profile.uid := Stamped(profile, now)]
  }

  /** Creating twice is creating once: the second call finds the profile and keeps it. */
  lemma CreateIfAbsentIdempotent(users: Users, profile: UserProfile, now: int, later: int)
    ensures CreateIfAbsent(CreateIfAbsent(users, profile, now), profile, later) == CreateIfAbsent(users, profile, now)
  {
  }

  /** A field after an update: the brought value if any, else the stored one. */
  function Override<T>(given: Option<T>, stored: Option<T>): Option<T>
  {
    if given.Some? then given else stored
  }

  /** `{ ...updates, updatedAt: now }` applied to a stored profile: each brought field replaces the stored one. */
  function Merge(p: UserProfile, u: ProfileUpdate, now: int): (r: UserProfile)
    ensures r.uid == (if u.uid.Some? then u.uid.value else p.uid)
    ensures r.email == (if u.email.Some? then u.email else p.email)
    ensures r.displayName == (if u.displayName.Some? then u.displayName else p.displayName)
    ensures r.photoURL == (if u.photoURL.Some? then u.photoURL else p.photoURL)
    ensures r.friends == (if u.friends.Some? then u.friends else p.friends)
    ensures r.friendRequests == (if u.friendRequests.Some? then u.friendRequests else p.friendRequests)
    ensures r.favoriteSong == (if u.favoriteSong.Some? then u.favoriteSong else p.favoriteSong)
    ensures r.currentThreat == (if u.currentThreat.Some? then u.currentThreat else p.currentThreat)
    ensures r.lastLocation == (if u.lastLocation.Some? then u.lastLocation else p.lastLocation)
    ensures r.createdAt == (if u.createdAt.Some? then u.createdAt.value else p.createdAt)
    ensures r.updatedAt == Some(now)
  {
    UserProfile(
      if u.uid.Some? then u.uid.value else p.uid,
      Override(u.email, p.email),
      Override(u.displayName, p.displayName),
      Override(u.photoURL, p.photoURL),
      Override(u.friends, p.friends),
      Override(u.friendRequests, p.friendRequests),
      Override(u.favoriteSong, p.favoriteSong),
      Override(u.currentThreat, p.currentThreat),
      Override(u.lastLocation, p.lastLocation),
      if u.createdAt.Some? then u.createdAt.value else p.createdAt,
      Some(now))
  }

  /** An update that brings nothing only refreshes `updatedAt`. */
  lemma MergeNothing(p: UserProfile, now: int)
    ensures Merge(p, NoFields, now) == p.(updatedAt := Some(now))
  {
  }

  /** Applying the same update again changes nothing but the time stamp. */
  lemma MergeIdempotent(p: UserProfile, u: ProfileUpdate, now: int, later: int)
    ensures Merge(Merge(p, u, now), u, later) == Merge(p, u, later)
  {
  }

  /** A client-sent `updatedAt` never survives: the server stamp is written last. */
  lemma MergeStampWins(p: UserProfile, u: ProfileUpdate, now: int)
    requires u.updatedAt.Some?
    ensures Merge(p, u, now).updatedAt == Some(now)
  {
  }

  /** `updateUser`: fails on a missing profile, otherwise merges into that profile alone. */
  function UpdateProfile(users: Users, uid: string, u: ProfileUpdate, now: int): (r: Option<Users>)
    ensures r.Some? <==> uid in users
    ensures r.Some? ==> r.value.Keys == users.Keys && r.value[uid] == Merge(users[uid], u, now)
    ensures r.Some? ==> forall k :: k in users && k != uid ==> r.value[k] == users[k]
  {
    if uid in users then Some(users[uid := Merge(users[uid], u, now)]) else None
  }

  /** `updateThreatStatus`: fails on a missing profile or an undefined threat, otherwise replaces the threat and stamps. */
  function SetThreat(users: Users, uid: string, threat: Option<CurrentThreat>, now: int): (r: Option<Users>)
    ensures r.Some? <==> uid in users && threat.Some?
    ensures r.Some? ==> r.value.Keys == users.Keys
    ensures r.Some? ==> forall k :: k in users && k != uid ==> r.value[k] == users[k]
    ensures r.Some? ==> r.value[uid].currentThreat == threat && r.value[uid].updatedAt == Some(now)
    ensures r.Some? ==> r.value[uid].(currentThreat := users[uid].currentThreat, updatedAt := users[uid].updatedAt) == users[uid]
  {
    if uid in users && threat.Some? then
      Some(users[uid := users[uid].(currentThreat := threat, updatedAt := Some(now))])
    else None
  }

  /** A threat update is the general update with only `currentThreat` brought: every other field is kept. */
  lemma SetThreatIsMerge(users: Users, uid: string, threat: CurrentThreat, now: int)
    requires uid in users
    ensures SetThreat(users, uid, Some(threat), now) == UpdateProfile(users, uid, NoFields.(currentThreat := Some(threat)), now)
  {
  }

  /** The `users` collection. */
  class UserStore {
    var users: Users

    constructor (initial: Users)
      ensures users == initial
    {
      users := initial;
    }

    /**
     * `createUserIfNotExists`: a stored profile is left alone; otherwise the profile
     * is written with fresh stamps, if Firestore accepts the write.
     */
    method CreateUserIfNotExists(profile: UserProfile, now: int, writeAccepted: bool) returns (ok: bool)
      modifies this
      ensures ok <==> profile.uid in old(users) || writeAccepted
      ensures users == (if ok then CreateIfAbsent(old(users), profile, now) else old(users))
    {
      if profile.uid in users {
        return true;
      }
      if !writeAccepted {
        return false;
      }
      users := users[profile.uid := Stamped(profile, now)];
      ok := true;
    }

    /** `getUser`: the stored profile, or null. */
    method GetUser(uid: string) returns (r: Option<UserProfile>)
      ensures r.Some? <==> uid in users
      ensures r.Some? ==> r.value == users[uid]
    {
      if uid !in users {
        return None;
      }
      r := Some(users[uid]);
    }

    /** `updateUser`. */
    method UpdateUser(uid: string, updates: ProfileUpdate, now: int) returns (ok: bool)
      modifies this
      ensures ok <==> UpdateProfile(old(users), uid, updates, now).Some?
      ensures users == (if ok then UpdateProfile(old(users), uid, updates, now).value else old(users))
    {
      if uid !in users {
        return false;
      }
      users := users[uid := Merge(users[uid], updates, now)];
      ok := true;
    }

    /** `updateThreatStatus`. */
    method UpdateThreatStatus(uid: string, currentThreat: Option<CurrentThreat>, now: int) returns (ok: bool)
      modifies this
      ensures ok <==> SetThreat(old(users), uid, currentThreat, now).Some?
      ensures users == (if ok then SetThreat(old(users), uid, currentThreat, now).value else old(users))
    {
      if currentThreat.None? || uid !in users {
        return false;
      }
      users := users[uid := users[uid].(currentThreat := currentThreat, updatedAt := Some(now))];
      ok := true;
    }
  }
}
