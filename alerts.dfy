/**
 * The alerts router: POST validates a body and appends an alert document to the
 * `alerts` collection; GET lists the newest alerts by `createdAt`. The collection
 * is a sequence of stored documents; whether a store call fails, the generated
 * document id and the clock are passed in.
 */
module Alerts {
  import opened Wrappers
  import opened JsonValue
  import opened VerifyFirebaseToken

  /** What JavaScript's `Number(req.query.limit)` produced. */
  datatype JsNumber = NaN | Finite(value: real) | Infinity(positive: bool)

  datatype StoredAlert = StoredAlert(id: string, data: map<string, Json>)

  /** A JSON response: a 200 body, or a status with `{ error }`. */
  datatype Response = Json200(body: Json) | Failure(status: int, error: string)

  /** `Number(req.query.limit) || 20`: NaN and zero are falsy and give 20. */
  function EffectiveLimit(parsed: JsNumber): (r: JsNumber)
    ensures parsed == NaN || parsed == Finite(0.0) ==> r == Finite(20.0)
    ensures parsed != NaN && parsed != Finite(0.0) ==> r == parsed
  {
    match parsed
    case NaN => Finite(20.0)
    case Finite(v) => if v == 0.0 then Finite(20.0) else parsed
    case Infinity(_) => parsed
  }

  /** The limit as a count of documents, when Firestore accepts it: a positive whole number. */
  function QueryLimit(limit: JsNumber): (r: Option<nat>)
    ensures r.Some? <==> limit.Finite? && limit.value >= 1.0 && limit.value == limit.value.Floor as real
    ensures r.Some? ==> r.value >= 1 && r.value as real == limit.value
  {
    if limit.Finite? && limit.value >= 1.0 && limit.value == limit.value.Floor as real
    then Some(limit.value.Floor)
    else None
  }

  /** Without a usable `limit` parameter the page holds 20 alerts. */
  lemma DefaultLimitIsTwenty(parsed: JsNumber)
    requires parsed == NaN || parsed == Finite(0.0)
    ensures QueryLimit(EffectiveLimit(parsed)) == Some(20)
  {
  }

  /** A whole positive `limit` is used as given. */
  lemma GivenLimitKept(n: nat)
    requires n >= 1
    ensures QueryLimit(EffectiveLimit(Finite(n as real))) == Some(n)
  {
  }

  /** `req.body || {}` read as an object: a missing or non-object body has no properties. */
  function BodyFields(body: Option<Json>): (r: map<string, Json>)
    ensures body.Some? && body.value.JObj? ==> r == body.value.fields
    ensures !(body.Some? && body.value.JObj?) ==> r == map[]
  {
    if body.Some? && body.value.JObj? then body.value.fields else map[]
  }

  /**
   * The stored document: every body field, then `userId` set to the caller's uid,
   * then `createdAt` kept from the body unless null or missing, when it is `now`.
   */
  function AlertDocument(fields: map<string, Json>, uid: string, now: nat): (doc: map<string, Json>)
    ensures doc.Keys == fields.Keys + {"userId", "createdAt"}
    ensures forall k :: k in fields && k != "userId" && k != "createdAt" ==> doc[k] == fields[k]
    ensures doc["userId"] == JStr(uid)
    ensures "createdAt" in fields && fields["createdAt"] != JNull ==> doc["createdAt"] == fields["createdAt"]
    ensures !("createdAt" in fields && fields["createdAt"] != JNull) ==> doc["createdAt"] == JNum(now as real)
  {
    var createdAt := if "createdAt" in fields && fields["createdAt"] != JNull then fields["createdAt"] else JNum(now as real);
    fields["userId" := JStr(uid)]["createdAt" := createdAt]
  }

  /** `{ id, ...doc }`: the id first, so a document field named `id` takes its place. */
  function WithId(id: string, data: map<string, Json>): (r: map<string, Json>)
    ensures r.Keys == data.Keys + {"id"}
    ensures forall k :: k in data ==> r[k] == data[k]
    ensures "id" !in data ==> r["id"] == JStr(id)
  {
    map["id" := JStr(id)] + data
  }

  /** A body `createdAt` of 0 is falsy but not nullish, so it is stored as 0. */
  lemma ZeroCreatedAtKept(fields: map<string, Json>, uid: string, now: nat)
    requires "createdAt" in fields && fields["createdAt"] == JNum(0.0)
    ensures AlertDocument(fields, uid, now)["createdAt"] == JNum(0.0)
  {
  }

  /** A body that brings its own `userId` cannot impersonate another user. */
  lemma UserIdCannotBeForged(fields: map<string, Json>, uid: string, now: nat)
    ensures AlertDocument(fields, uid, now)["userId"] == JStr(uid)
  {
  }

  /** A body field `id` shadows the generated id in the POST response. */
  lemma BodyIdShadowsGeneratedId(fields: map<string, Json>, uid: string, now: nat, newId: string)
    requires "id" in fields
    ensures WithId(newId, AlertDocument(fields, uid, now))["id"] == fields["id"]
  {
  }

  /** The property Firestore orders by, or null when the document has none. */
  function CreatedAt(a: StoredAlert): Json
  {
    if "createdAt" in a.data then a.data["createdAt"] else JNull
  }

  /** `a` comes no later than `b` in `createdAt`-descending order. */
  predicate Newer(a: StoredAlert, b: StoredAlert)
  {
    ValueLeq(CreatedAt(b), CreatedAt(a))
  }

  /** Firestore's `orderBy` leaves out the documents that lack the field. */
  function Ordered(docs: seq<StoredAlert>): (r: seq<StoredAlert>)
    ensures forall a :: a in r <==> a in docs && "createdAt" in a.data
    ensures |r| <= |docs|
    ensures |docs| == 1 ==> r == (if "createdAt" in docs[0].data then docs else [])
  {
    if docs == [] then []
    else
      var rest := Ordered(docs[..|docs| - 1]);
      var last := docs[|docs| - 1];
      assert docs == docs[..|docs| - 1] + [last];
      if "createdAt" in last.data then rest + [last] else rest
  }

  /** The filter keeps each document with the field exactly as often as it occurs, and no other. */
  lemma {:induction false} OrderedCounts(docs: seq<StoredAlert>, a: StoredAlert)
    ensures multiset(Ordered(docs))[a] == (if "createdAt" in a.data then multiset(docs)[a] else 0)
  {
    if docs != [] {
      var init, last := docs[..|docs| - 1], docs[|docs| - 1];
      assert docs == init + [last];
      OrderedCounts(init, a);
      if "createdAt" in last.data {
        assert Ordered(docs) == Ordered(init) + [last];
      } else {
        assert Ordered(docs) == Ordered(init);
      }
    }
  }

  /** One more document at the end is kept at the end, or dropped. */
  lemma OrderedSnoc(docs: seq<StoredAlert>, x: StoredAlert)
    ensures Ordered(docs + [x]) == if "createdAt" in x.data then Ordered(docs) + [x] else Ordered(docs)
  {
    assert (docs + [x])[..|docs|] == docs;
  }

  /** The filter keeps the documents' relative order: it distributes over concatenation. */
  lemma {:induction false} OrderedAppend(a: seq<StoredAlert>, b: seq<StoredAlert>)
    ensures Ordered(a + b) == Ordered(a) + Ordered(b)
  {
    if b == [] {
      assert a + b == a;
    } else {
      var init, last := b[..|b| - 1], b[|b| - 1];
      assert b == init + [last];
      assert a + b == (a + init) + [last];
      OrderedAppend(a, init);
      OrderedSnoc(a + init, last);
      OrderedSnoc(init, last);
    }
  }

  /**
   * `r` is what `orderBy("createdAt", "desc").limit(limit)` returns from `candidates`:
   * as many as the limit allows, taken from the candidates, newest first, and no
   * candidate left out is newer than one taken.
   */
  ghost predicate NewestFirst(candidates: seq<StoredAlert>, r: seq<StoredAlert>, limit: nat)
  {
    && |r| == (if limit < |candidates| then limit else |candidates|)
    && multiset(r) <= multiset(candidates)
    && (forall i, j :: 0 <= i < j < |r| ==> Newer(r[i], r[j]))
    && (forall x, y :: x in r && y in multiset(candidates) - multiset(r) ==> Newer(x, y))
  }

  /** The position of a newest document of a non-empty sequence. */
  method NewestIndex(s: seq<StoredAlert>) returns (m: nat)
    requires s != []
    ensures m < |s|
    ensures forall k :: 0 <= k < |s| ==> Newer(s[m], s[k])
  {
    m := 0;
    var i := 1;
    ValueLeqReflexive(CreatedAt(s[0]));
    while i < |s|
      invariant 1 <= i <= |s| && m < i
      invariant forall k :: 0 <= k < i ==> Newer(s[m], s[k])
    {
      if !Newer(s[m], s[i]) {
        ValueLeqTotal(CreatedAt(s[m]), CreatedAt(s[i]));
        ValueLeqReflexive(CreatedAt(s[i]));
        forall k | 0 <= k < i
          ensures Newer(s[i], s[k])
        {
          ValueLeqTransitive(CreatedAt(s[k]), CreatedAt(s[m]), CreatedAt(s[i]));
        }
        m := i;
      }
      i := i + 1;
    }
  }

  /** Taken so far: `taken` is newest first and newer than everything in `rest`. */
  ghost predicate TakenBefore(taken: seq<StoredAlert>, rest: seq<StoredAlert>)
  {
    && (forall i, j :: 0 <= i < j < |taken| ==> Newer(taken[i], taken[j]))
    && (forall x, y :: x in taken && y in rest ==> Newer(x, y))
  }

  /** Moving a newest document of `rest` to the end of `taken` keeps the selection ordered. */
  lemma TakeNewest(taken: seq<StoredAlert>, rest: seq<StoredAlert>, m: nat)
    requires m < |rest| && TakenBefore(taken, rest)
    requires forall k :: 0 <= k < |rest| ==> Newer(rest[m], rest[k])
    ensures TakenBefore(taken + [rest[m]], rest[..m] + rest[m + 1..])
    ensures multiset(taken + [rest[m]]) + multiset(rest[..m] + rest[m + 1..]) == multiset(taken) + multiset(rest)
  {
    var remaining := rest[..m] + rest[m + 1..];
    assert rest == rest[..m] + [rest[m]] + rest[m + 1..];
    assert multiset(rest) == multiset(remaining) + multiset{rest[m]};
    forall y | y in remaining
      ensures y in rest
    {
      assert y in multiset(remaining);
    }
  }

  /** Picks the newest documents one at a time until the limit is reached. */
  method SelectNewest(candidates: seq<StoredAlert>, limit: nat) returns (r: seq<StoredAlert>)
    ensures NewestFirst(candidates, r, limit)
  {
    r := [];
    var rest := candidates;
    while |r| < limit && rest != []
      invariant multiset(r) + multiset(rest) == multiset(candidates)
      invariant |r| <= limit
      invariant TakenBefore(r, rest)
      decreases |rest|
    {
      var m := NewestIndex(rest);
      TakeNewest(r, rest, m);
      r, rest := r + [rest[m]], rest[..m] + rest[m + 1..];
    }
    assert |multiset(r)| + |multiset(rest)| == |multiset(candidates)|;
    assert multiset(candidates) - multiset(r) == multiset(rest);
  }

  /** The `{ id, ...data }` objects of the GET response. */
  function Items(docs: seq<StoredAlert>): (r: seq<Json>)
    ensures |r| == |docs|
    ensures forall i :: 0 <= i < |docs| ==> r[i] == JObj(WithId(docs[i].id, docs[i].data))
  {
    if docs == [] then [] else [JObj(WithId(docs[0].id, docs[0].data))] + Items(docs[1..])
  }

  /** The `alerts` collection. */
  class AlertStore {
    var alerts: seq<StoredAlert>

    constructor ()
      ensures alerts == []
    {
      alerts := [];
    }

    /**
     * POST /api/alerts by the authenticated `user`. No truthy `threatLevel`: 400 and
     * nothing stored. A failed write: 500. Otherwise the document is appended under
     * `newId` and echoed back with its id.
     */
    method Post(body: Option<Json>, user: DecodedToken, now: nat, newId: string, writeSucceeds: bool) returns (res: Response)
      modifies this
      ensures !Truthy(Get(BodyFields(body), "threatLevel")) ==>
        res == Failure(400, "threatLevel required") && alerts == old(alerts)
      ensures Truthy(Get(BodyFields(body), "threatLevel")) && !writeSucceeds ==>
        res == Failure(500, "Failed to create alert") && alerts == old(alerts)
      ensures Truthy(Get(BodyFields(body), "threatLevel")) && writeSucceeds ==>
        var doc := AlertDocument(BodyFields(body), user.uid, now);
        && alerts == old(alerts) + [StoredAlert(newId, doc)]
        && res == Json200(JObj(WithId(newId, doc)))
    {
      var fields := BodyFields(body);
      if !Truthy(Get(fields, "threatLevel")) {
        return Failure(400, "threatLevel required");
      }
      var doc := AlertDocument(fields, user.uid, now);
      if !writeSucceeds {
        return Failure(500, "Failed to create alert");
      }
      alerts := alerts + [StoredAlert(newId, doc)];
      res := Json200(JObj(WithId(newId, doc)));
    }

    /**
     * GET /api/alerts. A limit Firestore refuses, or a failed read: 500. Otherwise the
     * newest `limit` alerts that have a `createdAt`, each with its id.
     */
    method List(parsedLimit: JsNumber, readSucceeds: bool) returns (res: Response)
      ensures QueryLimit(EffectiveLimit(parsedLimit)).None? || !readSucceeds ==>
        res == Failure(500, "Failed to fetch alerts")
      ensures QueryLimit(EffectiveLimit(parsedLimit)).Some? && readSucceeds ==>
        exists page :: NewestFirst(Ordered(alerts), page, QueryLimit(EffectiveLimit(parsedLimit)).value)
          && res == Json200(JArr(Items(page)))
    {
      var limit := QueryLimit(EffectiveLimit(parsedLimit));
      if limit.None? || !readSucceeds {
        return Failure(500, "Failed to fetch alerts");
      }
      var page := SelectNewest(Ordered(alerts), limit.value);
      res := Json200(JArr(Items(page)));
    }
  }

  /** Every alert POST stores carries a `createdAt`, so GET can list it. */
  lemma PostedAlertsAreOrdered(fields: map<string, Json>, uid: string, now: nat, newId: string)
    ensures StoredAlert(newId, AlertDocument(fields, uid, now)) in Ordered([StoredAlert(newId, AlertDocument(fields, uid, now))])
  {
  }
}
