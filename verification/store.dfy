/**
 The notification service's MongoDB store (`database.ts`): the
 `push_subscriptions` and `notification_templates` collections, modelled as
 append-only sequences of documents in natural order, behind a module-level
 handle that stays unset when the connection failed. Without a handle every
 operation degrades to `[]` or `null`; read failures become `[]`; write
 failures are rethrown. Whether a driver call fails is an oracle parameter.
 */
module Store {
  import opened Common
  import Json

  /** A document identifier (`insertedId`). */
  type Id = nat

  /** A document of `push_subscriptions`; absent fields are stored as `null`. */
  datatype SubscriptionDoc = SubscriptionDoc(
    id: Id, userId: Option<string>, endpoint: Option<string>, keys: Option<string>, createdAt: int)

  /** What a subscription read hands back: `{endpoint, keys}`. */
  datatype Subscription = Subscription(endpoint: Option<string>, keys: Option<string>)

  /** A field value of a template document. `Other` stands for any JSON value
      that is neither null, a string nor a date, by its text. */
  datatype Value = Null | Text(s: string) | Time(ms: int) | Other(json: string)

  type Fields = map<string, Value>

  /** A document of `notification_templates`. */
  datatype TemplateDoc = TemplateDoc(id: Id, fields: Fields)

  /** The contents of the database; `nextId` is the next identifier to hand out. */
  datatype Db = Db(subscriptions: seq<SubscriptionDoc>, templates: seq<TemplateDoc>, nextId: Id)

  /** The module-level `db`: unset until a connection succeeded. */
  type Handle = Option<Db>

  /** The body a client posts to register a push subscription. */
  datatype SubscriptionBody = SubscriptionBody(endpoint: Option<string>, keys: Option<Json.KeyMap>)

  datatype Insert = Insert(insertedId: Id)
  datatype Delete = Delete(deletedCount: nat)

  /** A write either completes, with the new handle and the driver's result
      (`null` when there is no store), or rethrows the driver's error. */
  datatype Write<T> = Done(handle: Handle, result: Option<T>) | Threw(error: Error)

  /** Every identifier in use is below `nextId`, so `nextId` is fresh. */
  ghost predicate Valid(db: Db) {
    && (forall i :: 0 <= i < |db.subscriptions| ==> db.subscriptions[i].id < db.nextId)
    && (forall i :: 0 <= i < |db.templates| ==> db.templates[i].id < db.nextId)
  }

  /** `initializeDatabase`: `reached` is the database when `client.connect()`
      succeeded; on failure the error is swallowed and the handle is untouched. */
  function InitializeDatabase(h: Handle, reached: Option<Db>): (r: Handle)
    ensures reached.Some? ==> r == reached
    ensures reached.None? ==> r == h
  {
    if reached.Some? then reached else h
  }

  // ---------------------------------------------------------------------
  // Subscriptions
  // ---------------------------------------------------------------------

  /** The projection `{endpoint, keys}` of a stored subscription. */
  function View(d: SubscriptionDoc): Subscription {
    Subscription(d.endpoint, d.keys)
  }

  /** The projections of the documents owned by `userId`, in natural order. */
  function Owned(docs: seq<SubscriptionDoc>, userId: Option<string>): (r: seq<Subscription>)
    ensures |r| <= |docs|
    ensures forall s :: s in r <==> exists i :: 0 <= i < |docs| && docs[i].userId == userId && View(docs[i]) == s
    decreases |docs|
  {
    if |docs| == 0 then []
    else
      var init, last := docs[..|docs| - 1], docs[|docs| - 1];
      var r := Owned(init, userId) + (if last.userId == userId then [View(last)] else []);
      assert forall i :: 0 <= i < |init| ==> init[i] == docs[i];
      r
  }

  /** `find({userId})` keeps one entry per matching document, in stored
      order: the result over two stretches of documents is the result over
      the first followed by the result over the second, and a single
      document contributes its projection exactly when its owner matches. */
  lemma {:induction false} OwnedDistributes(a: seq<SubscriptionDoc>, b: seq<SubscriptionDoc>, userId: Option<string>)
    ensures Owned(a + b, userId) == Owned(a, userId) + Owned(b, userId)
    ensures |b| == 1 ==> Owned(b, userId) == (if b[0].userId == userId then [View(b[0])] else [])
    decreases |b|
  {
    if |b| == 1 {
      assert b[..0] == [];
    }
    if |b| == 0 {
      assert a + b == a;
    } else {
      var init := b[..|b| - 1];
      OwnedDistributes(a, init, userId);
      assert (a + b)[..|a + b| - 1] == a + init;
      assert (a + b)[|a + b| - 1] == b[|b| - 1];
    }
  }

  /** `getSubscriptionsForUser`: `[]` without a store or when the query
      fails; otherwise the user's subscriptions, projected, in natural order. */
  function GetSubscriptionsForUser(h: Handle, userId: Option<string>, failure: Option<Error>): (r: seq<Subscription>)
    ensures h.None? || failure.Some? ==> r == []
    ensures h.Some? && failure.None? ==>
      forall s :: s in r <==> exists d :: d in h.value.subscriptions && d.userId == userId && View(d) == s
    ensures h.Some? && failure.None? ==> r == Owned(h.value.subscriptions, userId)
  {
    match h
    case None => []
    case Some(db) => if failure.Some? then [] else Owned(db.subscriptions, userId)
  }

  /** The stored text of a subscription's keys: `JSON.stringify(keys)`, or
      `null` when the body had no keys. */
  function KeysText(keys: Option<Json.KeyMap>): Option<string> {
    match keys
    case None => None
    case Some(m) => Some(Json.Stringify(m))
  }

  /** `saveSubscription`: appends one document under `userId` with the keys
      serialised to text; no uniqueness check. */
  function SaveSubscription(h: Handle, userId: Option<string>, body: SubscriptionBody, now: int, failure: Option<Error>)
    : (r: Write<Insert>)
    ensures h.None? ==> r == Done(None, None)
    ensures h.Some? && failure.Some? ==> r == Threw(failure.value)
    ensures h.Some? && failure.None? ==>
      && r.Done? && r.handle.Some? && r.result.Some?
      && var (db, db') := (h.value, r.handle.value);
      && r.result.value.insertedId == db.nextId
      && db'.subscriptions == db.subscriptions
           + [SubscriptionDoc(db.nextId, userId, body.endpoint, KeysText(body.keys), now)]
      && db'.templates == db.templates
      && db'.nextId == db.nextId + 1
      && (Valid(db) ==> Valid(db') && forall d :: d in db.subscriptions ==> d.id != r.result.value.insertedId)
  {
    match h
    case None => Done(None, None)
    case Some(db) =>
      if failure.Some? then Threw(failure.value)
      else
        var doc := SubscriptionDoc(db.nextId, userId, body.endpoint, KeysText(body.keys), now);
        Done(Some(db.(subscriptions := db.subscriptions + [doc], nextId := db.nextId + 1)), Some(Insert(db.nextId)))
  }

  /** Index of the first document with `endpoint`, or `|docs|` when none has it. */
  function FirstWithEndpoint(docs: seq<SubscriptionDoc>, endpoint: Option<string>): (k: nat)
    ensures k <= |docs|
    ensures k < |docs| ==> docs[k].endpoint == endpoint
    ensures forall j :: 0 <= j < k ==> docs[j].endpoint != endpoint
    decreases |docs|
  {
    if |docs| == 0 || docs[0].endpoint == endpoint then 0
    else 1 + FirstWithEndpoint(docs[1..], endpoint)
  }

  /** `deleteSubscription` (`deleteOne({endpoint})`): removes the first
      document with that endpoint, if any, and nothing else. */
  function DeleteSubscription(h: Handle, endpoint: Option<string>, failure: Option<Error>): (r: Write<Delete>)
    ensures h.None? ==> r == Done(None, None)
    ensures h.Some? && failure.Some? ==> r == Threw(failure.value)
    ensures h.Some? && failure.None? ==>
      && r.Done? && r.handle.Some? && r.result.Some?
      && var (docs, docs') := (h.value.subscriptions, r.handle.value.subscriptions);
      && r.handle.value.templates == h.value.templates
      && r.handle.value.nextId == h.value.nextId
      && r.result.value.deletedCount <= 1
      && |docs'| == |docs| - r.result.value.deletedCount
      && (r.result.value.deletedCount == 1 <==> exists d :: d in docs && d.endpoint == endpoint)
      && (r.result.value.deletedCount == 0 ==> docs' == docs)
      && (r.result.value.deletedCount == 1 ==>
            exists k :: 0 <= k < |docs| && docs[k].endpoint == endpoint
                     && (forall j :: 0 <= j < k ==> docs[j].endpoint != endpoint)
                     && docs' == docs[..k] + docs[k + 1..])
  {
    match h
    case None => Done(None, None)
    case Some(db) =>
      if failure.Some? then Threw(failure.value)
      else
        var docs := db.subscriptions;
        var k := FirstWithEndpoint(docs, endpoint);
        if k == |docs| then Done(h, Some(Delete(0)))
        else Done(Some(db.(subscriptions := docs[..k] + docs[k + 1..])), Some(Delete(1)))
  }

  // ---------------------------------------------------------------------
  // Templates
  // ---------------------------------------------------------------------

  /** The value a possibly-undefined user id is stored as. */
  function UserValue(userId: Option<string>): Value {
    match userId
    case None => Null
    case Some(u) => Text(u)
  }

  /** `{userId, ...template, createdAt: now, updatedAt: now}`. */
  function TemplateFields(userId: Option<string>, template: Fields, now: int): Fields {
    map["userId" := UserValue(userId)] + template + map["createdAt" := Time(now), "updatedAt" := Time(now)]
  }

  /** `saveTemplate`: appends one document. The template's own `userId`
      overrides the argument; the timestamps always take the fresh value. */
  function SaveTemplate(h: Handle, userId: Option<string>, template: Fields, now: int, failure: Option<Error>)
    : (r: Write<Insert>)
    ensures h.None? ==> r == Done(None, None)
    ensures h.Some? && failure.Some? ==> r == Threw(failure.value)
    ensures h.Some? && failure.None? ==>
      && r.Done? && r.handle.Some? && r.result.Some?
      && var (db, db') := (h.value, r.handle.value);
      && r.result.value.insertedId == db.nextId
      && db'.subscriptions == db.subscriptions
      && |db'.templates| == |db.templates| + 1
      && db'.templates[..|db.templates|] == db.templates
      && var doc := db'.templates[|db.templates|];
      && doc.id == db.nextId
      && doc.fields.Keys == template.Keys + {"userId", "createdAt", "updatedAt"}
      && doc.fields["userId"] == (if "userId" in template then template["userId"] else UserValue(userId))
      && doc.fields["createdAt"] == Time(now) && doc.fields["updatedAt"] == Time(now)
      && (forall k :: k in template && k !in {"userId", "createdAt", "updatedAt"} ==> doc.fields[k] == template[k])
      && (Valid(db) ==> Valid(db'))
  {
    match h
    case None => Done(None, None)
    case Some(db) =>
      if failure.Some? then Threw(failure.value)
      else
        var doc := TemplateDoc(db.nextId, TemplateFields(userId, template, now));
        Done(Some(db.(templates := db.templates + [doc], nextId := db.nextId + 1)), Some(Insert(db.nextId)))
  }

  /** Whether a template document answers the query `{userId}`; an undefined
      user id queries for `null`, which also matches a missing field. */
  predicate OwnedTemplate(d: TemplateDoc, userId: Option<string>) {
    match userId
    case Some(u) => "userId" in d.fields && d.fields["userId"] == Text(u)
    case None => "userId" !in d.fields || d.fields["userId"] == Null
  }

  function OwnedTemplates(docs: seq<TemplateDoc>, userId: Option<string>): (r: seq<TemplateDoc>)
    ensures |r| <= |docs|
    decreases |docs|
  {
    if |docs| == 0 then []
    else OwnedTemplates(docs[..|docs| - 1], userId) + (if OwnedTemplate(docs[|docs| - 1], userId) then [docs[|docs| - 1]] else [])
  }

  /** The listed templates are exactly the stored ones that match. */
  lemma {:induction false} OwnedTemplatesMembers(docs: seq<TemplateDoc>, userId: Option<string>)
    ensures forall d :: d in OwnedTemplates(docs, userId) <==> d in docs && OwnedTemplate(d, userId)
    decreases |docs|
  {
    if |docs| > 0 {
      var init, last := docs[..|docs| - 1], docs[|docs| - 1];
      OwnedTemplatesMembers(init, userId);
      assert docs == init + [last];
    }
  }

  /** Templates are listed one entry per matching document, in stored order. */
  lemma {:induction false} OwnedTemplatesDistribute(a: seq<TemplateDoc>, b: seq<TemplateDoc>, userId: Option<string>)
    ensures OwnedTemplates(a + b, userId) == OwnedTemplates(a, userId) + OwnedTemplates(b, userId)
    decreases |b|
  {
    if |b| == 0 {
      assert a + b == a;
    } else {
      var init, last := b[..|b| - 1], b[|b| - 1];
      var tail := if OwnedTemplate(last, userId) then [last] else [];
      OwnedTemplatesDistribute(a, init, userId);
      assert (a + b)[..|a + b| - 1] == a + init;
      assert (a + b)[|a + b| - 1] == last;
      assert OwnedTemplates(a + b, userId) == OwnedTemplates(a + init, userId) + tail;
      assert OwnedTemplates(b, userId) == OwnedTemplates(init, userId) + tail;
    }
  }

  /** A single template document is listed exactly when it matches. */
  lemma OwnedTemplatesOne(d: TemplateDoc, userId: Option<string>)
    ensures OwnedTemplates([d], userId) == (if OwnedTemplate(d, userId) then [d] else [])
  {
    assert [d][..0] == [];
  }

  /** `getTemplatesForUser`: `[]` without a store or when the query fails;
      otherwise exactly the templates whose `userId` matches, in stored order. */
  function GetTemplatesForUser(h: Handle, userId: Option<string>, failure: Option<Error>): (r: seq<TemplateDoc>)
    ensures h.None? || failure.Some? ==> r == []
    ensures h.Some? && failure.None? ==>
      forall d :: d in r <==> d in h.value.templates && OwnedTemplate(d, userId)
    ensures h.Some? && failure.None? ==> r == OwnedTemplates(h.value.templates, userId)
  {
    match h
    case None => []
    case Some(db) =>
      if failure.Some? then []
      else
        OwnedTemplatesMembers(db.templates, userId);
        OwnedTemplates(db.templates, userId)
  }

  // ---------------------------------------------------------------------
  // Properties relating several operations
  // ---------------------------------------------------------------------

  /** After a failed connection the handle stays unset, and every operation
      degrades: reads give `[]`, writes give `null` and store nothing. */
  lemma FailedConnectionDegrades(userId: Option<string>, body: SubscriptionBody, endpoint: Option<string>,
                                 template: Fields, now: int, failure: Option<Error>)
    ensures var h := InitializeDatabase(None, None);
      && h.None?
      && GetSubscriptionsForUser(h, userId, failure) == []
      && SaveSubscription(h, userId, body, now, failure) == Done(None, None)
      && DeleteSubscription(h, endpoint, failure) == Done(None, None)
      && SaveTemplate(h, userId, template, now, failure) == Done(None, None)
      && GetTemplatesForUser(h, userId, failure) == []
  {
  }

  /** A connection made at start-up is kept: a later failed attempt does not
      unset the handle, so the stored documents stay readable. */
  lemma FailedReconnectKeepsStore(db: Db, userId: Option<string>)
    ensures var h := InitializeDatabase(InitializeDatabase(None, Some(db)), None);
      GetSubscriptionsForUser(h, userId, None) == Owned(db.subscriptions, userId)
  {
  }

  /** A saved subscription is read back last among its owner's subscriptions,
      with its keys as text; other users' reads do not change. */
  lemma SaveThenRead(db: Db, userId: Option<string>, body: SubscriptionBody, now: int, reader: Option<string>)
    ensures var w := SaveSubscription(Some(db), userId, body, now, None);
      GetSubscriptionsForUser(w.handle, reader, None)
        == GetSubscriptionsForUser(Some(db), reader, None)
           + (if reader == userId then [Subscription(body.endpoint, KeysText(body.keys))] else [])
  {
    var w := SaveSubscription(Some(db), userId, body, now, None);
    var docs' := w.handle.value.subscriptions;
    assert docs'[..|docs'| - 1] == db.subscriptions;
  }

  /** No uniqueness check: saving the same subscription twice stores two documents. */
  lemma SaveTwiceKeepsBoth(db: Db, userId: Option<string>, body: SubscriptionBody, now: int)
    ensures var w1 := SaveSubscription(Some(db), userId, body, now, None);
      var w2 := SaveSubscription(w1.handle, userId, body, now, None);
      var docs := w2.handle.value.subscriptions;
      && |docs| == |db.subscriptions| + 2
      && View(docs[|docs| - 2]) == View(docs[|docs| - 1])
      && docs[|docs| - 2].id != docs[|docs| - 1].id
  {
  }

  /** Keys written by `saveSubscription` always parse back: every stored
      keys text is either `null` or `JSON.stringify` of an object. */
  ghost predicate KeysParse(db: Db) {
    forall i :: 0 <= i < |db.subscriptions| ==>
      var k := db.subscriptions[i].keys;
      k.None? || Json.ParseKeys(k.value).Some?
  }

  lemma SavePreservesKeysParse(db: Db, userId: Option<string>, body: SubscriptionBody, now: int)
    requires KeysParse(db)
    ensures KeysParse(SaveSubscription(Some(db), userId, body, now, None).handle.value)
  {
    if body.keys.Some? {
      Json.ParseStringify(body.keys.value);
    }
  }

  lemma DeletePreservesKeysParse(db: Db, endpoint: Option<string>)
    requires KeysParse(db)
    ensures KeysParse(DeleteSubscription(Some(db), endpoint, None).handle.value)
  {
    var docs := db.subscriptions;
    var k := FirstWithEndpoint(docs, endpoint);
    if k < |docs| {
      var docs' := docs[..k] + docs[k + 1..];
      forall i | 0 <= i < |docs'|
        ensures docs'[i].keys.None? || Json.ParseKeys(docs'[i].keys.value).Some?
      {
        if i < k { assert docs'[i] == docs[i]; } else { assert docs'[i] == docs[i + 1]; }
      }
    }
  }

  /** A template saved without its own `userId` is listed for the header
      user; one that carries its own `userId` is listed for that user instead. */
  lemma TemplateOwner(db: Db, userId: string, template: Fields, now: int)
    ensures var w := SaveTemplate(Some(db), Some(userId), template, now, None);
      var doc := w.handle.value.templates[|db.templates|];
      && ("userId" !in template ==> doc in GetTemplatesForUser(w.handle, Some(userId), None))
      && (forall v :: "userId" in template && template["userId"] == Text(v) ==>
            doc in GetTemplatesForUser(w.handle, Some(v), None))
  {
  }
}
