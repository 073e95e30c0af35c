/**
 The subscription routes (`routes/subscriptions.ts`): register and
 unregister a push endpoint. The user id is the `x-user-id` header the
 gateway injected, taken verbatim with no check of its own.
 */
module SubscriptionRoutes {
  import opened Common
  import Store
  import Http

  /** The store after a handler ran, and the one response it sent. */
  datatype Answered = Answered(store: Store.Handle, response: Http.Response)

  /** POST `/`: saves the body under the header user; `id` is the inserted
      id, absent when there is no store; a failing save answers 500. */
  function PostSubscription(h: Store.Handle, userHeader: Option<string>, body: Store.SubscriptionBody, now: int, failure: Option<Error>)
    : (r: Answered)
    ensures h.None? ==> r == Answered(None, Http.Ok(Http.Success(None, None)))
    ensures h.Some? && failure.Some? ==>
      r == Answered(h, Http.Response(500, Http.Failure("Failed to save subscription", None)))
    ensures h.Some? && failure.None? ==>
      && r.response == Http.Ok(Http.Success(None, Some(h.value.nextId)))
      && r.store.Some?
      && r.store == Store.SaveSubscription(h, userHeader, body, now, None).handle
      && r.store.value.subscriptions == h.value.subscriptions
           + [Store.SubscriptionDoc(h.value.nextId, userHeader, body.endpoint, Store.KeysText(body.keys), now)]
      && r.store.value.templates == h.value.templates
      && r.store.value.nextId == h.value.nextId + 1
  {
    match Store.SaveSubscription(h, userHeader, body, now, failure)
    case Threw(_) => Answered(h, Http.Response(500, Http.Failure("Failed to save subscription", None)))
    case Done(h', result) =>
      Answered(h', Http.Ok(Http.Success(None, if result.Some? then Some(result.value.insertedId) else None)))
  }

  /** DELETE `/`: removes by the body's `endpoint` and answers success whether
      or not a document matched; a failing delete answers 500. */
  function DeleteSubscription(h: Store.Handle, endpoint: Option<string>, failure: Option<Error>): (r: Answered)
    ensures h.Some? && failure.Some? ==>
      r == Answered(h, Http.Response(500, Http.Failure("Failed to delete subscription", None)))
    ensures h.None? || failure.None? ==> r.response == Http.Ok(Http.Success(None, None))
    ensures h.None? ==> r.store == None
    ensures h.Some? && failure.None? ==>
      && r.store.Some?
      && r.store == Store.DeleteSubscription(h, endpoint, None).handle
      && |h.value.subscriptions| - 1 <= |r.store.value.subscriptions| <= |h.value.subscriptions|
      && (forall d :: d in h.value.subscriptions && d.endpoint != endpoint ==> d in r.store.value.subscriptions)
      && ((exists d :: d in h.value.subscriptions && d.endpoint == endpoint) <==>
            |r.store.value.subscriptions| == |h.value.subscriptions| - 1)
  {
    match Store.DeleteSubscription(h, endpoint, failure)
    case Threw(_) => Answered(h, Http.Response(500, Http.Failure("Failed to delete subscription", None)))
    case Done(h', _) => Answered(h', Http.Ok(Http.Success(None, None)))
  }

  /** POST and DELETE are inverse on the stored subscriptions: deleting the
      endpoint just registered, when no earlier document has it, gives back
      the collection as it was (only the id counter has moved on). */
  lemma PostThenDeleteRestores(db: Store.Db, userHeader: Option<string>, body: Store.SubscriptionBody, now: int)
    requires forall d :: d in db.subscriptions ==> d.endpoint != body.endpoint
    ensures var posted := PostSubscription(Some(db), userHeader, body, now, None);
      var deleted := DeleteSubscription(posted.store, body.endpoint, None);
      && deleted.response == Http.Ok(Http.Success(None, None))
      && deleted.store.Some?
      && deleted.store.value.subscriptions == db.subscriptions
      && deleted.store.value.templates == db.templates
  {
    var posted := PostSubscription(Some(db), userHeader, body, now, None);
    var docs := posted.store.value.subscriptions;
    var n := |db.subscriptions|;
    assert forall j :: 0 <= j < n ==> docs[j] == db.subscriptions[j];
    assert forall j :: 0 <= j < n ==> docs[j] in db.subscriptions;
    assert |docs| == n + 1 && docs[n].endpoint == body.endpoint;
    var k := Store.FirstWithEndpoint(docs, body.endpoint);
    assert k == n;
    assert docs[..k] + docs[k + 1..] == db.subscriptions;
  }
}

/**
 The template routes (`routes/templates.ts`): list and save the header
 user's notification templates.
 */
module TemplateRoutes {
  import opened Common
  import Store
  import Http

  datatype Answered = Answered(store: Store.Handle, response: Http.Response)

  /** GET `/`: the header user's templates as the body. The store turns read
      failures into `[]`, so this route never answers 500. */
  function GetTemplates(h: Store.Handle, userHeader: Option<string>, failure: Option<Error>): (r: Http.Response)
    ensures r.status == 200 && r.body.Templates?
    ensures h.None? || failure.Some? ==> r.body.docs == []
    ensures h.Some? && failure.None? ==>
      && (forall d :: d in r.body.docs <==> d in h.value.templates && Store.OwnedTemplate(d, userHeader))
      && r.body.docs == Store.OwnedTemplates(h.value.templates, userHeader)
  {
    Http.Ok(Http.Templates(Store.GetTemplatesForUser(h, userHeader, failure)))
  }

  /** POST `/`: saves the body under the header user; `id` is the inserted
      id, absent when there is no store; a failing save answers 500. */
  function PostTemplate(h: Store.Handle, userHeader: Option<string>, template: Store.Fields, now: int, failure: Option<Error>)
    : (r: Answered)
    ensures h.None? ==> r == Answered(None, Http.Ok(Http.Success(None, None)))
    ensures h.Some? && failure.Some? ==>
      r == Answered(h, Http.Response(500, Http.Failure("Failed to save template", None)))
    ensures h.Some? && failure.None? ==>
      && r.response == Http.Ok(Http.Success(None, Some(h.value.nextId)))
      && r.store.Some?
      && r.store == Store.SaveTemplate(h, userHeader, template, now, None).handle
      && r.store.value.subscriptions == h.value.subscriptions
      && |r.store.value.templates| == |h.value.templates| + 1
      && r.store.value.templates[..|h.value.templates|] == h.value.templates
      && r.store.value.templates[|h.value.templates|].id == h.value.nextId
  {
    match Store.SaveTemplate(h, userHeader, template, now, failure)
    case Threw(_) => Answered(h, Http.Response(500, Http.Failure("Failed to save template", None)))
    case Done(h', result) =>
      Answered(h', Http.Ok(Http.Success(None, if result.Some? then Some(result.value.insertedId) else None)))
  }

  /** A template posted without its own `userId` is listed by a later GET of
      the same header user. */
  lemma PostedTemplateIsListed(db: Store.Db, user: string, template: Store.Fields, now: int)
    requires "userId" !in template
    ensures var r := PostTemplate(Some(db), Some(user), template, now, None);
      exists d :: d in GetTemplates(r.store, Some(user), None).body.docs && d.id == db.nextId
  {
    var r := PostTemplate(Some(db), Some(user), template, now, None);
    Store.TemplateOwner(db, user, template, now);
    var doc := r.store.value.templates[|db.templates|];
    assert doc in GetTemplates(r.store, Some(user), None).body.docs;
  }
}
