/**
 The three channel senders of the notification service
 (`services/notificationService.ts`). The mail, SMS and push providers are
 oracles that fulfil or reject each call; a sender's effect is the sequence
 of provider calls it makes and whether it returns or throws.
 `Promise.allSettled` is modelled as an order-preserving map over the
 subscriptions whose outcomes are independent of one another.
 */
module Senders {
  import opened Common
  import Json
  import Store

  /** The sender address used when `SMTP_FROM` is unset or empty. */
  const DefaultFrom: string := "\"Artist Booking\" <noreply@artistbooking.com>"

  /** The message `JSON.parse` throws on text it cannot read (engine-specific wording). */
  const ParseError: Error := Error("SyntaxError", "Unexpected token in JSON")

  datatype EmailOptions = EmailOptions(to: Option<string>, subject: Option<string>, html: Option<string>, text: Option<string>)

  /** What is handed to `emailTransporter.sendMail`. */
  datatype MailMessage = MailMessage(from: string, to: Option<string>, subject: Option<string>, html: Option<string>, text: Option<string>)

  /** What is handed to `twilioClient.messages.create`. */
  datatype SmsMessage = SmsMessage(body: Option<string>, from: Option<string>, to: Option<string>)

  /** `{title, body, data}` of a push notification. */
  datatype PushPayload = PushPayload(title: Option<string>, body: Option<string>, data: Option<Json.KeyMap>)

  /** `JSON.parse(subscription.keys)`: `null` for a null text, else the object. */
  datatype PushKeys = NullKeys | Keys(members: Json.KeyMap)

  /** The subscription handed to `webpush.sendNotification`. */
  datatype PushTarget = PushTarget(endpoint: Option<string>, keys: PushKeys)

  /** One call into a provider. */
  datatype Call =
    | MailCall(mail: MailMessage)
    | SmsCall(sms: SmsMessage)
    | PushCall(target: PushTarget, payload: string)

  /** The settled state of one provider promise. */
  datatype Outcome = Fulfilled(receipt: string) | Rejected(reason: Error)

  /** The delivery providers, as oracles. */
  datatype Providers = Providers(
    mail: MailMessage -> Outcome,
    sms: SmsMessage -> Outcome,
    push: (PushTarget, string) -> Outcome)

  /** What a sender's promise resolves to. */
  datatype Value = Nothing | Receipt(receipt: string) | Settled(outcomes: seq<Outcome>)

  datatype Completion = Returned(value: Value) | Threw(error: Error)

  /** The effect of one sender call: the provider calls made, in order, and how it completed. */
  datatype Sent = Sent(calls: seq<Call>, completion: Completion)

  /** Everything the senders read: the environment (read once at start-up),
      the providers, the subscription store and whether its query fails. */
  datatype Context = Context(env: Env, providers: Providers, store: Store.Handle, readFailure: Option<Error>)

  // ---------------------------------------------------------------------
  // Loading the module
  // ---------------------------------------------------------------------

  /** The factory functions the `nodemailer` package exports. */
  const NodemailerFactories: set<string> := {"createTransport", "createTestAccount", "getTestMessageUrl"}

  /** The factory the module calls to build its transporter, as written. */
  const FactoryAsWritten: string := "createTransporter"

  /** The factory that builds a transporter. */
  const Factory: string := "createTransport"

  /** Evaluating `nodemailer.<name>({...})` while the module loads: a name the
      package does not export is `undefined`, and calling it throws a
      `TypeError` that aborts loading the module, senders and all. */
  function LoadMailer(exports: set<string>, name: string): (r: Option<Error>)
    ensures r.None? <==> name in exports
    ensures r.Some? ==> r.value.name == "TypeError"
  {
    if name in exports then None
    else Some(Error("TypeError", "nodemailer." + name + " is not a function"))
  }

  /** As written, loading the module throws, so no sender is ever available. */
  lemma MailerAsWrittenThrows()
    ensures LoadMailer(NodemailerFactories, FactoryAsWritten).Some?
    ensures LoadMailer(NodemailerFactories, FactoryAsWritten).value.name == "TypeError"
  {
    assert FactoryAsWritten != "createTransport" by { assert |FactoryAsWritten| == 17; }
    assert FactoryAsWritten != "createTestAccount" by { assert FactoryAsWritten[7] != "createTestAccount"[7]; }
    assert FactoryAsWritten != "getTestMessageUrl" by { assert FactoryAsWritten[0] != "getTestMessageUrl"[0]; }
  }

  /** With `createTransport` the module loads; the senders below assume this. */
  lemma MailerLoads()
    ensures LoadMailer(NodemailerFactories, Factory).None?
  {
  }

  // ---------------------------------------------------------------------
  // Email
  // ---------------------------------------------------------------------

  /** `process.env.SMTP_FROM || DefaultFrom` */
  function MailFrom(env: Env): string {
    EnvOr(env, "SMTP_FROM", DefaultFrom)
  }

  /** `sendEmail`: exactly one provider call passing the options through;
      a provider rejection is rethrown unchanged. */
  function SendEmail(ctx: Context, o: EmailOptions): (r: Sent)
    ensures |r.calls| == 1 && r.calls[0].MailCall?
    ensures var m := r.calls[0].mail;
      && m.to == o.to && m.subject == o.subject && m.html == o.html && m.text == o.text
      && (Truthy(Lookup(ctx.env, "SMTP_FROM")) ==> m.from == ctx.env["SMTP_FROM"])
      && (!Truthy(Lookup(ctx.env, "SMTP_FROM")) ==> m.from == DefaultFrom)
    ensures r.completion.Threw? <==> ctx.providers.mail(r.calls[0].mail).Rejected?
    ensures r.completion.Threw? ==> r.completion.error == ctx.providers.mail(r.calls[0].mail).reason
  {
    var m := MailMessage(MailFrom(ctx.env), o.to, o.subject, o.html, o.text);
    match ctx.providers.mail(m)
    case Fulfilled(info) => Sent([MailCall(m)], Returned(Receipt(info)))
    case Rejected(e) => Sent([MailCall(m)], Threw(e))
  }

  // ---------------------------------------------------------------------
  // SMS
  // ---------------------------------------------------------------------

  /** The Twilio client exists iff both credentials are set and non-empty. */
  predicate TwilioConfigured(env: Env) {
    Truthy(Lookup(env, "TWILIO_ACCOUNT_SID")) && Truthy(Lookup(env, "TWILIO_AUTH_TOKEN"))
  }

  /** `sendSMS`: nothing at all without a Twilio client; otherwise one
      provider call whose rejection is rethrown. */
  function SendSms(ctx: Context, to: Option<string>, message: Option<string>): (r: Sent)
    ensures !TwilioConfigured(ctx.env) ==> r.calls == [] && r.completion == Returned(Nothing)
    ensures TwilioConfigured(ctx.env) ==>
      && |r.calls| == 1 && r.calls[0].SmsCall?
      && r.calls[0].sms == SmsMessage(message, Lookup(ctx.env, "TWILIO_PHONE_NUMBER"), to)
      && (r.completion.Threw? <==> ctx.providers.sms(r.calls[0].sms).Rejected?)
      && (r.completion.Threw? ==> r.completion.error == ctx.providers.sms(r.calls[0].sms).reason)
  {
    if !TwilioConfigured(ctx.env) then Sent([], Returned(Nothing))
    else
      var m := SmsMessage(message, Lookup(ctx.env, "TWILIO_PHONE_NUMBER"), to);
      match ctx.providers.sms(m)
      case Fulfilled(sid) => Sent([SmsCall(m)], Returned(Receipt(sid)))
      case Rejected(e) => Sent([SmsCall(m)], Threw(e))
  }

  // ---------------------------------------------------------------------
  // Push
  // ---------------------------------------------------------------------

  /** `JSON.stringify({title, body, data})`; undefined members are left out. */
  function PayloadText(p: PushPayload): string {
    var title := if p.title.Some? then [("title", Json.Literal(p.title.value))] else [];
    var body := if p.body.Some? then [("body", Json.Literal(p.body.value))] else [];
    var data := if p.data.Some? then [("data", Json.Stringify(p.data.value))] else [];
    Json.RenderObject(title + body + data)
  }

  /** `JSON.parse(subscription.keys)`: `JSON.parse(null)` is `null`. */
  function ParseStoredKeys(keys: Option<string>): Option<PushKeys> {
    match keys
    case None => Some(NullKeys)
    case Some(t) =>
      match Json.ParseKeys(t)
      case None => None
      case Some(m) => Some(Keys(m))
  }

  /** The push target built for a subscription, or `None` where building it throws. */
  function Target(s: Store.Subscription): Option<PushTarget> {
    match ParseStoredKeys(s.keys)
    case None => None
    case Some(k) => Some(PushTarget(s.endpoint, k))
  }

  /** `subscriptions.map(...)` under `Promise.allSettled`: one provider call
      per subscription, in order, with the same payload text. The map stops
      at the first keys text that does not parse: the calls already started
      stay made, and the parse error escapes. Provider rejections never do. */
  function FanOut(subs: seq<Store.Subscription>, text: string, push: (PushTarget, string) -> Outcome): (r: Sent)
    ensures r.completion.Threw? <==> exists i :: 0 <= i < |subs| && Target(subs[i]).None?
    ensures r.completion.Threw? ==>
      && r.completion.error == ParseError
      && |r.calls| < |subs| && Target(subs[|r.calls|]).None?
      && forall i :: 0 <= i < |r.calls| ==> Target(subs[i]).Some? && r.calls[i] == PushCall(Target(subs[i]).value, text)
    ensures r.completion.Returned? ==>
      && r.completion.value.Settled?
      && |r.calls| == |subs| && |r.completion.value.outcomes| == |subs|
      && forall i :: 0 <= i < |subs| ==>
           && Target(subs[i]).Some?
           && r.calls[i] == PushCall(Target(subs[i]).value, text)
           && r.completion.value.outcomes[i] == push(Target(subs[i]).value, text)
    decreases |subs|
  {
    if |subs| == 0 then Sent([], Returned(Settled([])))
    else
      match Target(subs[0])
      case None => Sent([], Threw(ParseError))
      case Some(target) =>
        var rest := FanOut(subs[1..], text, push);
        var call := PushCall(target, text);
        assert forall i :: 1 <= i < |subs| ==> subs[1..][i - 1] == subs[i];
        match rest.completion
        case Threw(e) => Sent([call] + rest.calls, Threw(e))
        case Returned(v) => Sent([call] + rest.calls, Returned(Settled([push(target, text)] + v.outcomes)))
  }

  /** How many of the settled outcomes are fulfilled. */
  function CountFulfilled(os: seq<Outcome>): (n: nat)
    ensures n <= |os|
    ensures n == |os| <==> forall i :: 0 <= i < |os| ==> os[i].Fulfilled?
    decreases |os|
  {
    if |os| == 0 then 0
    else
      assert forall i :: 1 <= i < |os| ==> os[1..][i - 1] == os[i];
      (if os[0].Fulfilled? then 1 else 0) + CountFulfilled(os[1..])
  }

  /** The count adds up outcome by outcome: one outcome counts 1 exactly when
      it is fulfilled, and the count of two stretches is the sum of theirs,
      so it is the number of fulfilled outcomes. */
  lemma {:induction false} CountFulfilledAdds(a: seq<Outcome>, b: seq<Outcome>)
    ensures CountFulfilled(a + b) == CountFulfilled(a) + CountFulfilled(b)
    ensures |a| == 1 ==> CountFulfilled(a) == (if a[0].Fulfilled? then 1 else 0)
    decreases |a|
  {
    if |a| == 0 {
      assert a + b == b;
    } else {
      CountFulfilledAdds(a[1..], b);
      assert (a + b)[1..] == a[1..] + b;
    }
  }

  /** `sendPushNotification`: reads the user's subscriptions; with none it
      makes no call and returns nothing; otherwise it serialises the payload
      once and fans out. Only a keys text that fails to parse makes it throw. */
  function SendPushNotification(ctx: Context, userId: Option<string>, payload: PushPayload): (r: Sent)
    ensures var subs := Store.GetSubscriptionsForUser(ctx.store, userId, ctx.readFailure);
      && (|subs| == 0 ==> r.calls == [] && r.completion == Returned(Nothing))
      && (r.completion.Threw? <==> exists i :: 0 <= i < |subs| && Target(subs[i]).None?)
      && |r.calls| <= |subs|
      && (forall i :: 0 <= i < |r.calls| ==> Target(subs[i]).Some? && r.calls[i] == PushCall(Target(subs[i]).value, PayloadText(payload)))
      && (r.completion.Threw? ==>
            && r.completion.error == ParseError
            && |r.calls| < |subs| && Target(subs[|r.calls|]).None?)
      && (|subs| > 0 && r.completion.Returned? ==>
            && r.completion.value.Settled?
            && |r.completion.value.outcomes| == |subs| == |r.calls|
            && forall i :: 0 <= i < |subs| ==>
                 Target(subs[i]).Some? && r.completion.value.outcomes[i] == ctx.providers.push(Target(subs[i]).value, PayloadText(payload)))
  {
    var subs := Store.GetSubscriptionsForUser(ctx.store, userId, ctx.readFailure);
    if |subs| == 0 then Sent([], Returned(Nothing))
    else FanOut(subs, PayloadText(payload), ctx.providers.push)
  }

  /** With a store whose keys all parse, push never throws, whatever the
      providers answer: a partial or total rejection is still a return. */
  lemma PushNeverThrowsOnParsedKeys(ctx: Context, userId: Option<string>, payload: PushPayload)
    requires ctx.store.Some? ==> Store.KeysParse(ctx.store.value)
    ensures SendPushNotification(ctx, userId, payload).completion.Returned?
  {
    var subs := Store.GetSubscriptionsForUser(ctx.store, userId, ctx.readFailure);
    forall i | 0 <= i < |subs| ensures Target(subs[i]).Some? {
      assert subs[i] in subs;
      var d :| d in ctx.store.value.subscriptions && d.userId == userId && Store.View(d) == subs[i];
      var j :| 0 <= j < |ctx.store.value.subscriptions| && ctx.store.value.subscriptions[j] == d;
    }
  }
}
