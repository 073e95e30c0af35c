/**
 The notification HTTP routes (`routes/notifications.ts`). Every handler
 calls a sender directly (never the queue: the handlers only receive the
 sender context) and answers exactly once: success JSON when the sender did
 not throw, otherwise a 500 with a fixed error text.
 */
module NotificationRoutes {
  import opened Common
  import Json
  import Http
  import Senders
  import Store
  import JobQueue

  /** The provider calls a handler made and the one response it sent. */
  datatype Handled = Handled(calls: seq<Senders.Call>, response: Http.Response)

  const ConfirmedTitle: string := "Appointment Confirmed"

  /** A 500 response `{error}`. */
  function ServerError(error: string): Http.Response {
    Http.Response(500, Http.Failure(error, None))
  }

  /** `{success: true, message}` */
  function Confirmed(message: string): Http.Response {
    Http.Ok(Http.Success(Some(message), None))
  }

  /** The shared `try { await send(); res.json(...) } catch { res.status(500)... }`. */
  function Answer(s: Senders.Sent, message: string, error: string): (r: Handled)
    ensures r.calls == s.calls
    ensures s.completion.Returned? <==> r.response == Confirmed(message)
    ensures s.completion.Threw? <==> r.response == ServerError(error)
  {
    if s.completion.Threw? then Handled(s.calls, ServerError(error))
    else Handled(s.calls, Confirmed(message))
  }

  // ---------------------------------------------------------------------
  // POST /push
  // ---------------------------------------------------------------------

  datatype PushBody = PushBody(userId: Option<string>, title: Option<string>, body: Option<string>, data: Option<Json.KeyMap>)

  /** POST `/push`: success exactly when `sendPushNotification` does not throw. */
  function PostPush(ctx: Senders.Context, b: PushBody): (r: Handled)
    ensures var s := Senders.SendPushNotification(ctx, b.userId, Senders.PushPayload(b.title, b.body, b.data));
      && r.calls == s.calls
      && (r.response == Confirmed("Push notification sent") <==> s.completion.Returned?)
      && (r.response == ServerError("Failed to send push notification") <==> s.completion.Threw?)
  {
    Answer(Senders.SendPushNotification(ctx, b.userId, Senders.PushPayload(b.title, b.body, b.data)),
           "Push notification sent", "Failed to send push notification")
  }

  /** With subscriptions written by `saveSubscription` (all keys parse),
      `/push` succeeds whatever the providers answer, including when the user
      has no subscription and when every endpoint rejects. */
  lemma PushRouteAlwaysSucceeds(ctx: Senders.Context, b: PushBody)
    requires ctx.store.Some? ==> Store.KeysParse(ctx.store.value)
    ensures PostPush(ctx, b).response == Confirmed("Push notification sent")
  {
    Senders.PushNeverThrowsOnParsedKeys(ctx, b.userId, Senders.PushPayload(b.title, b.body, b.data));
  }

  // ---------------------------------------------------------------------
  // POST /email
  // ---------------------------------------------------------------------

  datatype EmailBody = EmailBody(to: Option<string>, subject: Option<string>, html: Option<string>, text: Option<string>)

  /** POST `/email`: one mail call; success exactly when the provider
      fulfils; on failure a fixed text, never the provider's message. */
  function PostEmail(ctx: Senders.Context, b: EmailBody): (r: Handled)
    ensures var m := Senders.MailMessage(Senders.MailFrom(ctx.env), b.to, b.subject, b.html, b.text);
      && r.calls == [Senders.MailCall(m)]
      && (ctx.providers.mail(m).Fulfilled? ==> r.response == Confirmed("Email sent"))
      && (ctx.providers.mail(m).Rejected? ==> r.response == ServerError("Failed to send email"))
  {
    Answer(Senders.SendEmail(ctx, Senders.EmailOptions(b.to, b.subject, b.html, b.text)),
           "Email sent", "Failed to send email")
  }

  // ---------------------------------------------------------------------
  // POST /sms
  // ---------------------------------------------------------------------

  datatype SmsBody = SmsBody(to: Option<string>, message: Option<string>)

  /** POST `/sms`: success when SMS is unconfigured (and nothing is sent),
      otherwise success exactly when the provider fulfils. */
  function PostSms(ctx: Senders.Context, b: SmsBody): (r: Handled)
    ensures !Senders.TwilioConfigured(ctx.env) ==> r.calls == [] && r.response == Confirmed("SMS sent")
    ensures Senders.TwilioConfigured(ctx.env) ==>
      var m := Senders.SmsMessage(b.message, Lookup(ctx.env, "TWILIO_PHONE_NUMBER"), b.to);
      && r.calls == [Senders.SmsCall(m)]
      && (ctx.providers.sms(m).Fulfilled? ==> r.response == Confirmed("SMS sent"))
      && (ctx.providers.sms(m).Rejected? ==> r.response == ServerError("Failed to send SMS"))
  {
    Answer(Senders.SendSms(ctx, b.to, b.message), "SMS sent", "Failed to send SMS")
  }

  /** The route and the queue agree: `/email` performs exactly the send the
      queue's `email` worker performs for the same options, and succeeds
      exactly when that send returns. */
  lemma EmailRouteMatchesWorker(ctx: Senders.Context, b: EmailBody, q: JobQueue.Queue)
    requires "email" in q.processors
    ensures var job := JobQueue.Job("email", JobQueue.EmailData(Senders.EmailOptions(b.to, b.subject, b.html, b.text)));
      var s := JobQueue.Process(q, job, ctx);
      && s.Some?
      && PostEmail(ctx, b).calls == s.value.calls
      && (PostEmail(ctx, b).response == Confirmed("Email sent") <==> s.value.completion.Returned?)
  {
  }

  /** Likewise `/sms` and the queue's `sms` worker. */
  lemma SmsRouteMatchesWorker(ctx: Senders.Context, b: SmsBody, q: JobQueue.Queue)
    requires "sms" in q.processors
    ensures var s := JobQueue.Process(q, JobQueue.Job("sms", JobQueue.SmsData(b.to, b.message)), ctx);
      && s.Some?
      && PostSms(ctx, b).calls == s.value.calls
      && (PostSms(ctx, b).response == Confirmed("SMS sent") <==> s.value.completion.Returned?)
  {
  }

  // ---------------------------------------------------------------------
  // POST /appointment-confirmation
  // ---------------------------------------------------------------------

  datatype AppointmentDetails = AppointmentDetails(
    clientEmail: Option<string>, serviceName: Option<string>, startTime: Option<string>,
    artistName: Option<string>, id: Option<string>)

  /** The body; `appointmentDetails` may be missing, and reading a field of
      it then throws a `TypeError`. */
  datatype AppointmentBody = AppointmentBody(userId: Option<string>, details: Option<AppointmentDetails>)

  /** `new Date(t).toLocaleString()` and `.toLocaleDateString()`: locale-dependent, so oracles. */
  datatype Locale = Locale(dateTime: Option<string> -> string, date: Option<string> -> string)

  /** A template-literal interpolation: `undefined` prints as "undefined". */
  function Show(s: Option<string>): string {
    s.GetOr("undefined")
  }

  /** The fixed parts of the confirmation email's HTML. */
  const HtmlHead: string := "\n        <h2>Your appointment has been confirmed!</h2>\n        <p><strong>Service:</strong> "
  const HtmlDate: string := "</p>\n        <p><strong>Date:</strong> "
  const HtmlArtist: string := "</p>\n        <p><strong>Artist:</strong> "
  const HtmlTail: string := "</p>\n        <p>We look forward to seeing you!</p>\n      "

  function ConfirmationHtml(d: AppointmentDetails, locale: Locale): string {
    HtmlHead + Show(d.serviceName) + HtmlDate + locale.dateTime(d.startTime) + HtmlArtist + Show(d.artistName) + HtmlTail
  }

  function ConfirmationText(d: AppointmentDetails, locale: Locale): string {
    "Your " + Show(d.serviceName) + " appointment is confirmed for " + locale.date(d.startTime)
  }

  /** `{appointmentId: id}`; an undefined id is dropped by `JSON.stringify`. */
  function AppointmentData(d: AppointmentDetails): Json.KeyMap {
    if d.id.Some? then [("appointmentId", d.id.value)] else []
  }

  /** The message handed to the mail provider for a confirmation. */
  function ConfirmationMail(env: Env, d: AppointmentDetails, locale: Locale): Senders.MailMessage {
    Senders.MailMessage(Senders.MailFrom(env), d.clientEmail, Some(ConfirmedTitle), Some(ConfirmationHtml(d, locale)), None)
  }

  function ConfirmationEmail(d: AppointmentDetails, locale: Locale): Senders.EmailOptions {
    Senders.EmailOptions(d.clientEmail, Some(ConfirmedTitle), Some(ConfirmationHtml(d, locale)), None)
  }

  function ConfirmationPush(d: AppointmentDetails, locale: Locale): Senders.PushPayload {
    Senders.PushPayload(Some(ConfirmedTitle), Some(ConfirmationText(d, locale)), Some(AppointmentData(d)))
  }

  /** POST `/appointment-confirmation`: the email is awaited first; only if
      it succeeded is the push sent; success needs both to not throw. */
  function PostAppointmentConfirmation(ctx: Senders.Context, locale: Locale, b: AppointmentBody): (r: Handled)
    ensures r.response == Confirmed("Appointment confirmation sent")
         || r.response == ServerError("Failed to send appointment confirmation")
    ensures b.details.None? ==> r.calls == [] && r.response.status == 500
    ensures b.details.Some? ==>
      var d := b.details.value;
      var m := ConfirmationMail(ctx.env, d, locale);
      var push := Senders.SendPushNotification(ctx, b.userId, ConfirmationPush(d, locale));
      && |r.calls| >= 1 && r.calls[0] == Senders.MailCall(m)
      && (ctx.providers.mail(m).Rejected? ==> r.calls == [Senders.MailCall(m)] && r.response.status == 500)
      && (ctx.providers.mail(m).Fulfilled? ==>
            && r.calls == [Senders.MailCall(m)] + push.calls
            && (r.response.status == 200 <==> push.completion.Returned?))
  {
    match b.details
    case None => Handled([], ServerError("Failed to send appointment confirmation"))
    case Some(d) =>
      var email := Senders.SendEmail(ctx, ConfirmationEmail(d, locale));
      if email.completion.Threw? then Handled(email.calls, ServerError("Failed to send appointment confirmation"))
      else
        var push := Senders.SendPushNotification(ctx, b.userId, ConfirmationPush(d, locale));
        Answer(Senders.Sent(email.calls + push.calls, push.completion),
               "Appointment confirmation sent", "Failed to send appointment confirmation")
  }

  /** A confirmation whose email was accepted sends one email to the client
      with subject "Appointment Confirmed", then pushes to the body's user a
      payload titled "Appointment Confirmed" whose data is `{appointmentId}`. */
  lemma ConfirmationPushPayload(ctx: Senders.Context, locale: Locale, b: AppointmentBody, d: AppointmentDetails)
    requires b.details == Some(d)
    requires ctx.providers.mail(ConfirmationMail(ctx.env, d, locale)).Fulfilled?
    ensures ConfirmationMail(ctx.env, d, locale).to == d.clientEmail
    ensures ConfirmationMail(ctx.env, d, locale).subject == Some("Appointment Confirmed")
    ensures PostAppointmentConfirmation(ctx, locale, b).calls
         == [Senders.MailCall(ConfirmationMail(ctx.env, d, locale))]
            + Senders.SendPushNotification(ctx, b.userId, Senders.PushPayload(
                Some("Appointment Confirmed"), Some(ConfirmationText(d, locale)),
                Some(if d.id.Some? then [("appointmentId", d.id.value)] else []))).calls
  {
  }

  /** The confirmation scenario: when the mail provider accepts and the stored
      keys all parse, the route succeeds, even if the user has no push
      subscription at all. */
  lemma ConfirmationSucceedsWhenMailAccepted(ctx: Senders.Context, locale: Locale, b: AppointmentBody)
    requires b.details.Some?
    requires ctx.providers.mail(ConfirmationMail(ctx.env, b.details.value, locale)).Fulfilled?
    requires ctx.store.Some? ==> Store.KeysParse(ctx.store.value)
    ensures PostAppointmentConfirmation(ctx, locale, b).response == Confirmed("Appointment confirmation sent")
  {
    Senders.PushNeverThrowsOnParsedKeys(ctx, b.userId, ConfirmationPush(b.details.value, locale));
  }
}
