/**
 Queue-or-direct routing (`queue.ts`). A module-level Bull queue handle is
 set by `initializeQueue`; each `queueX` adds a named job when the handle is
 set and otherwise calls the matching sender directly. The worker registered
 for each job name calls the same sender with the same arguments as the
 direct path. Whether a constructor or a registration throws is an oracle.
 */
module JobQueue {
  import opened Common
  import Senders

  /** The data of a queued job, per channel. */
  datatype JobData =
    | EmailData(options: Senders.EmailOptions)
    | SmsData(to: Option<string>, message: Option<string>)
    | PushData(userId: Option<string>, payload: Senders.PushPayload)

  /** A job added to the queue: its name and its data, unchanged. */
  datatype Job = Job(name: string, data: JobData)

  /** The Bull queue: the jobs added so far and the job names that have a processor. */
  datatype Queue = Queue(jobs: seq<Job>, processors: set<string>)

  /** The module-level `notificationQueue`: unset until initialisation assigned it. */
  type Handle = Option<Queue>

  /** The statement of `initializeQueue` that throws, if any. */
  datatype InitFault =
    | RedisClientFails      // `new Redis(redisUrl)`
    | QueueConstructorFails // `new Queue('notifications', ...)`
    | EmailProcessorFails   // `process('email', ...)`
    | SmsProcessorFails     // `process('sms', ...)`
    | PushProcessorFails    // `process('push', ...)`

  const JobNames: set<string> := {"email", "sms", "push"}

  /** `initializeQueue`: statements run in order until one throws; the error
      is swallowed. The handle is assigned by the queue constructor, so a
      failure before it leaves the handle as it was, and a failure after it
      leaves a handle whose later processors are missing. */
  function InitializeQueue(h: Handle, fault: Option<InitFault>): (r: Handle)
    ensures fault.None? ==> r == Some(Queue([], JobNames))
    ensures fault == Some(RedisClientFails) || fault == Some(QueueConstructorFails) ==> r == h
    ensures fault.Some? && fault != Some(RedisClientFails) && fault != Some(QueueConstructorFails) ==>
      r.Some? && r.value.jobs == [] && r.value.processors < JobNames
  {
    match fault
    case None => Some(Queue([], JobNames))
    case Some(RedisClientFails) => h
    case Some(QueueConstructorFails) => h
    case Some(EmailProcessorFails) => Some(Queue([], {}))
    case Some(SmsProcessorFails) => Some(Queue([], {"email"}))
    case Some(PushProcessorFails) => Some(Queue([], {"email", "sms"}))
  }

  /** Which path a `queueX` call took: a job added to the queue, or a direct send. */
  datatype Dispatch = Enqueued(queue: Queue, job: Job) | Direct(sent: Senders.Sent)

  function Add(q: Queue, name: string, data: JobData): Dispatch {
    var job := Job(name, data);
    Enqueued(q.(jobs := q.jobs + [job]), job)
  }

  /** `queueEmail(data)` */
  function QueueEmail(h: Handle, ctx: Senders.Context, data: Senders.EmailOptions): (r: Dispatch)
    ensures h.Some? <==> r.Enqueued?
    ensures h.Some? ==>
      && r.job == Job("email", EmailData(data))
      && r.queue == h.value.(jobs := h.value.jobs + [r.job])
    ensures h.None? ==> r.sent == Senders.SendEmail(ctx, data)
  {
    match h
    case Some(q) => Add(q, "email", EmailData(data))
    case None => Direct(Senders.SendEmail(ctx, data))
  }

  /** `queueSMS(data)` */
  function QueueSms(h: Handle, ctx: Senders.Context, to: Option<string>, message: Option<string>): (r: Dispatch)
    ensures h.Some? <==> r.Enqueued?
    ensures h.Some? ==>
      && r.job == Job("sms", SmsData(to, message))
      && r.queue == h.value.(jobs := h.value.jobs + [r.job])
    ensures h.None? ==> r.sent == Senders.SendSms(ctx, to, message)
  {
    match h
    case Some(q) => Add(q, "sms", SmsData(to, message))
    case None => Direct(Senders.SendSms(ctx, to, message))
  }

  /** `queuePush(data)` */
  function QueuePush(h: Handle, ctx: Senders.Context, userId: Option<string>, payload: Senders.PushPayload): (r: Dispatch)
    ensures h.Some? <==> r.Enqueued?
    ensures h.Some? ==>
      && r.job == Job("push", PushData(userId, payload))
      && r.queue == h.value.(jobs := h.value.jobs + [r.job])
    ensures h.None? ==> r.sent == Senders.SendPushNotification(ctx, userId, payload)
  {
    match h
    case Some(q) => Add(q, "push", PushData(userId, payload))
    case None => Direct(Senders.SendPushNotification(ctx, userId, payload))
  }

  /** The processor registered under `name`, applied to `data` the way its
      callback reads it; `None` when no processor handles the job. */
  function Process(q: Queue, job: Job, ctx: Senders.Context): Option<Senders.Sent> {
    if job.name !in q.processors then None
    else
      match job.data
      case EmailData(o) => if job.name == "email" then Some(Senders.SendEmail(ctx, o)) else None
      case SmsData(to, m) => if job.name == "sms" then Some(Senders.SendSms(ctx, to, m)) else None
      case PushData(u, p) => if job.name == "push" then Some(Senders.SendPushNotification(ctx, u, p)) else None
  }

  /** One call of the dispatch API. */
  datatype Request =
    | EmailRequest(options: Senders.EmailOptions)
    | SmsRequest(to: Option<string>, message: Option<string>)
    | PushRequest(userId: Option<string>, payload: Senders.PushPayload)

  function Route(h: Handle, ctx: Senders.Context, req: Request): Dispatch {
    match req
    case EmailRequest(o) => QueueEmail(h, ctx, o)
    case SmsRequest(to, m) => QueueSms(h, ctx, to, m)
    case PushRequest(u, p) => QueuePush(h, ctx, u, p)
  }

  /** The sender a request reaches on the direct path. */
  function DirectSend(ctx: Senders.Context, req: Request): Senders.Sent {
    match req
    case EmailRequest(o) => Senders.SendEmail(ctx, o)
    case SmsRequest(to, m) => Senders.SendSms(ctx, to, m)
    case PushRequest(u, p) => Senders.SendPushNotification(ctx, u, p)
  }

  /** Exactly one path runs: with a handle one job is added and nothing is
      sent directly; without one the sender runs and nothing is queued. Once
      initialisation succeeded, the added job's processor performs exactly the
      send the direct path would have performed. */
  lemma QueuedMatchesDirect(q: Queue, ctx: Senders.Context, req: Request)
    requires q.processors == JobNames
    ensures var r := Route(Some(q), ctx, req);
      && r.Enqueued?
      && r.queue.jobs == q.jobs + [r.job]
      && Process(r.queue, r.job, ctx) == Some(DirectSend(ctx, req))
    ensures Route(None, ctx, req) == Direct(DirectSend(ctx, req))
  {
  }

  /** Everything that can happen to the handle after start-up. */
  datatype Step = Init(fault: Option<InitFault>) | Call(req: Request)

  /** The handle after a sequence of steps. */
  function Run(h: Handle, ctx: Senders.Context, steps: seq<Step>): Handle
    decreases |steps|
  {
    if |steps| == 0 then h
    else
      match steps[0]
      case Init(f) => Run(InitializeQueue(h, f), ctx, steps[1..])
      case Call(req) =>
        match Route(h, ctx, req)
        case Enqueued(q', _) => Run(Some(q'), ctx, steps[1..])
        case Direct(_) => Run(h, ctx, steps[1..])
  }

  /** The handle is never cleared: once set, every later step keeps it set,
      so every later `queueX` takes the queued path. */
  lemma {:induction false} HandleNeverCleared(q: Queue, ctx: Senders.Context, steps: seq<Step>, req: Request)
    ensures Run(Some(q), ctx, steps).Some?
    ensures Route(Run(Some(q), ctx, steps), ctx, req).Enqueued?
    decreases |steps|
  {
    if |steps| > 0 {
      match steps[0]
      case Init(f) =>
        HandleNeverCleared(InitializeQueue(Some(q), f).value, ctx, steps[1..], req);
      case Call(r) =>
        HandleNeverCleared(Route(Some(q), ctx, r).queue, ctx, steps[1..], req);
    }
  }

  /** When the Redis client or the queue constructor throws at start-up and
      nothing else initialises the queue, the handle stays unset and every
      later call takes the direct path. */
  lemma {:induction false} FailedInitStaysDirect(ctx: Senders.Context, fault: InitFault, calls: seq<Request>, req: Request)
    requires fault == RedisClientFails || fault == QueueConstructorFails
    ensures var steps := [Init(Some(fault))] + seq(|calls|, i requires 0 <= i < |calls| => Call(calls[i]));
      && Run(None, ctx, steps).None?
      && Route(Run(None, ctx, steps), ctx, req) == Direct(DirectSend(ctx, req))
  {
    var steps := [Init(Some(fault))] + seq(|calls|, i requires 0 <= i < |calls| => Call(calls[i]));
    assert steps[1..] == seq(|calls|, i requires 0 <= i < |calls| => Call(calls[i]));
    DirectCallsKeepUnset(ctx, calls);
  }

  lemma {:induction false} DirectCallsKeepUnset(ctx: Senders.Context, calls: seq<Request>)
    ensures Run(None, ctx, seq(|calls|, i requires 0 <= i < |calls| => Call(calls[i]))).None?
    decreases |calls|
  {
    var steps := seq(|calls|, i requires 0 <= i < |calls| => Call(calls[i]));
    if |calls| > 0 {
      assert steps[1..] == seq(|calls[1..]|, i requires 0 <= i < |calls[1..]| => Call(calls[1..][i]));
      DirectCallsKeepUnset(ctx, calls[1..]);
    }
  }
}
