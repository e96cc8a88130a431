/**
 * The job-queue configuration and the thin producer helpers around it:
 * the reconnect delay rule, the priority tiers and default job options,
 * the option merge of `addJob`, and the statistics total. A queue is the
 * sequence of jobs added to it, oldest first.
 */
module JobQueue {
  import opened Common
  import opened Entities

  datatype QueueName = PaymentProcessing | Notifications | OrderProcessing

  function QueueKey(q: QueueName): string
  {
    match q
    case PaymentProcessing => "payment-processing"
    case Notifications => "notifications"
    case OrderProcessing => "order-processing"
  }

  const PRIORITY_HIGH: int := 20
  const PRIORITY_MEDIUM: int := 10
  const PRIORITY_LOW: int := 1

  /** Default job options shared by every queue. */
  const ATTEMPTS: nat := 3
  const BACKOFF_DELAY_MS: nat := 2000
  const REMOVE_ON_COMPLETE_AGE_S: nat := 3600
  const REMOVE_ON_COMPLETE_COUNT: nat := 1000
  const REMOVE_ON_FAIL_AGE_S: nat := 86400

  datatype Backoff = Exponential(delayMs: nat)

  /** The data a job carries. The payment worker's follow-up jobs carry no
      `type` entry; `kind` is that entry. */
  datatype Payload =
    | PaymentData(paymentId: Id, orderId: Id, paymentMethod: PaymentMethod, amount: int)
    | NotificationData(kind: Option<string>, orderId: Id, userId: Id, reason: Option<string>)

  datatype Job = Job(
    queue: QueueName, name: string, data: Payload,
    priority: Option<int>, attempts: nat, backoff: Backoff)

  /** The options object passed to `addJob`: which keys it has, and each
      key's value (None for an explicit `undefined`). Only `priority`
      influences the model. */
  type JobOptions = map<string, Option<int>>

  /** The reconnect delay the cache client waits before its `times`-th retry. */
  function RetryStrategy(times: int): (delay: int)
    ensures delay <= 2000
    ensures times >= 0 ==> delay >= 0
    ensures times <= 40 ==> delay == times * 50
    ensures times > 40 ==> delay == 2000
  {
    Min(times * 50, 2000)
  }

  lemma RetryStrategyMonotone(a: int, b: int)
    requires a <= b
    ensures RetryStrategy(a) <= RetryStrategy(b)
  {
  }

  /** The broker's service order: a job without a priority (or with
      priority 0) is taken before any prioritised one, and among
      prioritised jobs the lower number is taken first. */
  function Rank(job: Job): (k: int)
    ensures k == 0 <==> job.priority.None? || job.priority == Some(0)
    ensures job.priority.Some? ==> k == job.priority.value
  {
    match job.priority
    case None => 0
    case Some(p) => p
  }

  /** The waiting job a worker takes next: the lowest rank, and the oldest
      among jobs of equal rank. */
  function NextJob(jobs: seq<Job>): (i: Option<nat>)
    ensures i.None? <==> jobs == []
    ensures i.Some? ==> i.value < |jobs|
    ensures i.Some? ==> forall j :: 0 <= j < |jobs| ==> Rank(jobs[i.value]) <= Rank(jobs[j])
    ensures i.Some? ==> forall j :: 0 <= j < i.value ==> Rank(jobs[j]) > Rank(jobs[i.value])
  {
    if jobs == [] then None
    else
      var rest := NextJob(jobs[1..]);
      if rest.None? || Rank(jobs[0]) <= Rank(jobs[1 + rest.value]) then Some(0)
      else Some(1 + rest.value)
  }

  /** With the tier numbers as configured, a waiting HIGH job is taken
      after a MEDIUM one and after a LOW one, whatever order they were
      added in. */
  lemma HighTierServedLastAsWritten(high: Job, medium: Job, low: Job)
    requires high.priority == Some(PRIORITY_HIGH)
    requires medium.priority == Some(PRIORITY_MEDIUM)
    requires low.priority == Some(PRIORITY_LOW)
    ensures NextJob([high, medium]) == Some(1)
    ensures NextJob([high, medium, low]) == Some(2)
  {
    assert [high, medium][1..] == [medium];
    assert [high, medium, low][1..] == [medium, low];
    assert [medium, low][1..] == [low];
  }

  datatype Tier = High | Medium | Low

  /** The broker priority each tier evidently means: 1 is served first. */
  function TierPriority(t: Tier): (p: int)
    ensures p >= 1
  {
    match t
    case High => 1
    case Medium => 2
    case Low => 3
  }

  /** With that mapping the tiers are served in order: of two waiting jobs,
      the one of the higher tier is taken first, whatever order they were
      added in. */
  lemma TiersServedInOrder(a: Job, b: Job, ta: Tier, tb: Tier)
    requires a.priority == Some(TierPriority(ta)) && b.priority == Some(TierPriority(tb))
    requires (ta == High && tb != High) || (ta == Medium && tb == Low)
    ensures NextJob([a, b]) == Some(0) && NextJob([b, a]) == Some(1)
  {
    assert [a, b][1..] == [b];
    assert [b, a][1..] == [a];
  }

  /** `{ priority: options.priority || MEDIUM, ...options }`: later keys of
      the spread win, so the merged object is the default overridden by
      whatever `options` holds. */
  function MergedOptions(options: JobOptions): (merged: JobOptions)
    ensures "priority" in merged
    ensures forall k :: k in options ==> k in merged && merged[k] == options[k]
    ensures "priority" !in options ==> merged["priority"] == Some(PRIORITY_MEDIUM)
  {
    var given := if "priority" in options then options["priority"] else None;
    map["priority" := Some(NumOr(given, PRIORITY_MEDIUM))] + options
  }

  /** The priority a job is enqueued with: MEDIUM unless the options carry a
      `priority` key, whose value (even 0 or undefined) then wins. */
  function EffectivePriority(options: JobOptions): (p: Option<int>)
    ensures "priority" in options ==> p == options["priority"]
    ensures "priority" !in options ==> p == Some(PRIORITY_MEDIUM)
  {
    MergedOptions(options)["priority"]
  }

  /** `addJob`: appends one job to the queue, or fails (and the failure is
      rethrown to the caller) when the broker cannot be reached. */
  function AddJob(jobs: seq<Job>, q: QueueName, name: string, data: Payload,
                  options: JobOptions, brokerUp: bool): (r: Result<seq<Job>>)
    ensures r.Ok? <==> brokerUp
    ensures r.Ok? ==> |r.value| == |jobs| + 1 && r.value[..|jobs|] == jobs
    ensures r.Ok? ==> r.value[|jobs|].queue == q && r.value[|jobs|].name == name
                      && r.value[|jobs|].data == data
                      && r.value[|jobs|].priority == EffectivePriority(options)
                      && r.value[|jobs|].attempts == ATTEMPTS
                      && r.value[|jobs|].backoff == Exponential(BACKOFF_DELAY_MS)
  {
    if brokerUp then
      Ok(jobs + [Job(q, name, data, EffectivePriority(options), ATTEMPTS, Exponential(BACKOFF_DELAY_MS))])
    else
      Err(ServerError("Error adding job to " + QueueKey(q)))
  }

  datatype Counts = Counts(waiting: nat, active: nat, completed: nat, failed: nat, delayed: nat)

  datatype QueueStats = QueueStats(
    queue: string, waiting: nat, active: nat, completed: nat,
    failed: nat, delayed: nat, total: nat)

  /** `getQueueStats`: `counts` is None when reading the counts failed, in
      which case the answer is null. */
  function GetQueueStats(q: QueueName, counts: Option<Counts>): (r: Option<QueueStats>)
    ensures r.Some? <==> counts.Some?
    ensures r.Some? ==>
      var c := counts.value;
      r.value.queue == QueueKey(q)
      && r.value.waiting == c.waiting && r.value.active == c.active
      && r.value.completed == c.completed && r.value.failed == c.failed
      && r.value.delayed == c.delayed
      && r.value.total == c.waiting + c.active + c.completed + c.failed + c.delayed
  {
    match counts
    case None => None
    case Some(c) =>
      Some(QueueStats(QueueKey(q), c.waiting, c.active, c.completed, c.failed, c.delayed,
                      c.waiting + c.active + c.completed + c.failed + c.delayed))
  }

  /** The total is zero exactly when every count is. */
  lemma StatsTotalZero(q: QueueName, c: Counts)
    ensures GetQueueStats(q, Some(c)).value.total == 0 <==>
            c.waiting == 0 && c.active == 0 && c.completed == 0 && c.failed == 0 && c.delayed == 0
  {
  }
}
