/** The payment status-sync job (`workflows/payment_sync.rs`): after a status
    inquiry it finishes the job when the attempt is terminal, otherwise asks
    for the next schedule time and reschedules or finishes the job, and on the
    last retry of a still-pending attempt without a connector transaction id
    forces the attempt and the intent to failed and notifies the merchant. */
module PaymentSync {
  import opened Common

  // ---------------------------------------------------------------------------
  // Schedule mapping

  /** Retry cadence: the delay before the first sync, then buckets of
      `(interval_seconds, repeat_count)` consumed in order. */
  datatype RetryMapping = RetryMapping(startAfter: int, frequencies: seq<Bucket>)

  /** One `(interval_seconds, repeat_count)` pair of `frequencies`. */
  datatype Bucket = Bucket(interval: int, count: int)

  /** A connector's mapping (`ConnectorPTMapping`): per-merchant overrides, the
      mapping for every other merchant, and the retry cap. */
  datatype ConnectorPtMapping = ConnectorPtMapping(
    customMerchantMapping: map<string, RetryMapping>, defaultMapping: RetryMapping, maxRetriesCount: int)

  /** The process-wide fallback (`ConnectorPTMapping::default()`, whose values
      are assumed here): first sync after 60 s, then five syncs 300 s apart. */
  const DefaultPtMapping: ConnectorPtMapping := ConnectorPtMapping(map[], RetryMapping(60, [Bucket(300, 5)]), 5)

  /** A stored `pt_mapping_{connector}` row, read back as JSON. */
  datatype StoredPtMapping = MappingJson(mapping: ConnectorPtMapping) | UnparsableJson

  datatype ConfigLookup = Found(config: StoredPtMapping) | NotFound | LookupFailed

  /** `pt_mapping_{connector}` */
  function PtMappingKey(connector: string): string {
    "pt_mapping_" + connector
  }

  function LookupPtMapping(configs: map<string, StoredPtMapping>, connector: string, readFails: bool): ConfigLookup {
    if readFails then LookupFailed
    else if PtMappingKey(connector) in configs then Found(configs[PtMappingKey(connector)])
    else NotFound
  }

  /** The mapping used for scheduling: a stored mapping that parses, or the
      default whenever the row is missing, unreadable or unparsable. */
  function ResolvePtMapping(lookup: ConfigLookup): (m: ConnectorPtMapping)
    ensures lookup == Found(MappingJson(m)) || m == DefaultPtMapping
    ensures lookup.Found? && lookup.config.MappingJson? ==> m == lookup.config.mapping
  {
    match lookup
    case Found(MappingJson(mapping)) => mapping
    case _ => DefaultPtMapping
  }

  /** The interval of the bucket in which the `retry`-th retry (1-based) falls. */
  function BucketDelay(frequencies: seq<Bucket>, retry: int): Option<int> {
    if frequencies == [] then None
    else if retry <= frequencies[0].count then Some(frequencies[0].interval)
    else BucketDelay(frequencies[1..], retry - frequencies[0].count)
  }

  /** Total number of retries the first `k` buckets allow. */
  function CountUpTo(frequencies: seq<Bucket>, k: nat): int
    requires k <= |frequencies|
  {
    if k == 0 then 0 else CountUpTo(frequencies, k - 1) + frequencies[k - 1].count
  }

  /** The first `k` buckets together allow fewer than `retry` retries. */
  predicate PastBuckets(frequencies: seq<Bucket>, k: nat, retry: int)
    requires k <= |frequencies|
  {
    forall j :: 0 < j <= k ==> retry > CountUpTo(frequencies, j)
  }

  /** Bucket `k` is the first whose cumulative count reaches `retry`. */
  predicate InBucket(frequencies: seq<Bucket>, k: nat, retry: int)
  {
    k < |frequencies| && PastBuckets(frequencies, k, retry) && retry <= CountUpTo(frequencies, k + 1)
  }

  /** The bucket walk picks the bucket whose cumulative count first reaches the
      retry number, and gives up beyond the last bucket. */
  lemma {:induction false} BucketDelayPicksBucket(frequencies: seq<Bucket>, retry: int)
    ensures forall k: nat :: InBucket(frequencies, k, retry) ==> BucketDelay(frequencies, retry) == Some(frequencies[k].interval)
    ensures PastBuckets(frequencies, |frequencies|, retry) ==> BucketDelay(frequencies, retry) == None
    decreases |frequencies|
  {
    if frequencies != [] {
      var head, tail := frequencies[0], frequencies[1..];
      assert CountUpTo(frequencies, 1) == head.count;
      if retry > head.count {
        var rest := retry - head.count;
        BucketDelayPicksBucket(tail, rest);
        forall k: nat | InBucket(frequencies, k, retry)
          ensures BucketDelay(frequencies, retry) == Some(frequencies[k].interval)
        {
          assert k > 0;
          CountShift(frequencies, k);
          forall j | 0 < j <= k - 1 ensures rest > CountUpTo(tail, j) {
            CountShift(frequencies, j);
          }
          assert InBucket(tail, k - 1, rest);
        }
        if PastBuckets(frequencies, |frequencies|, retry) {
          forall j | 0 < j <= |tail| ensures rest > CountUpTo(tail, j) {
            CountShift(frequencies, j);
          }
          assert PastBuckets(tail, |tail|, rest);
        }
      }
    }
  }

  lemma {:induction false} CountShift(frequencies: seq<Bucket>, j: nat)
    requires frequencies != [] && j < |frequencies|
    ensures CountUpTo(frequencies, j + 1) == frequencies[0].count + CountUpTo(frequencies[1..], j)
  {
    if j > 0 {
      CountShift(frequencies, j - 1);
    }
  }

  /** Delay in seconds before the `retryCount`-th sync (`get_schedule_time`):
      none beyond the cap, `start_after` for the first run, otherwise the
      bucket walk over the merchant's mapping. */
  function ScheduleDelay(mapping: ConnectorPtMapping, merchantId: string, retryCount: int): (d: Option<int>)
    ensures retryCount > mapping.maxRetriesCount ==> d.None?
    ensures retryCount == 0 && mapping.maxRetriesCount >= 0 && merchantId !in mapping.customMerchantMapping
            ==> d == Some(mapping.defaultMapping.startAfter)
    ensures retryCount == 0 && mapping.maxRetriesCount >= 0 && merchantId in mapping.customMerchantMapping
            ==> d == Some(mapping.customMerchantMapping[merchantId].startAfter)
  {
    var m := if merchantId in mapping.customMerchantMapping then mapping.customMerchantMapping[merchantId]
             else mapping.defaultMapping;
    if retryCount > mapping.maxRetriesCount then None
    else if retryCount == 0 then Some(m.startAfter)
    else BucketDelay(m.frequencies, retryCount)
  }

  /** `get_time_from_delta`: the delay added to the current time. */
  function TimeFromDelta(delta: Option<int>, now: int): (t: Option<int>)
    ensures t.Some? <==> delta.Some?
    ensures t.Some? ==> t.value - now == delta.value
  {
    match delta
    case Some(d) => Some(now + d)
    case None => None
  }

  /** `get_sync_process_schedule_time`: never an error; a lookup or parse
      failure degrades to the default mapping. */
  function SyncProcessScheduleTime(lookup: ConfigLookup, merchantId: string, retryCount: int, now: int): (t: Option<int>)
    ensures !(lookup.Found? && lookup.config.MappingJson?) ==>
            t == TimeFromDelta(ScheduleDelay(DefaultPtMapping, merchantId, retryCount), now)
  {
    TimeFromDelta(ScheduleDelay(ResolvePtMapping(lookup), merchantId, retryCount), now)
  }

  /** What the unit test of the default mapping checks: retry 0 waits
      `start_after` and retry 1 waits the first bucket's interval. */
  lemma DefaultScheduleTime(merchantId: string)
    ensures ScheduleDelay(DefaultPtMapping, merchantId, 0) == Some(DefaultPtMapping.defaultMapping.startAfter)
    ensures ScheduleDelay(DefaultPtMapping, merchantId, 1) == Some(DefaultPtMapping.defaultMapping.frequencies[0].interval)
  {
  }

  /** A one-bucket mapping: every retry from 1 to the bucket's count (and the
      cap) waits the bucket's interval; past either the schedule is exhausted. */
  lemma SingleBucketSchedule(startAfter: int, interval: int, count: int, maxRetries: int, merchantId: string, retry: int)
    requires retry >= 1
    ensures var mapping := ConnectorPtMapping(map[], RetryMapping(startAfter, [Bucket(interval, count)]), maxRetries);
      ScheduleDelay(mapping, merchantId, retry) == if retry <= count && retry <= maxRetries then Some(interval) else None
  {
    var fs := [Bucket(interval, count)];
    assert CountUpTo(fs, 1) == count;
    BucketDelayPicksBucket(fs, retry);
  }

  // ---------------------------------------------------------------------------
  // Records the workflow reads and writes

  /** The job record; only its id and retry count matter to this workflow. */
  datatype ProcessTracker = ProcessTracker(id: string, retryCount: int)

  datatype BusinessStatus = CompletedByPt | RetriesExceeded

  /** Requests made to the job tracker. */
  datatype TrackerCall =
    | RetryProcess(processId: string, scheduleTime: int)
    | FinishProcess(processId: string, businessStatus: BusinessStatus)

  /** `RequestTimeoutFromPsync` stands for `REQUEST_TIMEOUT_ERROR_MESSAGE_FROM_PSYNC`. */
  datatype ErrorReason = RequestTimeoutFromPsync | ConnectorReason(text: string)

  datatype PaymentAttempt = PaymentAttempt(
    attemptId: string, merchantId: string, status: AttemptStatus, connector: Option<string>,
    connectorTransactionId: Option<string>, errorReason: Option<ErrorReason>, amountCapturable: int, updatedBy: string)

  datatype PaymentIntent = PaymentIntent(
    paymentId: string, status: IntentStatus, profileId: Option<string>,
    incrementalAuthorizationAllowed: Option<bool>, updatedBy: string)

  /** What the status inquiry (`payments_operation_core`) hands back. */
  datatype PaymentData = PaymentData(attempt: PaymentAttempt, intent: PaymentIntent)

  datatype WorkflowError =
    | InquiryFailed(detail: string)
    | MissingRequiredField
    | TrackerFailed
    | PaymentNotFound
    | ProfileIdMissing
    | ProfileNotFound(profileId: string)

  /** Which external step fails during one run. */
  datatype SyncFaults = SyncFaults(
    mappingReadFails: bool, trackerFails: bool, attemptUpdateFails: bool,
    intentUpdateFails: bool, profileLookupFails: bool, webhookFails: bool)

  /** One attempt to deliver the outgoing webhook, and whether it got through. */
  datatype WebhookAttempt = WebhookAttempt(paymentId: string, profileId: string, delivered: bool)

  // ---------------------------------------------------------------------------
  // Decisions

  /** Statuses after which no further sync is useful. */
  const TerminalStatuses: seq<AttemptStatus> :=
    [RouterDeclined, Charged, AutoRefunded, Voided, VoidFailed, CaptureFailed, Failure]

  predicate IsTerminal(s: AttemptStatus) {
    s in TerminalStatuses
  }

  /** Force the attempt to failed: only on the last retry, while still pending,
      and when no connector transaction id was ever recorded. */
  predicate ShouldEscalate(isLastRetry: bool, attempt: PaymentAttempt) {
    isLastRetry && attempt.status == Pending && attempt.connectorTransactionId.None?
  }

  /** The attempt after the timeout `ErrorUpdate`. */
  function TimedOutAttempt(a: PaymentAttempt, updatedBy: string): (b: PaymentAttempt)
    ensures b.status == Failure && b.errorReason == Some(RequestTimeoutFromPsync) && b.amountCapturable == 0
    ensures b.attemptId == a.attemptId && b.merchantId == a.merchantId && b.connector == a.connector
    ensures b.connectorTransactionId == a.connectorTransactionId && b.updatedBy == updatedBy
  {
    a.(status := Failure, errorReason := Some(RequestTimeoutFromPsync), amountCapturable := 0, updatedBy := updatedBy)
  }

  /** The intent after the `PGStatusUpdate` to failed. */
  function FailedIntent(i: PaymentIntent, updatedBy: string): (j: PaymentIntent)
    ensures j.status == Failed && j.incrementalAuthorizationAllowed == Some(false)
    ensures j.paymentId == i.paymentId && j.profileId == i.profileId && j.updatedBy == updatedBy
  {
    i.(status := Failed, incrementalAuthorizationAllowed := Some(false), updatedBy := updatedBy)
  }

  /** Everything one run of the job produces. */
  datatype SyncRun = SyncRun(
    result: Outcome<WorkflowError>, calls: seq<TrackerCall>, attempt: PaymentAttempt,
    intent: PaymentIntent, webhooks: seq<WebhookAttempt>)

  /** The escalation tail of a run, once the job is already finished as exhausted. */
  function EscalateRun(calls: seq<TrackerCall>, data: PaymentData, storageScheme: string, faults: SyncFaults): (o: SyncRun)
    ensures o.calls == calls
    ensures o.result.Pass? <==> !faults.attemptUpdateFails && !faults.intentUpdateFails
                                && data.intent.profileId.Some? && !faults.profileLookupFails
    ensures o.result.Pass? ==> o.attempt.status == Failure && o.intent.status == Failed
                               && |o.webhooks| == 1 && o.webhooks[0].delivered == !faults.webhookFails
  {
    if faults.attemptUpdateFails then SyncRun(Fail(PaymentNotFound), calls, data.attempt, data.intent, [])
    else
      var attempt := TimedOutAttempt(data.attempt, storageScheme);
      if faults.intentUpdateFails then SyncRun(Fail(PaymentNotFound), calls, attempt, data.intent, [])
      else
        var intent := FailedIntent(data.intent, storageScheme);
        match intent.profileId
        case None => SyncRun(Fail(ProfileIdMissing), calls, attempt, intent, [])
        case Some(profileId) =>
          if faults.profileLookupFails then SyncRun(Fail(ProfileNotFound(profileId)), calls, attempt, intent, [])
          else SyncRun(Pass, calls, attempt, intent, [WebhookAttempt(intent.paymentId, profileId, !faults.webhookFails)])
  }

  /** One run of the job after a successful status inquiry returned `data`.
      A terminal attempt finishes the job with the business status
      `COMPLETED_BY_PT` (`CompletedByPt`). */
  function Run(pt: ProcessTracker, data: PaymentData, configs: map<string, StoredPtMapping>,
               now: int, storageScheme: string, faults: SyncFaults): (o: SyncRun)
    // a terminal attempt finishes the job as completed and nothing else happens
    ensures IsTerminal(data.attempt.status) ==>
      o.attempt == data.attempt && o.intent == data.intent && o.webhooks == []
      && o.calls == (if faults.trackerFails then [] else [FinishProcess(pt.id, CompletedByPt)])
      && o.result == (if faults.trackerFails then Fail(TrackerFailed) else Pass)
    // a non-terminal attempt without a connector fails before any scheduling
    ensures !IsTerminal(data.attempt.status) && data.attempt.connector.None? ==>
      o == SyncRun(Fail(MissingRequiredField), [], data.attempt, data.intent, [])
    // with a connector, the tracker is asked for sync number `retry_count + 1`:
    // a schedule time reschedules the job, none finishes it as exhausted
    ensures !IsTerminal(data.attempt.status) && data.attempt.connector.Some? ==>
      var time := SyncProcessScheduleTime(LookupPtMapping(configs, data.attempt.connector.value, faults.mappingReadFails),
                                          data.attempt.merchantId, pt.retryCount + 1, now);
      && (faults.trackerFails ==> o == SyncRun(Fail(TrackerFailed), [], data.attempt, data.intent, []))
      && (!faults.trackerFails && time.Some? ==>
            o == SyncRun(Pass, [RetryProcess(pt.id, time.value)], data.attempt, data.intent, []))
      && (!faults.trackerFails && time.None? ==> o.calls == [FinishProcess(pt.id, RetriesExceeded)])
      && (!faults.trackerFails && time.None? && !ShouldEscalate(true, data.attempt) ==>
            o == SyncRun(Pass, [FinishProcess(pt.id, RetriesExceeded)], data.attempt, data.intent, []))
    // the job is never both rescheduled and finished, and is finished at most once
    ensures |o.calls| <= 1
    // attempt and intent change only by the timeout escalation
    ensures o.attempt != data.attempt ==>
      ShouldEscalate(true, data.attempt) && o.calls == [FinishProcess(pt.id, RetriesExceeded)]
      && o.attempt == TimedOutAttempt(data.attempt, storageScheme)
    ensures o.intent != data.intent ==>
      ShouldEscalate(true, data.attempt) && o.calls == [FinishProcess(pt.id, RetriesExceeded)]
      && o.intent == FailedIntent(data.intent, storageScheme)
    ensures o.webhooks != [] ==> o.result.Pass? && o.attempt.status == Failure && o.intent.status == Failed
  {
    if IsTerminal(data.attempt.status) then
      if faults.trackerFails then SyncRun(Fail(TrackerFailed), [], data.attempt, data.intent, [])
      else SyncRun(Pass, [FinishProcess(pt.id, CompletedByPt)], data.attempt, data.intent, [])
    else
      match data.attempt.connector
      case None => SyncRun(Fail(MissingRequiredField), [], data.attempt, data.intent, [])
      case Some(connector) =>
        var lookup := LookupPtMapping(configs, connector, faults.mappingReadFails);
        var time := SyncProcessScheduleTime(lookup, data.attempt.merchantId, pt.retryCount + 1, now);
        if faults.trackerFails then SyncRun(Fail(TrackerFailed), [], data.attempt, data.intent, [])
        else
          match time
          case Some(t) => SyncRun(Pass, [RetryProcess(pt.id, t)], data.attempt, data.intent, [])
          case None =>
            var calls := [FinishProcess(pt.id, RetriesExceeded)];
            if ShouldEscalate(true, data.attempt) then EscalateRun(calls, data, storageScheme, faults)
            else SyncRun(Pass, calls, data.attempt, data.intent, [])
  }

  /** Whether the webhook got through never changes the job's outcome, the
      tracker requests, or the stored attempt and intent. */
  lemma WebhookOutcomeIsIgnored(pt: ProcessTracker, data: PaymentData, configs: map<string, StoredPtMapping>,
                                now: int, storageScheme: string, faults: SyncFaults)
    ensures var a := Run(pt, data, configs, now, storageScheme, faults.(webhookFails := false));
            var b := Run(pt, data, configs, now, storageScheme, faults.(webhookFails := true));
            a.result == b.result && a.calls == b.calls && a.attempt == b.attempt && a.intent == b.intent
  {
  }

  /** The last retry of a pending attempt without a connector transaction id,
      with every store call succeeding: the job finishes as exhausted, the
      attempt and intent become failed, and one webhook is attempted. */
  lemma LastPendingRetryEscalates(pt: ProcessTracker, data: PaymentData, configs: map<string, StoredPtMapping>,
                                  now: int, storageScheme: string, faults: SyncFaults)
    requires data.attempt.status == Pending && data.attempt.connectorTransactionId.None? && data.attempt.connector.Some?
    requires SyncProcessScheduleTime(LookupPtMapping(configs, data.attempt.connector.value, faults.mappingReadFails),
                                     data.attempt.merchantId, pt.retryCount + 1, now).None?
    requires !faults.trackerFails && !faults.attemptUpdateFails && !faults.intentUpdateFails
    requires data.intent.profileId.Some? && !faults.profileLookupFails
    ensures var o := Run(pt, data, configs, now, storageScheme, faults);
      && o.result == Pass
      && o.calls == [FinishProcess(pt.id, RetriesExceeded)]
      && o.attempt == TimedOutAttempt(data.attempt, storageScheme)
      && o.intent == FailedIntent(data.intent, storageScheme)
      && o.webhooks == [WebhookAttempt(data.intent.paymentId, data.intent.profileId.value, !faults.webhookFails)]
  {
  }

  // ---------------------------------------------------------------------------
  // The workflow

  class PaymentsSyncWorkflow {
    /** `payment_data` as the run holds it, and what it has persisted. */
    var paymentAttempt: PaymentAttempt
    var paymentIntent: PaymentIntent
    /** Requests made to the job tracker, oldest first. */
    var trackerCalls: seq<TrackerCall>
    /** Outgoing webhook deliveries attempted, oldest first. */
    var webhooks: seq<WebhookAttempt>

    constructor (attempt: PaymentAttempt, intent: PaymentIntent)
      ensures paymentAttempt == attempt && paymentIntent == intent && trackerCalls == [] && webhooks == []
    {
      paymentAttempt, paymentIntent := attempt, intent;
      trackerCalls, webhooks := [], [];
    }

    /** `retry_sync_task`: ask for the time of sync number `retry_count + 1`;
        reschedule if there is one (not the last retry), otherwise finish the job
        as exhausted (the last retry). */
    method RetrySyncTask(connector: string, merchantId: string, pt: ProcessTracker,
                         configs: map<string, StoredPtMapping>, now: int, faults: SyncFaults)
      returns (r: Result<bool, WorkflowError>)
      modifies this`trackerCalls
      ensures var time := SyncProcessScheduleTime(LookupPtMapping(configs, connector, faults.mappingReadFails),
                                                  merchantId, pt.retryCount + 1, now);
        if faults.trackerFails then r == Err(TrackerFailed) && trackerCalls == old(trackerCalls)
        else if time.Some? then r == Ok(false) && trackerCalls == old(trackerCalls) + [RetryProcess(pt.id, time.value)]
        else r == Ok(true) && trackerCalls == old(trackerCalls) + [FinishProcess(pt.id, RetriesExceeded)]
    {
      var lookup := LookupPtMapping(configs, connector, faults.mappingReadFails);
      var scheduleTime := SyncProcessScheduleTime(lookup, merchantId, pt.retryCount + 1, now);
      if faults.trackerFails {
        return Err(TrackerFailed);
      }
      match scheduleTime
      case Some(t) =>
        trackerCalls := trackerCalls + [RetryProcess(pt.id, t)];
        return Ok(false);
      case None =>
        trackerCalls := trackerCalls + [FinishProcess(pt.id, RetriesExceeded)];
        return Ok(true);
    }

    /** `execute_workflow` (v1). `inquiry` is the outcome of reading the
        tracking data, the merchant, and the status inquiry; a failure there
        is handed back untouched. */
    method ExecuteWorkflow(pt: ProcessTracker, inquiry: Result<PaymentData, WorkflowError>,
                           configs: map<string, StoredPtMapping>, now: int, storageScheme: string, faults: SyncFaults)
      returns (r: Outcome<WorkflowError>)
      modifies this
      ensures inquiry.Err? ==> r == Fail(inquiry.error) && unchanged(this)
      ensures inquiry.Ok? ==>
        var o := Run(pt, inquiry.value, configs, now, storageScheme, faults);
        && r == o.result
        && trackerCalls == old(trackerCalls) + o.calls
        && paymentAttempt == o.attempt
        && paymentIntent == o.intent
        && webhooks == old(webhooks) + o.webhooks
    {
      if inquiry.Err? {
        return Fail(inquiry.error);
      }
      paymentAttempt, paymentIntent := inquiry.value.attempt, inquiry.value.intent;
      if IsTerminal(paymentAttempt.status) {
        if faults.trackerFails {
          return Fail(TrackerFailed);
        }
        trackerCalls := trackerCalls + [FinishProcess(pt.id, CompletedByPt)];
        return Pass;
      }
      if paymentAttempt.connector.None? {
        return Fail(MissingRequiredField);
      }
      var isLastRetry := RetrySyncTask(paymentAttempt.connector.value, paymentAttempt.merchantId, pt, configs, now, faults);
      if isLastRetry.Err? {
        return Fail(isLastRetry.error);
      }
      if ShouldEscalate(isLastRetry.value, paymentAttempt) {
        if faults.attemptUpdateFails {
          return Fail(PaymentNotFound);
        }
        paymentAttempt := TimedOutAttempt(paymentAttempt, storageScheme);
        if faults.intentUpdateFails {
          return Fail(PaymentNotFound);
        }
        paymentIntent := FailedIntent(paymentIntent, storageScheme);
        if paymentIntent.profileId.None? {
          return Fail(ProfileIdMissing);
        }
        var profileId := paymentIntent.profileId.value;
        if faults.profileLookupFails {
          return Fail(ProfileNotFound(profileId));
        }
        // the delivery outcome is logged and dropped
        webhooks := webhooks + [WebhookAttempt(paymentIntent.paymentId, profileId, !faults.webhookFails)];
      }
      return Pass;
    }
  }
}
