/**
  What the handling of one delivery does to the tables, as functions: the
  specification that the service classes meet.
 */
module Processing {
  import opened Options
  import opened Webhook
  import opened Tables
  import opened Transitions

  datatype IgnoreReason = OlderTimestamp | EqualTimestamp | InvalidTransition

  datatype Outcome = Created | Updated | Ignored(reason: IgnoreReason) | ProcessingFailed

  datatype Answer = Processed | Duplicate | InternalError

  datatype Delivery = Delivery(event: PaymentEvent, env: Env)

  /** `outcome` is None when the payment update was never invoked. */
  datatype Delivered = Delivered(tables: Tables, answer: Answer, outcome: Option<Outcome>)

  function PaymentFromEvent(e: PaymentEvent): Payment {
    Payment(e.paymentID, e.paymentStatus, e.timestamp)
  }

  /** The event may become the payment's row. */
  predicate Accepts(current: Option<Payment>, e: PaymentEvent) {
    current.Some? ==>
      && e.timestamp > current.value.timestamp
      && IsTransitionAllowed(current.value.status, e.paymentStatus)
  }

  function ReasonToIgnore(current: Payment, e: PaymentEvent): IgnoreReason
    requires !Accepts(Some(current), e)
  {
    if e.timestamp < current.timestamp then OlderTimestamp
    else if e.timestamp == current.timestamp then EqualTimestamp
    else InvalidTransition
  }

  /** The anomaly an ignored event gives rise to: none when the timestamps are equal. */
  function AnomalyOf(reason: IgnoreReason): Option<AnomalyType> {
    match reason
    case OlderTimestamp => Some(StaleEvent)
    case InvalidTransition => Some(InvalidTerminalTransition)
    case EqualTimestamp => None
  }

  function AnomalyColumnsFor(current: Payment, e: PaymentEvent, kind: AnomalyType): AnomalyColumns {
    AnomalyColumns(e.paymentID, kind,
                   AnomalyDetails(e.providerEventID, current.status, current.timestamp, e.paymentStatus, e.timestamp))
  }

  function AnomaliesDetected(current: Payment, e: PaymentEvent, webhookEventID: int): seq<Anomaly> {
    if Accepts(Some(current), e) then []
    else match AnomalyOf(ReasonToIgnore(current, e))
         case None => []
         case Some(kind) => [Anomaly(webhookEventID, AnomalyColumnsFor(current, e, kind))]
  }

  function RecordAll(t: Tables, anomalies: seq<Anomaly>, reply: Reply): Tables {
    if anomalies == [] then t
    else RecordAnomaly(RecordAll(t, anomalies[..|anomalies| - 1], reply), anomalies[|anomalies| - 1], reply)
  }

  /** PaymentProcessor.Process: read, decide, then record an anomaly or overwrite the row. */
  function ProcessUpdate(t: Tables, e: PaymentEvent, webhookEventID: int, env: Env): (Tables, Outcome) {
    if !env.get.Acked? then
      (t, ProcessingFailed)
    else
      var current := Lookup(t.payments, e.paymentID);
      if Accepts(current, e) then
        (UpsertPayment(t, PaymentFromEvent(e), env.upsert),
         if !env.upsert.Acked? then ProcessingFailed else if current.None? then Created else Updated)
      else
        (RecordAll(t, AnomaliesDetected(current.value, e, webhookEventID), env.record),
         Ignored(ReasonToIgnore(current.value, e)))
  }

  /** IdempotencyService.Process: insert first, update the payment only when the insert was fresh. */
  function Deliver(t: Tables, d: Delivery): Delivered {
    var (t', inserted) := InsertEvent(t, d.event, d.env.skip, d.env.insert);
    match inserted
    case Failure(error) =>
      Delivered(t', if IsDuplicateProviderEventIDError(error) then Duplicate else InternalError, None)
    case Success(id) =>
      var (t'', outcome) := ProcessUpdate(t', d.event, id, d.env);
      Delivered(t'', if outcome.ProcessingFailed? then InternalError else Processed, Some(outcome))
  }

  /** Deliveries one after another. */
  function DeliverAll(t: Tables, ds: seq<Delivery>): Tables {
    if ds == [] then t
    else Deliver(DeliverAll(t, ds[..|ds| - 1]), ds[|ds| - 1]).tables
  }
}
