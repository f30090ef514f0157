/**
  The three tables and the single SQL statements that touch them. Each statement is
  atomic; what the caller hears back is one of three replies.
 */
module Tables {
  import opened Options
  import opened Webhook

  datatype Payment = Payment(paymentID: string, status: PaymentStatus, timestamp: int)

  datatype EventColumns = EventColumns(
    paymentID: string, eventType: string, timestamp: int, rawPayload: Bytes, processingStatus: string)

  datatype EventRow = EventRow(id: int, columns: EventColumns)

  datatype AnomalyType = StaleEvent | InvalidTerminalTransition

  datatype AnomalyDetails = AnomalyDetails(
    providerEventID: string,
    currentStatus: PaymentStatus, currentTimestamp: int,
    incomingStatus: PaymentStatus, incomingTimestamp: int)

  datatype AnomalyColumns = AnomalyColumns(paymentID: string, anomalyType: AnomalyType, details: AnomalyDetails)

  /** An anomaly as the service hands it over; id 0 stands for "no event". */
  datatype Anomaly = Anomaly(webhookEventID: int, columns: AnomalyColumns)

  datatype AnomalyRow = AnomalyRow(webhookEventID: Option<int>, columns: AnomalyColumns)

  /** `lastEventID` is the state of the BIGSERIAL sequence; it may skip values. */
  datatype Tables = Tables(
    events: map<string, EventRow>,
    payments: map<string, Payment>,
    anomalies: seq<AnomalyRow>,
    lastEventID: int)

  /**
    What becomes of a statement: it takes effect and the caller is told; it has no
    effect and the caller gets an error; it takes effect but the reply is lost, so
    the caller gets an error all the same.
   */
  datatype Reply = Acked | Rejected | AckLost

  /** The environment's choices for one request: id gaps and the reply of each statement. */
  datatype Env = Env(skip: nat, insert: Reply, get: Reply, record: Reply, upsert: Reply)
  {
    predicate FailureFree() {
      insert.Acked? && get.Acked? && record.Acked? && upsert.Acked?
    }
  }

  const NO_FAILURES := Env(0, Acked, Acked, Acked, Acked)

  datatype SqlError = Postgres(code: string, constraint: string) | ConnectionError

  const PROCESSING_STATUS_PENDING := "pending"
  const UNIQUE_VIOLATION := "23505"
  const PROVIDER_EVENT_ID_KEY := "webhook_events_provider_event_id_key"

  function ColumnsOf(e: PaymentEvent): EventColumns {
    EventColumns(e.paymentID, e.eventType, e.timestamp, e.rawPayload, PROCESSING_STATUS_PENDING)
  }

  /** INSERT INTO webhook_events ... RETURNING id. A value drawn from the sequence is never given back. */
  function InsertEvent(t: Tables, e: PaymentEvent, skip: nat, reply: Reply): (Tables, Result<int, SqlError>) {
    if reply.Rejected? then
      (t, Failure(ConnectionError))
    else
      var id := t.lastEventID + 1 + skip;
      if e.providerEventID in t.events then
        (t.(lastEventID := id),
         Failure(if reply.Acked? then Postgres(UNIQUE_VIOLATION, PROVIDER_EVENT_ID_KEY) else ConnectionError))
      else
        (t.(lastEventID := id, events := t.events[e.providerEventID := EventRow(id, ColumnsOf(e))]),
         if reply.Acked? then Success(id) else Failure(ConnectionError))
  }

  predicate IsDuplicateProviderEventIDError(error: SqlError) {
    error.Postgres? && error.code == UNIQUE_VIOLATION && error.constraint == PROVIDER_EVENT_ID_KEY
  }

  /**
    An insert is told to be a duplicate exactly when it is answered and its provider event id is taken:
    that is the only error with this code and constraint.
   */
  lemma DuplicateIsTold(t: Tables, e: PaymentEvent, skip: nat, reply: Reply)
    ensures var inserted := InsertEvent(t, e, skip, reply).1;
            && (inserted == Failure(Postgres("23505", "webhook_events_provider_event_id_key")) <==>
                reply.Acked? && e.providerEventID in t.events)
            && (inserted.Failure? && IsDuplicateProviderEventIDError(inserted.error) <==>
                reply.Acked? && e.providerEventID in t.events)
            && (inserted.Success? <==> reply.Acked? && e.providerEventID !in t.events)
            && (inserted.Success? ==> inserted.value > t.lastEventID)
    ensures forall error :: IsDuplicateProviderEventIDError(error) <==>
                            error == Postgres("23505", "webhook_events_provider_event_id_key")
  {
  }

  /** INSERT INTO payments ... ON CONFLICT DO UPDATE: overwrites whatever is there. */
  function UpsertPayment(t: Tables, payment: Payment, reply: Reply): Tables {
    if reply.Rejected? then t else t.(payments := t.payments[payment.paymentID := payment])
  }

  function NullableWebhookEventID(id: int): Option<int> {
    if id == 0 then None else Some(id)
  }

  predicate EventIDExists(t: Tables, id: int) {
    exists pid | pid in t.events :: t.events[pid].id == id
  }

  /** Both foreign keys of the anomalies table hold for this row. */
  predicate ForeignKeysHold(t: Tables, a: Anomaly) {
    && (a.webhookEventID == 0 || EventIDExists(t, a.webhookEventID))
    && a.columns.paymentID in t.payments
  }

  /** INSERT INTO anomalies; a row that breaks a foreign key is refused. */
  function RecordAnomaly(t: Tables, a: Anomaly, reply: Reply): Tables {
    if reply.Rejected? || !ForeignKeysHold(t, a) then t
    else t.(anomalies := t.anomalies + [AnomalyRow(NullableWebhookEventID(a.webhookEventID), a.columns)])
  }

  /**
    An anomaly is recorded exactly when its statement takes effect, its payment exists, and its event id is
    that of a stored event or 0, which is stored as null.
   */
  lemma RecordedExactly(t: Tables, a: Anomaly, reply: Reply)
    ensures var known := a.columns.paymentID in t.payments
                         && (a.webhookEventID == 0 ||
                             exists pid :: pid in t.events && t.events[pid].id == a.webhookEventID);
            RecordAnomaly(t, a, reply).anomalies ==
            t.anomalies + (if reply.Rejected? || !known then []
                           else if a.webhookEventID == 0 then [AnomalyRow(None, a.columns)]
                           else [AnomalyRow(Some(a.webhookEventID), a.columns)])
  {
    assert EventIDExists(t, a.webhookEventID) <==>
           exists pid :: pid in t.events && t.events[pid].id == a.webhookEventID;
  }
}
