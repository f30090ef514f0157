/** The database and the three repositories in front of it. */
module Repositories {
  import opened Options
  import opened Webhook
  import opened Tables

  class Database {
    var events: map<string, EventRow>
    var payments: map<string, Payment>
    var anomalies: seq<AnomalyRow>
    var lastEventID: int

    function Contents(): Tables
      reads this
    {
      Tables(events, payments, anomalies, lastEventID)
    }

    /** A freshly migrated schema. */
    constructor ()
      ensures Contents() == Tables(map[], map[], [], 0)
    {
      events, payments, anomalies, lastEventID := map[], map[], [], 0;
    }
  }

  datatype InsertError = DuplicateProviderEventID | InsertFailed
  datatype GetError = PaymentNotFound | GetFailed

  class WebhookEventRepository {
    const db: Database

    constructor (db: Database)
      ensures this.db == db
    {
      this.db := db;
    }

    method Insert(e: PaymentEvent, skip: nat, reply: Reply) returns (r: Result<int, InsertError>)
      modifies db
      ensures db.Contents() == InsertEvent(old(db.Contents()), e, skip, reply).0
      ensures match InsertEvent(old(db.Contents()), e, skip, reply).1
              case Success(id) => r == Success(id)
              case Failure(error) =>
                r == Failure(if IsDuplicateProviderEventIDError(error) then DuplicateProviderEventID else InsertFailed)
    {
      var err := ConnectionError;
      if !reply.Rejected? {
        var id := db.lastEventID + 1 + skip;
        db.lastEventID := id;
        if e.providerEventID in db.events {
          if reply.Acked? {
            err := Postgres(UNIQUE_VIOLATION, PROVIDER_EVENT_ID_KEY);
          }
        } else {
          db.events := db.events[e.providerEventID := EventRow(id, ColumnsOf(e))];
          if reply.Acked? {
            return Success(id);
          }
        }
      }
      if IsDuplicateProviderEventIDError(err) {
        return Failure(DuplicateProviderEventID);
      }
      return Failure(InsertFailed);
    }
  }

  class PaymentRepository {
    const db: Database

    constructor (db: Database)
      ensures this.db == db
    {
      this.db := db;
    }

    method GetByPaymentID(paymentID: string, reply: Reply) returns (r: Result<Payment, GetError>)
      ensures r.Success? <==> reply.Acked? && paymentID in db.payments
      ensures r.Success? ==> r.value == db.payments[paymentID]
      ensures r.Failure? ==> (r.error.PaymentNotFound? <==> reply.Acked?)
    {
      if !reply.Acked? {
        return Failure(GetFailed);
      }
      if paymentID !in db.payments {
        return Failure(PaymentNotFound);
      }
      return Success(db.payments[paymentID]);
    }

    method Upsert(payment: Payment, reply: Reply) returns (ok: bool)
      modifies db
      ensures db.Contents() == UpsertPayment(old(db.Contents()), payment, reply)
      ensures ok <==> reply.Acked?
    {
      if !reply.Rejected? {
        db.payments := db.payments[payment.paymentID := payment];
      }
      ok := reply.Acked?;
    }
  }

  class AnomalyRepository {
    const db: Database

    constructor (db: Database)
      ensures this.db == db
    {
      this.db := db;
    }

    method Record(a: Anomaly, reply: Reply) returns (ok: bool)
      modifies db
      ensures db.Contents() == RecordAnomaly(old(db.Contents()), a, reply)
      ensures ok ==> reply.Acked? && ForeignKeysHold(old(db.Contents()), a)
    {
      if reply.Rejected? || !ForeignKeysHold(db.Contents(), a) {
        return false;
      }
      db.anomalies := db.anomalies + [AnomalyRow(NullableWebhookEventID(a.webhookEventID), a.columns)];
      ok := reply.Acked?;
    }
  }
}
