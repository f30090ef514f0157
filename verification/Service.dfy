/** The service classes: the dedup gate and the payment processor behind it. */
module Service {
  import opened Options
  import opened Webhook
  import opened Tables
  import opened Transitions
  import opened Processing
  import opened Counting
  import opened Repositories

  /** What the tables see of a request: with no recorder configured, no anomaly insert is ever sent. */
  function Seen(env: Env, recorder: bool): Env {
    if recorder then env else env.(record := Rejected)
  }

  /**
    At most one anomaly, and none exactly when the event is accepted or has the current
    timestamp; a stale event is never also reported for its transition.
   */
  method DetectAnomalies(current: Payment, e: PaymentEvent, webhookEventID: int) returns (anomalies: seq<Anomaly>)
    ensures anomalies == AnomaliesDetected(current, e, webhookEventID)
    ensures anomalies == [] <==> Accepts(Some(current), e) || e.timestamp == current.timestamp
    ensures forall a | a in anomalies ::
              && anomalies == [a]
              && a.webhookEventID == webhookEventID
              && (a.columns.anomalyType.StaleEvent? <==> e.timestamp < current.timestamp)
              && (a.columns.anomalyType.InvalidTerminalTransition? <==>
                  e.timestamp > current.timestamp && !IsTransitionAllowed(current.status, e.paymentStatus))
  {
    anomalies := [];
    if e.timestamp < current.timestamp {
      anomalies := anomalies + [Anomaly(webhookEventID, AnomalyColumnsFor(current, e, StaleEvent))];
      return;
    }
    if !(e.timestamp > current.timestamp) {
      return;
    }
    if !IsTransitionAllowed(current.status, e.paymentStatus) {
      anomalies := anomalies + [Anomaly(webhookEventID, AnomalyColumnsFor(current, e, InvalidTerminalTransition))];
    }
  }

  class PaymentProcessor {
    const repository: PaymentRepository
    const anomalyRecorder: AnomalyRepository?
    const metrics: Metrics

    /** One database behind both repositories, as main wires it. */
    ghost predicate Wired(db: Database) {
      && repository.db == db
      && (anomalyRecorder != null ==> anomalyRecorder.db == db)
    }

    constructor (repository: PaymentRepository, anomalyRecorder: AnomalyRepository?, metrics: Metrics)
      ensures this.repository == repository && this.anomalyRecorder == anomalyRecorder && this.metrics == metrics
    {
      this.repository := repository;
      this.anomalyRecorder := anomalyRecorder;
      this.metrics := metrics;
    }

    method Process(e: PaymentEvent, webhookEventID: int, env: Env, ghost db: Database) returns (outcome: Outcome)
      requires Wired(db)
      modifies db, metrics
      ensures var (t, o) := ProcessUpdate(old(db.Contents()), e, webhookEventID, Seen(env, anomalyRecorder != null));
              db.Contents() == t && outcome == o
      ensures metrics.counters == CountUpdate(old(metrics.counters), anomalyRecorder != null, outcome)
    {
      outcome := ProcessingFailed;
      var current := repository.GetByPaymentID(e.paymentID, env.get);
      if current.Failure? {
        if current.error.PaymentNotFound? {
          var ok := repository.Upsert(PaymentFromEvent(e), env.upsert);
          if ok {
            outcome := Created;
          }
        }
      } else {
        var anomalies := DetectAnomalies(current.value, e, webhookEventID);
        RecordAnomalies(anomalies, env.record, db);
        if !(e.timestamp > current.value.timestamp) {
          var reason := if e.timestamp == current.value.timestamp then EqualTimestamp else OlderTimestamp;
          metrics.IncPaymentIgnored(reason);
          outcome := Ignored(reason);
        } else if !IsTransitionAllowed(current.value.status, e.paymentStatus) {
          metrics.IncPaymentIgnored(InvalidTransition);
          outcome := Ignored(InvalidTransition);
        } else {
          var ok := repository.Upsert(PaymentFromEvent(e), env.upsert);
          if ok {
            outcome := Updated;
          }
        }
        UnfoldRecording(old(db.Contents()), old(metrics.counters), anomalies, env.record);
      }
      // the deferred call
      metrics.IncPaymentProcessing(outcome);
    }

    /** Errors of the recorder are dropped. */
    method RecordAnomalies(anomalies: seq<Anomaly>, reply: Reply, ghost db: Database)
      requires Wired(db)
      modifies db, metrics
      ensures db.Contents() == RecordAll(old(db.Contents()), anomalies,
                                         if anomalyRecorder != null then reply else Rejected)
      ensures metrics.counters ==
              if anomalyRecorder != null then CountAnomalies(old(metrics.counters), anomalies)
              else old(metrics.counters)
    {
      if anomalyRecorder == null {
        RecordNothing(db.Contents(), anomalies);
        return;
      }
      for i := 0 to |anomalies|
        invariant db.Contents() == RecordAll(old(db.Contents()), anomalies[..i], reply)
        invariant metrics.counters == CountAnomalies(old(metrics.counters), anomalies[..i])
      {
        assert anomalies[..i + 1][..i] == anomalies[..i];
        metrics.IncAnomaly(anomalies[i].columns.anomalyType);
        var _ := anomalyRecorder.Record(anomalies[i], reply);
      }
      assert anomalies[..|anomalies|] == anomalies;
    }
  }

  lemma {:induction false} RecordNothing(t: Tables, anomalies: seq<Anomaly>)
    ensures RecordAll(t, anomalies, Rejected) == t
  {
    if anomalies != [] {
      RecordNothing(t, anomalies[..|anomalies| - 1]);
    }
  }

  lemma UnfoldRecording(t: Tables, c: Counters, anomalies: seq<Anomaly>, reply: Reply)
    requires |anomalies| <= 1
    ensures anomalies == [] ==> RecordAll(t, anomalies, reply) == t && CountAnomalies(c, anomalies) == c
    ensures anomalies != [] ==>
              && RecordAll(t, anomalies, reply) == RecordAnomaly(t, anomalies[0], reply)
              && CountAnomalies(c, anomalies) == CountAnomaly(c, anomalies[0].columns.anomalyType)
  {
    if anomalies != [] {
      assert anomalies[..|anomalies| - 1] == [];
    }
  }

  class IdempotencyService {
    const repository: WebhookEventRepository
    const processor: PaymentProcessor
    const metrics: Metrics

    ghost predicate Wired(db: Database) {
      repository.db == db && processor.Wired(db) && processor.metrics == metrics
    }

    constructor (repository: WebhookEventRepository, processor: PaymentProcessor, metrics: Metrics)
      ensures this.repository == repository && this.processor == processor && this.metrics == metrics
    {
      this.repository := repository;
      this.processor := processor;
      this.metrics := metrics;
    }

    method Process(e: PaymentEvent, env: Env, ghost db: Database) returns (answer: Answer)
      requires Wired(db)
      modifies db, metrics
      ensures var d := Deliver(old(db.Contents()), Delivery(e, Seen(env, processor.anomalyRecorder != null)));
              && db.Contents() == d.tables
              && answer == d.answer
              && metrics.counters == CountDelivered(old(metrics.counters), processor.anomalyRecorder != null, d)
    {
      var inserted := repository.Insert(e, env.skip, env.insert);
      if inserted.Failure? {
        if inserted.error.DuplicateProviderEventID? {
          metrics.IncWebhookDuplicate();
          return Duplicate;
        }
        return InternalError;
      }
      var outcome := processor.Process(e, inserted.value, env, db);
      if outcome.ProcessingFailed? {
        return InternalError;
      }
      return Processed;
    }
  }

  /** The counters the service moves for one delivery. */
  function CountDelivered(c: Counters, recorder: bool, d: Delivered): Counters {
    match d.outcome
    case None => if d.answer.Duplicate? then c.(duplicates := c.duplicates + 1) else c
    case Some(o) => CountUpdate(c, recorder, o)
  }
}
