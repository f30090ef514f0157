/**
  What one parsed request is answered, leaves in the tables and adds to the counters, told from
  its event, the tables it finds and the replies of its statements alone.
 */
module RequestLaws {
  import opened Options
  import opened Webhook
  import opened Tables
  import opened Transitions
  import opened Processing
  import opened Counting
  import opened Service
  import opened Handler
  import opened Ledgers

  /** The request is a signed POST whose body parses to this event. */
  predicate Carries(cfg: Config, req: Request, e: PaymentEvent) {
    && req.httpMethod == "POST"
    && req.body.Some?
    && cfg.validSignature(req.body.value, req.signature, cfg.secret)
    && ParseEvent(req.body.value, cfg.decode, cfg.readTime) == Success(e)
  }

  predicate IsStored(t: Tables, e: PaymentEvent) {
    e.providerEventID in t.events
  }

  /** The payment has no row, or an older one with an edge to the event's status. */
  predicate MayReplace(t: Tables, e: PaymentEvent) {
    e.paymentID in t.payments ==>
      && t.payments[e.paymentID].timestamp < e.timestamp
      && IsTransitionAllowed(t.payments[e.paymentID].status, e.paymentStatus)
  }

  /** The event is new, its insert is acknowledged, and the payment's row is read. */
  predicate Reads(t: Tables, e: PaymentEvent, env: Env) {
    env.insert.Acked? && !IsStored(t, e) && env.get.Acked?
  }

  /** Every parsed request is answered in one of three ways, and exactly in these cases. */
  lemma AnswersExactly(cfg: Config, t: Tables, c: Counters, recorder: bool, req: Request, env: Env, e: PaymentEvent)
    requires Carries(cfg, req, e)
    ensures var response := Serve(t, c, recorder, Receive(cfg, req), env).response;
            && (response == Response(200, "duplicate") <==> env.insert.Acked? && IsStored(t, e))
            && (response == Response(500, "internal_error") <==>
                || !env.insert.Acked?
                || (!IsStored(t, e) && (!env.get.Acked? || (MayReplace(t, e) && !env.upsert.Acked?))))
            && (response == Response(200, "processed") <==>
                Reads(t, e, env) && (MayReplace(t, e) ==> env.upsert.Acked?))
  {
    DeliverRefinesPost(t, Delivery(e, Seen(env, recorder)));
  }

  /** All columns of the stored event, the payment's row, and the anomaly, but for surrogate ids. */
  lemma StoresExactly(cfg: Config, t: Tables, c: Counters, recorder: bool, req: Request, env: Env, e: PaymentEvent)
    requires Carries(cfg, req, e)
    ensures var before, after := LedgerOf(t), LedgerOf(Serve(t, c, recorder, Receive(cfg, req), env).tables);
            && after.events ==
               (if env.insert.Rejected? || IsStored(t, e) then before.events
                else before.events[e.providerEventID :=
                       EventColumns(e.paymentID, e.eventType, e.timestamp, req.body.value, "pending")])
            && after.payments ==
               (if Reads(t, e, env) && MayReplace(t, e) && !env.upsert.Rejected?
                then t.payments[e.paymentID := Payment(e.paymentID, e.paymentStatus, e.timestamp)]
                else t.payments)
            && after.anomalies ==
               before.anomalies + (if Reads(t, e, env) && recorder && !env.record.Rejected? then Raised(t, e) else [])
  {
    DeliverRefinesPost(t, Delivery(e, Seen(env, recorder)));
  }

  /** A stale event quotes the row it came too late for; a later one the row it may not follow. */
  function Raised(t: Tables, e: PaymentEvent): seq<AnomalyColumns> {
    if e.paymentID !in t.payments then []
    else
      var row := t.payments[e.paymentID];
      var details := AnomalyDetails(e.providerEventID, row.status, row.timestamp, e.paymentStatus, e.timestamp);
      if e.timestamp < row.timestamp then [AnomalyColumns(e.paymentID, StaleEvent, details)]
      else if e.timestamp > row.timestamp && !IsTransitionAllowed(row.status, e.paymentStatus)
      then [AnomalyColumns(e.paymentID, InvalidTerminalTransition, details)]
      else []
  }

  function One(happens: bool): nat {
    if happens then 1 else 0
  }

  predicate IsDuplicate(t: Tables, e: PaymentEvent, env: Env) {
    env.insert.Acked? && IsStored(t, e)
  }

  /** The update is invoked, but its read or its upsert fails. */
  predicate UpdateFails(t: Tables, e: PaymentEvent, env: Env) {
    env.insert.Acked? && !IsStored(t, e) && (!env.get.Acked? || (MayReplace(t, e) && !env.upsert.Acked?))
  }

  /** The request and response counters, each by what it rises. */
  lemma CountsAnswers(cfg: Config, t: Tables, c: Counters, recorder: bool, req: Request, env: Env, e: PaymentEvent)
    requires Carries(cfg, req, e)
    ensures var c' := Serve(t, c, recorder, Receive(cfg, req), env).counters;
            && c'.requests == c.requests + 1
            && c'.providerEvents == c.providerEvents + 1
            && CountsAnswer(t, c, c', e, env)
  {
    var d := Delivery(e, Seen(env, recorder));
    DeliverRefinesPost(t, d);
    AnswersCounted(t, CountArrival(c, Valid(e)), recorder, d);
  }

  predicate CountsAnswer(t: Tables, c: Counters, c': Counters, e: PaymentEvent, env: Env) {
    var duplicate, failed := IsDuplicate(t, e, env), UpdateFails(t, e, env);
    && c'.methodNotAllowed == c.methodNotAllowed
    && c'.invalidPayload == c.invalidPayload
    && c'.unauthorized == c.unauthorized
    && c'.signatureFailures == c.signatureFailures
    && c'.duplicates == c.duplicates + One(duplicate)
    && c'.successDuplicate == c.successDuplicate + One(duplicate)
    && c'.internalError == c.internalError + One(failed || !env.insert.Acked?)
    && c'.successProcessed == c.successProcessed + One(env.insert.Acked? && !duplicate && !failed)
  }

  lemma AnswersCounted(t: Tables, c: Counters, recorder: bool, d: Delivery)
    requires Deliver(t, d).outcome == OutcomeOf(LedgerOf(t), d) && Deliver(t, d).answer == AnswerOf(LedgerOf(t), d)
    ensures var delivered := Deliver(t, d);
            var c' := CountAnswer(CountDelivered(c, recorder, delivered), delivered.answer);
            && CountsAnswer(t, c, c', d.event, d.env)
            && c'.requests == c.requests && c'.providerEvents == c.providerEvents
  {
  }

  /** The counters of payment updates, each by what it rises. */
  lemma CountsOutcomes(cfg: Config, t: Tables, c: Counters, recorder: bool, req: Request, env: Env, e: PaymentEvent)
    requires Carries(cfg, req, e)
    ensures var c' := Serve(t, c, recorder, Receive(cfg, req), env).counters;
            CountsUpdate(t, c, c', recorder, e, env)
  {
    var d := Delivery(e, Seen(env, recorder));
    DeliverRefinesPost(t, d);
    OutcomesCounted(t, CountArrival(c, Valid(e)), recorder, d);
  }

  predicate CountsUpdate(t: Tables, c: Counters, c': Counters, recorder: bool, e: PaymentEvent, env: Env) {
    var isRead, known := Reads(t, e, env), e.paymentID in t.payments;
    var older := known && e.timestamp < t.payments[e.paymentID].timestamp;
    var equal := known && e.timestamp == t.payments[e.paymentID].timestamp;
    var invalid := !MayReplace(t, e) && !older && !equal;
    && c'.created == c.created + One(isRead && !known && env.upsert.Acked?)
    && c'.updated == c.updated + One(isRead && known && MayReplace(t, e) && env.upsert.Acked?)
    && c'.failed == c.failed + One(UpdateFails(t, e, env))
    && c'.ignored == c.ignored + One(isRead && !MayReplace(t, e))
    && c'.ignoredOlder == c.ignoredOlder + One(isRead && older)
    && c'.ignoredEqual == c.ignoredEqual + One(isRead && equal)
    && c'.ignoredInvalid == c.ignoredInvalid + One(isRead && invalid)
    && c'.staleAnomalies == c.staleAnomalies + One(recorder && isRead && older)
    && c'.invalidAnomalies == c.invalidAnomalies + One(recorder && isRead && invalid)
  }

  lemma OutcomesCounted(t: Tables, c: Counters, recorder: bool, d: Delivery)
    requires Deliver(t, d).outcome == OutcomeOf(LedgerOf(t), d)
    ensures CountsUpdate(t, c, CountDelivered(c, recorder, Deliver(t, d)), recorder, d.event, d.env)
  {
  }

  /** A clean request with a new, acceptable event: processed, stored, and the payment's row is the event's. */
  lemma CleanRequestIsApplied(cfg: Config, t: Tables, c: Counters, recorder: bool, req: Request, e: PaymentEvent)
    requires Carries(cfg, req, e) && !IsStored(t, e) && MayReplace(t, e)
    ensures var s := Serve(t, c, recorder, Receive(cfg, req), NO_FAILURES);
            && s.response == Response(200, "processed")
            && e.providerEventID in s.tables.events
            && s.tables.events[e.providerEventID].columns.rawPayload == req.body.value
            && e.paymentID in s.tables.payments
            && s.tables.payments[e.paymentID] == Payment(e.paymentID, e.paymentStatus, e.timestamp)
  {
    var s := Serve(t, c, recorder, Receive(cfg, req), NO_FAILURES);
    AnswersExactly(cfg, t, c, recorder, req, NO_FAILURES, e);
    StoresExactly(cfg, t, c, recorder, req, NO_FAILURES, e);
    assert e.providerEventID in LedgerOf(s.tables).events;
  }

  /* ---- Counters of serial runs ---- */

  function CountAll(t: Tables, c: Counters, recorder: bool, ds: seq<Delivery>): Counters {
    if ds == [] then c
    else
      var init, d := ds[..|ds| - 1], ds[|ds| - 1];
      CountDelivered(CountAll(t, c, recorder, init), recorder, Deliver(DeliverAll(t, init), d))
  }

  /** The delivery makes the payment's first row, but the reply to that upsert is lost. */
  predicate LosesCreation(t: Tables, d: Delivery) {
    Reads(t, d.event, d.env) && d.event.paymentID !in t.payments && d.env.upsert.AckLost?
  }

  function LostCreations(t: Tables, ds: seq<Delivery>): nat {
    if ds == [] then 0
    else
      var init, d := ds[..|ds| - 1], ds[|ds| - 1];
      LostCreations(t, init) + One(LosesCreation(DeliverAll(t, init), d))
  }

  /**
    Every new payment row is counted as created, unless the reply to its upsert is lost: over any
    serial run the counter and the table grow alike exactly when none is.
   */
  lemma {:induction false} CreatedCountsRows(t: Tables, c: Counters, recorder: bool, ds: seq<Delivery>)
    ensures |DeliverAll(t, ds).payments| + c.created ==
            |t.payments| + CountAll(t, c, recorder, ds).created + LostCreations(t, ds)
    ensures CountAll(t, c, recorder, ds).created - c.created == |DeliverAll(t, ds).payments| - |t.payments| <==>
            LostCreations(t, ds) == 0
  {
    if ds != [] {
      var init, d := ds[..|ds| - 1], ds[|ds| - 1];
      CreatedCountsRows(t, c, recorder, init);
      CreatedByOne(DeliverAll(t, init), CountAll(t, c, recorder, init), recorder, d);
    }
  }

  lemma CreatedByOne(t: Tables, c: Counters, recorder: bool, d: Delivery)
    ensures |Deliver(t, d).tables.payments| + c.created ==
            |t.payments| + CountDelivered(c, recorder, Deliver(t, d)).created + One(LosesCreation(t, d))
  {
    var e := d.event;
    DeliverRefinesPost(t, d);
    var after := Deliver(t, d).tables.payments;
    assert after == LedgerOf(Deliver(t, d).tables).payments;
    if Reads(t, e, d.env) && MayReplace(t, e) && !d.env.upsert.Rejected? {
      assert after == t.payments[e.paymentID := PaymentFromEvent(e)];
      GrowsByNewKey(t.payments, e.paymentID, PaymentFromEvent(e));
    } else {
      assert after == t.payments;
    }
  }

  lemma GrowsByNewKey(m: map<string, Payment>, k: string, v: Payment)
    ensures |m[k := v]| == |m| + One(k !in m)
  {
    var grown := m[k := v];
    assert grown.Keys == m.Keys + {k};
    assert |grown.Keys| == |grown| && |m.Keys| == |m|;
  }
}
