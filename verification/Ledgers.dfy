/**
  The tables without their surrogate ids, and what a delivery does to them. Ids never
  decide anything: deliveries on tables refine deliveries on ledgers.
 */
module Ledgers {
  import opened Options
  import opened Webhook
  import opened Tables
  import opened Processing

  datatype Ledger = Ledger(
    events: map<string, EventColumns>,
    payments: map<string, Payment>,
    anomalies: seq<AnomalyColumns>)

  function EventsWithoutIDs(events: map<string, EventRow>): map<string, EventColumns> {
    map pid | pid in events :: events[pid].columns
  }

  function AnomaliesWithoutIDs(rows: seq<AnomalyRow>): seq<AnomalyColumns> {
    seq(|rows|, i requires 0 <= i < |rows| => rows[i].columns)
  }

  function LedgerOf(t: Tables): Ledger {
    Ledger(EventsWithoutIDs(t.events), t.payments, AnomaliesWithoutIDs(t.anomalies))
  }

  function AnomaliesRaised(current: Payment, e: PaymentEvent): seq<AnomalyColumns>
    requires !Accepts(Some(current), e)
  {
    match AnomalyOf(ReasonToIgnore(current, e))
    case None => []
    case Some(kind) => [AnomalyColumnsFor(current, e, kind)]
  }

  /** Decide on the payment's row, then overwrite it or note an anomaly. */
  function Apply(l: Ledger, e: PaymentEvent, env: Env): Ledger {
    var current := Lookup(l.payments, e.paymentID);
    if Accepts(current, e) then
      if env.upsert.Rejected? then l
      else l.(payments := l.payments[e.paymentID := PaymentFromEvent(e)])
    else if env.record.Rejected? then l
    else l.(anomalies := l.anomalies + AnomaliesRaised(current.value, e))
  }

  /** The delivery gets as far as deciding, provided its event is new. */
  predicate Decides(env: Env) {
    env.insert.Acked? && env.get.Acked?
  }

  function Store(l: Ledger, e: PaymentEvent): Ledger {
    l.(events := l.events[e.providerEventID := ColumnsOf(e)])
  }

  function Post(l: Ledger, d: Delivery): Ledger {
    if d.env.insert.Rejected? || d.event.providerEventID in l.events then l
    else if Decides(d.env) then Apply(Store(l, d.event), d.event, d.env)
    else Store(l, d.event)
  }

  function PostAll(l: Ledger, ds: seq<Delivery>): Ledger {
    if ds == [] then l else Post(PostAll(l, ds[..|ds| - 1]), ds[|ds| - 1])
  }

  /** What became of the payment update; None when the dedup gate stopped the delivery. */
  function OutcomeOf(l: Ledger, d: Delivery): Option<Outcome> {
    if !d.env.insert.Acked? || d.event.providerEventID in l.events then None
    else if !d.env.get.Acked? then Some(ProcessingFailed)
    else
      var current := Lookup(l.payments, d.event.paymentID);
      if !Accepts(current, d.event) then Some(Ignored(ReasonToIgnore(current.value, d.event)))
      else if !d.env.upsert.Acked? then Some(ProcessingFailed)
      else Some(if current.None? then Created else Updated)
  }

  function AnswerOf(l: Ledger, d: Delivery): Answer {
    if d.env.insert.Acked? && d.event.providerEventID in l.events then Duplicate
    else match OutcomeOf(l, d)
         case None => InternalError
         case Some(o) => if o.ProcessingFailed? then InternalError else Processed
  }

  lemma InsertRefinesStore(t: Tables, e: PaymentEvent, skip: nat, reply: Reply)
    ensures LedgerOf(InsertEvent(t, e, skip, reply).0) ==
            if reply.Rejected? || e.providerEventID in t.events then LedgerOf(t) else Store(LedgerOf(t), e)
  {
    var t' := InsertEvent(t, e, skip, reply).0;
    assert EventsWithoutIDs(t'.events) ==
           if reply.Rejected? || e.providerEventID in t.events then EventsWithoutIDs(t.events)
           else EventsWithoutIDs(t.events)[e.providerEventID := ColumnsOf(e)];
  }

  /** Recording an anomaly of an existing event and payment appends it, whatever the event's id. */
  lemma RecordRefinesAppend(t: Tables, a: Anomaly, reply: Reply)
    requires ForeignKeysHold(t, a)
    ensures LedgerOf(RecordAll(t, [a], reply)) ==
            if reply.Rejected? then LedgerOf(t)
            else LedgerOf(t).(anomalies := LedgerOf(t).anomalies + [a.columns])
  {
    assert [a][..0] == [];
    assert RecordAll(t, [a][..0], reply) == t;
    assert RecordAll(t, [a], reply) == RecordAnomaly(t, a, reply);
  }

  lemma UpdateRefinesApply(t: Tables, e: PaymentEvent, id: int, env: Env)
    requires env.get.Acked? && e.providerEventID in t.events && t.events[e.providerEventID].id == id
    ensures LedgerOf(ProcessUpdate(t, e, id, env).0) == Apply(LedgerOf(t), e, env)
  {
    var current := Lookup(t.payments, e.paymentID);
    if !Accepts(current, e) && AnomalyOf(ReasonToIgnore(current.value, e)).Some? {
      var kind := AnomalyOf(ReasonToIgnore(current.value, e)).value;
      RecordRefinesAppend(t, Anomaly(id, AnomalyColumnsFor(current.value, e, kind)), env.record);
    }
  }

  /** Deliveries do the same to the tables as to the ledger, whatever ids the sequence hands out. */
  lemma DeliverRefinesPost(t: Tables, d: Delivery)
    ensures LedgerOf(Deliver(t, d).tables) == Post(LedgerOf(t), d)
    ensures Deliver(t, d).answer == AnswerOf(LedgerOf(t), d)
    ensures Deliver(t, d).outcome == OutcomeOf(LedgerOf(t), d)
  {
    InsertRefinesStore(t, d.event, d.env.skip, d.env.insert);
    var (t', inserted) := InsertEvent(t, d.event, d.env.skip, d.env.insert);
    if inserted.Success? && d.env.get.Acked? {
      UpdateRefinesApply(t', d.event, inserted.value, d.env);
    }
  }

  lemma {:induction false} DeliverAllRefinesPostAll(t: Tables, ds: seq<Delivery>)
    ensures LedgerOf(DeliverAll(t, ds)) == PostAll(LedgerOf(t), ds)
  {
    if ds != [] {
      var init := ds[..|ds| - 1];
      DeliverAllRefinesPostAll(t, init);
      DeliverRefinesPost(DeliverAll(t, init), ds[|ds| - 1]);
    }
  }

  lemma {:induction false} PostAllAppend(l: Ledger, ds: seq<Delivery>, more: seq<Delivery>)
    ensures PostAll(l, ds + more) == PostAll(PostAll(l, ds), more)
  {
    if more == [] {
      assert ds + more == ds;
    } else {
      assert (ds + more)[..|ds + more| - 1] == ds + more[..|more| - 1];
      PostAllAppend(l, ds, more[..|more| - 1]);
    }
  }
}
