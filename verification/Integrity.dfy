/**
  What every schedule keeps of the tables: fresh ids, payment rows backed by stored events,
  anomalies that tell the truth, and foreign keys that never stop an anomaly.
 */
module Integrity {
  import opened Options
  import opened Webhook
  import opened Tables
  import opened Transitions
  import opened Processing
  import Counting
  import opened Interleavings

  /** Ids are positive, drawn from the sequence, and unique. */
  ghost predicate IDsFresh(t: Tables) {
    && t.lastEventID >= 0
    && (forall pid | pid in t.events :: 0 < t.events[pid].id <= t.lastEventID)
    && (forall p, q | p in t.events && q in t.events && p != q :: t.events[p].id != t.events[q].id)
  }

  /** The row says what the stored event says. */
  predicate Backs(columns: EventColumns, row: Payment) {
    && columns.paymentID == row.paymentID
    && columns.timestamp == row.timestamp
    && StatusOfEventType(columns.eventType) == Some(row.status)
  }

  ghost predicate PaymentsBacked(t: Tables) {
    forall p | p in t.payments ::
      t.payments[p].paymentID == p && exists pid | pid in t.events :: Backs(t.events[pid].columns, t.payments[p])
  }

  /** Stale exactly when the incoming timestamp is older; otherwise newer, along no edge. */
  predicate Justified(a: AnomalyColumns) {
    var d := a.details;
    if a.anomalyType.StaleEvent? then d.incomingTimestamp < d.currentTimestamp
    else d.incomingTimestamp > d.currentTimestamp && !IsTransitionAllowed(d.currentStatus, d.incomingStatus)
  }

  /** Both foreign keys are set and point at the event named in the details and its payment. */
  ghost predicate AnomalyTruthful(t: Tables, row: AnomalyRow) {
    var a := row.columns;
    && a.details.providerEventID in t.events
    && var stored := t.events[a.details.providerEventID];
       && row.webhookEventID == Some(stored.id)
       && Backs(stored.columns, Payment(a.paymentID, a.details.incomingStatus, a.details.incomingTimestamp))
       && a.paymentID in t.payments
       && Justified(a)
  }

  ghost predicate NoAnomalyFor(t: Tables, pid: string) {
    forall k | 0 <= k < |t.anomalies| :: t.anomalies[k].columns.details.providerEventID != pid
  }

  ghost predicate AnomaliesTruthful(t: Tables) {
    && (forall k | 0 <= k < |t.anomalies| :: AnomalyTruthful(t, t.anomalies[k]))
    && (forall j, k | 0 <= j < k < |t.anomalies| ::
          t.anomalies[j].columns.details.providerEventID != t.anomalies[k].columns.details.providerEventID)
  }

  ghost predicate TablesSound(t: Tables) {
    IDsFresh(t) && PaymentsBacked(t) && AnomaliesTruthful(t)
  }

  ghost predicate HasRow(t: Tables, e: PaymentEvent) {
    && e.providerEventID in t.events
    && t.events[e.providerEventID].columns == ColumnsOf(e)
    && StatusOfEventType(t.events[e.providerEventID].columns.eventType) == Some(e.paymentStatus)
  }

  ghost predicate ThreadSound(t: Tables, th: Thread) {
    match th
    case Arriving(a) => a.Valid? ==> a.event.WellFormed()
    case AtInsert(e) => e.WellFormed()
    case AtGet(e, id) => HasRow(t, e) && t.events[e.providerEventID].id == id && NoAnomalyFor(t, e.providerEventID)
    case AtRecord(e, a, _) =>
      && HasRow(t, e) && NoAnomalyFor(t, e.providerEventID)
      && a.columns.details.providerEventID == e.providerEventID
      && AnomalyTruthful(t, AnomalyRow(Some(a.webhookEventID), a.columns))
    case AtUpsert(e, seen) => HasRow(t, e) && Accepts(seen, e)
    case _ => true
  }

  ghost predicate BusyDistinct(ts: seq<Thread>) {
    forall i, j | 0 <= i < j < |ts| && ts[i].Busy() && ts[j].Busy() ::
      ts[i].event.providerEventID != ts[j].event.providerEventID
  }

  ghost predicate Sound(s: System) {
    && TablesSound(s.tables)
    && BusyDistinct(s.threads)
    && forall i | 0 <= i < |s.threads| :: ThreadSound(s.tables, s.threads[i])
  }

  /** All that a step may do to the tables: add rows, and overwrite payments. */
  ghost predicate Grows(t: Tables, t': Tables) {
    && (forall pid | pid in t.events :: pid in t'.events && t'.events[pid] == t.events[pid])
    && t.payments.Keys <= t'.payments.Keys
    && t.anomalies <= t'.anomalies
    && t.lastEventID <= t'.lastEventID
  }

  /** Another handler's claims survive, unless the new anomaly is about its own event. */
  lemma ThreadStaysSound(t: Tables, t': Tables, th: Thread)
    requires Grows(t, t') && ThreadSound(t, th)
    requires th.Busy() ==> forall k | |t.anomalies| <= k < |t'.anomalies| ::
               t'.anomalies[k].columns.details.providerEventID != th.event.providerEventID
    ensures ThreadSound(t', th)
  {
  }

  lemma InsertKeepsTables(t: Tables, e: PaymentEvent, skip: nat, reply: Reply)
    requires TablesSound(t)
    ensures TablesSound(InsertEvent(t, e, skip, reply).0) && Grows(t, InsertEvent(t, e, skip, reply).0)
  {
    var t' := InsertEvent(t, e, skip, reply).0;
    assert IDsFresh(t') && Grows(t, t');
    MoreEventsKeepRest(t, t');
  }

  lemma MoreEventsKeepRest(t: Tables, t': Tables)
    requires PaymentsBacked(t) && AnomaliesTruthful(t) && Grows(t, t')
    requires t'.payments == t.payments && t'.anomalies == t.anomalies
    ensures PaymentsBacked(t') && AnomaliesTruthful(t')
  {
    forall p | p in t'.payments
      ensures t'.payments[p].paymentID == p
              && exists pid | pid in t'.events :: Backs(t'.events[pid].columns, t'.payments[p])
    {
      var pid :| pid in t.events && Backs(t.events[pid].columns, t.payments[p]);
      assert pid in t'.events;
    }
    forall k | 0 <= k < |t'.anomalies| ensures AnomalyTruthful(t', t'.anomalies[k]) {
      assert AnomalyTruthful(t, t.anomalies[k]);
    }
  }

  lemma UpsertKeepsTables(t: Tables, e: PaymentEvent, reply: Reply)
    requires TablesSound(t) && HasRow(t, e)
    ensures TablesSound(UpsertPayment(t, PaymentFromEvent(e), reply))
    ensures Grows(t, UpsertPayment(t, PaymentFromEvent(e), reply))
  {
    var t' := UpsertPayment(t, PaymentFromEvent(e), reply);
    assert Backs(t.events[e.providerEventID].columns, PaymentFromEvent(e));
    assert PaymentsBacked(t');
    assert forall k | 0 <= k < |t.anomalies| ::
          AnomalyTruthful(t, t.anomalies[k]) ==> AnomalyTruthful(t', t'.anomalies[k]);
  }

  /** No foreign key refuses the row, and its event id is never null. */
  lemma RecordKeepsTables(t: Tables, a: Anomaly, reply: Reply)
    requires TablesSound(t)
    requires AnomalyTruthful(t, AnomalyRow(Some(a.webhookEventID), a.columns))
    requires NoAnomalyFor(t, a.columns.details.providerEventID)
    ensures ForeignKeysHold(t, a) && NullableWebhookEventID(a.webhookEventID) == Some(a.webhookEventID)
    ensures TablesSound(RecordAnomaly(t, a, reply)) && Grows(t, RecordAnomaly(t, a, reply))
    ensures RecordAnomaly(t, a, reply) ==
            if reply.Rejected? then t
            else t.(anomalies := t.anomalies + [AnomalyRow(Some(a.webhookEventID), a.columns)])
  {
    assert t.events[a.columns.details.providerEventID].id == a.webhookEventID;
    if !reply.Rejected? {
      var row := AnomalyRow(Some(a.webhookEventID), a.columns);
      assert RecordAnomaly(t, a, reply) == t.(anomalies := t.anomalies + [row]);
      AppendedAnomaly(t, row);
    }
  }

  lemma AppendedAnomaly(t: Tables, row: AnomalyRow)
    requires TablesSound(t) && AnomalyTruthful(t, row) && NoAnomalyFor(t, row.columns.details.providerEventID)
    ensures TablesSound(t.(anomalies := t.anomalies + [row])) && Grows(t, t.(anomalies := t.anomalies + [row]))
  {
    var t' := t.(anomalies := t.anomalies + [row]);
    forall k | 0 <= k < |t'.anomalies| ensures AnomalyTruthful(t', t'.anomalies[k]) {
      assert AnomalyTruthful(t, t'.anomalies[k]);
    }
    assert PaymentsBacked(t');
  }

  /** One handler's step: the tables stay sound and grow, its own claims hold, and it steps on no one else's. */
  ghost predicate SoundAdvance(t: Tables, th: Thread, next: Local) {
    && TablesSound(next.tables)
    && Grows(t, next.tables)
    && ThreadSound(next.tables, next.thread)
    && (next.thread.Busy() ==>
          if th.Busy() then next.thread.event == th.event
          else th.AtInsert? && next.thread.event == th.event && th.event.providerEventID !in t.events)
    && (forall k | |t.anomalies| <= k < |next.tables.anomalies| ::
          th.Busy() && next.tables.anomalies[k].columns.details.providerEventID == th.event.providerEventID)
  }

  /** A step that writes nothing need only leave its own handler with true claims. */
  lemma NothingWritten(t: Tables, th: Thread, next: Local)
    requires TablesSound(t) && next.tables == t && ThreadSound(t, next.thread)
    requires next.thread.Busy() ==> th.Busy() && next.thread.event == th.event
    ensures SoundAdvance(t, th, next)
  {
  }

  /** Only a fresh insert lets the handler pass the gate. */
  lemma InsertAdvance(t: Tables, c: Counting.Counters, recorder: bool, e: PaymentEvent, env: Env)
    ensures var next, (t', r) := Advance(t, c, recorder, AtInsert(e), env), InsertEvent(t, e, env.skip, env.insert);
            && next.tables == t' && t'.anomalies == t.anomalies
            && (next.thread.Busy() ==>
                  env.insert.Acked? && e.providerEventID !in t.events && r.Success? && next.thread == AtGet(e, r.value))
            && (!next.thread.Busy() ==> next.thread.AtRespond?)
  {
  }

  lemma InsertIsSound(s: System, th: Thread, env: Env)
    requires th.AtInsert?
    requires TablesSound(s.tables) && ThreadSound(s.tables, th)
    ensures SoundAdvance(s.tables, th, Advance(s.tables, s.counters, s.recorder, th, env))
  {
    var t, e := s.tables, th.event;
    InsertKeepsTables(t, e, env.skip, env.insert);
    InsertAdvance(t, s.counters, s.recorder, e, env);
    if Advance(t, s.counters, s.recorder, th, env).thread.Busy() {
      NewEventHasRow(t, e, env.skip);
    }
  }

  lemma NewEventHasRow(t: Tables, e: PaymentEvent, skip: nat)
    requires TablesSound(t) && e.WellFormed() && e.providerEventID !in t.events
    ensures var (t', r) := InsertEvent(t, e, skip, Acked);
            && r.Success? && HasRow(t', e) && t'.events[e.providerEventID].id == r.value
            && NoAnomalyFor(t', e.providerEventID)
  {
    forall k | 0 <= k < |t.anomalies| ensures t.anomalies[k].columns.details.providerEventID != e.providerEventID {
      assert AnomalyTruthful(t, t.anomalies[k]);
    }
  }

  lemma GetIsSound(s: System, th: Thread, env: Env)
    requires th.AtGet?
    requires TablesSound(s.tables) && ThreadSound(s.tables, th)
    ensures SoundAdvance(s.tables, th, Advance(s.tables, s.counters, s.recorder, th, env))
  {
    var next := Advance(s.tables, s.counters, s.recorder, th, env);
    if next.thread.AtRecord? {
      QuoteIsTruthful(s.tables, th.event, th.id);
    }
    NothingWritten(s.tables, th, next);
  }

  lemma QuoteIsTruthful(t: Tables, e: PaymentEvent, id: int)
    requires HasRow(t, e) && t.events[e.providerEventID].id == id
    requires e.paymentID in t.payments && !Accepts(Some(t.payments[e.paymentID]), e)
    requires AnomalyOf(ReasonToIgnore(t.payments[e.paymentID], e)).Some?
    ensures var current := t.payments[e.paymentID];
            var kind := AnomalyOf(ReasonToIgnore(current, e)).value;
            AnomalyTruthful(t, AnomalyRow(Some(id), AnomalyColumnsFor(current, e, kind)))
  {
  }

  lemma RecordIsSound(s: System, th: Thread, env: Env)
    requires th.AtRecord?
    requires TablesSound(s.tables) && ThreadSound(s.tables, th)
    ensures SoundAdvance(s.tables, th, Advance(s.tables, s.counters, s.recorder, th, env))
  {
    if s.recorder && !env.record.Rejected? {
      RecordKeepsTables(s.tables, th.anomaly, env.record);
      RecordedIsSound(s.tables, th, Advance(s.tables, s.counters, s.recorder, th, env));
    } else {
      NothingWritten(s.tables, th, Advance(s.tables, s.counters, s.recorder, th, env));
    }
  }

  lemma RecordedIsSound(t: Tables, th: Thread, next: Local)
    requires th.AtRecord? && th.anomaly.columns.details.providerEventID == th.event.providerEventID
    requires next.tables == t.(anomalies :=
               t.anomalies + [AnomalyRow(Some(th.anomaly.webhookEventID), th.anomaly.columns)])
    requires TablesSound(next.tables) && Grows(t, next.tables) && next.thread.AtRespond?
    ensures SoundAdvance(t, th, next)
  {
    assert next.tables.anomalies[|t.anomalies|].columns == th.anomaly.columns;
  }

  lemma UpsertIsSound(s: System, th: Thread, env: Env)
    requires th.AtUpsert?
    requires TablesSound(s.tables) && ThreadSound(s.tables, th)
    ensures SoundAdvance(s.tables, th, Advance(s.tables, s.counters, s.recorder, th, env))
  {
    UpsertKeepsTables(s.tables, th.event, env.upsert);
  }

  lemma AdvanceIsSound(s: System, th: Thread, env: Env)
    requires TablesSound(s.tables) && ThreadSound(s.tables, th)
    ensures SoundAdvance(s.tables, th, Advance(s.tables, s.counters, s.recorder, th, env))
  {
    match th
    case AtInsert(_) => InsertIsSound(s, th, env);
    case AtGet(_, _) => GetIsSound(s, th, env);
    case AtRecord(_, _, _) => RecordIsSound(s, th, env);
    case AtUpsert(_, _) => UpsertIsSound(s, th, env);
    case _ =>
  }

  lemma StepIsSound(s: System, m: Move)
    requires Sound(s)
    ensures Sound(Step(s, m)) && Grows(s.tables, Step(s, m).tables)
  {
    var i, s' := m.thread, Step(s, m);
    if i < |s.threads| {
      AdvanceIsSound(s, s.threads[i], m.env);
      forall j | 0 <= j < |s.threads| && j != i ensures ThreadSound(s'.tables, s.threads[j]) {
        if s.threads[j].Busy() && s.threads[i].Busy() {
          assert s.threads[i].event.providerEventID != s.threads[j].event.providerEventID;
        }
        ThreadStaysSound(s.tables, s'.tables, s.threads[j]);
      }
      forall j | 0 <= j < |s.threads| && j != i && s'.threads[i].Busy() && s.threads[j].Busy()
        ensures s'.threads[i].event.providerEventID != s.threads[j].event.providerEventID
      {
        assert HasRow(s.tables, s.threads[j].event);
      }
    }
  }

  /** Every handler about to start carries an event from the parser. */
  ghost predicate StartsSound(s: System) {
    && AllArriving(s)
    && TablesSound(s.tables)
    && forall i | 0 <= i < |s.threads| :: ThreadSound(s.tables, s.threads[i])
  }

  /** Soundness holds in every state of every schedule, and tables only grow. */
  lemma {:induction false} AlwaysSound(s: System, moves: seq<Move>)
    requires StartsSound(s)
    ensures Sound(Run(s, moves))
    ensures Grows(s.tables, Run(s, moves).tables)
  {
    if moves != [] {
      AlwaysSound(s, moves[..|moves| - 1]);
      StepIsSound(Run(s, moves[..|moves| - 1]), moves[|moves| - 1]);
    }
  }

  /** A new database is sound. */
  lemma EmptyIsSound()
    ensures TablesSound(Tables(map[], map[], [], 0))
  {
  }

  /**
    Whenever a handler is about to record an anomaly, the insert carries the nonzero id of a
    stored event and the id of an existing payment, so it is refused only if its reply is.
   */
  lemma AnomalyInsertsAreNeverRefused(s: System, moves: seq<Move>, i: nat, reply: Reply)
    requires StartsSound(s)
    requires i < |Run(s, moves).threads| && Run(s, moves).threads[i].AtRecord?
    ensures var t, a := Run(s, moves).tables, Run(s, moves).threads[i].anomaly;
            && a.webhookEventID > 0
            && ForeignKeysHold(t, a)
            && RecordAnomaly(t, a, reply).anomalies ==
               if reply.Rejected? then t.anomalies else t.anomalies + [AnomalyRow(Some(a.webhookEventID), a.columns)]
  {
    AlwaysSound(s, moves);
    var here := Run(s, moves);
    RecordKeepsTables(here.tables, here.threads[i].anomaly, reply);
    assert ThreadSound(here.tables, here.threads[i]);
  }

  /* ---- The current row an anomaly quotes was really there ---- */

  /** At some point of the schedule the payment had this row. */
  ghost predicate EverStored(s: System, moves: seq<Move>, row: Payment) {
    exists k :: 0 <= k <= |moves| && RowAt(s, moves, k, row)
  }

  ghost predicate RowAt(s: System, moves: seq<Move>, k: nat, row: Payment)
    requires k <= |moves|
  {
    Lookup(Run(s, moves[..k]).tables.payments, row.paymentID) == Some(row)
  }

  function Quoted(a: AnomalyColumns): Payment {
    Payment(a.paymentID, a.details.currentStatus, a.details.currentTimestamp)
  }

  lemma StillEverStored(s: System, moves: seq<Move>, row: Payment)
    requires moves != [] && EverStored(s, moves[..|moves| - 1], row)
    ensures EverStored(s, moves, row)
  {
    var n := |moves| - 1;
    var k :| 0 <= k <= n && RowAt(s, moves[..n], k, row);
    assert moves[..n][..k] == moves[..k];
    assert RowAt(s, moves, k, row);
  }

  lemma StoredNow(s: System, moves: seq<Move>, row: Payment)
    requires Lookup(Run(s, moves).tables.payments, row.paymentID) == Some(row)
    ensures EverStored(s, moves, row)
  {
    assert moves[..|moves|] == moves;
    assert RowAt(s, moves, |moves|, row);
  }

  /** The current status and timestamp of each anomaly were stored for its payment earlier in the schedule. */
  lemma {:induction false} AnomaliesQuoteRealRows(s: System, moves: seq<Move>)
    requires StartsSound(s)
    ensures forall k | |s.tables.anomalies| <= k < |Run(s, moves).tables.anomalies| ::
              EverStored(s, moves, Quoted(Run(s, moves).tables.anomalies[k].columns))
    ensures forall i | 0 <= i < |Run(s, moves).threads| && Run(s, moves).threads[i].AtRecord? ::
              EverStored(s, moves, Quoted(Run(s, moves).threads[i].anomaly.columns))
  {
    if moves != [] {
      var n := |moves| - 1;
      var before, m := Run(s, moves[..n]), moves[n];
      AnomaliesQuoteRealRows(s, moves[..n]);
      AlwaysSound(s, moves[..n]);
      RecordedWasHeld(before, m);
      var after := Step(before, m);
      forall k | |s.tables.anomalies| <= k < |after.tables.anomalies|
        ensures EverStored(s, moves, Quoted(after.tables.anomalies[k].columns))
      {
        StillEverStored(s, moves, Quoted(after.tables.anomalies[k].columns));
      }
      forall i | 0 <= i < |after.threads| && after.threads[i].AtRecord?
        ensures EverStored(s, moves, Quoted(after.threads[i].anomaly.columns))
      {
        if i == m.thread {
          QuotedWasStored(s, moves[..n], m);
        }
        StillEverStored(s, moves, Quoted(after.threads[i].anomaly.columns));
      }
    }
  }

  /** A step quotes a row only when it has just read it. */
  lemma QuotedWasStored(s: System, init: seq<Move>, m: Move)
    requires Sound(Run(s, init)) && m.thread < |Run(s, init).threads|
    requires Step(Run(s, init), m).threads[m.thread].AtRecord?
    ensures EverStored(s, init, Quoted(Step(Run(s, init), m).threads[m.thread].anomaly.columns))
  {
    QuotedWasRead(Run(s, init), m);
    StoredNow(s, init, Quoted(Step(Run(s, init), m).threads[m.thread].anomaly.columns));
  }

  /** A step records only what its handler held. */
  lemma RecordedWasHeld(s: System, m: Move)
    ensures var after := Step(s, m);
            && |s.tables.anomalies| <= |after.tables.anomalies|
            && (forall k | |s.tables.anomalies| <= k < |after.tables.anomalies| ::
                  && m.thread < |s.threads| && s.threads[m.thread].AtRecord?
                  && after.tables.anomalies[k].columns == s.threads[m.thread].anomaly.columns)
            && (forall k | 0 <= k < |s.tables.anomalies| :: after.tables.anomalies[k] == s.tables.anomalies[k])
  {
  }

  lemma QuotedWasRead(s: System, m: Move)
    requires PaymentsBacked(s.tables) && m.thread < |s.threads|
    ensures var th, th' := s.threads[m.thread], Step(s, m).threads[m.thread];
            th'.AtRecord? ==>
              && th.AtGet?
              && Lookup(s.tables.payments, th.event.paymentID) == Some(Quoted(th'.anomaly.columns))
              && Quoted(th'.anomaly.columns).paymentID == th.event.paymentID
  {
  }
}
