/**
  From schedules to order independence: handlers of one payment's events may run at the same
  time, in any order and with any re-deliveries, and still agree on the row.
 */
module Convergence {
  import opened Options
  import opened Webhook
  import opened Tables
  import opened Processing
  import opened Ledgers
  import opened SerialRuns
  import opened StoredResolution
  import opened DeliveryOrder
  import opened Interleavings
  import opened Integrity
  import opened AtMostOnce
  import opened Serializability
  import opened CompleteOrder

  /** A schedule without failures has a serial order without failures. */
  lemma {:induction false} FailureFreeOrder(s: System, moves: seq<Move>)
    requires FailureFreeMoves(moves)
    ensures forall entry | entry in SerialOrder(s, moves) :: entry.delivery.env == NO_FAILURES
    ensures forall pid :: InsertsAcked(s, moves, pid)
  {
    if moves != [] {
      FailureFreeOrder(s, moves[..|moves| - 1]);
      assert moves[|moves| - 1] in moves;
    }
  }

  /** The events that the handlers were given for this payment. */
  ghost function BatchFor(starts: seq<Thread>, paymentID: string): set<PaymentEvent> {
    set i | 0 <= i < |starts| && Given(starts[i], paymentID) :: starts[i].arrival.event
  }

  predicate Given(start: Thread, paymentID: string) {
    start.Arriving? && start.arrival.Valid? && start.arrival.event.paymentID == paymentID
  }

  /** New events for a payment without a row; requests that share a provider event id carry the same event. */
  ghost predicate NewBatchArrives(s: System, paymentID: string) {
    && paymentID !in s.tables.payments
    && (forall e | e in BatchFor(s.threads, paymentID) :: e.providerEventID !in s.tables.events)
    && forall i, j | 0 <= i < |s.threads| && 0 <= j < |s.threads| :: Consistent(s.threads[i], s.threads[j])
  }

  predicate Consistent(x: Thread, y: Thread) {
    x.Arriving? && x.arrival.Valid? && y.Arriving? && y.arrival.Valid? ==>
      (x.arrival.event.providerEventID == y.arrival.event.providerEventID ==> x.arrival.event == y.arrival.event)
  }

  /* ---- One payment's part of a serial order ---- */

  ghost predicate DistinctIDs(ds: seq<Delivery>) {
    forall j, k | 0 <= j < k < |ds| :: ds[j].event.providerEventID != ds[k].event.providerEventID
  }

  /** Without failures, new and distinct events are all effective. */
  lemma {:induction false} AllEffective(stored: set<string>, ds: seq<Delivery>)
    requires DistinctIDs(ds)
    requires forall d | d in ds :: d.env == NO_FAILURES && d.event.providerEventID !in stored
    ensures Effective(stored, ds) == ds
  {
    if ds != [] {
      AllEffective(stored, ds[..|ds| - 1]);
      assert ds[|ds| - 1] in ds;
    }
  }

  lemma {:induction false} ForIs(paymentID: string, ds: seq<Delivery>)
    requires DistinctIDs(ds)
    ensures forall d :: d in For(paymentID, ds) <==> d in ds && d.event.paymentID == paymentID
    ensures DistinctIDs(For(paymentID, ds))
  {
    if ds != [] {
      var init, d := ds[..|ds| - 1], ds[|ds| - 1];
      ForIs(paymentID, init);
      assert ds == init + [d];
      forall x | x in init ensures x.event.providerEventID != d.event.providerEventID {
      }
    }
  }

  function EventsOf(ds: seq<Delivery>): seq<PaymentEvent> {
    seq(|ds|, i requires 0 <= i < |ds| => ds[i].event)
  }

  lemma {:induction false} RowAfterClean(ds: seq<Delivery>)
    requires forall d | d in ds :: d.env == NO_FAILURES
    ensures RowAfter(None, ds) == RowAfterAll(Exact, None, EventsOf(ds))
  {
    if ds != [] {
      var n := |ds| - 1;
      RowAfterClean(ds[..n]);
      assert EventsOf(ds)[..n] == EventsOf(ds[..n]);
      assert ds[n] in ds;
    }
  }

  /** The row that a clean serial order leaves is that of an order of the payment's events. */
  lemma RowOfCleanOrder(l: Ledger, ds: seq<Delivery>, paymentID: string)
    requires DistinctIDs(ds) && paymentID !in l.payments
    requires forall d | d in ds :: d.env == NO_FAILURES && d.event.providerEventID !in l.events
    ensures Lookup(PostAll(l, ds).payments, paymentID) == RowAfterAll(Exact, None, EventsOf(For(paymentID, ds)))
  {
    AllEffective(l.events.Keys, ds);
    Projection(l, ds, paymentID);
    ForIs(paymentID, ds);
    RowAfterClean(For(paymentID, ds));
  }

  predicate HasEvent(ds: seq<Delivery>, e: PaymentEvent) {
    exists k :: 0 <= k < |ds| && ds[k].event == e
  }

  lemma EventsOfAreOrder(ds: seq<Delivery>, batch: set<PaymentEvent>)
    requires DistinctIDs(ds)
    requires forall e :: e in batch <==> HasEvent(ds, e)
    ensures IsOrderOf(EventsOf(ds), batch)
  {
    var es := EventsOf(ds);
    forall e ensures e in es <==> e in batch {
      if e in batch {
        var k :| 0 <= k < |ds| && ds[k].event == e;
        assert es[k] == e;
      }
    }
    assert (set e | e in es) == batch;
    forall i, j | 0 <= i < j < |es| ensures es[i] != es[j] {
      assert ds[i].event.providerEventID != ds[j].event.providerEventID;
    }
  }

  /* ---- Which events take effect ---- */

  /** Each event of the batch has an entry, and each entry of the payment carries an event of the batch. */
  lemma BatchTakesEffect(s: System, moves: seq<Move>, paymentID: string)
    requires StartsSound(s) && ValidatedRun(s, moves) && AllDone(Run(s, moves)) && FailureFreeMoves(moves)
    requires NewBatchArrives(s, paymentID)
    ensures forall e :: e in BatchFor(s.threads, paymentID) <==>
                        HasEntry(SerialOrder(s, moves), e, paymentID)
  {
    var log := SerialOrder(s, moves);
    forall k | 0 <= k < |log| && log[k].delivery.event.paymentID == paymentID
      ensures log[k].delivery.event in BatchFor(s.threads, paymentID)
    {
      EntryIsGiven(s, moves, k);
    }
    forall e | e in BatchFor(s.threads, paymentID)
      ensures HasEntry(log, e, paymentID)
    {
      var i :| 0 <= i < |s.threads| && Given(s.threads[i], paymentID) && s.threads[i].arrival.event == e;
      var k := GivenHasEntry(s, moves, i);
      EntryIsGiven(s, moves, k);
      assert EntryOf(log[k], e, paymentID);
    }
  }

  predicate HasEntry(log: seq<Entry>, e: PaymentEvent, paymentID: string) {
    exists k :: 0 <= k < |log| && EntryOf(log[k], e, paymentID)
  }

  predicate EntryOf(entry: Entry, e: PaymentEvent, paymentID: string) {
    entry.delivery.event == e && e.paymentID == paymentID
  }

  /** What takes effect was given to some handler. */
  lemma {:induction false} EntryIsGiven(s: System, moves: seq<Move>, k: nat)
    requires AllArriving(s) && k < |SerialOrder(s, moves)|
    ensures EntryFits(s.threads, SerialOrder(s, moves)[k])
  {
    var n := |moves| - 1;
    if k < |SerialOrder(s, moves[..n])| {
      EntryIsGiven(s, moves[..n], k);
    } else {
      AlwaysAccounted(s, moves[..n]);
      var i := moves[n].thread;
      AdvanceIsAccounted(Run(s, moves[..n]), moves[n], s.threads[i],
                         Logged(TimedOrder(s, moves[..n]), i), AnsweredEarly(s, moves[..n], i));
    }
  }

  /** A new event given to a handler that ran to the end without failures takes effect. */
  lemma GivenHasEntry(s: System, moves: seq<Move>, i: nat) returns (k: nat)
    requires StartsSound(s) && ValidatedRun(s, moves) && AllDone(Run(s, moves)) && FailureFreeMoves(moves)
    requires i < |s.threads| && s.threads[i].arrival.Valid?
    requires s.threads[i].arrival.event.providerEventID !in s.tables.events
    ensures k < |SerialOrder(s, moves)|
    ensures SerialOrder(s, moves)[k].delivery.event.providerEventID == s.threads[i].arrival.event.providerEventID
  {
    var pid, log := s.threads[i].arrival.event.providerEventID, SerialOrder(s, moves);
    FailureFreeOrder(s, moves);
    StoredOncePast(s, moves, i);
    SerializableAtRest(s, moves);
    assert pid in LedgerOf(Run(s, moves).tables).events;
    DedupEquivalence(LedgerOf(s.tables), Deliveries(log));
    k := EffectiveEntry(LedgerOf(s.tables).events.Keys, log, pid);
  }

  lemma {:induction false} EffectiveEntry(stored: set<string>, log: seq<Entry>, pid: string) returns (k: nat)
    requires pid in ProviderIDs(Effective(stored, Deliveries(log)))
    ensures k < |log| && log[k].delivery.event.providerEventID == pid
  {
    var n := |log| - 1;
    assert Deliveries(log)[..n] == Deliveries(log[..n]);
    if pid == log[n].delivery.event.providerEventID {
      k := n;
    } else {
      k := EffectiveEntry(stored, log[..n], pid);
    }
  }

  /* ---- The row ---- */

  /**
    When no statement fails and the schedule is validated, the new events of a payment, delivered at
    the same time and any number of times each, leave the row of the event that follows all others.
   */
  lemma HandlersConverge(s: System, moves: seq<Move>, paymentID: string, w: PaymentEvent)
    requires StartsSound(s) && ValidatedRun(s, moves) && AllDone(Run(s, moves)) && FailureFreeMoves(moves)
    requires NewBatchArrives(s, paymentID) && FollowsAll(w, BatchFor(s.threads, paymentID))
    ensures Lookup(Run(s, moves).tables.payments, paymentID) == Some(PaymentFromEvent(w))
  {
    var own, batch := For(paymentID, Deliveries(SerialOrder(s, moves))), BatchFor(s.threads, paymentID);
    RowOfSchedule(s, moves, paymentID);
    BatchIsDelivered(s, moves, paymentID);
    EventsOfAreOrder(own, batch);
    assert BeatsAll(Exact, w, batch);
    OrdersAgreeExactly(Exact, batch);
  }

  lemma RowOfSchedule(s: System, moves: seq<Move>, paymentID: string)
    requires StartsSound(s) && ValidatedRun(s, moves) && FailureFreeMoves(moves)
    requires paymentID !in s.tables.payments
    ensures Lookup(Run(s, moves).tables.payments, paymentID) ==
            RowAfterAll(Exact, None, EventsOf(For(paymentID, Deliveries(SerialOrder(s, moves)))))
  {
    CleanDeliveries(s, moves);
    RowOfCleanOrder(LedgerOf(s.tables), Deliveries(SerialOrder(s, moves)), paymentID);
    SerializableExactly(s, moves);
    assert moves[..|moves|] == moves && PaymentsFollowAt(s, moves[..|moves|]);
  }

  lemma CleanDeliveries(s: System, moves: seq<Move>)
    requires StartsSound(s) && ValidatedRun(s, moves) && FailureFreeMoves(moves)
    ensures var ds := Deliveries(SerialOrder(s, moves));
            && DistinctIDs(ds)
            && forall d | d in ds :: d.env == NO_FAILURES && d.event.providerEventID !in LedgerOf(s.tables).events
  {
    var l, log := LedgerOf(s.tables), SerialOrder(s, moves);
    AlwaysSerializable(s, moves);
    FailureFreeOrder(s, moves);
    FreshAndClean(l, log, PostAll(l, Deliveries(log)));
  }

  lemma FreshAndClean(l: Ledger, log: seq<Entry>, g: Ledger)
    requires FreshLog(l, log, g) && forall entry | entry in log :: entry.delivery.env == NO_FAILURES
    ensures DistinctIDs(Deliveries(log))
    ensures forall d | d in Deliveries(log) :: d.env == NO_FAILURES && d.event.providerEventID !in l.events
  {
    assert forall k | 0 <= k < |log| :: log[k] in log && Deliveries(log)[k] == log[k].delivery;
  }

  lemma BatchIsDelivered(s: System, moves: seq<Move>, paymentID: string)
    requires StartsSound(s) && ValidatedRun(s, moves) && AllDone(Run(s, moves)) && FailureFreeMoves(moves)
    requires NewBatchArrives(s, paymentID)
    ensures var own := For(paymentID, Deliveries(SerialOrder(s, moves)));
            && DistinctIDs(own)
            && forall e :: e in BatchFor(s.threads, paymentID) <==> HasEvent(own, e)
  {
    var log := SerialOrder(s, moves);
    var own := For(paymentID, Deliveries(log));
    CleanDeliveries(s, moves);
    ForIs(paymentID, Deliveries(log));
    BatchTakesEffect(s, moves, paymentID);
    forall e ensures HasEntry(log, e, paymentID) <==> HasEvent(own, e) {
      if k :| 0 <= k < |log| && EntryOf(log[k], e, paymentID) {
        assert Deliveries(log)[k] in Deliveries(log);
        assert log[k].delivery in own;
      }
      if k :| 0 <= k < |own| && own[k].event == e {
        assert own[k] in own;
        var j :| 0 <= j < |log| && Deliveries(log)[j] == own[k];
        assert EntryOf(log[j], e, paymentID);
      }
    }
  }
}
