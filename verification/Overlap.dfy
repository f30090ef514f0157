/**
  When schedules are serializable, and what goes wrong otherwise: two handlers that both
  hold a write for the same payment can undo each other's work.
 */
module Overlap {
  import opened Options
  import opened Webhook
  import opened Tables
  import opened Transitions
  import opened Processing
  import opened Handler
  import opened Ledgers
  import opened StoredResolution
  import opened DeliveryOrder
  import opened Interleavings
  import opened Serializability

  /** No two handlers hold a pending upsert for the same payment. */
  ghost predicate NoTwoWriters(s: System) {
    forall i, j | 0 <= i < j < |s.threads| && s.threads[i].AtUpsert? && s.threads[j].AtUpsert? ::
      s.threads[i].event.paymentID != s.threads[j].event.paymentID
  }

  /** Each pending upsert was decided on the row that is still there, and accepted. */
  ghost predicate WritersUpToDate(s: System) {
    forall i | 0 <= i < |s.threads| && s.threads[i].AtUpsert? ::
      && Lookup(s.tables.payments, s.threads[i].event.paymentID) == s.threads[i].seen
      && Accepts(s.threads[i].seen, s.threads[i].event)
  }

  /**
    If handlers for the same payment never hold a write at the same time, whatever those for
    different payments do, the schedule is validated, and hence serializable.
   */
  lemma {:induction false} NoOverlapIsValidated(s: System, moves: seq<Move>)
    requires AllArriving(s)
    requires forall k | 0 <= k <= |moves| :: NoTwoWriters(Run(s, moves[..k]))
    ensures ValidatedRun(s, moves) && WritersUpToDate(Run(s, moves))
  {
    if moves != [] {
      var n := |moves| - 1;
      forall k | 0 <= k <= n ensures NoTwoWriters(Run(s, moves[..n][..k])) {
        assert moves[..n][..k] == moves[..k];
      }
      NoOverlapIsValidated(s, moves[..n]);
      assert NoTwoWriters(Run(s, moves[..n]));
      StepKeepsWritersUpToDate(Run(s, moves[..n]), moves[n]);
    }
  }

  lemma StepKeepsWritersUpToDate(s: System, m: Move)
    requires NoTwoWriters(s) && WritersUpToDate(s)
    ensures Validated(s, m) && WritersUpToDate(Step(s, m))
  {
    var s' := Step(s, m);
    forall j | 0 <= j < |s'.threads| && s'.threads[j].AtUpsert?
      ensures Lookup(s'.tables.payments, s'.threads[j].event.paymentID) == s'.threads[j].seen
      ensures Accepts(s'.threads[j].seen, s'.threads[j].event)
    {
      if j != m.thread {
        assert s.threads[j].AtUpsert?;
      }
    }
  }

  /** Both handlers read before either writes; the one with the older event writes last. */
  function OverlappingSchedule(): seq<Move> {
    var a, b := Move(0, NO_FAILURES), Move(1, NO_FAILURES);
    [a, a, a, b, b, b, a, b, a, b]
  }

  lemma RunAppend(s: System, moves: seq<Move>, m: Move)
    ensures Run(s, moves + [m]) == Step(Run(s, moves), m)
  {
    assert (moves + [m])[..|moves|] == moves;
  }

  /** The state after the first k moves of the overlapping schedule. */
  lemma OverlapPrefix(s: System, k: nat)
    requires k < |OverlappingSchedule()|
    ensures Run(s, OverlappingSchedule()[..k + 1]) == Step(Run(s, OverlappingSchedule()[..k]), OverlappingSchedule()[k])
  {
    var moves := OverlappingSchedule();
    assert moves[..k + 1] == moves[..k] + [moves[k]];
    RunAppend(s, moves[..k], moves[k]);
  }

  /**
    Without validation serializability fails, and stored timestamps can go back, with no
    statement failing: for any two new events of a payment without a row, such that the later
    one may follow the earlier one, every serial order ends in the later event's row, but the
    overlapping schedule overwrites that row with the earlier event's. That upsert is not validated.
   */
  lemma {:induction false} OverlapLosesUpdate(s: System, early: PaymentEvent, late: PaymentEvent)
    requires s.threads == [Arriving(Valid(late)), Arriving(Valid(early))]
    requires early.paymentID == late.paymentID && early.providerEventID != late.providerEventID
    requires early.timestamp < late.timestamp && IsTransitionAllowed(early.paymentStatus, late.paymentStatus)
    requires early.paymentID !in s.tables.payments
    requires early.providerEventID !in s.tables.events && late.providerEventID !in s.tables.events
    ensures var moves := OverlappingSchedule();
            && FailureFreeMoves(moves)
            && Run(s, moves).threads == [Done(ResponseFor(Processed)), Done(ResponseFor(Processed))]
            && Lookup(Run(s, moves[..7]).tables.payments, late.paymentID) == Some(PaymentFromEvent(late))
            && Lookup(Run(s, moves).tables.payments, late.paymentID) == Some(PaymentFromEvent(early))
            && !Validated(Run(s, moves[..7]), moves[7]) && !ValidatedRun(s, moves)
    ensures forall es | IsOrderOf(es, {early, late}) ::
              FinalRow(LedgerOf(s.tables), es, late.paymentID) == Some(PaymentFromEvent(late))
  {
    var l := LedgerOf(s.tables);
    assert FreshBatch(l, {early, late}, late.paymentID);
    assert IsLatest(late, {early, late});
    OrderIndependence(l, {early, late}, late.paymentID, late);
    OverlapReads(s, early, late);
    OverlapWrites(s, Run(s, OverlappingSchedule()[..6]), early, late);
    assert OverlappingSchedule()[..10] == OverlappingSchedule();
    assert !Validated(Run(s, OverlappingSchedule()[..7]), OverlappingSchedule()[7]);
    if ValidatedRun(s, OverlappingSchedule()) {
      ValidatedPrefix(s, OverlappingSchedule(), 7);
    }
  }

  lemma OverlapReads(s: System, early: PaymentEvent, late: PaymentEvent)
    requires s.threads == [Arriving(Valid(late)), Arriving(Valid(early))]
    requires early.paymentID == late.paymentID && early.providerEventID != late.providerEventID
    requires early.paymentID !in s.tables.payments
    requires early.providerEventID !in s.tables.events && late.providerEventID !in s.tables.events
    ensures Run(s, OverlappingSchedule()[..6]).threads == [AtUpsert(late, None), AtUpsert(early, None)]
  {
    FirstReads(s, early, late);
    ThreeMoves(s, 3, 1);
    var s3 := Run(s, OverlappingSchedule()[..3]);
    ReachUpsert(s3, 1, early);
    assert s3.threads[1 := AtUpsert(early, None)] == [AtUpsert(late, None), AtUpsert(early, None)];
  }

  lemma FirstReads(s: System, early: PaymentEvent, late: PaymentEvent)
    requires s.threads == [Arriving(Valid(late)), Arriving(Valid(early))]
    requires late.paymentID !in s.tables.payments && late.providerEventID !in s.tables.events
    ensures var s3 := Run(s, OverlappingSchedule()[..3]);
            && s3.threads == [AtUpsert(late, None), Arriving(Valid(early))]
            && s3.tables.payments == s.tables.payments
            && s3.tables.events.Keys == s.tables.events.Keys + {late.providerEventID}
  {
    ThreeMoves(s, 0, 0);
    assert Run(s, OverlappingSchedule()[..0]) == s;
    ReachUpsert(s, 0, late);
  }

  /** The first three moves are one handler's, the next three the other's. */
  lemma ThreeMoves(s: System, k: nat, i: nat)
    requires (k == 0 && i == 0) || (k == 3 && i == 1)
    ensures var moves, m := OverlappingSchedule(), Move(i, NO_FAILURES);
            Run(s, moves[..k + 3]) == Step(Step(Step(Run(s, moves[..k]), m), m), m)
  {
    OverlapPrefix(s, k);
    OverlapPrefix(s, k + 1);
    OverlapPrefix(s, k + 2);
  }

  /** Three steps take a handler of a new event, for a payment without a row, to its upsert. */
  lemma ReachUpsert(s: System, i: nat, e: PaymentEvent)
    requires i < |s.threads| && s.threads[i] == Arriving(Valid(e))
    requires e.paymentID !in s.tables.payments && e.providerEventID !in s.tables.events
    ensures var m := Move(i, NO_FAILURES);
            var s' := Step(Step(Step(s, m), m), m);
            && s'.threads == s.threads[i := AtUpsert(e, None)]
            && s'.tables.payments == s.tables.payments
            && s'.tables.events.Keys == s.tables.events.Keys + {e.providerEventID}
  {
    var m := Move(i, NO_FAILURES);
    var s1 := Step(s, m);
    var s2 := Step(s1, m);
    assert s1.threads == s.threads[i := AtInsert(e)];
    assert s2.threads[i].AtGet? && s2.threads == s.threads[i := s2.threads[i]];
  }

  lemma OverlapWrites(s: System, s6: System, early: PaymentEvent, late: PaymentEvent)
    requires early.paymentID == late.paymentID
    requires s6 == Run(s, OverlappingSchedule()[..6]) && s6.threads == [AtUpsert(late, None), AtUpsert(early, None)]
    ensures var moves := OverlappingSchedule();
            && Lookup(Run(s, moves[..7]).tables.payments, late.paymentID) == Some(PaymentFromEvent(late))
            && Run(s, moves[..7]).threads == [AtRespond(Processed), AtUpsert(early, None)]
            && Lookup(Run(s, moves[..10]).tables.payments, late.paymentID) == Some(PaymentFromEvent(early))
            && Run(s, moves[..10]).threads == [Done(ResponseFor(Processed)), Done(ResponseFor(Processed))]
  {
    var moves := OverlappingSchedule();
    OverlapPrefix(s, 6);
    OverlapPrefix(s, 7);
    UpsertStep(s6, 0, late);
    assert Run(s, moves[..7]).threads == [AtRespond(Processed), AtUpsert(early, None)];
    UpsertStep(Run(s, moves[..7]), 1, early);
    assert Run(s, moves[..8]).threads == [AtRespond(Processed), AtRespond(Processed)];
    OverlapEnds(s);
  }

  lemma OverlapEnds(s: System)
    requires Run(s, OverlappingSchedule()[..8]).threads == [AtRespond(Processed), AtRespond(Processed)]
    ensures var moves := OverlappingSchedule();
            && Run(s, moves[..10]).tables == Run(s, moves[..8]).tables
            && Run(s, moves[..10]).threads == [Done(ResponseFor(Processed)), Done(ResponseFor(Processed))]
  {
    var moves := OverlappingSchedule();
    OverlapPrefix(s, 8);
    OverlapPrefix(s, 9);
    RespondStep(Run(s, moves[..8]), 0);
    assert Run(s, moves[..9]).threads == [Done(ResponseFor(Processed)), AtRespond(Processed)];
    RespondStep(Run(s, moves[..9]), 1);
  }

  lemma UpsertStep(s: System, i: nat, e: PaymentEvent)
    requires i < |s.threads| && s.threads[i] == AtUpsert(e, None)
    ensures var s' := Step(s, Move(i, NO_FAILURES));
            && s'.threads == s.threads[i := AtRespond(Processed)]
            && s'.tables.payments == s.tables.payments[e.paymentID := PaymentFromEvent(e)]
  {
  }

  lemma RespondStep(s: System, i: nat)
    requires i < |s.threads| && s.threads[i] == AtRespond(Processed)
    ensures var s' := Step(s, Move(i, NO_FAILURES));
            && s'.threads == s.threads[i := Done(ResponseFor(Processed))]
            && s'.tables == s.tables
  {
  }
}
