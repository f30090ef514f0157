/**
  The serial order of a validated schedule, completed: every parsed request has exactly one
  place in it, also those that the dedup gate turned away or whose insert failed. They stand
  where their insert was answered, except for duplicates answered too early for that.
 */
module CompleteOrder {
  import opened Webhook
  import opened Tables
  import opened Processing
  import opened Handler
  import opened Ledgers
  import opened Interleavings
  import opened Integrity
  import opened Serializability

  /** A duplicate is answered although its original has yet to take effect. */
  predicate AnswersEarly(s: System, m: Move) {
    && m.thread < |s.threads|
    && s.threads[m.thread].AtInsert?
    && m.env.insert.Acked?
    && s.threads[m.thread].event.providerEventID in s.tables.events
    && SomeoneWaits(s.threads, s.threads[m.thread].event.providerEventID)
  }

  predicate AnsweredEarly(s: System, moves: seq<Move>, i: nat) {
    moves != [] &&
    var n := |moves| - 1;
    AnsweredEarly(s, moves[..n], i) || (moves[n].thread == i && AnswersEarly(Run(s, moves[..n]), moves[n]))
  }

  /** An insert that stores nothing: what it is to a serial run. */
  function TurnsAway(e: PaymentEvent, reply: Reply): Delivery {
    Delivery(e, if reply.Acked? then NO_FAILURES else NO_FAILURES.(insert := Rejected))
  }

  /** The request that finds its place at this step: at most one. */
  function Places(s: System, m: Move): seq<Entry> {
    if m.thread < |s.threads| && s.threads[m.thread].AtInsert? && !AnswersEarly(s, m)
       && (m.env.insert.Rejected? || s.threads[m.thread].event.providerEventID in s.tables.events)
    then [Entry(m.thread, TurnsAway(s.threads[m.thread].event, m.env.insert))]
    else TakesEffect(s, m)
  }

  /** The order of all requests but early duplicates, each where it took effect or was turned away. */
  function TimedOrder(s: System, moves: seq<Move>): seq<Entry> {
    if moves == [] then []
    else
      var n := |moves| - 1;
      TimedOrder(s, moves[..n]) + Places(Run(s, moves[..n]), moves[n])
  }

  /* ---- Where each request is found ---- */

  predicate Logged(log: seq<Entry>, i: nat) {
    exists k :: 0 <= k < |log| && log[k].handler == i
  }

  predicate Gives(th: Thread, answer: Answer) {
    th == AtRespond(answer) || th == Done(ResponseFor(answer))
  }

  /** A handler, given where it started, whether it has a place or is an early duplicate, and the stored ids. */
  predicate Accounted(start: Thread, th: Thread, logged: bool, early: bool, stored: set<string>) {
    start.Arriving? &&
    if logged then
      start.arrival.Valid? && (th.AtRecord? || th.AtRespond? || th.Done?)
    else if !start.arrival.Valid? then
      th == start || th == Done(Rejection(start.arrival))
    else
      var e := start.arrival.event;
      || th == start || th == AtInsert(e) || (Waiting(th) && th.event == e)
      || (Gives(th, Duplicate) && early && e.providerEventID in stored)
  }

  ghost predicate AllAccounted(s: System, moves: seq<Move>) {
    var at, log := Run(s, moves), TimedOrder(s, moves);
    && |at.threads| == |s.threads|
    && (forall i | 0 <= i < |s.threads| ::
          Accounted(s.threads[i], at.threads[i], Logged(log, i), AnsweredEarly(s, moves, i), at.tables.events.Keys))
    && EntriesFit(s.threads, log)
  }

  /** Each entry carries its handler's own event, and no handler has two. */
  ghost predicate EntriesFit(starts: seq<Thread>, log: seq<Entry>) {
    && (forall k | 0 <= k < |log| :: EntryFits(starts, log[k]))
    && (forall j, k | 0 <= j < k < |log| :: log[j].handler != log[k].handler)
  }

  predicate EntryFits(starts: seq<Thread>, entry: Entry) {
    && entry.handler < |starts|
    && starts[entry.handler].Arriving? && starts[entry.handler].arrival.Valid?
    && entry.delivery.event == starts[entry.handler].arrival.event
  }

  lemma AdvanceIsAccounted(s: System, m: Move, start: Thread, logged: bool, early: bool)
    requires m.thread < |s.threads| && Accounted(start, s.threads[m.thread], logged, early, s.tables.events.Keys)
    ensures Accounted(start, Step(s, m).threads[m.thread], logged || Places(s, m) != [],
                      early || AnswersEarly(s, m), Step(s, m).tables.events.Keys)
    ensures Places(s, m) != [] ==>
              && !logged && start.arrival.Valid?
              && Places(s, m) == [Places(s, m)[0]]
              && Places(s, m)[0].handler == m.thread
              && Places(s, m)[0].delivery.event == start.arrival.event
  {
  }

  lemma EventKeysGrow(s: System, m: Move)
    ensures s.tables.events.Keys <= Step(s, m).tables.events.Keys
  {
  }

  /** Only the handler that moves can get a place. */
  lemma LoggedAfter(log: seq<Entry>, taken: seq<Entry>, mover: nat)
    requires taken == [] || (taken == [taken[0]] && taken[0].handler == mover)
    ensures forall i: nat :: Logged(log + taken, i) <==> Logged(log, i) || (i == mover && taken != [])
  {
    forall i: nat ensures Logged(log + taken, i) <==> Logged(log, i) || (i == mover && taken != []) {
      if k :| 0 <= k < |log| && log[k].handler == i {
        assert (log + taken)[k].handler == i;
      }
      if i == mover && taken != [] {
        assert (log + taken)[|log|].handler == i;
      }
    }
  }

  lemma OneMoreFits(starts: seq<Thread>, log: seq<Entry>, entry: Entry)
    requires EntriesFit(starts, log) && EntryFits(starts, entry) && !Logged(log, entry.handler)
    ensures EntriesFit(starts, log + [entry])
  {
    forall j, k | 0 <= j < k < |log + [entry]| ensures (log + [entry])[j].handler != (log + [entry])[k].handler {
      assert log[j].handler != entry.handler;
    }
  }

  lemma StepIsAccounted(s: System, init: seq<Move>, m: Move)
    requires AllAccounted(s, init)
    ensures AllAccounted(s, init + [m])
  {
    var before, log := Run(s, init), TimedOrder(s, init);
    var taken, after := Places(before, m), Step(before, m);
    assert (init + [m])[..|init|] == init;
    assert forall i :: AnsweredEarly(s, init + [m], i) <==>
                       AnsweredEarly(s, init, i) || (m.thread == i && AnswersEarly(before, m));
    if m.thread >= |s.threads| {
      assert log + taken == log;
    } else {
      AdvanceIsAccounted(before, m, s.threads[m.thread], Logged(log, m.thread), AnsweredEarly(s, init, m.thread));
      LoggedAfter(log, taken, m.thread);
      EventKeysGrow(before, m);
      if taken != [] {
        OneMoreFits(s.threads, log, taken[0]);
      } else {
        assert log + taken == log;
      }
    }
  }

  lemma {:induction false} AlwaysAccounted(s: System, moves: seq<Move>)
    requires AllArriving(s)
    ensures AllAccounted(s, moves)
  {
    if moves == [] {
      assert forall i | 0 <= i < |s.threads| :: s.threads[i].Arriving?;
    } else {
      var init, m := moves[..|moves| - 1], moves[|moves| - 1];
      AlwaysAccounted(s, init);
      StepIsAccounted(s, init, m);
      assert moves == init + [m];
    }
  }

  /* ---- The order is that of a serial run ---- */

  lemma IdleEntry(l: Ledger, s: System, log: seq<Entry>, entry: Entry)
    requires AnswersAgree(l, s, log) && entry.handler < |s.threads|
    requires var g := PostAll(l, Deliveries(log));
             Post(g, entry.delivery) == g && BoundTo(s.threads[entry.handler], AnswerOf(g, entry.delivery))
    ensures PostAll(l, Deliveries(log + [entry])) == PostAll(l, Deliveries(log)) && AnswersAgree(l, s, log + [entry])
  {
    PostEntry(l, log, entry);
    AnswersExtend(l, s, log, entry);
  }

  /** A request turned away changes nothing and is answered as in the serial run so far. */
  lemma TurnedAwayIsIdle(s: System, m: Move, g: Ledger)
    requires TablesAgree(s, g) && Places(s, m) != TakesEffect(s, m)
    ensures TakesEffect(s, m) == [] && Places(s, m) == [Places(s, m)[0]]
    ensures Places(s, m)[0].handler == m.thread < |Step(s, m).threads|
    ensures Post(g, Places(s, m)[0].delivery) == g
    ensures BoundTo(Step(s, m).threads[m.thread], AnswerOf(g, Places(s, m)[0].delivery))
  {
  }

  lemma StepKeepsTimedOrder(l: Ledger, s: System, m: Move, log: seq<Entry>, g: Ledger)
    requires g == PostAll(l, Deliveries(log))
    requires TablesAgree(s, g) && Sound(s) && Validated(s, m) && AnswersAgree(l, s, log)
    ensures PostAll(l, Deliveries(log + Places(s, m))) == Effect(g, s, m)
    ensures AnswersAgree(l, Step(s, m), log + Places(s, m))
  {
    if Places(s, m) == TakesEffect(s, m) {
      StepExtendsLog(l, s, m, log, g);
      StepKeepsAnswersAgree(l, s, m, log, g);
    } else {
      TurnedAwayIsIdle(s, m, g);
      EarlierAnswersStay(l, s, m, log);
      IdleEntry(l, Step(s, m), log, Places(s, m)[0]);
    }
  }

  lemma {:induction false} TimedOrderAgrees(s: System, moves: seq<Move>)
    requires StartsSound(s) && ValidatedRun(s, moves)
    ensures var l, timed := LedgerOf(s.tables), TimedOrder(s, moves);
            && PostAll(l, Deliveries(timed)) == PostAll(l, Deliveries(SerialOrder(s, moves)))
            && AnswersAgree(l, Run(s, moves), timed)
  {
    if moves != [] {
      var n := |moves| - 1;
      var l, before, m := LedgerOf(s.tables), Run(s, moves[..n]), moves[n];
      var g := PostAll(l, Deliveries(SerialOrder(s, moves[..n])));
      TimedOrderAgrees(s, moves[..n]);
      AlwaysSound(s, moves[..n]);
      AlwaysSerializable(s, moves[..n]);
      StepExtendsLog(l, before, m, SerialOrder(s, moves[..n]), g);
      StepKeepsTimedOrder(l, before, m, TimedOrder(s, moves[..n]), g);
    }
  }

  /* ---- Early duplicates come last ---- */

  /** The log, then those parsed requests among the first n that have no place in it. */
  function WithLeftovers(starts: seq<Thread>, log: seq<Entry>, n: nat): seq<Entry>
    requires n <= |starts|
  {
    if n == 0 then log
    else
      var before, i := WithLeftovers(starts, log, n - 1), n - 1;
      if starts[i].Arriving? && starts[i].arrival.Valid? && !Logged(log, i)
      then before + [Entry(i, Delivery(starts[i].arrival.event, NO_FAILURES))] else before
  }

  function FullOrder(s: System, moves: seq<Move>): seq<Entry> {
    WithLeftovers(s.threads, TimedOrder(s, moves), |s.threads|)
  }

  /** A handler that is done without a place was told "duplicate" of an event that is stored by then. */
  lemma LeftoverIsIdle(g: Ledger, start: Thread, th: Thread)
    requires Accounted(start, th, false, true, g.events.Keys) && start.arrival.Valid? && th.Done?
    ensures var d := Delivery(start.arrival.event, NO_FAILURES);
            Post(g, d) == g && BoundTo(th, AnswerOf(g, d))
  {
  }

  lemma OneLeftover(l: Ledger, s: System, start: Thread, i: nat, logged: bool, log: seq<Entry>)
    requires i < |s.threads| && s.threads[i].Done? && AnswersAgree(l, s, log)
    requires Accounted(start, s.threads[i], logged, true, PostAll(l, Deliveries(log)).events.Keys)
    ensures start.Arriving? && start.arrival.Valid? && !logged ==>
              var longer := log + [Entry(i, Delivery(start.arrival.event, NO_FAILURES))];
              PostAll(l, Deliveries(longer)) == PostAll(l, Deliveries(log)) && AnswersAgree(l, s, longer)
  {
    if start.arrival.Valid? && !logged {
      LeftoverIsIdle(PostAll(l, Deliveries(log)), start, s.threads[i]);
      IdleEntry(l, s, log, Entry(i, Delivery(start.arrival.event, NO_FAILURES)));
    }
  }

  /** Appending the leftovers changes no table, and each is answered as the serial run answers it. */
  lemma {:induction false} LeftoversAreIdle(l: Ledger, s: System,
                                            starts: seq<Thread>, log: seq<Entry>, g: Ledger, n: nat)
    requires n <= |starts| == |s.threads| && AllDone(s)
    requires AnswersAgree(l, s, log) && g == PostAll(l, Deliveries(log))
    requires forall i | 0 <= i < |starts| :: Accounted(starts[i], s.threads[i], Logged(log, i), true, g.events.Keys)
    ensures var full := WithLeftovers(starts, log, n);
            PostAll(l, Deliveries(full)) == g && AnswersAgree(l, s, full)
  {
    if n > 0 {
      var i := n - 1;
      LeftoversAreIdle(l, s, starts, log, g, i);
      OneLeftover(l, s, starts[i], i, Logged(log, i), WithLeftovers(starts, log, i));
    }
  }

  /** The leftovers fill exactly the places the log leaves open. */
  lemma {:induction false} LeftoversFill(starts: seq<Thread>, log: seq<Entry>, n: nat)
    requires n <= |starts| && EntriesFit(starts, log)
    ensures var full := WithLeftovers(starts, log, n);
            && log <= full
            && EntriesFit(starts, full)
            && (forall i: nat :: Logged(full, i) <==>
                  Logged(log, i) || (i < n && starts[i].Arriving? && starts[i].arrival.Valid?))
  {
    if n > 0 {
      var i := n - 1;
      var before := WithLeftovers(starts, log, i);
      LeftoversFill(starts, log, i);
      if starts[i].Arriving? && starts[i].arrival.Valid? && !Logged(log, i) {
        var entry := Entry(i, Delivery(starts[i].arrival.event, NO_FAILURES));
        assert !Logged(before, i);
        LoggedAfter(before, [entry], i);
        OneMoreFits(starts, before, entry);
      }
    }
  }

  lemma FullOrderFits(s: System, moves: seq<Move>)
    requires AllArriving(s)
    ensures |Run(s, moves).threads| == |s.threads|
    ensures TimedOrder(s, moves) <= FullOrder(s, moves)
    ensures EntriesFit(s.threads, FullOrder(s, moves))
    ensures forall i | 0 <= i < |s.threads| && s.threads[i].arrival.Valid? :: Logged(FullOrder(s, moves), i)
  {
    AlwaysAccounted(s, moves);
    LeftoversFill(s.threads, TimedOrder(s, moves), |s.threads|);
  }

  lemma SameKeysAtRest(s: System, g: Ledger)
    requires AllDone(s) && TablesAgree(s, g)
    ensures s.tables.events.Keys == g.events.Keys
  {
    assert forall pid :: !SomeoneWaits(s.threads, pid);
  }

  lemma AccountedAtRest(s: System, moves: seq<Move>, g: Ledger)
    requires StartsSound(s) && ValidatedRun(s, moves) && AllDone(Run(s, moves))
    requires g == PostAll(LedgerOf(s.tables), Deliveries(SerialOrder(s, moves)))
    ensures var at, log := Run(s, moves), TimedOrder(s, moves);
            && |at.threads| == |s.threads|
            && forall i | 0 <= i < |s.threads| ::
                 Accounted(s.threads[i], at.threads[i], Logged(log, i), true, g.events.Keys)
  {
    AlwaysSerializable(s, moves);
    SameKeysAtRest(Run(s, moves), g);
    AlwaysAccounted(s, moves);
  }

  lemma FullOrderAgrees(s: System, moves: seq<Move>)
    requires StartsSound(s) && ValidatedRun(s, moves) && AllDone(Run(s, moves))
    ensures var l, full := LedgerOf(s.tables), FullOrder(s, moves);
            && PostAll(l, Deliveries(full)) == PostAll(l, Deliveries(SerialOrder(s, moves)))
            && AnswersAgree(l, Run(s, moves), full)
  {
    var l := LedgerOf(s.tables);
    var g := PostAll(l, Deliveries(SerialOrder(s, moves)));
    TimedOrderAgrees(s, moves);
    AccountedAtRest(s, moves, g);
    LeftoversAreIdle(l, Run(s, moves), s.threads, TimedOrder(s, moves), g, |s.threads|);
  }

  /**
    A validated schedule that has come to rest is a serial run of all its parsed requests:
    each has exactly one place in the order, under its own event, and is answered as that
    serial run answers it; the stored events and payments are those of the serial run, and
    so are the anomalies but for those whose insert failed.
   */
  lemma EveryRequestIsSerialized(s: System, moves: seq<Move>)
    requires StartsSound(s) && ValidatedRun(s, moves) && AllDone(Run(s, moves))
    ensures |Run(s, moves).threads| == |s.threads|
    ensures EntriesFit(s.threads, FullOrder(s, moves))
    ensures forall i | 0 <= i < |s.threads| && s.threads[i].arrival.Valid? :: Logged(FullOrder(s, moves), i)
    ensures var l, full, end := LedgerOf(s.tables), FullOrder(s, moves), LedgerOf(Run(s, moves).tables);
            var g := PostAll(l, Deliveries(full));
            && end.events == g.events
            && end.payments == g.payments
            && multiset(g.anomalies) == multiset(end.anomalies) + Dropped(s, moves)
    ensures var l, full, s' := LedgerOf(s.tables), FullOrder(s, moves), Run(s, moves);
            forall k | 0 <= k < |full| ::
              s'.threads[full[k].handler] ==
              Done(ResponseFor(AnswerOf(PostAll(l, Deliveries(full[..k])), full[k].delivery)))
  {
    FullOrderFits(s, moves);
    FullOrderAgrees(s, moves);
    SerializableAtRest(s, moves);
    AnswersAtRest(LedgerOf(s.tables), Run(s, moves), FullOrder(s, moves));
  }

  /* ---- Real time ---- */

  lemma {:induction false} TimedOrderGrows(s: System, moves: seq<Move>, k: nat, i: nat)
    requires k <= |moves|
    ensures TimedOrder(s, moves[..k]) <= TimedOrder(s, moves)
    ensures AnsweredEarly(s, moves[..k], i) ==> AnsweredEarly(s, moves, i)
  {
    if k == |moves| {
      assert moves[..k] == moves;
    } else {
      var n := |moves| - 1;
      TimedOrderGrows(s, moves[..n], k, i);
      assert moves[..n][..k] == moves[..k];
    }
  }

  /**
    The order respects real time: a request that was answered before another arrived comes
    before it, unless it is a duplicate that was answered before its original took effect.
   */
  lemma RealTimeIsRespected(s: System, moves: seq<Move>, k: nat, i: nat, j: nat)
    requires AllArriving(s) && k <= |moves|
    requires i < |FullOrder(s, moves)| && j < |FullOrder(s, moves)|
    requires var at, a, b := Run(s, moves[..k]), FullOrder(s, moves)[i].handler, FullOrder(s, moves)[j].handler;
             a < |at.threads| && b < |at.threads| && at.threads[a].Done? && at.threads[b].Arriving?
    requires !AnsweredEarly(s, moves, FullOrder(s, moves)[i].handler)
    ensures i < j
  {
    var early, full := TimedOrder(s, moves[..k]), FullOrder(s, moves);
    FullOrderFits(s, moves);
    TimedOrderGrows(s, moves, k, full[i].handler);
    HasItsPlace(s, moves[..k], full[i].handler, full[j].handler);
    assert EntryFits(s.threads, full[i]) && EntryFits(s.threads, full[j]);
    assert forall x | 0 <= x < |early| :: full[x] == early[x];
    var x :| 0 <= x < |early| && early[x].handler == full[i].handler;
    assert x == i;
  }

  /** A request that is done has its place, unless answered early; one that has yet to arrive has none. */
  lemma HasItsPlace(s: System, moves: seq<Move>, a: nat, b: nat)
    requires AllArriving(s) && a < |s.threads| && b < |s.threads|
    requires a < |Run(s, moves).threads| && b < |Run(s, moves).threads|
    ensures s.threads[a].arrival.Valid? && Run(s, moves).threads[a].Done? && !AnsweredEarly(s, moves, a) ==>
              Logged(TimedOrder(s, moves), a)
    ensures Run(s, moves).threads[b].Arriving? ==> !Logged(TimedOrder(s, moves), b)
  {
    AlwaysAccounted(s, moves);
  }

  /**
    When a duplicate is early: the serial run so far has yet to store its event exactly when some
    handler has stored it and still waits to decide or to write.
   */
  lemma DuplicateBeforeOriginal(s: System, moves: seq<Move>, m: Move)
    requires StartsSound(s) && ValidatedRun(s, moves)
    requires var at := Run(s, moves); m.thread < |at.threads| && at.threads[m.thread].AtInsert? && m.env.insert.Acked?
    ensures var at, g := Run(s, moves), PostAll(LedgerOf(s.tables), Deliveries(SerialOrder(s, moves)));
            var pid := at.threads[m.thread].event.providerEventID;
            && (Step(at, m).threads[m.thread] == AtRespond(Duplicate) <==> pid in at.tables.events)
            && (pid in at.tables.events && pid !in g.events <==> SomeoneWaits(at.threads, pid))
            && (pid in at.tables.events && pid !in g.events <==> AnswersEarly(at, m))
  {
    AlwaysSerializable(s, moves);
    AlwaysSound(s, moves);
    DuplicateWhileWaiting(Run(s, moves), m, PostAll(LedgerOf(s.tables), Deliveries(SerialOrder(s, moves))));
  }

  lemma DuplicateWhileWaiting(s: System, m: Move, g: Ledger)
    requires TablesAgree(s, g) && Sound(s)
    requires m.thread < |s.threads| && s.threads[m.thread].AtInsert? && m.env.insert.Acked?
    ensures var pid := s.threads[m.thread].event.providerEventID;
            && (Step(s, m).threads[m.thread] == AtRespond(Duplicate) <==> pid in s.tables.events)
            && (pid in s.tables.events && pid !in g.events <==> SomeoneWaits(s.threads, pid))
  {
    var pid := s.threads[m.thread].event.providerEventID;
    if SomeoneWaits(s.threads, pid) {
      var i :| 0 <= i < |s.threads| && Waiting(s.threads[i]) && s.threads[i].event.providerEventID == pid;
      assert ThreadSound(s.tables, s.threads[i]);
    }
  }

  /** The first handler stores the event and pauses; the second arrives with the same event. */
  function EarlyDuplicateSchedule(): seq<Move> {
    var a, b := Move(0, NO_FAILURES), Move(1, NO_FAILURES);
    [a, a, b]
  }

  /**
    This does happen: with two handlers of one new event, the second is told "duplicate" while
    nothing has taken effect.
   */
  lemma EarlyDuplicateHappens(s: System, e: PaymentEvent)
    requires s.threads == [Arriving(Valid(e)), Arriving(Valid(e))] && e.providerEventID !in s.tables.events
    ensures var moves, m := EarlyDuplicateSchedule(), Move(1, NO_FAILURES);
            && ValidatedRun(s, moves)
            && SerialOrder(s, moves) == []
            && AnswersEarly(Run(s, moves), m)
            && Step(Run(s, moves), m).threads[1] == AtRespond(Duplicate)
  {
    var a, b := Move(0, NO_FAILURES), Move(1, NO_FAILURES);
    OneMoreMove(s, [], a);
    OneMoreMove(s, [a], a);
    OneMoreMove(s, [a, a], b);
    assert [] + [a] == [a] && [a] + [a] == [a, a] && [a, a] + [b] == EarlyDuplicateSchedule();
    StoreAndPause(s, e);
    EarlyDuplicateStep(Run(s, [a, a]), e);
  }

  lemma OneMoreMove(s: System, moves: seq<Move>, m: Move)
    ensures Run(s, moves + [m]) == Step(Run(s, moves), m)
    ensures ValidatedRun(s, moves + [m]) <==> ValidatedRun(s, moves) && Validated(Run(s, moves), m)
    ensures SerialOrder(s, moves + [m]) == SerialOrder(s, moves) + TakesEffect(Run(s, moves), m)
  {
    assert (moves + [m])[..|moves|] == moves;
  }

  lemma StoreAndPause(s: System, e: PaymentEvent)
    requires s.threads == [Arriving(Valid(e)), Arriving(Valid(e))] && e.providerEventID !in s.tables.events
    ensures var m := Move(0, NO_FAILURES);
            var s1 := Step(s, m);
            var s2 := Step(s1, m);
            && Validated(s, m) && Validated(s1, m) && TakesEffect(s, m) == TakesEffect(s1, m) == []
            && |s2.threads| == 2 && s2.threads[0].AtGet? && s2.threads[0].event == e
            && s2.threads[1] == Arriving(Valid(e))
            && e.providerEventID in s2.tables.events
  {
    assert Step(s, Move(0, NO_FAILURES)).threads == [AtInsert(e), Arriving(Valid(e))];
  }

  lemma EarlyDuplicateStep(s: System, e: PaymentEvent)
    requires |s.threads| == 2 && s.threads[0].AtGet? && s.threads[0].event == e && s.threads[1] == Arriving(Valid(e))
    requires e.providerEventID in s.tables.events
    ensures var m := Move(1, NO_FAILURES);
            && Validated(s, m) && TakesEffect(s, m) == []
            && AnswersEarly(Step(s, m), m)
            && Step(Step(s, m), m).threads[1] == AtRespond(Duplicate)
  {
    var s' := Step(s, Move(1, NO_FAILURES));
    assert s'.threads == [s.threads[0], AtInsert(e)];
    assert Waiting(s'.threads[0]);
  }
}
