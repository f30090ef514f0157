/**
  Handlers running at the same time against one database. A step of a handler is one SQL
  statement (or its arrival, or its response) together with the local code up to the next;
  a schedule is any sequence of such steps, each with its own reply from the database.
 */
module Interleavings {
  import opened Options
  import opened Webhook
  import opened Tables
  import opened Processing
  import opened Counting
  import opened Service
  import opened Handler

  /** Where a handler stands, with the local variables it still needs. */
  datatype Thread =
    | Arriving(arrival: Arrival)
    | AtInsert(event: PaymentEvent)
    | AtGet(event: PaymentEvent, id: int)
    | AtRecord(event: PaymentEvent, anomaly: Anomaly, reason: IgnoreReason)
    | AtUpsert(event: PaymentEvent, seen: Option<Payment>)
    | AtRespond(answer: Answer)
    | Done(response: Response)
  {
    /** Past the dedup gate, with the payment update under way. */
    predicate Busy() {
      AtGet? || AtRecord? || AtUpsert?
    }
  }

  datatype System = System(tables: Tables, counters: Counters, recorder: bool, threads: seq<Thread>)

  datatype Move = Move(thread: nat, env: Env)

  datatype Local = Local(tables: Tables, counters: Counters, thread: Thread)

  function Advance(t: Tables, c: Counters, recorder: bool, th: Thread, env: Env): Local {
    match th
    case Arriving(a) =>
      Local(t, CountArrival(c, a), if a.Valid? then AtInsert(a.event) else Done(Rejection(a)))
    case AtInsert(e) =>
      var (t', inserted) := InsertEvent(t, e, env.skip, env.insert);
      (match inserted
       case Success(id) => Local(t', c, AtGet(e, id))
       case Failure(error) =>
         if IsDuplicateProviderEventIDError(error)
         then Local(t', c.(duplicates := c.duplicates + 1), AtRespond(Duplicate))
         else Local(t', c, AtRespond(InternalError)))
    case AtGet(e, id) =>
      if !env.get.Acked? then
        Local(t, CountOutcome(c, ProcessingFailed), AtRespond(InternalError))
      else
        var current := Lookup(t.payments, e.paymentID);
        if Accepts(current, e) then Local(t, c, AtUpsert(e, current)) else
        var reason := ReasonToIgnore(current.value, e);
        (match AnomalyOf(reason)
         case None => Local(t, CountDecided(c, Ignored(reason)), AtRespond(Processed))
         case Some(kind) =>
           Local(t, if recorder then CountAnomaly(c, kind) else c,
                 AtRecord(e, Anomaly(id, AnomalyColumnsFor(current.value, e, kind)), reason)))
    case AtRecord(e, anomaly, reason) =>
      Local(if recorder then RecordAnomaly(t, anomaly, env.record) else t,
            CountDecided(c, Ignored(reason)), AtRespond(Processed))
    case AtUpsert(e, seen) =>
      var outcome := if !env.upsert.Acked? then ProcessingFailed else if seen.None? then Created else Updated;
      Local(UpsertPayment(t, PaymentFromEvent(e), env.upsert), CountOutcome(c, outcome),
            AtRespond(if outcome.ProcessingFailed? then InternalError else Processed))
    case AtRespond(answer) =>
      Local(t, CountAnswer(c, answer), Done(ResponseFor(answer)))
    case Done(_) => Local(t, c, th)
  }

  function Step(s: System, m: Move): System {
    if m.thread >= |s.threads| then s
    else
      var next := Advance(s.tables, s.counters, s.recorder, s.threads[m.thread], m.env);
      System(next.tables, next.counters, s.recorder, s.threads[m.thread := next.thread])
  }

  function Run(s: System, moves: seq<Move>): System {
    if moves == [] then s else Step(Run(s, moves[..|moves| - 1]), moves[|moves| - 1])
  }

  /** No handler has started yet. */
  ghost predicate AllArriving(s: System) {
    forall i | 0 <= i < |s.threads| :: s.threads[i].Arriving?
  }

  ghost predicate AllDone(s: System) {
    forall i | 0 <= i < |s.threads| :: s.threads[i].Done?
  }

  ghost predicate FailureFreeMoves(moves: seq<Move>) {
    forall m | m in moves :: m.env.FailureFree()
  }

  lemma {:induction false} RunKeepsShape(s: System, moves: seq<Move>)
    ensures |Run(s, moves).threads| == |s.threads| && Run(s, moves).recorder == s.recorder
  {
    if moves != [] {
      RunKeepsShape(s, moves[..|moves| - 1]);
    }
  }

  /** A handler scheduled alone does exactly what serving its request does. */
  lemma SoloRunServes(s: System, i: nat, env: Env)
    requires i < |s.threads| && s.threads[i].Arriving?
    ensures var m := Move(i, env);
            var served := Serve(s.tables, s.counters, s.recorder, s.threads[i].arrival, env);
            Run(s, [m, m, m, m, m]) ==
            System(served.tables, served.counters, s.recorder, s.threads[i := Done(served.response)])
  {
    var m := Move(i, env);
    var s1 := Step(s, m);
    var s2 := Step(s1, m);
    var s3 := Step(s2, m);
    var s4 := Step(s3, m);
    var s5 := Step(s4, m);
    RunOfFive(s, m);
    SoloSteps(s.tables, s.counters, s.recorder, s.threads[i], env);
  }

  lemma RunOfFive(s: System, m: Move)
    ensures Run(s, [m, m, m, m, m]) == Step(Step(Step(Step(Step(s, m), m), m), m), m)
  {
    assert [m, m, m, m, m][..4] == [m, m, m, m];
    assert [m, m, m, m][..3] == [m, m, m];
    assert [m, m, m][..2] == [m, m];
    assert [m, m][..1] == [m];
    assert [m][..0] == [];
    assert Run(s, [m]) == Step(s, m);
    assert Run(s, [m, m, m]) == Step(Step(Step(s, m), m), m);
  }

  lemma SoloSteps(t: Tables, c: Counters, recorder: bool, th: Thread, env: Env)
    requires th.Arriving?
    ensures var l1 := Advance(t, c, recorder, th, env);
            var l2 := Advance(l1.tables, l1.counters, recorder, l1.thread, env);
            var l3 := Advance(l2.tables, l2.counters, recorder, l2.thread, env);
            var l4 := Advance(l3.tables, l3.counters, recorder, l3.thread, env);
            var l5 := Advance(l4.tables, l4.counters, recorder, l4.thread, env);
            var served := Serve(t, c, recorder, th.arrival, env);
            l5 == Local(served.tables, served.counters, Done(served.response))
  {
    if th.arrival.Valid? {
      var e, c' := th.arrival.event, CountArrival(c, th.arrival);
      var (t', inserted) := InsertEvent(t, e, env.skip, env.insert);
      if inserted.Success? {
        SoloUpdateSteps(t', c', recorder, e, inserted.value, env);
      }
    }
  }

  lemma SoloUpdateSteps(t: Tables, c: Counters, recorder: bool, e: PaymentEvent, id: int, env: Env)
    ensures var l1 := Advance(t, c, recorder, AtGet(e, id), env);
            var l2 := Advance(l1.tables, l1.counters, recorder, l1.thread, env);
            var l3 := Advance(l2.tables, l2.counters, recorder, l2.thread, env);
            var (t', outcome) := ProcessUpdate(t, e, id, Seen(env, recorder));
            var answer := if outcome.ProcessingFailed? then InternalError else Processed;
            l3 == Local(t', CountAnswer(CountUpdate(c, recorder, outcome), answer), Done(ResponseFor(answer)))
  {
    var current := Lookup(t.payments, e.paymentID);
    if env.get.Acked? && !Accepts(current, e) {
      UnfoldRecording(t, c, AnomaliesDetected(current.value, e, id), Seen(env, recorder).record);
    }
  }

  /* ---- Sums over handlers ---- */

  function Total(ts: seq<Thread>, weight: Thread -> nat): nat {
    if ts == [] then 0 else Total(ts[..|ts| - 1], weight) + weight(ts[|ts| - 1])
  }

  lemma {:induction false} TotalAfterUpdate(ts: seq<Thread>, i: nat, th: Thread, weight: Thread -> nat)
    requires i < |ts|
    ensures Total(ts[i := th], weight) + weight(ts[i]) == Total(ts, weight) + weight(th)
  {
    var n := |ts| - 1;
    if i == n {
      assert ts[i := th][..n] == ts[..n];
    } else {
      assert ts[i := th][..n] == ts[..n][i := th];
      TotalAfterUpdate(ts[..n], i, th, weight);
    }
  }

  lemma {:induction false} TotalOfNone(ts: seq<Thread>, weight: Thread -> nat)
    requires forall i | 0 <= i < |ts| :: weight(ts[i]) == 0
    ensures Total(ts, weight) == 0
  {
    if ts != [] {
      TotalOfNone(ts[..|ts| - 1], weight);
    }
  }

  lemma {:induction false} TotalIncludes(ts: seq<Thread>, i: nat, weight: Thread -> nat)
    requires i < |ts|
    ensures weight(ts[i]) <= Total(ts, weight)
  {
    if i < |ts| - 1 {
      TotalIncludes(ts[..|ts| - 1], i, weight);
    }
  }
}
