/** However handlers interleave and statements fail, an event updates its payment at most once. */
module AtMostOnce {
  import opened Webhook
  import opened Tables
  import opened Processing
  import opened Handler
  import opened Interleavings

  /** What a single step can be seen to do for an event. */
  datatype Deed = PassGate | SendUpsert | SendAnomaly

  predicate Does(s: System, m: Move, deed: Deed, providerEventID: string) {
    && m.thread < |s.threads|
    && var th := s.threads[m.thread];
       match deed
       case PassGate =>
         th.AtInsert? && th.event.providerEventID == providerEventID && Step(s, m).threads[m.thread].AtGet?
       case SendUpsert => th.AtUpsert? && th.event.providerEventID == providerEventID
       case SendAnomaly => s.recorder && th.AtRecord? && th.event.providerEventID == providerEventID
  }

  /** How often a schedule does it. */
  function Count(s: System, moves: seq<Move>, deed: Deed, providerEventID: string): nat {
    if moves == [] then 0
    else
      var n := |moves| - 1;
      Count(s, moves[..n], deed, providerEventID)
      + (if Does(Run(s, moves[..n]), moves[n], deed, providerEventID) then 1 else 0)
  }

  function BusyWith(providerEventID: string): Thread -> nat {
    (th: Thread) => if th.Busy() && th.event.providerEventID == providerEventID then 1 else 0
  }

  /**
    For each provider event id, in every schedule with any failures: at most one handler
    passes the insert, and at most one upsert or one anomaly insert follows from it. An id
    stored beforehand gets none.
   */
  lemma {:induction false} UpdatedAtMostOnce(s: System, moves: seq<Move>, providerEventID: string)
    requires AllArriving(s)
    ensures Count(s, moves, PassGate, providerEventID) <= 1
    ensures Count(s, moves, SendUpsert, providerEventID) + Count(s, moves, SendAnomaly, providerEventID)
            + Total(Run(s, moves).threads, BusyWith(providerEventID))
            <= Count(s, moves, PassGate, providerEventID)
    ensures providerEventID in s.tables.events ==> Count(s, moves, PassGate, providerEventID) == 0
    ensures Count(s, moves, PassGate, providerEventID) > 0 ==> providerEventID in Run(s, moves).tables.events
    ensures s.tables.events.Keys <= Run(s, moves).tables.events.Keys
  {
    if moves == [] {
      TotalOfNone(s.threads, BusyWith(providerEventID));
    } else {
      var n := |moves| - 1;
      UpdatedAtMostOnce(s, moves[..n], providerEventID);
      DeedsOfAStep(Run(s, moves[..n]), moves[n], providerEventID);
    }
  }

  lemma DeedsOfAStep(s: System, m: Move, providerEventID: string)
    ensures var before, after := Total(s.threads, BusyWith(providerEventID)),
                                 Total(Step(s, m).threads, BusyWith(providerEventID));
            && (if Does(s, m, PassGate, providerEventID) then
                  after == before + 1
                  && providerEventID !in s.tables.events && providerEventID in Step(s, m).tables.events
                else if Does(s, m, SendUpsert, providerEventID) || Does(s, m, SendAnomaly, providerEventID) then
                  after + 1 == before
                else after <= before)
            && s.tables.events.Keys <= Step(s, m).tables.events.Keys
    ensures !(Does(s, m, PassGate, providerEventID) && Does(s, m, SendUpsert, providerEventID))
    ensures !(Does(s, m, PassGate, providerEventID) && Does(s, m, SendAnomaly, providerEventID))
    ensures !(Does(s, m, SendUpsert, providerEventID) && Does(s, m, SendAnomaly, providerEventID))
  {
    if m.thread < |s.threads| {
      var th := Advance(s.tables, s.counters, s.recorder, s.threads[m.thread], m.env).thread;
      TotalAfterUpdate(s.threads, m.thread, th, BusyWith(providerEventID));
    }
  }

  /* ---- Exactly once ---- */

  predicate NewlyStores(s: System, m: Move, providerEventID: string) {
    providerEventID !in s.tables.events && providerEventID in Step(s, m).tables.events
  }

  /** The k-th move stores the event, and its handler is told. */
  predicate StoredAndTold(s: System, moves: seq<Move>, k: nat, providerEventID: string)
    requires k < |moves|
  {
    NewlyStores(Run(s, moves[..k]), moves[k], providerEventID) && moves[k].env.insert.Acked?
  }

  /**
    In every schedule the update of an event is invoked exactly once if the insert that stores
    it is acknowledged, and never otherwise. Failures of any other statement do not matter.
   */
  lemma PassedExactly(s: System, moves: seq<Move>, providerEventID: string)
    requires AllArriving(s)
    ensures Count(s, moves, PassGate, providerEventID) == 1 <==>
            exists k :: 0 <= k < |moves| && StoredAndTold(s, moves, k, providerEventID)
    ensures Count(s, moves, PassGate, providerEventID) <= 1
  {
    UpdatedAtMostOnce(s, moves, providerEventID);
    PassedIffStored(s, moves, providerEventID);
  }

  lemma {:induction false} PassedIffStored(s: System, moves: seq<Move>, providerEventID: string)
    ensures Count(s, moves, PassGate, providerEventID) > 0 <==>
            exists k :: 0 <= k < |moves| && StoredAndTold(s, moves, k, providerEventID)
  {
    if moves != [] {
      var n := |moves| - 1;
      PassedIffStored(s, moves[..n], providerEventID);
      forall k | 0 <= k < n
        ensures StoredAndTold(s, moves[..n], k, providerEventID) <==> StoredAndTold(s, moves, k, providerEventID)
      {
        assert moves[..n][..k] == moves[..k];
      }
      PassesIffStores(Run(s, moves[..n]), moves[n], providerEventID);
      if Does(Run(s, moves[..n]), moves[n], PassGate, providerEventID) {
        assert StoredAndTold(s, moves, n, providerEventID);
      }
      if k :| 0 <= k < n && StoredAndTold(s, moves[..n], k, providerEventID) {
        assert StoredAndTold(s, moves, k, providerEventID);
      }
    }
  }

  lemma PassesIffStores(s: System, m: Move, providerEventID: string)
    ensures Does(s, m, PassGate, providerEventID) <==> NewlyStores(s, m, providerEventID) && m.env.insert.Acked?
  {
  }

  /** No insert of this event fails; anything else may. */
  predicate InsertsAcked(s: System, moves: seq<Move>, providerEventID: string) {
    moves != [] ==>
      var n := |moves| - 1;
      var before, m := Run(s, moves[..n]), moves[n];
      InsertsAcked(s, moves[..n], providerEventID) && (Inserts(before, m, providerEventID) ==> m.env.insert.Acked?)
  }

  predicate Inserts(s: System, m: Move, providerEventID: string) {
    && m.thread < |s.threads|
    && s.threads[m.thread].AtInsert?
    && s.threads[m.thread].event.providerEventID == providerEventID
  }

  /**
    If none of its inserts fails, the update is invoked exactly once for every new event
    that some handler was given, provided that handler ran to the end.
   */
  lemma UpdatedExactlyOnce(s: System, moves: seq<Move>, i: nat)
    requires AllArriving(s)
    requires i < |s.threads| && s.threads[i].arrival.Valid?
    requires i < |Run(s, moves).threads| && Run(s, moves).threads[i].Done?
    requires s.threads[i].arrival.event.providerEventID !in s.tables.events
    requires InsertsAcked(s, moves, s.threads[i].arrival.event.providerEventID)
    ensures Count(s, moves, PassGate, s.threads[i].arrival.event.providerEventID) == 1
  {
    var providerEventID := s.threads[i].arrival.event.providerEventID;
    StoredOncePast(s, moves, i);
    StoredMeansPassed(s, moves, providerEventID);
    UpdatedAtMostOnce(s, moves, providerEventID);
  }

  /** A handler beyond its insert leaves its event stored. */
  lemma {:induction false} StoredOncePast(s: System, moves: seq<Move>, i: nat)
    requires AllArriving(s)
    requires i < |s.threads| && s.threads[i].arrival.Valid?
    requires InsertsAcked(s, moves, s.threads[i].arrival.event.providerEventID)
    ensures i < |Run(s, moves).threads|
    ensures var th, e := Run(s, moves).threads[i], s.threads[i].arrival.event;
            || th == s.threads[i]
            || th == AtInsert(e)
            || e.providerEventID in Run(s, moves).tables.events
  {
    if moves != [] {
      var n := |moves| - 1;
      StoredOncePast(s, moves[..n], i);
      DeedsOfAStep(Run(s, moves[..n]), moves[n], s.threads[i].arrival.event.providerEventID);
    }
  }

  lemma {:induction false} StoredMeansPassed(s: System, moves: seq<Move>, providerEventID: string)
    requires InsertsAcked(s, moves, providerEventID) && providerEventID !in s.tables.events
    ensures providerEventID in Run(s, moves).tables.events ==> Count(s, moves, PassGate, providerEventID) > 0
  {
    if moves != [] {
      StoredMeansPassed(s, moves[..|moves| - 1], providerEventID);
    }
  }

  /** A handler arrives, its insert takes effect but the reply is lost, and it answers with an error. */
  function LostInsert(i: nat): seq<Move> {
    var m := Move(i, NO_FAILURES.(insert := AckLost));
    [m, m, m]
  }

  /**
    Exactly once fails when the reply to the insert is lost: the event is stored, the provider
    is told of an error, and whatever happens afterwards, re-deliveries included, its update is never invoked.
   */
  lemma {:induction false} LostInsertIsNeverUpdated(s: System, i: nat, more: seq<Move>)
    requires AllArriving(s) && i < |s.threads| && s.threads[i].arrival.Valid?
    requires s.threads[i].arrival.event.providerEventID !in s.tables.events
    ensures var providerEventID := s.threads[i].arrival.event.providerEventID;
            && Run(s, LostInsert(i)).threads == s.threads[i := Done(ResponseFor(InternalError))]
            && Run(s, LostInsert(i)).tables.payments == s.tables.payments
            && providerEventID in Run(s, LostInsert(i) + more).tables.events
            && Count(s, LostInsert(i) + more, PassGate, providerEventID) == 0
  {
    LostInsertSteps(s, i);
    if more == [] {
      assert LostInsert(i) + more == LostInsert(i);
    } else {
      var n := |more| - 1;
      LostInsertIsNeverUpdated(s, i, more[..n]);
      assert (LostInsert(i) + more)[..|LostInsert(i) + more| - 1] == LostInsert(i) + more[..n];
      DeedsOfAStep(Run(s, LostInsert(i) + more[..n]), more[n], s.threads[i].arrival.event.providerEventID);
    }
  }

  lemma LostInsertSteps(s: System, i: nat)
    requires AllArriving(s) && i < |s.threads| && s.threads[i].arrival.Valid?
    requires s.threads[i].arrival.event.providerEventID !in s.tables.events
    ensures var providerEventID := s.threads[i].arrival.event.providerEventID;
            && Run(s, LostInsert(i)).threads == s.threads[i := Done(ResponseFor(InternalError))]
            && Run(s, LostInsert(i)).tables.payments == s.tables.payments
            && providerEventID in Run(s, LostInsert(i)).tables.events
            && Count(s, LostInsert(i), PassGate, providerEventID) == 0
  {
    var m, e := LostInsert(i)[0], s.threads[i].arrival.event;
    ThreeLostSteps(s, i, e);
    OneMore(s, [], m, e.providerEventID);
    OneMore(s, [m], m, e.providerEventID);
    OneMore(s, [m, m], m, e.providerEventID);
    assert [] + [m] == [m] && [m] + [m] == [m, m] && [m, m] + [m] == LostInsert(i);
  }

  lemma OneMore(s: System, moves: seq<Move>, m: Move, providerEventID: string)
    ensures Run(s, moves + [m]) == Step(Run(s, moves), m)
    ensures !Does(Run(s, moves), m, PassGate, providerEventID) ==>
              Count(s, moves + [m], PassGate, providerEventID) == Count(s, moves, PassGate, providerEventID)
  {
    assert (moves + [m])[..|moves|] == moves;
  }

  lemma ThreeLostSteps(s: System, i: nat, e: PaymentEvent)
    requires i < |s.threads| && s.threads[i] == Arriving(Valid(e)) && e.providerEventID !in s.tables.events
    ensures var m := LostInsert(i)[0];
            var s1 := Step(s, m);
            var s2 := Step(s1, m);
            var s3 := Step(s2, m);
            && s3.threads == s.threads[i := Done(ResponseFor(InternalError))]
            && s3.tables.payments == s.tables.payments
            && e.providerEventID in s3.tables.events
            && !Does(s, m, PassGate, e.providerEventID)
            && !Does(s1, m, PassGate, e.providerEventID)
            && !Does(s2, m, PassGate, e.providerEventID)
  {
    var m := LostInsert(i)[0];
    var s1 := Step(s, m);
    var s2 := Step(s1, m);
    assert s1.threads == s.threads[i := AtInsert(e)];
    assert s2.threads == s.threads[i := AtRespond(InternalError)];
  }

  /* ---- Independence from the anomaly recorder ---- */

  /** The same but for anomaly rows, anomaly counters and whether a recorder is configured. */
  ghost predicate SameButAnomalies(a: System, b: System) {
    && a.threads == b.threads
    && b.tables == a.tables.(anomalies := b.tables.anomalies)
    && b.counters == a.counters.(staleAnomalies := b.counters.staleAnomalies,
                                 invalidAnomalies := b.counters.invalidAnomalies)
  }

  /** The same schedule with other replies to the anomaly inserts. */
  ghost predicate SameButRecordReplies(x: seq<Move>, y: seq<Move>) {
    |x| == |y| && forall k | 0 <= k < |x| ::
      x[k].thread == y[k].thread && y[k].env == x[k].env.(record := y[k].env.record)
  }

  /**
    Two runs of the same schedule that differ in which anomaly inserts fail, or in having a
    recorder at all, end with the same payments, the same stored events and the same responses.
   */
  lemma {:induction false} RecorderDoesNotMatter(a: System, b: System, x: seq<Move>, y: seq<Move>)
    requires SameButAnomalies(a, b) && SameButRecordReplies(x, y)
    ensures SameButAnomalies(Run(a, x), Run(b, y))
  {
    if x != [] {
      var n := |x| - 1;
      RecorderDoesNotMatter(a, b, x[..n], y[..n]);
      var a', b' := Run(a, x[..n]), Run(b, y[..n]);
      var i := x[n].thread;
      if i < |a'.threads| {
        AdvanceIgnoresRecorder(a', b', a'.threads[i], x[n].env, y[n].env);
      }
    }
  }

  ghost predicate SameLocalButAnomalies(p: Local, q: Local) {
    && p.thread == q.thread
    && q.tables == p.tables.(anomalies := q.tables.anomalies)
    && q.counters == p.counters.(staleAnomalies := q.counters.staleAnomalies,
                                 invalidAnomalies := q.counters.invalidAnomalies)
  }

  lemma AdvanceIgnoresRecorder(a: System, b: System, th: Thread, x: Env, y: Env)
    requires SameButAnomalies(a, b) && y == x.(record := y.record)
    ensures SameLocalButAnomalies(Advance(a.tables, a.counters, a.recorder, th, x),
                                  Advance(b.tables, b.counters, b.recorder, th, y))
  {
    match th
    case AtInsert(e) => InsertIgnoresRecorder(a, b, e, x, y);
    case AtGet(e, id) => GetIgnoresRecorder(a, b, th, x, y);
    case AtRecord(_, _, _) => RecordIgnoresRecorder(a, b, th, x, y);
    case AtUpsert(_, _) => UpsertIgnoresRecorder(a, b, th, x, y);
    case _ => EndsIgnoreRecorder(a, b, th, x, y);
  }

  lemma InsertIgnoresRecorder(a: System, b: System, e: PaymentEvent, x: Env, y: Env)
    requires SameButAnomalies(a, b) && y == x.(record := y.record)
    ensures SameLocalButAnomalies(Advance(a.tables, a.counters, a.recorder, AtInsert(e), x),
                                  Advance(b.tables, b.counters, b.recorder, AtInsert(e), y))
  {
  }

  lemma GetIgnoresRecorder(a: System, b: System, th: Thread, x: Env, y: Env)
    requires SameButAnomalies(a, b) && y == x.(record := y.record) && th.AtGet?
    ensures SameLocalButAnomalies(Advance(a.tables, a.counters, a.recorder, th, x),
                                  Advance(b.tables, b.counters, b.recorder, th, y))
  {
  }

  lemma RecordIgnoresRecorder(a: System, b: System, th: Thread, x: Env, y: Env)
    requires SameButAnomalies(a, b) && y == x.(record := y.record) && th.AtRecord?
    ensures SameLocalButAnomalies(Advance(a.tables, a.counters, a.recorder, th, x),
                                  Advance(b.tables, b.counters, b.recorder, th, y))
  {
  }

  lemma UpsertIgnoresRecorder(a: System, b: System, th: Thread, x: Env, y: Env)
    requires SameButAnomalies(a, b) && y == x.(record := y.record) && th.AtUpsert?
    ensures SameLocalButAnomalies(Advance(a.tables, a.counters, a.recorder, th, x),
                                  Advance(b.tables, b.counters, b.recorder, th, y))
  {
  }

  lemma EndsIgnoreRecorder(a: System, b: System, th: Thread, x: Env, y: Env)
    requires SameButAnomalies(a, b) && (th.Arriving? || th.AtRespond? || th.Done?)
    ensures SameLocalButAnomalies(Advance(a.tables, a.counters, a.recorder, th, x),
                                  Advance(b.tables, b.counters, b.recorder, th, y))
  {
  }
}
