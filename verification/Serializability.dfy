/**
  A handler takes effect when it overwrites the row, or when it reads a row that makes it
  leave the row alone. Schedules follow the serial run in that order, with the same tables
  and the same answers, exactly when every upsert that takes effect finds a row it may
  replace: the guard that the unconditional upsert does not have.
 */
module Serializability {
  import opened Options
  import opened Webhook
  import opened Tables
  import opened Transitions
  import opened Processing
  import opened Handler
  import opened Ledgers
  import opened SerialRuns
  import Counting
  import opened Interleavings
  import opened Integrity

  /** A delivery together with the handler it stands for. */
  datatype Entry = Entry(handler: nat, delivery: Delivery)

  /** The deliveries that take effect at this step: at most one. */
  function TakesEffect(s: System, m: Move): seq<Entry> {
    if m.thread >= |s.threads| then []
    else match s.threads[m.thread]
         case AtInsert(e) =>
           if m.env.insert.AckLost? && e.providerEventID !in s.tables.events
           then [Entry(m.thread, Delivery(e, NO_FAILURES.(insert := AckLost)))] else []
         case AtGet(e, _) =>
           if !m.env.get.Acked? then [Entry(m.thread, Delivery(e, NO_FAILURES.(get := Rejected)))]
           else if Accepts(Lookup(s.tables.payments, e.paymentID), e) then []
           else [Entry(m.thread, Delivery(e, NO_FAILURES))]
         case AtUpsert(e, _) =>
           [Entry(m.thread, Delivery(e, if FailsIdly(s.tables, e, m.env.upsert) then NO_FAILURES.(get := Rejected)
                                        else NO_FAILURES.(upsert := m.env.upsert)))]
         case _ => []
  }

  /** The upsert is answered with an error and changes nothing: to a serial run, the same as a failed read. */
  predicate FailsIdly(t: Tables, e: PaymentEvent, reply: Reply) {
    reply.Rejected? || (reply.AckLost? && AlreadyThere(t, e))
  }

  predicate AlreadyThere(t: Tables, e: PaymentEvent) {
    Lookup(t.payments, e.paymentID) == Some(PaymentFromEvent(e))
  }

  /** The serial order of a schedule. */
  function SerialOrder(s: System, moves: seq<Move>): seq<Entry> {
    if moves == [] then []
    else
      var n := |moves| - 1;
      SerialOrder(s, moves[..n]) + TakesEffect(Run(s, moves[..n]), moves[n])
  }

  function Deliveries(log: seq<Entry>): seq<Delivery> {
    seq(|log|, k requires 0 <= k < |log| => log[k].delivery)
  }

  /** An upsert that takes effect finds a row it may replace, or its own row. */
  predicate Validated(s: System, m: Move) {
    m.thread < |s.threads| && s.threads[m.thread].AtUpsert? && !m.env.upsert.Rejected? ==>
      var e := s.threads[m.thread].event;
      Accepts(Lookup(s.tables.payments, e.paymentID), e) || AlreadyThere(s.tables, e)
  }

  predicate ValidatedRun(s: System, moves: seq<Move>) {
    moves != [] ==>
      var n := |moves| - 1;
      ValidatedRun(s, moves[..n]) && Validated(Run(s, moves[..n]), moves[n])
  }

  /** Anomalies that were detected but whose insert was refused or never sent. */
  function DroppedAt(s: System, m: Move): multiset<AnomalyColumns> {
    if m.thread < |s.threads| && s.threads[m.thread].AtRecord? && (!s.recorder || m.env.record.Rejected?)
    then multiset{s.threads[m.thread].anomaly.columns} else multiset{}
  }

  function Dropped(s: System, moves: seq<Move>): multiset<AnomalyColumns> {
    if moves == [] then multiset{}
    else
      var n := |moves| - 1;
      Dropped(s, moves[..n]) + DroppedAt(Run(s, moves[..n]), moves[n])
  }

  /* ---- The relation between the schedule and its serial run ---- */

  /** The event is stored, but the handler has not taken effect yet. */
  predicate Waiting(th: Thread) {
    th.AtGet? || th.AtUpsert?
  }

  predicate SomeoneWaits(ts: seq<Thread>, pid: string) {
    exists i | 0 <= i < |ts| :: Waiting(ts[i]) && ts[i].event.providerEventID == pid
  }

  /** Same payments; the serial run has stored all events but those of waiting handlers. */
  ghost predicate TablesAgree(s: System, g: Ledger) {
    && s.tables.payments == g.payments
    && (forall pid | pid in g.events :: pid in s.tables.events && s.tables.events[pid].columns == g.events[pid])
    && (forall pid | pid in s.tables.events && pid !in g.events :: SomeoneWaits(s.threads, pid))
    && (forall i | 0 <= i < |s.threads| && Waiting(s.threads[i]) :: s.threads[i].event.providerEventID !in g.events)
  }

  function Owes(a: AnomalyColumns): Thread -> nat {
    (th: Thread) => if th.AtRecord? && th.anomaly.columns == a then 1 else 0
  }

  /** Each anomaly of the serial run is recorded, about to be recorded, or was dropped. */
  ghost predicate AnomaliesAgree(s: System, g: Ledger, dropped: multiset<AnomalyColumns>) {
    forall a :: multiset(g.anomalies)[a] ==
                multiset(AnomaliesWithoutIDs(s.tables.anomalies))[a] + Total(s.threads, Owes(a)) + dropped[a]
  }

  /** The handler has given this answer, or is bound to. */
  predicate BoundTo(th: Thread, answer: Answer) {
    th == AtRespond(answer) || th == Done(ResponseFor(answer)) || (th.AtRecord? && answer == Processed)
  }

  /** Each entry's handler is bound to the answer of the serial run up to that entry. */
  ghost predicate AnswersAgree(l: Ledger, s: System, log: seq<Entry>) {
    log != [] ==>
      var n := |log| - 1;
      && AnswersAgree(l, s, log[..n])
      && log[n].handler < |s.threads|
      && BoundTo(s.threads[log[n].handler], AnswerOf(PostAll(l, Deliveries(log[..n])), log[n].delivery))
  }

  /* ---- One step ---- */

  /** What one step appends to the serial run. */
  function Effect(g: Ledger, s: System, m: Move): Ledger {
    var log := TakesEffect(s, m);
    if log == [] then g else Post(g, log[0].delivery)
  }

  /** The handler starts to wait: its event is new to both runs. */
  lemma StartWaiting(s: System, s': System, i: nat, th: Thread, g: Ledger, row: EventRow)
    requires TablesAgree(s, g) && i < |s.threads| && !Waiting(s.threads[i])
    requires s'.threads == s.threads[i := th] && Waiting(th)
    requires th.event.providerEventID !in s.tables.events && s'.tables.payments == s.tables.payments
    requires s'.tables.events == s.tables.events[th.event.providerEventID := row]
    ensures TablesAgree(s', g)
  {
    forall pid | pid in s'.tables.events && pid !in g.events ensures SomeoneWaits(s'.threads, pid) {
      if pid == th.event.providerEventID {
        assert Waiting(s'.threads[i]);
      } else {
        var j :| 0 <= j < |s.threads| && Waiting(s.threads[j]) && s.threads[j].event.providerEventID == pid;
        assert Waiting(s'.threads[j]);
      }
    }
  }

  /** The event is stored in both runs, and its handler never waits. */
  lemma StoredWithoutWaiting(s: System, s': System, i: nat,
                             th: Thread, g: Ledger, g': Ledger, e: PaymentEvent, row: EventRow)
    requires TablesAgree(s, g) && Sound(s) && i < |s.threads| && !Waiting(s.threads[i])
    requires s'.threads == s.threads[i := th] && !Waiting(th)
    requires e.providerEventID !in s.tables.events
    requires s'.tables.payments == s.tables.payments == g'.payments
    requires row.columns == ColumnsOf(e) && s'.tables.events == s.tables.events[e.providerEventID := row]
    requires g'.events == g.events[e.providerEventID := ColumnsOf(e)]
    ensures TablesAgree(s', g')
  {
    forall pid | pid in s'.tables.events && pid !in g'.events ensures SomeoneWaits(s'.threads, pid) {
      var j :| 0 <= j < |s.threads| && Waiting(s.threads[j]) && s.threads[j].event.providerEventID == pid;
      assert Waiting(s'.threads[j]);
    }
    forall j | 0 <= j < |s'.threads| && Waiting(s'.threads[j])
      ensures s'.threads[j].event.providerEventID !in g'.events
    {
      assert ThreadSound(s.tables, s.threads[j]);
    }
  }

  lemma InsertKeepsTablesAgree(s: System, m: Move, g: Ledger)
    requires TablesAgree(s, g) && Sound(s) && m.thread < |s.threads| && s.threads[m.thread].AtInsert?
    ensures TablesAgree(Step(s, m), Effect(g, s, m))
  {
    var i, e := m.thread, s.threads[m.thread].event;
    var s', g' := Step(s, m), Effect(g, s, m);
    if e.providerEventID in s.tables.events || m.env.insert.Rejected? {
      KeepWaiting(s, s', i, s'.threads[i], g);
    } else {
      var row := s'.tables.events[e.providerEventID];
      assert row.columns == ColumnsOf(e) && s'.tables.events == s.tables.events[e.providerEventID := row];
      if m.env.insert.Acked? {
        StartWaiting(s, s', i, s'.threads[i], g, row);
      } else {
        StoredWithoutWaiting(s, s', i, s'.threads[i], g, g', e, row);
      }
    }
  }

  /** The handler stops waiting: its event is now stored in both runs. */
  lemma StopWaiting(s: System, s': System, i: nat, th: Thread, g: Ledger, g': Ledger)
    requires TablesAgree(s, g) && Sound(s)
    requires i < |s.threads| && Waiting(s.threads[i])
    requires s'.threads == s.threads[i := th] && !Waiting(th)
    requires s'.tables.events == s.tables.events && s'.tables.payments == g'.payments
    requires g'.events == g.events[s.threads[i].event.providerEventID := ColumnsOf(s.threads[i].event)]
    ensures TablesAgree(s', g')
  {
    var e := s.threads[i].event;
    assert HasRow(s.tables, e);
    forall pid | pid in s'.tables.events && pid !in g'.events ensures SomeoneWaits(s'.threads, pid) {
      var j :| 0 <= j < |s.threads| && Waiting(s.threads[j]) && s.threads[j].event.providerEventID == pid;
      assert Waiting(s'.threads[j]);
    }
    forall j | 0 <= j < |s'.threads| && Waiting(s'.threads[j])
      ensures s'.threads[j].event.providerEventID !in g'.events
    {
      assert Waiting(s.threads[j]) && s.threads[i].Busy() && s.threads[j].Busy();
    }
  }

  lemma KeepWaiting(s: System, s': System, i: nat, th: Thread, g: Ledger)
    requires TablesAgree(s, g)
    requires i < |s.threads| && s'.threads == s.threads[i := th]
    requires s'.tables.events == s.tables.events && s'.tables.payments == s.tables.payments
    requires Waiting(th) == Waiting(s.threads[i])
    requires Waiting(th) ==> th.event == s.threads[i].event
    ensures TablesAgree(s', g)
  {
    forall pid | pid in s'.tables.events && pid !in g.events ensures SomeoneWaits(s'.threads, pid) {
      var j :| 0 <= j < |s.threads| && Waiting(s.threads[j]) && s.threads[j].event.providerEventID == pid;
      assert Waiting(s'.threads[j]);
    }
  }

  lemma GetKeepsTablesAgree(s: System, m: Move, g: Ledger)
    requires TablesAgree(s, g) && Sound(s) && m.thread < |s.threads| && s.threads[m.thread].AtGet?
    ensures TablesAgree(Step(s, m), Effect(g, s, m))
  {
    var i := m.thread;
    GetStep(s, m);
    if TakesEffect(s, m) == [] {
      KeepWaiting(s, Step(s, m), i, Step(s, m).threads[i], g);
    } else {
      GetEffect(s, m, g);
      StopWaiting(s, Step(s, m), i, Step(s, m).threads[i], g, Effect(g, s, m));
    }
  }

  lemma GetStep(s: System, m: Move)
    requires m.thread < |s.threads| && s.threads[m.thread].AtGet?
    ensures var s', th := Step(s, m), Step(s, m).threads[m.thread];
            && s'.threads == s.threads[m.thread := th]
            && s'.tables == s.tables
            && (TakesEffect(s, m) == [] ==> th.AtUpsert? && th.event == s.threads[m.thread].event)
            && (TakesEffect(s, m) != [] ==> !Waiting(th))
  {
  }

  lemma GetEffect(s: System, m: Move, g: Ledger)
    requires TablesAgree(s, g) && m.thread < |s.threads| && s.threads[m.thread].AtGet? && TakesEffect(s, m) != []
    ensures var e := s.threads[m.thread].event;
            && Effect(g, s, m).events == g.events[e.providerEventID := ColumnsOf(e)]
            && Effect(g, s, m).payments == g.payments
  {
    PostByParts(g, TakesEffect(s, m)[0].delivery);
  }

  lemma UpsertEffect(s: System, m: Move, g: Ledger)
    requires TablesAgree(s, g) && Validated(s, m) && m.thread < |s.threads| && s.threads[m.thread].AtUpsert?
    ensures var e := s.threads[m.thread].event;
            && Effect(g, s, m).events == g.events[e.providerEventID := ColumnsOf(e)]
            && Effect(g, s, m).payments == Step(s, m).tables.payments
  {
    PostByParts(g, TakesEffect(s, m)[0].delivery);
  }

  lemma UpsertKeepsTablesAgree(s: System, m: Move, g: Ledger)
    requires TablesAgree(s, g) && Sound(s) && Validated(s, m)
    requires m.thread < |s.threads| && s.threads[m.thread].AtUpsert?
    ensures TablesAgree(Step(s, m), Effect(g, s, m))
  {
    UpsertEffect(s, m, g);
    StopWaiting(s, Step(s, m), m.thread, Step(s, m).threads[m.thread], g, Effect(g, s, m));
  }

  lemma OtherStepsKeepTablesAgree(s: System, m: Move, g: Ledger)
    requires TablesAgree(s, g) && m.thread < |s.threads|
             && !Waiting(s.threads[m.thread]) && !s.threads[m.thread].AtInsert?
    ensures TablesAgree(Step(s, m), Effect(g, s, m))
  {
    KeepWaiting(s, Step(s, m), m.thread, Step(s, m).threads[m.thread], g);
  }

  lemma StepKeepsTablesAgree(s: System, m: Move, g: Ledger)
    requires TablesAgree(s, g) && Sound(s) && Validated(s, m)
    ensures TablesAgree(Step(s, m), Effect(g, s, m))
  {
    if m.thread < |s.threads| {
      match s.threads[m.thread]
      case AtInsert(_) => InsertKeepsTablesAgree(s, m, g);
      case AtGet(_, _) => GetKeepsTablesAgree(s, m, g);
      case AtUpsert(_, _) => UpsertKeepsTablesAgree(s, m, g);
      case _ => OtherStepsKeepTablesAgree(s, m, g);
    }
  }

  lemma AppendWithoutIDs(rows: seq<AnomalyRow>, row: AnomalyRow)
    ensures AnomaliesWithoutIDs(rows + [row]) == AnomaliesWithoutIDs(rows) + [row.columns]
  {
  }

  /** Over one step, each anomaly of the serial run moves from owed to recorded or dropped. */
  ghost predicate AnomalyBalance(s: System, m: Move, g: Ledger, a: AnomalyColumns)
    requires m.thread < |s.threads|
  {
    multiset(Effect(g, s, m).anomalies)[a]
    + multiset(AnomaliesWithoutIDs(s.tables.anomalies))[a] + Owes(a)(s.threads[m.thread])
    == multiset(g.anomalies)[a]
    + multiset(AnomaliesWithoutIDs(Step(s, m).tables.anomalies))[a] + Owes(a)(Step(s, m).threads[m.thread])
    + DroppedAt(s, m)[a]
  }

  lemma GetOwesWhatItRaises(s: System, m: Move, g: Ledger, a: AnomalyColumns)
    requires TablesAgree(s, g) && m.thread < |s.threads| && s.threads[m.thread].AtGet?
    ensures multiset(Effect(g, s, m).anomalies)[a] ==
            multiset(g.anomalies)[a] + Owes(a)(Step(s, m).threads[m.thread])
  {
    if TakesEffect(s, m) != [] {
      PostByParts(g, TakesEffect(s, m)[0].delivery);
    }
  }

  lemma GetBalancesAnomalies(s: System, m: Move, g: Ledger, a: AnomalyColumns)
    requires TablesAgree(s, g) && m.thread < |s.threads| && s.threads[m.thread].AtGet?
    ensures AnomalyBalance(s, m, g, a)
  {
    GetOwesWhatItRaises(s, m, g, a);
    assert Step(s, m).tables.anomalies == s.tables.anomalies;
  }

  lemma RecordAppends(s: System, m: Move)
    requires Sound(s) && m.thread < |s.threads| && s.threads[m.thread].AtRecord?
    ensures Step(s, m).tables.anomalies ==
            if s.recorder && !m.env.record.Rejected?
            then s.tables.anomalies
                 + [AnomalyRow(Some(s.threads[m.thread].anomaly.webhookEventID), s.threads[m.thread].anomaly.columns)]
            else s.tables.anomalies
  {
    assert ThreadSound(s.tables, s.threads[m.thread]);
    RecordKeepsTables(s.tables, s.threads[m.thread].anomaly, m.env.record);
  }

  lemma RecordBalancesAnomalies(s: System, m: Move, g: Ledger, a: AnomalyColumns)
    requires Sound(s) && m.thread < |s.threads| && s.threads[m.thread].AtRecord?
    ensures AnomalyBalance(s, m, g, a)
  {
    var anomaly := s.threads[m.thread].anomaly;
    RecordAppends(s, m);
    AppendWithoutIDs(s.tables.anomalies, AnomalyRow(Some(anomaly.webhookEventID), anomaly.columns));
    assert TakesEffect(s, m) == [];
  }

  lemma OtherStepsKeepAnomalies(s: System, m: Move, g: Ledger)
    requires TablesAgree(s, g) && Sound(s) && Validated(s, m) && m.thread < |s.threads|
    requires !s.threads[m.thread].AtGet? && !s.threads[m.thread].AtRecord?
    ensures Effect(g, s, m).anomalies == g.anomalies
  {
    assert ThreadSound(s.tables, s.threads[m.thread]);
    if TakesEffect(s, m) != [] {
      PostByParts(g, TakesEffect(s, m)[0].delivery);
    }
  }

  lemma OtherStepsRecordNothing(s: System, m: Move)
    requires m.thread < |s.threads| && !s.threads[m.thread].AtGet? && !s.threads[m.thread].AtRecord?
    ensures Step(s, m).tables.anomalies == s.tables.anomalies
    ensures !Step(s, m).threads[m.thread].AtRecord? && DroppedAt(s, m) == multiset{}
  {
  }

  lemma OtherStepsBalanceAnomalies(s: System, m: Move, g: Ledger, a: AnomalyColumns)
    requires TablesAgree(s, g) && Sound(s) && Validated(s, m) && m.thread < |s.threads|
    requires !s.threads[m.thread].AtGet? && !s.threads[m.thread].AtRecord?
    ensures AnomalyBalance(s, m, g, a)
  {
    OtherStepsKeepAnomalies(s, m, g);
    OtherStepsRecordNothing(s, m);
  }

  lemma StepBalancesAnomalies(s: System, m: Move, g: Ledger, a: AnomalyColumns)
    requires TablesAgree(s, g) && Sound(s) && Validated(s, m) && m.thread < |s.threads|
    ensures AnomalyBalance(s, m, g, a)
  {
    match s.threads[m.thread]
    case AtGet(_, _) => GetBalancesAnomalies(s, m, g, a);
    case AtRecord(_, _, _) => RecordBalancesAnomalies(s, m, g, a);
    case _ => OtherStepsBalanceAnomalies(s, m, g, a);
  }

  lemma StepKeepsAnomaliesAgree(s: System, m: Move, g: Ledger, dropped: multiset<AnomalyColumns>)
    requires AnomaliesAgree(s, g, dropped) && TablesAgree(s, g) && Sound(s) && Validated(s, m)
    ensures AnomaliesAgree(Step(s, m), Effect(g, s, m), dropped + DroppedAt(s, m))
  {
    if m.thread < |s.threads| {
      forall a ensures multiset(Effect(g, s, m).anomalies)[a] ==
                       multiset(AnomaliesWithoutIDs(Step(s, m).tables.anomalies))[a]
                       + Total(Step(s, m).threads, Owes(a))
                       + (dropped + DroppedAt(s, m))[a]
      {
        TotalAfterUpdate(s.threads, m.thread, Step(s, m).threads[m.thread], Owes(a));
        StepBalancesAnomalies(s, m, g, a);
      }
    }
  }

  /** What takes effect is new to the serial run. */
  lemma EffectIsNew(s: System, m: Move, g: Ledger)
    requires TablesAgree(s, g) && TakesEffect(s, m) != []
    ensures TakesEffect(s, m)[0].handler == m.thread < |s.threads|
    ensures IsNew(g, TakesEffect(s, m)[0].delivery)
  {
  }

  lemma InsertAnswers(s: System, m: Move, g: Ledger)
    requires TablesAgree(s, g) && TakesEffect(s, m) != [] && s.threads[m.thread].AtInsert?
    ensures BoundTo(Step(s, m).threads[m.thread], AnswerOf(g, TakesEffect(s, m)[0].delivery))
  {
    EffectIsNew(s, m, g);
  }

  lemma GetAnswers(s: System, m: Move, g: Ledger)
    requires TablesAgree(s, g) && TakesEffect(s, m) != [] && s.threads[m.thread].AtGet?
    ensures BoundTo(Step(s, m).threads[m.thread], AnswerOf(g, TakesEffect(s, m)[0].delivery))
  {
    EffectIsNew(s, m, g);
  }

  lemma UpsertAnswers(s: System, m: Move, g: Ledger)
    requires TablesAgree(s, g) && Sound(s) && Validated(s, m)
             && TakesEffect(s, m) != [] && s.threads[m.thread].AtUpsert?
    ensures BoundTo(Step(s, m).threads[m.thread], AnswerOf(g, TakesEffect(s, m)[0].delivery))
  {
    EffectIsNew(s, m, g);
    assert ThreadSound(s.tables, s.threads[m.thread]);
  }

  /** The handler that takes effect answers as its serial delivery does. */
  lemma EffectAnswers(s: System, m: Move, g: Ledger)
    requires TablesAgree(s, g) && Sound(s) && Validated(s, m) && TakesEffect(s, m) != []
    ensures TakesEffect(s, m)[0].handler == m.thread < |s.threads|
    ensures BoundTo(Step(s, m).threads[m.thread], AnswerOf(g, TakesEffect(s, m)[0].delivery))
  {
    EffectIsNew(s, m, g);
    match s.threads[m.thread]
    case AtInsert(_) => InsertAnswers(s, m, g);
    case AtGet(_, _) => GetAnswers(s, m, g);
    case AtUpsert(_, _) => UpsertAnswers(s, m, g);
    case _ =>
  }

  lemma BoundStaysBound(t: Tables, c: Counting.Counters, recorder: bool, th: Thread, env: Env, answer: Answer)
    requires BoundTo(th, answer)
    ensures BoundTo(Advance(t, c, recorder, th, env).thread, answer)
  {
  }

  /** The serial run so far stores exactly the events of its entries, each for the first time. */
  ghost predicate FreshLog(l: Ledger, log: seq<Entry>, g: Ledger) {
    && (forall k | 0 <= k < |log| ::
          var pid := log[k].delivery.event.providerEventID; pid !in l.events && pid in g.events)
    && (forall j, k | 0 <= j < k < |log| ::
          log[j].delivery.event.providerEventID != log[k].delivery.event.providerEventID)
  }

  lemma StepExtendsLog(l: Ledger, s: System, m: Move, log: seq<Entry>, g: Ledger)
    requires g == PostAll(l, Deliveries(log))
    ensures PostAll(l, Deliveries(log + TakesEffect(s, m))) == Effect(g, s, m)
  {
    if TakesEffect(s, m) == [] {
      assert log + TakesEffect(s, m) == log;
    } else {
      PostEntry(l, log, TakesEffect(s, m)[0]);
      assert TakesEffect(s, m) == [TakesEffect(s, m)[0]];
    }
  }

  lemma PostEntry(l: Ledger, log: seq<Entry>, entry: Entry)
    ensures PostAll(l, Deliveries(log + [entry])) == Post(PostAll(l, Deliveries(log)), entry.delivery)
  {
    assert Deliveries(log + [entry])[..|log|] == Deliveries(log);
  }

  lemma StepKeepsLogFresh(l: Ledger, s: System, m: Move, log: seq<Entry>, g: Ledger)
    requires TablesAgree(s, g) && FreshLog(l, log, g) && Sound(s) && Validated(s, m)
    requires l.events.Keys <= g.events.Keys
    ensures FreshLog(l, log + TakesEffect(s, m), Effect(g, s, m))
    ensures l.events.Keys <= Effect(g, s, m).events.Keys
  {
    if TakesEffect(s, m) != [] {
      EffectIsNew(s, m, g);
      FreshEntry(l, log, g, TakesEffect(s, m)[0]);
      assert TakesEffect(s, m) == [TakesEffect(s, m)[0]];
    } else {
      assert log + TakesEffect(s, m) == log;
    }
  }

  lemma FreshEntry(l: Ledger, log: seq<Entry>, g: Ledger, entry: Entry)
    requires FreshLog(l, log, g) && IsNew(g, entry.delivery) && l.events.Keys <= g.events.Keys
    ensures FreshLog(l, log + [entry], Post(g, entry.delivery))
    ensures l.events.Keys <= Post(g, entry.delivery).events.Keys
  {
    PostByParts(g, entry.delivery);
  }

  /** Answers given or settled before the step stay so. */
  lemma {:induction false} EarlierAnswersStay(l: Ledger, s: System, m: Move, log: seq<Entry>)
    requires AnswersAgree(l, s, log)
    ensures AnswersAgree(l, Step(s, m), log)
  {
    if log != [] {
      var n := |log| - 1;
      EarlierAnswersStay(l, s, m, log[..n]);
      if log[n].handler == m.thread {
        BoundStaysBound(s.tables, s.counters, s.recorder, s.threads[m.thread], m.env,
                        AnswerOf(PostAll(l, Deliveries(log[..n])), log[n].delivery));
      }
    }
  }

  lemma AnswersExtend(l: Ledger, s: System, log: seq<Entry>, entry: Entry)
    requires AnswersAgree(l, s, log) && entry.handler < |s.threads|
    requires BoundTo(s.threads[entry.handler], AnswerOf(PostAll(l, Deliveries(log)), entry.delivery))
    ensures AnswersAgree(l, s, log + [entry])
  {
    assert (log + [entry])[..|log|] == log;
  }

  lemma {:induction false} AnswerAt(l: Ledger, s: System, log: seq<Entry>, k: nat)
    requires AnswersAgree(l, s, log) && k < |log|
    ensures log[k].handler < |s.threads|
    ensures BoundTo(s.threads[log[k].handler], AnswerOf(PostAll(l, Deliveries(log[..k])), log[k].delivery))
  {
    var n := |log| - 1;
    if k < n {
      AnswerAt(l, s, log[..n], k);
      assert log[..n][..k] == log[..k];
    }
  }

  lemma StepKeepsAnswersAgree(l: Ledger, s: System, m: Move, log: seq<Entry>, g: Ledger)
    requires g == PostAll(l, Deliveries(log))
    requires TablesAgree(s, g) && Sound(s) && Validated(s, m) && AnswersAgree(l, s, log)
    ensures AnswersAgree(l, Step(s, m), log + TakesEffect(s, m))
  {
    EarlierAnswersStay(l, s, m, log);
    if TakesEffect(s, m) == [] {
      assert log + TakesEffect(s, m) == log;
    } else {
      EffectAnswers(s, m, g);
      AnswersExtend(l, Step(s, m), log, TakesEffect(s, m)[0]);
      assert TakesEffect(s, m) == [TakesEffect(s, m)[0]];
    }
  }

  /* ---- Whole schedules ---- */

  /** At every point of a validated schedule, the tables and answers are those of the serial run so far. */
  lemma {:induction false} AlwaysSerializable(s: System, moves: seq<Move>)
    requires StartsSound(s) && ValidatedRun(s, moves)
    ensures var l, log := LedgerOf(s.tables), SerialOrder(s, moves);
            var s', g := Run(s, moves), PostAll(l, Deliveries(log));
            && TablesAgree(s', g)
            && AnomaliesAgree(s', g, Dropped(s, moves))
            && AnswersAgree(l, s', log)
            && FreshLog(l, log, g)
            && l.events.Keys <= g.events.Keys
  {
    if moves == [] {
      forall a ensures Total(s.threads, Owes(a)) == 0 {
        TotalOfNone(s.threads, Owes(a));
      }
    } else {
      var n := |moves| - 1;
      var before, m := Run(s, moves[..n]), moves[n];
      var l, log := LedgerOf(s.tables), SerialOrder(s, moves[..n]);
      var g := PostAll(l, Deliveries(log));
      AlwaysSerializable(s, moves[..n]);
      AlwaysSound(s, moves[..n]);
      StepKeepsTablesAgree(before, m, g);
      StepKeepsAnomaliesAgree(before, m, g, Dropped(s, moves[..n]));
      StepExtendsLog(l, before, m, log, g);
      StepKeepsLogFresh(l, before, m, log, g);
      StepKeepsAnswersAgree(l, before, m, log, g);
    }
  }

  /**
    Once all handlers are done: the same stored events, the same payments, and the same
    anomalies but for those whose insert failed, as the serial run of the newly stored events,
    each once; and every one of them was answered as the serial run answers it.
   */
  lemma SerializableAtRest(s: System, moves: seq<Move>)
    requires StartsSound(s) && ValidatedRun(s, moves) && AllDone(Run(s, moves))
    ensures var l, log, end := LedgerOf(s.tables), SerialOrder(s, moves), LedgerOf(Run(s, moves).tables);
            var g := PostAll(l, Deliveries(log));
            && end.events == g.events
            && end.payments == g.payments
            && multiset(g.anomalies) == multiset(end.anomalies) + Dropped(s, moves)
            && FreshLog(l, log, g)
    ensures var l, log, s' := LedgerOf(s.tables), SerialOrder(s, moves), Run(s, moves);
            forall k | 0 <= k < |log| ::
              && log[k].handler < |s'.threads|
              && s'.threads[log[k].handler] ==
                 Done(ResponseFor(AnswerOf(PostAll(l, Deliveries(log[..k])), log[k].delivery)))
  {
    AlwaysSerializable(s, moves);
    AtRest(LedgerOf(s.tables), Run(s, moves), SerialOrder(s, moves), Dropped(s, moves));
    AnswersAtRest(LedgerOf(s.tables), Run(s, moves), SerialOrder(s, moves));
  }

  /* ---- The exact condition ---- */

  /** At every point the payments are those of the serial run so far. */
  ghost predicate PaymentsFollow(s: System, moves: seq<Move>) {
    forall k | 0 <= k <= |moves| :: PaymentsFollowAt(s, moves[..k])
  }

  ghost predicate PaymentsFollowAt(s: System, moves: seq<Move>) {
    Run(s, moves).tables.payments == PostAll(LedgerOf(s.tables), Deliveries(SerialOrder(s, moves))).payments
  }

  lemma {:induction false} ValidatedPrefix(s: System, moves: seq<Move>, k: nat)
    requires ValidatedRun(s, moves) && k <= |moves|
    ensures ValidatedRun(s, moves[..k])
    ensures k < |moves| ==> Validated(Run(s, moves[..k]), moves[k])
  {
    var n := |moves| - 1;
    if k == |moves| {
      assert moves[..k] == moves;
    } else if k < n {
      ValidatedPrefix(s, moves[..n], k);
      assert moves[..n][..k] == moves[..k];
    }
  }

  /** What a step that is not validated does: the schedule overwrites a row that the serial run keeps. */
  lemma UnvalidatedDeparts(s: System, m: Move, g: Ledger)
    requires TablesAgree(s, g) && !Validated(s, m)
    ensures Step(s, m).tables.payments != Effect(g, s, m).payments
  {
    var e := s.threads[m.thread].event;
    PostByParts(g, TakesEffect(s, m)[0].delivery);
    assert Lookup(Step(s, m).tables.payments, e.paymentID) == Some(PaymentFromEvent(e));
    assert Effect(g, s, m).payments == g.payments;
  }

  /**
    The payments follow the serial run throughout if and only if the schedule is validated;
    and then, by AlwaysSerializable, so do events, anomalies and answers.
   */
  lemma {:induction false} SerializableExactly(s: System, moves: seq<Move>)
    requires StartsSound(s)
    ensures PaymentsFollow(s, moves) <==> ValidatedRun(s, moves)
  {
    if ValidatedRun(s, moves) {
      forall k | 0 <= k <= |moves| ensures PaymentsFollowAt(s, moves[..k]) {
        ValidatedPrefix(s, moves, k);
        AlwaysSerializable(s, moves[..k]);
      }
    }
    if PaymentsFollow(s, moves) && moves != [] {
      var n := |moves| - 1;
      forall k | 0 <= k <= n ensures PaymentsFollowAt(s, moves[..n][..k]) {
        assert moves[..n][..k] == moves[..k];
      }
      SerializableExactly(s, moves[..n]);
      assert moves[..|moves|] == moves && PaymentsFollowAt(s, moves);
      FollowingIsValidated(s, moves);
    }
  }

  lemma FollowingIsValidated(s: System, moves: seq<Move>)
    requires StartsSound(s) && moves != [] && ValidatedRun(s, moves[..|moves| - 1]) && PaymentsFollowAt(s, moves)
    ensures ValidatedRun(s, moves)
  {
    var n := |moves| - 1;
    var before, m, l, log := Run(s, moves[..n]), moves[n], LedgerOf(s.tables), SerialOrder(s, moves[..n]);
    var g := PostAll(l, Deliveries(log));
    AlwaysSerializable(s, moves[..n]);
    StepExtendsLog(l, before, m, log, g);
    if !Validated(before, m) {
      UnvalidatedDeparts(before, m, g);
    }
  }

  /** The row stays, appears, or moves along an edge of the graph to a later timestamp. */
  predicate StaysOrFollows(before: Option<Payment>, after: Option<Payment>) {
    after == before || (after.Some? && (before.Some? ==> Follows(before.value, after.value)))
  }

  ghost predicate StepsAlongEdges(s: System, m: Move) {
    forall p: string :: StaysOrFollows(Lookup(s.tables.payments, p), Lookup(Step(s, m).tables.payments, p))
  }

  ghost predicate RunsAlongEdges(s: System, moves: seq<Move>) {
    moves != [] ==>
      var n := |moves| - 1;
      RunsAlongEdges(s, moves[..n]) && StepsAlongEdges(Run(s, moves[..n]), moves[n])
  }

  lemma ValidatedStepsAlongEdges(s: System, m: Move)
    requires PaymentsBacked(s.tables)
    ensures Validated(s, m) <==> StepsAlongEdges(s, m)
  {
    if m.thread < |s.threads| && s.threads[m.thread].AtUpsert? && !m.env.upsert.Rejected? {
      var e := s.threads[m.thread].event;
      assert Lookup(Step(s, m).tables.payments, e.paymentID) == Some(PaymentFromEvent(e));
      if StepsAlongEdges(s, m) {
        assert StaysOrFollows(Lookup(s.tables.payments, e.paymentID), Lookup(Step(s, m).tables.payments, e.paymentID));
      }
    }
  }

  /**
    The same condition decides the history of rows: every payment only ever moves along edges of
    the graph, to later timestamps, if and only if the schedule is validated.
   */
  lemma {:induction false} HistoriesArePathsExactly(s: System, moves: seq<Move>)
    requires StartsSound(s)
    ensures RunsAlongEdges(s, moves) <==> ValidatedRun(s, moves)
  {
    if moves != [] {
      var n := |moves| - 1;
      HistoriesArePathsExactly(s, moves[..n]);
      AlwaysSound(s, moves[..n]);
      ValidatedStepsAlongEdges(Run(s, moves[..n]), moves[n]);
    }
  }

  /* ---- What serial runs keep, kept by validated schedules ---- */

  lemma {:induction false} OrderGrows(s: System, moves: seq<Move>, k: nat)
    requires k <= |moves|
    ensures SerialOrder(s, moves[..k]) <= SerialOrder(s, moves)
  {
    if k == |moves| {
      assert moves[..k] == moves;
    } else {
      var n := |moves| - 1;
      OrderGrows(s, moves[..n], k);
      assert moves[..n][..k] == moves[..k];
    }
  }

  /**
    Between any two points of a validated schedule no payment's phase or timestamp goes back, and
    terminal rows stay.
   */
  lemma ValidatedPhasesNeverGoBack(s: System, moves: seq<Move>, k: nat, paymentID: string)
    requires StartsSound(s) && ValidatedRun(s, moves) && k <= |moves|
    requires paymentID in Run(s, moves[..k]).tables.payments
    ensures paymentID in Run(s, moves).tables.payments
    ensures PhaseOrder(Run(s, moves[..k]).tables.payments[paymentID], Run(s, moves).tables.payments[paymentID])
  {
    var ds, more := TwoPoints(s, moves, k);
    PhasesNeverGoBack(LedgerOf(s.tables), ds, more, paymentID);
  }

  /** The serial runs of two points of a schedule: the later one goes on where the earlier one stops. */
  lemma TwoPoints(s: System, moves: seq<Move>, k: nat) returns (ds: seq<Delivery>, more: seq<Delivery>)
    requires StartsSound(s) && ValidatedRun(s, moves) && k <= |moves|
    ensures Run(s, moves[..k]).tables.payments == PostAll(LedgerOf(s.tables), ds).payments
    ensures Run(s, moves).tables.payments == PostAll(LedgerOf(s.tables), ds + more).payments
  {
    SerializableExactly(s, moves);
    assert moves[..|moves|] == moves;
    assert PaymentsFollowAt(s, moves[..k]) && PaymentsFollowAt(s, moves[..|moves|]);
    OrderGrows(s, moves, k);
    ds := Deliveries(SerialOrder(s, moves[..k]));
    more := DeliveriesSplit(SerialOrder(s, moves[..k]), SerialOrder(s, moves));
  }

  lemma DeliveriesSplit(early: seq<Entry>, late: seq<Entry>) returns (more: seq<Delivery>)
    requires early <= late
    ensures Deliveries(late) == Deliveries(early) + more
  {
    more := Deliveries(late[|early|..]);
  }

  lemma AtRest(l: Ledger, s: System, log: seq<Entry>, dropped: multiset<AnomalyColumns>)
    requires AllDone(s)
    requires var g := PostAll(l, Deliveries(log)); TablesAgree(s, g) && AnomaliesAgree(s, g, dropped)
    ensures var g, end := PostAll(l, Deliveries(log)), LedgerOf(s.tables);
            end.events == g.events && end.payments == g.payments
            && multiset(g.anomalies) == multiset(end.anomalies) + dropped
  {
    var g := PostAll(l, Deliveries(log));
    assert forall pid :: !SomeoneWaits(s.threads, pid);
    forall a ensures multiset(g.anomalies)[a] == (multiset(LedgerOf(s.tables).anomalies) + dropped)[a] {
      TotalOfNone(s.threads, Owes(a));
    }
  }

  lemma AnswersAtRest(l: Ledger, s: System, log: seq<Entry>)
    requires AllDone(s) && AnswersAgree(l, s, log)
    ensures forall k | 0 <= k < |log| ::
              && log[k].handler < |s.threads|
              && s.threads[log[k].handler] ==
                 Done(ResponseFor(AnswerOf(PostAll(l, Deliveries(log[..k])), log[k].delivery)))
  {
    forall k | 0 <= k < |log|
      ensures log[k].handler < |s.threads|
      ensures s.threads[log[k].handler] ==
              Done(ResponseFor(AnswerOf(PostAll(l, Deliveries(log[..k])), log[k].delivery)))
    {
      AnswerAt(l, s, log, k);
    }
  }
}
