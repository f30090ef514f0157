/** What is stored of an event: the body it was parsed from, from which it can be parsed again. */
module StoredPayloads {
  import opened Options
  import opened Webhook
  import opened Tables
  import opened Handler
  import opened Interleavings

  /** The stored body parses to an event with this id and the row's other columns. */
  predicate RowParses(cfg: Config, providerEventID: string, columns: EventColumns) {
    match ParseEvent(columns.rawPayload, cfg.decode, cfg.readTime)
    case Failure(_) => false
    case Success(e) =>
      && e.providerEventID == providerEventID
      && e.paymentID == columns.paymentID
      && e.eventType == columns.eventType
      && e.timestamp == columns.timestamp
      && columns.processingStatus == "pending"
  }

  predicate RowsParse(cfg: Config, t: Tables) {
    forall pid | pid in t.events :: RowParses(cfg, pid, t.events[pid].columns)
  }

  /** A handler that has yet to insert holds an event that its own body parses to. */
  predicate HoldsParsed(cfg: Config, th: Thread) {
    match th
    case Arriving(a) => a.Valid? ==> ParseEvent(a.event.rawPayload, cfg.decode, cfg.readTime) == Success(a.event)
    case AtInsert(e) => ParseEvent(e.rawPayload, cfg.decode, cfg.readTime) == Success(e)
    case _ => true
  }

  ghost predicate AllParsed(cfg: Config, s: System) {
    RowsParse(cfg, s.tables) && forall i | 0 <= i < |s.threads| :: HoldsParsed(cfg, s.threads[i])
  }

  lemma StepKeepsParsed(cfg: Config, s: System, m: Move)
    requires AllParsed(cfg, s)
    ensures AllParsed(cfg, Step(s, m))
  {
    if m.thread < |s.threads| {
      AdvanceKeepsParsed(cfg, s, s.threads[m.thread], m.env);
    }
  }

  lemma AdvanceKeepsParsed(cfg: Config, s: System, th: Thread, env: Env)
    requires RowsParse(cfg, s.tables) && HoldsParsed(cfg, th)
    ensures var next := Advance(s.tables, s.counters, s.recorder, th, env);
            RowsParse(cfg, next.tables) && HoldsParsed(cfg, next.thread)
  {
  }

  lemma {:induction false} AlwaysParsed(cfg: Config, s: System, moves: seq<Move>)
    requires AllParsed(cfg, s)
    ensures AllParsed(cfg, Run(s, moves))
  {
    if moves != [] {
      AlwaysParsed(cfg, s, moves[..|moves| - 1]);
      StepKeepsParsed(cfg, Run(s, moves[..|moves| - 1]), moves[|moves| - 1]);
    }
  }

  /**
    In every state of every schedule of requests, each stored row keeps a body that parses to an
    event with the row's id, payment, type and timestamp, and is marked "pending".
   */
  lemma StoredRowsParse(cfg: Config, reqs: seq<Request>, s: System, moves: seq<Move>)
    requires |s.threads| == |reqs|
    requires forall i | 0 <= i < |reqs| :: s.threads[i] == Arriving(Receive(cfg, reqs[i]))
    requires RowsParse(cfg, s.tables)
    ensures RowsParse(cfg, Run(s, moves).tables)
  {
    AlwaysParsed(cfg, s, moves);
  }
}
