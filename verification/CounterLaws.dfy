/** What the counters say about each other in every state of every schedule. */
module CounterLaws {
  import opened Options
  import opened Tables
  import opened Processing
  import opened Counting
  import opened Handler
  import opened Interleavings

  function InFlight(th: Thread): nat {
    if th.Arriving? || th.Done? then 0 else 1
  }

  function WillAnswer(answer: Answer): Thread -> nat {
    (th: Thread) => if th == AtRespond(answer) then 1 else 0
  }

  function WillIgnore(reason: IgnoreReason): Thread -> nat {
    (th: Thread) => if th.AtRecord? && th.reason == reason then 1 else 0
  }

  /** How many handlers are in flight, will give each answer, and are about to be counted as ignored. */
  datatype InHand = InHand(
    inFlight: nat, duplicate: nat, processed: nat, internalError: nat, older: nat, invalid: nat)

  function PendingOf(ts: seq<Thread>): InHand {
    InHand(Total(ts, InFlight),
           Total(ts, WillAnswer(Duplicate)), Total(ts, WillAnswer(Processed)), Total(ts, WillAnswer(InternalError)),
           Total(ts, WillIgnore(OlderTimestamp)), Total(ts, WillIgnore(InvalidTransition)))
  }

  /** The conservation laws, each with the handlers that stand between its two sides. */
  ghost predicate Balanced(c: Counters, recorder: bool, p: InHand) {
    && c.requests == c.providerEvents + c.methodNotAllowed + c.invalidPayload + c.unauthorized
    && c.providerEvents == c.successProcessed + c.successDuplicate + c.internalError + p.inFlight
    && c.duplicates == c.successDuplicate + p.duplicate
    && c.unauthorized == c.signatureFailures
    && c.created + c.updated + c.ignored == c.successProcessed + p.processed
    && c.failed <= c.internalError + p.internalError
    && c.ignored == c.ignoredOlder + c.ignoredEqual + c.ignoredInvalid
    && c.staleAnomalies == (if recorder then c.ignoredOlder + p.older else 0)
    && c.invalidAnomalies == (if recorder then c.ignoredInvalid + p.invalid else 0)
  }

  ghost predicate Conserved(s: System) {
    && Balanced(s.counters, s.recorder, PendingOf(s.threads))
    && forall i | 0 <= i < |s.threads| :: ReasonFits(s.threads[i])
  }

  /** An anomaly is never recorded for an event of equal timestamp. */
  predicate ReasonFits(th: Thread) {
    th.AtRecord? ==> !th.reason.EqualTimestamp?
  }

  /** What one handler contributes. */
  function HandOf(th: Thread): InHand {
    match th
    case Arriving(_) => InHand(0, 0, 0, 0, 0, 0)
    case Done(_) => InHand(0, 0, 0, 0, 0, 0)
    case AtRespond(Duplicate) => InHand(1, 1, 0, 0, 0, 0)
    case AtRespond(Processed) => InHand(1, 0, 1, 0, 0, 0)
    case AtRespond(InternalError) => InHand(1, 0, 0, 1, 0, 0)
    case AtRecord(_, _, OlderTimestamp) => InHand(1, 0, 0, 0, 1, 0)
    case AtRecord(_, _, InvalidTransition) => InHand(1, 0, 0, 0, 0, 1)
    case _ => InHand(1, 0, 0, 0, 0, 0)
  }

  /** `after` is `before` with one handler's contribution `x` replaced by `y`. */
  ghost predicate Replaced(before: InHand, after: InHand, x: InHand, y: InHand) {
    && after.inFlight + x.inFlight == before.inFlight + y.inFlight
    && after.duplicate + x.duplicate == before.duplicate + y.duplicate
    && after.processed + x.processed == before.processed + y.processed
    && after.internalError + x.internalError == before.internalError + y.internalError
    && after.older + x.older == before.older + y.older
    && after.invalid + x.invalid == before.invalid + y.invalid
  }

  lemma ArrivalBalances(t: Tables, c: Counters, recorder: bool, th: Thread, env: Env, before: InHand, after: InHand)
    requires th.Arriving?
    requires Balanced(c, recorder, before) && ReasonFits(th)
    requires Replaced(before, after, HandOf(th), HandOf(Advance(t, c, recorder, th, env).thread))
    ensures Balanced(Advance(t, c, recorder, th, env).counters, recorder, after)
    ensures ReasonFits(Advance(t, c, recorder, th, env).thread)
  {
  }

  lemma InsertBalances(t: Tables, c: Counters, recorder: bool, th: Thread, env: Env, before: InHand, after: InHand)
    requires th.AtInsert?
    requires Balanced(c, recorder, before) && ReasonFits(th)
    requires Replaced(before, after, HandOf(th), HandOf(Advance(t, c, recorder, th, env).thread))
    ensures Balanced(Advance(t, c, recorder, th, env).counters, recorder, after)
    ensures ReasonFits(Advance(t, c, recorder, th, env).thread)
  {
  }

  lemma GoingOnBalances(t: Tables, c: Counters, recorder: bool, th: Thread, env: Env, before: InHand, after: InHand)
    requires th.AtGet? && (!env.get.Acked? || Accepts(Lookup(t.payments, th.event.paymentID), th.event))
    requires Balanced(c, recorder, before) && ReasonFits(th)
    requires Replaced(before, after, HandOf(th), HandOf(Advance(t, c, recorder, th, env).thread))
    ensures Balanced(Advance(t, c, recorder, th, env).counters, recorder, after)
    ensures ReasonFits(Advance(t, c, recorder, th, env).thread)
  {
  }

  lemma IgnoringBalances(t: Tables, c: Counters, recorder: bool, th: Thread, env: Env, before: InHand, after: InHand)
    requires th.AtGet? && env.get.Acked? && !Accepts(Lookup(t.payments, th.event.paymentID), th.event)
    requires Balanced(c, recorder, before) && ReasonFits(th)
    requires Replaced(before, after, HandOf(th), HandOf(Advance(t, c, recorder, th, env).thread))
    ensures Balanced(Advance(t, c, recorder, th, env).counters, recorder, after)
    ensures ReasonFits(Advance(t, c, recorder, th, env).thread)
  {
  }

  lemma GetBalances(t: Tables, c: Counters, recorder: bool, th: Thread, env: Env, before: InHand, after: InHand)
    requires th.AtGet?
    requires Balanced(c, recorder, before) && ReasonFits(th)
    requires Replaced(before, after, HandOf(th), HandOf(Advance(t, c, recorder, th, env).thread))
    ensures Balanced(Advance(t, c, recorder, th, env).counters, recorder, after)
    ensures ReasonFits(Advance(t, c, recorder, th, env).thread)
  {
    if env.get.Acked? && !Accepts(Lookup(t.payments, th.event.paymentID), th.event) {
      IgnoringBalances(t, c, recorder, th, env, before, after);
    } else {
      GoingOnBalances(t, c, recorder, th, env, before, after);
    }
  }

  lemma RecordBalances(t: Tables, c: Counters, recorder: bool, th: Thread, env: Env, before: InHand, after: InHand)
    requires th.AtRecord?
    requires Balanced(c, recorder, before) && ReasonFits(th)
    requires Replaced(before, after, HandOf(th), HandOf(Advance(t, c, recorder, th, env).thread))
    ensures Balanced(Advance(t, c, recorder, th, env).counters, recorder, after)
    ensures ReasonFits(Advance(t, c, recorder, th, env).thread)
  {
  }

  lemma UpsertBalances(t: Tables, c: Counters, recorder: bool, th: Thread, env: Env, before: InHand, after: InHand)
    requires th.AtUpsert?
    requires Balanced(c, recorder, before) && ReasonFits(th)
    requires Replaced(before, after, HandOf(th), HandOf(Advance(t, c, recorder, th, env).thread))
    ensures Balanced(Advance(t, c, recorder, th, env).counters, recorder, after)
    ensures ReasonFits(Advance(t, c, recorder, th, env).thread)
  {
  }

  lemma RespondBalances(t: Tables, c: Counters, recorder: bool, th: Thread, env: Env, before: InHand, after: InHand)
    requires th.AtRespond? || th.Done?
    requires Balanced(c, recorder, before) && ReasonFits(th)
    requires Replaced(before, after, HandOf(th), HandOf(Advance(t, c, recorder, th, env).thread))
    ensures Balanced(Advance(t, c, recorder, th, env).counters, recorder, after)
    ensures ReasonFits(Advance(t, c, recorder, th, env).thread)
  {
  }

  lemma AdvanceBalances(t: Tables, c: Counters, recorder: bool, th: Thread, env: Env, before: InHand, after: InHand)
    requires Balanced(c, recorder, before) && ReasonFits(th)
    requires Replaced(before, after, HandOf(th), HandOf(Advance(t, c, recorder, th, env).thread))
    ensures Balanced(Advance(t, c, recorder, th, env).counters, recorder, after)
    ensures ReasonFits(Advance(t, c, recorder, th, env).thread)
  {
    match th
    case Arriving(_) => ArrivalBalances(t, c, recorder, th, env, before, after);
    case AtInsert(_) => InsertBalances(t, c, recorder, th, env, before, after);
    case AtGet(_, _) => GetBalances(t, c, recorder, th, env, before, after);
    case AtRecord(_, _, _) => RecordBalances(t, c, recorder, th, env, before, after);
    case AtUpsert(_, _) => UpsertBalances(t, c, recorder, th, env, before, after);
    case _ => RespondBalances(t, c, recorder, th, env, before, after);
  }

  lemma PendingAfterUpdate(ts: seq<Thread>, i: nat, th: Thread)
    requires i < |ts|
    ensures Replaced(PendingOf(ts), PendingOf(ts[i := th]), HandOf(ts[i]), HandOf(th))
  {
    TotalAfterUpdate(ts, i, th, InFlight);
    TotalAfterUpdate(ts, i, th, WillAnswer(Duplicate));
    TotalAfterUpdate(ts, i, th, WillAnswer(Processed));
    TotalAfterUpdate(ts, i, th, WillAnswer(InternalError));
    TotalAfterUpdate(ts, i, th, WillIgnore(OlderTimestamp));
    TotalAfterUpdate(ts, i, th, WillIgnore(InvalidTransition));
  }

  lemma NothingPending(ts: seq<Thread>)
    requires forall i | 0 <= i < |ts| :: ts[i].Arriving? || ts[i].Done?
    ensures PendingOf(ts) == InHand(0, 0, 0, 0, 0, 0)
  {
    TotalOfNone(ts, InFlight);
    TotalOfNone(ts, WillAnswer(Duplicate));
    TotalOfNone(ts, WillAnswer(Processed));
    TotalOfNone(ts, WillAnswer(InternalError));
    TotalOfNone(ts, WillIgnore(OlderTimestamp));
    TotalOfNone(ts, WillIgnore(InvalidTransition));
  }

  lemma StepConserves(s: System, m: Move)
    requires Conserved(s)
    ensures Conserved(Step(s, m))
  {
    if m.thread < |s.threads| {
      var th := s.threads[m.thread];
      var next := Advance(s.tables, s.counters, s.recorder, th, m.env).thread;
      PendingAfterUpdate(s.threads, m.thread, next);
      AdvanceBalances(s.tables, s.counters, s.recorder, th, m.env,
                      PendingOf(s.threads), PendingOf(s.threads[m.thread := next]));
    }
  }

  lemma FreshIsConserved(s: System)
    requires AllArriving(s) && s.counters.IsZero()
    ensures Conserved(s)
  {
    NothingPending(s.threads);
  }

  /** The laws hold in every state that any schedule reaches from a fresh start. */
  lemma {:induction false} CountersConserved(s: System, moves: seq<Move>)
    requires AllArriving(s) && s.counters.IsZero()
    ensures Conserved(Run(s, moves))
    ensures var c := Run(s, moves).counters;
            c.requests == (c.successProcessed + c.successDuplicate)
                          + (c.methodNotAllowed + c.invalidPayload + c.unauthorized + c.internalError)
                          + Total(Run(s, moves).threads, InFlight)
  {
    if moves == [] {
      FreshIsConserved(s);
    } else {
      CountersConserved(s, moves[..|moves| - 1]);
      StepConserves(Run(s, moves[..|moves| - 1]), moves[|moves| - 1]);
    }
  }

  /* ---- What each counter counts ---- */

  datatype Occasion =
    | OtherMethod | UnreadablePayload | ForgedSignature | ParsedRequest
    | CreatesRow | UpdatesRow | UpdateFails | IgnoresEqual

  /** What a single step can be seen to do that a counter should count. */
  predicate Occurs(s: System, m: Move, occasion: Occasion) {
    && m.thread < |s.threads|
    && var th := s.threads[m.thread];
       match occasion
       case OtherMethod => th.Arriving? && th.arrival.NotPost?
       case UnreadablePayload => th.Arriving? && (th.arrival.UnreadableBody? || th.arrival.BadPayload?)
       case ForgedSignature => th.Arriving? && th.arrival.BadSignature?
       case ParsedRequest => th.Arriving? && th.arrival.Valid?
       case CreatesRow => th.AtUpsert? && m.env.upsert.Acked? && th.seen.None?
       case UpdatesRow => th.AtUpsert? && m.env.upsert.Acked? && th.seen.Some?
       case UpdateFails => (th.AtGet? && !m.env.get.Acked?) || (th.AtUpsert? && !m.env.upsert.Acked?)
       case IgnoresEqual =>
         && th.AtGet? && m.env.get.Acked?
         && th.event.paymentID in s.tables.payments
         && s.tables.payments[th.event.paymentID].timestamp == th.event.timestamp
  }

  function Times(s: System, moves: seq<Move>, occasion: Occasion): nat {
    if moves == [] then 0
    else
      var n := |moves| - 1;
      Times(s, moves[..n], occasion) + (if Occurs(Run(s, moves[..n]), moves[n], occasion) then 1 else 0)
  }

  function Counter(c: Counters, occasion: Occasion): nat {
    match occasion
    case OtherMethod => c.methodNotAllowed
    case UnreadablePayload => c.invalidPayload
    case ForgedSignature => c.signatureFailures
    case ParsedRequest => c.providerEvents
    case CreatesRow => c.created
    case UpdatesRow => c.updated
    case UpdateFails => c.failed
    case IgnoresEqual => c.ignoredEqual
  }

  /** In every schedule each of these counters counts exactly the steps it should. */
  lemma {:induction false} CountersTally(s: System, moves: seq<Move>, occasion: Occasion)
    requires AllArriving(s)
    ensures Counter(Run(s, moves).counters, occasion) == Counter(s.counters, occasion) + Times(s, moves, occasion)
    ensures forall i | 0 <= i < |Run(s, moves).threads| :: ReasonFits(Run(s, moves).threads[i])
  {
    if moves != [] {
      CountersTally(s, moves[..|moves| - 1], occasion);
      StepTallies(Run(s, moves[..|moves| - 1]), moves[|moves| - 1], occasion);
    }
  }

  lemma StepTallies(s: System, m: Move, occasion: Occasion)
    requires forall i | 0 <= i < |s.threads| :: ReasonFits(s.threads[i])
    ensures forall i | 0 <= i < |Step(s, m).threads| :: ReasonFits(Step(s, m).threads[i])
    ensures Counter(Step(s, m).counters, occasion) ==
            Counter(s.counters, occasion) + (if Occurs(s, m, occasion) then 1 else 0)
  {
  }

  /** Once every handler has answered, the books balance exactly. */
  lemma CountersBalanceAtRest(s: System, moves: seq<Move>)
    requires AllArriving(s) && s.counters.IsZero()
    requires AllDone(Run(s, moves))
    ensures var c := Run(s, moves).counters;
            && c.requests == (c.successProcessed + c.successDuplicate)
                             + (c.methodNotAllowed + c.invalidPayload + c.unauthorized + c.internalError)
            && c.providerEvents == c.successProcessed + c.successDuplicate + c.internalError
            && c.successDuplicate == c.duplicates
            && c.unauthorized == c.signatureFailures
            && c.created + c.updated + c.ignored == c.successProcessed
            && c.failed <= c.internalError
            && c.ignored == c.ignoredOlder + c.ignoredEqual + c.ignoredInvalid
            && (s.recorder ==> c.staleAnomalies == c.ignoredOlder && c.invalidAnomalies == c.ignoredInvalid)
  {
    CountersConserved(s, moves);
    RunKeepsShape(s, moves);
    NothingPending(Run(s, moves).threads);
  }
}
