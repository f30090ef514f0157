/** Theorems about deliveries handled one after another, with any replies and any repetitions. */
module SerialRuns {
  import opened Options
  import opened Webhook
  import opened Tables
  import opened Transitions
  import opened Processing
  import opened Ledgers

  function ProviderIDs(ds: seq<Delivery>): set<string> {
    set d | d in ds :: d.event.providerEventID
  }

  ghost predicate FailureFree(ds: seq<Delivery>) {
    forall d | d in ds :: d.env.FailureFree()
  }

  /* ---- Deduplication ---- */

  /**
    The deliveries that get past the gate: for each provider event id not yet stored, the
    first one whose insert takes effect.
   */
  function Effective(stored: set<string>, ds: seq<Delivery>): seq<Delivery> {
    if ds == [] then []
    else
      var kept := Effective(stored, ds[..|ds| - 1]);
      var d := ds[|ds| - 1];
      if d.env.insert.Rejected? || d.event.providerEventID in stored + ProviderIDs(kept) then kept else kept + [d]
  }

  /** Only the first delivery of each provider event id that is not yet stored. */
  function FirstDeliveries(stored: set<string>, ds: seq<Delivery>): seq<Delivery> {
    if ds == [] then []
    else
      var init, d := ds[..|ds| - 1], ds[|ds| - 1];
      var kept := FirstDeliveries(stored, init);
      if d.event.providerEventID in stored + ProviderIDs(init) then kept else kept + [d]
  }

  /** The delivery's event is stored by it. */
  predicate IsNew(l: Ledger, d: Delivery) {
    !d.env.insert.Rejected? && d.event.providerEventID !in l.events
  }

  /** A run with arbitrary failures and repetitions equals the run of its effective deliveries alone. */
  lemma {:induction false} DedupEquivalence(l: Ledger, ds: seq<Delivery>)
    ensures PostAll(l, ds) == PostAll(l, Effective(l.events.Keys, ds))
    ensures PostAll(l, ds).events.Keys == l.events.Keys + ProviderIDs(Effective(l.events.Keys, ds))
  {
    if ds != [] {
      var init, d := ds[..|ds| - 1], ds[|ds| - 1];
      assert ds == init + [d];
      DedupEquivalence(l, init);
      EffectiveStep(l, init, d);
    }
  }

  lemma {:induction false} EffectiveStep(l: Ledger, init: seq<Delivery>, d: Delivery)
    requires PostAll(l, init) == PostAll(l, Effective(l.events.Keys, init))
    requires PostAll(l, init).events.Keys == l.events.Keys + ProviderIDs(Effective(l.events.Keys, init))
    ensures var before, kept := PostAll(l, init), Effective(l.events.Keys, init);
            var kept' := Effective(l.events.Keys, init + [d]);
            && kept' == (if IsNew(before, d) then kept + [d] else kept)
            && PostAll(l, kept') == Post(before, d)
            && Post(before, d).events.Keys == l.events.Keys + ProviderIDs(kept')
  {
    var kept := Effective(l.events.Keys, init);
    assert (init + [d])[..|init|] == init && (kept + [d])[..|kept|] == kept;
    assert ProviderIDs(kept + [d]) == ProviderIDs(kept) + {d.event.providerEventID};
    PostByParts(PostAll(l, init), d);
  }

  /** How a run and its effective deliveries grow by one more delivery. */
  lemma RunStep(l: Ledger, init: seq<Delivery>, d: Delivery)
    ensures var before := PostAll(l, init);
            var kept := Effective(l.events.Keys, init);
            && PostAll(l, init + [d]) == Post(before, d)
            && (IsNew(before, d) ==> Effective(l.events.Keys, init + [d]) == kept + [d])
            && (!IsNew(before, d) ==> Effective(l.events.Keys, init + [d]) == kept && Post(before, d) == before)
  {
    DedupEquivalence(l, init);
    EffectiveStep(l, init, d);
    assert (init + [d])[..|init|] == init;
  }

  /** Without failures, only the first delivery of each provider event id matters. */
  lemma FailureFreeDedup(t: Tables, ds: seq<Delivery>)
    requires FailureFree(ds)
    ensures LedgerOf(DeliverAll(t, ds)) == LedgerOf(DeliverAll(t, FirstDeliveries(t.events.Keys, ds)))
    ensures DeliverAll(t, ds).events.Keys == t.events.Keys + ProviderIDs(ds)
  {
    var l, firsts := LedgerOf(t), FirstDeliveries(t.events.Keys, ds);
    assert l.events.Keys == t.events.Keys;
    assert LedgerOf(DeliverAll(t, ds)).events.Keys == DeliverAll(t, ds).events.Keys;
    DedupEquivalence(l, ds);
    EffectiveAreFirst(t.events.Keys, ds);
    DeliverAllRefinesPostAll(t, ds);
    DeliverAllRefinesPostAll(t, firsts);
  }

  lemma {:induction false} EffectiveAreFirst(stored: set<string>, ds: seq<Delivery>)
    requires FailureFree(ds)
    ensures Effective(stored, ds) == FirstDeliveries(stored, ds)
    ensures stored + ProviderIDs(Effective(stored, ds)) == stored + ProviderIDs(ds)
  {
    if ds != [] {
      var init, d := ds[..|ds| - 1], ds[|ds| - 1];
      EffectiveAreFirst(stored, init);
      var kept := Effective(stored, init);
      assert d.env.FailureFree();
      assert d.event.providerEventID in stored + ProviderIDs(kept) <==>
             d.event.providerEventID in stored + ProviderIDs(init);
      assert ProviderIDs(ds) == ProviderIDs(init) + {d.event.providerEventID};
      assert ProviderIDs(kept + [d]) == ProviderIDs(kept) + {d.event.providerEventID};
    }
  }

  /**
    Once an event is stored, any later delivery of it, after any further run, changes nothing,
    whatever its contents; it is answered "duplicate" unless its own insert reply fails.
   */
  lemma StoredForGood(l: Ledger, ds: seq<Delivery>, more: seq<Delivery>, d: Delivery)
    requires d.event.providerEventID in PostAll(l, ds).events
    ensures PostAll(l, ds + more + [d]) == PostAll(l, ds + more)
    ensures AnswerOf(PostAll(l, ds + more), d) == if d.env.insert.Acked? then Duplicate else InternalError
    ensures OutcomeOf(PostAll(l, ds + more), d).None?
  {
    PostAllAppend(l, ds, more);
    EventsOnlyGrow(PostAll(l, ds), more);
    var run := ds + more;
    assert (run + [d])[..|run|] == run;
  }

  lemma {:induction false} EventsOnlyGrow(l: Ledger, ds: seq<Delivery>)
    ensures forall pid | pid in l.events :: pid in PostAll(l, ds).events && PostAll(l, ds).events[pid] == l.events[pid]
    ensures l.payments.Keys <= PostAll(l, ds).payments.Keys
    ensures l.anomalies <= PostAll(l, ds).anomalies
  {
    if ds != [] {
      EventsOnlyGrow(l, ds[..|ds| - 1]);
    }
  }

  /* ---- What failures lose ---- */

  /** All statements up to the overwriting of the row take effect. */
  predicate Lands(env: Env) {
    Decides(env) && !env.upsert.Rejected?
  }

  /** A delivery that stores its event but stops short of the row would have left the row alone anyway. */
  predicate Harmless(l: Ledger, d: Delivery) {
    IsNew(l, d) && !Lands(d.env) ==> !Accepts(Lookup(l.payments, d.event.paymentID), d.event)
  }

  predicate AllHarmless(l: Ledger, ds: seq<Delivery>) {
    ds != [] ==>
      AllHarmless(l, ds[..|ds| - 1]) && Harmless(PostAll(l, ds[..|ds| - 1]), ds[|ds| - 1])
  }

  /** The same events, with no failures. */
  function Undisturbed(ds: seq<Delivery>): seq<Delivery> {
    seq(|ds|, i requires 0 <= i < |ds| => ds[i].(env := NO_FAILURES))
  }

  /** The ledger as if the effective deliveries had met no failures. */
  function WithoutFailures(l: Ledger, ds: seq<Delivery>): Ledger {
    PostAll(l, Undisturbed(Effective(l.events.Keys, ds)))
  }

  /** After every prefix the payments are as if no stored event had met a failure. */
  ghost predicate NothingLost(l: Ledger, ds: seq<Delivery>) {
    && PostAll(l, ds).payments == WithoutFailures(l, ds).payments
    && (ds != [] ==> NothingLost(l, ds[..|ds| - 1]))
  }

  /**
    No update is ever lost to a failure if and only if each delivery that stores its event but
    stops short of the row is one that would have left the row alone.
   */
  lemma {:induction false} NothingLostExactly(l: Ledger, ds: seq<Delivery>)
    ensures NothingLost(l, ds) <==> AllHarmless(l, ds)
    ensures PostAll(l, ds).events == WithoutFailures(l, ds).events
  {
    if ds != [] {
      var init, d := ds[..|ds| - 1], ds[|ds| - 1];
      assert ds == init + [d];
      NothingLostExactly(l, init);
      RunStep(l, init, d);
      UndisturbedStep(l, init, d);
      if PostAll(l, init).payments == WithoutFailures(l, init).payments {
        LosesUnlessHarmless(PostAll(l, init), WithoutFailures(l, init), d);
      }
    }
  }

  lemma UndisturbedStep(l: Ledger, init: seq<Delivery>, d: Delivery)
    ensures var before := WithoutFailures(l, init);
            WithoutFailures(l, init + [d]) ==
            if IsNew(PostAll(l, init), d) then Post(before, d.(env := NO_FAILURES)) else before
    ensures PostAll(l, init).events == WithoutFailures(l, init).events ==>
              PostAll(l, init + [d]).events == WithoutFailures(l, init + [d]).events
  {
    var kept, clean := Effective(l.events.Keys, init), d.(env := NO_FAILURES);
    RunStep(l, init, d);
    assert Undisturbed(kept + [d]) == Undisturbed(kept) + [clean];
    assert (Undisturbed(kept) + [clean])[..|kept|] == Undisturbed(kept);
    PostByParts(PostAll(l, init), d);
    PostByParts(WithoutFailures(l, init), clean);
  }

  lemma LosesUnlessHarmless(l: Ledger, clean: Ledger, d: Delivery)
    requires l.events == clean.events && l.payments == clean.payments
    ensures var after := if IsNew(l, d) then Post(clean, d.(env := NO_FAILURES)) else clean;
            Post(l, d).payments == after.payments <==> Harmless(l, d)
  {
    PostByParts(l, d);
    PostByParts(clean, d.(env := NO_FAILURES));
    assert Accepts(Lookup(l.payments, d.event.paymentID), d.event) ==>
             Lookup(l.payments, d.event.paymentID) != Some(PaymentFromEvent(d.event));
  }

  /**
    Any failure between an insert that took effect and the row loses an acceptable event for good: the
    provider is told of an error, its clean retry is answered "duplicate", and the row never changes.
   */
  lemma FailureAfterInsertLosesEvent(l: Ledger, e: PaymentEvent, env: Env)
    requires e.providerEventID !in l.events && Accepts(Lookup(l.payments, e.paymentID), e)
    requires !env.insert.Rejected? && !Lands(env)
    ensures var failed, retry := Delivery(e, env), Delivery(e, NO_FAILURES);
            && AnswerOf(l, failed) == InternalError
            && AnswerOf(Post(l, failed), retry) == Duplicate
            && PostAll(l, [failed, retry]).payments == l.payments
            && Lookup(PostAll(l, [retry]).payments, e.paymentID) == Some(PaymentFromEvent(e))
            && Lookup(l.payments, e.paymentID) != Some(PaymentFromEvent(e))
            && !Harmless(l, failed)
  {
    var failed, retry := Delivery(e, env), Delivery(e, NO_FAILURES);
    UnfoldTwo(l, [], failed, retry);
    assert [] + [failed, retry] == [failed, retry] && [retry][..0] == [];
    assert PostAll(l, [retry]) == Post(l, retry);
    PostByParts(l, failed);
    PostByParts(l, retry);
  }

  /* ---- Projection on one payment ---- */

  function For(paymentID: string, ds: seq<Delivery>): seq<Delivery> {
    if ds == [] then []
    else
      var kept, d := For(paymentID, ds[..|ds| - 1]), ds[|ds| - 1];
      if d.event.paymentID == paymentID then kept + [d] else kept
  }

  /** One payment's row after an effective delivery for it. */
  function NextRow(current: Option<Payment>, d: Delivery): Option<Payment> {
    if Lands(d.env) && Accepts(current, d.event)
    then Some(PaymentFromEvent(d.event)) else current
  }

  function RowAfter(current: Option<Payment>, ds: seq<Delivery>): Option<Payment> {
    if ds == [] then current else NextRow(RowAfter(current, ds[..|ds| - 1]), ds[|ds| - 1])
  }

  function AnomaliesNext(current: Option<Payment>, d: Delivery): seq<AnomalyColumns> {
    if Decides(d.env) && !Accepts(current, d.event) && !d.env.record.Rejected?
    then AnomaliesRaised(current.value, d.event) else []
  }

  function AnomaliesAfter(current: Option<Payment>, ds: seq<Delivery>): seq<AnomalyColumns> {
    if ds == [] then []
    else AnomaliesAfter(current, ds[..|ds| - 1]) + AnomaliesNext(RowAfter(current, ds[..|ds| - 1]), ds[|ds| - 1])
  }

  function AnomaliesFor(paymentID: string, anomalies: seq<AnomalyColumns>): seq<AnomalyColumns> {
    if anomalies == [] then []
    else
      var kept, a := AnomaliesFor(paymentID, anomalies[..|anomalies| - 1]), anomalies[|anomalies| - 1];
      if a.paymentID == paymentID then kept + [a] else kept
  }

  /**
    A payment's row and its anomalies depend only on the effective deliveries for that
    payment: everything else in the run could be left out.
   */
  lemma {:induction false} Projection(l: Ledger, ds: seq<Delivery>, paymentID: string)
    ensures var own := For(paymentID, Effective(l.events.Keys, ds));
            && Lookup(PostAll(l, ds).payments, paymentID) == RowAfter(Lookup(l.payments, paymentID), own)
            && AnomaliesFor(paymentID, PostAll(l, ds).anomalies) ==
               AnomaliesFor(paymentID, l.anomalies) + AnomaliesAfter(Lookup(l.payments, paymentID), own)
  {
    if ds != [] {
      var init, d := ds[..|ds| - 1], ds[|ds| - 1];
      assert ds == init + [d];
      Projection(l, init, paymentID);
      OwnStep(l, init, d, paymentID);
      AfterStep(Lookup(l.payments, paymentID), For(paymentID, Effective(l.events.Keys, init)), d);
    }
  }

  /** One more delivery, as one payment sees it. */
  lemma OwnStep(l: Ledger, init: seq<Delivery>, d: Delivery, paymentID: string)
    ensures var before, after := PostAll(l, init), PostAll(l, init + [d]);
            var own, own' := For(paymentID, Effective(l.events.Keys, init)),
                             For(paymentID, Effective(l.events.Keys, init + [d]));
            var row := Lookup(before.payments, paymentID);
            if IsNew(before, d) && d.event.paymentID == paymentID then
              && own' == own + [d]
              && Lookup(after.payments, paymentID) == NextRow(row, d)
              && AnomaliesFor(paymentID, after.anomalies) ==
                 AnomaliesFor(paymentID, before.anomalies) + AnomaliesNext(row, d)
            else
              && own' == own
              && Lookup(after.payments, paymentID) == row
              && AnomaliesFor(paymentID, after.anomalies) == AnomaliesFor(paymentID, before.anomalies)
  {
    RunStep(l, init, d);
    if IsNew(PostAll(l, init), d) {
      PostMovesOnePayment(PostAll(l, init), d, paymentID);
      ForStep(paymentID, Effective(l.events.Keys, init), d);
    }
  }

  lemma AfterStep(current: Option<Payment>, own: seq<Delivery>, d: Delivery)
    ensures RowAfter(current, own + [d]) == NextRow(RowAfter(current, own), d)
    ensures AnomaliesAfter(current, own + [d]) ==
            AnomaliesAfter(current, own) + AnomaliesNext(RowAfter(current, own), d)
  {
    assert (own + [d])[..|own|] == own;
  }

  lemma ForStep(paymentID: string, kept: seq<Delivery>, d: Delivery)
    ensures For(paymentID, kept + [d]) ==
            if d.event.paymentID == paymentID then For(paymentID, kept) + [d] else For(paymentID, kept)
  {
    assert (kept + [d])[..|kept|] == kept;
  }

  /** One new delivery, seen by the payment it is for and by any other. */
  lemma PostMovesOnePayment(l: Ledger, d: Delivery, paymentID: string)
    requires d.event.providerEventID !in l.events && !d.env.insert.Rejected?
    ensures var current := Lookup(l.payments, paymentID);
            var mine := d.event.paymentID == paymentID;
            && Lookup(Post(l, d).payments, paymentID) == (if mine then NextRow(current, d) else current)
            && AnomaliesFor(paymentID, Post(l, d).anomalies) ==
               AnomaliesFor(paymentID, l.anomalies) + (if mine then AnomaliesNext(current, d) else [])
  {
    var raised := AnomaliesNext(Lookup(l.payments, d.event.paymentID), d);
    assert Post(l, d).anomalies == l.anomalies + raised;
    if raised != [] {
      assert (l.anomalies + raised)[..|l.anomalies|] == l.anomalies;
    } else {
      assert l.anomalies + raised == l.anomalies;
    }
  }

  /** Equal up to the order in which anomalies were appended. */
  ghost predicate SameUpToOrder(a: Ledger, b: Ledger) {
    a.events == b.events && a.payments == b.payments && multiset(a.anomalies) == multiset(b.anomalies)
  }

  /**
    Neighbouring deliveries of different events for different payments may be swapped
    anywhere in a run.
   */
  lemma {:induction false} SwapNeighbours(l: Ledger,
                                          before: seq<Delivery>, a: Delivery, b: Delivery, after: seq<Delivery>)
    requires a.event.paymentID != b.event.paymentID
    requires a.event.providerEventID != b.event.providerEventID
    ensures SameUpToOrder(PostAll(l, before + [a, b] + after), PostAll(l, before + [b, a] + after))
  {
    if after == [] {
      SwapLastTwo(l, before, a, b);
      assert before + [a, b] + after == before + [a, b];
      assert before + [b, a] + after == before + [b, a];
    } else {
      var init, d := after[..|after| - 1], after[|after| - 1];
      SwapNeighbours(l, before, a, b, init);
      PostLast(l, before + [a, b], after);
      PostLast(l, before + [b, a], after);
      PostRespectsOrder(PostAll(l, before + [a, b] + init), PostAll(l, before + [b, a] + init), d);
    }
  }

  lemma PostLast(l: Ledger, front: seq<Delivery>, back: seq<Delivery>)
    requires back != []
    ensures PostAll(l, front + back) == Post(PostAll(l, front + back[..|back| - 1]), back[|back| - 1])
  {
    assert (front + back)[..|front + back| - 1] == front + back[..|back| - 1];
  }

  lemma SwapLastTwo(l: Ledger, before: seq<Delivery>, a: Delivery, b: Delivery)
    requires a.event.paymentID != b.event.paymentID
    requires a.event.providerEventID != b.event.providerEventID
    ensures SameUpToOrder(PostAll(l, before + [a, b]), PostAll(l, before + [b, a]))
  {
    UnfoldTwo(l, before, a, b);
    UnfoldTwo(l, before, b, a);
    PostCommutes(PostAll(l, before), a, b);
  }

  lemma UnfoldTwo(l: Ledger, before: seq<Delivery>, a: Delivery, b: Delivery)
    ensures PostAll(l, before + [a, b]) == Post(Post(PostAll(l, before), a), b)
  {
    assert (before + [a, b])[..|before| + 1] == before + [a];
    assert (before + [a])[..|before|] == before;
  }

  lemma PostCommutes(l: Ledger, a: Delivery, b: Delivery)
    requires a.event.paymentID != b.event.paymentID
    requires a.event.providerEventID != b.event.providerEventID
    ensures SameUpToOrder(Post(Post(l, a), b), Post(Post(l, b), a))
  {
    PostByParts(l, a);
    PostByParts(l, b);
    PostByParts(Post(l, a), b);
    PostByParts(Post(l, b), a);
    AnotherPayment(l, a, b);
    AnotherPayment(l, b, a);
  }

  /** A delivery for another payment leaves this one's row, and whether its event is new, alone. */
  lemma AnotherPayment(l: Ledger, a: Delivery, b: Delivery)
    requires a.event.paymentID != b.event.paymentID
    requires a.event.providerEventID != b.event.providerEventID
    ensures Lookup(Post(l, a).payments, b.event.paymentID) == Lookup(l.payments, b.event.paymentID)
    ensures IsNew(Post(l, a), b) == IsNew(l, b)
  {
    PostByParts(l, a);
  }

  /** What a delivery adds to each table, from its own payment's row alone. */
  lemma PostByParts(l: Ledger, d: Delivery)
    ensures var current := Lookup(l.payments, d.event.paymentID);
            && Post(l, d).events == (if IsNew(l, d)
                                     then l.events[d.event.providerEventID := ColumnsOf(d.event)] else l.events)
            && Post(l, d).payments == (if IsNew(l, d) && NextRow(current, d) != current
                                       then l.payments[d.event.paymentID := PaymentFromEvent(d.event)] else l.payments)
            && Post(l, d).anomalies == l.anomalies + (if IsNew(l, d) then AnomaliesNext(current, d) else [])
  {
  }

  lemma PostRespectsOrder(x: Ledger, y: Ledger, d: Delivery)
    requires SameUpToOrder(x, y)
    ensures SameUpToOrder(Post(x, d), Post(y, d))
  {
  }

  /* ---- The history of one payment ---- */

  /** The successive rows a payment is seen to have over a run. */
  function Rows(l: Ledger, ds: seq<Delivery>, paymentID: string): seq<Payment> {
    if ds == [] then []
    else
      var init := ds[..|ds| - 1];
      var before, after := Lookup(PostAll(l, init).payments, paymentID), Lookup(PostAll(l, ds).payments, paymentID);
      Rows(l, init, paymentID) + (if after != before && after.Some? then [after.value] else [])
  }

  /** The greedy chain: the first event, then each one that is strictly later and allowed. */
  function GreedyChain(current: Option<Payment>, ds: seq<Delivery>): seq<Payment> {
    if ds == [] then []
    else
      var rows, d := GreedyChain(current, ds[..|ds| - 1]), ds[|ds| - 1];
      if Lands(d.env) && Accepts(LastOr(rows, current), d.event)
      then rows + [PaymentFromEvent(d.event)] else rows
  }

  predicate KeysMatch(payments: map<string, Payment>) {
    forall p | p in payments :: payments[p].paymentID == p
  }

  function LastOr(rows: seq<Payment>, current: Option<Payment>): Option<Payment> {
    if rows == [] then current else Some(rows[|rows| - 1])
  }

  /** The rows are the greedy chain, a path, and the last of them is the present row. */
  ghost predicate IsHistory(current: Option<Payment>, own: seq<Delivery>, rows: seq<Payment>,
                            row: Option<Payment>, paymentID: string) {
    && rows == GreedyChain(current, own)
    && IsPath(current, rows)
    && (forall r | r in rows :: r.paymentID == paymentID)
    && row == LastOr(rows, current)
  }

  /**
    The rows a payment goes through are the greedy chain of its effective deliveries, a
    path in the transition graph with strictly increasing timestamps, and the table holds
    its last element.
   */
  lemma {:induction false} HistoryIsGreedyChain(l: Ledger, ds: seq<Delivery>, paymentID: string)
    requires KeysMatch(l.payments)
    ensures IsHistory(Lookup(l.payments, paymentID), For(paymentID, Effective(l.events.Keys, ds)),
                      Rows(l, ds, paymentID), Lookup(PostAll(l, ds).payments, paymentID), paymentID)
  {
    if ds != [] {
      var init, d := ds[..|ds| - 1], ds[|ds| - 1];
      assert ds == init + [d];
      HistoryIsGreedyChain(l, init, paymentID);
      OwnStep(l, init, d, paymentID);
      RowsStep(l, init, d, paymentID);
      if IsNew(PostAll(l, init), d) && d.event.paymentID == paymentID {
        HistoryStep(Lookup(l.payments, paymentID), For(paymentID, Effective(l.events.Keys, init)),
                    Rows(l, init, paymentID), Lookup(PostAll(l, init).payments, paymentID), d);
      } else {
        assert Rows(l, ds, paymentID) == Rows(l, init, paymentID);
      }
    }
  }

  lemma RowsStep(l: Ledger, init: seq<Delivery>, d: Delivery, paymentID: string)
    ensures var before, after := Lookup(PostAll(l, init).payments, paymentID),
                                 Lookup(PostAll(l, init + [d]).payments, paymentID);
            Rows(l, init + [d], paymentID) ==
            Rows(l, init, paymentID) + (if after != before && after.Some? then [after.value] else [])
  {
    assert (init + [d])[..|init|] == init;
  }

  lemma HistoryStep(current: Option<Payment>, own: seq<Delivery>, rows: seq<Payment>, row: Option<Payment>, d: Delivery)
    requires IsHistory(current, own, rows, row, d.event.paymentID)
    requires current.Some? ==> current.value.paymentID == d.event.paymentID
    ensures var next := NextRow(row, d);
            IsHistory(current, own + [d],
                      rows + (if next != row && next.Some? then [next.value] else []), next, d.event.paymentID)
  {
    ChainStep(current, own, d);
    var next := NextRow(row, d);
    if next == row {
      assert rows + [] == rows;
    } else {
      PathExtends(current, rows, next.value);
    }
  }

  lemma ChainStep(current: Option<Payment>, own: seq<Delivery>, d: Delivery)
    ensures var rows := GreedyChain(current, own);
            var last := LastOr(rows, current);
            GreedyChain(current, own + [d]) ==
            rows + (if NextRow(last, d) != last then [PaymentFromEvent(d.event)] else [])
  {
    assert (own + [d])[..|own|] == own;
  }

  lemma PathExtends(current: Option<Payment>, rows: seq<Payment>, next: Payment)
    requires IsPath(current, rows)
    requires LastOr(rows, current).Some? ==> Follows(LastOr(rows, current).value, next)
    ensures IsPath(current, rows + [next])
  {
    var longer := rows + [next];
    forall i | 0 <= i < |longer| - 1 ensures Follows(longer[i], longer[i + 1]) {
      if i < |rows| - 1 {
        assert Follows(rows[i], rows[i + 1]);
      }
    }
  }

  /** Over any run, a payment never loses its row, its phase never goes back, and a terminal row is final. */
  lemma {:induction false} PhasesNeverGoBack(l: Ledger, ds: seq<Delivery>, more: seq<Delivery>, paymentID: string)
    requires KeysMatch(l.payments)
    requires paymentID in PostAll(l, ds).payments
    ensures paymentID in PostAll(l, ds + more).payments
    ensures PhaseOrder(PostAll(l, ds).payments[paymentID], PostAll(l, ds + more).payments[paymentID])
  {
    var l' := PostAll(l, ds);
    PostAllAppend(l, ds, more);
    forall p | p in l'.payments ensures l'.payments[p].paymentID == p {
      HistoryIsGreedyChain(l, ds, p);
    }
    HistoryIsGreedyChain(l', more, paymentID);
    var rows := Rows(l', more, paymentID);
    var path := [l'.payments[paymentID]] + rows;
    assert forall i | 0 < i < |path| - 1 :: path[i] == rows[i - 1] && path[i + 1] == rows[i];
    PathKeepsPhaseOrder(path, 0, |path| - 1);
  }

  /** One delivery enters a terminal status only from the statuses the graph names, or as the first event. */
  lemma TerminalsEntered(l: Ledger, d: Delivery, paymentID: string)
    requires paymentID in l.payments && Post(l, d).payments[paymentID] != l.payments[paymentID]
    ensures var before, after := l.payments[paymentID].status, Post(l, d).payments[paymentID].status;
            && before in MayPrecede(after)
            && !Terminal(before)
            && (after == Chargeback ==> before == Disputed)
            && (after == Refunded ==> before in {Paid, PartiallyRefunded})
            && (after in {PaymentStatus.Failed, Expired, Cancelled} ==> before in {Pending, Authorized})
  {
  }
}
