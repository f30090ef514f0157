/**
  When the order of delivery matters: in-order delivery with noise, and the exact
  condition under which every order ends in the same row.
 */
module DeliveryOrder {
  import opened Options
  import opened Webhook
  import opened Tables
  import opened Transitions
  import opened Processing
  import opened Ledgers
  import opened SerialRuns
  import opened StoredResolution

  /* ---- In-order delivery of a path ---- */

  /** The marked deliveries, in order. */
  function Marked(ds: seq<Delivery>, onPath: seq<bool>): seq<Delivery>
    requires |ds| == |onPath|
  {
    if ds == [] then []
    else
      var n := |ds| - 1;
      Marked(ds[..n], onPath[..n]) + (if onPath[n] then [ds[n]] else [])
  }

  function RowsNamed(ds: seq<Delivery>): seq<Payment> {
    seq(|ds|, i requires 0 <= i < |ds| => PaymentFromEvent(ds[i].event))
  }

  /** The ids stored after these deliveries: known from the deliveries alone. */
  function Stored(stored: set<string>, ds: seq<Delivery>): set<string> {
    stored + ProviderIDs(Effective(stored, ds))
  }

  /** After these deliveries d is new, for this payment, and its statements reach the payment's row. */
  predicate MayLand(l: Ledger, ds: seq<Delivery>, d: Delivery, paymentID: string) {
    && d.event.paymentID == paymentID
    && d.event.providerEventID !in Stored(l.events.Keys, ds)
    && Lands(d.env)
  }

  /**
    Every path event may land. Everything between them, in any number and order, either may
    not: it is about another payment, repeats any stored event, or fails; or else it is not
    acceptable after the path so far: stale, of equal time, or later but disallowed.
   */
  ghost predicate PathWithNoise(l: Ledger, ds: seq<Delivery>, onPath: seq<bool>, paymentID: string)
    requires |ds| == |onPath|
  {
    ds != [] ==>
      var n := |ds| - 1;
      var done := Marked(ds[..n], onPath[..n]);
      && PathWithNoise(l, ds[..n], onPath[..n], paymentID)
      && if onPath[n] then MayLand(l, ds[..n], ds[n], paymentID)
         else
           || !MayLand(l, ds[..n], ds[n], paymentID)
           || !Accepts(LastOr(RowsNamed(done), Lookup(l.payments, paymentID)), ds[n].event)
  }

  /** Every event of an in-order path is accepted, whatever noise surrounds it. */
  lemma {:induction false} InOrderPathIsFollowed(l: Ledger, ds: seq<Delivery>, onPath: seq<bool>, paymentID: string)
    requires |ds| == |onPath| && PathWithNoise(l, ds, onPath, paymentID)
    requires IsPath(Lookup(l.payments, paymentID), RowsNamed(Marked(ds, onPath)))
    ensures Rows(l, ds, paymentID) == RowsNamed(Marked(ds, onPath))
    ensures Lookup(PostAll(l, ds).payments, paymentID) ==
            LastOr(RowsNamed(Marked(ds, onPath)), Lookup(l.payments, paymentID))
    ensures ProviderIDs(Marked(ds, onPath)) <= PostAll(l, ds).events.Keys
  {
    if ds != [] {
      var n := |ds| - 1;
      var init, d, done := ds[..n], ds[n], Marked(ds[..n], onPath[..n]);
      var current := Lookup(l.payments, paymentID);
      assert ds == init + [d];
      MarkedStep(ds, onPath);
      PathShrinks(current, RowsNamed(done), RowsNamed(Marked(ds, onPath)));
      InOrderPathIsFollowed(l, init, onPath[..n], paymentID);
      StepMoves(l, init, d, paymentID);
      RowsStep(l, init, d, paymentID);
      if onPath[n] {
        PathGrows(current, RowsNamed(done), d.event);
      }
    }
  }

  /** The delivery changes the payment's row exactly when it may land and is acceptable. */
  lemma StepMoves(l: Ledger, ds: seq<Delivery>, d: Delivery, paymentID: string)
    ensures var before, after := Lookup(PostAll(l, ds).payments, paymentID),
                                 Lookup(PostAll(l, ds + [d]).payments, paymentID);
            var lands := MayLand(l, ds, d, paymentID) && Accepts(before, d.event);
            && (after != before <==> lands)
            && (lands ==> after == Some(PaymentFromEvent(d.event)))
    ensures PostAll(l, ds).events.Keys <= PostAll(l, ds + [d]).events.Keys
    ensures MayLand(l, ds, d, paymentID) ==> d.event.providerEventID in PostAll(l, ds + [d]).events
  {
    DedupEquivalence(l, ds);
    NoiseOrStep(PostAll(l, ds), d, paymentID);
    assert (ds + [d])[..|ds|] == ds;
  }

  /** The marks tell for each delivery whether it changes the payment's row. */
  ghost predicate MarksMoves(l: Ledger, ds: seq<Delivery>, onPath: seq<bool>, paymentID: string)
    requires |ds| == |onPath|
  {
    ds != [] ==>
      var n := |ds| - 1;
      && MarksMoves(l, ds[..n], onPath[..n], paymentID)
      && (onPath[n] <==> Lookup(PostAll(l, ds[..n]).payments, paymentID) != Lookup(PostAll(l, ds).payments, paymentID))
  }

  /** Conversely, whatever the deliveries that change the row are, they are a path and all others are noise. */
  lemma {:induction false} MovesArePathWithNoise(l: Ledger, ds: seq<Delivery>, onPath: seq<bool>, paymentID: string)
    requires |ds| == |onPath| && KeysMatch(l.payments)
    ensures MarksMoves(l, ds, onPath, paymentID) <==>
            PathWithNoise(l, ds, onPath, paymentID)
            && IsPath(Lookup(l.payments, paymentID), RowsNamed(Marked(ds, onPath)))
  {
    if ds != [] {
      var n := |ds| - 1;
      var init, d, done := ds[..n], ds[n], Marked(ds[..n], onPath[..n]);
      var current := Lookup(l.payments, paymentID);
      assert ds == init + [d];
      MarkedStep(ds, onPath);
      MovesArePathWithNoise(l, init, onPath[..n], paymentID);
      if PathWithNoise(l, init, onPath[..n], paymentID) && IsPath(current, RowsNamed(done)) {
        NextMove(l, init, onPath[..n], d, paymentID);
      } else if IsPath(current, RowsNamed(Marked(ds, onPath))) {
        PathShrinks(current, RowsNamed(done), RowsNamed(Marked(ds, onPath)));
      }
    }
  }

  lemma NextMove(l: Ledger, ds: seq<Delivery>, onPath: seq<bool>, d: Delivery, paymentID: string)
    requires |ds| == |onPath| && KeysMatch(l.payments)
    requires PathWithNoise(l, ds, onPath, paymentID)
    requires IsPath(Lookup(l.payments, paymentID), RowsNamed(Marked(ds, onPath)))
    ensures var before, after := Lookup(PostAll(l, ds).payments, paymentID),
                                 Lookup(PostAll(l, ds + [d]).payments, paymentID);
            var current, rows := Lookup(l.payments, paymentID), RowsNamed(Marked(ds, onPath));
            && before == LastOr(rows, current)
            && (after != before <==> MayLand(l, ds, d, paymentID) && Accepts(before, d.event))
            && (after != before <==>
                MayLand(l, ds, d, paymentID) && IsPath(current, rows + [PaymentFromEvent(d.event)]))
  {
    InOrderPathIsFollowed(l, ds, onPath, paymentID);
    StepMoves(l, ds, d, paymentID);
    if MayLand(l, ds, d, paymentID) {
      HistoryIsGreedyChain(l, ds, paymentID);
      GrowsIffAccepted(Lookup(l.payments, paymentID), RowsNamed(Marked(ds, onPath)), d.event);
    }
  }

  lemma GrowsIffAccepted(current: Option<Payment>, rows: seq<Payment>, e: PaymentEvent)
    requires IsPath(current, rows)
    requires LastOr(rows, current).Some? ==> LastOr(rows, current).value.paymentID == e.paymentID
    ensures IsPath(current, rows + [PaymentFromEvent(e)]) <==> Accepts(LastOr(rows, current), e)
  {
    if IsPath(current, rows + [PaymentFromEvent(e)]) {
      PathGrows(current, rows, e);
    }
    if Accepts(LastOr(rows, current), e) {
      PathExtends(current, rows, PaymentFromEvent(e));
    }
  }

  lemma {:induction false} MarkedStep(ds: seq<Delivery>, onPath: seq<bool>)
    requires |ds| == |onPath| > 0
    ensures var n := |ds| - 1;
            var d, done, done' := ds[n], Marked(ds[..n], onPath[..n]), Marked(ds, onPath);
            && (onPath[n] ==>
                  && RowsNamed(done') == RowsNamed(done) + [PaymentFromEvent(d.event)]
                  && ProviderIDs(done') == ProviderIDs(done) + {d.event.providerEventID})
            && (!onPath[n] ==> done' == done)
  {
    var n := |ds| - 1;
    assert ds == ds[..n] + [ds[n]];
  }

  /** One delivery moves the payment's row to its event or leaves it. */
  lemma NoiseOrStep(l: Ledger, d: Delivery, paymentID: string)
    ensures var current := Lookup(l.payments, paymentID);
            var lands := && d.event.paymentID == paymentID && d.event.providerEventID !in l.events
                         && Lands(d.env) && Accepts(current, d.event);
            var after := Lookup(Post(l, d).payments, paymentID);
            && (lands ==> after == Some(PaymentFromEvent(d.event)) && after != current)
            && (!lands ==> after == current)
    ensures l.events.Keys <= Post(l, d).events.Keys <= l.events.Keys + {d.event.providerEventID}
    ensures Decides(d.env) ==> d.event.providerEventID in Post(l, d).events
  {
    PostByParts(l, d);
  }

  lemma PathShrinks(current: Option<Payment>, rows: seq<Payment>, longer: seq<Payment>)
    requires IsPath(current, longer) && rows <= longer
    ensures IsPath(current, rows)
  {
    assert forall i | 0 <= i < |rows| - 1 :: Follows(longer[i], longer[i + 1]);
  }

  lemma PathGrows(current: Option<Payment>, rows: seq<Payment>, e: PaymentEvent)
    requires IsPath(current, rows + [PaymentFromEvent(e)])
    ensures Accepts(LastOr(rows, current), e)
  {
    var longer := rows + [PaymentFromEvent(e)];
    if rows != [] {
      assert Follows(longer[|rows| - 1], longer[|rows|]);
    } else {
      assert longer[0] == PaymentFromEvent(e);
    }
  }

  /* ---- Any order ---- */

  function Clean(es: seq<PaymentEvent>): seq<Delivery> {
    seq(|es|, i requires 0 <= i < |es| => Delivery(es[i], NO_FAILURES))
  }

  /** The payment's row after a failure-free delivery of the events in this order. */
  function FinalRow(l: Ledger, es: seq<PaymentEvent>, paymentID: string): Option<Payment> {
    Lookup(PostAll(l, Clean(es)).payments, paymentID)
  }

  /** New events for one payment that has no row yet. */
  ghost predicate NewBatch(l: Ledger, batch: set<PaymentEvent>, paymentID: string) {
    && paymentID !in l.payments
    && (forall e | e in batch :: e.paymentID == paymentID && e.providerEventID !in l.events)
    && (forall a, b | a in batch && b in batch && a != b :: a.providerEventID != b.providerEventID)
  }

  /** New events, no two with the same timestamp. */
  ghost predicate FreshBatch(l: Ledger, batch: set<PaymentEvent>, paymentID: string) {
    && NewBatch(l, batch, paymentID)
    && (forall a, b | a in batch && b in batch && a != b :: a.timestamp != b.timestamp)
  }

  ghost predicate IsLatest(e: PaymentEvent, batch: set<PaymentEvent>) {
    e in batch && forall other | other in batch && other != e :: other.timestamp < e.timestamp
  }

  ghost predicate OrderDoesNotMatter(l: Ledger, batch: set<PaymentEvent>, paymentID: string) {
    forall x, y | IsOrderOf(x, batch) && IsOrderOf(y, batch) :: FinalRow(l, x, paymentID) == FinalRow(l, y, paymentID)
  }

  /** Every other event says the same, or is older with a direct edge to this one's status. */
  ghost predicate FollowsAll(w: PaymentEvent, batch: set<PaymentEvent>) {
    w in batch && forall e | e in batch ::
      || PaymentFromEvent(e) == PaymentFromEvent(w)
      || (e.timestamp < w.timestamp && IsTransitionAllowed(e.paymentStatus, w.paymentStatus))
  }

  /**
    All delivery orders of a batch, equal timestamps included, end in the same row exactly when one
    event follows all others.
   */
  lemma OrderIndependenceWithTies(l: Ledger, batch: set<PaymentEvent>, paymentID: string)
    requires NewBatch(l, batch, paymentID) && batch != {}
    ensures OrderDoesNotMatter(l, batch, paymentID) <==> exists w :: FollowsAll(w, batch)
    ensures forall w, es | FollowsAll(w, batch) && IsOrderOf(es, batch) ::
              FinalRow(l, es, paymentID) == Some(PaymentFromEvent(w))
  {
    forall es | IsOrderOf(es, batch) ensures FinalRow(l, es, paymentID) == RowAfterAll(Exact, None, es) {
      FinalRowIsRowAfterAll(l, es, batch, paymentID);
    }
    assert forall w :: FollowsAll(w, batch) <==> BeatsAll(Exact, w, batch);
    OrdersAgreeExactly(Exact, batch);
    assert OrderDoesNotMatter(l, batch, paymentID) <==> OrdersAgree(Exact, batch);
  }

  /**
    With distinct timestamps, all delivery orders of a batch end in the same row exactly when every
    other event's status has a direct edge to the status of the latest event; that row is then the latest event.
   */
  lemma OrderIndependence(l: Ledger, batch: set<PaymentEvent>, paymentID: string, latest: PaymentEvent)
    requires FreshBatch(l, batch, paymentID) && IsLatest(latest, batch)
    ensures OrderDoesNotMatter(l, batch, paymentID) <==>
            forall e | e in batch && e != latest :: IsTransitionAllowed(e.paymentStatus, latest.paymentStatus)
    ensures OrderDoesNotMatter(l, batch, paymentID) ==>
              forall es | IsOrderOf(es, batch) :: FinalRow(l, es, paymentID) == Some(PaymentFromEvent(latest))
  {
    OrderIndependenceWithTies(l, batch, paymentID);
    forall w | FollowsAll(w, batch) ensures w == latest {
      assert latest in batch;
    }
    assert FollowsAll(latest, batch) <==>
           forall e | e in batch && e != latest :: IsTransitionAllowed(e.paymentStatus, latest.paymentStatus);
  }

  /** An event that may not precede the latest one gives two orders with different ends. */
  lemma TwoOrdersDiffer(l: Ledger, batch: set<PaymentEvent>, paymentID: string, e: PaymentEvent, latest: PaymentEvent)
      returns (x: seq<PaymentEvent>, y: seq<PaymentEvent>)
    requires FreshBatch(l, batch, paymentID) && IsLatest(latest, batch)
    requires e in batch && e != latest && !IsTransitionAllowed(e.paymentStatus, latest.paymentStatus)
    ensures IsOrderOf(x, batch) && IsOrderOf(y, batch)
    ensures FinalRow(l, x, paymentID) != FinalRow(l, y, paymentID)
  {
    OrderIndependence(l, batch, paymentID, latest);
    x, y :| IsOrderOf(x, batch) && IsOrderOf(y, batch) && FinalRow(l, x, paymentID) != FinalRow(l, y, paymentID);
  }

  /** A finite nonempty batch with distinct timestamps has a latest event. */
  lemma LatestExists(batch: set<PaymentEvent>) returns (latest: PaymentEvent)
    requires batch != {}
    requires forall a, b | a in batch && b in batch && a != b :: a.timestamp != b.timestamp
    ensures IsLatest(latest, batch)
  {
    latest := LatestOf(batch);
  }

  lemma {:induction false} FinalRowIsRowAfterAll(l: Ledger,
                                                 es: seq<PaymentEvent>, batch: set<PaymentEvent>, paymentID: string)
    requires NewBatch(l, batch, paymentID)
    requires (forall e | e in es :: e in batch) && (forall i, j | 0 <= i < j < |es| :: es[i] != es[j])
    ensures FinalRow(l, es, paymentID) == RowAfterAll(Exact, None, es)
    ensures forall e | e in batch && e !in es :: e.providerEventID !in PostAll(l, Clean(es)).events
  {
    if es != [] {
      var init, e := es[..|es| - 1], es[|es| - 1];
      FinalRowIsRowAfterAll(l, init, batch, paymentID);
      assert e in es && e in batch && e !in init;
      CleanStep(l, init, e);
      assert es == init + [e];
      forall later | later in batch && later !in es ensures later.providerEventID !in PostAll(l, Clean(es)).events {
        assert later !in init && later != e;
      }
    }
  }

  lemma CleanStep(l: Ledger, init: seq<PaymentEvent>, e: PaymentEvent)
    requires e.providerEventID !in PostAll(l, Clean(init)).events
    ensures FinalRow(l, init + [e], e.paymentID) ==
            if Accepts(FinalRow(l, init, e.paymentID), e)
            then Some(PaymentFromEvent(e)) else FinalRow(l, init, e.paymentID)
    ensures PostAll(l, Clean(init + [e])).events.Keys == PostAll(l, Clean(init)).events.Keys + {e.providerEventID}
  {
    var d := Delivery(e, NO_FAILURES);
    assert Clean(init + [e]) == Clean(init) + [d];
    assert (Clean(init) + [d])[..|init|] == Clean(init);
    NoiseOrStep(PostAll(l, Clean(init)), d, e.paymentID);
  }
}
