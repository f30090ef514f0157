/**
  One payment's row after its events, in any order of delivery. Provider timestamps may be
  finer than the stored column: an event is compared as it came, but its row keeps the
  timestamp only at the column's resolution.
 */
module StoredResolution {
  import opened Options
  import opened Webhook
  import opened Tables
  import opened Transitions
  import opened Processing

  /** Rounding down to what the column can hold. */
  ghost predicate IsTruncation(trunc: int -> int) {
    && (forall a, b | a <= b :: trunc(a) <= trunc(b))
    && (forall a :: trunc(a) <= a && trunc(trunc(a)) == trunc(a))
  }

  function StoredRow(trunc: int -> int, e: PaymentEvent): Payment {
    Payment(e.paymentID, e.paymentStatus, trunc(e.timestamp))
  }

  /** The row after the events of one payment, delivered in this order without failure. */
  function RowAfterAll(trunc: int -> int, current: Option<Payment>, es: seq<PaymentEvent>): Option<Payment> {
    if es == [] then current
    else
      var row, e := RowAfterAll(trunc, current, es[..|es| - 1]), es[|es| - 1];
      if Accepts(row, e) then Some(StoredRow(trunc, e)) else row
  }

  /** The column holds every timestamp as it came. */
  function Exact(t: int): int {
    t
  }

  /** Timestamps that the column holds exactly give the row of the untruncated model. */
  lemma {:induction false} ExactTimestamps(trunc: int -> int, es: seq<PaymentEvent>)
    requires forall e | e in es :: trunc(e.timestamp) == e.timestamp
    ensures RowAfterAll(trunc, None, es) == RowAfterAll(Exact, None, es)
  {
    if es != [] {
      assert es[|es| - 1] in es;
      ExactTimestamps(trunc, es[..|es| - 1]);
    }
  }

  /** Stored timestamps still never go back, and terminal rows still stay. */
  lemma {:induction false} NeverGoesBack(trunc: int -> int, current: Payment, es: seq<PaymentEvent>)
    requires IsTruncation(trunc) && trunc(current.timestamp) == current.timestamp
    requires forall e | e in es :: e.paymentID == current.paymentID
    ensures RowAfterAll(trunc, Some(current), es).Some?
    ensures var row := RowAfterAll(trunc, Some(current), es).value;
            PhaseOrder(current, row) && trunc(row.timestamp) == row.timestamp
  {
    if es != [] {
      var init := es[..|es| - 1];
      NeverGoesBack(trunc, current, init);
      var row := RowAfterAll(trunc, Some(current), init).value;
      assert es[|es| - 1] in es;
      assert trunc(row.timestamp) <= trunc(es[|es| - 1].timestamp) || !Accepts(Some(row), es[|es| - 1]);
    }
  }

  /* ---- Any order ---- */

  ghost predicate IsOrderOf(es: seq<PaymentEvent>, batch: set<PaymentEvent>) {
    && (set e | e in es) == batch
    && (forall i, j | 0 <= i < j < |es| :: es[i] != es[j])
  }

  /** All orders of the batch leave the same row. */
  ghost predicate OrdersAgree(trunc: int -> int, batch: set<PaymentEvent>) {
    forall x, y | IsOrderOf(x, batch) && IsOrderOf(y, batch) ::
      RowAfterAll(trunc, None, x) == RowAfterAll(trunc, None, y)
  }

  /** Next to each other's rows, w gets in and e does not; or both leave the same row. */
  predicate Beats(trunc: int -> int, w: PaymentEvent, e: PaymentEvent) {
    || StoredRow(trunc, e) == StoredRow(trunc, w)
    || (Accepts(Some(StoredRow(trunc, e)), w) && !Accepts(Some(StoredRow(trunc, w)), e))
  }

  ghost predicate BeatsAll(trunc: int -> int, w: PaymentEvent, batch: set<PaymentEvent>) {
    w in batch && forall e | e in batch :: Beats(trunc, w, e)
  }

  /**
    All orders of a batch for a new payment end in the same row if and only if one event beats
    every other; that row is then its own. This holds for any rounding, of any timestamps.
   */
  lemma OrdersAgreeExactly(trunc: int -> int, batch: set<PaymentEvent>)
    requires batch != {}
    ensures OrdersAgree(trunc, batch) <==> exists w :: BeatsAll(trunc, w, batch)
    ensures forall w, es | BeatsAll(trunc, w, batch) && IsOrderOf(es, batch) ::
              RowAfterAll(trunc, None, es) == Some(StoredRow(trunc, w))
  {
    forall w, es | BeatsAll(trunc, w, batch) && IsOrderOf(es, batch)
      ensures RowAfterAll(trunc, None, es) == Some(StoredRow(trunc, w))
    {
      assert w in es && forall e | e in es :: e in batch;
      WinnerStays(trunc, es, w);
    }
    if OrdersAgree(trunc, batch) {
      var w := FindWinner(trunc, batch);
    }
  }

  lemma {:induction false} WinnerStays(trunc: int -> int, es: seq<PaymentEvent>, w: PaymentEvent)
    requires w in es && forall e | e in es :: Beats(trunc, w, e)
    ensures RowAfterAll(trunc, None, es) == Some(StoredRow(trunc, w))
  {
    var init, e := es[..|es| - 1], es[|es| - 1];
    assert Beats(trunc, w, e);
    if w in init {
      WinnerStays(trunc, init, w);
    } else if init != [] {
      var other := SomeEventStays(trunc, init);
      assert other in es && Beats(trunc, w, other);
    }
  }

  /** The row left is that of one of the events. */
  lemma {:induction false} SomeEventStays(trunc: int -> int, es: seq<PaymentEvent>) returns (e: PaymentEvent)
    requires es != []
    ensures e in es && RowAfterAll(trunc, None, es) == Some(StoredRow(trunc, e))
  {
    var init := es[..|es| - 1];
    e := es[|es| - 1];
    if !Accepts(RowAfterAll(trunc, None, init), e) {
      e := SomeEventStays(trunc, init);
    }
  }

  /** Of the events that leave the common row, the one with the latest own timestamp. */
  lemma FindWinner(trunc: int -> int, batch: set<PaymentEvent>) returns (w: PaymentEvent)
    requires batch != {} && OrdersAgree(trunc, batch)
    ensures BeatsAll(trunc, w, batch)
  {
    var order := SomeOrder(batch);
    assert order != [];
    var first := SomeEventStays(trunc, order);
    var same := set e | e in batch && StoredRow(trunc, e) == StoredRow(trunc, first);
    assert first in same;
    w := LatestOf(same);
    forall e | e in batch && e !in same ensures Beats(trunc, w, e) {
      LastStaysOut(trunc, batch, order, e, StoredRow(trunc, w));
      FirstIsOvertaken(trunc, batch, order, same, e, w);
    }
  }

  /** Delivered last, an event with another row does not get in. */
  lemma LastStaysOut(trunc: int -> int, batch: set<PaymentEvent>,
                     order: seq<PaymentEvent>, e: PaymentEvent, row: Payment)
    requires OrdersAgree(trunc, batch) && IsOrderOf(order, batch) && RowAfterAll(trunc, None, order) == Some(row)
    requires e in batch && StoredRow(trunc, e) != row
    ensures !Accepts(Some(row), e)
  {
    var rest := SomeOrder(batch - {e});
    JoinOrders(rest, [e], batch - {e}, {e});
    assert batch - {e} + {e} == batch;
    assert (rest + [e])[..|rest|] == rest;
    assert RowAfterAll(trunc, None, rest + [e]) == Some(row);
  }

  /** Delivered first, it is followed by one of the events with the common row, hence by the latest of them. */
  lemma FirstIsOvertaken(trunc: int -> int, batch: set<PaymentEvent>, order: seq<PaymentEvent>,
                         same: set<PaymentEvent>, e: PaymentEvent, w: PaymentEvent)
    requires OrdersAgree(trunc, batch) && IsOrderOf(order, batch)
    requires RowAfterAll(trunc, None, order) == Some(StoredRow(trunc, w))
    requires same == set x | x in batch && StoredRow(trunc, x) == StoredRow(trunc, w)
    requires w in same && forall x | x in same :: x.timestamp <= w.timestamp
    requires e in batch && e !in same
    ensures Accepts(Some(StoredRow(trunc, e)), w)
  {
    if !Accepts(Some(StoredRow(trunc, e)), w) {
      var sames := SomeOrder(same);
      var rest := SomeOrder(batch - same - {e});
      JoinOrders([e], sames, {e}, same);
      JoinOrders([e] + sames, rest, {e} + same, batch - same - {e});
      assert {e} + same + (batch - same - {e}) == batch;
      RowAfterAllAppend(trunc, None, [e] + sames, rest);
      RowAfterAllAppend(trunc, None, [e], sames);
      assert [e][..0] == [];
      assert RowAfterAll(trunc, None, [e]) == Some(StoredRow(trunc, e));
      forall x | x in sames ensures !Accepts(Some(StoredRow(trunc, e)), x) {
        assert x in same;
      }
      NoneGetsIn(trunc, Some(StoredRow(trunc, e)), sames);
      assert forall x | x in rest :: x in batch - same - {e};
      NeverReached(trunc, Some(StoredRow(trunc, e)), rest, StoredRow(trunc, w));
    }
  }

  lemma {:induction false} NoneGetsIn(trunc: int -> int, current: Option<Payment>, es: seq<PaymentEvent>)
    requires forall e | e in es :: !Accepts(current, e)
    ensures RowAfterAll(trunc, current, es) == current
  {
    if es != [] {
      NoneGetsIn(trunc, current, es[..|es| - 1]);
      assert es[|es| - 1] in es;
    }
  }

  lemma {:induction false} NeverReached(trunc: int -> int, current: Option<Payment>,
                                        es: seq<PaymentEvent>, row: Payment)
    requires current != Some(row) && forall e | e in es :: StoredRow(trunc, e) != row
    ensures RowAfterAll(trunc, current, es) != Some(row)
  {
    if es != [] {
      NeverReached(trunc, current, es[..|es| - 1], row);
      assert es[|es| - 1] in es;
    }
  }

  lemma {:induction false} RowAfterAllAppend(trunc: int -> int, current: Option<Payment>,
                                             x: seq<PaymentEvent>, y: seq<PaymentEvent>)
    ensures RowAfterAll(trunc, current, x + y) == RowAfterAll(trunc, RowAfterAll(trunc, current, x), y)
  {
    if y == [] {
      assert x + y == x;
    } else {
      assert (x + y)[..|x + y| - 1] == x + y[..|y| - 1];
      RowAfterAllAppend(trunc, current, x, y[..|y| - 1]);
    }
  }

  lemma {:induction false} SomeOrder(batch: set<PaymentEvent>) returns (es: seq<PaymentEvent>)
    ensures IsOrderOf(es, batch)
    decreases batch
  {
    if batch == {} {
      es := [];
    } else {
      var e :| e in batch;
      var rest := SomeOrder(batch - {e});
      es := rest + [e];
      assert (set a | a in es) == (set a | a in rest) + {e};
    }
  }

  lemma JoinOrders(x: seq<PaymentEvent>, y: seq<PaymentEvent>, xs: set<PaymentEvent>, ys: set<PaymentEvent>)
    requires IsOrderOf(x, xs) && IsOrderOf(y, ys) && xs !! ys
    ensures IsOrderOf(x + y, xs + ys)
  {
    var es := x + y;
    assert (set e | e in es) == (set e | e in x) + (set e | e in y);
    forall i, j | 0 <= i < j < |es| ensures es[i] != es[j] {
      if i < |x| <= j {
        assert es[i] in x && es[j] in y;
        assert es[i] in xs && es[j] in ys;
      }
    }
  }

  /** A nonempty batch has an event that no other is later than. */
  lemma {:induction false} LatestOf(batch: set<PaymentEvent>) returns (latest: PaymentEvent)
    requires batch != {}
    ensures latest in batch && forall e | e in batch :: e.timestamp <= latest.timestamp
    decreases batch
  {
    latest :| latest in batch;
    if batch != {latest} {
      var other := LatestOf(batch - {latest});
      if latest.timestamp < other.timestamp {
        latest := other;
      }
    }
  }

  /* ---- Two events ---- */

  /**
    Two events of a new payment end in the same row in either order exactly when they leave the
    same row anyway, or just one of them may come second: the later one by an edge from the
    earlier one, the earlier one by an edge back if truncating the later timestamp lets it in.
   */
  lemma TruncationAndOrder(trunc: int -> int, early: PaymentEvent, late: PaymentEvent)
    requires IsTruncation(trunc) && early.timestamp < late.timestamp
    ensures var forth := IsTransitionAllowed(early.paymentStatus, late.paymentStatus);
            var back := IsTransitionAllowed(late.paymentStatus, early.paymentStatus)
                        && early.timestamp > trunc(late.timestamp);
            && (RowAfterAll(trunc, None, [early, late]) == RowAfterAll(trunc, None, [late, early]) <==>
                StoredRow(trunc, early) == StoredRow(trunc, late) || forth != back)
            && RowAfterAll(trunc, None, [early, late]) == Some(StoredRow(trunc, if forth then late else early))
            && RowAfterAll(trunc, None, [late, early]) == Some(StoredRow(trunc, if back then early else late))
  {
    TwoEvents(trunc, early, late);
    TwoEvents(trunc, late, early);
    assert trunc(early.timestamp) <= early.timestamp;
  }

  lemma TwoEvents(trunc: int -> int, a: PaymentEvent, b: PaymentEvent)
    ensures RowAfterAll(trunc, None, [a, b]) ==
            Some(StoredRow(trunc, if Accepts(Some(StoredRow(trunc, a)), b) then b else a))
  {
    assert [a, b][..1] == [a] && [a][..0] == [];
    assert RowAfterAll(trunc, None, [a]) == Some(StoredRow(trunc, a));
  }

  /** A column that keeps thousands. */
  function Thousands(t: int): int {
    t / 1000 * 1000
  }

  lemma ThousandsAt(a: int, b: int)
    requires a <= b
    ensures Thousands(a) <= Thousands(b) && Thousands(a) <= a
    ensures Thousands(Thousands(a)) == Thousands(a)
  {
    var q := a / 1000;
    assert q <= b / 1000;
    assert (q * 1000) / 1000 == q;
  }

  lemma ThousandsTruncate()
    ensures IsTruncation(Thousands)
  {
    forall a, b | a <= b ensures Thousands(a) <= Thousands(b) {
      ThousandsAt(a, b);
    }
    forall a ensures Thousands(a) <= a && Thousands(Thousands(a)) == Thousands(a) {
      ThousandsAt(a, a);
    }
  }

  /** Two events less than a unit apart, with a direct edge to the later one, whose order still matters. */
  lemma TruncationCanReorder(early: PaymentEvent, late: PaymentEvent)
    requires early.paymentID == late.paymentID
    requires early.paymentStatus == Disputed && early.timestamp == 1500
    requires late.paymentStatus == Paid && late.timestamp == 1700
    ensures IsTruncation(Thousands)
    ensures RowAfterAll(Thousands, None, [early, late]) == Some(Payment(late.paymentID, Paid, 1000))
    ensures RowAfterAll(Thousands, None, [late, early]) == Some(Payment(late.paymentID, Disputed, 1000))
  {
    ThousandsTruncate();
    TwoEvents(Thousands, early, late);
    TwoEvents(Thousands, late, early);
  }
}
