/** The payment status machine. */
module Transitions {
  import opened Options
  import opened Webhook
  import opened Tables

  predicate IsTransitionAllowed(current: PaymentStatus, next: PaymentStatus) {
    match current
    case Pending => next in {Authorized, Paid, PaymentStatus.Failed, Expired, Cancelled}
    case Authorized => next in {Paid, PaymentStatus.Failed, Expired, Cancelled}
    case Paid => next in {PartiallyRefunded, Refunded, Disputed}
    case PartiallyRefunded => next in {PartiallyRefunded, Refunded, Disputed}
    case Disputed => next in {Paid, Chargeback}
    case _ => false
  }

  predicate Terminal(s: PaymentStatus) {
    s in {PaymentStatus.Failed, Expired, Cancelled, Refunded, Chargeback}
  }

  /** Money has been taken: only refunds and disputes can follow. */
  predicate Captured(s: PaymentStatus) {
    s in {Paid, PartiallyRefunded, Disputed}
  }

  function Phase(s: PaymentStatus): nat {
    if s == Pending then 0
    else if s == Authorized then 1
    else if Captured(s) then 2
    else 3
  }

  /** `next` may replace `current`: strictly later, along an edge of the graph. */
  predicate Follows(current: Payment, next: Payment) {
    && current.paymentID == next.paymentID
    && next.timestamp > current.timestamp
    && IsTransitionAllowed(current.status, next.status)
  }

  /** Each row follows the one before it; the first follows `current`, if there is one. */
  ghost predicate IsPath(current: Option<Payment>, rows: seq<Payment>) {
    && (current.Some? && rows != [] ==> Follows(current.value, rows[0]))
    && forall i | 0 <= i < |rows| - 1 :: Follows(rows[i], rows[i + 1])
  }

  /** What one allowed step, and hence any path, keeps of the phases. */
  ghost predicate PhaseOrder(before: Payment, after: Payment) {
    && before.paymentID == after.paymentID
    && before.timestamp <= after.timestamp
    && Phase(before.status) <= Phase(after.status)
    && (Terminal(before.status) ==> after == before)
    && (Captured(before.status) ==> Captured(after.status) || after.status in {Refunded, Chargeback})
  }

  lemma {:induction false} PathKeepsPhaseOrder(rows: seq<Payment>, i: nat, j: nat)
    requires IsPath(None, rows) && i <= j < |rows|
    ensures PhaseOrder(rows[i], rows[j])
    ensures i < j ==> rows[i].timestamp < rows[j].timestamp && !Terminal(rows[i].status)
  {
    if i < j {
      PathKeepsPhaseOrder(rows, i, j - 1);
      assert Follows(rows[j - 1], rows[j]);
    }
  }

  /**
    Chargeback is entered only from disputed, refunded only from a captured status; no status is
    entered but from those that may precede it.
   */
  lemma PathEntersTerminals(rows: seq<Payment>, j: nat)
    requires IsPath(None, rows) && 0 < j < |rows|
    ensures rows[j - 1].status in MayPrecede(rows[j].status)
    ensures rows[j].status == Chargeback ==> rows[j - 1].status == Disputed
    ensures rows[j].status == Refunded ==> rows[j - 1].status in {Paid, PartiallyRefunded}
    ensures rows[j].status in {PaymentStatus.Failed, Expired, Cancelled} ==> rows[j - 1].status in {Pending, Authorized}
  {
    assert Follows(rows[j - 1], rows[j]);
    EdgesByTarget(rows[j - 1].status, rows[j].status);
  }

  /** The graph read by target: the statuses that each status may replace. */
  function MayPrecede(next: PaymentStatus): set<PaymentStatus> {
    match next
    case Pending => {}
    case Authorized => {Pending}
    case Paid => {Pending, Authorized, Disputed}
    case PartiallyRefunded => {Paid, PartiallyRefunded}
    case Refunded => {Paid, PartiallyRefunded}
    case Disputed => {Paid, PartiallyRefunded}
    case Chargeback => {Disputed}
    case _ => {Pending, Authorized}
  }

  lemma EdgesByTarget(current: PaymentStatus, next: PaymentStatus)
    ensures IsTransitionAllowed(current, next) <==> current in MayPrecede(next)
  {
  }

  /* ---- Reachable statuses ---- */

  /** Consecutive statuses are joined by edges. */
  predicate Trail(statuses: seq<PaymentStatus>) {
    forall i | 0 <= i < |statuses| - 1 :: IsTransitionAllowed(statuses[i], statuses[i + 1])
  }

  ghost predicate Leads(statuses: seq<PaymentStatus>, from: PaymentStatus, to: PaymentStatus) {
    |statuses| >= 2 && Trail(statuses) && statuses[0] == from && statuses[|statuses| - 1] == to
  }

  /** The statuses a payment may still take on. */
  predicate MayBecome(from: PaymentStatus, to: PaymentStatus) {
    if from == Pending then to != Pending
    else if from == Authorized then Phase(to) >= 2
    else Captured(from) && (Captured(to) || to in {Refunded, Chargeback})
  }

  /** One or more transitions lead from one status to another exactly in these cases. */
  lemma ReachableStatuses(from: PaymentStatus, to: PaymentStatus)
    ensures (exists statuses :: Leads(statuses, from, to)) <==> MayBecome(from, to)
  {
    forall statuses | Leads(statuses, from, to) ensures MayBecome(from, to) {
      TrailStaysWithin(statuses);
    }
    if MayBecome(from, to) {
      var statuses := FindTrail(from, to);
    }
  }

  lemma {:induction false} TrailStaysWithin(statuses: seq<PaymentStatus>)
    requires |statuses| >= 2 && Trail(statuses)
    ensures MayBecome(statuses[0], statuses[|statuses| - 1])
  {
    var n := |statuses| - 1;
    assert IsTransitionAllowed(statuses[n - 1], statuses[n]);
    if n > 1 {
      TrailStaysWithin(statuses[..n]);
    }
  }

  /** Within the captured statuses every status can be reached again, so two detours suffice. */
  lemma FindTrail(from: PaymentStatus, to: PaymentStatus) returns (statuses: seq<PaymentStatus>)
    requires MayBecome(from, to)
    ensures Leads(statuses, from, to)
  {
    if IsTransitionAllowed(from, to) {
      statuses := [from, to];
    } else if !Captured(from) {
      if IsTransitionAllowed(Paid, to) {
        statuses := [from, Paid, to];
      } else {
        statuses := [from, Paid, Disputed, to];
      }
    } else if from == Disputed {
      statuses := [from, Paid, to];
    } else if IsTransitionAllowed(Disputed, to) {
      statuses := [from, Disputed, to];
    } else {
      statuses := [from, Disputed, Paid, to];
    }
  }
}
