/**
  The out-of-order race workload of the load test, composed with the processor: what
  delivering it serially leaves behind, and how often each outcome occurs.
 */
module RaceWorkload {
  import opened Options
  import opened Webhook
  import opened Tables
  import opened Processing
  import opened Ledgers
  import opened SerialRuns

  datatype Template = Template(eventKey: string, eventType: string, status: PaymentStatus, offsetSeconds: int)

  const TEMPLATES: seq<Template> := [
    Template("paid_latest", "payment.paid", Paid, 180),
    Template("pending_original", "payment.pending", Pending, 0),
    Template("failed_mid", "payment.failed", PaymentStatus.Failed, 120),
    Template("pending_after_paid", "payment.pending", Pending, 240),
    Template("pending_late_old", "payment.pending", Pending, 30)
  ]

  /** 2026-06-19T00:00:00Z in milliseconds. */
  const BASE_MS := 1781827200000
  const MICROS_PER_MS := 1000

  function Decimal(n: nat): string {
    if n < 10 then ["0123456789"[n]] else Decimal(n / 10) + ["0123456789"[n % 10]]
  }

  /** One run of the scenario: its id, the number of shared payments, and the request bodies. */
  datatype Workload = Workload(runID: string, setSize: nat, body: nat -> Bytes)
  {
    predicate Valid() {
      setSize > 0
    }

    /** Which pass over the payments iteration n belongs to. */
    function Pass(n: nat): nat
      requires Valid()
    {
      n / setSize
    }

    function PaymentID(index: nat): string {
      "pay_race_shared_" + runID + "_" + Decimal(index)
    }

    function ProviderEventID(n: nat): string
      requires Valid()
    {
      "evt_race_" + TEMPLATES[Pass(n) % 5].eventKey + "_" + runID + "_" + Decimal(n % setSize) + "_" + Decimal(n)
    }

    function Instant(index: nat, offsetSeconds: int): int {
      (BASE_MS + index * 1000 + offsetSeconds * 1000) * MICROS_PER_MS
    }

    /** The event of iteration n, as the handler parses it. */
    function Event(n: nat): PaymentEvent
      requires Valid()
    {
      var template := TEMPLATES[Pass(n) % 5];
      PaymentEvent(ProviderEventID(n), PaymentID(n % setSize), template.eventType, template.status,
                   Instant(n % setSize, template.offsetSeconds), body(n))
    }

    function Deliveries(n: nat): seq<Delivery>
      requires Valid()
    {
      seq(n, i requires 0 <= i < n => Delivery(Event(i), NO_FAILURES))
    }

    /** The row every payment of the workload ends up with. */
    function PaidRow(index: nat): Payment {
      Payment(PaymentID(index), Paid, Instant(index, 180))
    }

    /** Nothing of this run is in the ledger yet. */
    ghost predicate Untouched(l: Ledger)
      requires Valid()
    {
      && (forall n: nat :: ProviderEventID(n) !in l.events)
      && (forall index: nat :: PaymentID(index) !in l.payments)
    }
  }

  /* ---- Identifiers ---- */

  predicate NoUnderscore(s: string) {
    forall i | 0 <= i < |s| :: s[i] != '_'
  }

  lemma {:induction false} DecimalHasNoUnderscore(n: nat)
    ensures Decimal(n) != "" && NoUnderscore(Decimal(n))
  {
    if n >= 10 {
      DecimalHasNoUnderscore(n / 10);
    }
  }

  function DigitValue(c: char): int {
    c as int - '0' as int
  }

  function Value(s: string): int {
    if s == "" then 0 else 10 * Value(s[..|s| - 1]) + DigitValue(s[|s| - 1])
  }

  /** Reading a decimal numeral back. */
  lemma {:induction false} ValueOfDecimal(n: nat)
    ensures Value(Decimal(n)) == n
  {
    var s := Decimal(n);
    assert DigitValue("0123456789"[n % 10]) == n % 10;
    if n < 10 {
      assert s[..|s| - 1] == "";
    } else {
      ValueOfDecimal(n / 10);
      assert s[..|s| - 1] == Decimal(n / 10);
    }
  }

  function AfterLastUnderscore(s: string): string {
    if s == "" || s[|s| - 1] == '_' then "" else AfterLastUnderscore(s[..|s| - 1]) + [s[|s| - 1]]
  }

  lemma {:induction false} LastSegment(a: string, x: string)
    requires NoUnderscore(x)
    ensures AfterLastUnderscore(a + "_" + x) == x
  {
    if x != "" {
      var s := a + "_" + x;
      assert s[..|s| - 1] == a + "_" + x[..|x| - 1];
      LastSegment(a, x[..|x| - 1]);
    }
  }

  /** A string that ends in an underscore and a numeral determines the number. */
  lemma NumberedStrings(a: string, m: nat, b: string, n: nat)
    requires a + "_" + Decimal(m) == b + "_" + Decimal(n)
    ensures m == n
  {
    DecimalHasNoUnderscore(m);
    DecimalHasNoUnderscore(n);
    LastSegment(a, Decimal(m));
    LastSegment(b, Decimal(n));
    ValueOfDecimal(m);
    ValueOfDecimal(n);
  }

  lemma ProviderEventIDsDiffer(w: Workload, m: nat, n: nat)
    requires w.Valid() && w.ProviderEventID(m) == w.ProviderEventID(n)
    ensures m == n
  {
    var a := "evt_race_" + TEMPLATES[w.Pass(m) % 5].eventKey + "_" + w.runID + "_" + Decimal(m % w.setSize);
    var b := "evt_race_" + TEMPLATES[w.Pass(n) % 5].eventKey + "_" + w.runID + "_" + Decimal(n % w.setSize);
    NumberedStrings(a, m, b, n);
  }

  lemma PaymentIDsDiffer(w: Workload, i: nat, j: nat)
    requires w.PaymentID(i) == w.PaymentID(j)
    ensures i == j
  {
    NumberedStrings("pay_race_shared_" + w.runID, i, "pay_race_shared_" + w.runID, j);
  }

  /* ---- Outcomes ---- */

  /** The first cycle's paid events create; every later event is ignored for its template's reason. */
  function ExpectedInBlock(block: nat): Outcome {
    if block == 0 then Created
    else if block % 5 == 0 then Ignored(EqualTimestamp)
    else if block % 5 == 3 then Ignored(InvalidTransition)
    else Ignored(OlderTimestamp)
  }

  /** After n deliveries, the first n payments have their final row and no other has any. */
  ghost predicate Reached(w: Workload, l: Ledger, n: nat)
    requires w.Valid()
  {
    var l' := PostAll(l, w.Deliveries(n));
    && (forall m: nat | m >= n :: w.ProviderEventID(m) !in l'.events)
    && (forall index: nat | index < w.setSize ::
          Lookup(l'.payments, w.PaymentID(index)) == if index < n then Some(w.PaidRow(index)) else None)
  }

  lemma DeliveryOutcome(w: Workload, l: Ledger, n: nat)
    requires w.Valid() && Reached(w, l, n)
    ensures OutcomeOf(PostAll(l, w.Deliveries(n)), Delivery(w.Event(n), NO_FAILURES)) ==
            Some(ExpectedInBlock(w.Pass(n)))
  {
    BlockOf(w.setSize, n);
    TemplateAt(w.Pass(n));
    EventAt(w, n);
    KnownOutcome(PostAll(l, w.Deliveries(n)), w.Event(n), w.PaidRow(n % w.setSize), w.Pass(n));
  }

  /** An event's place in the cycle agrees with the row paid at offset 180. */
  predicate Placed(e: PaymentEvent, row: Payment, block: nat) {
    && row.status == Paid
    && match block % 5
       case 0 => e.timestamp == row.timestamp
       case 3 => e.timestamp > row.timestamp && e.paymentStatus == Pending
       case _ => e.timestamp < row.timestamp
  }

  lemma KnownOutcome(l: Ledger, e: PaymentEvent, row: Payment, block: nat)
    requires e.providerEventID !in l.events && Placed(e, row, block)
    requires Lookup(l.payments, e.paymentID) == if block == 0 then None else Some(row)
    ensures OutcomeOf(l, Delivery(e, NO_FAILURES)) == Some(ExpectedInBlock(block))
  {
  }

  /** The status and offset of each place in the cycle. */
  lemma TemplateAt(block: nat)
    ensures var t := TEMPLATES[block % 5];
            match block % 5
            case 0 => t.status == Paid && t.offsetSeconds == 180
            case 3 => t.status == Pending && t.offsetSeconds == 240
            case _ => t.offsetSeconds < 180
  {
  }

  /** Each generated event has the status its type names. */
  lemma EventsWellFormed(w: Workload, n: nat)
    requires w.Valid()
    ensures w.Event(n).WellFormed()
  {
    assert forall t | t in TEMPLATES :: StatusOfEventType(t.eventType) == Some(t.status);
  }

  /** A request body that spells out a generated event is parsed as exactly that event. */
  lemma GeneratedEventsParse(w: Workload, n: nat, decode: JSONDecoder, readTime: TimeReader, time: string)
    requires w.Valid()
    requires var e := w.Event(n); decode(w.body(n)) == Some(Payload(e.providerEventID, e.paymentID, e.eventType, time))
    requires time != "" && Trimmed(time) && readTime(time) == Some(w.Event(n).timestamp)
    ensures ParseEvent(w.body(n), decode, readTime) == Success(w.Event(n))
  {
    EventsWellFormed(w, n);
    IDsAreTrimmed(w, n);
    TemplateTypesAreTrimmed(w.Pass(n));
    ParsesAsItself(w.Event(n), decode, readTime, time);
  }

  lemma IDsAreTrimmed(w: Workload, n: nat)
    requires w.Valid()
    ensures var e := w.Event(n);
            e.providerEventID != "" && Trimmed(e.providerEventID) && e.paymentID != "" && Trimmed(e.paymentID)
  {
    var key := TEMPLATES[w.Pass(n) % 5].eventKey;
    NumeralEndsTrimmed("evt_race_" + key + "_" + w.runID + "_" + Decimal(n % w.setSize), n);
    NumeralEndsTrimmed("pay_race_shared_" + w.runID, n % w.setSize);
  }

  lemma TemplateTypesAreTrimmed(block: nat)
    ensures var eventType := TEMPLATES[block % 5].eventType; eventType != "" && Trimmed(eventType)
  {
  }

  /** A body whose fields are an event's own, none of them padded, is parsed as that event. */
  lemma ParsesAsItself(e: PaymentEvent, decode: JSONDecoder, readTime: TimeReader, time: string)
    requires e.WellFormed()
    requires decode(e.rawPayload) == Some(Payload(e.providerEventID, e.paymentID, e.eventType, time))
    requires e.providerEventID != "" && Trimmed(e.providerEventID)
    requires e.paymentID != "" && Trimmed(e.paymentID)
    requires e.eventType != "" && Trimmed(e.eventType)
    requires time != "" && Trimmed(time) && readTime(time) == Some(e.timestamp)
    ensures ParseEvent(e.rawPayload, decode, readTime) == Success(e)
  {
    ReadsItself(e.providerEventID);
    ReadsItself(e.paymentID);
    ReadsItself(e.eventType);
    ReadsItself(time);
    ParsesExactly(e.rawPayload, decode, readTime, e);
  }

  /** A trimmed text is its own core. */
  lemma ReadsItself(s: string)
    requires s != "" && Trimmed(s)
    ensures Reads(s, s)
  {
    assert "" + s + "" == s && AllSpace("");
  }

  lemma NumeralEndsTrimmed(a: string, n: nat)
    requires a != "" && !IsSpace(a[0])
    ensures Trimmed(a + "_" + Decimal(n))
  {
    var s := a + "_" + Decimal(n);
    DecimalHasNoUnderscore(n);
    var d := Decimal(n);
    assert s[|s| - 1] == d[|d| - 1] == "0123456789"[n % 10];
  }

  lemma EventAt(w: Workload, n: nat)
    requires w.Valid()
    ensures var e, index, t := w.Event(n), n % w.setSize, TEMPLATES[w.Pass(n) % 5];
            && e.paymentID == w.PaymentID(index)
            && e.paymentStatus == t.status
            && e.timestamp - w.PaidRow(index).timestamp == (t.offsetSeconds - 180) * 1000 * MICROS_PER_MS
  {
  }

  /** The generated instants in microseconds, written out: the base, one second per payment, the template's offset. */
  lemma InstantsWrittenOut(w: Workload, n: nat)
    requires w.Valid()
    ensures var index, e := n % w.setSize, w.Event(n);
            var base := 1781827200000000 + index * 1000000;
            match w.Pass(n) % 5
            case 0 => e.timestamp == base + 180000000 && e.paymentStatus == Paid
            case 1 => e.timestamp == base && e.paymentStatus == Pending
            case 2 => e.timestamp == base + 120000000 && e.paymentStatus == PaymentStatus.Failed
            case 3 => e.timestamp == base + 240000000 && e.paymentStatus == Pending
            case _ => e.timestamp == base + 30000000 && e.paymentStatus == Pending
    ensures forall index: nat :: w.PaidRow(index) ==
                                 Payment(w.PaymentID(index), Paid, 1781827200000000 + index * 1000000 + 180000000)
  {
  }

  lemma BlockOf(setSize: nat, n: nat)
    requires setSize > 0
    ensures n % setSize < setSize
    ensures n / setSize == 0 <==> n < setSize
    ensures n < setSize ==> n % setSize == n
    ensures n >= setSize ==> n % setSize < n
  {
    if n < setSize {
      assert n / setSize == 0 && n % setSize == n;
    } else {
      assert n == setSize * (n / setSize) + n % setSize;
    }
  }

  lemma ReachedStep(w: Workload, l: Ledger, n: nat)
    requires w.Valid() && w.Untouched(l) && Reached(w, l, n)
    ensures Reached(w, l, n + 1)
  {
    var d, before := Delivery(w.Event(n), NO_FAILURES), PostAll(l, w.Deliveries(n));
    assert w.Deliveries(n + 1) == w.Deliveries(n) + [d];
    assert (w.Deliveries(n) + [d])[..n] == w.Deliveries(n);
    forall m: nat | m >= n + 1 ensures w.ProviderEventID(m) !in Post(before, d).events {
      if w.ProviderEventID(m) == w.ProviderEventID(n) {
        ProviderEventIDsDiffer(w, m, n);
      }
      PostByParts(before, d);
    }
    forall index: nat | index < w.setSize
      ensures Lookup(Post(before, d).payments, w.PaymentID(index)) ==
              if index < n + 1 then Some(w.PaidRow(index)) else None
    {
      RowStep(w, l, n, index);
    }
  }

  lemma RowStep(w: Workload, l: Ledger, n: nat, index: nat)
    requires w.Valid() && Reached(w, l, n) && index < w.setSize
    ensures Lookup(Post(PostAll(l, w.Deliveries(n)), Delivery(w.Event(n), NO_FAILURES)).payments, w.PaymentID(index)) ==
            if index < n + 1 then Some(w.PaidRow(index)) else None
  {
    BlockOf(w.setSize, n);
    EventAt(w, n);
    TemplateAt(w.Pass(n));
    KnownRow(PostAll(l, w.Deliveries(n)), w.Event(n), w.PaidRow(n % w.setSize), w.Pass(n), w.PaymentID(index));
    if w.PaymentID(index) == w.Event(n).paymentID {
      PaymentIDsDiffer(w, index, n % w.setSize);
    }
  }

  lemma KnownRow(l: Ledger, e: PaymentEvent, row: Payment, block: nat, paymentID: string)
    requires e.providerEventID !in l.events && Placed(e, row, block)
    requires Lookup(l.payments, e.paymentID) == if block == 0 then None else Some(row)
    requires block == 0 ==> PaymentFromEvent(e) == row
    ensures Lookup(Post(l, Delivery(e, NO_FAILURES)).payments, paymentID) ==
            if paymentID == e.paymentID then Some(row) else Lookup(l.payments, paymentID)
  {
    PostByParts(l, Delivery(e, NO_FAILURES));
  }

  lemma {:induction false} AlwaysReached(w: Workload, l: Ledger, n: nat)
    requires w.Valid() && w.Untouched(l)
    ensures Reached(w, l, n)
  {
    if n == 0 {
      assert w.Deliveries(0) == [];
    } else {
      AlwaysReached(w, l, n - 1);
      ReachedStep(w, l, n - 1);
    }
  }

  /** How many of the first n deliveries have this outcome. */
  function Tally(w: Workload, l: Ledger, n: nat, outcome: Outcome): nat
    requires w.Valid()
  {
    if n == 0 then 0
    else Tally(w, l, n - 1, outcome)
         + (if OutcomeOf(PostAll(l, w.Deliveries(n - 1)),
                           Delivery(w.Event(n - 1), NO_FAILURES)) == Some(outcome) then 1 else 0)
  }

  function Matches(block: nat, outcome: Outcome): nat {
    if ExpectedInBlock(block) == outcome then 1 else 0
  }

  function ExpectedTally(setSize: nat, n: nat, outcome: Outcome): nat
    requires setSize > 0
  {
    if n == 0 then 0 else ExpectedTally(setSize, n - 1, outcome) + Matches((n - 1) / setSize, outcome)
  }

  lemma {:induction false} TallyAsExpected(w: Workload, l: Ledger, n: nat, outcome: Outcome)
    requires w.Valid() && w.Untouched(l)
    ensures Tally(w, l, n, outcome) == ExpectedTally(w.setSize, n, outcome)
  {
    if n > 0 {
      TallyAsExpected(w, l, n - 1, outcome);
      AlwaysReached(w, l, n - 1);
      DeliveryOutcome(w, l, n - 1);
    }
  }

  /** Within one pass over the payments nothing changes but the count. */
  lemma {:induction false} TallyOfPass(setSize: nat, start: nat, r: nat, block: nat, outcome: Outcome)
    requires setSize > 0 && forall i | start <= i < start + r :: i / setSize == block
    ensures ExpectedTally(setSize, start + r, outcome) ==
            ExpectedTally(setSize, start, outcome) + if Matches(block, outcome) == 1 then r else 0
  {
    if r > 0 {
      TallyOfPass(setSize, start, r - 1, block, outcome);
      var last := start + r - 1;
      assert last / setSize == block;
    }
  }

  lemma AtLeastOneMultiple(setSize: nat, d: nat)
    requires d >= 1
    ensures setSize * d >= setSize
  {
  }

  lemma QuotientIs(setSize: nat, block: nat, n: nat)
    requires setSize * block <= n < setSize * block + setSize
    ensures n / setSize == block
  {
    var q := n / setSize;
    assert n == setSize * q + n % setSize;
    assert setSize * q - setSize * block == setSize * (q - block);
    if q > block {
      AtLeastOneMultiple(setSize, q - block);
    } else if q < block {
      assert setSize * block - setSize * q == setSize * (block - q);
      AtLeastOneMultiple(setSize, block - q);
    }
  }

  /** How many of the first so many passes have this outcome. */
  function Passes(blocks: nat, outcome: Outcome): nat {
    if blocks == 0 then 0 else Passes(blocks - 1, outcome) + Matches(blocks - 1, outcome)
  }

  lemma {:induction false} TallyOfPasses(setSize: nat, blocks: nat, outcome: Outcome)
    requires setSize > 0
    ensures ExpectedTally(setSize, setSize * blocks, outcome) == setSize * Passes(blocks, outcome)
  {
    if blocks > 0 {
      TallyOfPasses(setSize, blocks - 1, outcome);
      NextPass(setSize, blocks - 1, outcome);
      Distribute(setSize, Passes(blocks - 1, outcome), Matches(blocks - 1, outcome));
    } else {
      assert setSize * blocks == 0;
    }
  }

  lemma {:induction false} NextPass(setSize: nat, block: nat, outcome: Outcome)
    requires setSize > 0
    ensures ExpectedTally(setSize, setSize * (block + 1), outcome) ==
            ExpectedTally(setSize, setSize * block, outcome) + setSize * Matches(block, outcome)
  {
    var start := setSize * block;
    Distribute(setSize, block, 1);
    forall i | start <= i < start + setSize ensures i / setSize == block {
      QuotientIs(setSize, block, i);
    }
    TallyOfPass(setSize, start, setSize, block, outcome);
  }

  lemma Distribute(x: nat, a: nat, b: nat)
    ensures x * (a + b) == x * a + x * b
  {
  }

  /** How often each outcome occurs per payment in k cycles; updates and failures never do. */
  function Share(k: nat, outcome: Outcome): nat {
    if k == 0 then 0
    else match outcome
         case Created => 1
         case Ignored(EqualTimestamp) => k - 1
         case Ignored(OlderTimestamp) => 3 * k
         case Ignored(InvalidTransition) => k
         case _ => 0
  }

  /** Each cycle of five passes has three stale ones, one disallowed, and one that creates or repeats. */
  lemma {:induction false} PassesOfCycles(k: nat, outcome: Outcome)
    ensures Passes(5 * k, outcome) == Share(k, outcome)
  {
    if k > 0 {
      PassesOfCycles(k - 1, outcome);
      PassesOfCycle(k - 1, outcome);
    }
  }

  lemma PassesOfCycle(j: nat, outcome: Outcome)
    ensures Passes(5 * (j + 1), outcome) == Passes(5 * j, outcome)
              + (if outcome == (if j == 0 then Created else Ignored(EqualTimestamp)) then 1 else 0)
              + (if outcome == Ignored(OlderTimestamp) then 3 else 0)
              + (if outcome == Ignored(InvalidTransition) then 1 else 0)
  {
    var b := 5 * j;
    assert b % 5 == 0 && (b + 1) % 5 == 1 && (b + 2) % 5 == 2 && (b + 3) % 5 == 3 && (b + 4) % 5 == 4;
    assert Passes(b + 1, outcome) == Passes(b, outcome) + Matches(b, outcome);
    assert Passes(b + 2, outcome) == Passes(b + 1, outcome) + Matches(b + 1, outcome);
    assert Passes(b + 3, outcome) == Passes(b + 2, outcome) + Matches(b + 2, outcome);
    assert Passes(b + 4, outcome) == Passes(b + 3, outcome) + Matches(b + 3, outcome);
    assert Passes(b + 5, outcome) == Passes(b + 4, outcome) + Matches(b + 4, outcome);
  }

  /**
    k full cycles over S payments, delivered serially, have S creations, S(k - 1)
    equal-timestamp, 3Sk stale and Sk disallowed events, and no other outcome.
   */
  lemma RaceWorkloadOutcome(w: Workload, l: Ledger, k: nat, outcome: Outcome)
    requires w.Valid() && w.Untouched(l)
    ensures Tally(w, l, w.setSize * (5 * k), outcome) == w.setSize * Share(k, outcome)
  {
    TallyAsExpected(w, l, w.setSize * (5 * k), outcome);
    TallyOfPasses(w.setSize, 5 * k, outcome);
    PassesOfCycles(k, outcome);
  }

  /** No delivery of the workload is a duplicate, and none fails. */
  lemma AllProcessed(w: Workload, l: Ledger, n: nat)
    requires w.Valid() && w.Untouched(l)
    ensures AnswerOf(PostAll(l, w.Deliveries(n)), Delivery(w.Event(n), NO_FAILURES)) == Processed
  {
    AlwaysReached(w, l, n);
    DeliveryOutcome(w, l, n);
  }

  /**
    After one or more full cycles payment `index` is paid at 2026-06-19T00:03:00Z plus `index` seconds
    (in microseconds since 1970).
   */
  lemma AllPaid(w: Workload, l: Ledger, k: nat)
    requires w.Valid() && w.Untouched(l) && k >= 1
    ensures forall index: nat | index < w.setSize ::
              Lookup(PostAll(l, w.Deliveries(w.setSize * (5 * k))).payments, w.PaymentID(index)) ==
              Some(Payment(w.PaymentID(index), Paid, 1781827200000000 + index * 1000000 + 180000000))
  {
    AtLeastOneMultiple(w.setSize, 5 * k);
    AlwaysReached(w, l, w.setSize * (5 * k));
    InstantsWrittenOut(w, 0);
  }
}
