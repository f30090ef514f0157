/** The request and processing counters, summed over the labels the properties do not need. */
module Counting {
  import opened Tables
  import opened Processing

  datatype Counters = Counters(
    requests: nat,
    successProcessed: nat, successDuplicate: nat,
    methodNotAllowed: nat, invalidPayload: nat, unauthorized: nat, internalError: nat,
    signatureFailures: nat, duplicates: nat, providerEvents: nat,
    created: nat, updated: nat, ignored: nat, failed: nat,
    ignoredOlder: nat, ignoredEqual: nat, ignoredInvalid: nat,
    staleAnomalies: nat, invalidAnomalies: nat)
  {
    /** Nothing counted yet. */
    predicate IsZero() {
      && requests == providerEvents == duplicates == signatureFailures == 0
      && successProcessed == successDuplicate == 0
      && methodNotAllowed == invalidPayload == unauthorized == internalError == 0
      && created == updated == ignored == failed == 0
      && ignoredOlder == ignoredEqual == ignoredInvalid == staleAnomalies == invalidAnomalies == 0
    }
  }

  function CountOutcome(c: Counters, o: Outcome): Counters {
    match o
    case Created => c.(created := c.created + 1)
    case Updated => c.(updated := c.updated + 1)
    case Ignored(_) => c.(ignored := c.ignored + 1)
    case ProcessingFailed => c.(failed := c.failed + 1)
  }

  function CountIgnored(c: Counters, reason: IgnoreReason): Counters {
    match reason
    case OlderTimestamp => c.(ignoredOlder := c.ignoredOlder + 1)
    case EqualTimestamp => c.(ignoredEqual := c.ignoredEqual + 1)
    case InvalidTransition => c.(ignoredInvalid := c.ignoredInvalid + 1)
  }

  function CountAnomaly(c: Counters, kind: AnomalyType): Counters {
    match kind
    case StaleEvent => c.(staleAnomalies := c.staleAnomalies + 1)
    case InvalidTerminalTransition => c.(invalidAnomalies := c.invalidAnomalies + 1)
  }

  function CountAnomalies(c: Counters, anomalies: seq<Anomaly>): Counters {
    if anomalies == [] then c
    else CountAnomaly(CountAnomalies(c, anomalies[..|anomalies| - 1]), anomalies[|anomalies| - 1].columns.anomalyType)
  }

  function CountAnswer(c: Counters, a: Answer): Counters {
    match a
    case Processed => c.(successProcessed := c.successProcessed + 1)
    case Duplicate => c.(successDuplicate := c.successDuplicate + 1)
    case InternalError => c.(internalError := c.internalError + 1)
  }

  /** The reason counter goes up before the outcome counter, which a deferred call bumps last. */
  function CountDecided(c: Counters, o: Outcome): Counters {
    CountOutcome(if o.Ignored? then CountIgnored(c, o.reason) else c, o)
  }

  /** All counters one payment update moves; anomalies are counted only when a recorder is configured. */
  function CountUpdate(c: Counters, recorder: bool, o: Outcome): Counters {
    var c' := if recorder && o.Ignored? && AnomalyOf(o.reason).Some?
              then CountAnomaly(c, AnomalyOf(o.reason).value) else c;
    CountDecided(c', o)
  }

  class Metrics {
    var counters: Counters

    constructor ()
      ensures counters.IsZero()
    {
      counters := Counters(0, 0, 0, 0, 0, 0, 0, 0, 0, 0, 0, 0, 0, 0, 0, 0, 0, 0, 0);
    }

    method IncPaymentProcessing(o: Outcome)
      modifies this
      ensures counters == CountOutcome(old(counters), o)
    {
      counters := CountOutcome(counters, o);
    }

    method IncPaymentIgnored(reason: IgnoreReason)
      modifies this
      ensures counters == CountIgnored(old(counters), reason)
    {
      counters := CountIgnored(counters, reason);
    }

    method IncAnomaly(kind: AnomalyType)
      modifies this
      ensures counters == CountAnomaly(old(counters), kind)
    {
      counters := CountAnomaly(counters, kind);
    }

    method IncWebhookDuplicate()
      modifies this
      ensures counters == old(counters).(duplicates := old(counters).duplicates + 1)
    {
      counters := counters.(duplicates := counters.duplicates + 1);
    }

    method IncWebhookRequest()
      modifies this
      ensures counters == old(counters).(requests := old(counters).requests + 1)
    {
      counters := counters.(requests := counters.requests + 1);
    }

    method IncProviderEvent()
      modifies this
      ensures counters == old(counters).(providerEvents := old(counters).providerEvents + 1)
    {
      counters := counters.(providerEvents := counters.providerEvents + 1);
    }

    method IncSignatureFailure()
      modifies this
      ensures counters == old(counters).(signatureFailures := old(counters).signatureFailures + 1)
    {
      counters := counters.(signatureFailures := counters.signatureFailures + 1);
    }

    method IncMethodNotAllowed()
      modifies this
      ensures counters == old(counters).(methodNotAllowed := old(counters).methodNotAllowed + 1)
    {
      counters := counters.(methodNotAllowed := counters.methodNotAllowed + 1);
    }

    method IncInvalidPayload()
      modifies this
      ensures counters == old(counters).(invalidPayload := old(counters).invalidPayload + 1)
    {
      counters := counters.(invalidPayload := counters.invalidPayload + 1);
    }

    method IncUnauthorized()
      modifies this
      ensures counters == old(counters).(unauthorized := old(counters).unauthorized + 1)
    {
      counters := counters.(unauthorized := counters.unauthorized + 1);
    }

    method IncAnswer(a: Answer)
      modifies this
      ensures counters == CountAnswer(old(counters), a)
    {
      counters := CountAnswer(counters, a);
    }
  }
}
