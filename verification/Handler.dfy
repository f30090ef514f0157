/** The HTTP handler: one request from arrival to response. */
module Handler {
  import opened Options
  import opened Webhook
  import opened Tables
  import opened Processing
  import opened Counting
  import opened Repositories
  import opened Service

  /** `body` is None when reading it fails. */
  datatype Request = Request(httpMethod: string, body: Option<Bytes>, signature: string)

  /** The signature check, the JSON decoder and the time reader are library calls. */
  datatype Config = Config(
    secret: string,
    validSignature: (Bytes, string, string) -> bool,
    decode: JSONDecoder,
    readTime: TimeReader)

  /** `body` is the JSON status field, or "" for an empty response. */
  datatype Response = Response(code: nat, body: string)

  /** What is known of a request once everything before the database has been done. */
  datatype Arrival = NotPost | UnreadableBody | BadSignature | BadPayload | Valid(event: PaymentEvent)

  function Receive(cfg: Config, req: Request): (a: Arrival)
    ensures a.Valid? ==> a.event.WellFormed()
  {
    if req.httpMethod != "POST" then NotPost
    else if req.body.None? then UnreadableBody
    else if !cfg.validSignature(req.body.value, req.signature, cfg.secret) then BadSignature
    else match ParseEvent(req.body.value, cfg.decode, cfg.readTime)
         case Failure(_) => BadPayload
         case Success(e) => Valid(e)
  }

  function Rejection(a: Arrival): Response
    requires !a.Valid?
  {
    match a
    case NotPost => Response(405, "")
    case BadSignature => Response(401, "unauthorized")
    case _ => Response(400, "invalid_payload")
  }

  function ResponseFor(a: Answer): Response {
    match a
    case Processed => Response(200, "processed")
    case Duplicate => Response(200, "duplicate")
    case InternalError => Response(500, "internal_error")
  }

  function CountArrival(c: Counters, a: Arrival): Counters {
    var c' := c.(requests := c.requests + 1);
    match a
    case NotPost => c'.(methodNotAllowed := c'.methodNotAllowed + 1)
    case UnreadableBody => c'.(invalidPayload := c'.invalidPayload + 1)
    case BadSignature => c'.(signatureFailures := c'.signatureFailures + 1, unauthorized := c'.unauthorized + 1)
    case BadPayload => c'.(invalidPayload := c'.invalidPayload + 1)
    case Valid(_) => c'.(providerEvents := c'.providerEvents + 1)
  }

  datatype Served = Served(tables: Tables, counters: Counters, response: Response)

  /** One request served with no other in flight. */
  function Serve(t: Tables, c: Counters, recorder: bool, a: Arrival, env: Env): Served {
    var c' := CountArrival(c, a);
    if !a.Valid? then
      Served(t, c', Rejection(a))
    else
      var d := Deliver(t, Delivery(a.event, Seen(env, recorder)));
      Served(d.tables, CountAnswer(CountDelivered(c', recorder, d), d.answer), ResponseFor(d.answer))
  }

  class WebhookHandler {
    const cfg: Config
    const processor: IdempotencyService
    const metrics: Metrics

    ghost predicate Wired(db: Database) {
      processor.Wired(db) && processor.metrics == metrics
    }

    constructor (cfg: Config, processor: IdempotencyService, metrics: Metrics)
      ensures this.cfg == cfg && this.processor == processor && this.metrics == metrics
    {
      this.cfg := cfg;
      this.processor := processor;
      this.metrics := metrics;
    }

    method ServeHTTP(req: Request, env: Env, ghost db: Database) returns (response: Response)
      requires Wired(db)
      modifies db, metrics
      ensures Served(db.Contents(), metrics.counters, response) ==
              Serve(old(db.Contents()), old(metrics.counters), processor.processor.anomalyRecorder != null,
                    Receive(cfg, req), env)
    {
      metrics.IncWebhookRequest();
      if req.httpMethod != "POST" {
        metrics.IncMethodNotAllowed();
        return Response(405, "");
      }
      if req.body.None? {
        metrics.IncInvalidPayload();
        return Response(400, "invalid_payload");
      }
      if !cfg.validSignature(req.body.value, req.signature, cfg.secret) {
        metrics.IncSignatureFailure();
        metrics.IncUnauthorized();
        return Response(401, "unauthorized");
      }
      var parsed := ParseEvent(req.body.value, cfg.decode, cfg.readTime);
      if parsed.Failure? {
        metrics.IncInvalidPayload();
        return Response(400, "invalid_payload");
      }
      metrics.IncProviderEvent();
      ghost var arrived := metrics.counters;
      assert arrived == CountArrival(old(metrics.counters), Valid(parsed.value));
      var answer := processor.Process(parsed.value, env, db);
      metrics.IncAnswer(answer);
      return ResponseFor(answer);
    }
  }

  /**
    Which requests are turned away, and how: exactly those that are not POST, cannot be read,
    are not signed, or do not parse. Nothing of them reaches the database.
   */
  lemma TurnedAway(cfg: Config, t: Tables, c: Counters, recorder: bool, req: Request, env: Env)
    ensures var s := Serve(t, c, recorder, Receive(cfg, req), env);
            var signed := req.body.Some? && cfg.validSignature(req.body.value, req.signature, cfg.secret);
            && (s.response == Response(405, "") <==> req.httpMethod != "POST")
            && (s.response == Response(401, "unauthorized") <==> req.httpMethod == "POST" && req.body.Some? && !signed)
            && (s.response == Response(400, "invalid_payload") <==>
                && req.httpMethod == "POST"
                && (req.body.None? ||
                    (signed && forall e :: ParseEvent(req.body.value, cfg.decode, cfg.readTime) != Success(e))))
            && (s.response.code !in {405, 401, 400} ==>
                && req.httpMethod == "POST" && signed
                && s.response in {Response(200, "processed"), Response(200, "duplicate"),
                                   Response(500, "internal_error")})
            && (s.response.code in {405, 401, 400} ==>
                && s.tables == t
                && s.counters ==
                   match s.response.code
                   case 405 => c.(requests := c.requests + 1, methodNotAllowed := c.methodNotAllowed + 1)
                   case 401 => c.(requests := c.requests + 1, unauthorized := c.unauthorized + 1,
                                  signatureFailures := c.signatureFailures + 1)
                   case _ => c.(requests := c.requests + 1, invalidPayload := c.invalidPayload + 1))
  {
    var a := Receive(cfg, req);
    if req.body.Some? && ParseEvent(req.body.value, cfg.decode, cfg.readTime).Success? {
      var e := ParseEvent(req.body.value, cfg.decode, cfg.readTime).value;
    }
  }

  /**
    A correctly signed re-delivery of a stored event, padded with white space in any of
    its fields, is answered "duplicate" and leaves payments, stored events and anomalies
    as they were.
   */
  lemma PaddedRedeliveryIsDuplicate(cfg: Config, t: Tables, c: Counters, recorder: bool,
                                    first: Request, again: Request, env: Env)
    requires Receive(cfg, first).Valid? && Receive(cfg, first).event.providerEventID in t.events
    requires again.httpMethod == "POST" && again.body.Some?
    requires cfg.validSignature(again.body.value, again.signature, cfg.secret)
    requires cfg.decode(again.body.value).Some?
    requires PayloadPaddingOf(cfg.decode(again.body.value).value, cfg.decode(first.body.value).value)
    requires env.insert.Acked?
    ensures var s := Serve(t, c, recorder, Receive(cfg, again), env);
            && s.response == Response(200, "duplicate")
            && s.tables == t.(lastEventID := s.tables.lastEventID)
            && s.counters == c.(requests := c.requests + 1, providerEvents := c.providerEvents + 1,
                                duplicates := c.duplicates + 1, successDuplicate := c.successDuplicate + 1)
  {
    ParsePadded(first.body.value, again.body.value, cfg.decode, cfg.readTime);
  }
}
