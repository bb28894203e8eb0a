/**
 * The exported request handler of api/send-email.js: a pure decision
 * function giving the whole outcome of one request, and an imperative
 * handler that writes a response object step by step and is proved to
 * agree with it.  The outcomes of the transport's `verify()` and
 * `sendMail()` calls are inputs.
 */
module ContactHandler {
  import opened Wrappers
  import opened SmtpConfig
  import opened ContactEmail

  /** The request as the handler sees it: its HTTP method and the parsed body (None: not valid JSON). */
  datatype Request = Request(verb: string, body: Option<JsonObject>)

  /** The JSON response bodies: `{ok: true}` or `{error: ...}`. */
  datatype ResponseBody = OkBody | ErrorBody(error: string)

  /** How an awaited transport call settled: resolved, or rejected with an error message. */
  datatype CallResult = Succeeded | Failed(reason: string)

  const MethodNotAllowed: string := "Method Not Allowed"
  const FieldsMissing: string := "Campos requeridos faltantes"
  const SmtpIncomplete: string := "Configuración SMTP incompleta"
  const SendFailed: string := "Error enviando email"
  const JsonContentType: string := "application/json"

  /** Everything one request produces. */
  datatype Outcome = Outcome(
    status: int,
    body: ResponseBody,
    bodyRead: bool,                       // whether parseBody was awaited
    transport: Option<TransportConfig>,   // the options given to createTransport, if called
    mail: Option<MailMessage>,            // the mailOptions built, if any
    verifyAttempted: bool,
    sendAttempted: bool,
    logged: Option<string>)               // the reason passed to console.error, if any

  function Reject(status: int, error: string, bodyRead: bool): Outcome
  {
    Outcome(status, ErrorBody(error), bodyRead, None, None, false, false, None)
  }

  /** The checks before any transport exists: either the early response, or the validated submission. */
  datatype Verdict = Rejected(response: Outcome) | Admitted(sub: Submission)

  /** Method check, then required fields, then required SMTP settings. */
  function Admit(req: Request, env: Env): (v: Verdict)
    ensures v.Admitted? <==> req.verb == "POST" && IsComplete(ReadSubmission(req.body)) && |Missing(env)| == 0
    ensures v.Admitted? ==> v.sub == ReadSubmission(req.body)
    ensures v.Rejected? ==> v.response.status in {400, 405, 500} && v.response.body.ErrorBody?
    ensures v.Rejected? && v.response.status == 400 <==> req.verb == "POST" && !IsComplete(ReadSubmission(req.body))
    ensures v.Rejected? && v.response.status == 400 ==> v.response == Reject(400, FieldsMissing, true)
    ensures v.Rejected? ==> v.response.transport.None? && v.response.mail.None? && v.response.logged.None?
    ensures v.Rejected? ==> !v.response.verifyAttempted && !v.response.sendAttempted
  {
    if req.verb != "POST" then
      Rejected(Reject(405, MethodNotAllowed, false))
    else
      var sub := ReadSubmission(req.body);
      if !IsComplete(sub) then
        Rejected(Reject(400, FieldsMissing, true))
      else if |Missing(env)| != 0 then
        Rejected(Reject(500, SmtpIncomplete, true))
      else
        Admitted(sub)
  }

  /** The handler's cascade: method, required fields, SMTP settings, then verify and send. */
  function Decide(req: Request, env: Env, layout: Layout, date: string, verify: CallResult, send: CallResult): (o: Outcome)
    ensures o.status in {200, 400, 405, 500}
    ensures o.status == 200 <==> o.body == OkBody
    ensures o.sendAttempted ==> o.verifyAttempted
    ensures o.verifyAttempted <==> o.transport.Some?
    ensures o.transport.Some? <==> o.mail.Some?
    ensures o.logged.Some? <==> o.verifyAttempted && o.status != 200
    ensures o.logged.Some? ==> o.status == 500 && o.body == ErrorBody(SendFailed)
    ensures o.status == 400 <==> req.verb == "POST" && !IsComplete(ReadSubmission(req.body))
    ensures o.status == 400 ==> o == Reject(400, FieldsMissing, true)
  {
    match Admit(req, env)
    case Rejected(response) => response
    case Admitted(sub) => Relay(TransportOf(env), ComposeMail(env, sub, layout, date), verify, send)
  }

  /** The last step: a transport built from `config`, verified, then asked to send `mail`. */
  function Relay(config: TransportConfig, mail: MailMessage, verify: CallResult, send: CallResult): (o: Outcome)
    ensures o.transport == Some(config) && o.mail == Some(mail) && o.bodyRead && o.verifyAttempted
    ensures o.sendAttempted <==> verify.Succeeded?
    ensures o.status == 200 <==> verify.Succeeded? && send.Succeeded?
    ensures o.status != 200 ==> o.status == 500 && o.body == ErrorBody(SendFailed)
    ensures o.status == 200 ==> o.body == OkBody && o.logged == None
    ensures verify.Failed? ==> o.logged == Some(verify.reason)
    ensures verify.Succeeded? && send.Failed? ==> o.logged == Some(send.reason)
  {
    if verify.Failed? then
      Outcome(500, ErrorBody(SendFailed), true, Some(config), Some(mail), true, false, Some(verify.reason))
    else if send.Failed? then
      Outcome(500, ErrorBody(SendFailed), true, Some(config), Some(mail), true, true, Some(send.reason))
    else
      Outcome(200, OkBody, true, Some(config), Some(mail), true, true, None)
  }

  /** Any method other than POST: 405, the body is not read and the transport is never built. */
  lemma NonPostRejected(req: Request, env: Env, layout: Layout, date: string, verify: CallResult, send: CallResult)
    requires req.verb != "POST"
    ensures Decide(req, env, layout, date, verify, send) ==
      Outcome(405, ErrorBody(MethodNotAllowed), false, None, None, false, false, None)
  {
  }

  /**
   * A POST is rejected with 400 exactly when the body did not parse, or the
   * trimmed name, phone or message is empty, or projectType is empty; the
   * rejection does not look at the environment and uses no transport.
   */
  lemma RequiredFieldsIff(req: Request, env: Env, layout: Layout, date: string, verify: CallResult, send: CallResult)
    requires req.verb == "POST"
    ensures Decide(req, env, layout, date, verify, send).status == 400 <==> !FieldsPresent(req.body)
    ensures Decide(req, env, layout, date, verify, send).status == 400 ==>
      Decide(req, env, layout, date, verify, send) == Reject(400, FieldsMissing, true)
  {
    SubmissionCompleteIff(req.body);
  }

  /**
   * Valid fields but one of SMTP_HOST, SMTP_PORT, SMTP_USER, SMTP_PASS absent
   * or empty: 500 with the configuration message, and no transport is built.
   */
  lemma ConfigIncompleteRejected(req: Request, env: Env, layout: Layout, date: string, verify: CallResult, send: CallResult)
    requires req.verb == "POST" && FieldsPresent(req.body)
    requires !IsSet(env, "SMTP_HOST") || !IsSet(env, "SMTP_PORT") || !IsSet(env, "SMTP_USER") || !IsSet(env, "SMTP_PASS")
    ensures Decide(req, env, layout, date, verify, send) == Reject(500, SmtpIncomplete, true)
  {
    SubmissionCompleteIff(req.body);
    MissingEmptyIff(env);
  }

  /**
   * Valid fields and settings: the transport is built from the environment,
   * the message is composed, verify is always tried and send only after verify
   * succeeds; 200 `{ok: true}` exactly when both succeed, otherwise 500 with
   * the generic message and the failing call's reason logged.
   */
  lemma DeliveryOutcome(req: Request, env: Env, layout: Layout, date: string, verify: CallResult, send: CallResult)
    requires req.verb == "POST" && FieldsPresent(req.body)
    requires IsSet(env, "SMTP_HOST") && IsSet(env, "SMTP_PORT") && IsSet(env, "SMTP_USER") && IsSet(env, "SMTP_PASS")
    ensures var o := Decide(req, env, layout, date, verify, send);
      && o.transport == Some(TransportOf(env))
      && o.transport.value.auth == Some(Credentials(EnvGet(env, "SMTP_USER"), EnvGet(env, "SMTP_PASS")))
      && o.mail == Some(ComposeMail(env, ReadSubmission(req.body), layout, date))
      && o.mail.value.to != []
      && o.verifyAttempted
      && (o.sendAttempted <==> verify.Succeeded?)
      && (o.status == 200 <==> verify.Succeeded? && send.Succeeded?)
      && (o.status != 200 ==> o.status == 500 && o.body == ErrorBody(SendFailed))
      && (verify.Failed? ==> o.logged == Some(verify.reason))
      && (verify.Succeeded? && send.Failed? ==> o.logged == Some(send.reason))
  {
    SubmissionCompleteIff(req.body);
    MissingEmptyIff(env);
  }

  /** The response never carries the transport's error message: only which call failed matters. */
  lemma FailureReasonHidden(req: Request, env: Env, layout: Layout, date: string,
                            verify1: CallResult, send1: CallResult, verify2: CallResult, send2: CallResult)
    requires verify1.Succeeded? == verify2.Succeeded? && send1.Succeeded? == send2.Succeeded?
    ensures Decide(req, env, layout, date, verify1, send1).status == Decide(req, env, layout, date, verify2, send2).status
    ensures Decide(req, env, layout, date, verify1, send1).body == Decide(req, env, layout, date, verify2, send2).body
  {
  }

  /** The `res` object: status code, headers, and the body given to `end`. */
  class Response {
    var statusCode: int
    var headers: map<string, string>
    var payload: Option<ResponseBody>

    /** A fresh response: Node's default status 200, no headers, not ended. */
    constructor ()
      ensures statusCode == 200 && headers == map[] && payload == None
    {
      statusCode := 200;
      headers := map[];
      payload := None;
    }

    /** `res.setHeader(name, value)`. */
    method SetHeader(name: string, value: string)
      modifies this`headers
      ensures headers == old(headers)[name := value]
    {
      headers := headers[name := value];
    }

    /** `res.end(JSON.stringify(body))`: a response is ended once. */
    method End(body: ResponseBody)
      requires payload.None?
      modifies this`payload
      ensures payload == Some(body)
    {
      payload := Some(body);
    }
  }

  /**
   * The transporter `createTransport` returns, reduced to what the handler
   * observes: how its two calls settle, and the calls made on it.
   */
  class MailTransport {
    const config: TransportConfig
    const verifyResult: CallResult
    const sendResult: CallResult
    var verifyCalls: nat
    var sent: seq<MailMessage>

    constructor (config: TransportConfig, verifyResult: CallResult, sendResult: CallResult)
      ensures this.config == config && this.verifyResult == verifyResult && this.sendResult == sendResult
      ensures verifyCalls == 0 && sent == []
    {
      this.config := config;
      this.verifyResult := verifyResult;
      this.sendResult := sendResult;
      verifyCalls := 0;
      sent := [];
    }

    /** `await transporter.verify()`. */
    method Verify() returns (r: CallResult)
      modifies this`verifyCalls
      ensures verifyCalls == old(verifyCalls) + 1 && r == verifyResult
    {
      verifyCalls := verifyCalls + 1;
      r := verifyResult;
    }

    /** `await transporter.sendMail(m)`. */
    method SendMail(m: MailMessage) returns (r: CallResult)
      modifies this`sent
      ensures sent == old(sent) + [m] && r == sendResult
    {
      sent := sent + [m];
      r := sendResult;
    }
  }

  /** Sets the status code and the JSON content type, then ends the response with `body`. */
  method Reply(res: Response, status: int, body: ResponseBody)
    requires res.payload.None?
    modifies res
    ensures res.statusCode == status && res.payload == Some(body)
    ensures res.headers == old(res.headers)["Content-Type" := JsonContentType]
  {
    res.statusCode := status;
    res.SetHeader("Content-Type", JsonContentType);
    res.End(body);
  }

  /** The `try` block: verify, then send only if verify resolved; the first rejection is the outcome. */
  method Deliver(transporter: MailTransport, mail: MailMessage) returns (outcome: CallResult)
    modifies transporter
    ensures transporter.verifyCalls == old(transporter.verifyCalls) + 1
    ensures transporter.sent == old(transporter.sent) + (if transporter.verifyResult.Succeeded? then [mail] else [])
    ensures outcome == if transporter.verifyResult.Failed? then transporter.verifyResult else transporter.sendResult
  {
    outcome := transporter.Verify();
    if outcome.Succeeded? {
      outcome := transporter.SendMail(mail);
    }
  }

  /** Builds the transporter, runs the `try` block and writes the response, as Relay describes. */
  method Send(res: Response, config: TransportConfig, mail: MailMessage, verifyResult: CallResult, sendResult: CallResult)
    returns (transporter: MailTransport, log: seq<string>)
    requires res.payload.None?
    modifies res
    ensures var o := Relay(config, mail, verifyResult, sendResult);
      && res.statusCode == o.status
      && res.headers == old(res.headers)["Content-Type" := JsonContentType]
      && res.payload == Some(o.body)
      && fresh(transporter)
      && transporter.config == config
      && transporter.verifyCalls == 1
      && transporter.sent == (if o.sendAttempted then [mail] else [])
      && log == (if o.logged.Some? then [o.logged.value] else [])
  {
    transporter := new MailTransport(config, verifyResult, sendResult);
    var outcome := Deliver(transporter, mail);
    log := [];
    if outcome.Succeeded? {
      Reply(res, 200, OkBody);
    } else {
      log := [outcome.reason];
      Reply(res, 500, ErrorBody(SendFailed));
    }
  }

  /** Writes `res` along the handler's early-return branches; returns the transporter it built, if any, and what it logged. */
  method Serve(req: Request, res: Response, env: Env, layout: Layout, date: string,
               verifyResult: CallResult, sendResult: CallResult)
    returns (transporter: MailTransport?, log: seq<string>)
    requires res.payload.None?
    modifies res
    ensures var o := Decide(req, env, layout, date, verifyResult, sendResult);
      && res.statusCode == o.status
      && res.headers == old(res.headers)["Content-Type" := JsonContentType]
      && res.payload == Some(o.body)
      && (transporter == null <==> o.transport.None?)
      && (transporter != null ==>
            && fresh(transporter)
            && transporter.config == o.transport.value
            && transporter.verifyCalls == 1
            && transporter.sent == (if o.sendAttempted then [o.mail.value] else []))
      && log == (if o.logged.Some? then [o.logged.value] else [])
  {
    if req.verb != "POST" {
      Reply(res, 405, ErrorBody(MethodNotAllowed));
      return null, [];
    }

    var sub := ReadSubmission(req.body);
    if sub.name == [] || sub.phone == [] || sub.projectType == [] || sub.message == [] {
      assert Admit(req, env) == Rejected(Reject(400, FieldsMissing, true));
      Reply(res, 400, ErrorBody(FieldsMissing));
      return null, [];
    }

    var missing := Missing(env);
    if |missing| != 0 {
      assert Admit(req, env) == Rejected(Reject(500, SmtpIncomplete, true));
      Reply(res, 500, ErrorBody(SmtpIncomplete));
      return null, [];
    }

    assert Admit(req, env) == Admitted(sub);
    var mail := ComposeMail(env, sub, layout, date);
    var config := TransportOf(env);
    assert Decide(req, env, layout, date, verifyResult, sendResult) == Relay(config, mail, verifyResult, sendResult);
    transporter, log := Send(res, config, mail, verifyResult, sendResult);
  }
}
