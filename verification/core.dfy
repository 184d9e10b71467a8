/** The contact-form service (`Core::contactForm`): a submitted form plus the per-form
    settings give one outcome record, and on the way zero, one or two messages are
    handed to the mail transport, always customer first, administrator second. */
module EasyFormCore {
  import opened Php
  import opened Strings

  // ---------------------------------------------------------------------------
  // Inputs
  // ---------------------------------------------------------------------------

  /** Names of the body parameters the service reads. */
  const HandleParam := "handle"
  const RedirectParam := "redirect"
  const ToEmailParam := "toEmail"
  /** The honeypot field: legitimate submissions leave it empty. */
  const HoneypotParam := "email"
  /** The interaction counters the front-end script writes before submit. */
  const FocusParam := "focus"
  const KeyupParam := "keyup"

  /** One submission: the path of the referring page (the part of the referrer URL
      that failure redirects are built on) and the submitted body parameters. */
  datatype Request = Request(referrerPath: string, params: map<string, Value>)

  /** The system mail settings the messages are sent from. */
  datatype MailSettings = MailSettings(fromEmail: Value, fromName: Value)

  /** A body parameter; an absent one reads as null. */
  function Param(req: Request, name: string): Value
  {
    Index(Arr(req.params), name)
  }

  // ---------------------------------------------------------------------------
  // Outcome records
  // ---------------------------------------------------------------------------

  /** Every way the service can stop short of success. */
  datatype Reason =
    | NoSettings | NoCurrentSettings | FormHandleMissing | ToEmailMissing
    | Honeypot | Bot
    | ToCustomerMissing | CustomerSendFailed | ToAdminMissing | AdminSendFailed

  /** Both send failures share one diagnostic flag. */
  predicate IsSendFailure(r: Reason)
  {
    r.CustomerSendFailed? || r.AdminSendFailed?
  }

  /** The diagnostic query flag appended to the referring path. */
  function Flag(r: Reason): string
  {
    match r
    case NoSettings => "noSettings"
    case NoCurrentSettings => "noCurrentSettings"
    case FormHandleMissing => "formHandleMissing"
    case ToEmailMissing => "toEmailMissing"
    case Honeypot => "honeypot"
    case Bot => "bot"
    case ToCustomerMissing => "toCustomerMissing"
    case CustomerSendFailed => "emailFailed"
    case ToAdminMissing => "toAdminMissing"
    case AdminSendFailed => "emailFailed"
  }

  /** The HTTP-like status code of each failure. */
  function Code(r: Reason): int
  {
    match r
    case NoSettings => 404
    case NoCurrentSettings => 404
    case Honeypot => 400
    case Bot => 400
    case _ => 500
  }

  const SendFailurePrefix := "Could not send an email to "

  /** The human-readable message of each failure. Both send failures name the
      submitted `toEmail` in its string form, the administrator one in quotes; the
      other messages are fixed texts that tell nothing about the submission. */
  function ErrorMessage(r: Reason, toEmail: Value): (msg: string)
    ensures IsSendFailure(r) ==> OccursAt(msg, SendFailurePrefix, 0)
    ensures IsSendFailure(r) ==> Contains(msg, ToString(toEmail))
    ensures r.AdminSendFailed? ==> Contains(msg, "\"" + ToString(toEmail) + "\"")
  {
    match r
    case NoSettings => "Settings Not Found."
    case NoCurrentSettings => "Current Settings Not Found."
    case FormHandleMissing => "The handle parameter is required."
    case ToEmailMissing => "The toEmail parameter is required."
    case Honeypot => "Bad Request."
    case Bot => "Bad Request."
    case ToCustomerMissing => "The \"toCustomer\" setting is missing in your config file."
    case CustomerSendFailed =>
      ContainsAtEnd(SendFailurePrefix, ToString(toEmail));
      StartsWith(SendFailurePrefix, ToString(toEmail));
      SendFailurePrefix + ToString(toEmail)
    case ToAdminMissing => "The \"toAdmin\" setting is missing in your config file."
    case AdminSendFailed =>
      QuotedBetween(SendFailurePrefix, "\"", ToString(toEmail), ".");
      SendFailurePrefix + "\"" + ToString(toEmail) + "\"" + "."
  }

  /** The record the service returns: an error with its redirect, or success with the
      submitted redirect. */
  datatype Outcome =
    | Failure(code: int, message: string, redirect: string)
    | Success(code: int, submittedRedirect: Value)

  /** Where a failure sends the browser back to: the referring path plus `?<flag>=1`. */
  function FailureRedirect(path: string, r: Reason): string
  {
    path + "?" + Flag(r) + "=1"
  }

  /** The record for a run that stopped for `halt`, or succeeded when `halt` is None. */
  function OutcomeOf(req: Request, halt: Option<Reason>): Outcome
  {
    match halt
    case None => Success(200, Param(req, RedirectParam))
    case Some(r) => Failure(Code(r), ErrorMessage(r, Param(req, ToEmailParam)), FailureRedirect(req.referrerPath, r))
  }

  // ---------------------------------------------------------------------------
  // Guard chain: configuration, input and anti-spam checks, in order
  // ---------------------------------------------------------------------------

  /** The settings of the submitted form: the `forms` entry under the key the
      submitted handle casts to. */
  function CurrentSettings(req: Request, forms: map<string, Value>): Value
  {
    Lookup(forms, Param(req, HandleParam))
  }

  predicate IsGuard(g: Reason)
  {
    g.NoSettings? || g.NoCurrentSettings? || g.FormHandleMissing? || g.ToEmailMissing? || g.Honeypot? || g.Bot?
  }

  /** Position of a guard in the chain; the earlier guard wins. */
  function Rank(g: Reason): nat
  {
    match g
    case NoSettings => 0
    case NoCurrentSettings => 1
    case FormHandleMissing => 2
    case ToEmailMissing => 3
    case Honeypot => 4
    case Bot => 5
    case _ => 6
  }

  /** The condition under which guard `g` fails, taken on its own. */
  predicate Trips(g: Reason, req: Request, forms: map<string, Value>)
  {
    match g
    case NoSettings => |forms| == 0
    case NoCurrentSettings => Empty(CurrentSettings(req, forms))
    case FormHandleMissing => Empty(Param(req, HandleParam))
    case ToEmailMissing =>
      Empty(Param(req, ToEmailParam)) && Empty(Index(CurrentSettings(req, forms), "allowEmptyEmail"))
    case Honeypot => !Empty(Param(req, HoneypotParam))
    case Bot => Empty(Param(req, FocusParam)) || Empty(Param(req, KeyupParam))
    case _ => false
  }

  datatype Screened = Passed(current: Value) | Stopped(reason: Reason)

  /** The guard chain as the service runs it: early returns in a fixed order. It stops
      at the guard of lowest rank that trips, and passes (with the matched, non-empty
      form settings) exactly when no guard trips. */
  function Screen(req: Request, forms: map<string, Value>): (r: Screened)
    ensures r.Stopped? ==> IsGuard(r.reason) && Trips(r.reason, req, forms)
    ensures r.Stopped? ==> forall g :: IsGuard(g) && Rank(g) < Rank(r.reason) ==> !Trips(g, req, forms)
    ensures r.Passed? ==> forall g :: IsGuard(g) ==> !Trips(g, req, forms)
    ensures r.Passed? ==> r.current == CurrentSettings(req, forms) && !Empty(r.current)
  {
    if |forms| == 0 then Stopped(NoSettings)
    else
      var current := CurrentSettings(req, forms);
      if Empty(current) then Stopped(NoCurrentSettings)
      else if Empty(Param(req, HandleParam)) then Stopped(FormHandleMissing)
      else if Empty(Param(req, ToEmailParam)) && Empty(Index(current, "allowEmptyEmail")) then Stopped(ToEmailMissing)
      else if !Empty(Param(req, HoneypotParam)) then Stopped(Honeypot)
      else if Empty(Param(req, FocusParam)) || Empty(Param(req, KeyupParam)) then Stopped(Bot)
      else Passed(current)
  }

  // ---------------------------------------------------------------------------
  // Messages
  // ---------------------------------------------------------------------------

  datatype Body = NoBody | TextBody(content: string) | HtmlBody(content: string)

  datatype Sender = Sender(email: Value, name: Value)

  /** A mail message; None marks a header no setter has touched. */
  datatype Message = Message(
    from: Option<Sender>,
    to: Option<Value>,
    cc: Option<Value>,
    replyTo: Option<Value>,
    subject: Option<Value>,
    body: Body)

  /** Template rendering: template name and context (the submitted parameters) to the
      rendered text. Renderer errors are not part of this model. */
  type Renderer = (Value, map<string, Value>) -> string

  /** The mail transport: whether it accepted a message. */
  type Transport = Message -> bool

  /** A freshly created message: nothing set. */
  const Blank := Message(None, None, None, None, None, NoBody)

  /** A plain-text body exactly when the recipient settings' format is the string
      'text' (strict comparison); a markup body for any other format, absent included. */
  function BodyFor(format: Value, rendered: string): (b: Body)
    ensures b.TextBody? <==> format == Str("text")
    ensures b.HtmlBody? <==> format != Str("text")
    ensures b.content == rendered
  {
    if format == Str("text") then TextBody(rendered) else HtmlBody(rendered)
  }

  /** The acknowledgement to the submitter, built from the `toCustomer` settings. */
  function CustomerMessage(req: Request, rcpt: Value, mail: MailSettings,
                           render: Renderer): Message
  {
    var replyTo := Index(rcpt, "replyTo");
    Message(
      Some(Sender(mail.fromEmail, mail.fromName)),
      Some(Param(req, ToEmailParam)),
      None,
      Some(if Empty(replyTo) then mail.fromEmail else replyTo),
      Some(Index(rcpt, "subject")),
      BodyFor(Index(rcpt, "format"), render(Index(rcpt, "template"), req.params)))
  }

  /** The notification to the administrator, built from the `toAdmin` settings. Its
      body goes on this message whatever the format (see AdminBodyAsWritten). */
  function AdminMessage(req: Request, rcpt: Value, mail: MailSettings,
                        render: Renderer): Message
  {
    var to := Index(rcpt, "to");
    var cc := Index(rcpt, "cc");
    var toEmail := Param(req, ToEmailParam);
    Message(
      Some(Sender(mail.fromEmail, mail.fromName)),
      Some(if Empty(to) then mail.fromEmail else to),
      if Empty(cc) then None else Some(cc),
      if Empty(toEmail) then None else Some(toEmail),
      Some(Index(rcpt, "subject")),
      BodyFor(Index(rcpt, "format"), render(Index(rcpt, "template"), req.params)))
  }

  /** What the administrator body step does: set a body, or fail on a call on null. */
  datatype AdminBodyStep = BodySet(body: Body) | CallOnNull

  /** The administrator body step as the source writes it: a 'text' format sets the
      administrator message's text body, but any other format calls `setHtmlBody` on
      the customer message variable instead. If the customer message was built, the
      administrator message goes out without a body; if it was not, that variable is
      undefined and the call is made on null, which aborts the request. */
  function AdminBodyAsWritten(format: Value, rendered: string, customerBuilt: bool): (step: AdminBodyStep)
    ensures step.CallOnNull? <==> format != Str("text") && !customerBuilt
    ensures step.BodySet? && step.body != NoBody ==> step.body == TextBody(rendered)
    ensures step.BodySet? ==> !step.body.HtmlBody?
    ensures format == Str("text") ==> step == BodySet(TextBody(rendered))
    ensures format != Str("text") && customerBuilt ==> step == BodySet(NoBody)
  {
    if format == Str("text") then BodySet(TextBody(rendered))
    else if customerBuilt then BodySet(NoBody)
    else CallOnNull
  }

  // ---------------------------------------------------------------------------
  // Dispatch: the specification, stage by stage
  // ---------------------------------------------------------------------------

  /** A stage either lets the run continue or halts it; either way it reports the
      messages it handed to the transport. */
  datatype Stage = Continue(sent: seq<Message>) | Halt(reason: Reason, sent: seq<Message>)

  /** Whether the customer message is attempted at all: a non-empty `toEmail` on a
      form whose `allowEmptyEmail` is empty. */
  predicate CustomerAttempted(req: Request, current: Value)
  {
    !Empty(Param(req, ToEmailParam)) && Empty(Index(current, "allowEmptyEmail"))
  }

  function CustomerStage(req: Request, current: Value, mail: MailSettings,
                         render: Renderer, send: Transport): Stage
  {
    if !CustomerAttempted(req, current) then Continue([])
    else
      var rcpt := Index(current, "toCustomer");
      if Empty(rcpt) then Halt(ToCustomerMissing, [])
      else
        var m := CustomerMessage(req, rcpt, mail, render);
        if send(m) then Continue([m]) else Halt(CustomerSendFailed, [m])
  }

  function AdminStage(req: Request, current: Value, mail: MailSettings,
                      render: Renderer, send: Transport): Stage
  {
    var rcpt := Index(current, "toAdmin");
    if Empty(rcpt) then Halt(ToAdminMissing, [])
    else
      var m := AdminMessage(req, rcpt, mail, render);
      if send(m) then Continue([m]) else Halt(AdminSendFailed, [m])
  }

  /** The terminal state of a run: why it halted (None for success) and the messages
      handed to the transport, in order. */
  datatype Run = Run(halt: Option<Reason>, sent: seq<Message>)

  /** The whole procedure: guards, then the customer stage, then the administrator
      stage; the first stage that halts ends the run. */
  function Expected(req: Request, forms: map<string, Value>, mail: MailSettings,
                    render: Renderer, send: Transport): Run
  {
    match Screen(req, forms)
    case Stopped(g) => Run(Some(g), [])
    case Passed(current) =>
      match CustomerStage(req, current, mail, render, send)
      case Halt(r, s) => Run(Some(r), s)
      case Continue(s1) =>
        match AdminStage(req, current, mail, render, send)
        case Halt(r, s2) => Run(Some(r), s1 + s2)
        case Continue(s2) => Run(None, s1 + s2)
  }

  // ---------------------------------------------------------------------------
  // The service
  // ---------------------------------------------------------------------------

  /** `contactForm()`: runs the guards, builds each message through its setters and
      hands it to the transport `send`, appending it to `outbox` first. The template
      renderer and the transport are parameters. */
  method ContactForm(req: Request, forms: map<string, Value>, mail: MailSettings,
                     render: Renderer, send: Transport)
    returns (outcome: Outcome, outbox: seq<Message>)
    ensures outbox == Expected(req, forms, mail, render, send).sent
    ensures outcome == OutcomeOf(req, Expected(req, forms, mail, render, send).halt)
  {
    outbox := [];
    var toEmail := Param(req, ToEmailParam);

    var screened := Screen(req, forms);
    if screened.Stopped? {
      outcome := OutcomeOf(req, Some(screened.reason));
      return;
    }
    var current := screened.current;
    ghost var customerStage := CustomerStage(req, current, mail, render, send);
    ghost var adminStage := AdminStage(req, current, mail, render, send);

    // To the customer
    if !Empty(toEmail) && Empty(Index(current, "allowEmptyEmail")) {
      var toCustomer := Index(current, "toCustomer");
      if !Empty(toCustomer) {
        var message := Blank;
        message := message.(from := Some(Sender(mail.fromEmail, mail.fromName)));
        message := message.(to := Some(toEmail));
        if Empty(Index(toCustomer, "replyTo")) {
          message := message.(replyTo := Some(mail.fromEmail));
        } else {
          message := message.(replyTo := Some(Index(toCustomer, "replyTo")));
        }
        message := message.(subject := Some(Index(toCustomer, "subject")));
        var emailBody := render(Index(toCustomer, "template"), req.params);
        if Index(toCustomer, "format") == Str("text") {
          message := message.(body := TextBody(emailBody));
        } else {
          message := message.(body := HtmlBody(emailBody));
        }
        assert message == CustomerMessage(req, toCustomer, mail, render);
        outbox := outbox + [message];
        if !send(message) {
          assert customerStage == Halt(CustomerSendFailed, outbox);
          outcome := OutcomeOf(req, Some(CustomerSendFailed));
          return;
        }
        assert customerStage == Continue(outbox);
      } else {
        assert customerStage == Halt(ToCustomerMissing, []);
        outcome := OutcomeOf(req, Some(ToCustomerMissing));
        return;
      }
    } else {
      assert customerStage == Continue([]);
    }
    assert customerStage == Continue(outbox);

    // To the administrator
    var toAdmin := Index(current, "toAdmin");
    if !Empty(toAdmin) {
      var message := Blank;
      message := message.(from := Some(Sender(mail.fromEmail, mail.fromName)));
      if Empty(Index(toAdmin, "to")) {
        message := message.(to := Some(mail.fromEmail));
      } else {
        message := message.(to := Some(Index(toAdmin, "to")));
      }
      if !Empty(Index(toAdmin, "cc")) {
        message := message.(cc := Some(Index(toAdmin, "cc")));
      }
      if !Empty(toEmail) {
        message := message.(replyTo := Some(toEmail));
      }
      message := message.(subject := Some(Index(toAdmin, "subject")));
      var emailBody := render(Index(toAdmin, "template"), req.params);
      if Index(toAdmin, "format") == Str("text") {
        message := message.(body := TextBody(emailBody));
      } else {
        message := message.(body := HtmlBody(emailBody));
      }
      assert message == AdminMessage(req, toAdmin, mail, render);
      outbox := outbox + [message];
      if !send(message) {
        assert adminStage == Halt(AdminSendFailed, [message]);
        outcome := OutcomeOf(req, Some(AdminSendFailed));
        return;
      }
      assert adminStage == Continue([message]);
    } else {
      assert adminStage == Halt(ToAdminMissing, []);
      outcome := OutcomeOf(req, Some(ToAdminMissing));
      return;
    }

    outcome := OutcomeOf(req, None);
  }
}
