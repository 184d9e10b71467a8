/** What the contact-form service promises, stated over the staged specification
    `Expected` that `ContactForm` is proved to follow. */
module ContactFormProperties {
  import opened Php
  import opened Strings
  import opened EasyFormCore

  // ---------------------------------------------------------------------------
  // Guard chain
  // ---------------------------------------------------------------------------

  /** When several guards trip, the one earliest in the chain decides the outcome. */
  lemma FirstTrippedGuardWins(req: Request, forms: map<string, Value>, g: Reason)
    requires IsGuard(g) && Trips(g, req, forms)
    requires forall h :: IsGuard(h) && Rank(h) < Rank(g) ==> !Trips(h, req, forms)
    ensures Screen(req, forms) == Stopped(g)
  {
    var r := Screen(req, forms);
    assert r.Stopped?;
    assert Rank(r.reason) == Rank(g);
  }

  /** A guard failure hands nothing to the transport; the outcome carries the guard's
      code: 404 for missing settings, 500 for missing input, 400 for spam. */
  lemma GuardFailureSendsNothing(req: Request, forms: map<string, Value>, mail: MailSettings,
                                 render: Renderer, send: Transport)
    requires Screen(req, forms).Stopped?
    ensures var g := Screen(req, forms).reason;
      && Expected(req, forms, mail, render, send) == Run(Some(g), [])
      && OutcomeOf(req, Some(g)).code
         == (if g.NoSettings? || g.NoCurrentSettings? then 404
             else if g.Honeypot? || g.Bot? then 400
             else 500)
  {
  }

  /** The form lookup runs before the empty-handle check, so `formHandleMissing` is
      reached only through a configured, non-empty form under the key "" or "0" --
      the only keys an empty handle casts to. */
  lemma HandleMissingNeedsEmptyKeyForm(req: Request, forms: map<string, Value>)
    requires Screen(req, forms) == Stopped(FormHandleMissing)
    ensures ("" in forms && !Empty(forms[""])) || ("0" in forms && !Empty(forms["0"]))
  {
    var handle := Param(req, HandleParam);
    var current := CurrentSettings(req, forms);
    assert !Empty(current);
    EmptyValueKeys(handle);
  }

  /** ... and it is reachable: a handle "0" with a form configured under "0". */
  lemma HandleMissingReachable(path: string)
    ensures var forms := map["0" := Arr(map["toAdmin" := Bool(true)])];
            var req := Request(path, map[HandleParam := Str("0")]);
            Screen(req, forms) == Stopped(FormHandleMissing)
  {
  }

  /** Once a form is found under a non-empty handle, `toEmailMissing` is returned
      exactly when `toEmail` is empty and the form's `allowEmptyEmail` is empty. */
  lemma ToEmailMissingExactly(req: Request, forms: map<string, Value>)
    requires !Trips(NoSettings, req, forms) && !Trips(NoCurrentSettings, req, forms)
    requires !Trips(FormHandleMissing, req, forms)
    ensures Screen(req, forms) == Stopped(ToEmailMissing)
        <==> Empty(Param(req, ToEmailParam)) && Empty(Index(CurrentSettings(req, forms), "allowEmptyEmail"))
  {
  }

  /** The bot filter, once the configuration and input guards pass: a filled honeypot
      gives `honeypot`; otherwise an empty focus or keyup counter gives `bot`; with
      both counters non-empty the submission passes. */
  lemma BotFilter(req: Request, forms: map<string, Value>)
    requires forall g :: IsGuard(g) && Rank(g) < Rank(Honeypot) ==> !Trips(g, req, forms)
    ensures !Empty(Param(req, HoneypotParam)) ==> Screen(req, forms) == Stopped(Honeypot)
    ensures Empty(Param(req, HoneypotParam)) ==>
      (Screen(req, forms) == Stopped(Bot) <==> Empty(Param(req, FocusParam)) || Empty(Param(req, KeyupParam)))
    ensures Empty(Param(req, HoneypotParam)) && !Empty(Param(req, FocusParam)) && !Empty(Param(req, KeyupParam))
      ==> Screen(req, forms).Passed?
  {
    assert !Trips(NoSettings, req, forms) && !Trips(NoCurrentSettings, req, forms);
    assert !Trips(FormHandleMissing, req, forms) && !Trips(ToEmailMissing, req, forms);
  }

  /** The server applies no count threshold: one focus and one keystroke pass, while a
      counter of "0" is rejected as a bot. */
  lemma CountersCheckedOnlyForEmptiness(req: Request, forms: map<string, Value>)
    requires forall g :: IsGuard(g) && Rank(g) < Rank(Honeypot) ==> !Trips(g, req, forms)
    requires Empty(Param(req, HoneypotParam))
    ensures Param(req, FocusParam) == Str("1") && Param(req, KeyupParam) == Str("1")
      ==> Screen(req, forms).Passed?
    ensures Param(req, FocusParam) == Str("0") || Param(req, KeyupParam) == Str("0")
      ==> Screen(req, forms) == Stopped(Bot)
  {
    BotFilter(req, forms);
  }

  // ---------------------------------------------------------------------------
  // Customer message
  // ---------------------------------------------------------------------------

  /** The customer message is attempted only when `toEmail` is non-empty and the
      form's `allowEmptyEmail` is empty; then a missing `toCustomer` setting stops
      the run with nothing sent, and otherwise the customer message goes first. */
  lemma CustomerMessageOnlyWhenAttempted(req: Request, forms: map<string, Value>, mail: MailSettings,
                                         render: Renderer, send: Transport)
    requires Screen(req, forms).Passed?
    ensures var current := CurrentSettings(req, forms);
            var run := Expected(req, forms, mail, render, send);
      && (run.halt == Some(ToCustomerMissing)
          <==> CustomerAttempted(req, current) && Empty(Index(current, "toCustomer")))
      && (run.halt == Some(ToCustomerMissing) ==> run.sent == [])
      && (CustomerAttempted(req, current) && !Empty(Index(current, "toCustomer")) ==>
            |run.sent| >= 1 && run.sent[0] == CustomerMessage(req, Index(current, "toCustomer"), mail, render))
      && (!CustomerAttempted(req, current) ==>
            |run.sent| <= 1
            && forall i :: 0 <= i < |run.sent| ==>
                 run.sent[i] == AdminMessage(req, Index(current, "toAdmin"), mail, render))
  {
  }

  /** The customer message: from the system sender, to `toEmail`, no cc, reply-to the
      `toCustomer.replyTo` setting when non-empty and the system address otherwise, the
      configured subject, and the rendered template as a text body exactly when the
      format is 'text' and as a markup body otherwise. */
  lemma CustomerMessageShape(req: Request, forms: map<string, Value>, mail: MailSettings,
                             render: Renderer, send: Transport)
    requires Screen(req, forms).Passed?
    requires CustomerAttempted(req, CurrentSettings(req, forms))
    requires !Empty(Index(CurrentSettings(req, forms), "toCustomer"))
    ensures var rcpt := Index(CurrentSettings(req, forms), "toCustomer");
            var run := Expected(req, forms, mail, render, send);
      && |run.sent| >= 1
      && run.sent[0].from == Some(Sender(mail.fromEmail, mail.fromName))
      && run.sent[0].to == Some(Param(req, ToEmailParam))
      && run.sent[0].cc.None?
      && (!Empty(Index(rcpt, "replyTo")) ==> run.sent[0].replyTo == Some(Index(rcpt, "replyTo")))
      && (Empty(Index(rcpt, "replyTo")) ==> run.sent[0].replyTo == Some(mail.fromEmail))
      && run.sent[0].subject == Some(Index(rcpt, "subject"))
      && (run.sent[0].body.TextBody? <==> Index(rcpt, "format") == Str("text"))
      && (run.sent[0].body.HtmlBody? <==> Index(rcpt, "format") != Str("text"))
      && run.sent[0].body.content == render(Index(rcpt, "template"), req.params)
  {
    CustomerMessageOnlyWhenAttempted(req, forms, mail, render, send);
  }

  // ---------------------------------------------------------------------------
  // Administrator message
  // ---------------------------------------------------------------------------

  /** The administrator message, built whenever the run gets past the customer stage
      and `toAdmin` is configured, is the last one handed over: to `toAdmin.to` when
      non-empty and the system address otherwise, cc only when `toAdmin.cc` is
      non-empty, reply-to the submitter's `toEmail` only when that is non-empty, and
      the rendered template as text exactly when the format is 'text'. */
  lemma AdminMessageShape(req: Request, forms: map<string, Value>, mail: MailSettings,
                          render: Renderer, send: Transport)
    requires Screen(req, forms).Passed?
    requires CustomerStage(req, CurrentSettings(req, forms), mail, render, send).Continue?
    requires !Empty(Index(CurrentSettings(req, forms), "toAdmin"))
    ensures var rcpt := Index(CurrentSettings(req, forms), "toAdmin");
            var run := Expected(req, forms, mail, render, send);
            var toEmail := Param(req, ToEmailParam);
      && |run.sent| >= 1
      && var m := run.sent[|run.sent| - 1];
      && m.from == Some(Sender(mail.fromEmail, mail.fromName))
      && (!Empty(Index(rcpt, "to")) ==> m.to == Some(Index(rcpt, "to")))
      && (Empty(Index(rcpt, "to")) ==> m.to == Some(mail.fromEmail))
      && (m.cc.Some? <==> !Empty(Index(rcpt, "cc")))
      && (m.cc.Some? ==> m.cc.value == Index(rcpt, "cc"))
      && (m.replyTo.Some? <==> !Empty(toEmail))
      && (m.replyTo.Some? ==> m.replyTo.value == toEmail)
      && m.subject == Some(Index(rcpt, "subject"))
      && (m.body.TextBody? <==> Index(rcpt, "format") == Str("text"))
      && (m.body.HtmlBody? <==> Index(rcpt, "format") != Str("text"))
      && m.body.content == render(Index(rcpt, "template"), req.params)
  {
  }

  // ---------------------------------------------------------------------------
  // Send ordering and success
  // ---------------------------------------------------------------------------

  /** A failed customer send ends the run before any administrator message is built;
      a missing `toAdmin` or a failed administrator send can come after the customer
      message was already accepted. */
  lemma SendOrdering(req: Request, forms: map<string, Value>, mail: MailSettings,
                     render: Renderer, send: Transport)
    ensures var run := Expected(req, forms, mail, render, send);
      run.halt == Some(CustomerSendFailed) ==>
        |run.sent| == 1 && !send(run.sent[0]) && run.sent[0].to == Some(Param(req, ToEmailParam))
    ensures var run := Expected(req, forms, mail, render, send);
      run.halt == Some(ToAdminMissing) ==>
        |run.sent| <= 1
        && (forall i :: 0 <= i < |run.sent| ==> send(run.sent[i]))
        && (|run.sent| == 1 <==> CustomerAttempted(req, CurrentSettings(req, forms)))
    ensures var run := Expected(req, forms, mail, render, send);
      run.halt == Some(AdminSendFailed) ==>
        1 <= |run.sent| <= 2
        && !send(run.sent[|run.sent| - 1])
        && (forall i :: 0 <= i < |run.sent| - 1 ==> send(run.sent[i]))
        && (|run.sent| == 2 <==> CustomerAttempted(req, CurrentSettings(req, forms)))
  {
  }

  /** Success exactly when every guard passes, the settings needed are present and the
      transport accepted every message it was handed; at least the administrator
      message was sent, and the submitted redirect is returned unchanged with code 200. */
  lemma SuccessMeansEverySendAccepted(req: Request, forms: map<string, Value>, mail: MailSettings,
                                      render: Renderer, send: Transport)
    ensures var run := Expected(req, forms, mail, render, send);
            var current := CurrentSettings(req, forms);
      run.halt.None? <==>
        && Screen(req, forms).Passed?
        && !(CustomerAttempted(req, current) && Empty(Index(current, "toCustomer")))
        && !Empty(Index(current, "toAdmin"))
        && (forall i :: 0 <= i < |run.sent| ==> send(run.sent[i]))
    ensures var run := Expected(req, forms, mail, render, send);
      run.halt.None? ==>
        1 <= |run.sent| <= 2
        && OutcomeOf(req, run.halt) == Success(200, Param(req, RedirectParam))
  {
    var current := CurrentSettings(req, forms);
    if Screen(req, forms).Passed? {
      var customer := CustomerStage(req, current, mail, render, send);
      var admin := AdminStage(req, current, mail, render, send);
      var run := Expected(req, forms, mail, render, send);
      match customer
      case Halt(r, s) =>
        assert run == Run(Some(r), s);
        assert r == ToCustomerMissing || (|s| == 1 && !send(s[0]));
      case Continue(s1) =>
        match admin
        case Halt(r, s2) =>
          assert run == Run(Some(r), s1 + s2);
          assert r == ToAdminMissing || (|s2| == 1 && !send(run.sent[|s1|]));
        case Continue(s2) =>
          assert run == Run(None, s1 + s2);
    }
  }

  /** Every run hands at most two messages to the transport; a run that halted for a
      send failure ends with the message the transport refused. */
  lemma AtMostTwoMessages(req: Request, forms: map<string, Value>, mail: MailSettings,
                          render: Renderer, send: Transport)
    ensures var run := Expected(req, forms, mail, render, send);
      && |run.sent| <= 2
      && (run.halt.Some? && IsSendFailure(run.halt.value) <==>
            |run.sent| > 0 && !send(run.sent[|run.sent| - 1]))
  {
    var run := Expected(req, forms, mail, render, send);
    match Screen(req, forms)
    case Stopped(g) =>
      assert run == Run(Some(g), []);
    case Passed(current) =>
      match CustomerStage(req, current, mail, render, send)
      case Halt(r, s) =>
        assert run == Run(Some(r), s);
      case Continue(s1) =>
        assert s1 == [] || (|s1| == 1 && send(s1[0]));
        match AdminStage(req, current, mail, render, send)
        case Halt(r, s2) =>
          assert run == Run(Some(r), s1 + s2);
          assert r == ToAdminMissing || (|s2| == 1 && !send(s2[0]) && run.sent[|run.sent| - 1] == s2[0]);
        case Continue(s2) =>
          assert run == Run(None, s1 + s2);
          assert |s2| == 1 && send(s2[0]);
          assert forall i :: 0 <= i < |run.sent| ==> send(run.sent[i]);
  }

  // ---------------------------------------------------------------------------
  // Failure redirects
  // ---------------------------------------------------------------------------

  /** Every failure redirects to the referring path with one `?<flag>=1` query, and the
      flag tells the reasons apart: two failures redirect to the same place exactly
      when they are the same reason or both are send failures (`emailFailed`). */
  lemma FailureRedirectsDistinguishReasons(path: string, a: Reason, b: Reason)
    ensures FailureRedirect(path, a) == FailureRedirect(path, b)
        <==> a == b || (IsSendFailure(a) && IsSendFailure(b))
  {
    var ra, rb := FailureRedirect(path, a), FailureRedirect(path, b);
    if ra == rb {
      assert ra[|path| + 1 .. |ra| - 2] == Flag(a);
      assert rb[|path| + 1 .. |rb| - 2] == Flag(b);
      FlagsDistinct(a, b);
    }
  }

  lemma FlagsDistinct(a: Reason, b: Reason)
    requires Flag(a) == Flag(b)
    ensures a == b || (IsSendFailure(a) && IsSendFailure(b))
  {
  }

  /** Every failure message except the two send failures is a fixed text: it does
      not depend on the submitted `toEmail`. */
  lemma GuardMessagesAreFixed(r: Reason, a: Value, b: Value)
    ensures !IsSendFailure(r) ==> ErrorMessage(r, a) == ErrorMessage(r, b)
  {
    match r
    case CustomerSendFailed =>
    case AdminSendFailed =>
    case _ =>
  }

  /** The send-failure messages name the recipient faithfully: two messages of one
      kind are equal exactly when the recipients' string forms are. */
  lemma FailureMessagesNameRecipient(r: Reason, a: Value, b: Value)
    ensures IsSendFailure(r) ==> (ErrorMessage(r, a) == ErrorMessage(r, b) <==> ToString(a) == ToString(b))
  {
    var x, y := ToString(a), ToString(b);
    if r.CustomerSendFailed? {
      assert ErrorMessage(r, a) == SendFailurePrefix + x;
      assert ErrorMessage(r, b) == SendFailurePrefix + y;
      if SendFailurePrefix + x == SendFailurePrefix + y {
        PrefixCancels(SendFailurePrefix, x, y);
      }
    } else if r.AdminSendFailed? {
      assert ErrorMessage(r, a) == SendFailurePrefix + "\"" + x + "\"" + ".";
      assert ErrorMessage(r, b) == SendFailurePrefix + "\"" + y + "\"" + ".";
      if SendFailurePrefix + "\"" + x + "\"" + "." == SendFailurePrefix + "\"" + y + "\"" + "." {
        QuotedCancels(SendFailurePrefix, "\"", x, y, ".");
      }
    }
  }

  // ---------------------------------------------------------------------------
  // End-to-end scenarios
  // ---------------------------------------------------------------------------

  /** A visitor's submission to the form "contact": toEmail a@b.com, the given
      honeypot value, focus 2 and keyup 6; other parameters are arbitrary. */
  predicate VisitorSubmission(req: Request, honeypot: string)
  {
    && Param(req, HandleParam) == Str("contact")
    && Param(req, ToEmailParam) == Str("a@b.com")
    && Param(req, HoneypotParam) == Str(honeypot)
    && Param(req, FocusParam) == Str("2")
    && Param(req, KeyupParam) == Str("6")
  }

  /** The form "contact" requires an address and configures `toCustomer`, and
      `toAdmin` exactly when `withAdmin`. */
  predicate ContactConfigured(forms: map<string, Value>, withAdmin: bool)
  {
    && "contact" in forms
    && forms["contact"].Arr?
    && Index(forms["contact"], "allowEmptyEmail") == Null
    && !Empty(Index(forms["contact"], "toCustomer"))
    && (withAdmin <==> !Empty(Index(forms["contact"], "toAdmin")))
  }

  /** A visitor's submission with an empty honeypot passes every guard. */
  lemma VisitorPassesGuards(req: Request, forms: map<string, Value>, withAdmin: bool)
    requires VisitorSubmission(req, "") && ContactConfigured(forms, withAdmin)
    ensures Screen(req, forms) == Passed(forms["contact"])
    ensures CustomerAttempted(req, forms["contact"])
  {
    assert CurrentSettings(req, forms) == forms["contact"];
  }

  /** Scenario A: a visitor's submission to a fully configured form sends the customer
      message, then the administrator message, and succeeds with its redirect. */
  lemma ScenarioBothMessagesSent(req: Request, forms: map<string, Value>, mail: MailSettings,
                                 render: Renderer, send: Transport)
    requires VisitorSubmission(req, "") && ContactConfigured(forms, true)
    requires forall m :: send(m)
    ensures var run := Expected(req, forms, mail, render, send);
      && run.halt.None? && |run.sent| == 2
      && run.sent[0].to == Some(Str("a@b.com"))
      && OutcomeOf(req, run.halt) == Success(200, Param(req, RedirectParam))
  {
    VisitorPassesGuards(req, forms, true);
  }

  /** Scenario B: without `toAdmin` the run fails with `toAdminMissing` after the
      customer message was already sent. */
  lemma ScenarioAdminMissingAfterCustomer(req: Request, forms: map<string, Value>, mail: MailSettings,
                                          render: Renderer, send: Transport)
    requires VisitorSubmission(req, "") && ContactConfigured(forms, false)
    requires forall m :: send(m)
    ensures var run := Expected(req, forms, mail, render, send);
      && run.halt == Some(ToAdminMissing) && |run.sent| == 1
      && run.sent[0].to == Some(Str("a@b.com"))
      && OutcomeOf(req, run.halt).redirect == FailureRedirect(req.referrerPath, ToAdminMissing)
  {
    VisitorPassesGuards(req, forms, false);
  }

  /** Scenario C: a filled honeypot fails with `honeypot` and nothing is sent. */
  lemma ScenarioHoneypot(req: Request, forms: map<string, Value>, mail: MailSettings,
                         render: Renderer, send: Transport)
    requires VisitorSubmission(req, "spamvalue") && ContactConfigured(forms, true)
    ensures var run := Expected(req, forms, mail, render, send);
      && run == Run(Some(Honeypot), [])
      && OutcomeOf(req, run.halt) == Failure(400, "Bad Request.", FailureRedirect(req.referrerPath, Honeypot))
  {
    assert CurrentSettings(req, forms) == forms["contact"];
  }

  // ---------------------------------------------------------------------------
  // The administrator body, as written and as intended
  // ---------------------------------------------------------------------------

  /** As written, a non-'text' administrator format never puts the rendered markup on
      the administrator message: it is lost when the customer message exists and the
      request aborts when it does not. The model's administrator message carries it. */
  lemma AdminMarkupBodyLostAsWritten(format: Value, rendered: string, customerBuilt: bool)
    requires format != Str("text")
    ensures AdminBodyAsWritten(format, rendered, customerBuilt) != BodySet(BodyFor(format, rendered))
    ensures BodyFor(format, rendered) == HtmlBody(rendered)
    ensures AdminBodyAsWritten(format, rendered, customerBuilt)
            == (if customerBuilt then BodySet(NoBody) else CallOnNull)
  {
  }
}
