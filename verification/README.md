# Easy Form contact pipeline in Dafny

A model of the Easy Form plugin's contact-form service and its template helpers.

The service (`Core::contactForm`) takes one form submission and the plugin's
per-form settings. It returns one outcome record:

- a failure: an HTTP-like code, a message, and a redirect to the referring path
  followed by `?<flag>=1`;
- or a success: code 200 and the submitted `redirect`, unchanged.

On the way it hands zero, one or two messages to the mail transport, always the
customer acknowledgement first and the administrator notification second.

The template helpers produce three things: the attributes of the form element; the
hidden `focus`, `keyup` and honeypot `email` inputs; and the script that fills the
two counters and warns a visitor who typed too little, in Japanese or English.

Files:

- `php.dfy` (module `Php`): the PHP values the service handles. It holds `empty()`,
  reading an array element, the cast of a value to an array key, and the cast of a
  value to a string.
- `core.dfy` (module `EasyFormCore`) models the service. The guard chain is the pure
  function `Screen`. `CustomerStage`, `AdminStage` and `Expected` are the stages
  as functions. `ContactForm` is the imperative procedure: it builds each message
  through successive setter updates and appends it to an outbox before sending it.
  Its postcondition ties the outbox and the outcome to `Expected`.
- `core_properties.dfy` (module `ContactFormProperties`): what the service promises,
  proved about `Expected` and `Screen`.
- `twig.dfy` (module `EasyFormTwig`): the template helpers. The extension's
  `getName()` is the constant `EasyFormTwig.ExtensionName`.
- `strings.dfy` (module `Strings`): substrings and concatenation, used to state what
  messages and markup contain.

Collaborators the service cannot see are parameters:

- the referrer path and the body parameters (`Request`);
- the system `fromEmail`/`fromName` (`MailSettings`);
- template rendering (`Renderer`, a function from template name and parameters to
  text);
- the mail transport (`Transport`, a function from message to accepted or refused).

The helpers' site language is a parameter too.

Behaviour of the code a reader might not expect:

- The server's bot filter only tests `focus` and `keyup` with `empty()`: a counter
  passes exactly when it is non-empty, and a missing counter, "" or "0" is a bot
  (`CountersCheckedOnlyForEmptiness`). The only
  numeric threshold is in the browser script. It blocks a submission unless there
  were at least two focus events and at least five keystrokes
  (`focusCount <= 1 || keyupCount < 5`).
- `fromEmail`/`fromName` are used as given. No `$`-prefixed value is resolved from
  the environment.
- Templates are rendered with the submitted parameters as their context. No
  `toCustomer`/`toAdmin` flags are added to the context.
- `toAdmin` is always required; configuring only `toCustomer` fails with
  `toAdminMissing`.
- `allowEmptyEmail` is read from the matched form's settings with `empty()`, not from
  the top-level settings property.

The model follows PHP 7.4. A missing array key or parameter reads as null, and an
array used as a key reads as null with a warning. The source needs at least PHP 7.4
(a typed property in `src/models/Settings.php`). Under "## Left out" are the points
where PHP 8 or the host's error handler behave differently.

## Model

| member | source | states |
|---|---|---|
| `Php.Index` | src/services/Core.php:94 | reading a named key of a settings array is the form lookup with that string as the handle; reading a non-array gives null |
| `Php.LookupKeyCasting` | src/services/Core.php:72-73 | the form lookup casts the handle as PHP does: a string selects the entry under itself, an integer the same form as its decimal string, false as 0 and "0", true as 1 and "1", null as "" |
| `Php.ArrayKey` | src/services/Core.php:73 | a string handle selects the key equal to itself, an integer its decimal string, and an array (an illegal offset under PHP 7.4) no key |
| `Php.NatToString` | src/services/Core.php:167 | the decimal rendering of a number is a digit string that reads back as that number, with no leading zero |
| `Php.IntToString` | src/services/Core.php:167 | the decimal rendering of an integer is a minus sign exactly for negatives, then digits without a leading zero that read back as its magnitude; a single character exactly for 0 to 9, so 0 renders as "0" |
| `Php.IntToStringInjective` | src/services/Core.php:73 | two integers render to the same string exactly when they are equal, so distinct integer handles select distinct forms |
| `Php.EmptyScalarsAsStrings` | src/services/Core.php:63-123 | for a non-array value `empty()` holds exactly when its string form is "" or "0", so the guards reject null, false, 0, "" and "0" and accept everything else |
| `Php.ToString` | src/services/Core.php:167 | concatenating a value: a string is itself, null is empty |
| `Php.EmptyValueKeys` | src/services/Core.php:73-84 | an empty handle can only look up the key "" or "0" |
| `EasyFormCore.Screen` | src/services/Core.php:62-131 | the guard chain stops at a tripped guard with no earlier guard tripped, and passes only when no guard trips, with the matched non-empty form settings |
| `EasyFormCore.AdminBodyAsWritten` | src/services/Core.php:208-213 | as written, format 'text' sets the text body on the administrator message; any other format leaves the administrator message without a body when the customer message exists, and is a call on null when it does not |
| `EasyFormCore.ErrorMessage` | src/services/Core.php:67-228 | both send-failure messages start "Could not send an email to " and contain the submitted toEmail's string form, the administrator one in quotes |
| `EasyFormCore.ContactForm` | src/services/Core.php:48-242 | the messages handed to the transport and the returned record are those of the staged specification `Expected` |
| `ContactFormProperties.FirstTrippedGuardWins` | src/services/Core.php:62-131 | when several guards trip, the first in the order noSettings, noCurrentSettings, formHandleMissing, toEmailMissing, honeypot, bot decides |
| `ContactFormProperties.GuardFailureSendsNothing` | src/services/Core.php:62-131 | a guard failure sends no message and carries 404, 500 or 400 as its guard demands |
| `ContactFormProperties.HandleMissingNeedsEmptyKeyForm` | src/services/Core.php:72-92 | formHandleMissing is reached only when a non-empty form is configured under "" or "0" |
| `ContactFormProperties.HandleMissingReachable` | src/services/Core.php:72-92 | handle "0" with a form configured under "0" gives formHandleMissing |
| `ContactFormProperties.ToEmailMissingExactly` | src/services/Core.php:94-102 | after the lookup guards pass, toEmailMissing exactly when toEmail and the form's allowEmptyEmail are both empty |
| `ContactFormProperties.BotFilter` | src/services/Core.php:108-131 | a filled honeypot gives honeypot; otherwise bot exactly when focus or keyup is empty; else the submission passes |
| `ContactFormProperties.CountersCheckedOnlyForEmptiness` | src/services/Core.php:120-131 | counters of "1" pass on the server while "0" is a bot: no numeric threshold |
| `ContactFormProperties.CustomerMessageOnlyWhenAttempted` | src/services/Core.php:139-181 | the customer message is attempted only for a non-empty toEmail and empty allowEmptyEmail; then a missing toCustomer stops the run with nothing sent, otherwise the customer message is sent first |
| `ContactFormProperties.CustomerMessageShape` | src/services/Core.php:141-162 | customer message: system sender, to toEmail, no cc, reply-to toCustomer.replyTo or else fromEmail, configured subject, text body exactly for format 'text' |
| `ContactFormProperties.AdminMessageShape` | src/services/Core.php:185-213 | administrator message, sent last: to toAdmin.to or else fromEmail, cc only when non-empty, reply-to toEmail only when non-empty, text body exactly for format 'text' and the markup body otherwise |
| `ContactFormProperties.SendOrdering` | src/services/Core.php:163-232 | a failed customer send ends the run before any administrator message; toAdminMissing and a failed administrator send can follow an accepted customer message |
| `ContactFormProperties.SuccessMeansEverySendAccepted` | src/services/Core.php:163-241 | success exactly when the guards pass, the needed settings exist and every send was accepted; then code 200 and the submitted redirect |
| `ContactFormProperties.AtMostTwoMessages` | src/services/Core.php:139-232 | at most two messages per run; a send failure exactly when the last message was refused |
| `ContactFormProperties.FailureRedirectsDistinguishReasons` | src/services/Core.php:64-231 | two failure redirects coincide exactly for the same reason or two send failures (emailFailed) |
| `ContactFormProperties.FlagsDistinct` | src/services/Core.php:69-230 | only the two send failures share a diagnostic flag |
| `ContactFormProperties.GuardMessagesAreFixed` | src/services/Core.php:67-228 | every failure message except the two send failures is a fixed text, whatever toEmail was submitted |
| `ContactFormProperties.FailureMessagesNameRecipient` | src/services/Core.php:167-218 | two send-failure messages of one kind are equal exactly when the recipients' string forms are equal |
| `ContactFormProperties.VisitorPassesGuards` | src/services/Core.php:62-139 | a visitor's submission with an empty honeypot passes every guard and triggers the customer message |
| `ContactFormProperties.ScenarioBothMessagesSent` | src/services/Core.php:139-241 | with both recipients configured, two messages are sent and the run succeeds |
| `ContactFormProperties.ScenarioAdminMissingAfterCustomer` | src/services/Core.php:163-231 | without toAdmin the run fails with toAdminMissing after the customer message went out |
| `ContactFormProperties.ScenarioHoneypot` | src/services/Core.php:108-117 | a filled honeypot fails with 400 and honeypot=1, nothing sent |
| `ContactFormProperties.AdminMarkupBodyLostAsWritten` | src/services/Core.php:206-213 | as written, a non-'text' administrator body never reaches the administrator message: the step is no body when the customer message exists and a call on null otherwise, while the corrected body is the markup |
| `EasyFormTwig.EasyFormAttributes` | src/twigextensions/EasyFormTwigExtension.php:82-85 | the attributes start with method="post" and end with the data-easyform marker |
| `EasyFormTwig.AttributesCarryScriptMarker` | src/twigextensions/EasyFormTwigExtension.php:84 | the form attributes contain the marker the script selects |
| `EasyFormTwig.HiddenInputMarkup` | src/twigextensions/EasyFormTwigExtension.php:92-98 | the markup is the rendering of three inputs: hidden focus, hidden keyup, then email-type honeypot with class d-none |
| `EasyFormTwig.FocusTagMarkup` | src/twigextensions/EasyFormTwigExtension.php:95 | the first input is the hidden focus field |
| `EasyFormTwig.KeyupTagMarkup` | src/twigextensions/EasyFormTwigExtension.php:96 | the second input is the hidden keyup field |
| `EasyFormTwig.HoneypotTagMarkup` | src/twigextensions/EasyFormTwigExtension.php:97 | the third input is the honeypot, an email input with class d-none |
| `EasyFormTwig.RenderedTagsCarryNames` | src/twigextensions/EasyFormTwigExtension.php:94-97 | every rendered input carries its name attribute |
| `EasyFormTwig.HiddenInputNamesBotFilterFields` | src/twigextensions/EasyFormTwigExtension.php:94-97 | the markup names focus, keyup and email, the parameters the bot filter reads |
| `EasyFormTwig.AlertMessage` | src/twigextensions/EasyFormTwigExtension.php:107-111 | the Japanese text exactly when the language starts with "ja", the English text otherwise |
| `EasyFormTwig.ScriptWiring` | src/twigextensions/EasyFormTwigExtension.php:113-138 | the script selects [data-easyform], writes focusCount and keyupCount into the focus and keyup inputs, and alerts with the chosen message |

## Findings

| source | as written | input that shows it | evidently intended | confidence | as-written member | corrected member |
|---|---|---|---|---|---|---|
| src/services/Core.php:212 | for any administrator format other than 'text' the rendered body is set on `$messageToCustomer`, not on the administrator message (`ContactFormProperties.AdminMarkupBodyLostAsWritten`) | `toAdmin.format` absent or 'html': with a customer message sent, the administrator message leaves without a body; with an empty `toEmail` on a form that allows it, `$messageToCustomer` is undefined and the call on null aborts the request | `setHtmlBody` on the administrator message | not executed | `EasyFormCore.AdminBodyAsWritten` | `ContactFormProperties.AdminMessageShape` |

The rest of the model uses the corrected behaviour. `EasyFormCore.AdminMessage` and
`ContactForm` put the markup body on the administrator message.

## Left out

- `customLog()`: it appends a timestamped line to a log file. This is file I/O with a
  clock.
- Request plumbing: reading the body parameters and the referrer, and `parse_url`.
  The referrer path and the parameters are inputs. A referrer without a path is
  modelled by passing "".
- The system mail settings lookup: `fromEmail`/`fromName` are inputs.
- Template rendering: an arbitrary function parameter. Renderer errors (uncaught
  exceptions) are not modelled.
- The mail transport: modelled as an arbitrary function of the message. Two identical
  messages therefore get the same answer.
- `Php.Index`: a read from a value that is not an array gives null in the model. A
  scalar string in a place where a settings array is expected (PHP's string-offset
  read) is not modelled.
- `Php.ArrayKey`: keys are canonical strings. PHP's integer keys for decimal strings
  (the key "5" becoming 5) are represented by their decimal string, which gives the
  same matches. Float values are not modelled.
- `Php.ArrayKey`: an array-valued handle (a body such as `handle[]=x`) finds no form
  and the run stops with noCurrentSettings. This is PHP 7.4's illegal-offset read,
  which warns and gives null. Under PHP 8 the same read throws a TypeError ("Illegal
  offset type") and the request aborts. That abort is not modelled. Even under
  PHP 7.4 the noCurrentSettings outcome holds only where the illegal-offset warning
  is not escalated (see the next line).
- `Php.Index`: every read of a missing key or parameter is a silent null, as in plain
  PHP. Such reads are the parameters at src/services/Core.php:55-57, the unknown
  handle at :73, `toCustomer` at :140, `toAdmin` at :185, subject, template and format
  at :154-157 and :205-208, and the referrer's `path`. PHP 7 raises a notice for
  each, PHP 8 a warning. A host error handler that turns these into exceptions, as
  the framework's handler does for every reported error level, aborts the request.
  Two more diagnostics are escalated the same way:
  - the illegal-offset warning for an array-valued handle at :73;
  - the "Array to string conversion" notice for an array-valued `toEmail` at :167 and
    :218.
  The model does not capture that abort. The noCurrentSettings, toCustomerMissing
  and toAdminMissing outcomes for absent keys or an array handle, and the
  send-failure message text "Array" for an array `toEmail`, hold only where these
  diagnostics are not escalated.
- The framework's failure on a call to a method of null appears only in
  `EasyFormCore.AdminBodyAsWritten`. The main model follows the corrected
  administrator body.
- `getFunctions()` and `getFilters()`: this is registration glue. The filter points
  at a method that does not exist.
- The browser-side behaviour of the script (event counting and the client threshold
  `focusCount <= 1 || keyupCount < 5`): only the script text is modelled. No claim is
  made about what a browser does with it.
- src/controllers/EmailController.php, src/EasyForm.php, src/models/Settings.php, the
  asset bundle and the translation table are host glue. The controller sends a
  success to the `redirect` after the framework's signature check, and sends a
  failure to the diagnostic path. That signature check is not part of this model.
- Re-running a submission gives the same outcome. This holds by construction, since
  every member is a function of its inputs, so no lemma states it.
