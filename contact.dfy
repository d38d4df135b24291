/**
 * The `sendNyassobiContactMessage` mutation handler: it sanitises the five
 * inputs, validates them in a fixed order, runs the overridable token check,
 * resolves the recipient, composes the mail and hands it to `wp_mail`.
 */
module Contact {
  import opened Php
  import opened WordPress
  import Settings

  /** The sanitised inputs, passed to every filter as `$sanitized`. */
  datatype ContactFields = ContactFields(fullname: string, email: string, subject: string, message: string, token: string)

  /** The user errors the handler throws, in the order it can throw them. */
  datatype ContactError =
    | FullnameRequired
    | SubjectRequired
    | MessageRequired
    | InvalidEmail
    | SecurityValidationFailed
    | NoRecipient

  /** The text of each user error. */
  function ErrorMessage(e: ContactError): string
  {
    match e
    case FullnameRequired => "The fullname field is required."
    case SubjectRequired => "The subject field is required."
    case MessageRequired => "The message field is required."
    case InvalidEmail => "Please supply a valid email address."
    case SecurityValidationFailed => "Security validation failed."
    case NoRecipient => "No valid recipient email is configured."
  }

  /** Each error has its own text, so a client can tell the errors apart by message alone. */
  lemma ErrorMessagesDistinct(e1: ContactError, e2: ContactError)
    ensures ErrorMessage(e1) == ErrorMessage(e2) <==> e1 == e2
  {
  }

  const HandlerUnavailableMessage := "GraphQL error handler is not available."
  const RetryLaterMessage := "The message could not be sent. Please try again later."
  const SentMessage := "Thank you! Your message has been sent."
  const ContentTypeHeader := "Content-Type: text/plain; charset=UTF-8"

  /**
   * What the handler ends with: a thrown user error with its text, or a
   * `{success, message}` payload.
   */
  datatype Outcome =
    | UserError(error: ContactError, message: string)
    | Payload(success: bool, message: string)

  /** `throw new UserError(...)` for one error kind, with that kind's text. */
  function Throw(e: ContactError): Outcome
  {
    UserError(e, ErrorMessage(e))
  }

  /** The four arguments of `wp_mail`. */
  datatype Mail = Mail(to: string, subject: string, body: string, headers: seq<string>)

  /** The mutation's raw `$input` array. */
  type RawInput = map<string, Value>

  /**
   * The plugin's filters. Each receives the value being filtered, the
   * sanitised fields and the raw input, and returns a value of the same shape.
   */
  datatype Hooks = Hooks(
    /** `nyassobi_wp_plugin_validate_contact_token`, called with `true` and the token */
    validateToken: (bool, string, ContactFields, RawInput) -> bool,
    /** `nyassobi_wp_plugin_contact_headers` */
    headers: (seq<string>, ContactFields, RawInput) -> seq<string>,
    /** `nyassobi_wp_plugin_contact_body` */
    body: (string, ContactFields, RawInput) -> string,
    /** `nyassobi_wp_plugin_contact_subject` */
    subject: (string, ContactFields, RawInput) -> string,
    /** `nyassobi_wp_plugin_contact_recipient` */
    recipient: (string, ContactFields, RawInput) -> string)

  /** No callback registered: every filter returns the value it is given. */
  function DefaultHooks(): Hooks
  {
    Hooks(
      (v: bool, t: string, f: ContactFields, i: RawInput) => v,
      (h: seq<string>, f: ContactFields, i: RawInput) => h,
      (b: string, f: ContactFields, i: RawInput) => b,
      (s: string, f: ContactFields, i: RawInput) => s,
      (r: string, f: ContactFields, i: RawInput) => r)
  }

  /**
   * Sanitisation of the raw input. A missing or null field is sanitised as "";
   * a missing or null token is "" without going through the sanitiser.
   */
  function SanitizeInput(host: Host, input: RawInput): (f: ContactFields)
    ensures !Isset(input, "fullname") ==> f.fullname == host.sanitizeTextField("")
    ensures "fullname" in input && input["fullname"].Str? ==> f.fullname == host.sanitizeTextField(input["fullname"].s)
    ensures !Isset(input, "email") ==> f.email == host.sanitizeEmail("")
    ensures "email" in input && input["email"].Str? ==> f.email == host.sanitizeEmail(input["email"].s)
    ensures !Isset(input, "subject") ==> f.subject == host.sanitizeTextField("")
    ensures "subject" in input && input["subject"].Str? ==> f.subject == host.sanitizeTextField(input["subject"].s)
    ensures !Isset(input, "message") ==> f.message == host.sanitizeTextareaField("")
    ensures "message" in input && input["message"].Str? ==> f.message == host.sanitizeTextareaField(input["message"].s)
    ensures !Isset(input, "token") ==> f.token == ""
    ensures "token" in input && input["token"].Str? ==> f.token == host.sanitizeTextField(input["token"].s)
  {
    ContactFields(
      host.sanitizeTextField(StringOrEmpty(input, "fullname")),
      host.sanitizeEmail(StringOrEmpty(input, "email")),
      host.sanitizeTextField(StringOrEmpty(input, "subject")),
      host.sanitizeTextareaField(StringOrEmpty(input, "message")),
      if Isset(input, "token") then host.sanitizeTextField(ToString(input["token"])) else "")
  }

  /**
   * The field checks, in order: fullname, subject, message, then the email
   * address. Each error is reported exactly when its check fails and every
   * earlier one passed; no error is reported when all four pass.
   */
  function Validate(host: Host, f: ContactFields): (r: Option<ContactError>)
    ensures r == None <==> f.fullname != "" && f.subject != "" && f.message != "" && host.isEmail(f.email)
    ensures r == Some(FullnameRequired) <==> f.fullname == ""
    ensures r == Some(SubjectRequired) <==> f.fullname != "" && f.subject == ""
    ensures r == Some(MessageRequired) <==> f.fullname != "" && f.subject != "" && f.message == ""
    ensures r == Some(InvalidEmail) <==>
      f.fullname != "" && f.subject != "" && f.message != "" && !host.isEmail(f.email)
  {
    if f.fullname == "" then Some(FullnameRequired)
    else if f.subject == "" then Some(SubjectRequired)
    else if f.message == "" then Some(MessageRequired)
    else if !host.isEmail(f.email) then Some(InvalidEmail)
    else None
  }

  /** A check: whether it passed, and the error it reports when it did not. */
  datatype Check = Check(passed: bool, error: ContactError)

  /** The validation checks as a list, in the order the handler runs them. */
  function ValidationChecks(host: Host, f: ContactFields): seq<Check>
  {
    [ Check(f.fullname != "", FullnameRequired),
      Check(f.subject != "", SubjectRequired),
      Check(f.message != "", MessageRequired),
      Check(host.isEmail(f.email), InvalidEmail) ]
  }

  /** The error of the first failing check of a list, if any check fails. */
  function FirstFailure(checks: seq<Check>): Option<ContactError>
  {
    if checks == [] then None
    else if !checks[0].passed then Some(checks[0].error)
    else FirstFailure(checks[1..])
  }

  /**
   * FirstFailure reports nothing exactly when every check passes, and
   * otherwise the error of a failing check that only passing checks precede.
   */
  lemma {:induction false} FirstFailureIsEarliest(checks: seq<Check>)
    ensures FirstFailure(checks) == None <==> forall i :: 0 <= i < |checks| ==> checks[i].passed
    ensures FirstFailure(checks).Some? ==>
      exists i :: 0 <= i < |checks| && !checks[i].passed && checks[i].error == FirstFailure(checks).value &&
        forall j :: 0 <= j < i ==> checks[j].passed
  {
    if checks != [] && checks[0].passed {
      var rest := checks[1..];
      FirstFailureIsEarliest(rest);
      if FirstFailure(rest).Some? {
        var i :| 0 <= i < |rest| && !rest[i].passed && rest[i].error == FirstFailure(rest).value &&
          forall j :: 0 <= j < i ==> rest[j].passed;
        assert checks[i + 1] == rest[i];
        assert forall j :: 0 <= j < i + 1 ==> checks[j].passed by {
          forall j | 0 <= j < i + 1 ensures checks[j].passed {
            if j > 0 { assert checks[j] == rest[j - 1]; }
          }
        }
      } else {
        forall i | 0 <= i < |checks| ensures checks[i].passed {
          if i > 0 { assert checks[i] == rest[i - 1]; }
        }
      }
    } else if checks != [] {
      assert !checks[0].passed;
    }
  }

  /** The handler reports the error of the first failing check in its list. */
  lemma ValidateReportsFirstFailure(host: Host, f: ContactFields)
    ensures Validate(host, f) == FirstFailure(ValidationChecks(host, f))
  {
    var cs := ValidationChecks(host, f);
    var c1 := cs[1..];
    var c2 := c1[1..];
    var c3 := c2[1..];
    assert c3[1..] == [];
    assert FirstFailure(c3) == if host.isEmail(f.email) then None else Some(InvalidEmail);
    assert FirstFailure(c2) == if f.message == "" then Some(MessageRequired) else FirstFailure(c3);
    assert FirstFailure(c1) == if f.subject == "" then Some(SubjectRequired) else FirstFailure(c2);
  }

  /**
   * The recipient: the sanitised `contact_email` setting when `is_email`
   * accepts it, otherwise the sanitised `admin_email` option, and none when
   * `is_email` rejects that too.
   */
  function ResolveRecipient(host: Host, settings: map<string, string>, adminEmail: Value): (r: Option<string>)
    ensures r.Some? ==> host.isEmail(r.value)
    ensures var configured := if Settings.ContactEmailKey in settings
                              then host.sanitizeEmail(settings[Settings.ContactEmailKey]) else "";
            var admin := host.sanitizeEmail(ToString(adminEmail));
            && (host.isEmail(configured) ==> r == Some(configured))
            && (!host.isEmail(configured) && host.isEmail(admin) ==> r == Some(admin))
            && (r == None <==> !host.isEmail(configured) && !host.isEmail(admin))
  {
    var configured := if Settings.ContactEmailKey in settings
                      then host.sanitizeEmail(settings[Settings.ContactEmailKey]) else "";
    var candidate := if host.isEmail(configured) then configured else host.sanitizeEmail(ToString(adminEmail));
    if host.isEmail(candidate) then Some(candidate) else None
  }

  /** The mail subject. */
  function MailSubject(subject: string): string
  {
    "[Nyassobi] " + subject
  }

  /** The nine lines of the mail body template. */
  function BodyLines(f: ContactFields): seq<string>
  {
    [ "New Nyassobi contact request received:",
      "",
      "Full name: " + f.fullname,
      "Email: " + f.email,
      "",
      "Subject: " + f.subject,
      "",
      "Message:",
      f.message ]
  }

  /** The mail body: the template lines joined by newlines. */
  function MailBody(f: ContactFields): string
  {
    Implode("\n", BodyLines(f))
  }

  lemma ImplodeSnoc(sep: string, parts: seq<string>, k: nat)
    requires 1 <= k < |parts|
    ensures Implode(sep, parts[..k + 1]) == Implode(sep, parts[..k]) + sep + parts[k]
  {
    assert parts[..k + 1][..k] == parts[..k];
  }

  /** `implode` of nine parts puts the separator between consecutive parts. */
  lemma ImplodeNine(sep: string, p: seq<string>)
    requires |p| == 9
    ensures Implode(sep, p) ==
      p[0] + sep + p[1] + sep + p[2] + sep + p[3] + sep + p[4] + sep + p[5] + sep + p[6] + sep + p[7] + sep + p[8]
  {
    assert Implode(sep, p[..1]) == p[0];
    ImplodeSnoc(sep, p, 1);
    ImplodeSnoc(sep, p, 2);
    ImplodeSnoc(sep, p, 3);
    ImplodeSnoc(sep, p, 4);
    ImplodeSnoc(sep, p, 5);
    ImplodeSnoc(sep, p, 6);
    ImplodeSnoc(sep, p, 7);
    ImplodeSnoc(sep, p, 8);
    assert p[..9] == p;
  }

  /** The body spelled out: the four fields sit at fixed places in a fixed text. */
  lemma MailBodyLayout(f: ContactFields)
    ensures MailBody(f) ==
      "New Nyassobi contact request received:" + "\n" + "\n" +
      ("Full name: " + f.fullname) + "\n" + ("Email: " + f.email) + "\n" + "\n" +
      ("Subject: " + f.subject) + "\n" + "\n" + "Message:" + "\n" + f.message
  {
    ImplodeNine("\n", BodyLines(f));
  }

  /**
   * The headers before the headers filter: the content type, then a
   * Reply-To naming the requester when the sanitised email is truthy.
   */
  function ComposeHeaders(fullname: string, email: string): (headers: seq<string>)
    ensures |headers| == (if Truthy(email) then 2 else 1) && headers[0] == ContentTypeHeader
    ensures Truthy(email) && fullname != "" ==> headers[1] == "Reply-To: " + fullname + " <" + email + ">"
    ensures Truthy(email) && fullname == "" ==> headers[1] == "Reply-To: " + email + " <" + email + ">"
  {
    [ContentTypeHeader] +
    if Truthy(email) then ["Reply-To: " + (if fullname != "" then fullname else email) + " <" + email + ">"] else []
  }

  /**
   * Whenever validation passes (and `is_email` rejects "" and "0"), the
   * headers are exactly the content type and a Reply-To with the requester's
   * name and address.
   */
  lemma ReplyToOnValidInput(host: Host, f: ContactFields)
    requires RejectsTrivial(host)
    requires Validate(host, f) == None
    ensures ComposeHeaders(f.fullname, f.email) ==
      [ContentTypeHeader, "Reply-To: " + f.fullname + " <" + f.email + ">"]
  {
  }

  /** The mail after the headers, body, subject and recipient filters. */
  function FilteredMail(hooks: Hooks, f: ContactFields, input: RawInput, recipient: string): (mail: Mail)
    ensures mail.to == hooks.recipient(recipient, f, input)
    ensures mail.subject == hooks.subject("[Nyassobi] " + f.subject, f, input)
    ensures mail.body == hooks.body(MailBody(f), f, input)
    ensures mail.headers == hooks.headers(ComposeHeaders(f.fullname, f.email), f, input)
    ensures hooks == DefaultHooks() ==>
      mail == Mail(recipient, "[Nyassobi] " + f.subject, MailBody(f), ComposeHeaders(f.fullname, f.email))
  {
    Mail(
      hooks.recipient(recipient, f, input),
      hooks.subject(MailSubject(f.subject), f, input),
      hooks.body(MailBody(f), f, input),
      hooks.headers(ComposeHeaders(f.fullname, f.email), f, input))
  }

  /**
   * With no filter callbacks, the token check passes and the dispatched mail
   * has the fixed subject prefix, the fixed body layout and the composed headers.
   */
  lemma DefaultHooksMail(f: ContactFields, input: RawInput, recipient: string)
    ensures DefaultHooks().validateToken(true, f.token, f, input)
    ensures FilteredMail(DefaultHooks(), f, input, recipient) == Mail(
      recipient,
      "[Nyassobi] " + f.subject,
      "New Nyassobi contact request received:" + "\n" + "\n" +
      ("Full name: " + f.fullname) + "\n" + ("Email: " + f.email) + "\n" + "\n" +
      ("Subject: " + f.subject) + "\n" + "\n" + "Message:" + "\n" + f.message,
      ComposeHeaders(f.fullname, f.email))
  {
    MailBodyLayout(f);
  }

  /**
   * `handle_contact_mutation`. `userErrorAvailable` says whether GraphQL's
   * UserError class exists, `stored` is the plugin's stored option,
   * `adminEmail` the `admin_email` option and `transport` is `wp_mail`.
   * `sent` is the mail handed to the transport, if any.
   */
  method HandleContactMutation(
    host: Host, hooks: Hooks, userErrorAvailable: bool, input: RawInput,
    stored: Value, adminEmail: Value, transport: Mail -> bool)
    returns (outcome: Outcome, sent: Option<Mail>)
    // Without the UserError class nothing is validated or sent.
    ensures !userErrorAvailable ==> outcome == Payload(false, HandlerUnavailableMessage) && sent == None
    // Each stage, in order; the first one that fails decides the outcome.
    ensures userErrorAvailable ==>
      var f := SanitizeInput(host, input);
      var recipient := ResolveRecipient(host, Settings.GetSettings(stored), adminEmail);
      if Validate(host, f).Some? then
        outcome == Throw(Validate(host, f).value) && sent == None
      else if !hooks.validateToken(true, f.token, f, input) then
        outcome == Throw(SecurityValidationFailed) && sent == None
      else if recipient.None? then
        outcome == Throw(NoRecipient) && sent == None
      else
        var mail := FilteredMail(hooks, f, input, recipient.value);
        if !host.isEmail(mail.to) then
          outcome == Throw(NoRecipient) && sent == None
        else
          sent == Some(mail) &&
          outcome == (if transport(mail) then Payload(true, SentMessage) else Payload(false, RetryLaterMessage))
    // No error path reaches the transport, and a mail only goes to an accepted address.
    ensures outcome.UserError? ==> sent == None && outcome.message == ErrorMessage(outcome.error)
    ensures sent.Some? ==>
      userErrorAvailable && Validate(host, SanitizeInput(host, input)) == None && host.isEmail(sent.value.to)
    ensures outcome == Payload(true, SentMessage) <==> sent.Some? && transport(sent.value)
  {
    if !userErrorAvailable {
      return Payload(false, HandlerUnavailableMessage), None;
    }

    var sanitized := SanitizeInput(host, input);
    var fullname, email, subject, message, token :=
      sanitized.fullname, sanitized.email, sanitized.subject, sanitized.message, sanitized.token;

    if fullname == "" {
      return Throw(FullnameRequired), None;
    }
    if subject == "" {
      return Throw(SubjectRequired), None;
    }
    if message == "" {
      return Throw(MessageRequired), None;
    }
    if !host.isEmail(email) {
      return Throw(InvalidEmail), None;
    }

    var tokenValid := hooks.validateToken(true, token, sanitized, input);
    if !tokenValid {
      return Throw(SecurityValidationFailed), None;
    }

    var settings := Settings.GetSettings(stored);
    var recipient := if Settings.ContactEmailKey in settings
                     then host.sanitizeEmail(settings[Settings.ContactEmailKey]) else "";
    if !host.isEmail(recipient) {
      recipient := host.sanitizeEmail(ToString(adminEmail));
    }
    if !host.isEmail(recipient) {
      return Throw(NoRecipient), None;
    }

    var mailSubject := MailSubject(subject);
    var body := Implode("\n", BodyLines(sanitized));

    var headers := [ContentTypeHeader];
    if Truthy(email) {
      var replyToName := if fullname != "" then fullname else email;
      headers := headers + ["Reply-To: " + replyToName + " <" + email + ">"];
    }

    assert headers == ComposeHeaders(fullname, email);
    headers := hooks.headers(headers, sanitized, input);
    body := hooks.body(body, sanitized, input);
    mailSubject := hooks.subject(mailSubject, sanitized, input);
    recipient := hooks.recipient(recipient, sanitized, input);

    if !host.isEmail(recipient) {
      return Throw(NoRecipient), None;
    }

    var mail := Mail(recipient, mailSubject, body, headers);
    assert mail == FilteredMail(hooks, sanitized, input, ResolveRecipient(host, settings, adminEmail).value);
    var delivered := transport(mail);
    sent := Some(mail);
    if !delivered {
      outcome := Payload(false, RetryLaterMessage);
    } else {
      outcome := Payload(true, SentMessage);
    }
  }
}
