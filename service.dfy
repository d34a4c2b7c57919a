/** The email service of `internal/service/email_service.go`: how it resolves
    its configuration from the environment, how `SendEmail` decides between
    logging (development) and one request to the provider (production), and
    the envelopes the three send operations build around the templates.
    The environment is a map passed in, the provider's reply to the one
    request is an input, and what would be logged is returned as a value. */
module Service {
  import opened Text
  import opened EmailTemplates

  datatype Option<T> = None | Some(value: T)

  // ---------------------------------------------------------------------------
  // Configuration
  // ---------------------------------------------------------------------------

  /** The process environment; a variable that is not set reads as "". */
  type Environment = map<string, string>

  /** `os.Getenv`. */
  function Getenv(env: Environment, key: string): string
  {
    if key in env then env[key] else ""
  }

  /** `os.Getenv` cannot tell an unset variable from one set to "", so the
      service built from an environment, and the link base it reads when it
      sends, are the same either way. */
  lemma EmptyVariableReadsAsUnset(env: Environment, key: string)
    ensures Getenv(env[key := ""], key) == Getenv(env - {key}, key) == ""
    ensures NewEmailService(env[key := ""]) == NewEmailService(env - {key})
    ensures AppURL(env[key := ""]) == AppURL(env - {key})
  {
    assert forall k :: Getenv(env[key := ""], k) == Getenv(env - {key}, k);
  }

  const DefaultFromEmail: string := "noreply@yourdomain.com"
  const DefaultFromName: string := "Sponsoration"

  /** The fields of `EmailService`, set once by `NewEmailService`. */
  datatype EmailService = EmailService(apiKey: string, fromEmail: string, fromName: string, isDev: bool)

  /** The service and whether construction logged the missing-key warning. */
  datatype Construction = Construction(service: EmailService, warned: bool)

  /** The mode predicate of line 42: an unset `ENV` counts as development. */
  predicate IsDevelopment(envName: string) {
    envName == "development" || envName == ""
  }

  /** `NewEmailService()` (lines 29-54) run in the environment `env`. */
  function NewEmailService(env: Environment): (r: Construction)
    ensures r.service.apiKey == Getenv(env, "SENDGRID_API_KEY")
    ensures Getenv(env, "SENDGRID_FROM_EMAIL") != "" ==> r.service.fromEmail == Getenv(env, "SENDGRID_FROM_EMAIL")
    ensures Getenv(env, "SENDGRID_FROM_EMAIL") == "" ==> r.service.fromEmail == DefaultFromEmail
    ensures Getenv(env, "SENDGRID_FROM_NAME") != "" ==> r.service.fromName == Getenv(env, "SENDGRID_FROM_NAME")
    ensures Getenv(env, "SENDGRID_FROM_NAME") == "" ==> r.service.fromName == DefaultFromName
    ensures r.service.isDev <==> Getenv(env, "ENV") == "development" || Getenv(env, "ENV") == ""
    ensures r.warned <==> r.service.apiKey == "" && !r.service.isDev
  {
    var apiKey := Getenv(env, "SENDGRID_API_KEY");
    var fromEmail := Getenv(env, "SENDGRID_FROM_EMAIL");
    var fromName := Getenv(env, "SENDGRID_FROM_NAME");
    var isDev := IsDevelopment(Getenv(env, "ENV"));
    Construction(
      EmailService(apiKey,
                   if fromEmail == "" then DefaultFromEmail else fromEmail,
                   if fromName == "" then DefaultFromName else fromName,
                   isDev),
      apiKey == "" && !isDev)
  }

  /** The service always has a sender address and a sender name. */
  lemma SenderIsNeverEmpty(env: Environment)
    ensures NewEmailService(env).service.fromEmail != ""
    ensures NewEmailService(env).service.fromName != ""
  {
  }

  /** Any `ENV` other than "" and "development" means production. */
  lemma ProductionUnlessDevelopment(env: Environment)
    ensures !NewEmailService(env).service.isDev <==> Getenv(env, "ENV") !in {"", "development"}
  {
  }

  /** The warning is a production matter: a development service never warns,
      and a production service warns exactly when it has no key. */
  lemma WarningOnlyInProduction(env: Environment)
    ensures NewEmailService(env).warned ==> !NewEmailService(env).service.isDev
    ensures !NewEmailService(env).service.isDev ==> (NewEmailService(env).warned <==> Getenv(env, "SENDGRID_API_KEY") == "")
  {
  }

  /** The four environments of the construction test table
      (email_service_test.go, lines 17-54). */
  lemma NewEmailServiceTable()
    ensures var r := NewEmailService(map["SENDGRID_API_KEY" := "test-api-key", "SENDGRID_FROM_EMAIL" := "test@example.com",
                                         "SENDGRID_FROM_NAME" := "Test Service", "ENV" := "production"]).service;
            r.fromEmail == "test@example.com" && r.fromName == "Test Service" && !r.isDev
    ensures var r := NewEmailService(map[]).service;
            r.fromEmail == "noreply@yourdomain.com" && r.fromName == "Sponsoration" && r.isDev
    ensures var r := NewEmailService(map["ENV" := "development"]).service;
            r.fromEmail == "noreply@yourdomain.com" && r.fromName == "Sponsoration" && r.isDev
    ensures var r := NewEmailService(map["ENV" := "production", "SENDGRID_API_KEY" := "test-key"]);
            r.service.fromEmail == "noreply@yourdomain.com" && r.service.fromName == "Sponsoration"
            && !r.service.isDev && !r.warned
  {
  }

  // ---------------------------------------------------------------------------
  // Sending
  // ---------------------------------------------------------------------------

  /** `EmailOptions`. */
  datatype EmailOptions = EmailOptions(to: string, subject: string, text: string, html: string)

  /** A name and an address, as `mail.NewEmail` takes them. */
  datatype Address = Address(name: string, email: string)

  /** The message `mail.NewSingleEmail` builds. */
  datatype Message = Message(from: Address, to: Address, subject: string, text: string, html: string)

  /** What the provider's client reports for a request: an error from the
      transport, or a response with its status code and body. */
  datatype ProviderReply = TransportFailure(reason: string) | Replied(statusCode: int, body: string)

  /** What a send does: log a preview of the content, or make one request to
      the provider with the service's key. */
  datatype Effect = DevLog(preview: seq<byte>) | Request(apiKey: string, message: Message)

  /** The effect of a send and the error it returns (`None` for `nil`). */
  datatype Outcome = Outcome(effect: Effect, err: Option<string>)

  /** How many bytes of the HTML the development log shows. */
  const PreviewLimit: nat := 200

  /** The content line of the development log (lines 64-68): the first 200
      bytes of the HTML followed by "...", when the HTML is longer than 200
      bytes; the plain text otherwise. Go's `len` and slicing count bytes, so
      the preview is taken over the UTF-8 encoding. */
  function DevPreview(opts: EmailOptions): (preview: seq<byte>)
    ensures |Utf8(opts.html)| > PreviewLimit ==> |preview| == PreviewLimit + 3
    ensures |Utf8(opts.html)| > PreviewLimit ==> preview[..PreviewLimit] == Utf8(opts.html)[..PreviewLimit]
    ensures |Utf8(opts.html)| > PreviewLimit ==> preview[PreviewLimit..] == Utf8("...")
    ensures |Utf8(opts.html)| <= PreviewLimit ==> preview == Utf8(opts.text)
  {
    var html := Utf8(opts.html);
    if |html| > PreviewLimit then html[..PreviewLimit] + Utf8("...") else Utf8(opts.text)
  }

  /** For ASCII HTML the preview is the first 200 characters and "...". */
  lemma DevPreviewOfAsciiHtml(opts: EmailOptions)
    requires IsAscii(opts.html) && |opts.html| > PreviewLimit
    ensures DevPreview(opts) == Utf8(opts.html[..PreviewLimit] + "...")
  {
    var h := opts.html;
    Utf8Ascii(h);
    assert h == h[..PreviewLimit] + h[PreviewLimit..];
    Utf8Append(h[..PreviewLimit], h[PreviewLimit..]);
    Utf8Ascii(h[..PreviewLimit]);
    Utf8Append(h[..PreviewLimit], "...");
  }

  /** The sender `mail.NewEmail(s.fromName, s.fromEmail)` (line 73). */
  function Sender(s: EmailService): Address {
    Address(s.fromName, s.fromEmail)
  }

  /** The options a message was built from. */
  function OptionsOf(m: Message): EmailOptions {
    EmailOptions(m.to.email, m.subject, m.text, m.html)
  }

  /** The message of lines 73-76: the recipient goes without a name, and
      nothing of the options is lost on the way. */
  function MessageFor(s: EmailService, opts: EmailOptions): (m: Message)
    ensures m.from == Sender(s) && m.to.name == ""
    ensures OptionsOf(m) == opts
  {
    Message(Sender(s), Address("", opts.to), opts.subject, opts.text, opts.html)
  }

  /** Every message goes out from the configured sender, or from the default
      one where the environment leaves it unset, so it never lacks a sender
      name or address. */
  lemma MessagesComeFromConfiguredSender(env: Environment, opts: EmailOptions)
    ensures var from := MessageFor(NewEmailService(env).service, opts).from;
            from.email != "" && from.name != ""
            && (Getenv(env, "SENDGRID_FROM_EMAIL") != "" ==> from.email == Getenv(env, "SENDGRID_FROM_EMAIL"))
            && (Getenv(env, "SENDGRID_FROM_EMAIL") == "" ==> from.email == DefaultFromEmail)
            && (Getenv(env, "SENDGRID_FROM_NAME") != "" ==> from.name == Getenv(env, "SENDGRID_FROM_NAME"))
            && (Getenv(env, "SENDGRID_FROM_NAME") == "" ==> from.name == DefaultFromName)
  {
  }

  const SendFailurePrefix: string := "failed to send email: "
  const ProviderErrorPrefix: string := "sendgrid error: "

  /** `SendEmail(opts)` (lines 57-92), where `reply` is what the provider's
      client reports if it is called. */
  function SendEmail(s: EmailService, opts: EmailOptions, reply: ProviderReply): (o: Outcome)
    ensures s.isDev ==> o == Outcome(DevLog(DevPreview(opts)), None)
    ensures !s.isDev ==> o.effect == Request(s.apiKey, MessageFor(s, opts))
    ensures !s.isDev ==> (o.err == None <==> reply.Replied? && reply.statusCode < 400)
    ensures !s.isDev && reply.TransportFailure? ==> o.err == Some(SendFailurePrefix + reply.reason)
    ensures !s.isDev && reply.Replied? && reply.statusCode >= 400 ==>
              o.err == Some(ProviderErrorPrefix + Decimal(reply.statusCode) + " - " + reply.body)
  {
    if s.isDev then
      Outcome(DevLog(DevPreview(opts)), None)
    else
      var request := Request(s.apiKey, MessageFor(s, opts));
      match reply
      case TransportFailure(reason) => Outcome(request, Some(SendFailurePrefix + reason))
      case Replied(status, body) =>
        if status >= 400 then Outcome(request, Some(ProviderErrorPrefix + Decimal(status) + " - " + body))
        else Outcome(request, None)
  }

  /** In development a send never fails and never reaches the provider: its
      outcome does not depend on what the provider would have replied. */
  lemma DevelopmentNeverSends(s: EmailService, opts: EmailOptions, reply: ProviderReply, other: ProviderReply)
    requires s.isDev
    ensures SendEmail(s, opts, reply).err == None
    ensures SendEmail(s, opts, reply).effect.DevLog?
    ensures SendEmail(s, opts, reply) == SendEmail(s, opts, other)
  {
  }

  /** A provider error names the status code and the body, and the status can
      be read back from the message. */
  lemma ProviderErrorNamesReply(s: EmailService, opts: EmailOptions, status: int, body: string)
    requires !s.isDev && status >= 400
    ensures SendEmail(s, opts, Replied(status, body)).err.Some?
    ensures Contains(SendEmail(s, opts, Replied(status, body)).err.value, Decimal(status))
    ensures Contains(SendEmail(s, opts, Replied(status, body)).err.value, body)
    ensures ParseDecimal(Decimal(status)) == status
  {
    var m := ProviderErrorPrefix + Decimal(status) + " - " + body;
    InfixOccurs(ProviderErrorPrefix, Decimal(status), " - " + body);
    assert ProviderErrorPrefix + Decimal(status) + (" - " + body) == m;
    SuffixOccurs(ProviderErrorPrefix + Decimal(status) + " - ", body);
    DecimalRoundTrip(status);
  }

  /** A transport failure is reported with its reason. */
  lemma TransportFailureNamesReason(s: EmailService, opts: EmailOptions, reason: string)
    requires !s.isDev
    ensures SendEmail(s, opts, TransportFailure(reason)).err.Some?
    ensures HasSuffix(SendEmail(s, opts, TransportFailure(reason)).err.value, reason)
  {
    SuffixOfAppend(SendFailurePrefix, reason);
  }

  // ---------------------------------------------------------------------------
  // The three send operations
  // ---------------------------------------------------------------------------

  const VerificationSubject: string := "Verify Your Email Address"
  const ResetSubject: string := "Reset Your Password"
  const WelcomeSubject: string := "Welcome to Sponsoration!"
  const DefaultAppURL: string := "http://localhost:8082"

  /** The options `SendVerificationEmail` builds (lines 96-101). */
  function VerificationOptions(email: string, code: string, year: int): (o: EmailOptions)
    ensures o.to == email && o.subject == VerificationSubject
    ensures o.text == "Your verification code is: " + code
    ensures HasSuffix(o.text, code) && HasPrefix(o.text, "Your verification code is: ")
    ensures o.html == VerificationEmail(code, year)
  {
    SuffixOfAppend("Your verification code is: ", code);
    PrefixOfAppend("Your verification code is: ", code);
    EmailOptions(email, VerificationSubject, "Your verification code is: " + code, VerificationEmail(code, year))
  }

  /** `SendVerificationEmail(email, code)` in the year `year`. */
  function SendVerificationEmail(s: EmailService, email: string, code: string, year: int, reply: ProviderReply): (o: Outcome)
    ensures s.isDev ==> o.err == None && o.effect.DevLog?
    ensures !s.isDev ==> o.effect.Request? && o.effect.message.to == Address("", email)
    ensures !s.isDev ==> o.effect.message.subject == VerificationSubject
    ensures !s.isDev ==> o.effect.message.text == "Your verification code is: " + code
    ensures !s.isDev ==> o.effect.message.html == VerificationEmail(code, year)
    ensures s.isDev ==> o.effect == DevLog(DevPreview(VerificationOptions(email, code, year)))
    ensures !s.isDev ==> o.effect == Request(s.apiKey, MessageFor(s, VerificationOptions(email, code, year)))
    ensures !s.isDev ==> (o.err == None <==> reply.Replied? && reply.statusCode < 400)
    ensures !s.isDev && reply.TransportFailure? ==> o.err == Some(SendFailurePrefix + reply.reason)
    ensures !s.isDev && reply.Replied? && reply.statusCode >= 400 ==>
              o.err == Some(ProviderErrorPrefix + Decimal(reply.statusCode) + " - " + reply.body)
  {
    SendEmail(s, VerificationOptions(email, code, year), reply)
  }

  /** The plain text and the HTML of the verification email carry the same
      code, the HTML in its code box. */
  lemma VerificationOptionsCarryCode(email: string, code: string, year: int)
    ensures HasSuffix(VerificationOptions(email, code, year).text, code)
    ensures HasPrefix(VerificationOptions(email, code, year).html, VerificationBeforeCode + code + VerificationBeforeYear)
  {
    SuffixOfAppend("Your verification code is: ", code);
    VerificationEmailShowsCode(code, year);
  }

  /** The greeting of lines 106-109: the first of the optional names when it
      is given and not empty, a plain "Hello," otherwise. */
  function ResetGreeting(userName: seq<string>): (greeting: string)
    ensures |userName| > 0 && userName[0] != "" ==> greeting == "Hi " + userName[0] + ","
    ensures (|userName| == 0 || userName[0] == "") ==> greeting == "Hello,"
  {
    if |userName| > 0 && userName[0] != "" then "Hi " + userName[0] + "," else "Hello,"
  }

  /** Only the first name counts: later names never change the greeting. */
  lemma ResetGreetingIgnoresExtraNames(userName: seq<string>, extra: seq<string>)
    requires |userName| > 0
    ensures ResetGreeting(userName + extra) == ResetGreeting(userName)
    ensures ResetGreeting(userName) == ResetGreeting(userName[..1])
  {
    assert (userName + extra)[0] == userName[0];
  }

  /** The greetings of the password-reset test table (lines 193-213). */
  lemma ResetGreetingTable()
    ensures ResetGreeting(["John Doe"]) == "Hi John Doe,"
    ensures ResetGreeting([]) == "Hello,"
    ensures ResetGreeting([""]) == "Hello,"
  {
  }

  /** The options `SendPasswordResetEmail` builds (lines 111-116). */
  function ResetOptions(email: string, code: string, userName: seq<string>, year: int): (o: EmailOptions)
    ensures o.to == email && o.subject == ResetSubject
    ensures o.text == "Your password reset code is: " + code
    ensures HasSuffix(o.text, code) && HasPrefix(o.text, "Your password reset code is: ")
    ensures o.html == ResetEmail(code, ResetGreeting(userName), year)
  {
    SuffixOfAppend("Your password reset code is: ", code);
    PrefixOfAppend("Your password reset code is: ", code);
    EmailOptions(email, ResetSubject, "Your password reset code is: " + code, ResetEmail(code, ResetGreeting(userName), year))
  }

  /** `SendPasswordResetEmail(email, code, userName...)` in the year `year`. */
  function SendPasswordResetEmail(s: EmailService, email: string, code: string, userName: seq<string>, year: int,
                                  reply: ProviderReply): (o: Outcome)
    ensures s.isDev ==> o.err == None && o.effect.DevLog?
    ensures !s.isDev ==> o.effect.Request? && o.effect.message.to == Address("", email)
    ensures !s.isDev ==> o.effect.message.subject == ResetSubject
    ensures !s.isDev ==> o.effect.message.text == "Your password reset code is: " + code
    ensures !s.isDev ==> o.effect.message.html == ResetEmail(code, ResetGreeting(userName), year)
    ensures s.isDev ==> o.effect == DevLog(DevPreview(ResetOptions(email, code, userName, year)))
    ensures !s.isDev ==> o.effect == Request(s.apiKey, MessageFor(s, ResetOptions(email, code, userName, year)))
    ensures !s.isDev ==> (o.err == None <==> reply.Replied? && reply.statusCode < 400)
    ensures !s.isDev && reply.TransportFailure? ==> o.err == Some(SendFailurePrefix + reply.reason)
    ensures !s.isDev && reply.Replied? && reply.statusCode >= 400 ==>
              o.err == Some(ProviderErrorPrefix + Decimal(reply.statusCode) + " - " + reply.body)
  {
    SendEmail(s, ResetOptions(email, code, userName, year), reply)
  }

  /** The plain text and the HTML of the password-reset email carry the same
      code, and the HTML greets before it shows the code. */
  lemma ResetOptionsCarryCode(email: string, code: string, userName: seq<string>, year: int)
    ensures HasSuffix(ResetOptions(email, code, userName, year).text, code)
    ensures OccursBefore(ResetOptions(email, code, userName, year).html, ResetGreeting(userName), code)
  {
    SuffixOfAppend("Your password reset code is: ", code);
    ResetEmailShowsInputs(code, ResetGreeting(userName), year);
  }

  /** The link of the welcome email: `APP_URL`, or the local default when it
      is not set (lines 121-124). */
  function AppURL(env: Environment): (url: string)
    ensures url != ""
    ensures Getenv(env, "APP_URL") != "" ==> url == Getenv(env, "APP_URL")
    ensures Getenv(env, "APP_URL") == "" ==> url == DefaultAppURL
  {
    var url := Getenv(env, "APP_URL");
    if url == "" then DefaultAppURL else url
  }

  /** The options `SendWelcomeEmail` builds (lines 126-131). */
  function WelcomeOptions(email: string, name: string, appURL: string, year: int): (o: EmailOptions)
    ensures o.to == email && o.subject == WelcomeSubject
    ensures o.text == "Welcome " + name + "! Thank you for joining Sponsoration."
    ensures Contains(o.text, name) && HasPrefix(o.text, "Welcome ")
    ensures o.html == WelcomeEmail(name, appURL, year)
  {
    InfixOccurs("Welcome ", name, "! Thank you for joining Sponsoration.");
    PrefixOfAppend("Welcome ", name + "! Thank you for joining Sponsoration.");
    assert "Welcome " + name + "! Thank you for joining Sponsoration." == "Welcome " + (name + "! Thank you for joining Sponsoration.");
    EmailOptions(email, WelcomeSubject, "Welcome " + name + "! Thank you for joining Sponsoration.",
                 WelcomeEmail(name, appURL, year))
  }

  /** `SendWelcomeEmail(email, name)` in the environment `env` (which it reads
      when it sends) and the year `year`. */
  function SendWelcomeEmail(s: EmailService, env: Environment, email: string, name: string, year: int,
                            reply: ProviderReply): (o: Outcome)
    ensures s.isDev ==> o.err == None && o.effect.DevLog?
    ensures !s.isDev ==> o.effect.Request? && o.effect.message.to == Address("", email)
    ensures !s.isDev ==> o.effect.message.subject == WelcomeSubject
    ensures !s.isDev ==> o.effect.message.text == "Welcome " + name + "! Thank you for joining Sponsoration."
    ensures !s.isDev ==> o.effect.message.html == WelcomeEmail(name, AppURL(env), year)
    ensures s.isDev ==> o.effect == DevLog(DevPreview(WelcomeOptions(email, name, AppURL(env), year)))
    ensures !s.isDev ==> o.effect == Request(s.apiKey, MessageFor(s, WelcomeOptions(email, name, AppURL(env), year)))
    ensures !s.isDev ==> (o.err == None <==> reply.Replied? && reply.statusCode < 400)
    ensures !s.isDev && reply.TransportFailure? ==> o.err == Some(SendFailurePrefix + reply.reason)
    ensures !s.isDev && reply.Replied? && reply.statusCode >= 400 ==>
              o.err == Some(ProviderErrorPrefix + Decimal(reply.statusCode) + " - " + reply.body)
  {
    SendEmail(s, WelcomeOptions(email, name, AppURL(env), year), reply)
  }

  /** The plain text and the HTML of the welcome email carry the same name,
      and the HTML links the dashboard at the URL. */
  lemma WelcomeOptionsCarryName(email: string, name: string, appURL: string, year: int)
    ensures Contains(WelcomeOptions(email, name, appURL, year).text, name)
    ensures Contains(WelcomeOptions(email, name, appURL, year).html, HiPrefix + name + ",")
    ensures Contains(WelcomeOptions(email, name, appURL, year).html, HrefOpen + appURL + "\"")
  {
    InfixOccurs("Welcome ", name, "! Thank you for joining Sponsoration.");
    WelcomeEmailShowsInputs(name, appURL, year);
  }

  /** The send tests run a service built with `ENV=development`: every send
      succeeds without reaching the provider, whatever the inputs
      (email_service_test.go, lines 84-260). */
  lemma DevelopmentSendsSucceed(env: Environment, email: string, code: string, name: string,
                                userName: seq<string>, opts: EmailOptions, year: int, reply: ProviderReply)
    requires Getenv(env, "ENV") == "development"
    ensures var s := NewEmailService(env).service;
            SendEmail(s, opts, reply).err == None
            && SendVerificationEmail(s, email, code, year, reply).err == None
            && SendPasswordResetEmail(s, email, code, userName, year, reply).err == None
            && SendWelcomeEmail(s, env, email, name, year, reply).err == None
  {
  }
}
