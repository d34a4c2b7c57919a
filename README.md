# Sponsoration email service — a verified model

This project models the email service of the Sponsoration API
(`internal/service`):

- the three HTML templates (verification code, password reset, welcome), each
  one `fmt.Sprintf` over a fixed literal;
- how `NewEmailService` resolves its configuration from the environment;
- how `SendEmail` either logs a preview (development) or makes exactly one
  request to the mail provider (production);
- the envelopes that `SendVerificationEmail`, `SendPasswordResetEmail` and
  `SendWelcomeEmail` build.

It is written in Dafny as six modules:

- `Text` (`text.dfy`) holds substrings, prefixes and suffixes, Go's `%d`
  printing of an `int`, right-trimming of white space, and UTF-8 byte length.
- `Format` (`format.dfy`) holds `fmt.Sprintf` over a format cut at its verbs,
  with the general facts about what it prints: each argument verbatim between
  its neighbouring pieces, the arguments in order, and which words the output
  can contain.
- `EmailTemplates` (`templates.dfy`) spells out the three template literals
  character for character, from named parts (the shared head, header band,
  expiry note and footer). It proves what each rendered email contains.
- `TemplateKeywords` (`keywords.dfy`) proves which words each template's own
  text lacks, the other half of what the template tests check.
- `ClosingTag` (`closing.dfy`) proves that each rendered email holds exactly
  one `</html>`, the template's own, whenever its inputs hold none.
- `Service` (`service.dfy`) holds the configuration, `SendEmail` and the three
  send operations.

Where the Go code reads the environment, the clock or the network, the model
takes the value as a parameter instead:

- an environment map in place of `os.Getenv`;
- the year in place of `time.Now().Year()`;
- a `ProviderReply` in place of the SendGrid client's response.

What would be logged is returned as a value.

The template proofs follow one pattern. A predicate states what the pieces of
a format hold: the top and the end of a document, the phrases, and a
separator on each side of every verb. A lemma proves that predicate of the
concrete pieces. Lemmas over arbitrary pieces then prove what any format with
those pieces prints.

The proofs that a literal lacks a word go piece by piece. Each literal chunk
of a part lacks some character of the word (or a pair or triple of adjacent
characters). Every seam between chunks and parts has, on one side, a
character the word does not use, so no occurrence can cross it. A part whose
first and last characters are outside the word, and which does not contain
it, is `Sealed`; the `<Part>Seals<Word>` lemmas prove this of every part the
three templates use. `ClosingTag` does the same for `</html>`, which starts
with `<` and ends with `>`, characters that many chunks begin or end with; a
part is `Shut` when its first character cannot continue `</html>` and its last
character cannot start it, and when it does not contain it.

## Model

| member | source | states |
|---|---|---|
| Text.Decimal | internal/service/email_templates.go:59 | `%d` prints a non-empty string of digits, with a leading minus sign exactly when the number is negative. |
| Text.DecimalRoundTrip | internal/service/email_templates.go:59 | The year printed by `%d` reads back to the same number, so different years print differently. |
| Text.DecimalContainsOnlyNumerals | internal/service/email_templates.go:59 | A printed year holds only digits and a minus sign, so no word containing another character occurs in it. |
| Text.TrimRightSpaceDropsSpace | internal/service/email_templates.go:68-69 | Trimming trailing white space removes exactly the white space after a text that does not end in white space. |
| Text.PrefixOrders | internal/service/email_templates.go:143 | A text starting with `a + x + b + y + c` holds `x` before `y`. |
| Format.SprintfLength | internal/service/email_templates.go:11-69 | `Sprintf` adds and drops nothing: its output is exactly as long as the pieces and the arguments together. |
| Format.SprintfPrefix | internal/service/email_templates.go:11-69 | The output of the first `m` verbs is a prefix of the whole `Sprintf` output. |
| Format.SprintfArgInContext | internal/service/email_templates.go:69 | Each argument appears verbatim, with the end of the piece before its verb right before it and the start of the piece after it right after it. |
| Format.SprintfArgsInOrder | internal/service/email_templates.go:143 | Arguments are printed in the order given: each ends before the next starts. |
| Format.SprintfContainsPiece | internal/service/email_templates.go:11-69 | Every piece of the literal appears in the output. |
| Format.SprintfContainsIff | internal/service/email_templates.go:11-69 | When the format has a character `p` does not use around each verb, `p` occurs in the output if and only if it occurs in a piece or in an argument. |
| Format.SprintfEndsWith | internal/service/email_templates.go:68-69 | Once trailing white space is trimmed, the output ends as the last piece does. |
| EmailTemplates.FramedSprintf | internal/service/email_templates.go:11-69 | A format whose first piece opens an HTML document and whose last piece closes one prints a complete document, whatever the arguments. |
| EmailTemplates.DocumentTopOpensDocument | internal/service/email_templates.go:11-23 | The shared top of every template starts with a newline and `<!DOCTYPE html>` and declares html, head, `charset="utf-8"`, the viewport meta, `</head>`, `<body` and `<table`, whatever the title, colour and heading. |
| EmailTemplates.DocumentClosingClosesDocument | internal/service/email_templates.go:63-69 | The shared ending closes table, body and html; trimmed of trailing white space, any text ending with it ends with `</html>`. |
| EmailTemplates.VerificationPiecesHold | internal/service/email_templates.go:11-69 | The verification literal opens and closes a document and holds the heading, the brand and the 24-hour expiry. The code sits between a space and a newline, the year between `© ` and ` Sponsoration…`. |
| EmailTemplates.VerificationEmail | internal/service/email_templates.go:9-70 | For every code and year, the verification email is a complete HTML document: doctype first, charset and viewport declared, `</html>` last apart from white space. |
| EmailTemplates.VerificationEmailShowsCode | internal/service/email_templates.go:42-59 | The code is printed verbatim and unescaped right after the code-box opening. The footer reads `© <year> Sponsoration. All rights reserved.` |
| EmailTemplates.VerificationEmailMentions | internal/service/email_templates.go:27-47 | The email holds "Verify Your Email Address", "24 hours" and "Sponsoration". |
| EmailTemplates.VerificationFormatKeywords | internal/service/email_templates.go:11-69 | With any year text free of the word, a keyword occurs in the output exactly when it occurs in the code or in the literal. |
| EmailTemplates.VerificationEmailContains | internal/service/email_templates.go:9-70 | A keyword (such as "Password", "Welcome" or "%s") occurs in the verification email exactly when it occurs in the code or in the template's own text. |
| TemplateKeywords.VerificationFormatLacksOtherWords | internal/service/email_templates.go:11-69 | No piece of the verification literal contains "Password", "Welcome" or `%s`. |
| TemplateKeywords.VerificationEmailLacksOtherWords | internal/service/email_service_test.go:272-287 | A verification email contains "Password", "Welcome" or `%s` exactly when its code does. |
| EmailTemplates.ResetPiecesHold | internal/service/email_templates.go:75-143 | The reset literal opens and closes a document and holds the title, 🔒, the expiry and "Security Tip". The greeting and the code each sit between a space and a newline, the year between `© ` and ` Sponsoration…`. |
| EmailTemplates.ResetEmail | internal/service/email_templates.go:73-144 | For every code, greeting and year, the reset email is a complete HTML document. |
| EmailTemplates.ResetEmailShowsInputs | internal/service/email_templates.go:100-109 | The email starts with the literal up to the first verb, the greeting verbatim, the literal between the verbs, the code verbatim, then the rest. So the greeting comes before the code. |
| EmailTemplates.ResetEmailMentions | internal/service/email_templates.go:81-133 | The email holds "Reset Your Password", 🔒, "24 hours", "Security Tip" and the copyright line of the year. |
| EmailTemplates.ResetFormatKeywords | internal/service/email_templates.go:75-143 | With any year text free of the word, a keyword occurs in the output exactly when it occurs in the greeting, the code or the literal. |
| EmailTemplates.ResetEmailContains | internal/service/email_templates.go:73-144 | A keyword occurs in the reset email exactly when it occurs in the greeting, the code or the template's own text. |
| TemplateKeywords.ResetFormatLacksOtherWords | internal/service/email_templates.go:75-143 | No piece of the reset literal contains "Verify", "Welcome" or `%s`. |
| TemplateKeywords.ResetEmailLacksOtherWords | internal/service/email_service_test.go:289-305 | A reset email contains "Verify", "Welcome" or `%s` exactly when its greeting or its code does. |
| EmailTemplates.WelcomePiecesHold | internal/service/email_templates.go:149-213 | The welcome literal opens and closes a document and holds its title, 🎉 and "Go to Dashboard". Every verb sits between separators: `Hi ` and `,`, `href="` and `"`, `© ` and a space, `href="` and `/privacy/…`. |
| EmailTemplates.WelcomeEmail | internal/service/email_templates.go:147-214 | For every name, URL and year, the welcome email is a complete HTML document. |
| EmailTemplates.WelcomeEmailShowsInputs | internal/service/email_templates.go:172-203 | The email holds `Hi <name>,` and `<a href="<url>"`, and links `<url>/privacy/policy` and `<url>/privacy/terms`. |
| EmailTemplates.WelcomeEmailMentions | internal/service/email_templates.go:155-199 | The email holds "Welcome to Sponsoration", 🎉, "Go to Dashboard" and the copyright line of the year. |
| EmailTemplates.WelcomeFormatKeywords | internal/service/email_templates.go:149-213 | With any year text free of the word, a keyword occurs in the output exactly when it occurs in the name, the URL or the literal. |
| EmailTemplates.WelcomeEmailContains | internal/service/email_templates.go:147-214 | A keyword occurs in the welcome email exactly when it occurs in the name, the URL or the template's own text. |
| TemplateKeywords.WelcomeFormatLacksOtherWords | internal/service/email_templates.go:149-213 | No piece of the welcome literal contains "Verify", "Reset", "code" or `%s`. |
| TemplateKeywords.WelcomeEmailLacksOtherWords | internal/service/email_service_test.go:306-322 | A welcome email contains "Verify", "Reset", "code" or `%s` exactly when its name or its URL does. |
| ClosingTag.FooterAfterYearEndsWithHtmlClose | internal/service/email_templates.go:59-69 | The footer after the year is the copyright line, the closing tags and then `</html>` and white space, with no other `</html>` before it. |
| ClosingTag.WelcomeAfterTermsLinkEndsWithHtmlClose | internal/service/email_templates.go:203-213 | The welcome literal after its last verb is the terms path and the closing tags, then `</html>` and white space, with no other `</html>` before it. |
| ClosingTag.VerificationLayoutClosesOnce | internal/service/email_templates.go:11-69 | Three pieces bordered like the verification literal, only the last ending in `</html>` and white space, print exactly one `</html>` for any code and year text free of it. |
| ClosingTag.ResetLayoutClosesOnce | internal/service/email_templates.go:75-143 | The same for four pieces bordered like the reset literal, with any greeting, code and year text free of `</html>`. |
| ClosingTag.WelcomeLayoutClosesOnce | internal/service/email_templates.go:149-213 | The same for six pieces bordered like the welcome literal, with any name, URL and year text free of `</html>`; the URL is followed by `"` or by a path, and neither can complete a `</html>` begun in the URL. |
| ClosingTag.VerificationFormatSplitsAtHtmlClose | internal/service/email_templates.go:11-69 | The verification literal is three pieces with those borders, the last one ending in its only `</html>` (line 68) and white space. |
| ClosingTag.ResetFormatSplitsAtHtmlClose | internal/service/email_templates.go:75-143 | The reset literal is four such pieces, the last ending in its only `</html>` (line 142) and white space. |
| ClosingTag.WelcomeFormatSplitsAtHtmlClose | internal/service/email_templates.go:149-213 | The welcome literal is six such pieces, the last ending in its only `</html>` (line 212) and white space. |
| ClosingTag.VerificationFormatClosesOnce | internal/service/email_templates.go:11-69 | The verification format printed with a code and year text free of `</html>` holds exactly one `</html>`. |
| ClosingTag.ResetFormatClosesOnce | internal/service/email_templates.go:75-143 | The reset format printed with a greeting, code and year text free of `</html>` holds exactly one `</html>`. |
| ClosingTag.WelcomeFormatClosesOnce | internal/service/email_templates.go:149-213 | The welcome format printed with a name, URL and year text free of `</html>` holds exactly one `</html>`. |
| ClosingTag.VerificationEmailClosesOnce | internal/service/email_templates.go:11-69 | A verification email whose code holds no `</html>` holds exactly one, in every year. |
| ClosingTag.ResetEmailClosesOnce | internal/service/email_templates.go:75-143 | A reset email whose greeting and code hold no `</html>` holds exactly one, in every year. |
| ClosingTag.WelcomeEmailClosesOnce | internal/service/email_templates.go:149-213 | A welcome email whose name and URL hold no `</html>` holds exactly one, in every year. |
| Service.EmptyVariableReadsAsUnset | internal/service/email_service.go:30-33 | A variable set to "" reads like an unset one, so the service built from the environment and the link base it reads are the same either way. |
| Service.NewEmailService | internal/service/email_service.go:29-54 | The API key is stored verbatim. A configured sender address and name are kept; an unset one becomes "noreply@yourdomain.com" or "Sponsoration". Development mode holds exactly when `ENV` is "" or "development". The warning is logged exactly when the key is empty in production. |
| Service.SenderIsNeverEmpty | internal/service/email_service.go:35-40 | The resolved sender address and name are never empty. |
| Service.ProductionUnlessDevelopment | internal/service/email_service.go:42 | Any `ENV` other than "" and "development" means production. |
| Service.WarningOnlyInProduction | internal/service/email_service.go:44-46 | A development service never warns. A production service warns exactly when it has no key. |
| Service.NewEmailServiceTable | internal/service/email_service_test.go:17-54 | The four environments of the construction test give the expected sender, name and mode. |
| Service.DevPreview | internal/service/email_service.go:64-68 | HTML over 200 bytes: the preview is its first 200 bytes plus "...", 203 bytes in all. Otherwise the preview is the plain text. |
| Service.DevPreviewOfAsciiHtml | internal/service/email_service.go:64-65 | For ASCII HTML the preview is the first 200 characters followed by "...". |
| Service.MessageFor | internal/service/email_service.go:73-76 | The message comes from the service's sender and goes to a recipient without a name. The options can be read back from it unchanged. |
| Service.MessagesComeFromConfiguredSender | internal/service/email_service.go:73 | Every message is sent from the configured sender address and name, or the defaults where they are unset; neither is ever empty. |
| Service.SendEmail | internal/service/email_service.go:57-92 | In development: the preview is logged, nothing is sent, and there is no error. In production: exactly one request, carrying the service's key, sender, recipient, subject, text and HTML. The error is nil exactly when the provider replies with a status below 400. Otherwise it is `failed to send email: <reason>` or `sendgrid error: <status> - <body>`. |
| Service.DevelopmentNeverSends | internal/service/email_service.go:59-70 | In development a send never fails and never reaches the provider: the outcome is the same whatever the provider would reply. |
| Service.ProviderErrorNamesReply | internal/service/email_service.go:85-88 | A provider error contains the decimal status and the body, and the status reads back from its digits. |
| Service.TransportFailureNamesReason | internal/service/email_service.go:80-83 | A transport failure is reported as an error ending with its reason. |
| Service.VerificationOptions | internal/service/email_service.go:96-101 | The options go to the given address with subject "Verify Your Email Address". The text is exactly `Your verification code is: ` followed by the code, so it ends with the code. The HTML is the verification email of the code and year. |
| Service.SendVerificationEmail | internal/service/email_service.go:95-102 | It never fails in development. In production it requests subject "Verify Your Email Address", text `Your verification code is: <code>` and the verification HTML of the code. It makes the request of `SendEmail` for these options, with the service's key and sender, and returns the same error as `SendEmail`: nil exactly when the provider replies below 400, `failed to send email: <reason>` or `sendgrid error: <status> - <body>` otherwise. In development it logs the preview of these options. |
| Service.VerificationOptionsCarryCode | internal/service/email_service.go:99-100 | The plain text ends with the code, and the HTML shows the same code verbatim in its code box. |
| Service.ResetGreeting | internal/service/email_service.go:106-109 | The greeting is `Hi <first name>,` when a first name is given and non-empty, and "Hello," otherwise. |
| Service.ResetGreetingIgnoresExtraNames | internal/service/email_service.go:107-108 | Names after the first never change the greeting. |
| Service.ResetGreetingTable | internal/service/email_service_test.go:193-213 | The test's names `["John Doe"]`, none and `[""]` give "Hi John Doe,", "Hello," and "Hello,". |
| Service.ResetOptions | internal/service/email_service.go:111-116 | The options go to the given address with subject "Reset Your Password". The text is exactly `Your password reset code is: ` followed by the code, so it ends with the code. The HTML is the reset email of the code and the greeting. |
| Service.SendPasswordResetEmail | internal/service/email_service.go:105-117 | It never fails in development. In production it requests subject "Reset Your Password", text `Your password reset code is: <code>` and the reset HTML of the code and greeting. It makes the request of `SendEmail` for these options, with the service's key and sender, and returns the same error as `SendEmail`: nil exactly when the provider replies below 400, `failed to send email: <reason>` or `sendgrid error: <status> - <body>` otherwise. In development it logs the preview of these options. |
| Service.ResetOptionsCarryCode | internal/service/email_service.go:114-115 | The plain text ends with the code, and the HTML shows the greeting before that same code. |
| Service.AppURL | internal/service/email_service.go:121-124 | The link base is `APP_URL` when that is set, and "http://localhost:8082" otherwise, so it is never empty. |
| Service.WelcomeOptions | internal/service/email_service.go:126-131 | The options go to the given address with subject "Welcome to Sponsoration!". The text is exactly `Welcome <name>! Thank you for joining Sponsoration.`, so it contains the name. The HTML is the welcome email of the name and link base. |
| Service.SendWelcomeEmail | internal/service/email_service.go:120-132 | It never fails in development. In production it requests subject "Welcome to Sponsoration!", the welcome text with the name, and the welcome HTML of the name and link base. It makes the request of `SendEmail` for these options, with the service's key and sender, and returns the same error as `SendEmail`: nil exactly when the provider replies below 400, `failed to send email: <reason>` or `sendgrid error: <status> - <body>` otherwise. In development it logs the preview of these options. |
| Service.WelcomeOptionsCarryName | internal/service/email_service.go:129-130 | The plain text and the HTML greet the same name, and the HTML's dashboard button links the URL. |
| Service.DevelopmentSendsSucceed | internal/service/email_service_test.go:84-260 | A service built with `ENV=development` succeeds on every send of every kind, whatever the inputs and the provider. |

## Left out

- The SendGrid client (`sendgrid.NewSendClient`, `client.Send`) is a network call. It is replaced by the `ProviderReply` input, and the request it would send is returned as the `Request` effect.
- Logging: the development log's sender, recipient and subject lines, and the success and failure log lines of production, are not modelled. Only the content preview and the missing-key warning flag are returned.
- `os.Getenv` and `os.Clearenv`: the environment is a map passed in, and an absent key reads as "".
- `time.Now().Year()`: the year is a parameter of each template.
- `fmt.Errorf` with `%w` wraps the transport error. Only its message is modelled, not the error chain that `errors.Is` or `errors.Unwrap` would see.
- Text.TrimRightSpace: trims the ASCII white space of Go's `unicode.IsSpace`. The other Unicode spaces (U+0085, U+00A0, …) are not treated as space. The templates end in ASCII white space only.
- Go strings may hold invalid UTF-8. Inputs here are sequences of Unicode scalar values, and byte lengths come from their UTF-8 encoding.
- EmailTemplates.VerificationEmail, EmailTemplates.ResetEmail, EmailTemplates.WelcomeEmail: as in the Go code, the inputs are inserted without HTML escaping, so an input holding `</html>` adds another one; that the email holds exactly one `</html>` is proved for inputs holding none.
- The inline CSS of the templates is kept as literal text, with no properties about styling.
- `cmd/test-email/main.go` (an operator command with console output and sleeps) and the benchmarks of `email_service_test.go` are not part of this model.
