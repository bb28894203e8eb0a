# Contact-form relay: a Dafny model

This project models the serverless handler in `api/send-email.js`. The handler receives a
contact-form submission from a marketing site. It checks the HTTP method, the four form
fields (`name`, `phone`, `projectType`, `message`) and the SMTP settings in the process
environment. It then composes a plain-text and an HTML email and relays the email through an
SMTP transporter: `verify()` first, then `sendMail()`. It answers with a JSON status body.

The model is split into one module per concern:

- `JsText` (js_text.dfy): JavaScript's `String.prototype.trim`, with the exact set of
  whitespace and line-terminator code points it removes, and the `a || b` fallback between
  strings.
- `HtmlEscape` (html_escape.dfy): `escapeHtml`, a decoder for its five entities, and the
  `\n` → `<br>` step applied to the escaped message.
- `PhoneLink` (phone_link.dfy): the `tel:` link target, which keeps only `+` and `0`-`9`.
- `SmtpConfig` (smtp_config.dfy): the environment map, the required-settings filter, the
  transport options (port with its 587 default, the `secure` flag, credentials) and the
  `to`/`from` fallbacks.
- `ContactEmail` (contact_email.dfy): reading the submission out of the parsed body, the
  required-fields check, the plain-text body, the HTML body as constant markup around the
  interpolated values, and the composed `mailOptions`.
- `ContactHandler` (contact_handler.dfy): the decision cascade as a pure function `Decide`.
  Beside it are a `Response` class standing for `res`, a `MailTransport` class standing for the
  transporter, and the imperative handler `Serve`. `Serve` writes the response along the same
  early-return branches as the source and is proved to agree with `Decide`.

The environment is an explicit `map<string, string>`. An absent key and an empty value both
count as "not set", as `!process.env[k]` treats them. The parsed request body is an
`Option` of a string-valued JSON object; `None` means `JSON.parse` failed, and the handler then
uses `{}`. The outcomes of `verify()` and `sendMail()` are inputs (`CallResult`: resolved, or
rejected with an error message). The formatted submission date is an input string.

The code keeps every `+` in the phone link, wherever it occurs.

Each request builds its own transporter and keeps no state across requests. So two identical
valid submissions give two independent sends, with no deduplication.

## Model

| member | source | states |
|---|---|---|
| JsText.TrimStart | api/send-email.js:29-32 | the result is the suffix of the input left after its longest whitespace prefix: it starts with no whitespace and only whitespace was dropped |
| JsText.TrimEnd | api/send-email.js:29-32 | the result is the prefix of the input before its longest whitespace suffix: it ends with no whitespace and only whitespace was dropped |
| JsText.TrimEmptyIff | api/send-email.js:29-34 | a trimmed field is empty exactly when every character of the original is whitespace or a line terminator |
| JsText.TrimIdempotent | api/send-email.js:29-32 | a trimmed value neither starts nor ends with whitespace, and trimming it again changes nothing |
| JsText.LeadingWhitespace | api/send-email.js:29-32 | the count of leading characters `trim` removes: all of them are whitespace, and the next character, if any, is not |
| JsText.TrailingWhitespace | api/send-email.js:29-32 | the count of trailing characters `trim` removes: all of them are whitespace, and the character before them, if any, is not |
| JsText.Trim | api/send-email.js:29-32 | a trimmed value is the slice of the original that starts right after its leading whitespace, with only whitespace after it, and it neither starts nor ends with whitespace |
| JsText.OrElse | api/send-email.js:60-61 | `a \|\| b` on strings is `a` when `a` is non-empty and `b` otherwise, so it is non-empty exactly when one of them is |
| JsText.OrElseAssociative | api/send-email.js:61 | a chain `a \|\| b \|\| c` picks the first non-empty operand however it is grouped |
| HtmlEscape.Escape | api/send-email.js:14-18 | the escaped text is at least as long as the input, is empty exactly when the input is (the falsy case), and holds no `<`, `>`, `"` or `'` |
| HtmlEscape.EscapeIsEscapedText | api/send-email.js:14-18 | no markup character survives escaping, and every `&` in the output opens one of `&amp;` `&lt;` `&gt;` `&quot;` `&#39;` |
| HtmlEscape.EscapeAmpersands | api/send-email.js:15-17 | every `&` in the escaped text begins one of the five entities |
| HtmlEscape.EscapeConcat | api/send-email.js:15-17 | escaping works character by character: escaping `a + b` gives escaped `a` followed by escaped `b` |
| HtmlEscape.EscapeIdentityIff | api/send-email.js:15-17 | text is left unchanged exactly when it contains none of the five special characters |
| HtmlEscape.UnescapeEscape | api/send-email.js:14-18 | decoding the five entities recovers the original text |
| HtmlEscape.EscapeInjective | api/send-email.js:14-18 | two different strings never escape to the same text |
| HtmlEscape.EscapeTagExample | api/send-email.js:67 | a name written as `<b>` is escaped to `&lt;b&gt;` |
| HtmlEscape.NewlinesToBreaks | api/send-email.js:70 | the message after the line-break step contains no line feed and is no shorter than before |
| HtmlEscape.BreaksRoundTrip | api/send-email.js:70 | on text with no `<`, turning each `<br>` back into a line feed recovers the text |
| HtmlEscape.SafeMessage | api/send-email.js:70 | the message slot is no shorter than the message and holds no line feed |
| HtmlEscape.SafeMessageShape | api/send-email.js:70 | the escaped message with `<br>` breaks has no line feed and no quote, and every `<` in it opens a `<br>` |
| HtmlEscape.SafeMessageRecoverable | api/send-email.js:70 | the message slot decodes back to the trimmed message it came from |
| PhoneLink.PhoneDigits | api/send-email.js:63 | the link target holds only `+` and `0`-`9` and is no longer than the phone field |
| PhoneLink.PhoneDigitsSubsequence | api/send-email.js:63 | the link target is an order-preserving subsequence of the phone field |
| PhoneLink.PhoneDigitsKeepsAll | api/send-email.js:63 | every `+` and digit of the phone field occurs in the link target as often as in the field; no other character occurs |
| PhoneLink.PhoneDigitsFixes | api/send-email.js:63 | a string made only of `+` and digits is its own link target |
| PhoneLink.PhoneDigitsIdempotent | api/send-email.js:63 | deriving the link target twice gives the same result as deriving it once |
| SmtpConfig.MissingKeys | api/send-email.js:41-42 | a key is in the `missing` list exactly when it is required and absent or empty in the environment |
| SmtpConfig.Missing | api/send-email.js:41-42 | the handler's `missing` list holds exactly the required settings that are absent or empty, and at most four of them |
| SmtpConfig.MissingEmptyIff | api/send-email.js:41-43 | `missing` is empty exactly when SMTP_HOST, SMTP_PORT, SMTP_USER and SMTP_PASS are all set |
| SmtpConfig.ParsePort | api/send-email.js:52 | a port value parses exactly when it is a non-empty string of decimal digits |
| SmtpConfig.ParsePortRoundTrip | api/send-email.js:52 | every port number written in decimal reads back as itself |
| SmtpConfig.PortOf | api/send-email.js:52 | an unset SMTP_PORT gives port 587; a set one gives its decimal value, or not-a-number when it is not all digits |
| SmtpConfig.SecureOf | api/send-email.js:53 | `secure` is on exactly when SMTP_SECURE is the string `true` |
| SmtpConfig.TransportOf | api/send-email.js:50-58 | the transport host is SMTP_HOST; the port is SMTP_PORT's value or 587, as `PortOf` says; `secure` is on exactly when SMTP_SECURE is `true`, as `SecureOf` says; credentials are passed exactly when SMTP_USER and SMTP_PASS are both set, and then carry those two values |
| SmtpConfig.RecipientOf | api/send-email.js:60 | `to` is MAIL_TO when set, else SMTP_USER; it is non-empty exactly when one of them is set |
| SmtpConfig.SenderOf | api/send-email.js:61 | `from` is MAIL_FROM when set, else SMTP_USER when set, else `no-reply@marmolesbarreto.local`; it is never empty |
| ContactEmail.BodyOrEmpty | api/send-email.js:8 | a body that does not parse reads as `{}`; a parsed body is used as it is |
| ContactEmail.ReadSubmission | api/send-email.js:29-32 | name, phone and message are the trimmed raw fields; projectType is the raw field, untrimmed; an unparsed body gives four empty fields |
| ContactEmail.SubmissionCompleteIff | api/send-email.js:28-34 | the fields pass exactly when the body parsed, name, phone and message each hold a non-whitespace character, and projectType is non-empty (whitespace alone passes) |
| ContactEmail.PlainText | api/send-email.js:102 | the plain-text body opens with the name line and closes with the labelled message |
| ContactEmail.PlainTextRoundTrip | api/send-email.js:102 | when name, phone and project type are single lines, the four fields can be read back from the plain-text body |
| ContactEmail.SlotsOf | api/send-email.js:63-70 | the name, phone and project slots hold no `<`, `>`, `"` or `'`; the `tel:` target holds only `+` and digits; the message slot has no line feed; the date is passed through |
| ContactEmail.RenderHtml | api/send-email.js:66-95 | the HTML document opens with the layout's head and the escaped name, and closes with the date and the layout's tail |
| ContactEmail.RenderHtmlPieces | api/send-email.js:66-95 | the rendered document is the seven constant pieces interleaved, in source order, with the escaped name, the `tel:` target, the escaped phone and project type, the escaped message with `<br>` breaks, and the date |
| ContactEmail.HtmlSlotsSafe | api/send-email.js:66-95 | only escaped values reach the HTML; the `tel:` target holds only `+` and digits; the message slot has no quote or line feed, and each `<` in it opens `<br>` |
| ContactEmail.HtmlSlotsInjective | api/send-email.js:67-70 | two submissions with the same interpolated HTML values are the same submission |
| ContactEmail.ComposeMail | api/send-email.js:98-104 | `from` and `to` are the sender and recipient fallbacks, so the message always has a sender and has a recipient exactly when MAIL_TO or SMTP_USER is set; the subject is the fixed subject; the text is the plain-text body, starting with the name line; the html is the layout filled with the submission's escaped slots |
| ContactHandler.Admit | api/send-email.js:21-48 | a request gets past the checks exactly when it is a POST, its fields pass and no SMTP setting is missing; it is rejected with 400 exactly when it is a POST whose submission is incomplete; a rejection is a 400, 405 or 500 error that builds no transport and attempts nothing |
| ContactHandler.Decide | api/send-email.js:20-117 | the status is 200, 400, 405 or 500; 200 exactly when the body is `{ok: true}`; send only after verify; a transport exactly when a message was composed; a logged reason exactly when a verify or send failed, and then 500 "Error enviando email"; 400 "Campos requeridos faltantes" exactly when a POST's submission is incomplete |
| ContactHandler.Relay | api/send-email.js:106-117 | verify is always tried and send only after verify succeeds; 200 exactly when both succeed; otherwise 500 "Error enviando email" with the failing call's reason logged |
| ContactHandler.NonPostRejected | api/send-email.js:21-26 | any method other than POST gives 405 "Method Not Allowed"; the body is not read; no transport is built and nothing is verified or sent |
| ContactHandler.RequiredFieldsIff | api/send-email.js:28-39 | a POST gets 400 "Campos requeridos faltantes" exactly when the body did not parse or a required field is empty after extraction, whatever the environment, and then no transport is used |
| ContactHandler.ConfigIncompleteRejected | api/send-email.js:41-48 | valid fields with any of the four SMTP settings absent or empty give 500 "Configuración SMTP incompleta" with no transport, no verify and no send |
| ContactHandler.DeliveryOutcome | api/send-email.js:50-117 | with valid fields and settings, the transport is built from the environment with credentials, the composed message (with a non-empty `to`) is the one offered, and the verify/send outcome decides 200 or 500 |
| ContactHandler.FailureReasonHidden | api/send-email.js:112-117 | the status and body do not depend on the transport's error message, only on which call failed |
| ContactHandler.Response.SetHeader | api/send-email.js:23 | setting a header updates that header and nothing else |
| ContactHandler.Response.End | api/send-email.js:24 | a response is ended once, with the given body |
| ContactHandler.MailTransport.Verify | api/send-email.js:107 | each verify call is counted and settles as the transport's verify outcome |
| ContactHandler.MailTransport.SendMail | api/send-email.js:108 | each send call records the message handed over and settles as the transport's send outcome |
| ContactHandler.Reply | api/send-email.js:35-37 | status code set, JSON content type set, response ended with the body |
| ContactHandler.Deliver | api/send-email.js:106-108 | exactly one verify; a send of the message only if verify resolved; the outcome is the first rejection, if any |
| ContactHandler.Send | api/send-email.js:50-117 | builds a fresh transporter from the options, verifies once, sends the message only after verify, and writes the response and log as `Relay` says |
| ContactHandler.Serve | api/send-email.js:20-118 | the response status, body and JSON content type are those `Decide` gives; a transporter exists only past the checks, is verified once and is sent the composed message exactly when verify succeeded; the failure reason is logged |

## Left out

- `parseBody`'s event-driven stream reading (`req.on('data' | 'end' | 'error')`): it is I/O plumbing. The parsed body is an input. A stream error, which makes the handler's promise reject with no response written, is not modelled.
- `JSON.parse` and `JSON.stringify`: these are library calls. A body that fails to parse is `None`, and responses are the abstract `OkBody` / `ErrorBody(message)`.
- ContactEmail.ReadSubmission: reads only string-valued fields. In the source a truthy non-string `name`, `phone` or `message` (a number, say) makes `.trim()` throw, and a JSON `null` body makes `body.name` throw; in both cases the handler rejects without writing a response. A truthy non-string `projectType` is not trimmed, so it passes the check and reaches the email through `String()` (as `Tipo: 5`, say), and the request can be answered 200. None of these is modelled.
- nodemailer (`createTransport`, `verify`, `sendMail`): it is a foreign network client. The transporter is the `MailTransport` class. How its calls settle is given as input, and its connection, authentication and TLS behaviour are not modelled.
- SmtpConfig.ParsePort: accepts only plain decimal digit strings. Other forms that `Number()` accepts (surrounding whitespace, a sign, an exponent, hexadecimal, a fraction) are read as not-a-number. The model also keeps the exact value of a digit string: `Number()` returns a double, so above 2^53 the value is rounded (`"9007199254740993"` gives 9007199254740992) and a string of about 309 digits or more gives `Infinity`.
- `new Date()` and `Intl.DateTimeFormat('es-ES', …)`: these read the clock and the locale. The formatted date is an input string.
- The styling markup of the HTML template: it is constant text with no behaviour. It is the seven-piece `Layout` parameter, and its literal content is not reproduced.
- `console.error`: the logged reason is part of the outcome (`logged`, and `Serve`'s `log` result). The console itself is not modelled.
- JavaScript strings are UTF-16 code-unit sequences; here a `string` is a sequence of Unicode scalar values. Lone surrogates are not modelled.
- `tailwind.config.js` holds only declarative styling configuration and is not part of this model.
