/**
 * The contact submission read from the request body, the plain-text and HTML
 * bodies built from it, and the message handed to the mail transport.
 */
module ContactEmail {
  import opened Wrappers
  import opened JsText
  import opened HtmlEscape
  import opened PhoneLink
  import opened SmtpConfig

  /** A parsed JSON body, restricted to its string-valued members. */
  type JsonObject = map<string, string>

  datatype Submission = Submission(name: string, phone: string, projectType: string, message: string)

  /** `body.key || ''`. */
  function FieldOf(body: JsonObject, key: string): string
  {
    if key in body then body[key] else []
  }

  /** `parseBody`'s result: a body that fails to parse becomes `{}`. */
  function BodyOrEmpty(parsed: Option<JsonObject>): (body: JsonObject)
    ensures parsed.None? ==> body == map[]
    ensures parsed.Some? ==> body == parsed.value
  {
    if parsed.Some? then parsed.value else map[]
  }

  /**
   * The four fields: name, phone and message trimmed, projectType taken as it
   * is; a missing field, or a body that did not parse, reads as empty.
   */
  function ReadSubmission(parsed: Option<JsonObject>): (s: Submission)
    ensures parsed.None? ==> s == Submission([], [], [], [])
    ensures s.name == Trim(FieldOf(BodyOrEmpty(parsed), "name"))
    ensures s.phone == Trim(FieldOf(BodyOrEmpty(parsed), "phone"))
    ensures s.message == Trim(FieldOf(BodyOrEmpty(parsed), "message"))
    ensures s.projectType == FieldOf(BodyOrEmpty(parsed), "projectType")
  {
    var body := BodyOrEmpty(parsed);
    Submission(
      Trim(FieldOf(body, "name")),
      Trim(FieldOf(body, "phone")),
      FieldOf(body, "projectType"),
      Trim(FieldOf(body, "message")))
  }

  /** `name && phone && projectType && message`. */
  predicate IsComplete(s: Submission)
  {
    s.name != [] && s.phone != [] && s.projectType != [] && s.message != []
  }

  /**
   * What the required-fields check asks of the raw body: it parsed, name,
   * phone and message each hold a non-whitespace character, and projectType
   * is non-empty (whitespace alone is enough for it).
   */
  predicate FieldsPresent(parsed: Option<JsonObject>)
  {
    && parsed.Some?
    && !AllTrimmable(FieldOf(parsed.value, "name"))
    && !AllTrimmable(FieldOf(parsed.value, "phone"))
    && FieldOf(parsed.value, "projectType") != []
    && !AllTrimmable(FieldOf(parsed.value, "message"))
  }

  /** The trimmed submission is complete exactly when the raw body has the required fields. */
  lemma SubmissionCompleteIff(parsed: Option<JsonObject>)
    ensures IsComplete(ReadSubmission(parsed)) <==> FieldsPresent(parsed)
  {
    var body := BodyOrEmpty(parsed);
    TrimEmptyIff(FieldOf(body, "name"));
    TrimEmptyIff(FieldOf(body, "phone"));
    TrimEmptyIff(FieldOf(body, "message"));
  }

  const Subject: string := "Nueva solicitud de contacto - Mármoles Barreto"
  const NameLabel: string := "Nombre: "
  const PhoneLabel: string := "Teléfono: "
  const TypeLabel: string := "Tipo: "
  const MessageLabel: string := "Mensaje: "

  /**
   * The plain-text body: four labelled lines, fields interpolated without
   * escaping; it opens with the name line and closes with the message.
   */
  function PlainText(s: Submission): (t: string)
    ensures NameLabel + s.name + "\n" <= t
    ensures |MessageLabel + s.message| <= |t| && t[|t| - |MessageLabel + s.message|..] == MessageLabel + s.message
  {
    NameLabel + s.name + "\n" + PhoneLabel + s.phone + "\n" + TypeLabel + s.projectType + "\n" + MessageLabel + s.message
  }

  /** The text before the first line feed, and the text after it. */
  function SplitLine(t: string): (string, string)
  {
    if t == [] then ([], [])
    else if t[0] == '\n' then ([], t[1..])
    else
      var (line, rest) := SplitLine(t[1..]);
      ([t[0]] + line, rest)
  }

  lemma {:induction false} SplitLineAppend(a: string, b: string)
    requires NoLineFeed(a)
    ensures SplitLine(a + "\n" + b) == (a, b)
  {
    var t := a + "\n" + b;
    if a == [] {
      assert t[0] == '\n' && t[1..] == b;
    } else {
      assert t[0] == a[0] && t[1..] == a[1..] + "\n" + b;
      assert a[0] != '\n';
      SplitLineAppend(a[1..], b);
      assert [a[0]] + a[1..] == a;
    }
  }

  /** Reads the four fields back out of a plain-text body; the partner of PlainText. */
  function ParsePlainText(t: string): Option<Submission>
  {
    var (l1, r1) := SplitLine(t);
    var (l2, r2) := SplitLine(r1);
    var (l3, r3) := SplitLine(r2);
    if NameLabel <= l1 && PhoneLabel <= l2 && TypeLabel <= l3 && MessageLabel <= r3
    then Some(Submission(l1[|NameLabel|..], l2[|PhoneLabel|..], l3[|TypeLabel|..], r3[|MessageLabel|..]))
    else None
  }

  /**
   * When name, phone and project type are single lines, the plain-text body
   * carries all four fields recoverably (the message may span lines).
   */
  lemma PlainTextRoundTrip(s: Submission)
    requires NoLineFeed(s.name) && NoLineFeed(s.phone) && NoLineFeed(s.projectType)
    ensures ParsePlainText(PlainText(s)) == Some(s)
  {
    var l1, l2, l3 := NameLabel + s.name, PhoneLabel + s.phone, TypeLabel + s.projectType;
    var r3 := MessageLabel + s.message;
    var r2 := l3 + "\n" + r3;
    var r1 := l2 + "\n" + r2;
    assert PlainText(s) == l1 + "\n" + r1;
    SplitLineAppend(l1, r1);
    SplitLineAppend(l2, r2);
    SplitLineAppend(l3, r3);
    assert NameLabel <= l1 && l1[|NameLabel|..] == s.name;
    assert PhoneLabel <= l2 && l2[|PhoneLabel|..] == s.phone;
    assert TypeLabel <= l3 && l3[|TypeLabel|..] == s.projectType;
    assert MessageLabel <= r3 && r3[|MessageLabel|..] == s.message;
  }

  /**
   * The constant markup of the HTML body, as the seven pieces between the
   * interpolated values; the styling text itself is not part of this model.
   */
  datatype Layout = Layout(
    head: string,
    beforeTelLink: string,
    beforePhone: string,
    beforeProject: string,
    beforeMessage: string,
    beforeDate: string,
    tail: string)

  /** The values `renderEmailTemplate` interpolates, in order. */
  datatype HtmlSlots = HtmlSlots(
    name: string,
    telLink: string,
    phone: string,
    projectType: string,
    message: string,
    date: string)

  /**
   * The interpolated values of a submission: no markup character in the text
   * slots, only `+` and digits in the `tel:` target, no line feed in the message.
   */
  function SlotsOf(s: Submission, date: string): (v: HtmlSlots)
    ensures forall i :: 0 <= i < |v.name| ==> !IsMarkup(v.name[i])
    ensures forall i :: 0 <= i < |v.phone| ==> !IsMarkup(v.phone[i])
    ensures forall i :: 0 <= i < |v.projectType| ==> !IsMarkup(v.projectType[i])
    ensures AllDialChars(v.telLink) && NoLineFeed(v.message)
    ensures v.date == date
  {
    HtmlSlots(Escape(s.name), PhoneDigits(s.phone), Escape(s.phone), Escape(s.projectType), SafeMessage(s.message), date)
  }

  function Fill(layout: Layout, v: HtmlSlots): string
  {
    layout.head + v.name + layout.beforeTelLink + v.telLink + layout.beforePhone + v.phone
    + layout.beforeProject + v.projectType + layout.beforeMessage + v.message
    + layout.beforeDate + v.date + layout.tail
  }

  /**
   * `renderEmailTemplate()`, with the formatted date supplied by the caller:
   * the document opens with the layout's head and the escaped name, and
   * closes with the date and the layout's tail.
   */
  function RenderHtml(layout: Layout, s: Submission, date: string): (h: string)
    ensures layout.head + Escape(s.name) <= h
    ensures |date + layout.tail| <= |h| && h[|h| - |date + layout.tail|..] == date + layout.tail
  {
    Fill(layout, SlotsOf(s, date))
  }

  /**
   * The rendered document interleaves the seven constant pieces with the
   * escaped name, the `tel:` target, the escaped phone and project type, the
   * escaped message with `<br>` breaks, and the date, in that order.
   */
  lemma RenderHtmlPieces(layout: Layout, s: Submission, date: string)
    ensures RenderHtml(layout, s, date) ==
      layout.head + Escape(s.name) + layout.beforeTelLink + PhoneDigits(s.phone)
      + layout.beforePhone + Escape(s.phone) + layout.beforeProject + Escape(s.projectType)
      + layout.beforeMessage + NewlinesToBreaks(Escape(s.message)) + layout.beforeDate + date + layout.tail
  {
  }

  /**
   * Only escaped values reach the HTML: the text slots hold no `<`, `>`, `"`
   * or `'` and every `&` in them opens an entity; the `tel:` target holds only
   * `+` and digits; the message slot has no quotes or line feeds, and each `<`
   * in it opens a `<br>`.
   */
  lemma HtmlSlotsSafe(s: Submission, date: string)
    ensures IsEscapedText(SlotsOf(s, date).name)
    ensures IsEscapedText(SlotsOf(s, date).phone)
    ensures IsEscapedText(SlotsOf(s, date).projectType)
    ensures AllDialChars(SlotsOf(s, date).telLink)
    ensures NoLineFeed(SlotsOf(s, date).message)
    ensures forall i :: 0 <= i < |SlotsOf(s, date).message| ==>
      SlotsOf(s, date).message[i] != '"' && SlotsOf(s, date).message[i] != '\''
    ensures forall i :: 0 <= i < |SlotsOf(s, date).message| && SlotsOf(s, date).message[i] == '<' ==>
      "<br>" <= SlotsOf(s, date).message[i..]
  {
    EscapeIsEscapedText(s.name);
    EscapeIsEscapedText(s.phone);
    EscapeIsEscapedText(s.projectType);
    SafeMessageShape(s.message);
  }

  /** The HTML slots lose nothing: two submissions with the same slots are the same submission. */
  lemma HtmlSlotsInjective(a: Submission, b: Submission, date: string)
    requires SlotsOf(a, date) == SlotsOf(b, date)
    ensures a == b
  {
    EscapeInjective(a.name, b.name);
    EscapeInjective(a.phone, b.phone);
    EscapeInjective(a.projectType, b.projectType);
    SafeMessageRecoverable(a.message);
    SafeMessageRecoverable(b.message);
  }

  /** The `mailOptions` object. */
  datatype MailMessage = MailMessage(from: string, to: string, subject: string, text: string, html: string)

  /**
   * The message always has a sender; it has a recipient whenever MAIL_TO or
   * SMTP_USER is set; its plain-text body starts with the name line.
   */
  function ComposeMail(env: Env, s: Submission, layout: Layout, date: string): (m: MailMessage)
    ensures m.from != []
    ensures m.to != [] <==> IsSet(env, "MAIL_TO") || IsSet(env, "SMTP_USER")
    ensures NameLabel + s.name <= m.text
    ensures m.from == SenderOf(env) && m.to == RecipientOf(env) && m.subject == Subject
    ensures m.text == PlainText(s) && m.html == Fill(layout, SlotsOf(s, date))
  {
    MailMessage(SenderOf(env), RecipientOf(env), Subject, PlainText(s), RenderHtml(layout, s, date))
  }
}
