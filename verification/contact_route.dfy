/**
 The contact endpoint: it checks that the four required fields are present,
 checks the e-mail address against a regular expression, composes one
 notification mail to the company inbox and hands it to the mail service.
 The mail service is a parameter: its outcome is given as a `Delivery`.
 */
module ContactRoute {
  import opened Wrappers
  import opened Text

  /** A field of the JSON body as the handler sees it: absent, `null`, or a string.
      Other JSON values (numbers, booleans, objects) are not modelled. */
  datatype Field = Absent | Null | Str(s: string)

  /** JavaScript truthiness of a field: only a non-empty string is truthy. */
  predicate Truthy(f: Field) {
    f.Str? && |f.s| > 0
  }

  /** A field inside a template literal: `undefined`, `null`, or the string itself. */
  function Render(f: Field): string {
    match f
    case Absent => "undefined"
    case Null => "null"
    case Str(s) => s
  }

  /** The destructured body: `{ firstName, lastName, email, inquiryType, message }`. */
  datatype Form = Form(firstName: Field, lastName: Field, email: Field, inquiryType: Field, message: Field)

  /** The request: a body whose parsing threw (with the error's message), or a parsed form. */
  datatype Request = Unparsable(error: string) | Parsed(form: Form)

  /** The mail service's answer to a send: it accepted the mail, or it threw an
      error carrying `message` (possibly empty). */
  datatype Delivery = Delivered | Rejected(message: string)

  /** The local clock's renderings of "now" that the mail embeds: the long form in
      the HTML footer and the default form in the text body. */
  datatype Clock = Clock(longForm: string, shortForm: string)

  /** A mailbox: an address and an optional display name. */
  datatype Mailbox = Mailbox(email: string, name: Option<string>)

  /** The values the HTML body interpolates, in the order it shows them; the
      surrounding markup and styles are not modelled. */
  datatype HtmlFields = HtmlFields(
    name: string,
    email: string,
    inquiryType: string,
    message: string,
    replyName: string,
    receivedOn: string)

  /** The mail handed to the mail service. */
  datatype Mail = Mail(
    from: Mailbox,
    to: seq<Mailbox>,
    subject: string,
    html: HtmlFields,
    text: string,
    category: string)

  /** The JSON body of a response. */
  datatype Body = Message(message: string) | Error(error: string)

  /** An HTTP response: status code and JSON body. */
  datatype Response = Response(status: nat, body: Body)

  /** What one call of the handler does: the mails it hands to the mail service, and its response. */
  datatype Outcome = Outcome(sent: seq<Mail>, response: Response)

  const Sender: Mailbox := Mailbox("hello@4wardph.com", Some("TekMakon Contact Form"))
  const Recipient: Mailbox := Mailbox("tekmakon2025@gmail.com", None)
  const SubjectPrefix: string := "New Contact Form Submission: "
  const Category: string := "Contact Form"
  const FieldsRequired: string := "All fields are required"
  const InvalidEmail: string := "Invalid email address"
  const EmailSent: string := "Email sent successfully"
  const SendFailed: string := "Failed to send email"

  /** The presence check: each of the four required fields is truthy. The
      inquiry type is not checked and nothing is trimmed. */
  predicate AllPresent(f: Form) {
    Truthy(f.firstName) && Truthy(f.lastName) && Truthy(f.email) && Truthy(f.message)
  }

  /** A character the class `[^\s@]` accepts. */
  predicate IsEmailChar(c: char) {
    !IsWhitespace(c) && c != '@'
  }

  /** Every character of `s` is accepted by `[^\s@]`. */
  predicate AllEmailChars(s: string) {
    forall i :: 0 <= i < |s| ==> IsEmailChar(s[i])
  }

  /** `s` splits as `local@domain.tld` with the `@` at `at` and the `.` at `dot`,
      each of the three parts a non-empty run of `[^\s@]`. */
  predicate SplitsAsEmail(s: string, at: int, dot: int) {
    && 0 < at && at + 1 < dot && dot + 1 < |s|
    && s[at] == '@' && s[dot] == '.'
    && AllEmailChars(s[..at]) && AllEmailChars(s[at + 1..dot]) && AllEmailChars(s[dot + 1..])
  }

  /** `/^[^\s@]+@[^\s@]+\.[^\s@]+$/.test(s)`: some split of `s` fits the pattern. */
  ghost predicate MatchesEmailPattern(s: string) {
    exists at, dot :: SplitsAsEmail(s, at, dot)
  }

  /** The domain has a `.` that is neither its first nor its last character. */
  predicate HasInnerDot(domain: string) {
    |domain| >= 3 && '.' in domain[1..|domain| - 1]
  }

  /** `emailRegex.test(email)`: the address is in the pattern's language. */
  function IsValidEmail(s: string): (r: bool)
    ensures r <==> MatchesEmailPattern(s)
  {
    EmailCheckIsPattern(s);
    SplitAtFirstAt(s)
  }

  /** The pattern decided in one pass over the parts around the first `@`. */
  function SplitAtFirstAt(s: string): bool {
    match IndexOf(s, '@')
    case None => false
    case Some(at) =>
      && at > 0
      && AllEmailChars(s[..at])
      && AllEmailChars(s[at + 1..])
      && HasInnerDot(s[at + 1..])
  }

  /** An address the one-pass check accepts fits the regular expression. */
  lemma ValidEmailMatchesPattern(s: string)
    requires SplitAtFirstAt(s)
    ensures MatchesEmailPattern(s)
  {
    var at := IndexOf(s, '@').value;
    var domain := s[at + 1..];
    var inner := domain[1..|domain| - 1];
    var k :| 0 <= k < |inner| && inner[k] == '.';
    var dot := at + 2 + k;
    assert s[dot] == '.';
    assert s[at + 1..dot] == domain[..k + 1];
    assert s[dot + 1..] == domain[k + 2..];
    assert SplitsAsEmail(s, at, dot);
  }

  /** An address that fits the regular expression passes the one-pass check. */
  lemma PatternMatchIsValidEmail(s: string)
    requires MatchesEmailPattern(s)
    ensures SplitAtFirstAt(s)
  {
    var at, dot :| SplitsAsEmail(s, at, dot);
    forall j | 0 <= j < at
      ensures s[..at][j] != '@'
    {
      assert IsEmailChar(s[..at][j]);
    }
    IndexOfFirst(s, '@', at);
    var domain := s[at + 1..];
    assert domain == s[at + 1..dot] + [s[dot]] + s[dot + 1..];
    EmailCharsJoin(s[at + 1..dot], s[dot], s[dot + 1..]);
    assert domain[1..|domain| - 1][dot - at - 2] == '.';
  }

  /** The one-pass check accepts exactly the strings the regular expression accepts. */
  lemma EmailCheckIsPattern(s: string)
    ensures SplitAtFirstAt(s) <==> MatchesEmailPattern(s)
  {
    if SplitAtFirstAt(s) {
      ValidEmailMatchesPattern(s);
    }
    if MatchesEmailPattern(s) {
      PatternMatchIsValidEmail(s);
    }
  }

  /** Two runs of `[^\s@]` joined by one more such character form a run. */
  lemma EmailCharsJoin(x: string, c: char, y: string)
    requires AllEmailChars(x) && IsEmailChar(c) && AllEmailChars(y)
    ensures AllEmailChars(x + [c] + y)
  {
    var z := x + [c] + y;
    forall j | 0 <= j < |z|
      ensures IsEmailChar(z[j])
    {
      if j > |x| {
        assert z[j] == y[j - |x| - 1];
      }
    }
  }

  /** A character found at `i` with none before it is what `indexOf` reports. */
  lemma {:induction false} IndexOfFirst(s: string, c: char, i: nat)
    requires i < |s| && s[i] == c && c !in s[..i]
    ensures IndexOf(s, c) == Some(i)
    decreases i
  {
    if i > 0 {
      assert s[0] == s[..i][0];
      assert s[1..][..i - 1] == s[..i][1..];
      IndexOfFirst(s[1..], c, i - 1);
    }
  }

  /** An accepted address holds no white space and exactly one `@`, with something before it. */
  lemma ValidEmailShape(s: string)
    requires IsValidEmail(s)
    ensures forall i :: 0 <= i < |s| ==> !IsWhitespace(s[i])
    ensures multiset(s)['@'] == 1
    ensures s[0] != '@'
  {
    assert SplitAtFirstAt(s);
    var at := IndexOf(s, '@').value;
    assert s == s[..at] + [s[at]] + s[at + 1..];
    var domain := s[at + 1..];
    forall j | 0 <= j < |domain|
      ensures domain[j] != '@'
    {
      assert IsEmailChar(domain[j]);
    }
    assert '@' !in s[..at];
    assert multiset(s) == multiset(s[..at]) + multiset{'@'} + multiset(s[at + 1..]);
    forall i | 0 <= i < |s|
      ensures !IsWhitespace(s[i])
    {
      if i < at {
        assert IsEmailChar(s[..at][i]);
      } else if i > at {
        assert IsEmailChar(s[at + 1..][i - at - 1]);
      }
    }
  }

  /** The replacement for one character: a line feed becomes `<br>`, anything else stays. */
  function Break(c: char): string {
    if c == '\n' then "<br>" else [c]
  }

  /** `message.replace(/\n/g, "<br>")`: every line feed becomes a `<br>` tag. */
  function NewlinesToBreaks(s: string): string {
    if |s| == 0 then "" else Break(s[0]) + NewlinesToBreaks(s[1..])
  }

  /** The rewritten message holds no line feed, is three characters longer per line
      feed, and is the message itself when there was none. */
  lemma {:induction false} NewlinesToBreaksShape(s: string)
    ensures '\n' !in NewlinesToBreaks(s)
    ensures |NewlinesToBreaks(s)| == |s| + 3 * multiset(s)['\n']
    ensures '\n' !in s ==> NewlinesToBreaks(s) == s
  {
    if |s| > 0 {
      NewlinesToBreaksShape(s[1..]);
      assert s == [s[0]] + s[1..];
      assert multiset(s) == multiset{s[0]} + multiset(s[1..]);
    }
  }

  /** The rewriting works line by line: it distributes over concatenation. */
  lemma {:induction false} NewlinesToBreaksAppend(a: string, b: string)
    ensures NewlinesToBreaks(a + b) == NewlinesToBreaks(a) + NewlinesToBreaks(b)
    decreases |a|
  {
    if |a| == 0 {
      assert a + b == b;
    } else {
      assert (a + b)[0] == a[0];
      assert (a + b)[1..] == a[1..] + b;
      NewlinesToBreaksAppend(a[1..], b);
    }
  }

  /** The plain-text body, line by line as the template lays it out: the part before
      the message, the message, and the part after it. */
  function TextBody(f: Form, clock: Clock): string {
    TextHead(f) + Render(f.message) + TextTail(f, clock)
  }

  /** The text body up to the message: heading, name, e-mail and inquiry-type lines. */
  function TextHead(f: Form): string {
    NameLine(f) + Render(f.email) + InquiryLine(f)
  }

  /** The text body up to the e-mail address. */
  function NameLine(f: Form): string {
    TextHeading + Render(f.firstName) + " " + Render(f.lastName) + TextEmailLabel
  }

  /** The text body from the inquiry-type line to the message. */
  function InquiryLine(f: Form): string {
    TextInquiryLabel + Render(f.inquiryType) + TextMessageLabel
  }

  /** The text body after the message: the reply-to line and the submission time. */
  function TextTail(f: Form, clock: Clock): string {
    TextReplyLabel + Render(f.email) + TextSubmittedLabel + clock.shortForm + TextClosing
  }

  const TextHeading: string := "\nNew Contact Form Submission\n\nName: "
  const TextEmailLabel: string := "\nEmail: "
  const TextInquiryLabel: string := "\nInquiry Type: "
  const TextMessageLabel: string := "\n\nMessage:\n"
  const TextReplyLabel: string := "\n\n---\nReply to: "
  const TextSubmittedLabel: string := "\nSubmitted: "
  /** The template's last line: six spaces of indentation before the closing backtick. */
  const TextClosing: string := "\n      "

  /** In a concatenation of five parts, the second, third and fourth occur where they were put. */
  lemma QuotedParts(n: string, e: string, i: string, m: string, t: string)
    ensures OccursAt(e, n + e + i + m + t, |n|)
    ensures OccursAt(m, n + e + i + m + t, |n + e + i|)
    ensures OccursAt(i, n + e + i + m + t, |n + e|)
  {
    var body := n + e + i + m + t;
    assert body == n + e + i + (m + t);
    assert body[|n + e|..|n + e| + |i|] == i;
    assert body[|n + e + i|..|n + e + i| + |m|] == m;
    assert body == n + e + (i + m + t);
    assert body[|n|..|n| + |e|] == e;
  }

  /** The text body quotes the message and the sender's address. */
  lemma TextBodyQuotes(f: Form, clock: Clock)
    ensures OccursAt(Render(f.message), TextBody(f, clock), |TextHead(f)|)
    ensures OccursAt(Render(f.email), TextBody(f, clock), |NameLine(f)|)
  {
    QuotedParts(NameLine(f), Render(f.email), InquiryLine(f), Render(f.message), TextTail(f, clock));
  }

  /** The text body quotes the inquiry type, rendered as the template renders it. */
  lemma TextBodyQuotesInquiryType(f: Form, clock: Clock)
    ensures OccursAt(Render(f.inquiryType), TextBody(f, clock), |NameLine(f) + Render(f.email)| + |TextInquiryLabel|)
  {
    var line := InquiryLine(f);
    assert line[|TextInquiryLabel|..|TextInquiryLabel| + |Render(f.inquiryType)|] == Render(f.inquiryType);
    QuotedParts(NameLine(f), Render(f.email), line, Render(f.message), TextTail(f, clock));
    OccursAtCompose(Render(f.inquiryType), line, TextBody(f, clock), |TextInquiryLabel|, |NameLine(f) + Render(f.email)|);
  }

  /** The notification mail for a form that passed both checks. */
  function Compose(f: Form, clock: Clock): (m: Mail)
    requires AllPresent(f)
    ensures m.from == Sender && m.to == [Recipient] && m.category == Category
    ensures |m.subject| == |SubjectPrefix| + |Render(f.inquiryType)|
    ensures m.subject[..|SubjectPrefix|] == SubjectPrefix
    ensures m.subject[|SubjectPrefix|..] == Render(f.inquiryType)
    ensures m.html.name == f.firstName.s + " " + f.lastName.s
    ensures m.html.email == f.email.s && m.html.replyName == f.firstName.s
    ensures m.html.inquiryType == Render(f.inquiryType) && m.html.receivedOn == clock.longForm
    ensures m.html.message == NewlinesToBreaks(f.message.s)
    ensures '\n' !in m.html.message
    ensures |m.html.message| == |f.message.s| + 3 * multiset(f.message.s)['\n']
    ensures '\n' !in f.message.s ==> m.html.message == f.message.s
    ensures m.text == TextBody(f, clock)
    ensures Occurs(f.message.s, m.text) && Occurs(f.email.s, m.text)
  {
    var text := TextBody(f, clock);
    TextBodyQuotes(f, clock);
    NewlinesToBreaksShape(f.message.s);
    Mail(
      Sender,
      [Recipient],
      SubjectPrefix + Render(f.inquiryType),
      HtmlFields(
        f.firstName.s + " " + f.lastName.s,
        f.email.s,
        Render(f.inquiryType),
        NewlinesToBreaks(f.message.s),
        f.firstName.s,
        clock.longForm),
      text,
      Category)
  }

  /** The error text of a failed send: the error's message, or a fixed text when it is empty. */
  function FailureText(message: string): (r: string)
    ensures |r| > 0
    ensures |message| > 0 ==> r == message
    ensures |message| == 0 ==> r == SendFailed
  {
    if |message| > 0 then message else SendFailed
  }

  /** The `POST` handler for one request, given the mail service's outcome and the clock. */
  function Post(req: Request, delivery: Delivery, clock: Clock): (o: Outcome)
    ensures req.Unparsable? ==> o == Outcome([], Response(500, Error(FailureText(req.error))))
    ensures req.Parsed? && !AllPresent(req.form) ==> o == Outcome([], Response(400, Error(FieldsRequired)))
    ensures req.Parsed? && AllPresent(req.form) && !MatchesEmailPattern(req.form.email.s) ==>
      o == Outcome([], Response(400, Error(InvalidEmail)))
    ensures |o.sent| == 1 <==>
      req.Parsed? && AllPresent(req.form) && MatchesEmailPattern(req.form.email.s)
    ensures |o.sent| <= 1
    ensures o.response.status == 200 <==> |o.sent| == 1 && delivery.Delivered?
    ensures o.response.status == 200 ==> o.response.body == Message(EmailSent)
    ensures |o.sent| == 1 && delivery.Rejected? ==>
      o.response == Response(500, Error(FailureText(delivery.message)))
  {
    match req
    case Unparsable(error) => Outcome([], Response(500, Error(FailureText(error))))
    case Parsed(f) =>
      if !AllPresent(f) then Outcome([], Response(400, Error(FieldsRequired)))
      else if !IsValidEmail(f.email.s) then Outcome([], Response(400, Error(InvalidEmail)))
      else
        var mail := Compose(f, clock);
        match delivery
        case Delivered => Outcome([mail], Response(200, Message(EmailSent)))
        case Rejected(message) => Outcome([mail], Response(500, Error(FailureText(message))))
  }

  /** For a complete form with a valid address, the one mail that goes out is the one
      composed from the form, whatever the mail service then does. */
  lemma SentMailIsComposed(f: Form, delivery: Delivery, clock: Clock)
    requires AllPresent(f) && IsValidEmail(f.email.s)
    ensures Post(Parsed(f), delivery, clock).sent == [Compose(f, clock)]
  {
  }

  /** Presence is checked before the address: a form missing a required field is
      refused as incomplete even when its address is malformed. */
  lemma PresenceCheckedFirst(f: Form, delivery: Delivery, clock: Clock)
    requires !AllPresent(f)
    ensures Post(Parsed(f), delivery, clock).response.body == Error(FieldsRequired)
  {
  }

  /** The inquiry type is never checked: a form without one, or with `null`, is still
      sent, and the template interpolates "undefined" or "null" into the subject, the
      HTML body and the text body. */
  lemma UnsetInquiryTypeIsInterpolated(f: Form, delivery: Delivery, clock: Clock)
    requires AllPresent(f) && IsValidEmail(f.email.s) && !f.inquiryType.Str?
    ensures Post(Parsed(f), delivery, clock).sent == [Compose(f, clock)]
    ensures var word := if f.inquiryType.Absent? then "undefined" else "null";
      && Compose(f, clock).subject == SubjectPrefix + word
      && Compose(f, clock).html.inquiryType == word
      && Occurs(word, Compose(f, clock).text)
  {
    var m := Compose(f, clock);
    TextBodyQuotesInquiryType(f, clock);
    assert m.subject == m.subject[..|SubjectPrefix|] + m.subject[|SubjectPrefix|..];
  }

  /** Nothing is trimmed: fields made of spaces pass the presence check. */
  lemma SpacesCountAsPresent(email: string, inquiry: Field, delivery: Delivery, clock: Clock)
    requires IsValidEmail(email)
    ensures |Post(Parsed(Form(Str(" "), Str(" "), Str(email), inquiry, Str(" "))), delivery, clock).sent| == 1
  {
  }
}
