/**
 * POST /api/send-mail: the contact form. It checks the four fields, answers without sending when no
 * mail-provider key is configured, and otherwise sends one HTML message to the store's support address.
 */
module SendMail {
  import opened Optional

  const Sender: string := "BazmaStore <onboarding@resend.dev>"
  const Recipient: string := "support@bazmastore.com"
  const SubjectPrefix: string := "Contact Form: "
  const NotConfiguredMessage: string := "Email functionality not configured. Message logged to console."

  /** The request body after JSON parsing; each field may be absent. */
  datatype ContactBody = ContactBody(
    name: Option<string>, email: Option<string>, subject: Option<string>, message: Option<string>)

  datatype ContactFields = ContactFields(name: string, email: string, subject: string, message: string)

  /** The message handed to the mail provider. */
  datatype Email = Email(from: string, to: string, subject: string, html: string)

  /** What the provider call produced: `Thrown` when `fetch` or decoding its reply throws, else the reply's `ok`. */
  datatype ProviderReply = Thrown | Reply(ok: bool)

  datatype Response =
    | NotConfigured(message: string, echo: ContactFields)
    | Sent
    | Failure(status: int, error: string)

  /** The answer and the message sent, if one was. */
  datatype Outcome = Outcome(response: Response, sent: Option<Email>)

  /** `!name || !email || !subject || !message`. */
  predicate MissingRequired(body: ContactBody)
  {
    !TruthyString(body.name) || !TruthyString(body.email) || !TruthyString(body.subject) || !TruthyString(body.message)
  }

  /** The piece of the output for one input character of message text. */
  function Escape(c: char): string
  {
    if c == '\n' then "<br>" else [c]
  }

  /** `message.replace(/\n/g, '<br>')`. */
  function ReplaceNewlines(s: string): string
  {
    if s == [] then [] else Escape(s[0]) + ReplaceNewlines(s[1..])
  }

  /** No newline survives the replacement. */
  lemma {:induction false} NoNewlineLeft(s: string)
    ensures '\n' !in ReplaceNewlines(s)
    decreases |s|
  {
    if s != [] {
      NoNewlineLeft(s[1..]);
    }
  }

  /** Text without newlines comes through unchanged. */
  lemma {:induction false} NewlineFreeUnchanged(s: string)
    requires '\n' !in s
    ensures ReplaceNewlines(s) == s
    decreases |s|
  {
    if s != [] {
      assert s[0] in s;
      assert forall k :: 0 <= k < |s| - 1 ==> s[1..][k] == s[k + 1];
      NewlineFreeUnchanged(s[1..]);
      assert s == [s[0]] + s[1..];
    }
  }

  function CountNewlines(s: string): nat
  {
    if s == [] then 0 else (if s[0] == '\n' then 1 else 0) + CountNewlines(s[1..])
  }

  lemma {:induction false} ReplaceNewlinesAppend(a: string, b: string)
    ensures ReplaceNewlines(a + b) == ReplaceNewlines(a) + ReplaceNewlines(b)
    decreases |a|
  {
    if a == [] {
      assert a + b == b;
    } else {
      assert (a + b)[0] == a[0] && (a + b)[1..] == a[1..] + b;
      ReplaceNewlinesAppend(a[1..], b);
    }
  }

  /** A slice that lies wholly in the second part of a concatenation. */
  lemma SliceOfAppend(a: string, b: string, lo: nat, hi: nat)
    requires |a| <= lo <= hi <= |a| + |b|
    ensures (a + b)[lo..hi] == b[lo - |a|..hi - |a|]
  {
  }

  /**
   * Each character of the message keeps its place, shifted right by three for every newline before
   * it: a newline becomes "<br>" there, any other character is copied unchanged.
   */
  lemma {:induction false} ReplaceNewlinesAt(s: string, i: nat)
    requires i < |s|
    ensures var r := ReplaceNewlines(s);
      var at := i + 3 * CountNewlines(s[..i]);
      && at + |Escape(s[i])| <= |r|
      && r[at..at + |Escape(s[i])|] == Escape(s[i])
    decreases i
  {
    var e, tail := Escape(s[0]), ReplaceNewlines(s[1..]);
    assert ReplaceNewlines(s) == e + tail;
    if i == 0 {
      assert s[..0] == [];
    } else {
      ReplaceNewlinesAt(s[1..], i - 1);
      var before := s[1..][..i - 1];
      assert s[..i][0] == s[0] && s[..i][1..] == before;
      assert CountNewlines(s[..i]) == (if s[0] == '\n' then 1 else 0) + CountNewlines(before);
      var at' := i - 1 + 3 * CountNewlines(before);
      assert i + 3 * CountNewlines(s[..i]) == |e| + at';
      var w := Escape(s[i]);
      assert s[1..][i - 1] == s[i];
      SliceOfAppend(e, tail, |e| + at', |e| + at' + |w|);
    }
  }

  lemma {:induction false} ReplaceNewlinesLength(s: string)
    ensures |ReplaceNewlines(s)| == |s| + 3 * CountNewlines(s)
    decreases |s|
  {
    if s != [] {
      ReplaceNewlinesLength(s[1..]);
    }
  }

  /** Replacing twice gives the same text as replacing once. */
  lemma {:induction false} ReplaceNewlinesIdempotent(s: string)
    ensures ReplaceNewlines(ReplaceNewlines(s)) == ReplaceNewlines(s)
  {
    NoNewlineLeft(s);
    NewlineFreeUnchanged(ReplaceNewlines(s));
  }

  /** The template's text after the message. */
  const HtmlClose := "</p>\n        "

  /**
   * The HTML body of the message, the template filled in with the four fields. The message, with its
   * newlines replaced, is the text just before the template's closing tags.
   */
  function Html(f: ContactFields): (r: string)
    ensures var m := ReplaceNewlines(f.message);
      && |r| >= |m| + |HtmlClose|
      && r[|r| - |HtmlClose|..] == HtmlClose
      && r[|r| - |HtmlClose| - |m|..|r| - |HtmlClose|] == m
  {
    "\n          <h2>New Contact Form Submission</h2>\n          <p><strong>From:</strong> " + f.name
    + "</p>\n          <p><strong>Email:</strong> " + f.email
    + "</p>\n          <p><strong>Subject:</strong> " + f.subject
    + "</p>\n          <h3>Message:</h3>\n          <p>" + ReplaceNewlines(f.message)
    + HtmlClose
  }

  function EmailFor(f: ContactFields): (e: Email)
    ensures e.from == Sender && e.to == Recipient
    ensures |e.subject| == |SubjectPrefix| + |f.subject|
    ensures e.subject[..|SubjectPrefix|] == SubjectPrefix && e.subject[|SubjectPrefix|..] == f.subject
  {
    Email(Sender, Recipient, SubjectPrefix + f.subject, Html(f))
  }

  /**
   * The handler. `apiKey` is the configured provider key ("" when unset); `reply` is what the
   * provider call produced, used only when a message is sent.
   */
  function Handle(body: ContactBody, apiKey: string, reply: ProviderReply): (r: Outcome)
    ensures MissingRequired(body) ==> r == Outcome(Failure(400, "Missing required fields"), None)
    ensures !MissingRequired(body) && apiKey == "" ==>
      && r.sent == None
      && r.response == NotConfigured(NotConfiguredMessage,
           ContactFields(body.name.value, body.email.value, body.subject.value, body.message.value))
    ensures r.sent.Some? <==> !MissingRequired(body) && apiKey != ""
    ensures r.sent.Some? ==>
      && r.sent.value.from == Sender && r.sent.value.to == Recipient
      && r.sent.value.subject == SubjectPrefix + body.subject.value
    ensures r.sent.Some? ==>
      r.sent.value.html == Html(ContactFields(body.name.value, body.email.value, body.subject.value, body.message.value))
    ensures r.sent.Some? ==> r.response == match reply
      case Thrown => Failure(500, "Internal server error")
      case Reply(ok) => if ok then Sent else Failure(500, "Failed to send email")
  {
    if MissingRequired(body) then Outcome(Failure(400, "Missing required fields"), None)
    else
      var fields := ContactFields(body.name.value, body.email.value, body.subject.value, body.message.value);
      if apiKey == "" then Outcome(NotConfigured(NotConfiguredMessage, fields), None)
      else
        var response := match reply
          case Thrown => Failure(500, "Internal server error")
          case Reply(ok) => if ok then Sent else Failure(500, "Failed to send email");
        Outcome(response, Some(EmailFor(fields)))
  }
}
