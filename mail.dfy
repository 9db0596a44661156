/** The pieces of Python's `email` and `smtplib` packages that both mailers
    use: a multipart message that collects headers and parts, an SMTP
    session that records what it is asked to send, and `SendEmails`, which
    both emailer.py and datahub_emails.py define with the same body. */
module Mail {
  import opened Wrappers

  /** A `MIMEText(body, subtype)` part. */
  datatype Part = Part(subtype: string, body: string)

  /** The headers a new `MIMEMultipart(subtype)` carries: its content type
      and the MIME version. */
  function InitialHeaders(subtype: string): (hs: seq<(string, string)>)
    ensures |hs| == 2 && hs[0].0 == "Content-Type" && hs[1] == ("MIME-Version", "1.0")
  {
    [("Content-Type", "multipart/" + subtype), ("MIME-Version", "1.0")]
  }

  /** A `MIMEMultipart(subtype)`.  `message[name] = value` adds a header
      after those already there, even when one of that name exists;
      `attach` adds a part after the others. */
  class Message {
    const subtype: string
    var headers: seq<(string, string)>
    var parts: seq<Part>

    constructor (subtype: string)
      ensures this.subtype == subtype && headers == InitialHeaders(subtype) && parts == []
    {
      this.subtype := subtype;
      headers, parts := InitialHeaders(subtype), [];
    }

    method SetHeader(name: string, value: string)
      modifies this`headers
      ensures headers == old(headers) + [(name, value)]
    {
      headers := headers + [(name, value)];
    }

    method Attach(part: Part)
      modifies this`parts
      ensures parts == old(parts) + [part]
    {
      parts := parts + [part];
    }
  }

  /** One `sendmail(from, to, text)` call: the envelope addresses and the
      headers and parts the message held at that moment. */
  datatype Envelope = Envelope(from: string, to: string, headers: seq<(string, string)>, parts: seq<Part>)

  /** The addresses mail went to, in sending order. */
  function Recipients(sent: seq<Envelope>): (to: seq<string>)
    ensures |to| == |sent|
    ensures forall i :: 0 <= i < |sent| ==> to[i] == sent[i].to
  {
    if sent == [] then [] else Recipients(sent[..|sent| - 1]) + [sent[|sent| - 1].to]
  }

  /** One "To" header per address, in order. */
  function ToHeaders(emails: seq<string>): (hs: seq<(string, string)>)
    ensures |hs| == |emails| && forall k :: 0 <= k < |emails| ==> hs[k] == ("To", emails[k])
  {
    seq(|emails|, k requires 0 <= k < |emails| => ("To", emails[k]))
  }

  /** Stand-in for an `smtplib.SMTP_SSL` connection: where it was opened,
      the login it was given, and every message handed to it, in order. */
  class SmtpSession {
    const host: string
    const port: string
    var login: Option<(string, string)>
    var sent: seq<Envelope>

    constructor (host: string, port: string)
      ensures this.host == host && this.port == port && login == None && sent == []
    {
      this.host, this.port := host, port;
      login, sent := None, [];
    }

    method Login(user: string, password: string)
      modifies this`login
      ensures login == Some((user, password))
    {
      login := Some((user, password));
    }

    method SendMail(from: string, to: string, message: Message)
      modifies this`sent
      ensures sent == old(sent) + [Envelope(from, to, message.headers, message.parts)]
    {
      sent := sent + [Envelope(from, to, message.headers, message.parts)];
    }
  }

  /** `SendEmails`: one prepared message, its recipients, the sender's
      address and the SMTP port. */
  class SendEmails {
    const emails: seq<string>
    const message: Message
    const senderEmail: string
    const port: string

    constructor (emails: seq<string>, message: Message, senderEmail: string, port: string)
      ensures this.emails == emails && this.message == message
      ensures this.senderEmail == senderEmail && this.port == port
    {
      this.emails, this.message := emails, message;
      this.senderEmail, this.port := senderEmail, port;
    }

    /** `send_email`, with the operator's password as a parameter: the
      message gets a "From" header, a session to smtp.gmail.com on the
      configured port logs in as the sender, and the message goes to each
      address once, in list order, always from the sender.  Before each
      sending a "To" header for that address is added to those already
      there, so the mail to an address also names every address before it. */
    method SendEmail(password: string) returns (server: SmtpSession)
      modifies message`headers
      ensures message.headers == old(message.headers) + [("From", senderEmail)] + ToHeaders(emails)
      ensures fresh(server)
      ensures server.host == "smtp.gmail.com" && server.port == port
      ensures server.login == Some((senderEmail, password))
      ensures Recipients(server.sent) == emails
      ensures forall i :: 0 <= i < |server.sent| ==>
        server.sent[i] == Envelope(senderEmail, emails[i],
          old(message.headers) + [("From", senderEmail)] + ToHeaders(emails[..i + 1]), message.parts)
      ensures forall i, j :: 0 <= j <= i < |server.sent| ==> ("To", emails[j]) in server.sent[i].headers
    {
      message.SetHeader("From", senderEmail);
      ghost var head := message.headers;
      server := new SmtpSession("smtp.gmail.com", port);
      server.Login(senderEmail, password);
      for i := 0 to |emails|
        invariant fresh(server) && server.host == "smtp.gmail.com" && server.port == port
        invariant server.login == Some((senderEmail, password))
        invariant message.headers == head + ToHeaders(emails[..i])
        invariant Recipients(server.sent) == emails[..i]
        invariant forall j :: 0 <= j < |server.sent| ==>
          server.sent[j] == Envelope(senderEmail, emails[j], head + ToHeaders(emails[..j + 1]), message.parts)
      {
        assert ToHeaders(emails[..i + 1]) == ToHeaders(emails[..i]) + [("To", emails[i])];
        message.SetHeader("To", emails[i]);
        ghost var before := server.sent;
        server.SendMail(senderEmail, emails[i], message);
        assert server.sent[..|server.sent| - 1] == before;
        assert emails[..i + 1] == emails[..i] + [emails[i]];
      }
      assert emails[..|emails|] == emails;
      forall i, j | 0 <= j <= i < |server.sent| ensures ("To", emails[j]) in server.sent[i].headers {
        var hs := head + ToHeaders(emails[..i + 1]);
        assert hs[|head| + j] == ("To", emails[j]);
      }
    }
  }
}
