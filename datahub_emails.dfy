/** datahub_emails.py: the variant of the mailer that `main.py` runs.  It
    needs an "Email" column on every sheet, sends a fixed text with "[]"
    where the credentials would go, and takes the sender and the port from
    the configuration. */
module DatahubEmails {
  import opened Wrappers
  import opened Lists
  import opened OrderedMap
  import opened Spreadsheet
  import opened Contacts
  import opened Utils
  import opened Mail
  import Emailer

  /** Why `emailer` stops: the spreadsheet was not read as a workbook (the
      `values()` call fails on `None` and on a data frame), or a key the
      code indexes with is missing (Python's `KeyError`). */
  datatype Error = NotAWorkbook | MissingKey(key: string)

  // ---------------------------------------------------------------------
  // The message text: constants, nothing of the hub is filled in
  // ---------------------------------------------------------------------

  const Subject: string := "[ENA Data Hubs] Credentials"

  /** The third line holds eight spaces, as in the source's string. */
  const PlainText: string :=
    "Username: []\n"
    + "Password: []\n"
    + "        \n"
    + "European Nucleotide Archive (ENA)\n"
    + "EMBL-EBI"

  const HtmlText: string :=
    "            <html>\n"
    + "                <body>\n"
    + "                    <p>Username: []<br>\n"
    + "                    Password: []</p><br>\n"
    + "                    <p style=\"font-size:12px; font-color:#6b6b6b\"><a href=\"https://www.ebi.ac.uk/ena/browser/home\">European Nucleotide Archive (ENA)</a><br>\n"
    + "                    EMBL-EBI</p>\n"
    + "                </body>\n"
    + "            </html>"

  /** The two alternative bodies, plain text first. */
  const Bodies: seq<Part> := [Part("plain", PlainText), Part("html", HtmlText)]

  /** `PrepareEmails`: the contact workbook, the message being built and the
      recipients collected. */
  class PrepareEmails {
    const contactInfo: Workbook
    const message: Message
    var emails: seq<string>

    constructor (contactInfo: Workbook)
      ensures this.contactInfo == contactInfo
      ensures fresh(message) && message.subtype == "alternate"
      ensures message.headers == InitialHeaders("alternate") && message.parts == []
    {
      this.contactInfo := contactInfo;
      message := new Message("alternate");
      emails := [];
    }

    /** `obtain_all_emails`: the same scan as in emailer.py, except that a
      sheet without an "Email" column raises `KeyError` and ends the scan.
      On success the list holds the addresses of all sheets, each once, in
      order of first appearance; on failure it holds those of the sheets
      before the first one without the column. */
    method ObtainAllEmails() returns (error: Option<Error>)
      modifies this`emails
      ensures error.None? <==> AllHaveEmail(contactInfo)
      ensures error.None? ==> emails == Dedup(ContactEmails(contactInfo))
      ensures error.Some? ==> error.value == MissingKey("Email")
      ensures error.Some? ==> exists k :: FirstWithoutEmail(contactInfo, k) && emails == Dedup(ContactEmails(contactInfo[..k]))
    {
      emails := [];
      for i := 0 to |contactInfo|
        invariant AllHaveEmail(contactInfo[..i])
        invariant emails == Dedup(ContactEmails(contactInfo[..i]))
      {
        var column := Lookup(contactInfo[i].1, "Email");
        if column.None? {
          assert FirstWithoutEmail(contactInfo, i) && emails == Dedup(ContactEmails(contactInfo[..i]));
          return Some(MissingKey("Email"));
        }
        ContactEmailsSnoc(contactInfo, i);
        var sheetEmails := Values(column.value);
        assert SheetEmails(contactInfo[i].1) == sheetEmails;
        ghost var before := ContactEmails(contactInfo[..i]);
        assert before + sheetEmails[..0] == before;
        for j := 0 to |sheetEmails|
          invariant emails == Dedup(before + sheetEmails[..j])
        {
          var sheetEmail := sheetEmails[j];
          DedupScanStep(before, sheetEmails, j);
          if sheetEmail !in emails {
            emails := emails + [sheetEmail];
          }
        }
        assert sheetEmails[..|sheetEmails|] == sheetEmails;
        assert ContactEmails(contactInfo[..i + 1]) == before + sheetEmails;
        AllHaveEmailSnoc(contactInfo, i);
      }
      assert contactInfo[..|contactInfo|] == contactInfo;
      return None;
    }

    /** `datahub_credentials`: the fixed subject, then the plain part and
      after it the HTML part. */
    method DatahubCredentials()
      modifies message
      ensures message.headers == old(message.headers) + [("Subject", Subject)]
      ensures message.parts == old(message.parts) + Bodies
    {
      message.SetHeader("Subject", Subject);
      var plainEmail := Part("plain", PlainText);
      var htmlEmail := Part("html", HtmlText);
      message.Attach(plainEmail);
      message.Attach(htmlEmail);
    }

    /** `prepare_email`: the exception of `obtain_all_emails` propagates
      before the message is touched. */
    method PrepareEmail() returns (r: Result<(seq<string>, Message), Error>)
      modifies this`emails, message
      ensures r.Success? <==> AllHaveEmail(contactInfo)
      ensures r.Failure? ==> r.error == MissingKey("Email") && unchanged(message)
      ensures r.Success? ==> r.value == (emails, message) && emails == Dedup(ContactEmails(contactInfo))
      ensures r.Success? ==> message.headers == old(message.headers) + [("Subject", Subject)]
      ensures r.Success? ==> message.parts == old(message.parts) + Bodies
    {
      var error := ObtainAllEmails();
      if error.Some? {
        return Failure(error.value);
      }
      DatahubCredentials();
      return Success((emails, message));
    }
  }

  /** `emailer`: read the contact spreadsheet, collect the addresses,
      build the message, and send it from `configuration["ADMIN_EMAIL"]`
      through port `configuration["PORT"]`.  The spreadsheet reader and the
      operator's password are parameters.  The steps fail in the order the
      code reaches them: not a workbook, a sheet without "Email", then the
      two configuration keys. */
  method Run(spreadsheet: string, sheetNames: seq<string>, parseSheet: string -> Sheet,
             parseDelimited: string -> Sheet, configuration: map<string, string>, password: string)
    returns (loaded: Option<Loaded>, r: Result<SmtpSession, Error>)
    ensures loaded.None? <==> FormatOf(spreadsheet).None?
    ensures FormatOf(spreadsheet) == Some(WorkbookFile) ==>
      && loaded.Some? && loaded.value.Sheets?
      && Keys(loaded.value.book) == Dedup(sheetNames)
      && forall name :: name in sheetNames ==> Lookup(loaded.value.book, name) == Some(parseSheet(name))
    ensures FormatOf(spreadsheet) != Some(WorkbookFile) ==> r == Failure(NotAWorkbook)
    ensures FormatOf(spreadsheet) == Some(WorkbookFile) ==>
      (r == Failure(MissingKey("Email")) <==> !AllHaveEmail(loaded.value.book))
    ensures FormatOf(spreadsheet) == Some(WorkbookFile) && AllHaveEmail(loaded.value.book) ==>
      (r == Failure(MissingKey("ADMIN_EMAIL")) <==> "ADMIN_EMAIL" !in configuration)
    ensures FormatOf(spreadsheet) == Some(WorkbookFile) && AllHaveEmail(loaded.value.book) && "ADMIN_EMAIL" in configuration ==>
      (r == Failure(MissingKey("PORT")) <==> "PORT" !in configuration)
    ensures r.Success? <==>
      FormatOf(spreadsheet) == Some(WorkbookFile) && AllHaveEmail(loaded.value.book)
      && "ADMIN_EMAIL" in configuration && "PORT" in configuration
    ensures r.Success? ==>
      var server, sender := r.value, configuration["ADMIN_EMAIL"];
      && fresh(server)
      && server.host == "smtp.gmail.com" && server.port == configuration["PORT"]
      && server.login == Some((sender, password))
      && Recipients(server.sent) == Dedup(ContactEmails(loaded.value.book))
      && forall i :: 0 <= i < |server.sent| ==>
        server.sent[i] == Envelope(sender, server.sent[i].to,
          InitialHeaders("alternate") + [("Subject", Subject), ("From", sender)] + ToHeaders(Recipients(server.sent)[..i + 1]),
          Bodies)
  {
    loaded := ReadSpreadsheet(spreadsheet, sheetNames, parseSheet, parseDelimited);
    if !(loaded.Some? && loaded.value.Sheets?) {
      return loaded, Failure(NotAWorkbook);
    }
    var emailPrep := new PrepareEmails(loaded.value.book);
    var prepared := emailPrep.PrepareEmail();
    if prepared.Failure? {
      return loaded, Failure(prepared.error);
    }
    var (emails, message) := prepared.value;
    assert message.headers == InitialHeaders("alternate") + [("Subject", Subject)] && message.parts == Bodies;
    if "ADMIN_EMAIL" !in configuration {
      return loaded, Failure(MissingKey("ADMIN_EMAIL"));
    }
    if "PORT" !in configuration {
      return loaded, Failure(MissingKey("PORT"));
    }
    var emailSend := new SendEmails(emails, message, configuration["ADMIN_EMAIL"], configuration["PORT"]);
    ghost var sender, head := configuration["ADMIN_EMAIL"], message.headers;
    var server := emailSend.SendEmail(password);
    assert Recipients(server.sent) == emails;
    ghost var envelope := InitialHeaders("alternate") + [("Subject", Subject), ("From", sender)];
    assert head + [("From", sender)] == envelope;
    assert forall i :: 0 <= i < |server.sent| ==>
      server.sent[i] == Envelope(sender, server.sent[i].to, envelope + ToHeaders(Recipients(server.sent)[..i + 1]), Bodies);
    return loaded, Success(server);
  }

  /** The recipients are the addresses of the "Email" columns, each once. */
  lemma CollectedEmails(contactInfo: Workbook)
    requires AllHaveEmail(contactInfo)
    ensures NoDup(Dedup(ContactEmails(contactInfo)))
    ensures forall x :: x in Dedup(ContactEmails(contactInfo)) <==>
      exists i :: 0 <= i < |contactInfo| && x in Values(Lookup(contactInfo[i].1, "Email").value)
  {
    var all := ContactEmails(contactInfo);
    DedupNoDup(all);
    forall x ensures x in Dedup(all) <==> exists i :: 0 <= i < |contactInfo| && x in Values(Lookup(contactInfo[i].1, "Email").value) {
      DedupElements(all, x);
      ContactEmailsMembership(contactInfo, x);
      assert forall i :: 0 <= i < |contactInfo| ==> SheetEmails(contactInfo[i].1) == Values(Lookup(contactInfo[i].1, "Email").value);
    }
  }

  /** No credentials reach the recipients: whatever hub name and password
      emailer.py would fill in, this plain body is never the body it sends
      (it lacks the "Please keep these credentials safe" line). */
  lemma BodyHoldsNoCredentials(dh: string, pw: string)
    ensures PlainText != Emailer.PlainText(dh, pw)
  {
    assert "\n\nPlease keep"[9] == 'k';
    assert 'k' in Emailer.PlainText(dh, pw);
  }
}
