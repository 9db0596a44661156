/** emailer.py: the credentials mail for one data hub, sent to every
    address listed in the contact workbook. */
module Emailer {
  import opened Lists
  import opened Text
  import opened OrderedMap
  import opened Spreadsheet
  import opened Contacts
  import opened Mail

  // ---------------------------------------------------------------------
  // The message text
  // ---------------------------------------------------------------------

  /** The subject line, naming the hub. */
  function Subject(dh: string): (subject: string)
    ensures Contains(subject, dh)
  {
    ContainsPiece("[ENA Data Hubs] ", dh, ": Credentials");
    "[ENA Data Hubs] " + dh + ": Credentials"
  }

  /** What follows the password in the plain-text body. */
  const CredentialsFooter: string :=
    "\n\nPlease keep"
    + " these credentials safe and do NOT share with others.\n"
    + "European Nucleotide Archive (ENA)\n"
    + "EMBL-EBI"

  /** The plain-text body: the hub name and password, each on its own
      line, then the fixed footer. */
  function PlainText(dh: string, pw: string): (body: string)
    ensures Contains(body, dh) && Contains(body, pw)
  {
    ContainsBoth("Username: ", dh, "\nPassword: ", pw, CredentialsFooter);
    "Username: " + dh + "\nPassword: " + pw + CredentialsFooter
  }

  /** The HTML body around the hub name and the password. */
  const HtmlHead: string :=
    "            <html>\n"
    + "                <body>\n"
    + "                    <p>Username: "
  const HtmlMiddle: string := "<br>\n                    Password: "
  const HtmlTail: string :=
    "</p><br>\n"
    + "                    <i><p style=\"font-size:12px; font-color\"#6b6b6b\">Please keep these credentials safe and do <b>NOT</b> share with others.</p>\n"
    + "                    <p style=\"font-size:12px; font-color:#6b6b6b\"><a href=\"https://www.ebi.ac.uk/ena/browser/home\">European Nucleotide Archive (ENA)</a><br>\n"
    + "                    EMBL-EBI</p></i>\n"
    + "                </body>\n"
    + "            </html>"

  /** The HTML body, with the hub name and password in its first two lines. */
  function HtmlText(dh: string, pw: string): (body: string)
    ensures Contains(body, dh) && Contains(body, pw)
  {
    ContainsBoth(HtmlHead, dh, HtmlMiddle, pw, HtmlTail);
    HtmlHead + dh + HtmlMiddle + pw + HtmlTail
  }

  /** The two alternative bodies, plain text first; each of them carries
      both the hub name and the password. */
  function Bodies(dh: string, pw: string): (parts: seq<Part>)
    ensures |parts| == 2 && parts[0].subtype == "plain" && parts[1].subtype == "html"
    ensures forall part :: part in parts ==> Contains(part.body, dh) && Contains(part.body, pw)
  {
    [Part("plain", PlainText(dh, pw)), Part("html", HtmlText(dh, pw))]
  }

  lemma SubjectRegroup(p: string, dh: string, q: string)
    ensures p + dh + q == p + (dh + q)
  {
  }

  /** The subject tells hubs apart: two hubs never share a subject line. */
  lemma SubjectNamesHub(dh: string, dh': string)
    requires Subject(dh) == Subject(dh')
    ensures dh == dh'
  {
    SubjectRegroup("[ENA Data Hubs] ", dh, ": Credentials");
    SubjectRegroup("[ENA Data Hubs] ", dh', ": Credentials");
    PrefixCancel("[ENA Data Hubs] ", dh + ": Credentials", dh' + ": Credentials");
    SuffixCancel(dh, dh', ": Credentials");
  }

  lemma PlainRegroup(u: string, dh: string, n: string, pw: string, f: string, nl: string, tag: string)
    requires n == nl + tag
    ensures u + dh + n + pw + f == u + (dh + nl + (tag + pw + f))
  {
  }

  /** The plain body gives the credentials back: for a hub name without a
      line break, different hub names or passwords never give the same
      body, so each recipient reads exactly the hub name and the password
      that were passed in. */
  lemma PlainTextNamesCredentials(dh: string, pw: string, dh': string, pw': string)
    requires '\n' !in dh && '\n' !in dh'
    requires PlainText(dh, pw) == PlainText(dh', pw')
    ensures dh == dh' && pw == pw'
  {
    var u, tag := "Username: ", "Password: ";
    assert "\nPassword: " == "\n" + tag;
    PlainRegroup(u, dh, "\nPassword: ", pw, CredentialsFooter, "\n", tag);
    PlainRegroup(u, dh', "\nPassword: ", pw', CredentialsFooter, "\n", tag);
    PrefixCancel(u, dh + "\n" + (tag + pw + CredentialsFooter), dh' + "\n" + (tag + pw' + CredentialsFooter));
    FirstSeparator(dh, dh', tag + pw + CredentialsFooter, tag + pw' + CredentialsFooter, '\n');
    SubjectRegroup(tag, pw, CredentialsFooter);
    SubjectRegroup(tag, pw', CredentialsFooter);
    PrefixCancel(tag, pw + CredentialsFooter, pw' + CredentialsFooter);
    SuffixCancel(pw, pw', CredentialsFooter);
  }

  /** The HTML body gives the credentials back likewise, for a hub name
      without a '<'. */
  lemma HtmlTextNamesCredentials(dh: string, pw: string, dh': string, pw': string)
    requires '<' !in dh && '<' !in dh'
    requires HtmlText(dh, pw) == HtmlText(dh', pw')
    ensures dh == dh' && pw == pw'
  {
    var tag := "br>\n                    Password: ";
    assert HtmlMiddle == "<" + tag;
    PlainRegroup(HtmlHead, dh, HtmlMiddle, pw, HtmlTail, "<", tag);
    PlainRegroup(HtmlHead, dh', HtmlMiddle, pw', HtmlTail, "<", tag);
    PrefixCancel(HtmlHead, dh + "<" + (tag + pw + HtmlTail), dh' + "<" + (tag + pw' + HtmlTail));
    FirstSeparator(dh, dh', tag + pw + HtmlTail, tag + pw' + HtmlTail, '<');
    SubjectRegroup(tag, pw, HtmlTail);
    SubjectRegroup(tag, pw', HtmlTail);
    PrefixCancel(tag, pw + HtmlTail, pw' + HtmlTail);
    SuffixCancel(pw, pw', HtmlTail);
  }

  // ---------------------------------------------------------------------
  // Preparing the mail
  // ---------------------------------------------------------------------

  /** `PrepareEmails`: the contact workbook, the hub's credentials, the
      message being built and the recipients collected. */
  class PrepareEmails {
    const contactInfo: Workbook
    const dh: string
    const pw: string
    const message: Message
    var emails: seq<string>

    constructor (contactInfo: Workbook, dh: string, pw: string)
      ensures this.contactInfo == contactInfo && this.dh == dh && this.pw == pw
      ensures fresh(message) && message.subtype == "alternate"
      ensures message.headers == InitialHeaders("alternate") && message.parts == []
    {
      this.contactInfo, this.dh, this.pw := contactInfo, dh, pw;
      message := new Message("alternate");
      emails := [];
    }

    /** `obtain_all_emails`: starts from an empty list, scans the sheets in
      workbook order, skips a sheet without an "Email" column, and appends
      each address of the column, in row order, unless it is already there.
      The result depends on the workbook alone, so running it again gives
      the same list. */
    method ObtainAllEmails()
      modifies this`emails
      ensures emails == Dedup(ContactEmails(contactInfo))
    {
      emails := [];
      for i := 0 to |contactInfo|
        invariant emails == Dedup(ContactEmails(contactInfo[..i]))
      {
        ContactEmailsSnoc(contactInfo, i);
        var column := Lookup(contactInfo[i].1, "Email");
        if column.None? {
          assert SheetEmails(contactInfo[i].1) == [];
          assert ContactEmails(contactInfo[..i]) + [] == ContactEmails(contactInfo[..i]);
          continue;
        }
        var sheetEmails := Values(column.value);
        assert SheetEmails(contactInfo[i].1) == sheetEmails;
        ghost var before := ContactEmails(contactInfo[..i]);
        assert before + sheetEmails[..0] == before;
        for j := 0 to |sheetEmails|
          invariant emails == Dedup(before + sheetEmails[..j])
        {
          var sheetEmail := sheetEmails[j];
          DedupScanStep(before, sheetEmails, j);
          if sheetEmail !in emails {
            emails := emails + [sheetEmail];
          }
        }
        assert sheetEmails[..|sheetEmails|] == sheetEmails;
        assert ContactEmails(contactInfo[..i + 1]) == before + sheetEmails;
      }
      assert contactInfo[..|contactInfo|] == contactInfo;
    }

    /** `datahub_credentials`: the subject naming the hub, then the plain
      part and after it the HTML part. */
    method DatahubCredentials()
      modifies message
      ensures message.headers == old(message.headers) + [("Subject", Subject(dh))]
      ensures message.parts == old(message.parts) + Bodies(dh, pw)
    {
      message.SetHeader("Subject", Subject(dh));
      var plainEmail := Part("plain", PlainText(dh, pw));
      var htmlEmail := Part("html", HtmlText(dh, pw));
      message.Attach(plainEmail);
      message.Attach(htmlEmail);
    }

    /** `prepare_email`: the recipients and the finished message. */
    method PrepareEmail() returns (recipients: seq<string>, prepared: Message)
      modifies this`emails, message
      ensures recipients == emails == Dedup(ContactEmails(contactInfo))
      ensures prepared == message
      ensures message.headers == old(message.headers) + [("Subject", Subject(dh))]
      ensures message.parts == old(message.parts) + Bodies(dh, pw)
    {
      ObtainAllEmails();
      DatahubCredentials();
      return emails, message;
    }
  }

  /** What `obtain_all_emails` promises, for any workbook: no address twice,
      and exactly the addresses of the "Email" columns (the order is that of
      first appearance in the scan, see `Lists.DedupFirstOccurrenceOrder`). */
  lemma CollectedEmails(contactInfo: Workbook)
    ensures NoDup(Dedup(ContactEmails(contactInfo)))
    ensures forall x :: x in Dedup(ContactEmails(contactInfo)) <==>
      exists i :: 0 <= i < |contactInfo| && x in SheetEmails(contactInfo[i].1)
  {
    var all := ContactEmails(contactInfo);
    DedupNoDup(all);
    forall x ensures x in Dedup(all) <==> exists i :: 0 <= i < |contactInfo| && x in SheetEmails(contactInfo[i].1) {
      DedupElements(all, x);
      ContactEmailsMembership(contactInfo, x);
    }
  }
}
