# ENA data hub setup: a verified model

The repository is an operator-run tool for setting up an ENA data hub. It
reads a contact and configuration spreadsheet and a `key=value`
configuration file. It creates the hub and links Webin submission
accounts to it by running two PL/SQL blocks against the ERAPRO Oracle
database. It then mails the hub's credentials to every contact address
in the spreadsheet.

This project models the sequential logic of that tool in Dafny:

- `Utils` (utils.py): the configuration-line parser and the
  suffix dispatch of the spreadsheet reader. The sheet map is filled in a
  loop.
- `Sql` and `Assigner` (assigner.py):
  - reading the hub's description, abstract and Webin accounts out of the
    parsed workbook;
  - the exact text of the two PL/SQL blocks, with a parser as their partner;
  - the order in which `assign_configure` runs them. The Oracle server is
    replaced by a stub that records the statements it executes.
- `Contacts`, `Emailer`, `DatahubEmails` and `Mail` (emailer.py,
  datahub_emails.py):
  - collecting recipient addresses from the "Email" columns, without
    repeats and in order of first appearance;
  - the subject and the two message parts;
  - the send loop as a trace of `sendmail` calls;
  - `emailer()`'s use of the `ADMIN_EMAIL` and `PORT` settings.
- Shared pieces:
  - `OrderedMap`: a Python dict as a sequence of pairs, so insertion order
    is explicit;
  - `Spreadsheet`: a workbook as sheet -> column -> row -> cell;
  - `Lists`: "append it if it is not there yet", as `Dedup`;
  - `Text`: `rstrip`, `split`, `endswith` and `in` on strings;
  - `Wrappers`: `Option` and `Result`.

A Python exception that ends a run becomes a `Failure` value of a `Result` or a `Some(error)` of an `Option`.
Operator input is passed in as a parameter: the `input`/`getpass`
prompts, the sheet parser and the reading of `config.txt` as lines.

Where the code formats values into SQL text, the model follows the code
exactly. It does not assume any quoting or parameter binding. Two facts
show this: `Assigner.AssignStatementNotEscaped` gives two different
inputs that produce the same statement, and `Assigner.AssignStatementReadsBack`
only holds for values without a quote.

## Model

| member | source | states |
|---|---|---|
| Lists.FirstIndex | emailer.py:58-60 | the first position of an element: it holds the element and nothing before it does |
| Lists.DedupSnoc | emailer.py:58-60 | one scanned element is appended exactly when it is not yet in the list |
| Lists.DedupElements | emailer.py:58-60 | the de-duplicated list holds exactly the elements of the input |
| Lists.DedupNoDup | emailer.py:58-60 | the de-duplicated list has no repeats and is no longer than the input |
| Lists.DedupOfNoDup | utils.py:45-48 | a list without repeats is left as it is |
| Lists.DedupFirstOccurrenceOrder | emailer.py:58-60 | kept elements are in the order of their first occurrence in the input |
| OrderedMap.Keys | utils.py:45-48 | the keys of a dict in insertion order, one per entry |
| OrderedMap.Values | emailer.py:53 | `dict.values()`: the values in insertion order, one per entry |
| OrderedMap.Lookup | emailer.py:54-57 | `d[k]` fails (KeyError) exactly when `k` is not a key |
| OrderedMap.LookupFound | emailer.py:55 | a found value is stored under that key |
| OrderedMap.LookupEntry | assigner.py:110-113 | in a dict with distinct keys, an entry's value is what lookup returns |
| OrderedMap.Put | utils.py:48 | `d[k] = v`: a new key goes last, an existing key keeps its place, other entries are untouched, `k` now maps to `v` |
| OrderedMap.PutOther | utils.py:48 | assigning one key leaves the lookup of every other key unchanged |
| Text.Rstrip | utils.py:28 | `rstrip()`: a prefix of the line, not ending in whitespace, with only whitespace removed |
| Text.RstripTrailing | utils.py:28 | stripping text plus trailing whitespace gives back the text |
| Text.Split | utils.py:28 | `split("=")` always yields at least one piece |
| Text.SplitCount | utils.py:28 | the number of pieces is the number of separators plus one |
| Text.SplitPiecesFree | utils.py:28 | no piece contains the separator |
| Text.SplitJoin | utils.py:28 | joining the pieces with the separator restores the input |
| Text.SplitNone | utils.py:28 | text without the separator is one piece |
| Text.SplitOnce | utils.py:28 | `a=b` with no other `=` splits into exactly `[a, b]` |
| Text.Contains | assigner.py:83 | `t in s` holds exactly when `t` occurs at some position of `s` |
| Utils.ParseLine | utils.py:28 | a line splits in two exactly when, stripped, it holds one `=`; the two pieces hold no `=` and joined by `=` give the stripped line back; otherwise the error is the piece count, one more than the number of `=` |
| Utils.ParseConfig | utils.py:25-30 | reading succeeds exactly when every line, stripped, holds one `=`; a failure names a line that does not |
| Utils.ParseConfigFailureSticks | utils.py:27-29 | once a line fails, later lines do not change the outcome |
| Utils.ReadConfig | utils.py:19-30 | the line loop returns what `ParseConfig` states for the whole file |
| Utils.ParseConfigFailure | utils.py:28 | the read fails exactly when some line does not split into two pieces; the error names the first such line and its piece count |
| Utils.BlankLineRejected | utils.py:28 | a blank or whitespace-only line makes the read fail; it is not skipped |
| Utils.LastLineWins | utils.py:29 | a key is bound to the value on its last line |
| Utils.KeysComeFromLines | utils.py:29 | every key read is bound by some line to its value |
| Utils.RenderConfig | utils.py:25-30 | one line per setting |
| Utils.StorableLine | utils.py:28-29 | a `k=v` line with no `=`, `\n` or `\r` in `k` or `v`, and no trailing whitespace in `v`, reads back as `(k, v)` |
| Utils.ConfigRoundTrip | utils.py:25-30 | writing settings with distinct keys as `k=v` lines and reading them back gives the same keys and values |
| Utils.RenderConfigSnoc | utils.py:27-29 | reading one more line updates the map with that line's key and value |
| Utils.FormatOf | utils.py:43-55 | `.xlsx`/`.xls` give a workbook, `.csv` a comma frame, `.txt`/`.tsv` a tab frame, anything else `None`; each holds by the suffix alone, whatever the order of the tests |
| Utils.SuffixIsCaseSensitive | utils.py:43-55 | any file name whose last character is an upper-case letter (`hub.XLSX`, `hub.CsV`, `hub.TSV`, ...) matches no branch |
| Utils.SheetMap | utils.py:45-48 | one entry per distinct sheet name, in first-seen order, each holding that sheet's parse |
| Utils.ReadSpreadsheet | utils.py:36-55 | the suffix decides the result; a workbook has one parsed entry per sheet name; a frame carries its separator; an unknown suffix yields `None` |
| Sql.ParseRenderedArg | assigner.py:128 | a rendered argument reads back, whatever follows it |
| Sql.ParseRenderedArgs | assigner.py:128 | a rendered argument list reads back |
| Sql.ParseRenderedCall | assigner.py:128 | a rendered procedure call reads back |
| Sql.ParseRenderedCalls | assigner.py:146-149 | a rendered list of calls followed by `end;` reads back |
| Sql.BlockRoundTrip | assigner.py:146-149 | a `begin ... end;` block of quote-free calls reads back as the same calls |
| Assigner.ExtractDatahubInfo | assigner.py:105-119 | fails on the workbook lookup exactly when there is no `General` sheet, and with IndexError exactly when it has fewer than two columns |
| Assigner.ExtractDatahubInfoCells | assigner.py:110-113 | the result is the cells at row keys 3 and 4 of the second column of `General` |
| Assigner.ExtractDatahubInfoFound | assigner.py:110-113 | a successful result comes from rows 3 and 4 of the second column of `General` |
| Assigner.ExtractWebinAccounts | assigner.py:131-138 | fails exactly when `Data_Providers` is missing or has fewer than five columns; otherwise the distinct values of the fifth column, in no promised order |
| Assigner.AssignStatement | assigner.py:121-129 | the statement is the block of one `add_dcc_account` call with the five values, then `'ACTIVE'` and `null` |
| Assigner.HubBlockText | assigner.py:128 | that block is exactly the formatted `begin ... end;` text with each value pasted between quotes |
| Assigner.HubArgs | assigner.py:128 | seven arguments, the last two `'ACTIVE'` and `null` |
| Assigner.AssignStatementReadsBack | assigner.py:128 | with quote-free values, the statement reads back as that single call |
| Assigner.AssignStatementNotEscaped | assigner.py:128 | values are not escaped: a hub name holding `', '` gives the same text as a different name and password |
| Assigner.LinkCalls | assigner.py:146-148 | one call per account |
| Assigner.LinkLine | assigner.py:148 | each account gives the line `add_dcc_to_submission_account('account', 'dh');` |
| Assigner.AssignWebinAccounts | assigner.py:140-150 | the accumulated string is `begin\n`, one line per account in input order naming the hub, then `end;\n` |
| Assigner.EmptyLinkBlock | assigner.py:146-149 | no accounts give exactly `begin\nend;\n` |
| Assigner.LinkBlockReadsBack | assigner.py:146-149 | with quote-free values, the block reads back as one call per account, in order, each naming the hub |
| Assigner.Database.Execute | assigner.py:78-79 | executing records the statement; a cursor over the server's rows comes back for a query, `None` for a PL/SQL block |
| Assigner.BlockReturnsNoRows | assigner.py:149 | a rendered `begin ... end;` block, as both statements are, yields no cursor |
| Assigner.Connection.constructor | assigner.py:66 | a new connection is open |
| Assigner.Connection.Close | assigner.py:87 | closing leaves the connection closed |
| Assigner.MetadataFromDatabase.constructor | assigner.py:43-47 | the query and address are stored; no connection yet |
| Assigner.MetadataFromDatabase.GetOracleUsrPwd | assigner.py:49-55 | the operator's user name and password are stored |
| Assigner.MetadataFromDatabase.SetupConnection | assigner.py:57-68 | the connection is made exactly when the server accepts the address and login; otherwise it stays `None` |
| Assigner.MetadataFromDatabase.FetchMetadata | assigner.py:70-88 | without a connection nothing is executed and `None` is returned; otherwise exactly the query is executed; if it contains `SELECT` and `execute` gave `None`, `fetchall` raises AttributeError and the connection stays open; otherwise the rows (for `SELECT`) or `""` come back and the connection is closed |
| Assigner.Setting | assigner.py:128 | `configuration[key]`: the value when the key is present, KeyError naming the key otherwise |
| Assigner.Address | assigner.py:159 | the host, port and service; a missing one raises KeyError for the first missing of `HOST`, `PORT`, `SERVICE` |
| Assigner.HubStatement | assigner.py:156-159 | the hub statement is built exactly when the `General` sheet can be read and `WEBIN`, `HOST`, `PORT` and `SERVICE` are set; it is the `add_dcc_account` block of the sheet's description and abstract; errors come in the order the code meets them, the first missing of `HOST`, `PORT`, `SERVICE` included |
| Assigner.RunStatement | assigner.py:159-160 | one `fetch_metadata` run executes the statement exactly when the server accepts the login, and raises exactly when it ran, contains `SELECT` and yields no rows |
| Assigner.AssignConfigure | assigner.py:152-166 | extraction or setting errors stop the run before anything is executed; otherwise the hub statement runs first, and then the link block if the hub statement did not raise and the accounts can be read; the statements run are exactly those whose login the server accepts; a statement that runs and contains `SELECT` ends the run with AttributeError |
| Assigner.SelectInHubNameRaises | assigner.py:83-84 | a hub name containing `SELECT` puts `SELECT` into the hub statement, so running it raises AttributeError |
| Mail.InitialHeaders | emailer.py:45 | a new multipart carries a `Content-Type` header and `MIME-Version: 1.0` |
| Mail.Message.constructor | emailer.py:45 | a new `MIMEMultipart` has its subtype, its `Content-Type` and `MIME-Version` headers and no parts |
| Mail.Message.SetHeader | emailer.py:67 | setting a header adds it after the existing ones |
| Mail.Message.Attach | emailer.py:92-93 | attaching adds a part after the existing ones |
| Mail.Recipients | emailer.py:133-137 | the addresses of a send trace, one per message, in order |
| Mail.SmtpSession.constructor | emailer.py:131 | a new session has its host and port, no login and nothing sent |
| Mail.SmtpSession.Login | emailer.py:132 | the login is recorded |
| Mail.SmtpSession.SendMail | emailer.py:135-137 | each `sendmail` appends one envelope with its sender, recipient and the message's current headers and parts |
| Mail.SendEmails.constructor | emailer.py:108-119 | recipients, message, sender and port are stored |
| Mail.SendEmails.SendEmail | emailer.py:121-137 | adds a `From` header, opens smtp.gmail.com on the configured port, logs in as the sender, and sends the message once to each address, in list order, from the sender; before each sending a `To` header is added to those already there, so the mail to an address names it and every address before it |
| Contacts.ContactEmailsAppend | emailer.py:53-60 | the sheet-by-sheet address list splits at any point of the workbook |
| Contacts.ContactEmailsMembership | emailer.py:53-60 | an address is listed exactly when it is a value of the `Email` column of some sheet that has one |
| Contacts.SheetWithoutEmailSkipped | emailer.py:54-57 | a sheet without an `Email` column contributes nothing, wherever it is |
| Contacts.FirstWithoutEmailExists | datahub_emails.py:33 | some sheet lacks the column exactly when there is a first one that does |
| Emailer.Subject | emailer.py:67 | the subject names the hub |
| Emailer.PlainText | emailer.py:68-74 | the plain body holds the hub name and the password |
| Emailer.HtmlText | emailer.py:75-84 | the HTML body holds the hub name and the password |
| Emailer.Bodies | emailer.py:87-93 | two parts, plain first and HTML second, each holding the hub name and the password |
| Emailer.SubjectNamesHub | emailer.py:67 | the subject `[ENA Data Hubs] <hub>: Credentials` determines the hub name |
| Emailer.PlainTextNamesCredentials | emailer.py:68-74 | for a hub name without a line break, the plain body `Username: <hub>\nPassword: <pw>` plus the fixed footer determines both the hub name and the password |
| Emailer.HtmlTextNamesCredentials | emailer.py:75-84 | for a hub name without `<`, the HTML body determines both the hub name and the password |
| Emailer.PrepareEmails.constructor | emailer.py:37-45 | the workbook and credentials are stored; the message is a fresh `alternate` multipart |
| Emailer.PrepareEmails.ObtainAllEmails | emailer.py:47-60 | resets the list and collects the `Email` column values of all sheets, skipping sheets without one, each address once, in first-seen order; re-running gives the same list |
| Emailer.PrepareEmails.DatahubCredentials | emailer.py:62-93 | adds the subject naming the hub, then the plain part, then the HTML part |
| Emailer.PrepareEmails.PrepareEmail | emailer.py:95-102 | returns the collected addresses and the finished message |
| Emailer.CollectedEmails | emailer.py:53-60 | the collected list has no repeats and holds exactly the addresses of the `Email` columns |
| DatahubEmails.PrepareEmails.constructor | datahub_emails.py:17-23 | the workbook is stored; the message is a fresh `alternate` multipart |
| DatahubEmails.PrepareEmails.ObtainAllEmails | datahub_emails.py:26-36 | succeeds exactly when every sheet has an `Email` column, with every address once in first-seen order; otherwise KeyError at the first sheet without one, with the addresses of the earlier sheets collected |
| DatahubEmails.PrepareEmails.DatahubCredentials | datahub_emails.py:39-68 | adds the fixed subject, then the fixed plain part, then the fixed HTML part |
| DatahubEmails.PrepareEmails.PrepareEmail | datahub_emails.py:71-78 | the KeyError propagates before the message is touched; otherwise returns the addresses and the finished message |
| DatahubEmails.Run | datahub_emails.py:118-127 | fails if the file is not a workbook, then if a sheet lacks `Email`, then if `ADMIN_EMAIL` or `PORT` is missing; otherwise every collected address gets one mail from `ADMIN_EMAIL` over smtp.gmail.com on port `PORT`, with the fixed subject and bodies; the headers of the mail to the i-th address are `Content-Type`, `MIME-Version`, `Subject`, `From` and the `To` headers of the first i+1 addresses |
| DatahubEmails.CollectedEmails | datahub_emails.py:31-36 | the collected list has no repeats, and its addresses are the union of every sheet's `Email` column |
| DatahubEmails.BodyHoldsNoCredentials | datahub_emails.py:45-50 | the plain body is a constant with `[]` placeholders; it is never the credentials text emailer.py builds, whatever hub name and password are given |

## Left out

- Oracle client initialisation, `makedsn`, `connect`, `cursor` and the module-level `exit(1)` (assigner.py:13-19, 57-68, 78-79). These are foreign database I/O. A `Database` stub that knows its accepted logins and records executed statements stands in for them. A failing `execute` is not modelled.
- Assigner.Database.Execute: the stub tells a query from another statement by whether its text opens with `begin`. Other statements that yield no cursor, such as DML or a `declare` block, are treated as queries; the program issues none.
- The `input`/`getpass` prompts (assigner.py:54-55, emailer.py:129, datahub_emails.py:106). The values they return are parameters.
- pandas parsing (utils.py:44, 47, 51, 54). The sheet parser and the delimited-file parser are function parameters. Cells are strings, so NaN and numeric cells are not modelled.
- The `open("config.txt")` call (utils.py:26). The file is given as its sequence of lines.
- SMTP over SSL, the SSL context, login failures and `as_string` serialisation. A session stub records the host, port, login and each `sendmail` call.
- The `quit` that closes the SMTP session when the `with` block ends (emailer.py:131, datahub_emails.py:108). The session stub has no closed state.
- The `print` output of assigner.py (error messages at line 68, the query echo at lines 80-82 and the hub summary at lines 114-118). It is console output only and changes no state.
- Mail.Message.constructor: `headers` holds the `Content-Type` value as `multipart/<subtype>` without its `boundary` parameter, which the library chooses only when the message is serialised.
- The HTML markup is kept as text. The only property proved about it is that the hub name and password can be read back from it (Emailer.HtmlTextNamesCredentials).
- `get_args`, main.py, the `__main__` block of assigner.py (assigner.py:170-176, which reads the configuration and the spreadsheet and runs `assign_configure`) and the `__main__` block of emailer.py, including its use of `EMAIL_PORT` where datahub_emails.py uses `PORT`. These are command-line plumbing.
- `Config.validate`, an empty method.
- What the stored procedures `add_dcc_account` and `add_dcc_to_submission_account` do. They run in the external database.
- Assigner.ExtractWebinAccounts: the order of `list(set(...))` depends on Python's hashing. The method picks each next element nondeterministically, so it promises no order.
- Emailer.PrepareEmails.constructor, DatahubEmails.PrepareEmails.constructor and Assigner.MetadataFromDatabase.constructor: Dafny fields need an initial value, so `emails` starts as `[]`, and `usr` and `pwd` start as `""` and `connection` as `null`. In Python these attributes only exist once `obtain_all_emails`, `get_oracle_usr_pwd` or `setup_connection` has run.
- DatahubEmails.Run: a spreadsheet that was not read as a workbook fails with a single `NotAWorkbook` error. This covers `None` for an unknown suffix and a data frame for `.csv`/`.txt`/`.tsv`, whose `values` is not callable. The two Python exception types are not told apart.
