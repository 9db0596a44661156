/** The addresses both mailers collect from the contact workbook: every
    value of the "Email" column of every sheet, sheets in workbook order and
    rows in column order. */
module Contacts {
  import opened Wrappers
  import opened Lists
  import opened OrderedMap
  import opened Spreadsheet

  /** `list(sheet['Email'].values())`, or nothing for a sheet without an
      "Email" column. */
  function SheetEmails(sheet: Sheet): seq<string>
  {
    match Lookup(sheet, "Email")
    case None => []
    case Some(column) => Values(column)
  }

  /** The addresses of all sheets one after another, repeats included. */
  function ContactEmails(book: Workbook): seq<string>
  {
    if book == [] then [] else ContactEmails(book[..|book| - 1]) + SheetEmails(book[|book| - 1].1)
  }

  /** The sheet-by-sheet scan splits at any point of the workbook. */
  lemma {:induction false} ContactEmailsAppend(a: Workbook, b: Workbook)
    ensures ContactEmails(a + b) == ContactEmails(a) + ContactEmails(b)
  {
    if b != [] {
      var n := |b| - 1;
      assert (a + b)[..|a + b| - 1] == a + b[..n];
      ContactEmailsAppend(a, b[..n]);
    } else {
      assert a + b == a;
    }
  }

  /** One more sheet adds its own addresses at the end. */
  lemma ContactEmailsSnoc(book: Workbook, i: nat)
    requires i < |book|
    ensures ContactEmails(book[..i + 1]) == ContactEmails(book[..i]) + SheetEmails(book[i].1)
  {
    assert book[..i + 1][..i] == book[..i];
  }

  /** An address is collected exactly when it is a value of the "Email"
      column of some sheet that has one (see `SheetEmails`). */
  lemma {:induction false} ContactEmailsMembership(book: Workbook, x: string)
    ensures x in ContactEmails(book) <==> exists i :: 0 <= i < |book| && x in SheetEmails(book[i].1)
  {
    if book != [] {
      var n := |book| - 1;
      ContactEmailsMembership(book[..n], x);
      assert forall i :: 0 <= i < n ==> book[..n][i] == book[i];
    }
  }

  /** A sheet without an "Email" column contributes nothing, wherever it
      sits in the workbook. */
  lemma SheetWithoutEmailSkipped(a: Workbook, name: string, sheet: Sheet, b: Workbook)
    requires Lookup(sheet, "Email").None?
    ensures ContactEmails(a + [(name, sheet)] + b) == ContactEmails(a + b)
  {
    var one := [(name, sheet)];
    assert one[..0] == [];
    assert ContactEmails(one) == [];
    ContactEmailsAppend(a + one, b);
    ContactEmailsAppend(a, one);
    ContactEmailsAppend(a, b);
  }

  /** Every sheet has an "Email" column. */
  predicate AllHaveEmail(book: Workbook)
  {
    forall i :: 0 <= i < |book| ==> Lookup(book[i].1, "Email").Some?
  }

  /** One more sheet with an "Email" column. */
  lemma AllHaveEmailSnoc(book: Workbook, i: nat)
    requires i < |book| && AllHaveEmail(book[..i]) && Lookup(book[i].1, "Email").Some?
    ensures AllHaveEmail(book[..i + 1])
  {
    assert forall k :: 0 <= k < i ==> book[..i + 1][k] == book[..i][k];
  }

  /** Sheet `k` is the first one without an "Email" column. */
  predicate FirstWithoutEmail(book: Workbook, k: int)
  {
    0 <= k < |book| && Lookup(book[k].1, "Email").None? && AllHaveEmail(book[..k])
  }

  /** A workbook fails to have the column everywhere exactly when some
      sheet is the first to lack it. */
  lemma {:induction false} FirstWithoutEmailExists(book: Workbook)
    ensures !AllHaveEmail(book) <==> exists k :: FirstWithoutEmail(book, k)
  {
    if !AllHaveEmail(book) {
      var n := |book| - 1;
      assert forall j :: 0 <= j < n ==> book[..n][j] == book[j];
      if AllHaveEmail(book[..n]) {
        assert FirstWithoutEmail(book, n);
      } else {
        FirstWithoutEmailExists(book[..n]);
        var k :| FirstWithoutEmail(book[..n], k);
        assert book[..n][..k] == book[..k];
        assert FirstWithoutEmail(book, k);
      }
    }
    if exists k :: FirstWithoutEmail(book, k) {
      var k :| FirstWithoutEmail(book, k);
      assert !AllHaveEmail(book);
    }
  }
}
