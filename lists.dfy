/** Sequences without duplicates, and the "append it if it is not there yet"
    idiom that both e-mail collectors and the workbook reader use. */
module Lists {

  /** No element occurs twice. */
  predicate NoDup<T(==)>(s: seq<T>)
  {
    forall i, j :: 0 <= i < j < |s| ==> s[i] != s[j]
  }

  /** The position of the first occurrence of `x` in `xs`. */
  function FirstIndex<T(==)>(xs: seq<T>, x: T): (i: nat)
    requires x in xs
    ensures i < |xs| && xs[i] == x && x !in xs[..i]
  {
    if xs[0] == x then 0 else 1 + FirstIndex(xs[1..], x)
  }

  /** Scans `xs` left to right and keeps each element the first time it is
      seen; defined on the last element, as a loop that appends builds it. */
  function Dedup<T(==)>(xs: seq<T>): seq<T>
  {
    if xs == [] then []
    else
      var d := Dedup(xs[..|xs| - 1]);
      if xs[|xs| - 1] in d then d else d + [xs[|xs| - 1]]
  }

  /** One more element scanned: the step a loop body performs. */
  lemma DedupSnoc<T>(xs: seq<T>, x: T)
    ensures Dedup(xs + [x]) == if x in Dedup(xs) then Dedup(xs) else Dedup(xs) + [x]
  {
    assert (xs + [x])[..|xs + [x]| - 1] == xs;
  }

  /** The step of a loop that scans `s` after `before` was already scanned. */
  lemma DedupScanStep<T>(before: seq<T>, s: seq<T>, j: nat)
    requires j < |s|
    ensures Dedup(before + s[..j + 1]) ==
      var d := Dedup(before + s[..j]); if s[j] in d then d else d + [s[j]]
  {
    assert before + s[..j + 1] == (before + s[..j]) + [s[j]];
    DedupSnoc(before + s[..j], s[j]);
  }

  /** The result keeps exactly the elements of the input. */
  lemma {:induction false} DedupElements<T>(xs: seq<T>, x: T)
    ensures x in Dedup(xs) <==> x in xs
  {
    if xs != [] {
      var init := xs[..|xs| - 1];
      DedupElements(init, x);
      assert xs == init + [xs[|xs| - 1]];
    }
  }

  /** The result has no duplicates and is never longer than the input. */
  lemma {:induction false} DedupNoDup<T>(xs: seq<T>)
    ensures NoDup(Dedup(xs))
    ensures |Dedup(xs)| <= |xs|
  {
    if xs != [] {
      var init := xs[..|xs| - 1];
      DedupNoDup(init);
      DedupElements(init, xs[|xs| - 1]);
    }
  }

  /** A list that already has no duplicates comes back unchanged. */
  lemma {:induction false} DedupOfNoDup<T>(xs: seq<T>)
    requires NoDup(xs)
    ensures Dedup(xs) == xs
  {
    if xs != [] {
      var init := xs[..|xs| - 1];
      assert NoDup(init);
      DedupOfNoDup(init);
      assert xs[|xs| - 1] !in init;
      assert xs == init + [xs[|xs| - 1]];
    }
  }

  lemma FirstIndexInPrefix<T>(xs: seq<T>, y: T, x: T)
    requires y in xs
    ensures FirstIndex(xs + [x], y) == FirstIndex(xs, y)
  {
    var i := FirstIndex(xs, y);
    assert (xs + [x])[i] == y;
  }

  /** The result lists the elements in the order of their first occurrence
      in the input. */
  lemma {:induction false} DedupFirstOccurrenceOrder<T>(xs: seq<T>, i: nat, j: nat)
    requires i < j < |Dedup(xs)|
    ensures Dedup(xs)[i] in xs && Dedup(xs)[j] in xs
    ensures FirstIndex(xs, Dedup(xs)[i]) < FirstIndex(xs, Dedup(xs)[j])
  {
    var d := Dedup(xs);
    DedupElements(xs, d[i]);
    DedupElements(xs, d[j]);
    var init := xs[..|xs| - 1];
    var x := xs[|xs| - 1];
    assert xs == init + [x];
    var di := Dedup(init);
    DedupElements(init, d[i]);
    if x in di || j < |di| {
      DedupFirstOccurrenceOrder(init, i, j);
      FirstIndexInPrefix(init, di[i], x);
      FirstIndexInPrefix(init, di[j], x);
    } else {
      // d[j] is x, seen for the first time at the last position
      assert d[j] == x && d[i] == di[i];
      DedupElements(init, x);
      FirstIndexInPrefix(init, d[i], x);
    }
  }
}
