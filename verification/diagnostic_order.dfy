/** The final ordering of a lint report: a stable sort by start line index.
    `SortByLine` is the reference definition (insertion from the back, so an
    element never passes an equal-keyed one); the lemmas prove it sorted, a
    permutation of its input and stable, and `SortDiagnosticsByLine` computes
    it with a loop. */
module DiagnosticOrder {
  import opened Diagnostics

  ghost predicate SortedByLine(ds: seq<LintDiagnostic>)
  {
    forall i, j :: 0 <= i < j < |ds| ==> StartLine(ds[i]) <= StartLine(ds[j])
  }

  /** The diagnostics of `ds` that start on `line`, in their order in `ds`. */
  function OnLine(ds: seq<LintDiagnostic>, line: nat): seq<LintDiagnostic>
  {
    if ds == [] then []
    else OnLine(ds[..|ds| - 1], line) + (if StartLine(ds[|ds| - 1]) == line then [ds[|ds| - 1]] else [])
  }

  /** Inserts `d` after every element of `r` whose line is not greater. */
  function InsertByLine(r: seq<LintDiagnostic>, d: LintDiagnostic): seq<LintDiagnostic>
  {
    if r == [] || StartLine(r[|r| - 1]) <= StartLine(d) then r + [d]
    else InsertByLine(r[..|r| - 1], d) + [r[|r| - 1]]
  }

  function SortByLine(ds: seq<LintDiagnostic>): seq<LintDiagnostic>
  {
    if ds == [] then [] else InsertByLine(SortByLine(ds[..|ds| - 1]), ds[|ds| - 1])
  }

  lemma {:induction false} OnLineAppend(a: seq<LintDiagnostic>, b: seq<LintDiagnostic>, line: nat)
    ensures OnLine(a + b, line) == OnLine(a, line) + OnLine(b, line)
    decreases |b|
  {
    if b == [] {
      assert a + b == a;
    } else {
      var b' := b[..|b| - 1];
      assert (a + b)[..|a + b| - 1] == a + b';
      assert (a + b)[|a + b| - 1] == b[|b| - 1];
      OnLineAppend(a, b', line);
    }
  }

  lemma {:induction false} InsertPermutes(r: seq<LintDiagnostic>, d: LintDiagnostic)
    ensures multiset(InsertByLine(r, d)) == multiset(r) + multiset{d}
    decreases |r|
  {
    if r == [] || StartLine(r[|r| - 1]) <= StartLine(d) {
    } else {
      var r' := r[..|r| - 1];
      assert r == r' + [r[|r| - 1]];
      InsertPermutes(r', d);
    }
  }

  lemma {:induction false} InsertMembers(r: seq<LintDiagnostic>, d: LintDiagnostic)
    ensures forall x :: x in InsertByLine(r, d) <==> x in r || x == d
    decreases |r|
  {
    if r == [] || StartLine(r[|r| - 1]) <= StartLine(d) {
    } else {
      var r' := r[..|r| - 1];
      assert r == r' + [r[|r| - 1]];
      InsertMembers(r', d);
    }
  }

  /** Every diagnostic of a non-empty line-sorted sequence is on or before the
      line of its last one. */
  lemma SortedBoundedByLast(r: seq<LintDiagnostic>)
    requires SortedByLine(r) && r != []
    ensures forall y | y in r :: StartLine(y) <= StartLine(r[|r| - 1])
  {
    forall y | y in r ensures StartLine(y) <= StartLine(r[|r| - 1]) {
      var k :| 0 <= k < |r| && r[k] == y;
      assert k == |r| - 1 || StartLine(r[k]) <= StartLine(r[|r| - 1]);
    }
  }

  /** Appending a diagnostic on or after every line of a sorted sequence keeps
      it sorted. */
  lemma SortedSnoc(r: seq<LintDiagnostic>, x: LintDiagnostic)
    requires SortedByLine(r)
    requires forall y | y in r :: StartLine(y) <= StartLine(x)
    ensures SortedByLine(r + [x])
  {
    forall i, j | 0 <= i < j < |r + [x]| ensures StartLine((r + [x])[i]) <= StartLine((r + [x])[j]) {
      assert (r + [x])[i] == r[i];
      if j == |r| {
        assert r[i] in r;
      } else {
        assert (r + [x])[j] == r[j];
      }
    }
  }

  lemma {:induction false} InsertSorted(r: seq<LintDiagnostic>, d: LintDiagnostic)
    requires SortedByLine(r)
    ensures SortedByLine(InsertByLine(r, d))
    decreases |r|
  {
    if r == [] {
      SortedSnoc(r, d);
    } else if StartLine(r[|r| - 1]) <= StartLine(d) {
      SortedBoundedByLast(r);
      SortedSnoc(r, d);
    } else {
      var r' := r[..|r| - 1];
      var last := r[|r| - 1];
      assert SortedByLine(r') by {
        forall i, j | 0 <= i < j < |r'| ensures StartLine(r'[i]) <= StartLine(r'[j]) {
          assert r'[i] == r[i] && r'[j] == r[j];
        }
      }
      InsertSorted(r', d);
      InsertMembers(r', d);
      SortedBoundedByLast(r);
      forall y | y in r' ensures y in r {
      }
      SortedSnoc(InsertByLine(r', d), last);
    }
  }

  lemma {:induction false} InsertStable(r: seq<LintDiagnostic>, d: LintDiagnostic, line: nat)
    ensures OnLine(InsertByLine(r, d), line) == OnLine(r, line) + (if StartLine(d) == line then [d] else [])
    decreases |r|
  {
    if r == [] || StartLine(r[|r| - 1]) <= StartLine(d) {
      OnLineAppend(r, [d], line);
      assert [d][..0] == [];
    } else {
      var r' := r[..|r| - 1];
      var last := r[|r| - 1];
      assert r == r' + [last];
      InsertStable(r', d, line);
      OnLineAppend(InsertByLine(r', d), [last], line);
      OnLineAppend(r', [last], line);
      assert [last][..0] == [];
    }
  }

  /** The sorted order is non-decreasing in start line. */
  lemma {:induction false} SortIsSorted(ds: seq<LintDiagnostic>)
    ensures SortedByLine(SortByLine(ds))
    decreases |ds|
  {
    if ds != [] {
      SortIsSorted(ds[..|ds| - 1]);
      InsertSorted(SortByLine(ds[..|ds| - 1]), ds[|ds| - 1]);
    }
  }

  /** Sorting neither loses nor duplicates a diagnostic. */
  lemma {:induction false} SortIsPermutation(ds: seq<LintDiagnostic>)
    ensures multiset(SortByLine(ds)) == multiset(ds)
    decreases |ds|
  {
    if ds != [] {
      var ds' := ds[..|ds| - 1];
      SortIsPermutation(ds');
      InsertPermutes(SortByLine(ds'), ds[|ds| - 1]);
      assert ds == ds' + [ds[|ds| - 1]];
    }
  }

  /** Diagnostics that start on the same line keep their relative order. */
  lemma {:induction false} SortIsStable(ds: seq<LintDiagnostic>, line: nat)
    ensures OnLine(SortByLine(ds), line) == OnLine(ds, line)
    decreases |ds|
  {
    if ds != [] {
      var ds' := ds[..|ds| - 1];
      SortIsStable(ds', line);
      InsertStable(SortByLine(ds'), ds[|ds| - 1], line);
    }
  }

  lemma {:induction false} OnLineMembers(ds: seq<LintDiagnostic>, line: nat)
    ensures forall d :: d in OnLine(ds, line) <==> d in ds && StartLine(d) == line
    decreases |ds|
  {
    if ds != [] {
      var ds' := ds[..|ds| - 1];
      OnLineMembers(ds', line);
      assert ds == ds' + [ds[|ds| - 1]];
    }
  }

  lemma OnLineSnoc(ds: seq<LintDiagnostic>, d: LintDiagnostic, line: nat)
    ensures OnLine(ds + [d], line) == if StartLine(d) == line then OnLine(ds, line) + [d] else OnLine(ds, line)
  {
    assert (ds + [d])[..|ds|] == ds;
    assert OnLine(ds, line) + [] == OnLine(ds, line);
  }

  /** A diagnostic of `ds` shows up on its own line. */
  lemma InOwnLine(ds: seq<LintDiagnostic>, d: LintDiagnostic)
    requires d in ds
    ensures OnLine(ds, StartLine(d)) != []
  {
    OnLineMembers(ds, StartLine(d));
  }

  /** A sequence that agrees on every line with the empty one is empty. */
  lemma NoLinesMeansEmpty(t: seq<LintDiagnostic>, u: seq<LintDiagnostic>)
    requires t == []
    requires forall line: nat :: OnLine(t, line) == OnLine(u, line)
    ensures u == []
  {
    if u != [] {
      var line := StartLine(u[0]);
      assert OnLine(u, line) == [];
      InOwnLine(u, u[0]);
      assert false;
    }
  }

  lemma SnocInjective(a: seq<LintDiagnostic>, x: LintDiagnostic, b: seq<LintDiagnostic>, y: LintDiagnostic)
    requires a + [x] == b + [y]
    ensures a == b && x == y
  {
    assert |a| == |b|;
    assert (a + [x])[|a|] == x && (b + [y])[|b|] == y;
    assert (a + [x])[..|a|] == a && (b + [y])[..|b|] == b;
  }

  /** When `u` is line-sorted and agrees with `t` on every line, the last
      diagnostic of `t` is not on a later line than the last one of `u`. */
  lemma LastLineBounded(t: seq<LintDiagnostic>, u: seq<LintDiagnostic>)
    requires SortedByLine(u) && t != [] && u != []
    requires forall line: nat :: OnLine(t, line) == OnLine(u, line)
    ensures StartLine(t[|t| - 1]) <= StartLine(u[|u| - 1])
  {
    var x := t[|t| - 1];
    OnLineMembers(t, StartLine(x));
    OnLineMembers(u, StartLine(x));
    assert x in OnLine(u, StartLine(x));
    SortedBoundedByLast(u);
  }

  /** Two sequences that agree on every line and end in diagnostics on the
      same line end in the same diagnostic, and agree on every line without it. */
  lemma SnocAgreeing(t: seq<LintDiagnostic>, x: LintDiagnostic, u: seq<LintDiagnostic>, y: LintDiagnostic)
    requires StartLine(x) == StartLine(y)
    requires forall line: nat :: OnLine(t + [x], line) == OnLine(u + [y], line)
    ensures x == y
    ensures forall line: nat :: OnLine(t, line) == OnLine(u, line)
  {
    forall line: nat ensures OnLine(t, line) == OnLine(u, line) {
      OnLineSnoc(t, x, line);
      OnLineSnoc(u, y, line);
      assert OnLine(t + [x], line) == OnLine(u + [y], line);
      if StartLine(x) == line {
        SnocInjective(OnLine(t, line), x, OnLine(u, line), y);
      }
    }
    var line := StartLine(x);
    OnLineSnoc(t, x, line);
    OnLineSnoc(u, y, line);
    assert OnLine(t + [x], line) == OnLine(u + [y], line);
    SnocInjective(OnLine(t, line), x, OnLine(u, line), y);
  }

  /** Two line-sorted sequences that agree on every line's diagnostics agree. */
  lemma {:induction false} SortedAgreeingOnLinesEqual(t: seq<LintDiagnostic>, u: seq<LintDiagnostic>)
    requires SortedByLine(t) && SortedByLine(u)
    requires forall line: nat :: OnLine(t, line) == OnLine(u, line)
    ensures t == u
    decreases |t|
  {
    if t == [] {
      NoLinesMeansEmpty(t, u);
    } else if u == [] {
      NoLinesMeansEmpty(u, t);
    } else {
      var t', x := t[..|t| - 1], t[|t| - 1];
      var u', y := u[..|u| - 1], u[|u| - 1];
      assert t == t' + [x] && u == u' + [y];
      LastLineBounded(t, u);
      LastLineBounded(u, t);
      SnocAgreeing(t', x, u', y);
      assert SortedByLine(t') && SortedByLine(u') by {
        forall i, j | 0 <= i < j < |t'| ensures StartLine(t'[i]) <= StartLine(t'[j]) {
          assert t'[i] == t[i] && t'[j] == t[j];
        }
        forall i, j | 0 <= i < j < |u'| ensures StartLine(u'[i]) <= StartLine(u'[j]) {
          assert u'[i] == u[i] && u'[j] == u[j];
        }
      }
      SortedAgreeingOnLinesEqual(t', u');
    }
  }

  /** `SortByLine` is the only stable sort by start line: any sequence that
      is ordered by line and keeps each line's diagnostics in their input
      order is equal to it. */
  lemma SortByLineIsTheStableSort(ds: seq<LintDiagnostic>, t: seq<LintDiagnostic>)
    requires SortedByLine(t)
    requires forall line: nat :: OnLine(t, line) == OnLine(ds, line)
    ensures t == SortByLine(ds)
  {
    SortIsSorted(ds);
    forall line: nat ensures OnLine(t, line) == OnLine(SortByLine(ds), line) {
      SortIsStable(ds, line);
    }
    SortedAgreeingOnLinesEqual(t, SortByLine(ds));
  }

  /** One step of the backward scan: passing an element on a later line. */
  lemma InsertScanStep(s: seq<LintDiagnostic>, j: nat, d: LintDiagnostic)
    requires 0 < j <= |s| && StartLine(s[j - 1]) > StartLine(d)
    ensures InsertByLine(s[..j], d) + s[j..] == InsertByLine(s[..j - 1], d) + s[j - 1..]
  {
    var r := s[..j];
    assert r[..|r| - 1] == s[..j - 1] && r[|r| - 1] == s[j - 1];
    assert InsertByLine(r, d) == InsertByLine(s[..j - 1], d) + [s[j - 1]];
    assert s[j - 1..] == [s[j - 1]] + s[j..];
  }

  /** Where insertion sort puts `d`: after the last element of `sorted` whose
      line is not greater, found by scanning back from the end. */
  method InsertionPoint(sorted: seq<LintDiagnostic>, d: LintDiagnostic) returns (j: nat)
    ensures j <= |sorted|
    ensures InsertByLine(sorted, d) == sorted[..j] + [d] + sorted[j..]
  {
    j := |sorted|;
    assert sorted[..j] == sorted && sorted[j..] == [];
    while j > 0 && StartLine(sorted[j - 1]) > StartLine(d)
      invariant 0 <= j <= |sorted|
      invariant InsertByLine(sorted, d) == InsertByLine(sorted[..j], d) + sorted[j..]
    {
      InsertScanStep(sorted, j, d);
      j := j - 1;
    }
  }

  /** The order that `sort_by_key` leaves: in place of the library's
      algorithm, an insertion sort that scans back past strictly later lines. */
  method SortDiagnosticsByLine(ds: seq<LintDiagnostic>) returns (sorted: seq<LintDiagnostic>)
    ensures sorted == SortByLine(ds)
  {
    sorted := [];
    var i := 0;
    while i < |ds|
      invariant 0 <= i <= |ds|
      invariant sorted == SortByLine(ds[..i])
    {
      var j := InsertionPoint(sorted, ds[i]);
      assert ds[..i + 1][..i] == ds[..i];
      sorted := sorted[..j] + [ds[i]] + sorted[j..];
      i := i + 1;
    }
    assert ds[..i] == ds;
  }
}
