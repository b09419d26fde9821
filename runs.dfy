/**
 * Run detection along one line of symbols, the rule behind both
 * `checkPaylineWin` (5x5 engine) and `checkLineForWins` (probability module):
 * scan left to right, keep a current run of equal names, close it on a
 * mismatch and at the end, and report every closed run of length >= 3.
 *
 * `Qualifying` is the reference definition: the maximal runs of the line, cut
 * from the left, filtered by length >= 3.
 */
module Runs {
  import opened Symbols

  /** The minimum run length that pays (`MIN_MATCH_LENGTH`). */
  const MinMatchLength: nat := 3

  /** A run: `length` equal names starting at offset `start` of the line. */
  datatype Run = Run(start: nat, length: nat)

  /** End (exclusive) of the maximal run of equal names that starts at `i`. */
  function RunEnd(s: seq<Symbol>, i: nat): (e: nat)
    requires i < |s|
    decreases |s| - i
    ensures i < e <= |s|
    ensures forall m :: i <= m < e ==> s[m].name == s[i].name
    ensures e < |s| ==> s[e].name != s[i].name
  {
    if i + 1 == |s| || s[i + 1].name != s[i].name then i + 1 else RunEnd(s, i + 1)
  }

  /** `RunEnd` is the only end with its two properties. */
  lemma RunEndUnique(s: seq<Symbol>, i: nat, e: nat)
    requires i < e <= |s|
    requires forall m :: i <= m < e ==> s[m].name == s[i].name
    requires e < |s| ==> s[e].name != s[i].name
    ensures RunEnd(s, i) == e
  {
  }

  /** The qualifying runs of `s` that start at or after the run boundary `i`. */
  function QualifyingFrom(s: seq<Symbol>, i: nat): (rs: seq<Run>)
    decreases |s| - i
    ensures forall j :: 0 <= j < |rs| ==>
      MinMatchLength <= rs[j].length && i <= rs[j].start && rs[j].start + rs[j].length <= |s|
  {
    if i >= |s| then []
    else
      var e := RunEnd(s, i);
      (if e - i >= MinMatchLength then [Run(i, e - i)] else []) + QualifyingFrom(s, e)
  }

  /** The qualifying runs of the whole line, left to right. */
  function Qualifying(s: seq<Symbol>): (rs: seq<Run>)
    ensures forall j :: 0 <= j < |rs| ==>
      MinMatchLength <= rs[j].length && rs[j].start + rs[j].length <= |s|
  {
    QualifyingFrom(s, 0)
  }

  /** Each reported run is a block of equal names. */
  ghost predicate Uniform(s: seq<Symbol>, rs: seq<Run>)
    requires forall j :: 0 <= j < |rs| ==> rs[j].start + rs[j].length <= |s|
  {
    forall j, m :: 0 <= j < |rs| && rs[j].start <= m < rs[j].start + rs[j].length ==>
      s[m].name == s[rs[j].start].name
  }

  /** Each reported run is maximal: it cannot be extended left or right. */
  ghost predicate Maximal(s: seq<Symbol>, rs: seq<Run>)
    requires forall j :: 0 <= j < |rs| ==> 0 < rs[j].length && rs[j].start + rs[j].length <= |s|
  {
    forall j :: 0 <= j < |rs| ==>
      (rs[j].start == 0 || s[rs[j].start - 1].name != s[rs[j].start].name) &&
      (rs[j].start + rs[j].length == |s| || s[rs[j].start + rs[j].length].name != s[rs[j].start].name)
  }

  /** Runs are reported left to right without overlapping. */
  ghost predicate Ordered(rs: seq<Run>) {
    forall j :: 0 < j < |rs| ==> rs[j - 1].start + rs[j - 1].length <= rs[j].start
  }

  /** `i` is where a maximal run begins. */
  ghost predicate Boundary(s: seq<Symbol>, i: nat)
    requires i <= |s|
  {
    i == 0 || i == |s| || s[i - 1].name != s[i].name
  }

  lemma {:induction false} QualifyingFromUniform(s: seq<Symbol>, i: nat)
    ensures Uniform(s, QualifyingFrom(s, i))
    decreases |s| - i
  {
    if i < |s| {
      var e := RunEnd(s, i);
      QualifyingFromUniform(s, e);
    }
  }

  lemma {:induction false} QualifyingFromMaximal(s: seq<Symbol>, i: nat)
    requires i <= |s| && Boundary(s, i)
    ensures Maximal(s, QualifyingFrom(s, i))
    decreases |s| - i
  {
    if i < |s| {
      var e := RunEnd(s, i);
      QualifyingFromMaximal(s, e);
    }
  }

  lemma {:induction false} QualifyingFromOrdered(s: seq<Symbol>, i: nat)
    requires i <= |s|
    ensures Ordered(QualifyingFrom(s, i))
    ensures MinMatchLength * |QualifyingFrom(s, i)| <= |s| - i
    decreases |s| - i
  {
    if i < |s| {
      var e := RunEnd(s, i);
      QualifyingFromOrdered(s, e);
      var rest := QualifyingFrom(s, e);
      var rs := QualifyingFrom(s, i);
      if e - i >= MinMatchLength {
        assert rs == [Run(i, e - i)] + rest;
        assert forall j :: 0 < j < |rs| ==> rs[j] == rest[j - 1];
      } else {
        assert rs == rest;
      }
    }
  }

  /** The scan reports uniform, maximal runs, in order, at most one per three cells. */
  lemma QualifyingSound(s: seq<Symbol>)
    ensures Uniform(s, Qualifying(s))
    ensures Maximal(s, Qualifying(s))
    ensures Ordered(Qualifying(s))
    ensures MinMatchLength * |Qualifying(s)| <= |s|
  {
    QualifyingFromUniform(s, 0);
    QualifyingFromMaximal(s, 0);
    QualifyingFromOrdered(s, 0);
  }

  /** A line of at most five cells holds at most one qualifying run. */
  lemma AtMostOneRunInFive(s: seq<Symbol>)
    requires |s| <= 5
    ensures |Qualifying(s)| <= 1
  {
    QualifyingSound(s);
  }

  /**
   * Completeness: every window of at least three equal names lies inside a
   * reported run.
   */
  lemma {:induction false} QualifyingFromComplete(s: seq<Symbol>, i: nat, a: nat, b: nat)
    requires i <= a && a + MinMatchLength <= b <= |s|
    requires forall m :: a <= m < b ==> s[m].name == s[a].name
    ensures exists j :: 0 <= j < |QualifyingFrom(s, i)| &&
                        QualifyingFrom(s, i)[j].start <= a &&
                        b <= QualifyingFrom(s, i)[j].start + QualifyingFrom(s, i)[j].length
    decreases |s| - i
  {
    var e := RunEnd(s, i);
    var rs := QualifyingFrom(s, i);
    var rest := QualifyingFrom(s, e);
    if a < e {
      assert e - i >= MinMatchLength;
      assert rs[0] == Run(i, e - i);
    } else {
      QualifyingFromComplete(s, e, a, b);
      var j :| 0 <= j < |rest| && rest[j].start <= a && b <= rest[j].start + rest[j].length;
      var off := if e - i >= MinMatchLength then 1 else 0;
      assert rs[off + j] == rest[j];
    }
  }

  lemma QualifyingComplete(s: seq<Symbol>, a: nat, b: nat)
    requires a + MinMatchLength <= b <= |s|
    requires forall m :: a <= m < b ==> s[m].name == s[a].name
    ensures exists j :: 0 <= j < |Qualifying(s)| &&
                        Qualifying(s)[j].start <= a && b <= Qualifying(s)[j].start + Qualifying(s)[j].length
  {
    QualifyingFromComplete(s, 0, a, b);
    assert Qualifying(s) == QualifyingFrom(s, 0);
  }

  /**
   * One step of the left-to-right scan: closing the run that starts at the
   * boundary `start` and ends at `i` contributes at most one run.
   */
  lemma CloseRun(s: seq<Symbol>, start: nat, i: nat)
    requires start < i <= |s|
    requires forall m :: start <= m < i ==> s[m].name == s[start].name
    requires i < |s| ==> s[i].name != s[start].name
    ensures QualifyingFrom(s, start) ==
      (if i - start >= MinMatchLength then [Run(start, i - start)] else []) + QualifyingFrom(s, i)
  {
    RunEndUnique(s, start, i);
  }
}
