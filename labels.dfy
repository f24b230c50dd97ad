/**
 * Position-derived display labels of the project editor.
 *
 * The editor writes `'Milestone ' + (i + 1)` and `'To-Do ' + (j + 1)`, where
 * JavaScript turns the positive integer into its decimal digits.  This module
 * spells that conversion out and proves that it loses nothing: the digits
 * parse back to the number, so two positions never share a label.
 */
module Labels {

  predicate IsDigit(c: char) {
    '0' <= c <= '9'
  }

  predicate AllDigits(s: string) {
    forall k :: 0 <= k < |s| ==> IsDigit(s[k])
  }

  function DigitChar(d: nat): (c: char)
    requires d < 10
    ensures IsDigit(c) && DigitValue(c) == d
  {
    ('0' as int + d) as char
  }

  function DigitValue(c: char): (d: nat)
    requires IsDigit(c)
    ensures d < 10
  {
    c as int - '0' as int
  }

  /**
   * The decimal text of `n`, as JavaScript's number-to-string gives it for an
   * integer from 0 up to (but excluding) 10^21; from 10^21 on JavaScript uses
   * exponent notation, which list positions never reach.
   */
  function DecimalString(n: nat): (s: string)
    ensures |s| >= 1 && AllDigits(s)
    ensures s[0] == '0' ==> n == 0 && |s| == 1
    decreases n
  {
    if n < 10 then [DigitChar(n)] else DecimalString(n / 10) + [DigitChar(n % 10)]
  }

  /** The number a string of decimal digits denotes (the reading direction of `DecimalString`). */
  function DecimalValue(s: string): nat
    requires AllDigits(s)
    decreases |s|
  {
    if s == [] then 0 else DecimalValue(s[..|s| - 1]) * 10 + DigitValue(s[|s| - 1])
  }

  lemma {:induction false} DecimalRoundTrip(n: nat)
    ensures DecimalValue(DecimalString(n)) == n
    decreases n
  {
    if n >= 10 {
      DecimalRoundTrip(n / 10);
      var s := DecimalString(n);
      assert s[..|s| - 1] == DecimalString(n / 10);
    }
  }

  lemma DecimalStringInjective(m: nat, n: nat)
    ensures DecimalString(m) == DecimalString(n) <==> m == n
  {
    DecimalRoundTrip(m);
    DecimalRoundTrip(n);
  }

  /** Label of the milestone at 0-based position `i`. */
  function MilestoneLabel(i: nat): (r: string)
    ensures |r| > 10 && r[..10] == "Milestone "
    ensures AllDigits(r[10..]) && DecimalValue(r[10..]) == i + 1
  {
    DecimalRoundTrip(i + 1);
    assert ("Milestone " + DecimalString(i + 1))[10..] == DecimalString(i + 1);
    "Milestone " + DecimalString(i + 1)
  }

  /** Label of the to-do at 0-based position `j` within its milestone. */
  function ToDoLabel(j: nat): (r: string)
    ensures |r| > 6 && r[..6] == "To-Do "
    ensures AllDigits(r[6..]) && DecimalValue(r[6..]) == j + 1
  {
    DecimalRoundTrip(j + 1);
    assert ("To-Do " + DecimalString(j + 1))[6..] == DecimalString(j + 1);
    "To-Do " + DecimalString(j + 1)
  }

  /** A milestone label names exactly one position. */
  lemma MilestoneLabelInjective(i: nat, j: nat)
    ensures MilestoneLabel(i) == MilestoneLabel(j) <==> i == j
  {
    var p := "Milestone ";
    if MilestoneLabel(i) == MilestoneLabel(j) {
      assert DecimalString(i + 1) == MilestoneLabel(i)[|p|..];
      assert DecimalString(j + 1) == MilestoneLabel(j)[|p|..];
      DecimalStringInjective(i + 1, j + 1);
    }
  }

  /** A to-do label names exactly one position. */
  lemma ToDoLabelInjective(i: nat, j: nat)
    ensures ToDoLabel(i) == ToDoLabel(j) <==> i == j
  {
    var p := "To-Do ";
    if ToDoLabel(i) == ToDoLabel(j) {
      assert DecimalString(i + 1) == ToDoLabel(i)[|p|..];
      assert DecimalString(j + 1) == ToDoLabel(j)[|p|..];
      DecimalStringInjective(i + 1, j + 1);
    }
  }

  /** The labels the editor writes as literals are the ones of the first position. */
  lemma FirstLabels()
    ensures MilestoneLabel(0) == "Milestone 1"
    ensures ToDoLabel(0) == "To-Do 1"
    ensures ToDoLabel(1) == "To-Do 2"
  {
  }
}
