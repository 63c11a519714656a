/** The PHQ-9 answer vector: nine item scores, one per question, each one of
    the four option values "Not at all" (0) .. "Nearly every day" (3).
    Updating one slot and summing the vector are the two operations the
    questionnaire component performs on it. */
module Answers {

  /** Number of questions on the PHQ-9 form. */
  const QuestionCount: nat := 9

  /** The option values offered for every question, in display order. */
  const OptionValues: seq<int> := [0, 1, 2, 3]

  /** Largest value any single option carries. */
  const MaxOption: int := 3

  /** Largest total a well-formed vector can reach. */
  const MaxTotal: int := MaxOption * QuestionCount

  predicate IsOption(v: int) {
    v in OptionValues
  }

  /** Every entry is one of the option values (length is not constrained). */
  predicate AllOptions(a: seq<int>) {
    forall i :: 0 <= i < |a| ==> IsOption(a[i])
  }

  /** A well-formed answer vector: nine entries, each an option value. */
  predicate Valid(a: seq<int>) {
    |a| == QuestionCount && AllOptions(a)
  }

  /** The vector the form starts with: nine zeros, i.e. every question
      counts as "Not at all" until the user picks another option. */
  function Initial(): (a: seq<int>)
    ensures Valid(a)
    ensures forall i :: 0 <= i < |a| ==> a[i] == 0
  {
    seq(QuestionCount, _ => 0)
  }

  /** Copy the vector and put `v` in slot `i`. */
  function UpdateAnswer(a: seq<int>, i: int, v: int): (b: seq<int>)
    requires 0 <= i < |a|
    ensures |b| == |a|
    ensures b[i] == v
    ensures forall j :: 0 <= j < |a| && j != i ==> b[j] == a[j]
    ensures AllOptions(a) && IsOption(v) ==> AllOptions(b)
    ensures Valid(a) && IsOption(v) ==> Valid(b)
  {
    a[i := v]
  }

  /** Sum of the answers as a left fold from an accumulator of 0: the
      last answer is added to the total of the ones before it. When every
      answer is an option value 0..3, the total lies in 0..3*|a|. */
  function Total(a: seq<int>): (t: int)
    ensures AllOptions(a) ==> 0 <= t <= MaxOption * |a|
  {
    if |a| == 0 then 0
    else
      var p := a[..|a| - 1];
      assert forall j :: 0 <= j < |p| ==> p[j] == a[j];
      Total(p) + a[|a| - 1]
  }

  /** The loop form of the fold, accumulating from the first answer on. */
  method SumAnswers(a: seq<int>) returns (acc: int)
    ensures acc == Total(a)
    ensures AllOptions(a) ==> 0 <= acc <= MaxOption * |a|
  {
    acc := 0;
    var k := 0;
    while k < |a|
      invariant 0 <= k <= |a|
      invariant acc == Total(a[..k])
    {
      assert a[..k + 1][..k] == a[..k];
      acc := acc + a[k];
      k := k + 1;
    }
    assert a[..k] == a;
  }

  /** A well-formed vector totals between 0 and MaxTotal (27). */
  lemma ValidTotalRange(a: seq<int>)
    ensures Valid(a) ==> 0 <= Total(a) <= MaxTotal
  {
  }

  /** The untouched form totals 0. */
  lemma InitialTotalIsZero()
    ensures Total(Initial()) == 0
  {
    AllZeroTotal(Initial());
  }

  lemma {:induction false} AllZeroTotal(a: seq<int>)
    requires forall i :: 0 <= i < |a| ==> a[i] == 0
    ensures Total(a) == 0
  {
    if |a| > 0 {
      AllZeroTotal(a[..|a| - 1]);
    }
  }

  /** Total distributes over concatenation. */
  lemma {:induction false} TotalAppend(p: seq<int>, q: seq<int>)
    ensures Total(p + q) == Total(p) + Total(q)
    decreases |q|
  {
    if |q| == 0 {
      assert p + q == p;
    } else {
      var q' := q[..|q| - 1];
      assert (p + q)[..|p + q| - 1] == p + q';
      TotalAppend(p, q');
    }
  }

  /** Replacing answer `i` by `v` moves the total by exactly `v - a[i]`. */
  lemma {:induction false} TotalUpdate(a: seq<int>, i: int, v: int)
    requires 0 <= i < |a|
    ensures Total(UpdateAnswer(a, i, v)) == Total(a) - a[i] + v
  {
    var b := UpdateAnswer(a, i, v);
    assert a == a[..i] + [a[i]] + a[i + 1..];
    assert b == a[..i] + [v] + a[i + 1..];
    TotalAppend(a[..i] + [a[i]], a[i + 1..]);
    TotalAppend(a[..i], [a[i]]);
    TotalAppend(a[..i] + [v], a[i + 1..]);
    TotalAppend(a[..i], [v]);
    assert Total([a[i]]) == a[i] by { assert [a[i]][..0] == []; }
    assert Total([v]) == v by { assert [v][..0] == []; }
  }
}
