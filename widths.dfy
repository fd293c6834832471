/** Totals of width assignments: the sum of a sequence of slot widths and how
    it behaves under the two kinds of change the column-width logic makes
    (overwriting one slot, filling every slot with the same value). */
module Widths {

  /** The total width of an assignment. */
  function Sum(s: seq<real>): real
  {
    if s == [] then 0.0 else s[0] + Sum(s[1..])
  }

  /** Overwriting one slot changes the total by exactly the difference. */
  lemma {:induction false} SumUpdate(s: seq<real>, i: nat, v: real)
    requires i < |s|
    ensures Sum(s[i := v]) == Sum(s) - s[i] + v
  {
    if i == 0 {
      assert s[i := v][1..] == s[1..];
    } else {
      SumUpdate(s[1..], i - 1, v);
      assert s[i := v][1..] == s[1..][i - 1 := v];
    }
  }

  /** The total of a prefix followed by a suffix is the sum of their totals. */
  lemma {:induction false} SumConcat(a: seq<real>, b: seq<real>)
    ensures Sum(a + b) == Sum(a) + Sum(b)
  {
    if a == [] {
      assert a + b == b;
    } else {
      assert (a + b)[1..] == a[1..] + b;
      SumConcat(a[1..], b);
    }
  }

  /** Slots that all have width `e` take up `|s| * e` in total. */
  lemma {:induction false} SumUniform(s: seq<real>, e: real)
    requires forall i :: 0 <= i < |s| ==> s[i] == e
    ensures Sum(s) == |s| as real * e
  {
    if s != [] {
      SumUniform(s[1..], e);
    }
  }
}
