/** Sums and arithmetic means of real-valued scores, with the bounds every mean obeys. */
module Stats {

  /** The sum of the scores, added from the front. */
  function Sum(xs: seq<real>): real
  {
    if xs == [] then 0.0 else xs[0] + Sum(xs[1..])
  }

  /** The arithmetic mean: the sum divided by the number of scores (undefined for none). */
  function Mean(xs: seq<real>): real
    requires |xs| > 0
  {
    Sum(xs) / (|xs| as real)
  }

  /** A sum of scores that are all at least `lo` is at least `|xs| * lo`, strictly more
      when the scores are all strictly above `lo`. */
  lemma {:induction false} SumLowerBound(xs: seq<real>, lo: real)
    requires forall i :: 0 <= i < |xs| ==> xs[i] >= lo
    ensures Sum(xs) >= (|xs| as real) * lo
    ensures |xs| > 0 && (forall i :: 0 <= i < |xs| ==> xs[i] > lo) ==> Sum(xs) > (|xs| as real) * lo
  {
    if xs != [] {
      SumLowerBound(xs[1..], lo);
      assert (|xs| as real) * lo == lo + (|xs[1..]| as real) * lo;
    }
  }

  /** A sum of scores that are all at most `hi` is at most `|xs| * hi`, strictly less
      when the scores are all strictly below `hi`. */
  lemma {:induction false} SumUpperBound(xs: seq<real>, hi: real)
    requires forall i :: 0 <= i < |xs| ==> xs[i] <= hi
    ensures Sum(xs) <= (|xs| as real) * hi
    ensures |xs| > 0 && (forall i :: 0 <= i < |xs| ==> xs[i] < hi) ==> Sum(xs) < (|xs| as real) * hi
  {
    if xs != [] {
      SumUpperBound(xs[1..], hi);
      assert (|xs| as real) * hi == hi + (|xs[1..]| as real) * hi;
    }
  }

  /** The mean times the count gives back the sum. */
  lemma MeanTimesCount(xs: seq<real>)
    requires |xs| > 0
    ensures Mean(xs) * (|xs| as real) == Sum(xs)
  {
  }

  /** Scores all at least `lo` have a mean of at least `lo`. */
  lemma MeanAtLeast(xs: seq<real>, lo: real)
    requires |xs| > 0
    requires forall i :: 0 <= i < |xs| ==> xs[i] >= lo
    ensures Mean(xs) >= lo
  {
    SumLowerBound(xs, lo);
    MeanTimesCount(xs);
  }

  /** Scores all strictly below `hi` have a mean strictly below `hi`. */
  lemma MeanBelow(xs: seq<real>, hi: real)
    requires |xs| > 0
    requires forall i :: 0 <= i < |xs| ==> xs[i] < hi
    ensures Mean(xs) < hi
  {
    forall i | 0 <= i < |xs| ensures xs[i] <= hi { }
    SumUpperBound(xs, hi);
    MeanTimesCount(xs);
  }

  /** The mean lies within the range of the scores: some score is at least the mean
      and some score is at most the mean. */
  lemma MeanWithinRange(xs: seq<real>)
    requires |xs| > 0
    ensures exists i :: 0 <= i < |xs| && xs[i] >= Mean(xs)
    ensures exists j :: 0 <= j < |xs| && xs[j] <= Mean(xs)
  {
    var m := Mean(xs);
    if forall i :: 0 <= i < |xs| ==> xs[i] < m {
      MeanBelow(xs, m);
    }
    if forall j :: 0 <= j < |xs| ==> xs[j] > m {
      forall j | 0 <= j < |xs| ensures xs[j] >= m { }
      SumLowerBound(xs, m);
      MeanTimesCount(xs);
    }
  }
}
