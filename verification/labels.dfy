/** The label handling at the start of `LD.LinearDiscriminant`
    (stat/lda.go:44-75): collect the distinct labels, sort them, and accept
    them only when they are exactly 0, 1, ..., k-1. */
module Labels {
  import opened Failures

  predicate NoDuplicates(s: seq<int>) {
    forall i, j :: 0 <= i < j < |s| ==> s[i] != s[j]
  }

  predicate Sorted(s: seq<int>) {
    forall i, j :: 0 <= i < j < |s| ==> s[i] <= s[j]
  }

  predicate StrictlySorted(s: seq<int>) {
    forall i, j :: 0 <= i < j < |s| ==> s[i] < s[j]
  }

  /** [0, 1, ..., k-1] */
  function Range(k: nat): (r: seq<int>)
    ensures |r| == k && forall i :: 0 <= i < k ==> r[i] == i
  {
    seq(k, i => i)
  }

  /** The labels of `y` are exactly the classes 0, ..., k-1: every label is
      one of them and every one of them is used. */
  ghost predicate DenseLabels(y: seq<int>, k: int) {
    (forall i :: 0 <= i < |y| ==> 0 <= y[i] < k) &&
    (forall c :: 0 <= c < k ==> c in y)
  }

  ghost predicate HasNegative(y: seq<int>) {
    exists i :: 0 <= i < |y| && y[i] < 0
  }

  /** Some positive label `c` is used while `c - 1` is not. */
  ghost predicate HasGap(y: seq<int>) {
    exists i :: 0 <= i < |y| && y[i] > 0 && y[i] - 1 !in y
  }

  /** What the checks of lines 65-75 accept. */
  ghost predicate Accepted(l: seq<int>) {
    |l| > 0 && l[0] == 0 &&
    (forall i :: 0 <= i < |l| ==> l[i] >= 0) &&
    (forall i :: 0 < i < |l| ==> l[i] - l[i - 1] <= 1)
  }

  /** Lines 44-59: a linear search of `labels` for each `y[i]`, appending
      the labels not yet seen. */
  method UniqueLabels(y: seq<int>) returns (labels: seq<int>)
    ensures forall v :: v in labels <==> v in y
    ensures NoDuplicates(labels)
    ensures |labels| <= |y|
  {
    labels := [];
    var i := 0;
    while i < |y|
      invariant 0 <= i <= |y|
      invariant forall v :: v in labels <==> v in y[..i]
      invariant NoDuplicates(labels)
      invariant |labels| <= i
    {
      var v := y[i];
      var found := false;
      var j := 0;
      while j < |labels|
        invariant 0 <= j <= |labels|
        invariant found ==> v in labels
        invariant !found ==> v !in labels[..j]
      {
        if v == labels[j] {
          found := true;
          break;
        }
        j := j + 1;
      }
      assert !found ==> labels[..j] == labels;
      if !found {
        labels := labels + [v];
      }
      assert y[..i + 1] == y[..i] + [y[i]];
      i := i + 1;
    }
    assert y[..i] == y;
  }

  /** One step of the insertion sort that stands for `sort.Ints`. */
  function Insert(v: int, s: seq<int>): seq<int>
  {
    if s == [] then [v]
    else if v <= s[0] then [v] + s
    else [s[0]] + Insert(v, s[1..])
  }

  /** The head of a sorted list is its least element, and its tail is
      sorted. */
  lemma SortedHead(s: seq<int>)
    requires Sorted(s) && s != []
    ensures Sorted(s[1..])
    ensures forall e :: e in s[1..] ==> s[0] <= e
  {
    forall e | e in s[1..] ensures s[0] <= e {
      var m :| 0 <= m < |s[1..]| && s[1..][m] == e;
      assert s[m + 1] == e;
    }
  }

  /** A sorted list stays sorted under a head no larger than its elements. */
  lemma ConsSorted(h: int, t: seq<int>)
    requires Sorted(t) && forall e :: e in t ==> h <= e
    ensures Sorted([h] + t)
  {
    var r := [h] + t;
    forall i, j | 0 <= i < j < |r| ensures r[i] <= r[j] {
      assert r[j] == t[j - 1] && t[j - 1] in t;
      if i > 0 {
        assert r[i] == t[i - 1];
      }
    }
  }

  lemma {:induction false} InsertKeepsSorted(v: int, s: seq<int>)
    requires Sorted(s)
    ensures forall e :: e in Insert(v, s) ==> e == v || e in s
    ensures Sorted(Insert(v, s))
    ensures multiset(Insert(v, s)) == multiset(s) + multiset{v}
  {
    if s == [] {
    } else if v <= s[0] {
      SortedHead(s);
      assert s == [s[0]] + s[1..];
      ConsSorted(v, s);
    } else {
      SortedHead(s);
      var t := Insert(v, s[1..]);
      InsertKeepsSorted(v, s[1..]);
      assert s == [s[0]] + s[1..];
      ConsSorted(s[0], t);
      assert multiset([s[0]] + t) == multiset{s[0]} + multiset(t);
    }
  }

  /** `sort.Ints` (line 62), ascending order, modelled on values. */
  function SortInts(s: seq<int>): (r: seq<int>)
    ensures Sorted(r) && multiset(r) == multiset(s)
  {
    if s == [] then []
    else
      assert s == [s[0]] + s[1..];
      var t := SortInts(s[1..]);
      InsertKeepsSorted(s[0], t);
      Insert(s[0], t)
  }

  lemma {:induction false} NoDuplicatesMultiplicity(s: seq<int>, v: int)
    requires NoDuplicates(s)
    ensures multiset(s)[v] <= 1
  {
    if s != [] {
      var init := s[..|s| - 1];
      assert s == init + [s[|s| - 1]];
      assert NoDuplicates(init);
      NoDuplicatesMultiplicity(init, v);
      if v == s[|s| - 1] {
        assert v !in init;
      }
    }
  }

  lemma RepeatedMultiplicity(r: seq<int>, i: int, j: int)
    requires 0 <= i < j < |r| && r[i] == r[j]
    ensures multiset(r)[r[i]] >= 2
  {
    assert r == r[..i] + [r[i]] + r[i + 1..j] + [r[j]] + r[j + 1..];
  }

  /** Sorting a list without duplicates gives a strictly ascending list of
      the same values: after line 62 `labels` holds each distinct label once,
      in ascending order. */
  lemma SortDistinctIsStrict(s: seq<int>)
    requires NoDuplicates(s)
    ensures StrictlySorted(SortInts(s))
    ensures forall v :: v in SortInts(s) <==> v in s
    ensures |SortInts(s)| == |s|
  {
    var r := SortInts(s);
    forall i, j | 0 <= i < j < |r| ensures r[i] < r[j] {
      if r[i] == r[j] {
        RepeatedMultiplicity(r, i, j);
        NoDuplicatesMultiplicity(s, r[i]);
        assert false;
      }
    }
    forall v ensures v in r <==> v in s {
      assert v in r <==> v in multiset(r);
      assert v in s <==> v in multiset(s);
    }
    assert |r| == |multiset(r)| == |multiset(s)| == |s|;
  }

  /** No label before index `i` is negative or more than 1 above the one
      before it: the scan of lines 68-75 gets past index `i - 1`. */
  ghost predicate CleanBelow(l: seq<int>, i: int)
    requires i <= |l|
  {
    forall j :: 0 <= j < i ==> l[j] >= 0 && (j > 0 ==> l[j] - l[j - 1] <= 1)
  }

  /** Lines 65-75: the first label must be 0 (an empty list makes the
      access `labels[0]` panic), then no label may be negative and no two
      consecutive labels may differ by more than 1. */
  method ValidateLabels(labels: seq<int>) returns (r: Outcome)
    ensures r == Pass <==> Accepted(labels)
    ensures r == Fail(EmptyLabels) <==> |labels| == 0
    ensures r == Fail(LabelsNotFromZero) <==> |labels| > 0 && labels[0] != 0
    ensures r == Fail(NegativeLabel) ==> exists i :: 0 <= i < |labels| && labels[i] < 0
    ensures r == Fail(MissingClass) ==> exists i :: 0 < i < |labels| && labels[i] - labels[i - 1] > 1
    // the scan of lines 68-75 reports the first offending label, negative or after a gap
    ensures r == Fail(NegativeLabel) <==>
      |labels| > 0 && labels[0] == 0 && exists i :: 0 <= i < |labels| && CleanBelow(labels, i) && labels[i] < 0
    ensures r == Fail(MissingClass) <==>
      |labels| > 0 && labels[0] == 0 &&
      exists i :: 0 < i < |labels| && CleanBelow(labels, i) && labels[i] >= 0 && labels[i] - labels[i - 1] > 1
    ensures r.Fail? ==> r.error in {EmptyLabels, LabelsNotFromZero, NegativeLabel, MissingClass}
  {
    if |labels| == 0 {
      return Fail(EmptyLabels);
    }
    if labels[0] != 0 {
      return Fail(LabelsNotFromZero);
    }
    var i := 0;
    while i < |labels|
      invariant 0 <= i <= |labels|
      invariant CleanBelow(labels, i)
    {
      if labels[i] < 0 {
        return Fail(NegativeLabel);
      }
      if i > 0 && labels[i] - labels[i - 1] > 1 {
        return Fail(MissingClass);
      }
      i := i + 1;
    }
    return Pass;
  }

  /** A strictly ascending list passes the checks exactly when it is
      [0, 1, ..., k-1]. */
  lemma {:induction false} AcceptedIsRange(l: seq<int>)
    requires StrictlySorted(l)
    ensures Accepted(l) <==> |l| > 0 && l == Range(|l|)
  {
    if Accepted(l) {
      forall i | 0 <= i < |l| ensures l[i] == i {
        AcceptedAt(l, i);
      }
    }
  }

  lemma {:induction false} AcceptedAt(l: seq<int>, i: nat)
    requires StrictlySorted(l) && Accepted(l) && i < |l|
    ensures l[i] == i
  {
    if i > 0 {
      AcceptedAt(l, i - 1);
    }
  }

  /** If a gap is found between consecutive sorted labels, the value just
      below the larger one is not a label. */
  lemma GapIsMissingValue(l: seq<int>, i: int)
    requires StrictlySorted(l) && 0 < i < |l| && l[i] - l[i - 1] > 1
    ensures l[i] - 1 !in l
  {
    forall m | 0 <= m < |l| ensures l[m] != l[i] - 1 {
      if m < i {
        assert l[m] <= l[i - 1];
      }
    }
  }

  /** A strictly ascending list whose values are exactly 0..k-1 is
      [0, ..., k-1] and passes the checks. */
  lemma DenseIsAccepted(l: seq<int>, k: int)
    requires StrictlySorted(l) && k > 0
    requires forall v :: v in l <==> 0 <= v < k
    ensures Accepted(l) && |l| == k
  {
    assert 0 in l;
    assert l[0] == 0 by {
      var m :| 0 <= m < |l| && l[m] == 0;
      assert l[0] <= l[m];
      assert l[0] >= 0 by { assert l[0] in l; }
    }
    forall i | 0 < i < |l| ensures l[i] - l[i - 1] <= 1 {
      if l[i] - l[i - 1] > 1 {
        assert l[i] in l && l[i - 1] in l;
        GapIsMissingValue(l, i);
        assert false;
      }
    }
    forall i | 0 <= i < |l| ensures l[i] >= 0 {
      assert l[i] in l;
    }
    AcceptedIsRange(l);
    assert k - 1 in l;
    assert l[|l| - 1] in l;
  }

  /** When the distinct labels of `y` are [0, ..., k-1], the labels of `y`
      are dense and have no gap. */
  lemma RangeLabelsAreDense(y: seq<int>, labels: seq<int>)
    requires forall v :: v in labels <==> v in y
    requires |labels| > 0 && labels == Range(|labels|)
    ensures |y| > 0 && DenseLabels(y, |labels|) && 0 in y && !HasGap(y)
  {
    forall i | 0 <= i < |y| ensures 0 <= y[i] < |labels| {
      assert y[i] in y;
    }
    forall c | 0 <= c < |labels| ensures c in y {
      assert labels[c] in labels;
    }
    assert labels[0] in labels;
    assert labels[0] in y;
    forall i | 0 <= i < |y| && y[i] > 0 ensures y[i] - 1 in y {
      assert y[i] in y;
      assert labels[y[i] - 1] in labels;
    }
  }

  lemma SameValuesNonEmpty(y: seq<int>, labels: seq<int>)
    requires forall v :: v in labels <==> v in y
    ensures |labels| > 0 <==> |y| > 0
  {
    if |y| > 0 {
      var v := y[0];
      assert v in y;
      assert v in labels;
    }
    if |labels| > 0 {
      var v := labels[0];
      assert v in labels;
      assert v in y;
    }
  }

  /** The first sorted label is the smallest label. */
  lemma FirstLabelIsMinimum(y: seq<int>, labels: seq<int>)
    requires forall v :: v in labels <==> v in y
    requires Sorted(labels) && |labels| > 0
    ensures labels[0] in y && forall i :: 0 <= i < |y| ==> labels[0] <= y[i]
  {
    assert labels[0] in labels;
    forall i | 0 <= i < |y| ensures labels[0] <= y[i] {
      assert y[i] in y;
      var m :| 0 <= m < |labels| && labels[m] == y[i];
    }
  }

  /** The first sorted label is 0 exactly when 0 is a label and no label is
      negative; then no sorted label is negative. */
  lemma FirstLabelIsZero(y: seq<int>, labels: seq<int>)
    requires forall v :: v in labels <==> v in y
    requires Sorted(labels)
    ensures |labels| > 0 <==> |y| > 0
    ensures |labels| > 0 && labels[0] != 0 <==> |y| > 0 && (0 !in y || HasNegative(y))
    ensures |labels| > 0 && labels[0] == 0 ==> forall i :: 0 <= i < |labels| ==> labels[i] >= 0
  {
    SameValuesNonEmpty(y, labels);
    if |labels| > 0 {
      FirstLabelIsMinimum(y, labels);
      var w :| 0 <= w < |y| && y[w] == labels[0];
      if 0 in y {
        var z :| 0 <= z < |y| && y[z] == 0;
      }
    }
  }

  /** Labels whose sorted distinct values start at 0 but are rejected leave
      a value between 0 and a used label unused. */
  lemma RejectedLabelsHaveGap(y: seq<int>, labels: seq<int>, i: int)
    requires forall v :: v in labels <==> v in y
    requires StrictlySorted(labels)
    requires 0 < i < |labels| && labels[0] == 0 && labels[i] - labels[i - 1] > 1
    ensures HasGap(y)
  {
    GapIsMissingValue(labels, i);
    assert labels[0] <= labels[i - 1];
    assert labels[i] in labels;
    var w :| 0 <= w < |y| && y[w] == labels[i];
    assert y[w] - 1 !in y;
  }

  /** Dense labels have sorted distinct values [0, ..., k-1]. */
  lemma DenseLabelsAccepted(y: seq<int>, labels: seq<int>, k: int)
    requires forall v :: v in labels <==> v in y
    requires StrictlySorted(labels)
    requires |y| > 0 && DenseLabels(y, k)
    ensures Accepted(labels) && |labels| == k
  {
    forall v ensures v in labels <==> 0 <= v < k {
      if v in y {
        var i :| 0 <= i < |y| && y[i] == v;
      }
    }
    assert y[0] in y;
    DenseIsAccepted(labels, k);
  }

  /** Lines 44-80: the label stage. On success the value is the number of
      classes k = len(labels), and the labels of `y` are exactly 0..k-1, so
      every `y[i]` indexes the class arrays of size k. */
  method IndexLabels(y: seq<int>) returns (r: Result<nat>)
    ensures r.Success? ==> |y| > 0 && DenseLabels(y, r.value)
    ensures forall k :: |y| > 0 && DenseLabels(y, k) ==> r == Success(k)
    ensures r == Failure(EmptyLabels) <==> |y| == 0
    ensures r == Failure(LabelsNotFromZero) <==> |y| > 0 && (0 !in y || HasNegative(y))
    ensures r == Failure(MissingClass) <==> |y| > 0 && 0 in y && !HasNegative(y) && HasGap(y)
    ensures r.Failure? ==> r.error in {EmptyLabels, LabelsNotFromZero, MissingClass}
  {
    var distinct := UniqueLabels(y);
    var labels := SortInts(distinct);
    SortDistinctIsStrict(distinct);
    FirstLabelIsZero(y, labels);
    AcceptedIsRange(labels);
    forall k | |y| > 0 && DenseLabels(y, k) ensures Accepted(labels) && |labels| == k {
      DenseLabelsAccepted(y, labels, k);
    }
    var check := ValidateLabels(labels);
    if check.Fail? {
      r := Failure(check.error);
      if check.error == MissingClass {
        var i :| 0 < i < |labels| && labels[i] - labels[i - 1] > 1;
        RejectedLabelsHaveGap(y, labels, i);
      }
    } else {
      r := Success(|labels|);
      RangeLabelsAreDense(y, labels);
    }
  }
}
