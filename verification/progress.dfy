/** The progress closure of `addAsyncIterator`: a captured running total of
    bytes that is reported to the caller's callback after every increment. */
module Progress {

  /** The sum of the byte counts reported so far. */
  function Sum(s: seq<int>): int {
    if s == [] then 0 else Sum(s[..|s| - 1]) + s[|s| - 1]
  }

  /** The values the callback receives: one running total per increment. */
  function RunningTotals(s: seq<int>): (r: seq<int>)
    ensures |r| == |s|
    ensures s != [] ==> r[|s| - 1] == Sum(s)
  {
    if s == [] then [] else RunningTotals(s[..|s| - 1]) + [Sum(s)]
  }

  /** The i-th reported value is the sum of the first i + 1 byte counts. */
  lemma {:induction false} RunningTotalsArePrefixSums(s: seq<int>, i: nat)
    requires i < |s|
    ensures RunningTotals(s)[i] == Sum(s[..i + 1])
  {
    if i == |s| - 1 {
      assert s[..i + 1] == s;
    } else {
      var init := s[..|s| - 1];
      RunningTotalsArePrefixSums(init, i);
      assert init[..i + 1] == s[..i + 1];
    }
  }

  /** With non-negative byte counts the reported totals never decrease. */
  lemma {:induction false} RunningTotalsNondecreasing(s: seq<int>)
    requires forall k :: 0 <= k < |s| ==> s[k] >= 0
    ensures forall i, j :: 0 <= i <= j < |s| ==> RunningTotals(s)[i] <= RunningTotals(s)[j]
  {
    if s != [] {
      var init := s[..|s| - 1];
      RunningTotalsNondecreasing(init);
      var r := RunningTotals(s);
      assert r == RunningTotals(init) + [Sum(s)];
      if |init| > 0 {
        assert r[|s| - 2] == Sum(init) <= Sum(s);
      }
      forall i, j | 0 <= i <= j < |s|
        ensures r[i] <= r[j]
      {
        if j < |s| - 1 {
          assert r[i] == RunningTotals(init)[i] && r[j] == RunningTotals(init)[j];
        } else if i < |s| - 1 {
          assert r[i] == RunningTotals(init)[i] <= RunningTotals(init)[|s| - 2];
        }
      }
    }
  }

  /** The `total` variable captured by the progress closure, and what the
      caller's callback (`opts.progress || noop`) has been given. */
  class ProgressCounter {
    const hasCallback: bool
    var total: int
    var reports: seq<int>
    ghost var seen: seq<int>

    ghost predicate Valid()
      reads this
    {
      && total == Sum(seen)
      && reports == (if hasCallback then RunningTotals(seen) else [])
    }

    constructor (hasCallback: bool)
      ensures Valid() && this.hasCallback == hasCallback
      ensures seen == [] && total == 0 && reports == []
    {
      this.hasCallback := hasCallback;
      total := 0;
      reports := [];
      seen := [];
    }

    /** `progress(bytes)`: `total += bytes; prog(total)`. */
    method Report(bytes: int)
      requires Valid()
      modifies this
      ensures Valid()
      ensures seen == old(seen) + [bytes]
      ensures total == old(total) + bytes
      ensures reports == if hasCallback then old(reports) + [total] else old(reports)
    {
      ghost var before := seen;
      total := total + bytes;
      seen := seen + [bytes];
      assert seen[..|seen| - 1] == before;
      if hasCallback {
        reports := reports + [total];
      }
    }

    /** The calls of `progress` the importer makes while it runs, in order. */
    method ReportAll(counts: seq<int>)
      requires Valid()
      modifies this
      ensures Valid()
      ensures seen == old(seen) + counts
    {
      for k := 0 to |counts|
        invariant Valid()
        invariant seen == old(seen) + counts[..k]
      {
        assert counts[..k + 1] == counts[..k] + [counts[k]];
        Report(counts[k]);
      }
      assert counts[..|counts|] == counts;
    }
  }
}
