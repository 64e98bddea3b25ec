/**
 * The progress accumulator of `nils_utils/ray_tools/progress_bar.py`: the
 * `ProgressBarActor` counter that remote workers report to, and the consumer
 * loop of `ProgressBar.print_until_done`. The actor's `asyncio.Event` is a
 * boolean field; waiting on it becomes the precondition that it is set.
 */
module ProgressBar {

  /** The sum of a sequence of counts. */
  function Sum(s: seq<int>): int {
    if s == [] then 0 else Sum(s[..|s| - 1]) + s[|s| - 1]
  }

  /** The counter after each batch of reports, starting from `start`: the
      values the consumer's successive waits return. */
  function Running(start: int, batches: seq<seq<int>>): (r: seq<int>)
    ensures |r| == |batches|
    decreases batches
  {
    if batches == [] then []
    else [start + Sum(batches[0])] + Running(start + Sum(batches[0]), batches[1..])
  }

  predicate NonNegative(s: seq<int>) {
    forall i :: 0 <= i < |s| ==> s[i] >= 0
  }

  lemma SumSnoc(s: seq<int>, x: int)
    ensures Sum(s + [x]) == Sum(s) + x
  {
    assert (s + [x])[..|s|] == s;
  }

  lemma {:induction false} SumNonNegative(s: seq<int>)
    requires NonNegative(s)
    ensures Sum(s) >= 0
  {
    if s != [] {
      SumNonNegative(s[..|s| - 1]);
    }
  }

  lemma {:induction false} SumConcat(s: seq<int>, t: seq<int>)
    ensures Sum(s + t) == Sum(s) + Sum(t)
    decreases |t|
  {
    if t == [] {
      assert s + t == s;
    } else {
      var n := |t| - 1;
      SumConcat(s, t[..n]);
      assert s + t == (s + t[..n]) + [t[n]];
      assert t == t[..n] + [t[n]];
      SumSnoc(s + t[..n], t[n]);
      SumSnoc(t[..n], t[n]);
    }
  }

  /** Accumulation is commutative: the total does not depend on the order in
      which the reports arrive. */
  lemma {:induction false} SumOfPermutation(a: seq<int>, b: seq<int>)
    requires multiset(a) == multiset(b)
    ensures Sum(a) == Sum(b)
    decreases |a|
  {
    if a == [] {
      assert |b| == |multiset(b)| == 0;
    } else {
      var n := |a| - 1;
      var x := a[n];
      assert a == a[..n] + [x];
      assert x in multiset(b);
      var j :| 0 <= j < |b| && b[j] == x;
      var rest := b[..j] + b[j + 1..];
      assert b == b[..j] + [x] + b[j + 1..];
      assert multiset(rest) == multiset(b) - multiset{x};
      assert multiset(a[..n]) == multiset(a) - multiset{x};
      SumOfPermutation(a[..n], rest);
      SumConcat(b[..j] + [x], b[j + 1..]);
      SumConcat(b[..j], b[j + 1..]);
      SumSnoc(b[..j], x);
    }
  }

  /** With non-negative reports the running counter never decreases and
      never drops below where it started. */
  lemma {:induction false} RunningMonotone(start: int, batches: seq<seq<int>>)
    requires forall k :: 0 <= k < |batches| ==> NonNegative(batches[k])
    ensures forall i :: 0 <= i < |batches| ==> start <= Running(start, batches)[i]
    ensures forall i, j :: 0 <= i <= j < |batches| ==> Running(start, batches)[i] <= Running(start, batches)[j]
    decreases batches
  {
    if batches != [] {
      var next := start + Sum(batches[0]);
      SumNonNegative(batches[0]);
      RunningMonotone(next, batches[1..]);
      var r := Running(start, batches);
      assert r == [next] + Running(next, batches[1..]);
      forall i | 0 < i < |batches| ensures r[i] == Running(next, batches[1..])[i - 1] { }
    }
  }

  /** Each running counter is the previous one (or the start) plus its own
      batch. */
  lemma {:induction false} RunningAt(start: int, batches: seq<seq<int>>, k: int)
    requires 0 <= k < |batches|
    ensures Running(start, batches)[k] ==
            (if k == 0 then start else Running(start, batches)[k - 1]) + Sum(batches[k])
    decreases k
  {
    if k > 0 {
      var next := start + Sum(batches[0]);
      RunningAt(next, batches[1..], k - 1);
      assert Running(start, batches) == [next] + Running(next, batches[1..]);
    }
  }

  /** `seen` are the counters of successive waits, one per batch: each is the
      previous one (or `start`) plus the batch reported in between. */
  predicate StepCounts(start: int, batches: seq<seq<int>>, seen: seq<int>) {
    && |seen| <= |batches|
    && forall i {:trigger batches[i]} :: 0 <= i < |seen| ==>
         seen[i] == (if i == 0 then start else seen[i - 1]) + Sum(batches[i])
  }

  lemma StepCountsSnoc(start: int, batches: seq<seq<int>>, seen: seq<int>, c: int)
    requires StepCounts(start, batches, seen) && |seen| < |batches|
    requires c == (if seen == [] then start else seen[|seen| - 1]) + Sum(batches[|seen|])
    ensures StepCounts(start, batches, seen + [c])
  {
    var s := seen + [c];
    forall i | 0 <= i < |s| ensures s[i] == (if i == 0 then start else s[i - 1]) + Sum(batches[i]) {
      if i < |seen| {
        assert seen[i] == (if i == 0 then start else seen[i - 1]) + Sum(batches[i]);
      }
    }
  }

  /** The step-by-step counters are exactly a prefix of `Running`. */
  lemma {:induction false} StepCountsAreRunning(start: int, batches: seq<seq<int>>, seen: seq<int>)
    requires |seen| <= |batches|
    ensures StepCounts(start, batches, seen) <==> seen == Running(start, batches)[..|seen|]
    decreases |seen|
  {
    var r := Running(start, batches);
    if seen != [] {
      var n := |seen| - 1;
      RunningAt(start, batches, n);
      StepCountsAreRunning(start, batches, seen[..n]);
      if StepCounts(start, batches, seen) {
        assert StepCounts(start, batches, seen[..n]) by {
          forall i | 0 <= i < n
            ensures seen[..n][i] == (if i == 0 then start else seen[..n][i - 1]) + Sum(batches[i])
          {
            assert seen[i] == (if i == 0 then start else seen[i - 1]) + Sum(batches[i]);
          }
        }
        assert seen[n] == (if n == 0 then start else seen[n - 1]) + Sum(batches[n]);
        assert seen == seen[..n] + [seen[n]];
        assert r[..n + 1] == r[..n] + [r[n]];
      }
      if seen == r[..|seen|] {
        forall i | 0 <= i < |seen| ensures seen[i] == (if i == 0 then start else seen[i - 1]) + Sum(batches[i]) {
          RunningAt(start, batches, i);
        }
      }
    }
  }

  /** `ProgressBarActor`: the shared counter. The ghost fields record every
      report and every delta handed to the consumer, in order. */
  class ProgressBarActor {
    var counter: int
    var delta: int
    var event: bool
    ghost var reports: seq<int>
    ghost var drained: seq<int>

    /** The counter is the sum of all reports, and every report counted so far
        is either drained or still pooled in `delta`; with non-negative
        reports, nothing drained or pooled is negative. */
    ghost predicate Valid()
      reads this
    {
      && counter == Sum(reports)
      && Sum(drained) + delta == counter
      && (NonNegative(reports) ==> NonNegative(drained) && 0 <= delta)
    }

    constructor ()
      ensures Valid()
      ensures counter == 0 && delta == 0 && !event
      ensures reports == [] && drained == []
    {
      counter := 0;
      delta := 0;
      event := false;
      reports := [];
      drained := [];
    }

    /** `update`: add the completed items to the counter and to the pooled
        delta, and signal the consumer. */
    method Update(numItemsCompleted: int)
      requires Valid()
      modifies this
      ensures Valid()
      ensures counter == old(counter) + numItemsCompleted
      ensures delta == old(delta) + numItemsCompleted
      ensures event
      ensures reports == old(reports) + [numItemsCompleted] && drained == old(drained)
    {
      SumSnoc(reports, numItemsCompleted);
      counter := counter + numItemsCompleted;
      delta := delta + numItemsCompleted;
      event := true;
      reports := reports + [numItemsCompleted];
      assert NonNegative(reports) ==> NonNegative(old(reports)) by {
        if NonNegative(reports) {
          forall i | 0 <= i < |old(reports)| ensures old(reports)[i] >= 0 {
            assert reports[i] == old(reports)[i];
          }
        }
      }
    }

    /** `wait_for_update`, once the event is set: clear it, hand out the
        pooled delta with the counter, and start a new pool. */
    method WaitForUpdate() returns (savedDelta: int, total: int)
      requires Valid() && event
      modifies this
      ensures Valid()
      ensures savedDelta == old(delta) && total == old(counter)
      ensures counter == old(counter) && delta == 0 && !event
      ensures drained == old(drained) + [savedDelta] && reports == old(reports)
    {
      event := false;
      savedDelta := delta;
      delta := 0;
      SumSnoc(drained, savedDelta);
      drained := drained + [savedDelta];
      total := counter;
    }

    /** `get_counter`: the number of completed items. */
    method GetCounter() returns (c: int)
      requires Valid()
      ensures c == counter == Sum(reports)
    {
      c := counter;
    }
  }

  /** With non-negative reports the pooled delta never exceeds the counter. */
  lemma DeltaBounded(actor: ProgressBarActor)
    requires actor.Valid() && NonNegative(actor.reports)
    ensures 0 <= actor.delta <= actor.counter
  {
    SumNonNegative(actor.drained);
  }

  /** Concurrent workers may report in any order: two actors that received
      the same reports, in whatever order, hold the same counter. */
  lemma ReportOrderIrrelevant(a: ProgressBarActor, b: ProgressBarActor)
    requires a.Valid() && b.Valid() && multiset(a.reports) == multiset(b.reports)
    ensures a.counter == b.counter
  {
    SumOfPermutation(a.reports, b.reports);
  }

  /** The workers' `update` calls that happen while the consumer is parked. */
  method ReportAll(actor: ProgressBarActor, amounts: seq<int>)
    requires actor.Valid()
    modifies actor
    ensures actor.Valid()
    ensures actor.counter == old(actor.counter) + Sum(amounts)
    ensures actor.delta == old(actor.delta) + Sum(amounts)
    ensures actor.event == (old(actor.event) || amounts != [])
    ensures actor.reports == old(actor.reports) + amounts && actor.drained == old(actor.drained)
  {
    var i := 0;
    while i < |amounts|
      invariant 0 <= i <= |amounts|
      invariant actor.Valid()
      invariant actor.counter == old(actor.counter) + Sum(amounts[..i])
      invariant actor.delta == old(actor.delta) + Sum(amounts[..i])
      invariant actor.event == (old(actor.event) || i > 0)
      invariant actor.reports == old(actor.reports) + amounts[..i] && actor.drained == old(actor.drained)
    {
      assert amounts[..i + 1] == amounts[..i] + [amounts[i]];
      SumSnoc(amounts[..i], amounts[i]);
      actor.Update(amounts[i]);
      i := i + 1;
    }
    assert amounts[..i] == amounts;
  }

  /** The consumer's blocking `ray.get(actor.wait_for_update.remote())`: the
      workers report `batch` while it waits, then the wait returns. It can
      only return once the event is set, by an earlier report or by `batch`. */
  method AwaitUpdate(actor: ProgressBarActor, batch: seq<int>) returns (d: int, c: int)
    requires actor.Valid() && (actor.event || batch != [])
    modifies actor
    ensures actor.Valid()
    ensures d == old(actor.delta) + Sum(batch) && c == old(actor.counter) + Sum(batch)
    ensures actor.counter == c && actor.delta == 0 && !actor.event
    ensures actor.reports == old(actor.reports) + batch && actor.drained == old(actor.drained) + [d]
  {
    ReportAll(actor, batch);
    d, c := actor.WaitForUpdate();
  }

  /** `ProgressBar`: a target count and the actor the workers report to. */
  class ProgressBar {
    const actor: ProgressBarActor
    const total: int
    const description: string

    constructor (total: int, description: string := "")
      ensures this.total == total && this.description == description
      ensures fresh(actor) && actor.Valid()
      ensures actor.counter == 0 && actor.delta == 0 && !actor.event
      ensures actor.reports == [] && actor.drained == []
    {
      actor := new ProgressBarActor();
      this.total := total;
      this.description := description;
    }

    /** `print_until_done`: wait for an update, advance the display by the
        delta it returns, and stop at the first wait whose counter reaches
        the total. `batches[k]` are the updates the workers make before the
        consumer's `k`-th wake-up; each is non-empty, since the wait only
        returns once something was reported, except the first when the
        event was already set on entry. `shown` is how far the display
        has advanced and `seen` the counter each wait returned. When the
        batches run out first, the real loop would keep waiting. */
    method PrintUntilDone(batches: seq<seq<int>>) returns (shown: int, done: bool, seen: seq<int>)
      requires actor.Valid()
      requires forall k :: 0 <= k < |batches| ==> batches[k] != [] || (k == 0 && actor.event)
      modifies actor
      ensures actor.Valid()
      ensures StepCounts(old(actor.counter), batches, seen) && (|batches| > 0 ==> |seen| > 0)
      ensures forall i :: 0 <= i < |seen| - 1 ==> seen[i] < total
      ensures done <==> |seen| > 0 && seen[|seen| - 1] >= total
      ensures !done ==> |seen| == |batches|
      ensures shown == (actor.counter - actor.delta) - (old(actor.counter) - old(actor.delta))
      ensures |seen| > 0 ==> actor.counter == seen[|seen| - 1] && actor.delta == 0 && !actor.event
    {
      shown, done, seen := 0, false, [];
      ghost var start := actor.counter;
      var k := 0;
      while k < |batches|
        invariant 0 <= k <= |batches|
        invariant actor.Valid()
        invariant |seen| == k && StepCounts(start, batches, seen)
        invariant forall i :: 0 <= i < k ==> seen[i] < total
        invariant shown == (actor.counter - actor.delta) - (old(actor.counter) - old(actor.delta))
        invariant actor.counter == (if k == 0 then start else seen[k - 1])
        invariant k > 0 ==> actor.delta == 0 && !actor.event
        invariant k == 0 ==> actor.event == old(actor.event)
      {
        var d, c := AwaitUpdate(actor, batches[k]);
        StepCountsSnoc(start, batches, seen, c);
        shown := shown + d;
        seen := seen + [c];
        k := k + 1;
        if c >= total {
          done := true;
          return;
        }
      }
    }
  }
}
