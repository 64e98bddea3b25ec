/**
 * `test_progress_bar` of `nils_utils/ray_tools/progress_bar.py`, and a run in
 * which every report happens before the consumer starts waiting.
 */
module ProgressBarTest {
  import opened ProgressBar

  /** Unit batches advance the running counter by one each. */
  lemma {:induction false} UnitBatchesRunning(start: int, batches: seq<seq<int>>)
    requires forall k :: 0 <= k < |batches| ==> batches[k] == [1]
    ensures forall i :: 0 <= i < |batches| ==> Running(start, batches)[i] == start + i + 1
    decreases batches
  {
    if batches != [] {
      assert Sum([1]) == Sum([]) + 1;
      UnitBatchesRunning(start + 1, batches[1..]);
      var r := Running(start, batches);
      assert r == [start + 1] + Running(start + 1, batches[1..]);
      forall i | 0 < i < |batches| ensures r[i] == Running(start + 1, batches[1..])[i - 1] { }
    }
  }

  /** `test_progress_bar`: six workers each report one item, one per wake-up
      of the consumer; the consumer stops after the sixth and the counter
      is 6. */
  method TestProgressBar() returns (shown: int, c: int)
    ensures shown == 6 && c == 6
  {
    var pb := new ProgressBar(6);
    var batches := seq(6, _ => [1]);
    UnitBatchesRunning(0, batches);
    var done, seen;
    shown, done, seen := pb.PrintUntilDone(batches);
    StepCountsAreRunning(0, batches, seen);
    assert forall i :: 0 <= i < |seen| ==> seen[i] == i + 1;
    assert done;
    assert |seen| == 6;
    c := pb.actor.GetCounter();
  }

  /** A worker reports its only item before `print_until_done` starts: the
      event is already set, so the first wait returns at once and the loop
      stops with the display at 1. */
  method TestReportedBeforeWait() returns (shown: int, done: bool)
    ensures done && shown == 1
  {
    var pb := new ProgressBar(1);
    pb.actor.Update(1);
    var seen;
    var batches: seq<seq<int>> := seq(1, _ => []);
    shown, done, seen := pb.PrintUntilDone(batches);
    assert batches[0] == [] && Sum([]) == 0;
    assert |seen| == 1 && seen[0] == 1;
  }
}
