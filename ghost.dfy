/** The ghost overlay (src/components/GhostRun.tsx): the wpm the previous run had
    at the snapshot closest in time to the current elapsed time. */
module Ghost {
  import opened Types

  /** How far a snapshot lies from `elapsedSec` seconds into the run. Snapshot
      times are kept in milliseconds, so the distance is scaled by 1000 from the
      source's seconds; the scaling keeps every comparison. */
  function Distance(s: WpmSnapshot, elapsedSec: int): nat
  {
    Abs(s.timeMs - 1000 * elapsedSec)
  }

  /** The index the `reduce` lands on: it starts from the first snapshot and
      moves to a later one only when that one is strictly closer. It is the
      closest snapshot, and the earliest of those that are closest. */
  function ClosestIndex(h: seq<WpmSnapshot>, elapsedSec: int): (k: nat)
    requires |h| > 0
    ensures k < |h|
    ensures forall j :: 0 <= j < |h| ==> Distance(h[k], elapsedSec) <= Distance(h[j], elapsedSec)
    ensures forall j :: 0 <= j < k ==> Distance(h[j], elapsedSec) > Distance(h[k], elapsedSec)
    decreases |h|
  {
    if |h| == 1 then 0
    else
      var p := ClosestIndex(h[..|h| - 1], elapsedSec);
      assert h[..|h| - 1][p] == h[p];
      if Distance(h[|h| - 1], elapsedSec) < Distance(h[p], elapsedSec) then |h| - 1 else p
  }

  /** Snapshot k is as close to `elapsedSec` as every snapshot and strictly
      closer than every earlier one. */
  ghost predicate ClosestAt(h: seq<WpmSnapshot>, elapsedSec: int, k: nat)
  {
    && k < |h|
    && (forall j :: 0 <= j < |h| ==> Distance(h[k], elapsedSec) <= Distance(h[j], elapsedSec))
    && (forall j :: 0 <= j < k ==> Distance(h[j], elapsedSec) > Distance(h[k], elapsedSec))
  }

  /** `ghostWpm`: nothing without a run or with an empty history, else the wpm
      of the snapshot closest in time, the earliest one on a tie. */
  function GhostWpm(ghostRun: Option<GameRun>, elapsedSec: int): (r: Option<int>)
    ensures r.None? <==> ghostRun.None? || ghostRun.value.stats.wpmHistory == []
    ensures r.Some? ==> exists k: nat :: ClosestAt(ghostRun.value.stats.wpmHistory, elapsedSec, k)
                                    && r.value == ghostRun.value.stats.wpmHistory[k].wpm
  {
    if ghostRun.None? || ghostRun.value.stats.wpmHistory == [] then None
    else
      var h := ghostRun.value.stats.wpmHistory;
      var k := ClosestIndex(h, elapsedSec);
      assert ClosestAt(h, elapsedSec, k);
      Some(h[k].wpm)
  }

  /** What the overlay shows: nothing when there is no ghost wpm or it is 0. */
  function Shown(ghostRun: Option<GameRun>, elapsedSec: int): (r: Option<int>)
    ensures r.Some? ==> r.value != 0 && GhostWpm(ghostRun, elapsedSec) == r
    ensures GhostWpm(ghostRun, elapsedSec).Some? && GhostWpm(ghostRun, elapsedSec).value != 0 ==> r.Some?
  {
    var w := GhostWpm(ghostRun, elapsedSec);
    if w.None? || w.value == 0 then None else w
  }

  /** The closest snapshot is unique up to ties, and on a tie the earliest wins:
      any index that is as close as every other and earlier than every equally
      close one is the index `reduce` returns. */
  lemma ClosestIndexUnique(h: seq<WpmSnapshot>, elapsedSec: int, i: nat)
    requires i < |h|
    requires forall j :: 0 <= j < |h| ==> Distance(h[i], elapsedSec) <= Distance(h[j], elapsedSec)
    requires forall j :: 0 <= j < i ==> Distance(h[j], elapsedSec) > Distance(h[i], elapsedSec)
    ensures ClosestIndex(h, elapsedSec) == i
  {
  }
}
