/** The study controller (`UserStudyManager`): it counts how often the
    participant picks an object up, counts placement attempts, records the
    time and pick-up count of each correct placement, and after the fourth
    correct placement logs one record of four metrics and starts over for
    the next participant. */
module Study {
  import opened Common
  import opened Scene
  import opened Trial
  import Logging
  import Bubble
  import ReverseGoGo

  /** Four coloured objects are placed per participant. */
  const TaskCount: int := 4

  function Sum(xs: seq<real>): real
    decreases |xs|
  {
    if |xs| == 0 then 0.0 else Sum(xs[..|xs| - 1]) + xs[|xs| - 1]
  }

  function SumInts(xs: seq<int>): int
    decreases |xs|
  {
    if |xs| == 0 then 0 else SumInts(xs[..|xs| - 1]) + xs[|xs| - 1]
  }

  /** Successful placements as a percentage of attempts. */
  function SuccessRate(successes: int, attempts: int): real
    requires attempts > 0
  {
    successes as real / attempts as real * 100.0
  }

  /** The mean task time; 0 when no task was timed. */
  function AverageTaskTime(times: seq<real>): real {
    if |times| > 0 then Sum(times) / |times| as real else 0.0
  }

  /** 100% for one pick-up per object, 20 points less for each extra
      pick-up on average, never below 0; 0 when nothing was counted. */
  function PullingAccuracy(counts: seq<int>): real {
    if |counts| > 0 then
      var avgSelections := SumInts(counts) as real / |counts| as real;
      Max(0.0, 1.0 - (avgSelections - 1.0) * 0.2) * 100.0
    else
      0.0
  }

  /** The record a finished study logs. */
  function Metrics(id: string, clock: Timestamp, attempts: int, successes: int,
                   times: seq<real>, counts: seq<int>): TrialData
    requires attempts > 0
  {
    NewTrialData(clock).(
      participantID := id,
      successRate := SuccessRate(successes, attempts),
      errorRate := (attempts - successes) as real,
      averageTaskTime := AverageTaskTime(times),
      pullingAccuracy := PullingAccuracy(counts))
  }

  lemma {:induction false} SumNonNegative(xs: seq<real>)
    requires forall i :: 0 <= i < |xs| ==> xs[i] >= 0.0
    ensures Sum(xs) >= 0.0
    decreases |xs|
  {
    if |xs| > 0 {
      SumNonNegative(xs[..|xs| - 1]);
    }
  }

  /** A sum of `n` integers each at least `lo` is at least `n * lo`. */
  lemma {:induction false} SumIntsAtLeast(xs: seq<int>, lo: int)
    requires forall i :: 0 <= i < |xs| ==> xs[i] >= lo
    ensures SumInts(xs) >= |xs| * lo
    decreases |xs|
  {
    if |xs| > 0 {
      SumIntsAtLeast(xs[..|xs| - 1], lo);
    }
  }

  /** The bounds of the logged metrics: a success rate between 0 and 100, a
      non-negative error count, a non-negative mean time when every time is
      non-negative, and an accuracy between 0 and 120 that stays at most 100
      when every object was picked up at least once. */
  lemma MetricsBounds(attempts: int, successes: int, times: seq<real>, counts: seq<int>)
    requires 0 <= successes <= attempts && attempts > 0
    requires forall i :: 0 <= i < |counts| ==> counts[i] >= 0
    ensures 0.0 <= SuccessRate(successes, attempts) <= 100.0
    ensures SuccessRate(successes, attempts) == 100.0 <==> successes == attempts
    ensures (attempts - successes) as real >= 0.0
    ensures (forall i :: 0 <= i < |times| ==> times[i] >= 0.0) ==> AverageTaskTime(times) >= 0.0
    ensures 0.0 <= PullingAccuracy(counts) <= 120.0
    ensures (forall i :: 0 <= i < |counts| ==> counts[i] >= 1) ==> PullingAccuracy(counts) <= 100.0
  {
    SuccessRateBounds(successes, attempts);
    if forall i :: 0 <= i < |times| ==> times[i] >= 0.0 {
      SumNonNegative(times);
    }
    AccuracyBounds(counts);
  }

  lemma SuccessRateBounds(successes: int, attempts: int)
    requires 0 <= successes <= attempts && attempts > 0
    ensures 0.0 <= SuccessRate(successes, attempts) <= 100.0
    ensures SuccessRate(successes, attempts) == 100.0 <==> successes == attempts
  {
    var n := attempts as real;
    var q := successes as real / n;
    assert q * n == successes as real;
    assert q <= 1.0 by {
      if q > 1.0 {
        MulMonotone(1.0, q, n);
      }
    }
    assert q >= 0.0 by {
      if q < 0.0 {
        MulMonotone(0.0, -q, n);
      }
    }
    assert SuccessRate(successes, attempts) == q * 100.0;
    if q == 1.0 {
      assert successes as real == n;
    }
  }

  lemma AccuracyBounds(counts: seq<int>)
    requires forall i :: 0 <= i < |counts| ==> counts[i] >= 0
    ensures 0.0 <= PullingAccuracy(counts) <= 120.0
    ensures (forall i :: 0 <= i < |counts| ==> counts[i] >= 1) ==> PullingAccuracy(counts) <= 100.0
  {
    if |counts| > 0 {
      var n := |counts| as real;
      var avg := SumInts(counts) as real / n;
      SumIntsAtLeast(counts, 0);
      assert avg * n == SumInts(counts) as real;
      assert avg >= 0.0 by {
        if avg < 0.0 {
          MulMonotone(0.0, -avg, n);
        }
      }
      assert PullingAccuracy(counts) == Max(0.0, 1.0 - (avg - 1.0) * 0.2) * 100.0;
      if forall i :: 0 <= i < |counts| ==> counts[i] >= 1 {
        SumIntsAtLeast(counts, 1);
        QuotientAtLeastOne(SumInts(counts) as real, n);
      }
    }
  }

  lemma QuotientAtLeastOne(s: real, n: real)
    requires n > 0.0 && s >= n
    ensures s / n >= 1.0
  {
  }

  /** Times 2.0, 1.5, 3.0 and 2.5 with one pick-up each and no wrong
      placement give 100% success, 0 errors, 2.25 s and 100% accuracy. */
  lemma MetricsExample(id: string, clock: Timestamp)
    ensures var d := Metrics(id, clock, 4, 4, [2.0, 1.5, 3.0, 2.5], [1, 1, 1, 1]);
      && d.successRate == 100.0 && d.errorRate == 0.0
      && d.averageTaskTime == 2.25 && d.pullingAccuracy == 100.0
  {
    assert Sum([2.0, 1.5, 3.0, 2.5]) == 9.0 by {
      assert [2.0, 1.5, 3.0, 2.5][..3] == [2.0, 1.5, 3.0];
      assert [2.0, 1.5, 3.0][..2] == [2.0, 1.5];
      assert [2.0, 1.5][..1] == [2.0];
    }
    assert SumInts([1, 1, 1, 1]) == 4 by {
      assert [1, 1, 1, 1][..3] == [1, 1, 1];
      assert [1, 1, 1][..2] == [1, 1];
      assert [1, 1][..1] == [1];
    }
  }

  function BubbleSet(bubbles: seq<Bubble.BubbleTarget>): set<Bubble.BubbleTarget> {
    set b | b in bubbles
  }

  class UserStudyManager {
    /** `null` when no reverse GoGo component is assigned. */
    const handAttach: ReverseGoGo.VirtualHandAttach?
    const dataLogger: Logging.DataLogger
    const bubbleTargets: seq<Bubble.BubbleTarget>
    var currentParticipantID: string
    var currentData: Option<TrialData>
    var totalAttempts: int
    var successfulPlacements: int
    var taskTimes: seq<real>
    var selectionCounts: seq<int>
    var currentObjectIndex: int
    var taskStartTime: real
    var currentSelectionCount: int
    var lastSelectedObject: Body?

    /** Successes never exceed attempts; one time and one count per success,
        and as many successes as objects placed, fewer than four between
        placements. */
    ghost predicate Valid()
      reads this
    {
      && 0 <= successfulPlacements <= totalAttempts
      && |taskTimes| == |selectionCounts| == successfulPlacements == currentObjectIndex
      && currentObjectIndex < TaskCount
      && currentSelectionCount >= 0
      && (forall i :: 0 <= i < |selectionCounts| ==> selectionCounts[i] >= 0)
    }

    constructor (handAttach: ReverseGoGo.VirtualHandAttach?, dataLogger: Logging.DataLogger,
                 bubbleTargets: seq<Bubble.BubbleTarget>)
      ensures Valid()
      ensures this.handAttach == handAttach && this.dataLogger == dataLogger
      ensures this.bubbleTargets == bubbleTargets
      ensures currentParticipantID == "" && currentData == None
      ensures totalAttempts == 0 && successfulPlacements == 0
      ensures taskTimes == [] && selectionCounts == [] && currentObjectIndex == 0
      ensures taskStartTime == 0.0 && currentSelectionCount == 0 && lastSelectedObject == null
    {
      this.handAttach := handAttach;
      this.dataLogger := dataLogger;
      this.bubbleTargets := bubbleTargets;
      currentParticipantID := "";
      currentData := None;
      totalAttempts := 0;
      successfulPlacements := 0;
      taskTimes := [];
      selectionCounts := [];
      currentObjectIndex := 0;
      taskStartTime := 0.0;
      currentSelectionCount := 0;
      lastSelectedObject := null;
    }

    /** Opens the log, takes the next participant ID and starts the clock of
        the first task. `now` is `Time.time`. */
    method Start(now: real)
      requires Valid()
      modifies this`currentParticipantID, this`taskStartTime, dataLogger
      ensures Valid() && dataLogger.hasPath
      ensures currentParticipantID == Logging.NextParticipantID(dataLogger.file)
      ensures old(dataLogger.file).Some? ==> dataLogger.file == old(dataLogger.file)
      // a new log gets the header, and its first participant is "001"
      ensures old(dataLogger.file).None? ==>
        dataLogger.file == Some([GetCSVHeader()]) && currentParticipantID == Logging.FirstID
      ensures taskStartTime == now
    {
      dataLogger.InitializeSession();
      currentParticipantID := dataLogger.GetNextParticipantID();
      taskStartTime := now;
    }

    /** One frame: picking up an object other than the last one counts a
        selection; putting it down forgets the last one, so picking the same
        object up again counts again. */
    method Update()
      requires Valid() && (handAttach != null ==> handAttach.Valid())
      modifies this`currentSelectionCount, this`lastSelectedObject
      ensures Valid()
      ensures handAttach == null ==> unchanged(this)
      ensures handAttach != null ==>
        var held := handAttach.currentlyGrabbedObject;
        && (held != null && held != old(lastSelectedObject) ==>
              currentSelectionCount == old(currentSelectionCount) + 1 && lastSelectedObject == held)
        && (held == null ==> currentSelectionCount == old(currentSelectionCount) && lastSelectedObject == null)
        && (held == old(lastSelectedObject) ==> unchanged(this))
    {
      if handAttach != null {
        var currentObject := handAttach.GetCurrentObject();
        if currentObject != null && currentObject != lastSelectedObject {
          currentSelectionCount := currentSelectionCount + 1;
          lastSelectedObject := currentObject;
        } else if currentObject == null && lastSelectedObject != null {
          lastSelectedObject := null;
        }
      }
    }

    /** A zone's placement event. `now` is `Time.time`, `clock` the wall
        clock, `writeFails` whether appending to the log fails. Every event
        is an attempt; a correct one records its time and pick-up count and
        moves to the next object, and the fourth logs the study and resets. */
    method HandleObjectPlaced(placed: Bubble.Placement, now: real, clock: Timestamp, writeFails: bool)
      requires Valid()
      modifies this, dataLogger`file, BubbleSet(bubbleTargets)`material
      ensures Valid()
      ensures !placed.isCorrect ==>
        && totalAttempts == old(totalAttempts) + 1
        && successfulPlacements == old(successfulPlacements) && taskTimes == old(taskTimes)
        && selectionCounts == old(selectionCounts) && currentObjectIndex == old(currentObjectIndex)
        && taskStartTime == old(taskStartTime) && currentSelectionCount == old(currentSelectionCount)
        && lastSelectedObject == old(lastSelectedObject) && currentData == old(currentData)
        && currentParticipantID == old(currentParticipantID)
        && unchanged(dataLogger) && unchanged(BubbleSet(bubbleTargets))
      ensures placed.isCorrect && old(currentObjectIndex) + 1 < TaskCount ==>
        && totalAttempts == old(totalAttempts) + 1
        && successfulPlacements == old(successfulPlacements) + 1
        && taskTimes == old(taskTimes) + [now - old(taskStartTime)]
        && selectionCounts == old(selectionCounts) + [old(currentSelectionCount)]
        && currentObjectIndex == old(currentObjectIndex) + 1
        && taskStartTime == now && currentSelectionCount == 0 && lastSelectedObject == null
        && currentParticipantID == old(currentParticipantID) && currentData == old(currentData)
        && unchanged(dataLogger) && unchanged(BubbleSet(bubbleTargets))
      ensures placed.isCorrect && old(currentObjectIndex) + 1 == TaskCount ==>
        var record := Metrics(old(currentParticipantID), clock, old(totalAttempts) + 1, TaskCount,
                              old(taskTimes) + [now - old(taskStartTime)],
                              old(selectionCounts) + [old(currentSelectionCount)]);
        && currentData == Some(record)
        && dataLogger.file == (if !dataLogger.hasPath || writeFails then old(dataLogger.file)
                               else Some(Logging.LinesOf(old(dataLogger.file)) + [ToCSV(record)]))
        && Reset(now)
        && (forall b :: b in bubbleTargets ==> b.material == b.NormalLook(old(b.material)))
    {
      totalAttempts := totalAttempts + 1;
      if placed.isCorrect {
        successfulPlacements := successfulPlacements + 1;
        var taskTime := now - taskStartTime;
        taskTimes := taskTimes + [taskTime];
        selectionCounts := selectionCounts + [currentSelectionCount];
        currentObjectIndex := currentObjectIndex + 1;
        if currentObjectIndex >= TaskCount {
          FinishStudy(clock, now, writeFails);
        } else {
          taskStartTime := now;
          currentSelectionCount := 0;
          lastSelectedObject := null;
        }
      }
    }

    /** The state right after `ResetStudy`: nothing counted, the next
        participant's ID taken, the clock restarted. */
    ghost predicate Reset(now: real)
      reads this, dataLogger
    {
      && totalAttempts == 0 && successfulPlacements == 0
      && taskTimes == [] && selectionCounts == []
      && currentObjectIndex == 0 && currentSelectionCount == 0 && lastSelectedObject == null
      && currentParticipantID == dataLogger.GetNextParticipantID()
      && taskStartTime == now
    }

    /** Computes the four metrics (the two means by accumulation loops),
        logs one record, and resets for the next participant. */
    method FinishStudy(clock: Timestamp, now: real, writeFails: bool)
      requires totalAttempts > 0 && |taskTimes| == |selectionCounts|
      modifies this, dataLogger`file, BubbleSet(bubbleTargets)`material
      ensures var record := Metrics(old(currentParticipantID), clock, old(totalAttempts),
                                    old(successfulPlacements), old(taskTimes), old(selectionCounts));
        && currentData == Some(record)
        && dataLogger.file == (if !dataLogger.hasPath || writeFails then old(dataLogger.file)
                               else Some(Logging.LinesOf(old(dataLogger.file)) + [ToCSV(record)]))
        && Reset(now) && currentObjectIndex == 0
      ensures forall b :: b in bubbleTargets ==> b.material == b.NormalLook(old(b.material))
    {
      var data := ComputeMetrics(currentParticipantID, clock, totalAttempts, successfulPlacements,
                                 taskTimes, selectionCounts);
      currentData := Some(data);
      dataLogger.LogParticipantData(data, writeFails);
      ResetStudy(now);
    }

    /** The metrics step of `FinishStudy`: the success and error rates,
        then the two means computed by the accumulation loops. */
    static method ComputeMetrics(id: string, clock: Timestamp, attempts: int, successes: int,
                                 times: seq<real>, counts: seq<int>) returns (data: TrialData)
      requires attempts > 0
      ensures data == Metrics(id, clock, attempts, successes, times, counts)
    {
      var successRate := successes as real / attempts as real * 100.0;
      var errorRate := (attempts - successes) as real;
      var avgTaskTime := MeanTaskTime(times);
      var pullingAccuracy := AccuracyOf(counts);
      data := NewTrialData(clock);
      data := data.(participantID := id, successRate := successRate,
                    errorRate := errorRate, averageTaskTime := avgTaskTime,
                    pullingAccuracy := pullingAccuracy);
    }

    /** The first loop of `FinishStudy`: the task times summed one by one,
        then divided by their number. */
    static method MeanTaskTime(taskTimes: seq<real>) returns (avgTaskTime: real)
      ensures avgTaskTime == AverageTaskTime(taskTimes)
    {
      avgTaskTime := 0.0;
      if |taskTimes| > 0 {
        var i := 0;
        while i < |taskTimes|
          invariant 0 <= i <= |taskTimes|
          invariant avgTaskTime == Sum(taskTimes[..i])
        {
          assert taskTimes[..i + 1][..i] == taskTimes[..i];
          avgTaskTime := avgTaskTime + taskTimes[i];
          i := i + 1;
        }
        assert taskTimes[..i] == taskTimes;
        avgTaskTime := avgTaskTime / |taskTimes| as real;
      }
    }

    /** The second loop of `FinishStudy`: the pick-up counts summed one by
        one, their mean turned into the accuracy percentage. */
    static method AccuracyOf(selectionCounts: seq<int>) returns (pullingAccuracy: real)
      ensures pullingAccuracy == PullingAccuracy(selectionCounts)
    {
      pullingAccuracy := 0.0;
      if |selectionCounts| > 0 {
        var totalSelections := 0.0;
        var i := 0;
        while i < |selectionCounts|
          invariant 0 <= i <= |selectionCounts|
          invariant totalSelections == SumInts(selectionCounts[..i]) as real
        {
          assert selectionCounts[..i + 1][..i] == selectionCounts[..i];
          totalSelections := totalSelections + selectionCounts[i] as real;
          i := i + 1;
        }
        assert selectionCounts[..i] == selectionCounts;
        var avgSelections := totalSelections / |selectionCounts| as real;
        pullingAccuracy := Max(0.0, 1.0 - (avgSelections - 1.0) * 0.2) * 100.0;
      }
    }

    /** Clears every counter and list, takes the next participant ID,
        restarts the clock and gives every zone its normal look. */
    method ResetStudy(now: real)
      modifies this, BubbleSet(bubbleTargets)`material
      ensures Reset(now) && currentData == old(currentData)
      ensures forall b :: b in bubbleTargets ==> b.material == b.NormalLook(old(b.material))
    {
      totalAttempts := 0;
      successfulPlacements := 0;
      taskTimes := [];
      selectionCounts := [];
      currentObjectIndex := 0;
      currentSelectionCount := 0;
      lastSelectedObject := null;
      currentParticipantID := dataLogger.GetNextParticipantID();
      taskStartTime := now;
      ResetBubbles();
    }

    /** The loop over the zones at the end of `ResetStudy`. A zone listed
        twice is reset twice, which changes nothing more. */
    method ResetBubbles()
      modifies BubbleSet(bubbleTargets)`material
      ensures forall b :: b in bubbleTargets ==> b.material == b.NormalLook(old(b.material))
    {
      var i := 0;
      while i < |bubbleTargets|
        invariant 0 <= i <= |bubbleTargets|
        invariant forall j :: 0 <= j < i ==>
          bubbleTargets[j].material == bubbleTargets[j].NormalLook(old(bubbleTargets[j].material))
        invariant forall b :: b in bubbleTargets ==>
          b.material == old(b.material) || b.material == b.NormalLook(old(b.material))
      {
        bubbleTargets[i].ResetVisual();
        i := i + 1;
      }
    }
  }
}
