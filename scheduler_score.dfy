/**
 * The driver-side valuation of a candidate allocation for a task group
 * (driver/scheduler/scheduler_score.go). The score is the bid divided by a
 * cost that starts at 1 and grows, for every input of the group's first task
 * whose shard location is known, by the distance from that shard to the
 * allocation and by a fixed penalty when the allocation lacks the group's
 * required resource.
 *
 * The shard locator and the distance between locations are collaborators:
 * the locator is a finite map from shard key to location, the distance a
 * function over an opaque location type `L`.
 */
module SchedulerScore {

  /** The penalty added per located input when the required resource is missing. */
  const MismatchPenalty: real := 10000.0

  /** A named data-shard reference of a task. */
  datatype Input = Input(name: string)

  datatype Task = Task(inputs: seq<Input>)

  /** A task group: its tasks and its required resource ("" when none). */
  datatype TaskGroup = TaskGroup(tasks: seq<Task>, requiredResource: string)

  /** A candidate allocation: where it is and which resources it provides. */
  datatype Allocation<L> = Allocation(location: L, providedResources: seq<string>)

  /** What the scorer consults: the executable's hash, the shard locator and the distance. */
  datatype Scheduler<!L> = Scheduler(
    executableFileHash: string,
    shardLocations: map<string, L>,
    distance: (L, L) -> real)

  /** Distances are never negative; the division in Score relies on it. */
  ghost predicate NonNegativeDistance<L(!new)>(distance: (L, L) -> real)
  {
    forall a: L, b: L :: distance(a, b) >= 0.0
  }

  // ---------------------------------------------------------------------
  // Shard keys

  /** The locator key of an input: the executable's hash, a dash, the input's name. */
  function ShardKey(executableFileHash: string, inputName: string): (key: string)
    ensures |key| == |executableFileHash| + 1 + |inputName|
    ensures key[..|executableFileHash|] == executableFileHash
    ensures key[|executableFileHash|] == '-'
    ensures key[|executableFileHash| + 1..] == inputName
  {
    executableFileHash + "-" + inputName
  }

  /** For one executable, distinct input names give distinct keys. */
  lemma ShardKeyInjective(executableFileHash: string, a: string, b: string)
    requires ShardKey(executableFileHash, a) == ShardKey(executableFileHash, b)
    ensures a == b
  {
    var n := |executableFileHash| + 1;
    assert a == ShardKey(executableFileHash, a)[n..];
    assert b == ShardKey(executableFileHash, b)[n..];
  }

  // ---------------------------------------------------------------------
  // The cost, as a specification

  /** Whether the shard of `input` has a known location. */
  predicate Located<L>(sch: Scheduler<L>, input: Input)
  {
    ShardKey(sch.executableFileHash, input.name) in sch.shardLocations
  }

  /** The penalty a located input incurs on this allocation. */
  function Penalty<L>(tg: TaskGroup, al: Allocation<L>): real
  {
    if tg.requiredResource != "" && tg.requiredResource !in al.providedResources
    then MismatchPenalty else 0.0
  }

  /** The distance from a located input's shard to the allocation. */
  function InputDistance<L>(sch: Scheduler<L>, al: Allocation<L>, input: Input): real
    requires Located(sch, input)
  {
    sch.distance(sch.shardLocations[ShardKey(sch.executableFileHash, input.name)], al.location)
  }

  /** What one input adds to the cost: nothing when its location is unknown. */
  function InputCost<L>(sch: Scheduler<L>, tg: TaskGroup, al: Allocation<L>, input: Input): real
  {
    if Located(sch, input) then Penalty(tg, al) + InputDistance(sch, al, input) else 0.0
  }

  /** The sum of InputCost over `inputs`, accumulated from the first input to the last. */
  function InputsCost<L>(sch: Scheduler<L>, tg: TaskGroup, al: Allocation<L>, inputs: seq<Input>): real
  {
    if inputs == [] then 0.0
    else InputsCost(sch, tg, al, inputs[..|inputs| - 1]) + InputCost(sch, tg, al, inputs[|inputs| - 1])
  }

  /** The cost of placing `tg` on `al`: 1 plus what the first task's inputs add. */
  function Cost<L>(sch: Scheduler<L>, tg: TaskGroup, al: Allocation<L>): real
    requires |tg.tasks| > 0
  {
    1.0 + InputsCost(sch, tg, al, tg.tasks[0].inputs)
  }

  /** The score of `al` for `tg` at `bid`. */
  function Valuation<L(!new)>(sch: Scheduler<L>, tg: TaskGroup, bid: real, al: Allocation<L>): real
    requires |tg.tasks| > 0
    requires NonNegativeDistance(sch.distance)
  {
    CostAtLeastOne(sch, tg, al);
    bid / Cost(sch, tg, al)
  }

  // ---------------------------------------------------------------------
  // The implementation

  /** Whether `str` is one of the elements of `s`. */
  method ContainsStr(s: seq<string>, str: string) returns (found: bool)
    ensures found <==> exists i :: 0 <= i < |s| && s[i] == str
  {
    for i := 0 to |s|
      invariant forall j :: 0 <= j < i ==> s[j] != str
    {
      if s[i] == str {
        return true;
      }
    }
    return false;
  }

  /** Scores allocation `al` for task group `tg` at `bid`. */
  method Score<L(!new)>(sch: Scheduler<L>, tg: TaskGroup, bid: real, al: Allocation<L>) returns (score: real)
    requires |tg.tasks| > 0
    requires NonNegativeDistance(sch.distance)
    ensures score == Valuation(sch, tg, bid, al)
  {
    var firstTask := tg.tasks[0];
    var cost := 1.0;
    for i := 0 to |firstTask.inputs|
      invariant cost == 1.0 + InputsCost(sch, tg, al, firstTask.inputs[..i])
      invariant cost >= 1.0
    {
      var input := firstTask.inputs[i];
      assert firstTask.inputs[..i + 1][..i] == firstTask.inputs[..i];
      var key := ShardKey(sch.executableFileHash, input.name);
      if key !in sch.shardLocations {
        continue;
      }
      var dataLocation := sch.shardLocations[key];
      if tg.requiredResource != "" {
        var provided := ContainsStr(al.providedResources, tg.requiredResource);
        if !provided {
          cost := cost + MismatchPenalty;
        }
      }
      cost := cost + sch.distance(dataLocation, al.location);
    }
    assert firstTask.inputs[..|firstTask.inputs|] == firstTask.inputs;
    score := bid / cost;
  }

  // ---------------------------------------------------------------------
  // Properties of the cost

  /** The inputs whose shard location is known, in their original order. */
  function Found<L>(sch: Scheduler<L>, inputs: seq<Input>): (r: seq<Input>)
    ensures |r| <= |inputs|
    ensures forall x :: x in r ==> x in inputs && Located(sch, x)
  {
    if inputs == [] then []
    else
      var init := Found(sch, inputs[..|inputs| - 1]);
      if Located(sch, inputs[|inputs| - 1]) then init + [inputs[|inputs| - 1]] else init
  }

  /** The sum of the distances of the located inputs to the allocation. */
  function DistanceSum<L>(sch: Scheduler<L>, al: Allocation<L>, inputs: seq<Input>): real
  {
    if inputs == [] then 0.0
    else
      var last := inputs[|inputs| - 1];
      DistanceSum(sch, al, inputs[..|inputs| - 1])
        + (if Located(sch, last) then InputDistance(sch, al, last) else 0.0)
  }

  lemma {:induction false} InputsCostNonNegative<L(!new)>(sch: Scheduler<L>, tg: TaskGroup, al: Allocation<L>, inputs: seq<Input>)
    requires NonNegativeDistance(sch.distance)
    ensures InputsCost(sch, tg, al, inputs) >= 0.0
  {
    if inputs != [] {
      InputsCostNonNegative(sch, tg, al, inputs[..|inputs| - 1]);
    }
  }

  /** With non-negative distances the cost is at least 1, so the division is defined. */
  lemma CostAtLeastOne<L(!new)>(sch: Scheduler<L>, tg: TaskGroup, al: Allocation<L>)
    requires |tg.tasks| > 0
    requires NonNegativeDistance(sch.distance)
    ensures Cost(sch, tg, al) >= 1.0
  {
    InputsCostNonNegative(sch, tg, al, tg.tasks[0].inputs);
  }

  /**
   * The cost of a list of inputs is the penalty once per located input
   * plus the distances of the located inputs.
   */
  lemma {:induction false} CostDecomposition<L>(sch: Scheduler<L>, tg: TaskGroup, al: Allocation<L>, inputs: seq<Input>)
    ensures InputsCost(sch, tg, al, inputs)
      == (|Found(sch, inputs)| as real) * Penalty(tg, al) + DistanceSum(sch, al, inputs)
  {
    if inputs != [] {
      CostDecomposition(sch, tg, al, inputs[..|inputs| - 1]);
    }
  }

  /** An input whose location is unknown adds nothing to the cost, wherever it stands. */
  lemma {:induction false} UnknownInputAddsNothing<L>(sch: Scheduler<L>, tg: TaskGroup, al: Allocation<L>,
                                                     before: seq<Input>, x: Input, after: seq<Input>)
    requires !Located(sch, x)
    ensures InputsCost(sch, tg, al, before + [x] + after) == InputsCost(sch, tg, al, before + after)
  {
    if after == [] {
      assert (before + [x] + after)[..|before + [x] + after| - 1] == before;
      assert before + after == before;
    } else {
      var init, last := after[..|after| - 1], after[|after| - 1];
      UnknownInputAddsNothing(sch, tg, al, before, x, init);
      assert (before + [x] + after)[..|before + [x] + after| - 1] == before + [x] + init;
      assert (before + after)[..|before + after| - 1] == before + init;
    }
  }

  /** Only the located inputs matter: the cost equals the cost of Found alone. */
  lemma {:induction false} OnlyLocatedInputsCount<L>(sch: Scheduler<L>, tg: TaskGroup, al: Allocation<L>, inputs: seq<Input>)
    ensures InputsCost(sch, tg, al, inputs) == InputsCost(sch, tg, al, Found(sch, inputs))
  {
    if inputs != [] {
      var init, last := inputs[..|inputs| - 1], inputs[|inputs| - 1];
      OnlyLocatedInputsCount(sch, tg, al, init);
      if Located(sch, last) {
        assert (Found(sch, init) + [last])[..|Found(sch, init) + [last]| - 1] == Found(sch, init);
      }
    }
  }

  /** When no input of the first task is located (or it has none), the score is exactly the bid. */
  lemma NoLocatedInputScoresBid<L(!new)>(sch: Scheduler<L>, tg: TaskGroup, bid: real, al: Allocation<L>)
    requires |tg.tasks| > 0
    requires NonNegativeDistance(sch.distance)
    requires forall x :: x in tg.tasks[0].inputs ==> !Located(sch, x)
    ensures Cost(sch, tg, al) == 1.0
    ensures Valuation(sch, tg, bid, al) == bid
  {
    var inputs := tg.tasks[0].inputs;
    OnlyLocatedInputsCount(sch, tg, al, inputs);
  }

  /** An empty required resource, or one the allocation provides, never costs a penalty. */
  lemma NoPenaltyWhenSatisfied<L>(sch: Scheduler<L>, tg: TaskGroup, al: Allocation<L>)
    requires |tg.tasks| > 0
    requires tg.requiredResource == "" || tg.requiredResource in al.providedResources
    ensures Cost(sch, tg, al) == 1.0 + DistanceSum(sch, al, tg.tasks[0].inputs)
  {
    CostDecomposition(sch, tg, al, tg.tasks[0].inputs);
  }

  /** With a missing required resource the penalty is charged once per located input: 10000 times k. */
  lemma PenaltyPerLocatedInput<L>(sch: Scheduler<L>, tg: TaskGroup, al: Allocation<L>)
    requires |tg.tasks| > 0
    requires tg.requiredResource != "" && tg.requiredResource !in al.providedResources
    ensures Cost(sch, tg, al)
      == 1.0 + MismatchPenalty * (|Found(sch, tg.tasks[0].inputs)| as real)
         + DistanceSum(sch, al, tg.tasks[0].inputs)
  {
    CostDecomposition(sch, tg, al, tg.tasks[0].inputs);
  }

  /** Only the first task's inputs and the required resource affect the score. */
  lemma OnlyFirstTaskMatters<L(!new)>(sch: Scheduler<L>, tg1: TaskGroup, tg2: TaskGroup, bid: real, al: Allocation<L>)
    requires |tg1.tasks| > 0 && |tg2.tasks| > 0
    requires NonNegativeDistance(sch.distance)
    requires tg1.tasks[0] == tg2.tasks[0] && tg1.requiredResource == tg2.requiredResource
    ensures Valuation(sch, tg1, bid, al) == Valuation(sch, tg2, bid, al)
  {
    assert Penalty(tg1, al) == Penalty(tg2, al);
    CostDecomposition(sch, tg1, al, tg1.tasks[0].inputs);
    CostDecomposition(sch, tg2, al, tg2.tasks[0].inputs);
  }

  /** For a fixed task group and allocation, a higher bid gives a strictly higher score. */
  lemma ScoreIncreasesWithBid<L(!new)>(sch: Scheduler<L>, tg: TaskGroup, bid1: real, bid2: real, al: Allocation<L>)
    requires |tg.tasks| > 0
    requires NonNegativeDistance(sch.distance)
    requires bid1 < bid2
    ensures Valuation(sch, tg, bid1, al) < Valuation(sch, tg, bid2, al)
  {
    var c := Cost(sch, tg, al);
    CostAtLeastOne(sch, tg, al);
    assert bid1 / c < bid2 / c by {
      assert (bid2 - bid1) / c > 0.0;
    }
  }

  /**
   * At a positive bid, an allocation that lacks the required resource scores
   * strictly below one at the same location that provides it, as soon as one
   * input of the first task is located.
   */
  lemma PenaltyDominance<L(!new)>(sch: Scheduler<L>, tg: TaskGroup, bid: real, lacking: Allocation<L>, providing: Allocation<L>)
    requires |tg.tasks| > 0
    requires NonNegativeDistance(sch.distance)
    requires lacking.location == providing.location
    requires tg.requiredResource != ""
    requires tg.requiredResource !in lacking.providedResources
    requires tg.requiredResource in providing.providedResources
    requires exists x :: x in tg.tasks[0].inputs && Located(sch, x)
    requires bid > 0.0
    ensures Valuation(sch, tg, bid, lacking) < Valuation(sch, tg, bid, providing)
  {
    var inputs := tg.tasks[0].inputs;
    var x :| x in inputs && Located(sch, x);
    FoundContains(sch, inputs, x);
    SameLocationSameDistances(sch, lacking, providing, inputs);
    PenaltyPerLocatedInput(sch, tg, lacking);
    NoPenaltyWhenSatisfied(sch, tg, providing);
    CostAtLeastOne(sch, tg, providing);
    var cl, cp := Cost(sch, tg, lacking), Cost(sch, tg, providing);
    assert cl >= cp + MismatchPenalty;
    QuotientDecreasing(bid, cp, cl);
  }

  /** Dividing a positive bid by a larger positive cost gives a smaller score. */
  lemma QuotientDecreasing(bid: real, smaller: real, larger: real)
    requires bid > 0.0 && 0.0 < smaller < larger
    ensures bid / larger < bid / smaller
  {
    var q1, q2 := bid / larger, bid / smaller;
    assert q1 * larger == bid;
    assert q2 * smaller == bid;
    assert q2 * larger > q2 * smaller by {
      assert q2 > 0.0;
      assert q2 * (larger - smaller) > 0.0;
    }
    assert q1 * larger < q2 * larger;
  }

  /**
   * At a positive bid, of two allocations with the same penalty, the one
   * farther from the located shards scores strictly lower.
   */
  lemma DistanceMonotone<L(!new)>(sch: Scheduler<L>, tg: TaskGroup, bid: real, near: Allocation<L>, far: Allocation<L>)
    requires |tg.tasks| > 0
    requires NonNegativeDistance(sch.distance)
    requires Penalty(tg, near) == Penalty(tg, far)
    requires DistanceSum(sch, near, tg.tasks[0].inputs) < DistanceSum(sch, far, tg.tasks[0].inputs)
    requires bid > 0.0
    ensures Valuation(sch, tg, bid, far) < Valuation(sch, tg, bid, near)
  {
    CostDecomposition(sch, tg, near, tg.tasks[0].inputs);
    CostDecomposition(sch, tg, far, tg.tasks[0].inputs);
    CostAtLeastOne(sch, tg, near);
    QuotientDecreasing(bid, Cost(sch, tg, near), Cost(sch, tg, far));
  }

  /** Every located input appears among the Found inputs. */
  lemma {:induction false} FoundContains<L>(sch: Scheduler<L>, inputs: seq<Input>, x: Input)
    requires x in inputs && Located(sch, x)
    ensures x in Found(sch, inputs)
  {
    var init, last := inputs[..|inputs| - 1], inputs[|inputs| - 1];
    if x != last {
      assert x in init;
      FoundContains(sch, init, x);
    }
  }

  /** The distance sum depends on the allocation only through its location. */
  lemma {:induction false} SameLocationSameDistances<L>(sch: Scheduler<L>, a: Allocation<L>, b: Allocation<L>, inputs: seq<Input>)
    requires a.location == b.location
    ensures DistanceSum(sch, a, inputs) == DistanceSum(sch, b, inputs)
  {
    if inputs != [] {
      SameLocationSameDistances(sch, a, b, inputs[..|inputs| - 1]);
    }
  }
}
