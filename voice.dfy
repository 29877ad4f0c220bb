/** What both voice-guidance modules share: utterances with an optional
    priority, and the lookup of the next instruction from the distance
    travelled, which both files define with the same loop. */
module Voice {
  import opened Common
  import opened Geo

  datatype Priority = High | Normal | Low

  /** An utterance: its text and the priority from its options, if any. */
  datatype Speech = Speech(text: string, priority: Option<Priority>)

  /** A distance as it is read out: kilometres or whole metres. */
  datatype SpokenDistance = Kilometres(km: real) | Metres(m: int)

  /** Kilometres to one decimal (`toFixed(1)`), metres as an integer. */
  function SpokenText(b: SpokenDistance): string {
    match b
    case Kilometres(km) => Fixed1(km) + " kil\U{f3}metros"
    case Metres(m) => IntToString(m) + " metros"
  }

  /** The distance covered by the first `n` instructions. */
  function PrefixSum(ins: seq<Instruction>, n: nat): real
    requires n <= |ins|
  {
    if n == 0 then 0.0 else PrefixSum(ins, n - 1) + ins[n - 1].distance
  }

  datatype NextStep = NextStep(instruction: Instruction, index: nat, distanceToInstruction: real)

  /** `next` is the first instruction whose running distance sum passes
      the distance travelled, with the distance left to reach it. */
  predicate FirstAhead(ins: seq<Instruction>, traveled: real, next: NextStep) {
    next.index < |ins| && next.instruction == ins[next.index]
    && next.distanceToInstruction == PrefixSum(ins, next.index + 1) - traveled
    && next.distanceToInstruction > 0.0
    && forall j :: 0 < j <= next.index ==> PrefixSum(ins, j) <= traveled
  }

  /** Every running sum is at most the distance travelled. */
  predicate AllBehind(ins: seq<Instruction>, traveled: real) {
    forall j :: 0 < j <= |ins| ==> PrefixSum(ins, j) <= traveled
  }

  /** `getNextInstructionBasedOnProgress`: nothing without a current route
      or with no distance travelled (a missing tracker or exactly 0);
      otherwise the first instruction whose running sum exceeds the
      distance travelled, or nothing when no running sum does. */
  method GetNextInstructionBasedOnProgress(currentRoute: Option<Route>, traveledDistance: Option<real>)
    returns (r: Option<NextStep>)
    ensures currentRoute.None? || traveledDistance.None? || traveledDistance.value == 0.0 ==> r.None?
    ensures r.Some? ==>
      currentRoute.Some? && traveledDistance.Some?
      && FirstAhead(currentRoute.value.instructions, traveledDistance.value, r.value)
    ensures r.None? && currentRoute.Some? && traveledDistance.Some? && traveledDistance.value != 0.0 ==>
      AllBehind(currentRoute.value.instructions, traveledDistance.value)
  {
    if currentRoute.None? || traveledDistance.None? || traveledDistance.value == 0.0 {
      return None;
    }
    var ins := currentRoute.value.instructions;
    var traveled := traveledDistance.value;
    var accumulatedDist := 0.0;
    for i := 0 to |ins|
      invariant accumulatedDist == PrefixSum(ins, i)
      invariant forall j :: 0 < j <= i ==> PrefixSum(ins, j) <= traveled
    {
      var instruction := ins[i];
      accumulatedDist := accumulatedDist + instruction.distance;
      if accumulatedDist > traveled {
        return Some(NextStep(instruction, i, accumulatedDist - traveled));
      }
    }
    r := None;
  }

  /** With distances that are never negative the running sums only grow. */
  lemma {:induction false} PrefixSumMonotone(ins: seq<Instruction>, j: nat, n: nat)
    requires j <= n <= |ins|
    requires forall k :: 0 <= k < |ins| ==> ins[k].distance >= 0.0
    ensures PrefixSum(ins, j) <= PrefixSum(ins, n)
    decreases n - j
  {
    if j < n {
      PrefixSumMonotone(ins, j, n - 1);
    }
  }

  /** With such distances there is no next instruction exactly when the
      distance travelled has reached the total of all instructions. */
  lemma AllBehindIffTotal(ins: seq<Instruction>, traveled: real)
    requires traveled >= 0.0
    requires forall k :: 0 <= k < |ins| ==> ins[k].distance >= 0.0
    ensures AllBehind(ins, traveled) <==> PrefixSum(ins, |ins|) <= traveled
  {
    if PrefixSum(ins, |ins|) <= traveled {
      forall j | 0 < j <= |ins| ensures PrefixSum(ins, j) <= traveled {
        PrefixSumMonotone(ins, j, |ins|);
      }
    }
  }

  /** At most one step satisfies `FirstAhead`. */
  lemma FirstAheadUnique(ins: seq<Instruction>, traveled: real, a: NextStep, b: NextStep)
    requires FirstAhead(ins, traveled, a) && FirstAhead(ins, traveled, b)
    ensures a == b
  {
  }
}
