/** agent-core/src/budget.rs: token and iteration accounting, with the source's u64 saturation. */
module Budget {
  import opened Wrappers

  const SAFETY_MAX_ITERATIONS: nat := 1000
  const MAX_U64: nat := 0xFFFF_FFFF_FFFF_FFFF

  datatype StopReason = NoToolCall | IterationCap | TokenCap | Halted

  datatype Limits = Limits(maxSteps: nat, perRunTokenCap: nat, perStepTokenCap: nat)

  function NewLimits(maxSteps: nat, perRunTokenCap: nat, perStepTokenCap: nat): Limits {
    Limits(Min(maxSteps, SAFETY_MAX_ITERATIONS), perRunTokenCap, perStepTokenCap)
  }

  function SaturatingAdd(a: nat, b: nat): (r: nat)
    ensures r <= MAX_U64 && (a + b <= MAX_U64 ==> r == a + b)
  {
    if a + b > MAX_U64 then MAX_U64 else a + b
  }

  function StopBefore(l: Limits, runTokens: nat, iteration: nat): Option<StopReason> {
    if iteration > l.maxSteps then Some(IterationCap)
    else if runTokens > l.perRunTokenCap then Some(TokenCap)
    else None
  }

  function Sum(tokens: seq<nat>): nat {
    if tokens == [] then 0 else Sum(tokens[..|tokens| - 1]) + tokens[|tokens| - 1]
  }

  /** What the running total shows after these calls. */
  function Tallied(tokens: seq<nat>): nat {
    if tokens == [] then 0 else SaturatingAdd(Tallied(tokens[..|tokens| - 1]), tokens[|tokens| - 1])
  }

  /** The tally is the true sum until it sticks at the top of the range. */
  lemma {:induction false} TallyIsSum(tokens: seq<nat>)
    ensures Tallied(tokens) == if Sum(tokens) <= MAX_U64 then Sum(tokens) else MAX_U64
  {
    if tokens != [] {
      TallyIsSum(tokens[..|tokens| - 1]);
    }
  }

  /** A budget as the loop holds it. */
  class Tally {
    const limits: Limits
    var runTokens: nat

    constructor (limits: Limits)
      ensures this.limits == limits && runTokens == 0
    {
      this.limits, runTokens := limits, 0;
    }

    method AddTokens(n: nat)
      modifies this
      ensures runTokens == SaturatingAdd(old(runTokens), n)
    {
      runTokens := SaturatingAdd(runTokens, n);
    }

    /** The stop that the budget asks for before `iteration`. */
    function StopNow(iteration: nat): Option<StopReason>
      reads this
    {
      StopBefore(limits, runTokens, iteration)
    }

    predicate StepOverCap(stepTokens: nat) { stepTokens > limits.perStepTokenCap }
  }
}
