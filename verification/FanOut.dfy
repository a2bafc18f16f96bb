/** agent-core/src/fanout.rs: the fan-out of sub-agents, as the result it must give and as a
    protocol of interleaved steps. */
module FanOut {
  import opened Wrappers
  import opened Guard

  datatype FailureMode = FailFast | ErrorSummary

  /** How a child's task ends once it runs. */
  datatype ChildRun = Finished(summary: string) | Failed(error: string) | Panicked(error: string)

  /** A child: why its model could not be resolved, if so, and how its run ends. */
  datatype Child = Child(rejected: Option<string>, run: ChildRun)

  function ErrorText(detail: string): string { "[subagent error: " + detail + "]" }

  /** The summary a child contributes when failures are relaxed. */
  function Contribution(c: Child): string {
    if c.rejected.Some? then ErrorText("model resolution failed: " + c.rejected.value)
    else match c.run
         case Finished(summary) => summary
         case Failed(e) => ErrorText("sub-agent failed: " + e)
         case Panicked(e) => ErrorText("sub-agent task panicked: " + e)
  }

  predicate Succeeds(c: Child) { c.rejected.None? && c.run.Finished? }

  /** The error that a failed run aborts a strict fan-out with. */
  function RunError(run: ChildRun): string {
    if run.Panicked? then "subagent task panicked: " + run.error
    else if run.Failed? then run.error
    else ""
  }

  predicate IsRejected(c: Child) { c.rejected.Some? }
  predicate RunFails(c: Child) { !c.run.Finished? }

  function NeutralContribution(c: Child): string { Neutralized(Contribution(c)) }

  /** What the fan-out returns: under `ErrorSummary` one neutralized summary per child in spawn
      order; under `FailFast` the first rejection, else the first failed run, else the summaries. */
  function FanOutResult(children: seq<Child>, mode: FailureMode): Result<seq<string>, string> {
    var rejected, failing := Filter(IsRejected, children), Filter(RunFails, children);
    if mode == FailFast && rejected != [] then assert rejected[0] in rejected; Err(rejected[0].rejected.value)
    else if mode == FailFast && failing != [] then Err(RunError(failing[0].run))
    else Ok(Map(NeutralContribution, children))
  }

  lemma {:induction false} FilterFirst<T(!new)>(keep: T -> bool, s: seq<T>, i: nat)
    requires i < |s| && keep(s[i]) && forall j :: 0 <= j < i ==> !keep(s[j])
    ensures Filter(keep, s) != [] && Filter(keep, s)[0] == s[i]
  {
    if i > 0 {
      FilterFirst(keep, s[1..], i - 1);
    }
  }

  // ----- what a caller is told -----

  function ErrorShown(what: string, e: string): string { Neutralized("[subagent error: " + (what + e) + "]") }

  /** `told` is a finished child's own summary, or else says why there is none. */
  ghost predicate TellsOf(child: Child, told: string) {
    match child.rejected
    case Some(e) => told == ErrorShown("model resolution failed: ", e)
    case None =>
      match child.run
      case Finished(summary) => told == Neutralized(summary)
      case Failed(e) => told == ErrorShown("sub-agent failed: ", e)
      case Panicked(e) => told == ErrorShown("sub-agent task panicked: ", e)
  }

  /** No child before `i` was rejected, and `i` was, with this error. */
  ghost predicate IsFirstRejected(children: seq<Child>, i: nat, e: string) {
    i < |children| && children[i].rejected == Some(e) && forall j :: 0 <= j < i ==> children[j].rejected.None?
  }

  /** No run before that of child `i` failed, and that one did, with this error. */
  ghost predicate IsFirstFailed(children: seq<Child>, i: nat, e: string) {
    && i < |children| && (forall j :: 0 <= j < i ==> children[j].run.Finished?)
    && match children[i].run
       case Finished(_) => false
       case Failed(error) => e == error
       case Panicked(error) => e == "subagent task panicked: " + error
  }

  /** A caller gets one text per child, in spawn order, or, if it asked for that, the first error:
      a rejection before any failed run. */
  ghost predicate Tells(children: seq<Child>, mode: FailureMode, r: Result<seq<string>, string>) {
    match r
    case Ok(texts) =>
      && |texts| == |children| && (forall i :: 0 <= i < |texts| ==> TellsOf(children[i], texts[i]))
      && (mode == FailFast ==>
            forall i :: 0 <= i < |children| ==> children[i].rejected.None? && children[i].run.Finished?)
    case Err(e) =>
      && mode == FailFast
      && (|| (exists i: nat :: IsFirstRejected(children, i, e))
          || ((forall i :: 0 <= i < |children| ==> children[i].rejected.None?)
              && exists i: nat :: IsFirstFailed(children, i, e)))
  }

  lemma {:induction false} FirstKept<T(!new)>(keep: T -> bool, s: seq<T>) returns (i: nat)
    requires Filter(keep, s) != []
    ensures i < |s| && keep(s[i]) && Filter(keep, s)[0] == s[i] && forall j :: 0 <= j < i ==> !keep(s[j])
  {
    if keep(s[0]) {
      i := 0;
    } else {
      i := FirstKept(keep, s[1..]);
      i := i + 1;
    }
  }

  lemma ResultTells(children: seq<Child>, mode: FailureMode)
    ensures Tells(children, mode, FanOutResult(children, mode))
  {
    var rejected, failing := Filter(IsRejected, children), Filter(RunFails, children);
    forall i | 0 <= i < |children|
      ensures IsRejected(children[i]) ==> children[i] in rejected
      ensures RunFails(children[i]) ==> children[i] in failing
      ensures TellsOf(children[i], NeutralContribution(children[i]))
    {
      ContributionTells(children[i]);
    }
    if mode == FailFast && rejected != [] {
      var i := FirstKept(IsRejected, children);
      assert IsFirstRejected(children, i, rejected[0].rejected.value);
    } else if mode == FailFast && failing != [] {
      var i := FirstKept(RunFails, children);
      assert IsFirstFailed(children, i, RunError(failing[0].run));
    }
  }

  lemma ContributionTells(child: Child)
    ensures TellsOf(child, NeutralContribution(child))
  {
  }

  // ----- the protocol -----

  datatype Phase = Unspawned | Rejected | Queued | Running | Settled | Aborted

  datatype Status = PendingStatus | RunningStatus | CompletedStatus | FailedStatus

  datatype State = State(
    phases: seq<Phase>,
    permits: nat,
    spawning: nat,
    joining: nat,
    out: seq<string>,
    activity: seq<Status>,
    settled: seq<(nat, bool)>,
    result: Option<Result<seq<string>, string>>,
    stopping: bool)

  /** `Spawn` and `Join` are the parent's next steps, `Return` its last; a child acquires a
      permit, finishes, or is stopped after the parent gave up. */
  datatype Action = Spawn | Acquire(i: nat) | Finish(i: nat) | Stop(i: nat) | Join | Return

  datatype Setup = Setup(children: seq<Child>, mode: FailureMode, maxThreads: nat) {
    function Permits(): (p: nat) ensures p >= 1 { Max(maxThreads, 1) }
  }

  function Init(c: Setup): State {
    State(seq(|c.children|, i => Unspawned), c.Permits(), 0, 0, [], [], [], None, false)
  }

  predicate IsSpawned(p: Phase) { p != Unspawned && p != Rejected }
  predicate IsRunning(p: Phase) { p == Running }
  predicate IsActive(p: Phase) { p == Queued || p == Running }

  function Count(what: Phase -> bool, phases: seq<Phase>): nat {
    if phases == [] then 0 else (if what(phases[0]) then 1 else 0) + Count(what, phases[1..])
  }

  predicate Enabled(c: Setup, s: State, a: Action) {
    && |s.phases| == |c.children|
    && match a
       case Spawn => s.result.None? && s.spawning < |c.children|
       case Acquire(i) => i < |s.phases| && s.phases[i] == Queued && s.permits > 0
       case Finish(i) => i < |s.phases| && s.phases[i] == Running
       case Stop(i) => s.stopping && i < |s.phases| && IsActive(s.phases[i])
       case Join => s.result.None? && s.spawning == |c.children| && s.joining < |c.children|
                    && (s.phases[s.joining] == Rejected || s.phases[s.joining] == Settled)
       case Return => s.result.None? && s.spawning == |c.children| && s.joining == |c.children|
  }

  function GiveUp(s: State, error: string): State {
    s.(result := Some(Err(error)), stopping := true)
  }

  function Step(c: Setup, s: State, a: Action): State
    requires Enabled(c, s, a)
  {
    match a
    case Spawn =>
      var child := c.children[s.spawning];
      if child.rejected.Some? && c.mode == FailFast then GiveUp(s, child.rejected.value)
      else
        var phase := if child.rejected.Some? then Rejected else Queued;
        var status := if child.rejected.Some? then FailedStatus
                      else if Count(IsSpawned, s.phases) < c.Permits() then RunningStatus else PendingStatus;
        s.(phases := s.phases[s.spawning := phase], spawning := s.spawning + 1, activity := s.activity + [status])
    case Acquire(i) => s.(phases := s.phases[i := Running], permits := s.permits - 1)
    case Finish(i) => s.(phases := s.phases[i := Settled], permits := s.permits + 1)
    case Stop(i) =>
      s.(phases := s.phases[i := Aborted], permits := if s.phases[i] == Running then s.permits + 1 else s.permits)
    case Join => JoinChild(c, s)
    case Return => s.(result := Some(Ok(Map(Neutralized, s.out))))
  }

  function SetStatus(activity: seq<Status>, idx: nat, status: Status): seq<Status> {
    if idx < |activity| then activity[idx := status] else activity
  }

  /** One turn of the join barrier. */
  function JoinChild(c: Setup, s: State): State
    requires s.joining < |c.children| == |s.phases|
  {
    var i := s.joining;
    var child := c.children[i];
    if s.phases[i] == Rejected then s.(joining := i + 1, out := s.out + [Contribution(child)])
    else
      var ok := child.run.Finished?;
      var s1 := s.(activity := SetStatus(s.activity, i, if ok then CompletedStatus else FailedStatus),
                   settled := s.settled + [(i, ok)]);
      if !ok && c.mode == FailFast then GiveUp(s1, RunError(child.run))
      else s1.(joining := i + 1, out := s1.out + [Contribution(child)])
  }

  // ----- schedules -----

  function RunSchedule(c: Setup, s: State, actions: seq<Action>): State
    requires IsSchedule(c, s, actions)
    decreases |actions|
  {
    if actions == [] then s else RunSchedule(c, Step(c, s, actions[0]), actions[1..])
  }

  predicate IsSchedule(c: Setup, s: State, actions: seq<Action>)
    decreases |actions|
  {
    actions == [] || (Enabled(c, s, actions[0]) && IsSchedule(c, Step(c, s, actions[0]), actions[1..]))
  }

  // ----- the invariant -----

  /** The children settled through the child sink, in spawn order, with their outcome. */
  function SettledBefore(c: Setup, k: nat): seq<(nat, bool)>
    requires k <= |c.children|
  {
    if k == 0 then []
    else SettledBefore(c, k - 1)
         + if c.children[k - 1].rejected.Some? then [] else [(k - 1, c.children[k - 1].run.Finished?)]
  }

  ghost predicate PhasesFit(c: Setup, s: State) {
    && |s.phases| == |c.children|
    && forall i :: 0 <= i < |s.phases| ==>
         && (i >= s.spawning <==> s.phases[i] == Unspawned)
         && (i < s.spawning ==> (s.phases[i] == Rejected <==> c.children[i].rejected.Some?))
         && (s.phases[i] == Aborted ==> s.stopping)
  }

  ghost predicate JoinFits(c: Setup, s: State) {
    && s.joining <= s.spawning <= |c.children| && |s.activity| == s.spawning
    && (s.joining > 0 ==> s.spawning == |c.children|)
    && s.out == Map(Contribution, c.children[..s.joining])
    && Labelled(c.children, s.activity, s.joining)
  }

  /** The labels: final for the first `k` children, and failed for any rejected one. */
  ghost predicate Labelled(children: seq<Child>, activity: seq<Status>, k: nat) {
    && k <= |activity| <= |children|
    && (forall i :: 0 <= i < k ==> activity[i] == if Succeeds(children[i]) then CompletedStatus else FailedStatus)
    && (forall i :: 0 <= i < |activity| && children[i].rejected.Some? ==> activity[i] == FailedStatus)
  }

  /** Under `FailFast` nothing that was passed over had failed. */
  ghost predicate StrictSoFar(c: Setup, s: State) {
    c.mode == FailFast ==>
      && s.spawning <= |c.children| && s.joining <= |c.children|
      && (forall i :: 0 <= i < s.spawning ==> c.children[i].rejected.None?)
      && (forall i :: 0 <= i < s.joining ==> c.children[i].run.Finished?)
  }

  ghost predicate ResultFits(c: Setup, s: State) {
    && (s.stopping ==> s.result.Some?)
    && (s.result.None? ==> s.joining <= |c.children| && s.settled == SettledBefore(c, s.joining))
    && (s.result.Some? ==> s.result.value == FanOutResult(c.children, c.mode))
    && (s.result.Some? && s.result.value.Err? ==> s.stopping)
    && (s.result.Some? && s.result.value.Ok? ==> s.spawning == s.joining == |c.children|)
    && (s.result.Some? && s.result.value.Ok? ==> s.settled == SettledBefore(c, |c.children|))
  }

  /** Permits are conserved: free ones and running children make up the thread limit. */
  ghost predicate PermitsFit(c: Setup, s: State) {
    s.permits + Count(IsRunning, s.phases) == c.Permits()
  }

  ghost predicate Inv(c: Setup, s: State) {
    && PhasesFit(c, s) && JoinFits(c, s) && StrictSoFar(c, s) && ResultFits(c, s) && PermitsFit(c, s)
    && forall i :: 0 <= i < s.joining ==> !IsActive(s.phases[i])
  }

  lemma {:induction false} CountUpdate(what: Phase -> bool, phases: seq<Phase>, i: nat, p: Phase)
    requires i < |phases|
    ensures Count(what, phases[i := p]) + (if what(phases[i]) then 1 else 0)
         == Count(what, phases) + (if what(p) then 1 else 0)
  {
    if i > 0 {
      assert phases[i := p][1..] == phases[1..][i - 1 := p];
      CountUpdate(what, phases[1..], i - 1, p);
    } else {
      assert phases[0 := p][1..] == phases[1..];
    }
  }

  lemma {:induction false} CountNone(what: Phase -> bool, phases: seq<Phase>)
    requires forall i :: 0 <= i < |phases| ==> !what(phases[i])
    ensures Count(what, phases) == 0
  {
    if phases != [] { CountNone(what, phases[1..]); }
  }

  lemma InitInv(c: Setup)
    ensures Inv(c, Init(c))
  {
    CountNone(IsRunning, Init(c).phases);
  }

  lemma ChildStepInv(c: Setup, s: State, a: Action)
    requires Inv(c, s) && Enabled(c, s, a) && (a.Acquire? || a.Finish? || a.Stop?)
    ensures Inv(c, Step(c, s, a))
  {
    CountUpdate(IsRunning, s.phases, a.i, if a.Acquire? then Running else if a.Finish? then Settled else Aborted);
  }

  lemma SpawnInv(c: Setup, s: State)
    requires Inv(c, s) && Enabled(c, s, Spawn)
    ensures Inv(c, Step(c, s, Spawn))
  {
    var i := s.spawning;
    var child := c.children[i];
    if child.rejected.Some? && c.mode == FailFast {
      FilterFirst(IsRejected, c.children, i);
    } else {
      CountUpdate(IsRunning, s.phases, i, if child.rejected.Some? then Rejected else Queued);
    }
  }

  lemma NoneRejected(c: Setup)
    requires forall i :: 0 <= i < |c.children| ==> c.children[i].rejected.None?
    ensures Filter(IsRejected, c.children) == []
  {
    FilterNone(IsRejected, c.children);
  }

  lemma ContributionsSnoc(children: seq<Child>, i: nat)
    requires i < |children|
    ensures Map(Contribution, children[..i + 1]) == Map(Contribution, children[..i]) + [Contribution(children[i])]
  {
    assert children[..i + 1] == children[..i] + [children[i]];
  }

  lemma JoinInv(c: Setup, s: State)
    requires Inv(c, s) && Enabled(c, s, Join)
    ensures Inv(c, Step(c, s, Join))
  {
    var i := s.joining;
    if s.phases[i] == Settled && RunFails(c.children[i]) && c.mode == FailFast {
      NoneRejected(c);
      FilterFirst(RunFails, c.children, i);
    } else {
      JoinAdvances(c, s);
    }
  }

  /** The parent may go on with child `s.joining`: it was rejected, or its run is to be passed on. */
  ghost predicate GoesOn(c: Setup, s: State) {
    && Inv(c, s) && Enabled(c, s, Join)
    && (s.phases[s.joining] == Rejected || !RunFails(c.children[s.joining]) || c.mode == ErrorSummary)
  }

  lemma JoinAdvances(c: Setup, s: State)
    requires GoesOn(c, s)
    ensures Inv(c, JoinChild(c, s))
  {
    JoinedFits(c, s);
    JoinedResult(c, s);
  }

  lemma JoinedFits(c: Setup, s: State)
    requires GoesOn(c, s)
    ensures JoinFits(c, JoinChild(c, s))
  {
    ContributionsSnoc(c.children, s.joining);
  }

  lemma JoinedResult(c: Setup, s: State)
    requires GoesOn(c, s)
    ensures ResultFits(c, JoinChild(c, s)) && StrictSoFar(c, JoinChild(c, s))
  {
  }

  lemma ReturnInv(c: Setup, s: State)
    requires Inv(c, s) && Enabled(c, s, Return)
    ensures Inv(c, Step(c, s, Return))
  {
    assert c.children[..|c.children|] == c.children;
    assert Map(Neutralized, s.out) == Map(NeutralContribution, c.children);
    if c.mode == FailFast {
      NoneRejected(c);
      FilterNone(RunFails, c.children);
    }
  }

  lemma StepInv(c: Setup, s: State, a: Action)
    requires Inv(c, s) && Enabled(c, s, a)
    ensures Inv(c, Step(c, s, a))
  {
    match a
    case Spawn => SpawnInv(c, s);
    case Join => JoinInv(c, s);
    case Return => ReturnInv(c, s);
    case Acquire(_) => ChildStepInv(c, s, a);
    case Finish(_) => ChildStepInv(c, s, a);
    case Stop(_) => ChildStepInv(c, s, a);
  }

  lemma {:induction false} ScheduleInv(c: Setup, s: State, actions: seq<Action>)
    requires Inv(c, s) && IsSchedule(c, s, actions)
    ensures Inv(c, RunSchedule(c, s, actions))
    decreases |actions|
  {
    if actions != [] {
      StepInv(c, s, actions[0]);
      ScheduleInv(c, Step(c, s, actions[0]), actions[1..]);
    }
  }

  /** Whatever the interleaving: a result, once there, is the one the children determine, and tells
      each child's own summary or why there is none, or the first error; at most
      `max(1, max_threads)` children run; and a fan-out that returns summaries, as every relaxed
      one does, has settled each spawned child once, in spawn order, with its true outcome. */
  lemma ScheduleIndependent(c: Setup, actions: seq<Action>)
    requires IsSchedule(c, Init(c), actions)
    ensures var s := RunSchedule(c, Init(c), actions);
            && (s.result.Some? ==> s.result.value == FanOutResult(c.children, c.mode))
            && (s.result.Some? ==> Tells(c.children, c.mode, s.result.value))
            && s.permits + Count(IsRunning, s.phases) == (if c.maxThreads == 0 then 1 else c.maxThreads)
            && (s.result.Some? && c.mode == ErrorSummary ==> s.result.value.Ok?)
            && (s.result.Some? && s.result.value.Ok? ==>
                  && s.settled == SettledBefore(c, |c.children|)
                  && |s.activity| == |c.children| && Labelled(c.children, s.activity, |c.children|))
  {
    InitInv(c);
    ScheduleInv(c, Init(c), actions);
    ResultTells(c.children, c.mode);
  }

  // ----- progress -----

  /** Some step is enabled until the parent has its result and every child has ended. */
  lemma SomeStepEnabled(c: Setup, s: State) returns (a: Action)
    requires Inv(c, s)
    requires s.result.None? || exists i :: 0 <= i < |s.phases| && IsActive(s.phases[i])
    ensures Enabled(c, s, a)
  {
    if i :| 0 <= i < |s.phases| && s.phases[i] == Running {
      a := Finish(i);
    } else {
      CountNone(IsRunning, s.phases);
      if i :| 0 <= i < |s.phases| && s.phases[i] == Queued {
        a := Acquire(i);
      } else if s.spawning < |c.children| {
        a := Spawn;
      } else if s.joining < |c.children| {
        a := Join;
      } else {
        a := Return;
      }
    }
  }

  function Weight(p: Phase): nat {
    match p
    case Unspawned => 3
    case Queued => 2
    case Running => 1
    case _ => 0
  }

  function Weights(phases: seq<Phase>): nat {
    if phases == [] then 0 else Weight(phases[0]) + Weights(phases[1..])
  }

  lemma {:induction false} WeightsUpdate(phases: seq<Phase>, i: nat, p: Phase)
    requires i < |phases|
    ensures Weights(phases[i := p]) + Weight(phases[i]) == Weights(phases) + Weight(p)
  {
    if i > 0 {
      assert phases[i := p][1..] == phases[1..][i - 1 := p];
      WeightsUpdate(phases[1..], i - 1, p);
    } else {
      assert phases[0 := p][1..] == phases[1..];
    }
  }

  /** How many steps can still be taken. */
  function StepsLeft(c: Setup, s: State): nat {
    Weights(s.phases) + SaturatingSub(|c.children|, s.joining) + if s.result.None? then 1 else 0
  }

  lemma StepCounts(c: Setup, s: State, a: Action)
    requires Inv(c, s) && Enabled(c, s, a)
    ensures StepsLeft(c, Step(c, s, a)) < StepsLeft(c, s)
  {
    match a
    case Spawn =>
      WeightsUpdate(s.phases, s.spawning, if c.children[s.spawning].rejected.Some? then Rejected else Queued);
    case Acquire(i) => WeightsUpdate(s.phases, i, Running);
    case Finish(i) => WeightsUpdate(s.phases, i, Settled);
    case Stop(i) => WeightsUpdate(s.phases, i, Aborted);
    case Join =>
    case Return =>
  }

  lemma {:induction false} UnspawnedWeights(n: nat)
    ensures Weights(seq(n, i => Unspawned)) == 3 * n
  {
    var phases := seq(n, i => Unspawned);
    if n > 0 {
      assert phases[1..] == seq(n - 1, i => Unspawned);
      UnspawnedWeights(n - 1);
    }
  }

  lemma {:induction false} ScheduleIsShort(c: Setup, s: State, actions: seq<Action>)
    requires Inv(c, s) && IsSchedule(c, s, actions)
    ensures |actions| <= StepsLeft(c, s)
    decreases |actions|
  {
    if actions != [] {
      StepInv(c, s, actions[0]);
      StepCounts(c, s, actions[0]);
      ScheduleIsShort(c, Step(c, s, actions[0]), actions[1..]);
    }
  }

  /** No schedule runs longer than four steps per child and one, and one that cannot go on has
      the result and no child left running or queued. */
  lemma EveryScheduleEnds(c: Setup, actions: seq<Action>)
    requires IsSchedule(c, Init(c), actions)
    ensures |actions| <= 4 * |c.children| + 1
    ensures var s := RunSchedule(c, Init(c), actions);
            (forall a :: !Enabled(c, s, a)) ==>
              && s.result == Some(FanOutResult(c.children, c.mode))
              && forall i :: 0 <= i < |s.phases| ==> !IsActive(s.phases[i])
  {
    InitInv(c);
    UnspawnedWeights(|c.children|);
    ScheduleIsShort(c, Init(c), actions);
    ScheduleInv(c, Init(c), actions);
    var s := RunSchedule(c, Init(c), actions);
    if s.result.None? || exists i :: 0 <= i < |s.phases| && IsActive(s.phases[i]) {
      var a := SomeStepEnabled(c, s);
    }
  }

  // ----- the loops of `fan_out_inner`, awaiting each child in spawn order -----

  method FanOutInner(children: seq<Child>, mode: FailureMode, maxThreads: nat)
    returns (r: Result<seq<string>, string>, activity: seq<Status>, settled: seq<(nat, bool)>)
    ensures r == FanOutResult(children, mode) && Tells(children, mode, r)
    ensures r.Ok? ==> settled == SettledBefore(Setup(children, mode, maxThreads), |children|)
    ensures r.Ok? ==> |activity| == |children| && Labelled(children, activity, |children|)
  {
    var permits := Max(maxThreads, 1);
    var outcomes: seq<Child> := [];
    var spawned := 0;
    activity, settled := [], [];
    for i := 0 to |children|
      invariant outcomes == children[..i] && |activity| == i && Labelled(children, activity, 0)
      invariant mode == FailFast ==> forall j :: 0 <= j < i ==> children[j].rejected.None?
    {
      var spec := children[i];
      if spec.rejected.Some? {
        if mode == FailFast {
          FilterFirst(IsRejected, children, i);
          ResultTells(children, mode);
          return Err(spec.rejected.value), activity, settled;
        }
        activity := activity + [FailedStatus];
      } else {
        activity := activity + [if spawned < permits then RunningStatus else PendingStatus];
        spawned := spawned + 1;
      }
      outcomes := outcomes + [spec];
    }
    assert children[..|children|] == children;
    r, activity, settled := JoinAll(outcomes, mode, maxThreads, activity);
  }

  /** The join barrier. */
  method JoinAll(outcomes: seq<Child>, mode: FailureMode, maxThreads: nat, start: seq<Status>)
    returns (r: Result<seq<string>, string>, activity: seq<Status>, settled: seq<(nat, bool)>)
    requires |start| == |outcomes| && Labelled(outcomes, start, 0)
    requires mode == FailFast ==> forall j :: 0 <= j < |outcomes| ==> outcomes[j].rejected.None?
    ensures r == FanOutResult(outcomes, mode) && Tells(outcomes, mode, r)
    ensures r.Ok? ==> settled == SettledBefore(Setup(outcomes, mode, maxThreads), |outcomes|)
    ensures r.Ok? ==> |activity| == |outcomes| && Labelled(outcomes, activity, |outcomes|)
  {
    ghost var c := Setup(outcomes, mode, maxThreads);
    activity, settled := start, [];
    var out: seq<string> := [];
    if mode == FailFast { NoneRejected(c); }
    for i := 0 to |outcomes|
      invariant |activity| == |outcomes| && Labelled(outcomes, activity, i)
      invariant out == Map(Contribution, outcomes[..i])
      invariant mode == FailFast ==> forall j :: 0 <= j < i ==> outcomes[j].run.Finished?
      invariant settled == SettledBefore(c, i)
    {
      var child := outcomes[i];
      ContributionsSnoc(outcomes, i);
      if child.rejected.None? {
        var ok := child.run.Finished?;
        activity := SetStatus(activity, i, if ok then CompletedStatus else FailedStatus);
        settled := settled + [(i, ok)];
        if !ok && mode == FailFast {
          FilterFirst(RunFails, outcomes, i);
          ResultTells(outcomes, mode);
          return Err(RunError(child.run)), activity, settled;
        }
      }
      out := out + [Contribution(child)];
    }
    if mode == FailFast { FilterNone(RunFails, outcomes); }
    assert outcomes[..|outcomes|] == outcomes;
    assert Map(Neutralized, out) == Map(NeutralContribution, outcomes);
    r := Ok(Map(Neutralized, out));
    ResultTells(outcomes, mode);
  }
}
