/** Approval and budget over whole runs, clean or broken off. */
module LoopGuarantees {
  import opened Wrappers
  import opened Chat
  import opened Pairing
  import opened Approval
  import opened Budget
  import opened AgentLoop

  // ----- the gate (agent-core/src/core.rs:623-695) -----

  const CORE_TOOLS: set<string> :=
    {"delegate", "task_create", "task_update", "task_get", "task_list", "schedule_next"}

  lemma CoreNames(call: ToolCall)
    ensures IsCoreCall(call) <==> call.name in CORE_TOOLS
  {
  }

  ghost predicate IsApproved(t: Turn, it: nat, ord: nat) {
    exists i :: 0 <= i < |t.asked| && t.asked[i].iteration == it && t.asked[i].ordinal == ord
                && (t.asked[i].outcome == Decided(Approved) || t.asked[i].outcome == Decided(ApprovedForSession))
  }

  /** An untrusted call reached the provider only after the human gate approved it, asked for
      this very call of this very iteration. Only calls of core tools are recorded as such. */
  ghost predicate IsSanctioned(p: Ports, t: Turn, e: Execution) {
    && (e.core <==> e.call.name in CORE_TOOLS)
    && (e.call.name in CORE_TOOLS || p.isTrusted(e.call.name) || IsApproved(t, e.iteration, e.ordinal))
  }

  /** What the gate is recorded to have answered, it answered. */
  ghost predicate AskedTruly(p: Ports, t: Turn) {
    forall i :: 0 <= i < |t.asked| ==> p.gate(t.asked[i].iteration, t.asked[i].ordinal) == Ok(t.asked[i].outcome)
  }

  ghost predicate GateSound(p: Ports, t: Turn) {
    AskedTruly(p, t) && forall i :: 0 <= i < |t.executed| ==> IsSanctioned(p, t, t.executed[i])
  }

  function TurnOf<T>(res: Progress<T>, turnOf: T -> Turn): Turn {
    match res
    case Again(v) => turnOf(v)
    case Done(t) => t
    case Broken(t, _) => t
  }

  /** The port table answers as `TrustedAutoApprovePolicy` does in `mode`. */
  ghost predicate Follows(p: Ports, mode: ApprovalMode) {
    forall it: nat, ord: nat, trusted: bool :: p.policy(it, ord, trusted) == DecideSync(mode, trusted)
  }

  /** Under that policy an untrusted call is never automatic, whatever the reviewer says. */
  lemma UntrustedIsNotAuto(p: Ports, core: Core, mode: ApprovalMode, it: nat, ord: nat, call: ToolCall)
    requires Follows(p, mode)
    ensures DecisionFor(p, core, it, ord, call) == Auto <==> p.isTrusted(call.name)
  {
    var trusted := p.isTrusted(call.name);
    assert p.policy(it, ord, trusted) == DecideSync(mode, trusted);
  }

  lemma AskKeepsSound(p: Ports, t: Turn, a: Asking)
    requires GateSound(p, t) && p.gate(a.iteration, a.ordinal) == Ok(a.outcome)
    ensures GateSound(p, t.(asked := t.asked + [a]))
  {
    var t' := t.(asked := t.asked + [a]);
    forall i | 0 <= i < |t'.executed|
      ensures IsSanctioned(p, t', t'.executed[i])
    {
      var e := t.executed[i];
      assert IsSanctioned(p, t, e);
      if IsApproved(t, e.iteration, e.ordinal) {
        var j :| 0 <= j < |t.asked| && t.asked[j].iteration == e.iteration && t.asked[j].ordinal == e.ordinal
                 && (t.asked[j].outcome == Decided(Approved) || t.asked[j].outcome == Decided(ApprovedForSession));
        assert t'.asked[j] == t.asked[j];
      }
    }
  }

  lemma SettleKeepsSound(
      p: Ports, run: RunId, it: nat, ord: nat, call: ToolCall, reply: ToolReply, isCore: bool, r: Round)
    requires GateSound(p, r.turn) && IsSanctioned(p, r.turn, Execution(it, ord, call, isCore))
    ensures GateSound(p, TurnOf(Settle(p, run, it, ord, call, reply, isCore, r), (r: Round) => r.turn))
  {
    var t' := TurnOf(Settle(p, run, it, ord, call, reply, isCore, r), (r: Round) => r.turn);
    assert t'.asked == r.turn.asked && t'.executed == r.turn.executed + [Execution(it, ord, call, isCore)];
    forall i | 0 <= i < |t'.executed|
      ensures IsSanctioned(p, t', t'.executed[i])
    {
      assert i < |r.turn.executed| ==> IsSanctioned(p, r.turn, r.turn.executed[i]);
    }
  }

  lemma RunCallKeepsSound(
      p: Ports, core: Core, mode: ApprovalMode, run: RunId, h: Handler, it: nat, ord: nat, call: ToolCall, r: Round)
    requires Follows(p, mode) && GateSound(p, r.turn)
    ensures GateSound(p, TurnOf(RunCall(p, core, run, h, it, ord, call, r), (r: Round) => r.turn))
  {
    UntrustedIsNotAuto(p, core, mode, it, ord, call);
    CoreNames(call);
    if IsCoreCall(call) {
      HeadWritesOnly(run, r.turn, h(it, ord, call).writes);
      var r' := r.(turn := WroteAll(run, r.turn, h(it, ord, call).writes));
      GateSoundFrame(p, r.turn, r'.turn);
      SettleKeepsSound(p, run, it, ord, call, h(it, ord, call).reply, true, r');
    } else if DecisionFor(p, core, it, ord, call) == Auto {
      SettleKeepsSound(p, run, it, ord, call, ReplyOf(p, it, ord), false, r);
    } else if DecisionFor(p, core, it, ord, call) != Deny && p.gate(it, ord).Ok? {
      var a := Asking(it, ord, p.gate(it, ord).value);
      AskKeepsSound(p, r.turn, a);
      var t1 := r.turn.(asked := r.turn.asked + [a]);
      if IsApproval(a.outcome) {
        assert t1.asked[|r.turn.asked|] == a;
        SettleKeepsSound(p, run, it, ord, call, ReplyOf(p, it, ord), false, r.(turn := t1));
      } else {
        GateSoundFrame(p, t1, TurnOf(RunCall(p, core, run, h, it, ord, call, r), (r: Round) => r.turn));
      }
    } else {
      GateSoundFrame(p, r.turn, TurnOf(RunCall(p, core, run, h, it, ord, call, r), (r: Round) => r.turn));
    }
  }

  /** Only the executions and the answers of the gate matter. */
  lemma GateSoundFrame(p: Ports, t: Turn, t': Turn)
    requires GateSound(p, t) && t'.executed == t.executed && t'.asked == t.asked
    ensures GateSound(p, t')
  {
    forall i | 0 <= i < |t'.executed|
      ensures IsSanctioned(p, t', t'.executed[i])
    {
      assert IsSanctioned(p, t, t.executed[i]);
    }
  }

  lemma {:induction false} RunCallsKeepsSound(
      p: Ports, core: Core, mode: ApprovalMode, run: RunId, h: Handler, it: nat, calls: seq<ToolCall>, ord: nat,
      r: Round)
    requires ord <= |calls| && Follows(p, mode) && GateSound(p, r.turn)
    ensures GateSound(p, TurnOf(RunCalls(p, core, run, h, it, calls, ord, r), (r: Round) => r.turn))
    decreases |calls| - ord
  {
    if ord < |calls| {
      RunCallKeepsSound(p, core, mode, run, h, it, ord, calls[ord], r);
      var res := RunCall(p, core, run, h, it, ord, calls[ord], r);
      if res.Again? {
        RunCallsKeepsSound(p, core, mode, run, h, it, calls, ord + 1, res.value);
      }
    }
  }

  // ----- what the phases besides the round leave alone -----

  /** The same executions, journal, gate answers and model calls. */
  ghost predicate SameDeeds(t: Turn, t': Turn) {
    && t'.executed == t.executed && t'.journal == t.journal && t'.asked == t.asked
    && t'.usages == t.usages && t'.modelCalls == t.modelCalls
  }

  lemma {:induction false} NotesSameDeeds(p: Ports, it: nat, notes: seq<string>, i: nat, t: Turn)
    requires i <= |notes|
    ensures SameDeeds(t, TurnOf(AppendNotes(p, it, notes, i, t), (t: Turn) => t))
    decreases |notes| - i
  {
    if i < |notes| && p.noteStored(it, i) {
      NotesSameDeeds(p, it, notes, i + 1, Say(t, FromSteering(it, i), UserMessage("[steering] " + notes[i])));
    }
  }

  lemma EnterSameDeeds(p: Ports, core: Core, st: LoopState)
    ensures SameDeeds(st.turn, TurnOf(Enter(p, core, st), (t: Turn) => t))
  {
    if p.notes(st.iteration).Ok? {
      NotesSameDeeds(p, st.iteration, p.notes(st.iteration).value, 0, st.turn);
    }
  }

  lemma PrepareSameDeeds(p: Ports, core: Core, run: RunId, it: nat, t: Turn)
    ensures SameDeeds(t, TurnOf(Prepare(p, core, run, it, t), (t: Turn) => t))
  {
    CompactWritesOnly(p, core, run, it, t);
  }

  lemma {:induction false} RefuseSameDeeds(
      p: Ports, it: nat, calls: seq<ToolCall>, ord: nat, reason: StopReason, t: Turn)
    requires ord <= |calls|
    ensures SameDeeds(t, TurnOf(RefuseCalls(p, it, calls, ord, reason, t), (t: Turn) => t))
    decreases |calls| - ord
  {
    if ord < |calls| && p.resultStored(it, ord) {
      var why := "tool not executed: agent stopped (" + ReasonName(reason) + ")";
      RefuseSameDeeds(p, it, calls, ord + 1, reason, Refuse(p, it, ord, calls[ord], why, t).value);
    }
  }

  /** The same model calls. */
  ghost predicate SameCalls(t: Turn, t': Turn) { t'.usages == t.usages && t'.modelCalls == t.modelCalls }

  lemma RunCallSameCalls(p: Ports, core: Core, run: RunId, h: Handler, it: nat, ord: nat, call: ToolCall, r: Round)
    ensures SameCalls(r.turn, TurnOf(RunCall(p, core, run, h, it, ord, call, r), (r: Round) => r.turn))
  {
    if IsCoreCall(call) {
      HeadWritesOnly(run, r.turn, h(it, ord, call).writes);
    } else if p.gate(it, ord).Ok? {
      GatedSameDeeds(p, core, run, h, it, ord, call, r);
    }
  }

  /** What a gated call comes to: as if it had been decided, once the answer is recorded. */
  lemma GatedSameDeeds(p: Ports, core: Core, run: RunId, h: Handler, it: nat, ord: nat, call: ToolCall, r: Round)
    requires !IsCoreCall(call) && p.gate(it, ord).Ok?
    ensures SameCalls(r.turn, TurnOf(RunCall(p, core, run, h, it, ord, call, r), (r: Round) => r.turn))
    ensures var t' := TurnOf(RunCall(p, core, run, h, it, ord, call, r), (r: Round) => r.turn);
            || t'.journal == r.turn.journal
            || t'.journal == r.turn.journal + [ToolCallRecord(Key(run, it, ord), call, ReplyOf(p, it, ord))]
  {
  }

  /** A round adds no model call. */
  lemma {:induction false} RoundSameCalls(
      p: Ports, core: Core, run: RunId, h: Handler, it: nat, calls: seq<ToolCall>, ord: nat, r: Round)
    requires ord <= |calls|
    ensures SameCalls(r.turn, TurnOf(RunCalls(p, core, run, h, it, calls, ord, r), (r: Round) => r.turn))
    decreases |calls| - ord
  {
    if ord < |calls| {
      var res := RunCall(p, core, run, h, it, ord, calls[ord], r);
      RunCallSameCalls(p, core, run, h, it, ord, calls[ord], r);
      if res.Again? { RoundSameCalls(p, core, run, h, it, calls, ord + 1, res.value); }
    }
  }

  /** At most one model call more, and its usage if it came to a reply. */
  ghost predicate CalledOnce(t: Turn, t': Turn) {
    || (t'.usages == t.usages && t.modelCalls <= t'.modelCalls <= t.modelCalls + 1)
    || (t'.modelCalls == t.modelCalls + 1 && exists n: nat :: t'.usages == t.usages + [n])
  }

  /** Hearing makes at most one model call, and executes nothing. */
  lemma HearDeeds(p: Ports, core: Core, req: TurnRequest, st: LoopState, history: seq<Message>, t: Turn)
    ensures var res := Hear(p, core, req, st, history, t); var t' := TurnOf(res, (h: Heard) => h.turn);
            && t'.executed == t.executed && t'.journal == t.journal && t'.asked == t.asked
            && CalledOnce(t, t')
            && (res.Again? ==>
                  || (t'.usages == t.usages && res.value.tokens == st.tokens && res.value.stepTokens == 0)
                  || (t'.usages == t.usages + [res.value.stepTokens]
                      && res.value.tokens == SaturatingAdd(st.tokens, res.value.stepTokens)))
  {
  }

  // ----- gate soundness of the loop -----

  lemma IterateKeepsSound(p: Ports, core: Core, mode: ApprovalMode, req: TurnRequest, h: Handler, st: LoopState)
    requires Follows(p, mode) && GateSound(p, st.turn)
    ensures GateSound(p, TurnOf(Iterate(p, core, req, h, st), (st: LoopState) => st.turn))
  {
    EnterSameDeeds(p, core, st);
    GateSoundFrame(p, st.turn, TurnOf(Enter(p, core, st), (t: Turn) => t));
    if Enter(p, core, st).Again? {
      var entered := Enter(p, core, st).value;
      PrepareSameDeeds(p, core, req.run, st.iteration, entered);
      GateSoundFrame(p, entered, TurnOf(Prepare(p, core, req.run, st.iteration, entered), (t: Turn) => t));
      if Prepare(p, core, req.run, st.iteration, entered).Again? {
        var prepared := Prepare(p, core, req.run, st.iteration, entered).value;
        HearDeeds(p, core, req, st, entered.transcript, prepared);
        GateSoundFrame(p, prepared, TurnOf(Hear(p, core, req, st, entered.transcript, prepared), (h: Heard) => h.turn));
        if Hear(p, core, req, st, entered.transcript, prepared).Again? {
          ActKeepsSound(p, core, mode, req.run, h, st.iteration,
                        Hear(p, core, req, st, entered.transcript, prepared).value);
        }
      }
    }
  }

  lemma ActKeepsSound(p: Ports, core: Core, mode: ApprovalMode, run: RunId, h: Handler, it: nat, heard: Heard)
    requires Follows(p, mode) && GateSound(p, heard.turn)
    ensures GateSound(p, TurnOf(Act(p, core, run, h, it, heard), (st: LoopState) => st.turn))
  {
    var calls, t' := Calls(heard.message), TurnOf(Act(p, core, run, h, it, heard), (st: LoopState) => st.turn);
    if calls == [] {
      GateSoundFrame(p, heard.turn, t');
    } else if RoundStop(p, core, it, heard).Some? {
      RefuseSameDeeds(p, it, calls, 0, RoundStop(p, core, it, heard).value, heard.turn);
      GateSoundFrame(p, heard.turn, t');
    } else {
      var r := Round(heard.turn, false, 0, 0);
      RunCallsKeepsSound(p, core, mode, run, h, it, calls, 0, r);
      GateSoundFrame(p, TurnOf(RunCalls(p, core, run, h, it, calls, 0, r), (r: Round) => r.turn), t');
    }
  }

  lemma {:induction false} LoopKeepsSound(
      p: Ports, core: Core, mode: ApprovalMode, req: TurnRequest, h: Handler, st: LoopState)
    requires Follows(p, mode) && GateSound(p, st.turn)
    ensures GateSound(p, Loop(p, core, req, h, st).turn)
    decreases SaturatingSub(core.limits.maxSteps, st.iteration)
  {
    IterateKeepsSound(p, core, mode, req, h, st);
    var res := Iterate(p, core, req, h, st);
    if res.Again? {
      IterateAdvances(p, core, req, h, st);
      LoopKeepsSound(p, core, mode, req, h, res.value);
    }
  }

  /** For every mode, reviewer, threshold map, classifier answer and way to end: each call that
      reached the provider was trusted, or approved by the human gate in that iteration. */
  lemma GateSoundness(
      p: Ports, core: Core, mode: ApprovalMode, req: TurnRequest, h: Handler, transcript: seq<Message>,
      seedStored: bool)
    requires Follows(p, mode)
    ensures GateSound(p, RunTurn(p, core, req, h, transcript, seedStored).turn)
  {
    if !(req.seed.NewMessage? && !seedStored) {
      LoopKeepsSound(p, core, mode, req, h, Started(req, transcript));
    }
  }

  // ----- budget and number of calls -----

  /** Every one of these calls kept within the caps: their running total, and each by itself. */
  ghost predicate WithinCaps(l: Limits, usages: seq<nat>) {
    && (usages != [] ==> Tallied(usages) <= l.perRunTokenCap)
    && forall i :: 0 <= i < |usages| ==> usages[i] <= l.perStepTokenCap
  }

  ghost predicate AllButLastWithinCaps(l: Limits, usages: seq<nat>) {
    usages == [] || WithinCaps(l, usages[..|usages| - 1])
  }

  ghost predicate Budgeted(core: Core, req: TurnRequest, st: LoopState) {
    && StartIteration(req) <= st.iteration
    && st.tokens == Tallied(st.turn.usages) && WithinCaps(core.limits, st.turn.usages)
    && |st.turn.usages| <= st.turn.modelCalls <= st.iteration - StartIteration(req)
  }

  /** What is left when the run ends: caps kept by all calls but the last, and no more calls
      than iterations. */
  ghost predicate SpentWithin(core: Core, req: TurnRequest, t: Turn) {
    && AllButLastWithinCaps(core.limits, t.usages)
    && |t.usages| <= t.modelCalls <= SaturatingSub(core.limits.maxSteps + 1, StartIteration(req))
  }

  lemma CapsPrefix(l: Limits, usages: seq<nat>)
    requires WithinCaps(l, usages)
    ensures AllButLastWithinCaps(l, usages)
  {
    if usages != [] {
      var butLast := usages[..|usages| - 1];
      assert Tallied(butLast) <= Tallied(usages) || Tallied(usages) == MAX_U64;
    }
  }

  lemma IterateBudget(p: Ports, core: Core, req: TurnRequest, h: Handler, st: LoopState)
    requires Budgeted(core, req, st) && (st.iteration <= core.limits.maxSteps || st.turn.modelCalls == 0)
    ensures var res := Iterate(p, core, req, h, st);
            && (res.Again? ==> Budgeted(core, req, res.value))
            && (!res.Again? ==> SpentWithin(core, req, res.turn))
  {
    CapsPrefix(core.limits, st.turn.usages);
    EnterSameDeeds(p, core, st);
    if Enter(p, core, st).Again? {
      var entered := Enter(p, core, st).value;
      PrepareSameDeeds(p, core, req.run, st.iteration, entered);
      if Prepare(p, core, req.run, st.iteration, entered).Again? {
        var prepared := Prepare(p, core, req.run, st.iteration, entered).value;
        HearBudget(p, core, req, st, entered.transcript, prepared);
        if Hear(p, core, req, st, entered.transcript, prepared).Again? {
          ActBudget(p, core, req, h, st, Hear(p, core, req, st, entered.transcript, prepared).value);
        }
      }
    }
  }

  /** After hearing, the calls but the last are within the caps; the last is not judged yet. */
  ghost predicate HeardWithin(core: Core, req: TurnRequest, st: LoopState, heard: Heard) {
    && heard.tokens == Tallied(heard.turn.usages)
    && (heard.turn.usages == st.turn.usages || heard.turn.usages == st.turn.usages + [heard.stepTokens])
    && |heard.turn.usages| <= heard.turn.modelCalls <= st.turn.modelCalls + 1
  }

  lemma TalliedSnoc(usages: seq<nat>, n: nat)
    ensures Tallied(usages + [n]) == SaturatingAdd(Tallied(usages), n)
  {
    assert (usages + [n])[..|usages|] == usages;
  }

  lemma OneMoreCall(core: Core, req: TurnRequest, st: LoopState, t: Turn)
    requires Budgeted(core, req, st) && CalledOnce(st.turn, t) && st.iteration <= core.limits.maxSteps
    ensures SpentWithin(core, req, t) && |t.usages| <= t.modelCalls <= st.turn.modelCalls + 1
  {
    CapsPrefix(core.limits, st.turn.usages);
    if t.usages != st.turn.usages {
      assert t.usages[..|st.turn.usages|] == st.turn.usages;
    }
  }

  lemma HearBudget(p: Ports, core: Core, req: TurnRequest, st: LoopState, history: seq<Message>, t: Turn)
    requires Budgeted(core, req, st) && SameDeeds(st.turn, t) && st.iteration <= core.limits.maxSteps
    ensures var res := Hear(p, core, req, st, history, t);
            && (res.Again? ==> HeardWithin(core, req, st, res.value))
            && (!res.Again? ==> SpentWithin(core, req, res.turn))
  {
    HearDeeds(p, core, req, st, history, t);
    OneMoreCall(core, req, st, TurnOf(Hear(p, core, req, st, history, t), (h: Heard) => h.turn));
    HeardTally(st, t, Hear(p, core, req, st, history, t));
  }

  /** The total that goes on is that of all usages so far. */
  lemma HeardTally(st: LoopState, t: Turn, res: Progress<Heard>)
    requires res.Again? ==>
               || (res.value.turn.usages == t.usages && res.value.tokens == st.tokens)
               || (res.value.turn.usages == t.usages + [res.value.stepTokens]
                   && res.value.tokens == SaturatingAdd(st.tokens, res.value.stepTokens))
    requires st.tokens == Tallied(t.usages)
    ensures res.Again? ==> res.value.tokens == Tallied(res.value.turn.usages)
  {
    if res.Again? { TalliedSnoc(t.usages, res.value.stepTokens); }
  }

  lemma ActBudget(p: Ports, core: Core, req: TurnRequest, h: Handler, st: LoopState, heard: Heard)
    requires Budgeted(core, req, st) && HeardWithin(core, req, st, heard) && st.iteration <= core.limits.maxSteps
    ensures var res := Act(p, core, req.run, h, st.iteration, heard);
            && (res.Again? ==> Budgeted(core, req, res.value))
            && (!res.Again? ==> SpentWithin(core, req, res.turn))
  {
    var calls, us := Calls(heard.message), st.turn.usages;
    CapsPrefix(core.limits, us);
    assert heard.turn.usages != us ==> heard.turn.usages[..|us|] == us;
    assert SpentWithin(core, req, heard.turn);
    if calls != [] {
      if RoundStop(p, core, st.iteration, heard).Some? {
        RefuseSameDeeds(p, st.iteration, calls, 0, RoundStop(p, core, st.iteration, heard).value, heard.turn);
      } else {
        RoundSameCalls(p, core, req.run, h, st.iteration, calls, 0, Round(heard.turn, false, 0, 0));
        assert WithinCaps(core.limits, heard.turn.usages);
      }
    }
  }

  lemma {:induction false} LoopBudget(p: Ports, core: Core, req: TurnRequest, h: Handler, st: LoopState)
    requires Budgeted(core, req, st) && (st.iteration <= core.limits.maxSteps || st.turn.modelCalls == 0)
    ensures SpentWithin(core, req, Loop(p, core, req, h, st).turn)
    decreases SaturatingSub(core.limits.maxSteps, st.iteration)
  {
    IterateBudget(p, core, req, h, st);
    var res := Iterate(p, core, req, h, st);
    if res.Again? {
      IterateAdvances(p, core, req, h, st);
      LoopBudget(p, core, req, h, res.value);
    }
  }

  /** Every run, clean or broken: the model calls but the last keep within both caps, the run
      cap on their true sum unless it is the top of the range; and there are at most as many
      calls as iterations from the start to the step limit. */
  lemma BudgetAgreement(p: Ports, core: Core, req: TurnRequest, h: Handler, transcript: seq<Message>, seedStored: bool)
    ensures var t := RunTurn(p, core, req, h, transcript, seedStored).turn;
            && SpentWithin(core, req, t) && t.modelCalls <= core.limits.maxSteps
            && (t.usages != [] && core.limits.perRunTokenCap < MAX_U64 ==>
                  Sum(t.usages[..|t.usages| - 1]) <= core.limits.perRunTokenCap)
  {
    if !(req.seed.NewMessage? && !seedStored) {
      LoopBudget(p, core, req, h, Started(req, transcript));
    }
    var t := RunTurn(p, core, req, h, transcript, seedStored).turn;
    if t.usages != [] { TallyIsSum(t.usages[..|t.usages| - 1]); }
  }

  /** Limits as `Budget::new` makes them keep any run within the safety limit, whatever the host
      asked for (agent-core/src/budget.rs:11, 23-30). */
  lemma SafetyLimit(
      p: Ports, core: Core, req: TurnRequest, h: Handler, transcript: seq<Message>, seedStored: bool,
      maxSteps: nat, runCap: nat, stepCap: nat)
    requires core.limits == NewLimits(maxSteps, runCap, stepCap)
    ensures RunTurn(p, core, req, h, transcript, seedStored).turn.modelCalls <= Min(maxSteps, SAFETY_MAX_ITERATIONS)
  {
    BudgetAgreement(p, core, req, h, transcript, seedStored);
  }

  // ----- what the journal says was answered -----

  /** Every journalled call has an answer that `good` allows. */
  ghost predicate AnsweredWell(good: (ToolCall, ToolReply) -> bool, t: Turn) {
    forall i :: 0 <= i < |t.journal| ==> good(t.journal[i].call, t.journal[i].reply)
  }

  /** The handler's answers to core calls, and any answer to another call, are good. */
  ghost predicate AnswersWell(good: (ToolCall, ToolReply) -> bool, h: Handler) {
    && (forall it, ord, call :: IsCoreCall(call) ==> good(call, h(it, ord, call).reply))
    && (forall call, reply :: !IsCoreCall(call) ==> good(call, reply))
  }

  lemma RunCallAnswersWell(
      good: (ToolCall, ToolReply) -> bool, p: Ports, core: Core, run: RunId, h: Handler,
      it: nat, ord: nat, call: ToolCall, r: Round)
    requires AnswersWell(good, h) && AnsweredWell(good, r.turn)
    ensures AnsweredWell(good, TurnOf(RunCall(p, core, run, h, it, ord, call, r), (r: Round) => r.turn))
  {
    if IsCoreCall(call) {
      HeadWritesOnly(run, r.turn, h(it, ord, call).writes);
    } else if p.gate(it, ord).Ok? {
      GatedSameDeeds(p, core, run, h, it, ord, call, r);
      assert good(call, ReplyOf(p, it, ord));
    }
  }

  lemma {:induction false} RunCallsAnswerWell(
      good: (ToolCall, ToolReply) -> bool, p: Ports, core: Core, run: RunId, h: Handler,
      it: nat, calls: seq<ToolCall>, ord: nat, r: Round)
    requires ord <= |calls| && AnswersWell(good, h) && AnsweredWell(good, r.turn)
    ensures AnsweredWell(good, TurnOf(RunCalls(p, core, run, h, it, calls, ord, r), (r: Round) => r.turn))
    decreases |calls| - ord
  {
    if ord < |calls| {
      RunCallAnswersWell(good, p, core, run, h, it, ord, calls[ord], r);
      var res := RunCall(p, core, run, h, it, ord, calls[ord], r);
      if res.Again? { RunCallsAnswerWell(good, p, core, run, h, it, calls, ord + 1, res.value); }
    }
  }

  lemma ActAnswersWell(
      good: (ToolCall, ToolReply) -> bool, p: Ports, core: Core, run: RunId, h: Handler, it: nat, heard: Heard)
    requires AnswersWell(good, h) && AnsweredWell(good, heard.turn)
    ensures AnsweredWell(good, TurnOf(Act(p, core, run, h, it, heard), (st: LoopState) => st.turn))
  {
    var calls := Calls(heard.message);
    if calls != [] {
      if RoundStop(p, core, it, heard).Some? {
        RefuseSameDeeds(p, it, calls, 0, RoundStop(p, core, it, heard).value, heard.turn);
      } else {
        RunCallsAnswerWell(good, p, core, run, h, it, calls, 0, Round(heard.turn, false, 0, 0));
      }
    }
  }

  lemma IterateAnswersWell(
      good: (ToolCall, ToolReply) -> bool, p: Ports, core: Core, req: TurnRequest, h: Handler, st: LoopState)
    requires AnswersWell(good, h) && AnsweredWell(good, st.turn)
    ensures AnsweredWell(good, TurnOf(Iterate(p, core, req, h, st), (st: LoopState) => st.turn))
  {
    EnterSameDeeds(p, core, st);
    if Enter(p, core, st).Again? {
      var entered := Enter(p, core, st).value;
      PrepareSameDeeds(p, core, req.run, st.iteration, entered);
      if Prepare(p, core, req.run, st.iteration, entered).Again? {
        var prepared := Prepare(p, core, req.run, st.iteration, entered).value;
        HearDeeds(p, core, req, st, entered.transcript, prepared);
        if Hear(p, core, req, st, entered.transcript, prepared).Again? {
          ActAnswersWell(good, p, core, req.run, h, st.iteration,
                         Hear(p, core, req, st, entered.transcript, prepared).value);
        }
      }
    }
  }

  lemma {:induction false} LoopAnswersWell(
      good: (ToolCall, ToolReply) -> bool, p: Ports, core: Core, req: TurnRequest, h: Handler, st: LoopState)
    requires AnswersWell(good, h) && AnsweredWell(good, st.turn)
    ensures AnsweredWell(good, Loop(p, core, req, h, st).turn)
    decreases SaturatingSub(core.limits.maxSteps, st.iteration)
  {
    IterateAnswersWell(good, p, core, req, h, st);
    var res := Iterate(p, core, req, h, st);
    if res.Again? {
      IterateAdvances(p, core, req, h, st);
      LoopAnswersWell(good, p, core, req, h, res.value);
    }
  }

  /** What holds of every answer of the handler, and of no particular answer of a provider, holds
      of everything a run journals, however it ends. */
  lemma RunAnswersWell(
      good: (ToolCall, ToolReply) -> bool, p: Ports, core: Core, req: TurnRequest, h: Handler,
      transcript: seq<Message>, seedStored: bool)
    requires AnswersWell(good, h)
    ensures AnsweredWell(good, RunTurn(p, core, req, h, transcript, seedStored).turn)
  {
    if !(req.seed.NewMessage? && !seedStored) {
      LoopAnswersWell(good, p, core, req, h, Started(req, transcript));
    }
  }
}
