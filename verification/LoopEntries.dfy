/** What each message that a run appends says, whichever way the run ends
    (agent-core/src/core.rs:345-741, 805-826). */
module LoopEntries {
  import opened Wrappers
  import opened Chat
  import opened Pairing
  import opened Approval
  import opened Budget
  import opened AgentLoop
  import opened LoopGuarantees

  // ----- what is said -----

  /** A tool message that answers a call with one block. */
  ghost predicate Answering(m: Message, call: ToolCall, content: seq<Block>, isError: bool) {
    m == Message(Tool, [ToolResult(call.id, Some(call.name), content, Some(isError))])
  }

  /** The call was to be executed: it was decided so, or the human was to be asked and approved. */
  ghost predicate MayExecute(p: Ports, core: Core, it: nat, ord: nat, call: ToolCall) {
    var decision := DecisionFor(p, core, it, ord, call);
    || decision == Auto
    || (decision != Deny && p.gate(it, ord) in {Ok(Decided(Approved)), Ok(Decided(ApprovedForSession))})
  }

  /** A core tool's answer, a provider's, or the provider's error. */
  ghost predicate IsAnswerTo(p: Ports, core: Core, h: Handler, it: nat, ord: nat, call: ToolCall, m: Message) {
    if call.name in CORE_TOOLS then
      Answering(m, call, h(it, ord, call).reply.content, h(it, ord, call).reply.isError)
    else
      && MayExecute(p, core, it, ord, call)
      && match p.tool(it, ord)
         case Ok(reply) => Answering(m, call, reply.content, reply.isError)
         case Err(e) => Answering(m, call, [TextBlock("tool execution failed: " + e)], true)
  }

  /** Why a call was not executed: the policy, the human, or the stop of its whole round. */
  ghost predicate IsRefusal(p: Ports, core: Core, it: nat, ord: nat, call: ToolCall, why: string) {
    || (why == "denied by approval policy"
        && call.name !in CORE_TOOLS && DecisionFor(p, core, it, ord, call) == Deny)
    || (why == "denied by human reviewer"
        && call.name !in CORE_TOOLS && p.gate(it, ord) in {Ok(Decided(Denied)), Ok(Decided(Abort))})
    || (why == "tool not executed: agent stopped (" + "Halted" + ")" && p.cancelledAfterReply(it))
    || (why == "tool not executed: agent stopped (" + "TokenCap" + ")" && !p.cancelledAfterReply(it))
    || (why == "tool not executed: agent stopped (" + "IterationCap" + ")"
        && !p.cancelledAfterReply(it) && it >= core.limits.maxSteps)
  }

  ghost predicate IsRefused(p: Ports, core: Core, it: nat, ord: nat, m: Message) {
    exists call, why :: Answering(m, call, [TextBlock(why)], true) && IsRefusal(p, core, it, ord, call, why)
  }

  /** An appended message says what its origin gave. */
  ghost predicate IsTold(p: Ports, core: Core, req: TurnRequest, h: Handler, e: Entry) {
    match e.origin
    case FromSeed => req.seed == NewMessage(e.message)
    case FromSteering(it, i) =>
      && p.notes(it).Ok? && i < |p.notes(it).value|
      && e.message == Message(User, [TextBlock("[steering] " + p.notes(it).value[i])])
    case FromModel(it) => p.model(it).Replied? && e.message == p.model(it).message
    case FromCall(it, ord) => exists call :: IsAnswerTo(p, core, h, it, ord, call, e.message)
    case FromRefusal(it, ord) => IsRefused(p, core, it, ord, e.message)
  }

  ghost predicate AllTold(p: Ports, core: Core, req: TurnRequest, h: Handler, t: Turn) {
    forall i :: 0 <= i < |t.appended| ==> IsTold(p, core, req, h, t.appended[i])
  }

  lemma OneMoreTold(p: Ports, core: Core, req: TurnRequest, h: Handler, t: Turn, e: Entry, t': Turn)
    requires AllTold(p, core, req, h, t) && IsTold(p, core, req, h, e)
    requires t'.appended == t.appended || t'.appended == t.appended + [e]
    ensures AllTold(p, core, req, h, t')
  {
  }

  // ----- one call -----

  lemma SettleTells(
      p: Ports, core: Core, req: TurnRequest, h: Handler, it: nat, ord: nat, call: ToolCall, reply: ToolReply,
      isCore: bool, r: Round)
    requires AllTold(p, core, req, h, r.turn)
    requires IsAnswerTo(p, core, h, it, ord, call, ToolResultMessage(call, reply))
    ensures AllTold(p, core, req, h,
                    TurnOf(Settle(p, req.run, it, ord, call, reply, isCore, r), (r: Round) => r.turn))
  {
    OneMoreTold(p, core, req, h, r.turn, Entry(FromCall(it, ord), ToolResultMessage(call, reply)),
                TurnOf(Settle(p, req.run, it, ord, call, reply, isCore, r), (r: Round) => r.turn));
  }

  lemma RefusalTells(
      p: Ports, core: Core, req: TurnRequest, h: Handler, it: nat, ord: nat, call: ToolCall, why: string, t: Turn)
    requires AllTold(p, core, req, h, t) && IsRefusal(p, core, it, ord, call, why)
    ensures AllTold(p, core, req, h, TurnOf(Refuse(p, it, ord, call, why, t), (t: Turn) => t))
  {
    var m := ToolResultMessage(call, ErrorReply(why));
    assert Answering(m, call, [TextBlock(why)], true);
    OneMoreTold(p, core, req, h, t, Entry(FromRefusal(it, ord), m),
                TurnOf(Refuse(p, it, ord, call, why, t), (t: Turn) => t));
  }

  lemma ExecutionTells(
      p: Ports, core: Core, req: TurnRequest, h: Handler, it: nat, ord: nat, call: ToolCall, r: Round)
    requires AllTold(p, core, req, h, r.turn) && !IsCoreCall(call) && MayExecute(p, core, it, ord, call)
    ensures AllTold(p, core, req, h, TurnOf(Execute(p, req.run, it, ord, call, r), (r: Round) => r.turn))
  {
    CoreNames(call);
    SettleTells(p, core, req, h, it, ord, call, ReplyOf(p, it, ord), false, r);
  }

  lemma RunCallTells(p: Ports, core: Core, req: TurnRequest, h: Handler, it: nat, ord: nat, call: ToolCall, r: Round)
    requires AllTold(p, core, req, h, r.turn)
    ensures AllTold(p, core, req, h, TurnOf(RunCall(p, core, req.run, h, it, ord, call, r), (r: Round) => r.turn))
  {
    CoreNames(call);
    if IsCoreCall(call) {
      HeadWritesOnly(req.run, r.turn, h(it, ord, call).writes);
      SettleTells(p, core, req, h, it, ord, call, h(it, ord, call).reply, true,
                  r.(turn := WroteAll(req.run, r.turn, h(it, ord, call).writes)));
    } else {
      match DecisionFor(p, core, it, ord, call) {
        case Auto => ExecutionTells(p, core, req, h, it, ord, call, r);
        case Deny => RefusalTells(p, core, req, h, it, ord, call, "denied by approval policy", r.turn);
        case _ => GatedCallTells(p, core, req, h, it, ord, call, r);
      }
    }
  }

  lemma GatedCallTells(
      p: Ports, core: Core, req: TurnRequest, h: Handler, it: nat, ord: nat, call: ToolCall, r: Round)
    requires AllTold(p, core, req, h, r.turn) && !IsCoreCall(call)
    requires DecisionFor(p, core, it, ord, call) != Auto && DecisionFor(p, core, it, ord, call) != Deny
    ensures AllTold(p, core, req, h, TurnOf(RunCall(p, core, req.run, h, it, ord, call, r), (r: Round) => r.turn))
  {
    CoreNames(call);
    if p.gate(it, ord).Ok? {
      var outcome := p.gate(it, ord).value;
      var r1 := r.(turn := r.turn.(asked := r.turn.asked + [Asking(it, ord, outcome)]));
      if IsApproval(outcome) {
        ExecutionTells(p, core, req, h, it, ord, call, r1);
      } else if !outcome.Suspended? {
        RefusalTells(p, core, req, h, it, ord, call, "denied by human reviewer", r1.turn);
      }
    }
  }

  // ----- the round -----

  lemma {:induction false} RunCallsTell(
      p: Ports, core: Core, req: TurnRequest, h: Handler, it: nat, calls: seq<ToolCall>, ord: nat, r: Round)
    requires ord <= |calls| && AllTold(p, core, req, h, r.turn)
    ensures AllTold(p, core, req, h, TurnOf(RunCalls(p, core, req.run, h, it, calls, ord, r), (r: Round) => r.turn))
    decreases |calls| - ord
  {
    if ord < |calls| {
      var res := RunCall(p, core, req.run, h, it, ord, calls[ord], r);
      RunCallTells(p, core, req, h, it, ord, calls[ord], r);
      if res.Again? { RunCallsTell(p, core, req, h, it, calls, ord + 1, res.value); }
    }
  }

  lemma {:induction false} RefuseCallsTell(
      p: Ports, core: Core, req: TurnRequest, h: Handler, it: nat, calls: seq<ToolCall>, ord: nat,
      reason: StopReason, t: Turn)
    requires ord <= |calls| && AllTold(p, core, req, h, t)
    requires forall call, ord: nat ::
               IsRefusal(p, core, it, ord, call, "tool not executed: agent stopped (" + ReasonName(reason) + ")")
    ensures AllTold(p, core, req, h, TurnOf(RefuseCalls(p, it, calls, ord, reason, t), (t: Turn) => t))
    decreases |calls| - ord
  {
    if ord < |calls| {
      var why := "tool not executed: agent stopped (" + ReasonName(reason) + ")";
      RefusalTells(p, core, req, h, it, ord, calls[ord], why, t);
      if p.resultStored(it, ord) {
        RefuseCallsTell(p, core, req, h, it, calls, ord + 1, reason, Refuse(p, it, ord, calls[ord], why, t).value);
      }
    }
  }

  lemma StopIsRefusal(p: Ports, core: Core, it: nat, ord: nat, call: ToolCall, heard: Heard)
    requires RoundStop(p, core, it, heard).Some?
    ensures IsRefusal(p, core, it, ord, call,
                      "tool not executed: agent stopped (" + ReasonName(RoundStop(p, core, it, heard).value) + ")")
  {
  }

  lemma ActTells(p: Ports, core: Core, req: TurnRequest, h: Handler, it: nat, heard: Heard)
    requires AllTold(p, core, req, h, heard.turn)
    ensures AllTold(p, core, req, h, TurnOf(Act(p, core, req.run, h, it, heard), (st: LoopState) => st.turn))
  {
    var calls := Calls(heard.message);
    if calls != [] {
      if RoundStop(p, core, it, heard).Some? {
        var reason := RoundStop(p, core, it, heard).value;
        forall call, ord: nat
          ensures IsRefusal(p, core, it, ord, call, "tool not executed: agent stopped (" + ReasonName(reason) + ")")
        {
          StopIsRefusal(p, core, it, ord, call, heard);
        }
        RefuseCallsTell(p, core, req, h, it, calls, 0, reason, heard.turn);
      } else {
        RunCallsTell(p, core, req, h, it, calls, 0, Round(heard.turn, false, 0, 0));
      }
    }
  }

  // ----- the iteration and the run -----

  lemma {:induction false} NotesTell(
      p: Ports, core: Core, req: TurnRequest, h: Handler, it: nat, i: nat, t: Turn)
    requires p.notes(it).Ok? && i <= |p.notes(it).value| && AllTold(p, core, req, h, t)
    ensures AllTold(p, core, req, h, TurnOf(AppendNotes(p, it, p.notes(it).value, i, t), (t: Turn) => t))
    decreases |p.notes(it).value| - i
  {
    var notes := p.notes(it).value;
    if i < |notes| && p.noteStored(it, i) {
      var m := UserMessage("[steering] " + notes[i]);
      OneMoreTold(p, core, req, h, t, Entry(FromSteering(it, i), m), Say(t, FromSteering(it, i), m));
      NotesTell(p, core, req, h, it, i + 1, Say(t, FromSteering(it, i), m));
    }
  }

  lemma EnterTells(p: Ports, core: Core, req: TurnRequest, h: Handler, st: LoopState)
    requires AllTold(p, core, req, h, st.turn)
    ensures AllTold(p, core, req, h, TurnOf(Enter(p, core, st), (t: Turn) => t))
  {
    if p.notes(st.iteration).Ok? { NotesTell(p, core, req, h, st.iteration, 0, st.turn); }
  }

  lemma PrepareTells(p: Ports, core: Core, req: TurnRequest, h: Handler, it: nat, t: Turn)
    requires AllTold(p, core, req, h, t)
    ensures AllTold(p, core, req, h, TurnOf(Prepare(p, core, req.run, it, t), (t: Turn) => t))
  {
    CompactWritesOnly(p, core, req.run, it, t);
  }

  lemma HearTells(
      p: Ports, core: Core, req: TurnRequest, h: Handler, st: LoopState, history: seq<Message>, t: Turn)
    requires AllTold(p, core, req, h, t)
    ensures AllTold(p, core, req, h, TurnOf(Hear(p, core, req, st, history, t), (h: Heard) => h.turn))
  {
    var t' := TurnOf(Hear(p, core, req, st, history, t), (h: Heard) => h.turn);
    if p.model(st.iteration).Replied? {
      OneMoreTold(p, core, req, h, t, Entry(FromModel(st.iteration), p.model(st.iteration).message), t');
    }
  }

  lemma IterateTells(p: Ports, core: Core, req: TurnRequest, h: Handler, st: LoopState)
    requires AllTold(p, core, req, h, st.turn)
    ensures AllTold(p, core, req, h, TurnOf(Iterate(p, core, req, h, st), (st: LoopState) => st.turn))
  {
    EnterTells(p, core, req, h, st);
    if Enter(p, core, st).Again? {
      var entered := Enter(p, core, st).value;
      PrepareTells(p, core, req, h, st.iteration, entered);
      if Prepare(p, core, req.run, st.iteration, entered).Again? {
        var prepared := Prepare(p, core, req.run, st.iteration, entered).value;
        HearTells(p, core, req, h, st, entered.transcript, prepared);
        if Hear(p, core, req, st, entered.transcript, prepared).Again? {
          ActTells(p, core, req, h, st.iteration, Hear(p, core, req, st, entered.transcript, prepared).value);
        }
      }
    }
  }

  lemma {:induction false} LoopTells(p: Ports, core: Core, req: TurnRequest, h: Handler, st: LoopState)
    requires AllTold(p, core, req, h, st.turn)
    ensures AllTold(p, core, req, h, Loop(p, core, req, h, st).turn)
    decreases SaturatingSub(core.limits.maxSteps, st.iteration)
  {
    IterateTells(p, core, req, h, st);
    var res := Iterate(p, core, req, h, st);
    if res.Again? {
      IterateAdvances(p, core, req, h, st);
      LoopTells(p, core, req, h, res.value);
    }
  }

  /** Everything that a run appends, however it ends, says what its origin gave: the seed, a marked
      note, a reply, the content and error flag of a tool's answer, or an error with the reason
      why a call was not executed. */
  lemma RunTells(p: Ports, core: Core, req: TurnRequest, h: Handler, transcript: seq<Message>, seedStored: bool)
    ensures AllTold(p, core, req, h, RunTurn(p, core, req, h, transcript, seedStored).turn)
  {
    if !(req.seed.NewMessage? && !seedStored) { LoopTells(p, core, req, h, Started(req, transcript)); }
  }

  /** Under the policy that never asks, whatever a provider answered was a trusted call's. */
  lemma NeverModeRefuses(
      p: Ports, core: Core, req: TurnRequest, h: Handler, transcript: seq<Message>, seedStored: bool, e: Entry)
    returns (call: ToolCall)
    requires Follows(p, Never) && e in RunTurn(p, core, req, h, transcript, seedStored).turn.appended
    requires e.origin.FromCall?
    ensures IsAnswerTo(p, core, h, e.origin.iteration, e.origin.ordinal, call, e.message)
    ensures call.name in CORE_TOOLS || p.isTrusted(call.name)
  {
    RunTells(p, core, req, h, transcript, seedStored);
    call :| IsAnswerTo(p, core, h, e.origin.iteration, e.origin.ordinal, call, e.message);
    UntrustedIsNotAuto(p, core, Never, e.origin.iteration, e.origin.ordinal, call);
    DecisionTable(Never, p.isTrusted(call.name), core.reviewer, p.assess(e.origin.iteration, e.origin.ordinal));
    assert p.policy(e.origin.iteration, e.origin.ordinal, p.isTrusted(call.name))
        == DecideSync(Never, p.isTrusted(call.name));
  }
}
