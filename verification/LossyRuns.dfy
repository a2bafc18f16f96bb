/** Runs in which nothing fails and something is lost: a delegating run whose question gives way to
    its child's summary, and a half-approved round that no resume takes up. */
module LossyRuns {
  import opened Wrappers
  import opened Chat
  import opened Compaction
  import opened CompactionRuns
  import opened CompactionLimits
  import opened Pairing
  import opened Approval
  import opened Budget
  import opened AgentLoop
  import opened LoopPairing
  import opened Delegation
  import opened InheritedCompaction

  // ----- a world in which nothing fails -----

  function CallMessage(name: string): Message { Message(Assistant, [ToolUse("1", name, "")]) }

  function CallTo(name: string): ToolCall { ToolCall("1", name, "") }

  /** Every port does as it is asked; the model calls the same tool in every iteration, and the
      extensions before compaction pass the history on as it is. */
  function Obliging(name: string): Ports {
    Ports(
      it => false, it => false, it => Ok([]), (it, i) => true,
      it => Ok(Continue), (it, history) => history, it => Answer(""), it => true, it => Ok(Continue),
      it => Replied(CallMessage(name), 0), it => true, it => Ok(Continue),
      tool => true, (it, ord, trusted) => Auto, (it, ord) => Err("unused"), (it, ord) => Err("unused"),
      (it, ord) => Ok(ToolReply([], false, false)), (it, ord) => true, (it, ord) => true)
  }

  /** The extension is made for the root and compacts whatever it can; two iterations are allowed. */
  const EAGER_CORE := Core(Some(Extension(EAGER_ONE, Root(0))), None, Limits(2, 0, 0), true)

  /** The root delegates, and its one child calls some tool. */
  const LOSSY_WORLD := World(
    (id: RunId) => Obliging(if id.Root? then "delegate" else "x"), id => true, (id, it) => true, (id, it) => [],
    input => Ok([ChildInput("", None, None)]), id => None, id => None,
    (id, it, ord, call) => ToolReply([], false, false), (id, it, ord, lists) => Flatten(lists),
    EAGER_CORE, false, 1)

  // ----- the first iteration of either run -----

  lemma OneCall(name: string)
    ensures Calls(CallMessage(name)) == [CallTo(name)] && NotSystem(CallMessage(name))
    ensures !HasToolResult(CallMessage(name))
  {
    assert BlockCalls(CallMessage(name).content[1..]) == [];
  }

  /** A single message is never compacted. */
  lemma OneMessageStays(name: string, run: RunId, it: nat, t: Turn)
    requires |t.transcript| == 1
    ensures Compact(Obliging(name), EAGER_CORE, run, it, t) == Again(t)
  {
    var p := Obliging(name);
    CompactForms(p, EAGER_CORE, run, it, t);
    NothingToCut(t.transcript);
    QuietPass(EAGER_ONE, t.transcript, None, Answer(""));
  }

  lemma NothingToCut(msgs: seq<Message>)
    requires |msgs| == 1
    ensures FiresAt(EAGER_ONE, msgs, None).None?
  {
  }

  /** The first iteration hears the tool call and acts on it. */
  lemma FirstIteration(name: string, req: TurnRequest, h: Handler, t: Turn)
    requires req.seed.NewMessage? && |t.transcript| == 1
    ensures var p, st := Obliging(name), LoopState(1, 0, t);
            && Enter(p, EAGER_CORE, st) == Again(t)
            && Iterate(p, EAGER_CORE, req, h, st)
               == Act(p, EAGER_CORE, req.run, h, 1,
                      Heard(CallMessage(name), 0, 0, AfterReply(t, 1, CallMessage(name), 0)))
  {
    OneMessageStays(name, req.run, 1, t);
  }

  /** A settled call adds its result to what was said. */
  lemma Settles(name: string, run: RunId, call: ToolCall, reply: ToolReply, isCore: bool, r: Round)
    requires !reply.terminal
    ensures var res := Settle(Obliging(name), run, 1, 0, call, reply, isCore, r);
            && res.Again? && res.value.turn.transcript == r.turn.transcript + [ToolResultMessage(call, reply)]
            && res.value.suspended == r.suspended && res.value.executed == r.executed + 1
            && res.value.terminals == r.terminals
  {
  }

  /** A round of one call that goes on. */
  lemma ActsOnOne(name: string, run: RunId, h: Handler, t: Turn, r: Round)
    requires RunCall(Obliging(name), EAGER_CORE, run, h, 1, 0, CallTo(name), Round(t, false, 0, 0)) == Again(r)
    requires !r.suspended && r.terminals < r.executed
    ensures Act(Obliging(name), EAGER_CORE, run, h, 1, Heard(CallMessage(name), 0, 0, t))
         == Again(LoopState(2, 0, r.turn))
  {
    OneCall(name);
    assert RunCalls(Obliging(name), EAGER_CORE, run, h, 1, [CallTo(name)], 1, r) == Again(r);
  }

  function Hearing(name: string, t: Turn): Turn { AfterReply(t, 1, CallMessage(name), 0) }

  lemma HeardAfter(m: Message, name: string, t: Turn)
    requires t.transcript == [m]
    ensures Hearing(name, t).transcript == [m, CallMessage(name)]
  {
    assert [m] + [CallMessage(name)] == [m, CallMessage(name)];
  }

  lemma FirstRound(name: string, req: TurnRequest, h: Handler, t: Turn, r: Round)
    requires req.seed.NewMessage? && |t.transcript| == 1
    requires RunCall(Obliging(name), EAGER_CORE, req.run, h, 1, 0, CallTo(name),
                     Round(Hearing(name, t), false, 0, 0)) == Again(r)
    requires !r.suspended && r.terminals < r.executed
    ensures Iterate(Obliging(name), EAGER_CORE, req, h, LoopState(1, 0, t)) == Again(LoopState(2, 0, r.turn))
  {
    FirstIteration(name, req, h, t);
    ActsOnOne(name, req.run, h, Hearing(name, t), r);
  }

  // ----- the child -----

  const CHILD := RunId.Child(Root(0), 1, 0, 0)
  const SPEC := ChildSpec(None, "", [], false)

  lemma ChildActs(h: Handler, t: Turn) returns (r: Round)
    ensures RunCall(Obliging("x"), EAGER_CORE, CHILD, h, 1, 0, CallTo("x"), Round(t, false, 0, 0)) == Again(r)
    ensures !r.suspended && r.terminals < r.executed
    ensures |r.turn.transcript| == |t.transcript| + 1 && t.transcript <= r.turn.transcript
    ensures var m := r.turn.transcript[|t.transcript|]; NotSystem(m) && HasToolResult(m)
  {
    var call, reply := CallTo("x"), ToolReply([], false, false);
    Settles("x", CHILD, call, reply, false, Round(t, false, 0, 0));
    r := Settle(Obliging("x"), CHILD, 1, 0, call, reply, false, Round(t, false, 0, 0)).value;
    ResultAnswers(call, reply);
    AnswerIsResult(ToolResultMessage(call, reply), call);
  }

  /** After the child's first iteration: its task, its call and the result. */
  lemma ChildHead(req: TurnRequest, h: Handler, t: Turn) returns (st: LoopState)
    requires req.run == CHILD && req.seed.NewMessage? && |t.transcript| == 1 && NotSystem(t.transcript[0])
    ensures Iterate(Obliging("x"), EAGER_CORE, req, h, LoopState(1, 0, t)) == Again(st)
    ensures st.iteration == 2 && st.tokens == 0 && |st.turn.transcript| == 3
    ensures forall i :: 0 <= i < 3 ==> NotSystem(st.turn.transcript[i])
    ensures !HasToolResult(st.turn.transcript[1]) && HasToolResult(st.turn.transcript[2])
  {
    var r := ChildActs(h, Hearing("x", t));
    FirstRound("x", req, h, t, r);
    HeardAfter(t.transcript[0], "x", t);
    OneCall("x");
    st := LoopState(2, 0, r.turn);
  }

  /** The eager compactor summarizes the first of these messages. */
  lemma EagerSummary(msgs: seq<Message>)
    requires |msgs| == 3 && forall i :: 0 <= i < 3 ==> NotSystem(msgs[i])
    requires !HasToolResult(msgs[1]) && HasToolResult(msgs[2])
    ensures CallOf(EAGER_ONE, msgs, None, Answer("")).Some?
  {
    FilterAll(NotSystem, msgs);
    assert PulledBack(msgs, 2) == 1;
    EagerFires(msgs, 1);
  }

  lemma SecondIteration(st: LoopState)
    requires st.iteration == 2 && st.tokens == 0 && CallOf(EAGER_ONE, st.turn.transcript, None, Answer("")).Some?
    ensures IterationWrite(Obliging("x"), EAGER_CORE, CHILD, st) != []
  {
    assert Enter(Obliging("x"), EAGER_CORE, st) == Again(st.turn);
  }

  /** In its second iteration the child writes a summary over the head of its parent. */
  lemma ChildWrites()
    ensures ChildSummaries(LOSSY_WORLD, CHILD, SPEC) != []
  {
    var req, h := ChildRequest(CHILD), HandlerOf(LOSSY_WORLD, CHILD, false);
    var st := ChildHead(req, h, Started(req, []).turn);
    EagerSummary(st.turn.transcript);
    SecondIteration(st);
    WritesStep(Obliging("x"), EAGER_CORE, req, h, Started(req, []));
    WritesStep(Obliging("x"), EAGER_CORE, req, h, st);
  }

  // ----- the parent -----

  const DELEGATION := CallTo("delegate")
  const QUESTION := UserMessage("What is the answer?")

  lemma OneChild()
    ensures Interleaves(LOSSY_WORLD) && IsDelegateCall(DELEGATION)
    ensures SpecsOf(LOSSY_WORLD, Root(0), 1, DELEGATION, true).0 == [SPEC]
  {
  }

  /** What a core tool comes to when it takes the head of the run that called it. */
  ghost predicate Takes(id: RunId, handled: Handled) {
    && !handled.reply.terminal
    && LeavesTail(id, handled.writes) && IsPriorSummary(handled.writes[|handled.writes| - 1].summary)
  }

  /** A delegate call with a child that summarizes does not leave the parent alone. */
  lemma SpawnTakes(w: World, id: RunId, it: nat, ord: nat, call: ToolCall, specs: seq<ChildSpec>)
    requires Interleaves(w) && IsDelegateCall(call)
    requires !w.isolateChildren && w.core.compaction.Some? && w.core.compaction.value.run == id
    requires SpecsOf(w, id, it, call, true).0 == specs != [] && !NoneSummarises(w, id, it, ord, specs)
    ensures Takes(id, HandleCoreTool(w, id, it, ord, call, true))
  {
    var writes := HandleCoreTool(w, id, it, ord, call, true).writes;
    ParentUntouched(w, id, it, ord, call, true);
    var told, parts, text := DelegateReply(w, id, it, ord, call, true);
    assert writes[|writes| - 1] in writes;
  }

  lemma ChildSummarises()
    ensures !NoneSummarises(LOSSY_WORLD, Root(0), 1, 0, [SPEC])
  {
    ChildWrites();
    assert [SPEC][0] == SPEC;
  }

  lemma DelegationTakes()
    ensures Takes(Root(0), HandlerOf(LOSSY_WORLD, Root(0), true)(1, 0, DELEGATION))
  {
    OneChild();
    ChildSummarises();
    SpawnTakes(LOSSY_WORLD, Root(0), 1, 0, DELEGATION, [SPEC]);
  }

  lemma ObligingIsWellBehaved(name: string)
    ensures WellBehaved(Obliging(name))
  {
    OneCall(name);
  }

  /** The root's first iteration, with the children's writes before the result. */
  lemma RootActs(h: Handler, t: Turn) returns (r: Round)
    requires t.transcript == [QUESTION, CallMessage("delegate")] && Takes(Root(0), h(1, 0, DELEGATION))
    ensures RunCall(Obliging("delegate"), EAGER_CORE, Root(0), h, 1, 0, DELEGATION, Round(t, false, 0, 0)) == Again(r)
    ensures !r.suspended && r.terminals < r.executed && r.turn.transcript != []
    ensures IsPriorSummary(r.turn.transcript[0]) && QUESTION !in r.turn.transcript
  {
    var handled := h(1, 0, DELEGATION);
    var t' := WroteAll(Root(0), t, handled.writes);
    Settles("delegate", Root(0), DELEGATION, handled.reply, true, Round(t', false, 0, 0));
    r := Settle(Obliging("delegate"), Root(0), 1, 0, DELEGATION, handled.reply, true, Round(t', false, 0, 0)).value;
    QuestionGone(t.transcript, Lost(handled.writes), handled.writes[|handled.writes| - 1].summary,
                 ToolResultMessage(DELEGATION, handled.reply));
  }

  /** Of a question and a call at most the call is left. */
  lemma QuestionGone(t: seq<Message>, lost: nat, summary: Message, answer: Message)
    requires t == [QUESTION, CallMessage("delegate")]
    requires lost > 0 && IsPriorSummary(summary) && answer.role == Tool
    ensures QUESTION !in [summary] + t[Min(lost, |t|)..] + [answer]
  {
  }

  lemma RootHead(req: TurnRequest, h: Handler) returns (st: LoopState)
    requires req == TurnRequest(Root(0), NewMessage(QUESTION), 1) && Takes(Root(0), h(1, 0, DELEGATION))
    ensures Iterate(Obliging("delegate"), EAGER_CORE, req, h, Started(req, [])) == Again(st)
    ensures st.turn.transcript != [] && IsPriorSummary(st.turn.transcript[0]) && QUESTION !in st.turn.transcript
  {
    var t := Started(req, []).turn;
    HeardAfter(QUESTION, "delegate", t);
    var r := RootActs(h, Hearing("delegate", t));
    FirstRound("delegate", req, h, t, r);
    st := LoopState(2, 0, r.turn);
  }

  /** A run that meets a question with one delegate call goes on without the question: a child
      completes a summary, and the run's transcript then starts with one in the question's place. */
  lemma ParentLosesQuestion() returns (w: World, req: TurnRequest, call: ToolCall, st: LoopState)
    ensures req.seed == NewMessage(QUESTION) && w.core.compaction.Some? && w.core.compaction.value.run == req.run
    ensures WellBehaved(w.ports(req.run)) && Interleaves(w) && IsDelegateCall(call)
    ensures !NoneSummarises(w, req.run, 1, 0, SpecsOf(w, req.run, 1, call, true).0)
    ensures Iterate(w.ports(req.run), CoreOf(w, req.run), req, HandlerOf(w, req.run, true), Started(req, []))
         == Again(st)
    ensures st.turn.transcript != [] && IsPriorSummary(st.turn.transcript[0]) && QUESTION !in st.turn.transcript
  {
    w, req, call := LOSSY_WORLD, TurnRequest(Root(0), NewMessage(QUESTION), 1), DELEGATION;
    OneChild();
    ChildSummarises();
    ObligingIsWellBehaved("delegate");
    DelegationTakes();
    st := RootHead(req, HandlerOf(w, Root(0), true));
  }

  // ----- a round of which half is approved -----

  const FIRST := ToolCall("1", "x", "")
  const SECOND := ToolCall("2", "y", "")
  const BOTH := Message(Assistant, [ToolUse("1", "x", ""), ToolUse("2", "y", "")])
  const DONE := ToolReply([], false, false)

  /** The first call is automatic, the second one waits for a human. */
  const HALF_APPROVED := Obliging("x").(
    model := it => Replied(BOTH, 0),
    policy := (it, ord, trusted) => if ord == 0 then Auto else Prompt,
    gate := (it, ord) => Ok(Suspended(7)))

  const RESUMING_CORE := Core(None, None, Limits(2, 0, 0), true)

  lemma BothCalls()
    ensures Calls(BOTH) == [FIRST, SECOND]
  {
    assert BOTH.content[1..] == [ToolUse("2", "y", "")] && BOTH.content[1..][1..] == [];
  }

  lemma FirstSettles(run: RunId, h: Handler, t: Turn) returns (r: Round)
    ensures RunCall(HALF_APPROVED, RESUMING_CORE, run, h, 1, 0, FIRST, Round(t, false, 0, 0)) == Again(r)
    ensures r.turn.transcript == t.transcript + [ToolResultMessage(FIRST, DONE)] && r.turn.asked == t.asked
  {
    r := RunCall(HALF_APPROVED, RESUMING_CORE, run, h, 1, 0, FIRST, Round(t, false, 0, 0)).value;
  }

  lemma SecondParks(run: RunId, h: Handler, r: Round) returns (r': Round)
    ensures RunCall(HALF_APPROVED, RESUMING_CORE, run, h, 1, 1, SECOND, r) == Again(r')
    ensures r'.turn.transcript == r.turn.transcript && r'.turn.asked == r.turn.asked + [Asking(1, 1, Suspended(7))]
    ensures r'.suspended
  {
    r' := RunCall(HALF_APPROVED, RESUMING_CORE, run, h, 1, 1, SECOND, r).value;
  }

  lemma HalfActs(run: RunId, h: Handler, t: Turn) returns (t': Turn)
    ensures Act(HALF_APPROVED, RESUMING_CORE, run, h, 1, Heard(BOTH, 0, 0, t)) == Done(t')
    ensures t'.transcript == t.transcript + [ToolResultMessage(FIRST, DONE)]
    ensures t'.asked == t.asked + [Asking(1, 1, Suspended(7))]
  {
    BothCalls();
    var p, core, calls := HALF_APPROVED, RESUMING_CORE, [FIRST, SECOND];
    var r1 := FirstSettles(run, h, t);
    var r2 := SecondParks(run, h, r1);
    assert RunCalls(p, core, run, h, 1, calls, 2, r2) == Again(r2);
    assert RunCalls(p, core, run, h, 1, calls, 1, r1) == Again(r2);
    assert RunCalls(p, core, run, h, 1, calls, 0, Round(t, false, 0, 0)) == Again(r2);
    t' := Emit(r2.turn, Stopped(Halted));
  }

  /** A turn that asks for two calls, of which one is done and the other parked: it ends well, and
      no resume from its transcript, in any iteration, finds the parked call. */
  lemma ResumeMissesCall(h: Handler, run: RunId) returns (p: Ports, core: Core, t: Turn)
    ensures RunTurn(p, core, TurnRequest(run, NewMessage(QUESTION), 1), h, [], true) == Done(t)
    ensures WellBehaved(p) && core.resumeExecutesPending
    ensures t.transcript == [QUESTION, BOTH, ToolResultMessage(FIRST, DONE)] && Calls(BOTH) == [FIRST, SECOND]
    ensures Parked(t.asked, 1, 1)
    ensures forall it: nat :: Pending(core, TurnRequest(run, Resume, it), it, t.transcript).None?
  {
    p, core := HALF_APPROVED, RESUMING_CORE;
    var req := TurnRequest(run, NewMessage(QUESTION), 1);
    var t0 := Started(req, []).turn;
    t := HalfActs(run, h, AfterReply(t0, 1, BOTH, 0));
    BothCalls();
    assert Enter(p, core, LoopState(1, 0, t0)) == Again(t0);
    assert Iterate(p, core, req, h, Started(req, [])) == Done(t);
    assert t.asked[0] == Asking(1, 1, Suspended(7));
  }
}
