/** agent-core/src/core.rs:345-741: the loop as it runs, over a transcript store that it changes
    in place, proved to do what function RunTurn of module AgentLoop says. */
module AgentRun {
  import opened Wrappers
  import opened Chat
  import opened Compaction
  import opened CompactionRuns
  import opened CompactionCode
  import opened Pairing
  import opened Approval
  import opened Budget
  import opened AgentLoop
  import opened LoopRecord
  import opened Transcript

  /** What the code does next: go on, leave the loop, or return an error. */
  datatype Control = GoOn | Leave | Fail(error: string)

  /** The control and the turn reached agree with a result of the specification. */
  ghost predicate Agrees<T(!new)>(res: Progress<T>, control: Control, t: Turn, turnOf: T -> Turn) {
    match res
    case Again(v) => control == GoOn && t == turnOf(v)
    case Done(t') => control == Leave && t == t'
    case Broken(t', e) => control == Fail(e) && t == t'
  }

  /** A round after a call that went on: the reply counts when the call was executed. */
  ghost function AfterCall(r: Round, t: Turn, suspended: bool, reply: Option<ToolReply>): Round {
    Round(t, suspended, r.executed + (if reply.Some? then 1 else 0),
          r.terminals + if reply.Some? && reply.value.terminal then 1 else 0)
  }

  /** Hear and Act, as Iterate composes them. */
  ghost function Responded(
      p: Ports, core: Core, req: TurnRequest, run: RunId, h: Handler, st: LoopState,
      history: seq<Message>): Progress<LoopState> {
    match Hear(p, core, req, st, history, st.turn)
    case Done(t) => Done(t)
    case Broken(t, e) => Broken(t, e)
    case Again(heard) => Act(p, core, run, h, st.iteration, heard)
  }

  /** Prepare, then Hear and Act. */
  ghost function Continued(
      p: Ports, core: Core, req: TurnRequest, run: RunId, h: Handler, st: LoopState): Progress<LoopState> {
    match Prepare(p, core, run, st.iteration, st.turn)
    case Done(t) => Done(t)
    case Broken(t, e) => Broken(t, e)
    case Again(prepared) => Responded(p, core, req, run, h, st.(turn := prepared), st.turn.transcript)
  }

  lemma IterateContinues(p: Ports, core: Core, req: TurnRequest, h: Handler, st: LoopState)
    ensures Iterate(p, core, req, h, st)
         == match Enter(p, core, st)
            case Done(t) => Done(t)
            case Broken(t, e) => Broken(t, e)
            case Again(entered) => Continued(p, core, req, req.run, h, st.(turn := entered))
  {
  }

  /** The rest of the run, from a loop head. */
  ghost function LoopFrom(p: Ports, core: Core, req: TurnRequest, h: Handler, st: LoopState): Progress<LoopState> {
    Loop(p, core, req, h, st)
  }

  lemma LoopSteps(p: Ports, core: Core, req: TurnRequest, h: Handler, st: LoopState)
    ensures match Iterate(p, core, req, h, st)
            case Again(st') => LoopFrom(p, core, req, h, st) == LoopFrom(p, core, req, h, st')
            case res => LoopFrom(p, core, req, h, st) == res
  {
  }

  /** The rest of a round, from its `ord`-th call. */
  ghost function RoundFrom(
      p: Ports, core: Core, run: RunId, h: Handler, it: nat, calls: seq<ToolCall>, ord: nat, r: Round): Progress<Round>
    requires ord <= |calls|
  {
    RunCalls(p, core, run, h, it, calls, ord, r)
  }

  lemma RoundSteps(p: Ports, core: Core, run: RunId, h: Handler, it: nat, calls: seq<ToolCall>, ord: nat, r: Round)
    requires ord < |calls|
    ensures match RunCall(p, core, run, h, it, ord, calls[ord], r)
            case Again(r') =>
              RoundFrom(p, core, run, h, it, calls, ord, r) == RoundFrom(p, core, run, h, it, calls, ord + 1, r')
            case Broken(t, e) => RoundFrom(p, core, run, h, it, calls, ord, r) == Broken(t, e)
            case Done(_) => false
  {
  }

  lemma RoundEnds(p: Ports, core: Core, run: RunId, h: Handler, it: nat, calls: seq<ToolCall>, r: Round)
    ensures RoundFrom(p, core, run, h, it, calls, |calls|, r) == Again(r)
  {
  }

  ghost function WroteFrom(run: RunId, t: Turn, ws: seq<HeadWrite>, i: nat): Turn
    requires i <= |ws|
  {
    WroteAll(run, t, ws[i..])
  }

  lemma WroteStep(run: RunId, t: Turn, ws: seq<HeadWrite>, i: nat)
    requires i < |ws|
    ensures WroteFrom(run, t, ws, i) == WroteFrom(run, Wrote(run, t, ws[i]), ws, i + 1)
  {
    assert ws[i..][0] == ws[i] && ws[i..][1..] == ws[i + 1..];
  }

  lemma WroteEnds(run: RunId, t': Turn, t: Turn, ws: seq<HeadWrite>)
    ensures WroteFrom(run, t', ws, |ws|) == t' && WroteFrom(run, t, ws, 0) == WroteAll(run, t, ws)
  {
    assert ws[0..] == ws && ws[|ws|..] == [];
  }

  /** The other runs' messages after these head writes. */
  ghost function Written(others: map<RunId, seq<Message>>, ws: seq<HeadWrite>): map<RunId, seq<Message>>
    decreases |ws|
  {
    if ws == [] then others
    else
      var before, w := Written(others, ws[..|ws| - 1]), ws[|ws| - 1];
      before[w.run := ReplaceHead(if w.run in before then before[w.run] else [], w.summary, w.upto)]
  }

  lemma WrittenSnoc(others: map<RunId, seq<Message>>, ws: seq<HeadWrite>, w: HeadWrite)
    ensures var before := Written(others, ws);
            Written(others, ws + [w])
            == before[w.run := ReplaceHead(if w.run in before then before[w.run] else [], w.summary, w.upto)]
  {
    assert (ws + [w])[..|ws|] == ws;
  }

  /** A map with one key updated, seen without another key. */
  lemma UpdateBeside<K, V>(m: map<K, V>, run: K, k: K, v: V)
    ensures m[k := v] - {run} == if k == run then m - {run} else (m - {run})[k := v]
  {
  }

  function At(m: map<RunId, seq<Message>>, run: RunId): seq<Message> { if run in m then m[run] else [] }

  /** A head write to the store is the turn's. */
  lemma WriteIsMirrored(was: map<RunId, seq<Message>>, now: map<RunId, seq<Message>>, run: RunId, t: Turn, w: HeadWrite,
                        others: map<RunId, seq<Message>>)
    requires now == was[w.run := ReplaceHead(At(was, w.run), w.summary, w.upto)]
    requires was - {run} == Written(others, t.foreign) && At(was, run) == t.transcript
    ensures now - {run} == Written(others, Wrote(run, t, w).foreign) && At(now, run) == Wrote(run, t, w).transcript
  {
    UpdateBeside(was, run, w.run, ReplaceHead(At(was, w.run), w.summary, w.upto));
    if w.run != run { WrittenSnoc(others, t.foreign, w); }
  }

  /** The newest message is a tool message of one block that answers this call. */
  ghost predicate Ends(history: seq<Message>, call: ToolCall, content: seq<Block>, isError: bool) {
    && history != []
    && history[|history| - 1] == Message(Tool, [ToolResult(call.id, Some(call.name), content, Some(isError))])
  }

  class AgentCore {
    const ports: Ports
    const core: Core
    const handler: Handler
    const run: RunId
    const store: EphemeralTranscript

    constructor (ports: Ports, core: Core, handler: Handler, run: RunId, store: EphemeralTranscript)
      ensures this.ports == ports && this.core == core && this.handler == handler
      ensures this.run == run && this.store == store
    {
      this.ports, this.core, this.handler, this.run, this.store := ports, core, handler, run, store;
    }

    /** The store and the local event list hold what the turn says; the journal only grew, and of
        other runs' messages only the heads changed that the turn says were replaced. */
    ghost predicate Mirrors(t: Turn, events: seq<Event>, journal: seq<ToolCallRecord>, others: map<RunId, seq<Message>>)
      reads store
    {
      && store.Contents(run) == t.transcript
      && store.journal == journal + t.journal
      && store.msgs - {run} == Written(others, t.foreign)
      && events == t.events
    }

    method AppendAll(it: nat, notes: seq<string>, events: seq<Event>, ghost t: Turn,
                     ghost journal: seq<ToolCallRecord>, ghost others: map<RunId, seq<Message>>)
      returns (control: Control, ghost t': Turn)
      requires Mirrors(t, events, journal, others)
      modifies store
      ensures Agrees(AppendNotes(ports, it, notes, 0, t), control, t', (t: Turn) => t)
      ensures Mirrors(t', events, journal, others)
    {
      t' := t;
      for i := 0 to |notes|
        invariant AppendNotes(ports, it, notes, i, t') == AppendNotes(ports, it, notes, 0, t)
        invariant Mirrors(t', events, journal, others)
      {
        if !ports.noteStored(it, i) { return Fail("append failed"), t'; }
        var note := UserMessage("[steering] " + notes[i]);
        store.Append(run, note);
        t' := Say(t', FromSteering(it, i), note);
      }
      control := GoOn;
    }

    method EnterIteration(it: nat, budget: Tally, events0: seq<Event>, ghost t: Turn,
                          ghost journal: seq<ToolCallRecord>, ghost others: map<RunId, seq<Message>>)
      returns (control: Control, events: seq<Event>, ghost t': Turn)
      requires Mirrors(t, events0, journal, others) && budget.limits == core.limits
      modifies store
      ensures Agrees(Enter(ports, core, LoopState(it, budget.runTokens, t)), control, t', (t: Turn) => t)
      ensures Mirrors(t', events, journal, others)
    {
      events, t' := events0, t;
      if ports.cancelledAtHead(it) {
        return Leave, events + [Stopped(Halted)], Emit(t, Stopped(Halted));
      }
      var stop := budget.StopNow(it);
      if stop.Some? {
        return Leave, events + [Stopped(stop.value)], Emit(t, Stopped(stop.value));
      }
      var notes := ports.notes(it);
      if notes.Err? { return Fail(notes.error), events, t; }
      control, t' := AppendAll(it, notes.value, events, t, journal, others);
    }

    /** Pass the request to the compaction extension, whose run need not be this one. */
    method CompactHistory(it: nat, history: seq<Message>, events: seq<Event>, ghost t: Turn,
                          ghost journal: seq<ToolCallRecord>, ghost others: map<RunId, seq<Message>>)
      returns (control: Control, ghost t': Turn)
      requires Mirrors(t, events, journal, others) && history == t.transcript
      modifies store
      ensures Agrees(Compact(ports, core, run, it, t), control, t', (t: Turn) => t)
      ensures Mirrors(t', events, journal, others)
    {
      t' := t;
      if core.compaction.None? { return GoOn, t; }
      CompactForms(ports, core, run, it, t);
      var ext := new CompactionExtension(core.compaction.value.compactor, store, core.compaction.value.run);
      control, t' := CompactWith(ext, it, ports.request(it, history), events, t, journal, others);
    }

    method CompactWith(ext: CompactionExtension, it: nat, request: seq<Message>, events: seq<Event>, ghost t: Turn,
                       ghost journal: seq<ToolCallRecord>, ghost others: map<RunId, seq<Message>>)
      returns (control: Control, ghost t': Turn)
      requires Mirrors(t, events, journal, others) && ext.transcript == store
      modifies store
      ensures var fit := Fit(ext.compactor, request, None, ports.summarize(it));
              var call := CallOf(ext.compactor, request, None, ports.summarize(it));
              && control == (if fit.Err? then Fail(fit.error)
                             else if call.Some? && !ports.headReplaced(it) then Fail("replace_head failed") else GoOn)
              && t' == (if call.Some? && ports.headReplaced(it)
                        then Wrote(run, t, HeadWrite(ext.run, call.value.summary, call.value.upto)) else t)
      ensures Mirrors(t', events, journal, others)
    {
      t' := t;
      ghost var call := CallOf(ext.compactor, request, None, ports.summarize(it));
      WriteIsCall(ext.compactor, request, None, ports.summarize(it));
      if ports.headReplaced(it) {
        ghost var was := store.msgs;
        var r, replaced := ext.BeforeModel(request, ports.summarize(it));
        if r.Err? { return Fail(r.error), t; }
        if replaced.Some? {
          ghost var w := HeadWrite(ext.run, call.value.summary, call.value.upto);
          WriteIsMirrored(was, store.msgs, run, t, w, others);
          t' := Wrote(run, t, w);
        }
        return GoOn, t';
      }
      var fit := FitMessages(ext.compactor, request, None, ports.summarize(it));
      match fit {
        case Err(e) => control := Fail(e);
        case Ok(None) => control := GoOn;
        case Ok(Some(fitted)) =>
          control := if fitted.summaryWrite.Some? then Fail("replace_head failed") else GoOn;
      }
    }

    method PrepareRequest(it: nat, events0: seq<Event>, history: seq<Message>, ghost t: Turn,
                          ghost journal: seq<ToolCallRecord>, ghost others: map<RunId, seq<Message>>)
      returns (control: Control, events: seq<Event>, ghost t': Turn)
      requires Mirrors(t, events0, journal, others) && history == t.transcript
      modifies store
      ensures Agrees(Prepare(ports, core, run, it, t), control, t', (t: Turn) => t)
      ensures Mirrors(t', events, journal, others)
    {
      events, t' := events0, t;
      var early := ports.prepare(it);
      if early.Err? { return Fail(early.error), events, t; }
      if early.value == ShortCircuit {
        return Leave, events + [Stopped(NoToolCall)], Emit(t, Stopped(NoToolCall));
      }
      control, t' := CompactHistory(it, history, events, t, journal, others);
      if control != GoOn { return; }
      var late := ports.lateHooks(it);
      if late.Err? { return Fail(late.error), events, t'; }
      if late.value == ShortCircuit {
        return Leave, events + [Stopped(NoToolCall)], Emit(t', Stopped(NoToolCall));
      }
    }

    method HearMessage(
        req: TurnRequest, it: nat, budget: Tally, history: seq<Message>, events0: seq<Event>, ghost t: Turn,
                       ghost journal: seq<ToolCallRecord>, ghost others: map<RunId, seq<Message>>)
      returns (control: Control, message: Message, stepTokens: nat, events: seq<Event>, ghost t': Turn)
      requires Mirrors(t, events0, journal, others)
      modifies store, budget
      ensures var res := Hear(ports, core, req, LoopState(it, old(budget.runTokens), t), history, t);
              && Agrees(res, control, t', (h: Heard) => h.turn)
              && (control == GoOn ==> res == Again(Heard(message, stepTokens, budget.runTokens, t')))
      ensures Mirrors(t', events, journal, others)
    {
      events, t', stepTokens := events0, t, 0;
      var pending := if core.resumeExecutesPending && it == StartIteration(req) && req.seed.Resume?
                     then LastPendingAssistant(history) else None;
      if pending.Some? { return GoOn, pending.value, 0, events, t; }
      message := UserMessage("");
      var answer := ports.model(it);
      t' := t'.(modelCalls := t'.modelCalls + 1);
      match answer {
        case ModelFailed(e) => return Fail(e), message, 0, events, t';
        case CancelledMidCall => return Leave, message, 0, events + [Stopped(Halted)], Emit(t', Stopped(Halted));
        case Replied(m, tokens) =>
          budget.AddTokens(tokens);
          stepTokens, message := tokens, m;
          t' := t'.(usages := t'.usages + [tokens]);
          if !ports.replyStored(it) { return Fail("append failed"), message, tokens, events, t'; }
          store.Append(run, m);
          events := events + [MessageEvent(m)];
          events := events + [UsageEvent(tokens)];
          t' := Emit(Post(t', FromModel(it), m), UsageEvent(tokens));
      }
      var after := ports.afterRound(it);
      if after.Err? { return Fail(after.error), message, stepTokens, events, t'; }
      if after.value == ShortCircuit {
        return Leave, message, stepTokens, events + [Stopped(NoToolCall)], Emit(t', Stopped(NoToolCall));
      }
      control := GoOn;
    }

    /** Append an error result for each call of a round that may not run. */
    method RefuseRound(it: nat, calls: seq<ToolCall>, reason: StopReason, events0: seq<Event>, ghost t: Turn,
                       ghost journal: seq<ToolCallRecord>, ghost others: map<RunId, seq<Message>>)
      returns (control: Control, events: seq<Event>, ghost t': Turn)
      requires Mirrors(t, events0, journal, others)
      modifies store
      ensures Agrees(RefuseCalls(ports, it, calls, 0, reason, t), control, t', (t: Turn) => t)
      ensures Mirrors(t', events, journal, others)
    {
      events, t' := events0, t;
      for ord := 0 to |calls|
        invariant RefuseCalls(ports, it, calls, ord, reason, t') == RefuseCalls(ports, it, calls, 0, reason, t)
        invariant Mirrors(t', events, journal, others)
      {
        if !ports.resultStored(it, ord) { return Fail("append failed"), events, t'; }
        var msg := ToolResultMessage(calls[ord],
                                     ErrorReply("tool not executed: agent stopped (" + ReasonName(reason) + ")"));
        store.Append(run, msg);
        events := events + [MessageEvent(msg)];
        t' := Post(t', FromRefusal(it, ord), msg);
      }
      control := GoOn;
    }

    /** Journal an executed call and append its result. */
    method SettleCall(
        it: nat, ord: nat, call: ToolCall, reply: ToolReply, isCore: bool, events0: seq<Event>, ghost r: Round,
                      ghost journal: seq<ToolCallRecord>, ghost others: map<RunId, seq<Message>>)
      returns (control: Control, events: seq<Event>, ghost t': Turn)
      requires Mirrors(r.turn, events0, journal, others)
      modifies store
      ensures Agrees(Settle(ports, run, it, ord, call, reply, isCore, r), control, t', (r: Round) => r.turn)
      ensures Mirrors(t', events, journal, others)
      ensures control == GoOn ==> Ends(store.Contents(run), call, reply.content, reply.isError)
    {
      events := events0;
      t' := r.turn.(executed := r.turn.executed + [Execution(it, ord, call, isCore)]);
      if !ports.journalStored(it, ord) { return Fail("journal_tool_call failed"), events, t'; }
      store.JournalToolCall(ToolCallRecord(Key(run, it, ord), call, reply));
      t' := t'.(journal := t'.journal + [ToolCallRecord(Key(run, it, ord), call, reply)]);
      if !ports.resultStored(it, ord) { return Fail("append failed"), events, t'; }
      var msg := ToolResultMessage(call, reply);
      store.Append(run, msg);
      events := events + [MessageEvent(msg)];
      t' := Post(t', FromCall(it, ord), msg);
      control := GoOn;
    }

    /** Append an error result for a call that was denied. */
    method DenyCall(it: nat, ord: nat, call: ToolCall, reason: string, events0: seq<Event>, ghost r: Round,
                    ghost journal: seq<ToolCallRecord>, ghost others: map<RunId, seq<Message>>)
      returns (control: Control, events: seq<Event>, ghost t': Turn)
      requires Mirrors(r.turn, events0, journal, others)
      modifies store
      ensures Agrees(RefuseInRound(ports, it, ord, call, reason, r), control, t', (r: Round) => r.turn)
      ensures Mirrors(t', events, journal, others)
      ensures control == GoOn ==> Ends(store.Contents(run), call, [TextBlock(reason)], true)
    {
      events, t' := events0, r.turn;
      if !ports.resultStored(it, ord) { return Fail("append failed"), events, t'; }
      var msg := ToolResultMessage(call, ErrorReply(reason));
      store.Append(run, msg);
      events := events + [MessageEvent(msg)];
      t' := Post(t', FromRefusal(it, ord), msg);
      control := GoOn;
    }

    /** The decision on a call: the policy's, or the clamped reviewer's where it asks for review. */
    method DecideCall(it: nat, ord: nat, call: ToolCall) returns (decision: Decision)
      ensures decision == DecisionFor(ports, core, it, ord, call)
    {
      var trusted := ports.isTrusted(call.name);
      decision := ports.policy(it, ord, trusted);
      if decision == Review {
        decision := match core.reviewer
                    case Some(rev) => ClampReviewerDecision(trusted, rev.ReviewCall(ports.assess(it, ord)))
                    case None => Prompt;
      }
    }

    /** Call the provider; its failure is a result too. */
    method ExecuteCall(it: nat, ord: nat, call: ToolCall, events0: seq<Event>, ghost r: Round,
                       ghost journal: seq<ToolCallRecord>, ghost others: map<RunId, seq<Message>>)
      returns (control: Control, reply: ToolReply, events: seq<Event>, ghost t': Turn)
      requires Mirrors(r.turn, events0, journal, others)
      modifies store
      ensures Agrees(Execute(ports, run, it, ord, call, r), control, t', (r: Round) => r.turn)
      ensures control == GoOn ==>
                Execute(ports, run, it, ord, call, r) == Again(AfterCall(r, t', r.suspended, Some(reply)))
      ensures Mirrors(t', events, journal, others)
      ensures control == GoOn ==> Ends(store.Contents(run), call, reply.content, reply.isError)
    {
      reply := match ports.tool(it, ord)
               case Ok(tool) => tool
               case Err(e) => ErrorReply("tool execution failed: " + e);
      control, events, t' := SettleCall(it, ord, call, reply, false, events0, r, journal, others);
    }

    /** Ask the human gate about a call: execute, deny or park it. */
    method AskGate(it: nat, ord: nat, call: ToolCall, events0: seq<Event>, suspended0: bool, ghost r: Round,
                   ghost journal: seq<ToolCallRecord>, ghost others: map<RunId, seq<Message>>)
      returns (control: Control, reply: Option<ToolReply>, suspended: bool, events: seq<Event>, ghost t': Turn)
      requires Mirrors(r.turn, events0, journal, others) && suspended0 == r.suspended && !IsCoreCall(call)
      requires DecisionFor(ports, core, it, ord, call) != Auto && DecisionFor(ports, core, it, ord, call) != Deny
      modifies store
      ensures Agrees(RunCall(ports, core, run, handler, it, ord, call, r), control, t', (r: Round) => r.turn)
      ensures control == GoOn ==>
                RunCall(ports, core, run, handler, it, ord, call, r) == Again(AfterCall(r, t', suspended, reply))
      ensures Mirrors(t', events, journal, others)
      ensures control == GoOn && reply.Some? ==>
                Ends(store.Contents(run), call, reply.value.content, reply.value.isError)
    {
      events, t', suspended, reply := events0, r.turn, suspended0, None;
      var outcome := ports.gate(it, ord);
      GateForms(ports, core, run, handler, it, ord, call, r);
      if outcome.Err? { return Fail(outcome.error), None, suspended, events, t'; }
      control, reply, suspended, events, t' :=
        FollowGate(it, ord, call, outcome.value, events, suspended0, Asked(r, it, ord, outcome.value), journal, others);
    }

    /** Park, execute or deny a call, as the gate answered. */
    method FollowGate(
        it: nat, ord: nat, call: ToolCall, outcome: GateOutcome, events0: seq<Event>, suspended0: bool, ghost r: Round,
                      ghost journal: seq<ToolCallRecord>, ghost others: map<RunId, seq<Message>>)
      returns (control: Control, reply: Option<ToolReply>, suspended: bool, events: seq<Event>, ghost t': Turn)
      requires Mirrors(r.turn, events0, journal, others) && suspended0 == r.suspended
      modifies store
      ensures var res := Gated(ports, run, it, ord, call, outcome, r);
              && Agrees(res, control, t', (r: Round) => r.turn)
              && (control == GoOn ==> res == Again(AfterCall(r, t', suspended, reply)))
      ensures Mirrors(t', events, journal, others)
      ensures control == GoOn && reply.Some? ==>
                Ends(store.Contents(run), call, reply.value.content, reply.value.isError)
    {
      suspended := suspended0;
      match outcome {
        case Suspended(ticket) =>
          control, reply, suspended := GoOn, None, true;
          events, t' := events0 + [GateOpened(ticket)], Emit(r.turn, GateOpened(ticket));
        case Decided(d) =>
          control, reply, events, t' := FollowDecision(it, ord, call, d, events0, r, journal, others);
      }
    }

    /** Execute or deny a call, as the human decided. */
    method FollowDecision(
        it: nat, ord: nat, call: ToolCall, d: ReviewDecision, events0: seq<Event>, ghost r: Round,
                          ghost journal: seq<ToolCallRecord>, ghost others: map<RunId, seq<Message>>)
      returns (control: Control, reply: Option<ToolReply>, events: seq<Event>, ghost t': Turn)
      requires Mirrors(r.turn, events0, journal, others)
      modifies store
      ensures var res := if IsApproval(Decided(d)) then Execute(ports, run, it, ord, call, r)
                         else RefuseInRound(ports, it, ord, call, "denied by human reviewer", r);
              && Agrees(res, control, t', (r: Round) => r.turn)
              && (control == GoOn ==> res == Again(AfterCall(r, t', r.suspended, reply)))
      ensures Mirrors(t', events, journal, others)
      ensures control == GoOn && reply.Some? ==>
                Ends(store.Contents(run), call, reply.value.content, reply.value.isError)
    {
      reply := None;
      if d == Approved || d == ApprovedForSession {
        var result;
        control, result, events, t' := ExecuteCall(it, ord, call, events0, r, journal, others);
        reply := Some(result);
      } else {
        control, events, t' := DenyCall(it, ord, call, "denied by human reviewer", events0, r, journal, others);
      }
    }

    method WriteHead(w: HeadWrite, events: seq<Event>, ghost t: Turn,
                     ghost journal: seq<ToolCallRecord>, ghost others: map<RunId, seq<Message>>)
      requires Mirrors(t, events, journal, others)
      modifies store
      ensures Mirrors(Wrote(run, t, w), events, journal, others)
    {
      ghost var was := store.msgs;
      store.ReplaceHeadOf(w.run, w.summary, w.upto);
      WriteIsMirrored(was, store.msgs, run, t, w, others);
    }

    /** The heads that were replaced while a core tool was at work. */
    method WriteHeads(writes: seq<HeadWrite>, events: seq<Event>, ghost t: Turn,
                      ghost journal: seq<ToolCallRecord>, ghost others: map<RunId, seq<Message>>)
      returns (ghost t': Turn)
      requires Mirrors(t, events, journal, others)
      modifies store
      ensures t' == WroteAll(run, t, writes) && Mirrors(t', events, journal, others)
    {
      t' := t;
      for i := 0 to |writes|
        invariant WroteFrom(run, t', writes, i) == WroteFrom(run, t, writes, 0)
        invariant Mirrors(t', events, journal, others)
      {
        WriteHead(writes[i], events, t', journal, others);
        WroteStep(run, t', writes, i);
        t' := Wrote(run, t', writes[i]);
      }
      WroteEnds(run, t', t, writes);
    }

    /** One call: a core tool in process, or the approval gate and then the provider. */
    method TakeCall(it: nat, ord: nat, call: ToolCall, events0: seq<Event>, suspended0: bool, ghost r: Round,
                    ghost journal: seq<ToolCallRecord>, ghost others: map<RunId, seq<Message>>)
      returns (control: Control, reply: Option<ToolReply>, suspended: bool, events: seq<Event>, ghost t': Turn)
      requires Mirrors(r.turn, events0, journal, others) && suspended0 == r.suspended
      modifies store
      ensures Agrees(RunCall(ports, core, run, handler, it, ord, call, r), control, t', (r: Round) => r.turn)
      ensures control == GoOn ==>
                RunCall(ports, core, run, handler, it, ord, call, r) == Again(AfterCall(r, t', suspended, reply))
      ensures Mirrors(t', events, journal, others)
      ensures control == GoOn && reply.Some? ==>
                Ends(store.Contents(run), call, reply.value.content, reply.value.isError)
    {
      suspended, reply := suspended0, None;
      if IsCoreCall(call) {
        var handled := handler(it, ord, call);
        ghost var written := WriteHeads(handled.writes, events0, r.turn, journal, others);
        reply := Some(handled.reply);
        control, events, t' := SettleCall(it, ord, call, handled.reply, true, events0, r.(turn := written), journal,
                                          others);
        return;
      }
      var decision := DecideCall(it, ord, call);
      match decision {
        case Auto =>
          var result;
          control, result, events, t' := ExecuteCall(it, ord, call, events0, r, journal, others);
          reply := Some(result);
        case Deny =>
          control, events, t' := DenyCall(it, ord, call, "denied by approval policy", events0, r, journal, others);
        case _ =>
          control, reply, suspended, events, t' := AskGate(it, ord, call, events0, suspended0, r, journal, others);
      }
    }

    /** Every call of the round, whether or not one suspends. */
    method TakeRound(it: nat, calls: seq<ToolCall>, events0: seq<Event>, ghost t: Turn,
                     ghost journal: seq<ToolCallRecord>, ghost others: map<RunId, seq<Message>>)
      returns (control: Control, suspended: bool, executed: nat, terminals: nat, events: seq<Event>, ghost t': Turn)
      requires Mirrors(t, events0, journal, others)
      modifies store
      ensures var res := RoundFrom(ports, core, run, handler, it, calls, 0, Round(t, false, 0, 0));
              && Agrees(res, control, t', (r: Round) => r.turn)
              && (control == GoOn ==> res == Again(Round(t', suspended, executed, terminals)))
      ensures Mirrors(t', events, journal, others)
    {
      events, t' := events0, t;
      suspended, executed, terminals := false, 0, 0;
      for ord := 0 to |calls|
        invariant RoundFrom(ports, core, run, handler, it, calls, ord, Round(t', suspended, executed, terminals))
               == RoundFrom(ports, core, run, handler, it, calls, 0, Round(t, false, 0, 0))
        invariant Mirrors(t', events, journal, others)
      {
        ghost var r := Round(t', suspended, executed, terminals);
        RoundSteps(ports, core, run, handler, it, calls, ord, r);
        var reply;
        control, reply, suspended, events, t' := TakeCall(it, ord, calls[ord], events, suspended, r, journal, others);
        if control != GoOn { return; }
        if reply.Some? {
          executed := executed + 1;
          if reply.value.terminal { terminals := terminals + 1; }
        }
        assert Round(t', suspended, executed, terminals) == AfterCall(r, t', suspended, reply);
      }
      RoundEnds(ports, core, run, handler, it, calls, Round(t', suspended, executed, terminals));
      control := GoOn;
    }

    /** A final answer, a refused round, or a round. */
    method ActOn(it: nat, message: Message, stepTokens: nat, budget: Tally, events0: seq<Event>, ghost t: Turn,
                 ghost journal: seq<ToolCallRecord>, ghost others: map<RunId, seq<Message>>)
      returns (control: Control, events: seq<Event>, ghost t': Turn)
      requires Mirrors(t, events0, journal, others) && budget.limits == core.limits
      modifies store
      ensures Agrees(Act(ports, core, run, handler, it, Heard(message, stepTokens, budget.runTokens, t)), control, t',
                     (st: LoopState) => st.turn)
      ensures Mirrors(t', events, journal, others)
    {
      events, t' := events0, t;
      var calls := Calls(message);
      if calls == [] { return Leave, events + [Stopped(NoToolCall)], Emit(t, Stopped(NoToolCall)); }
      var stop: Option<StopReason> := None;
      if ports.cancelledAfterReply(it) { stop := Some(Halted); }
      else if budget.runTokens > budget.limits.perRunTokenCap { stop := Some(TokenCap); }
      else if budget.StepOverCap(stepTokens) { stop := Some(TokenCap); }
      else if it >= budget.limits.maxSteps { stop := Some(IterationCap); }
      if stop.Some? {
        control, events, t' := RefuseRound(it, calls, stop.value, events, t, journal, others);
        if control == GoOn { return Leave, events + [Stopped(stop.value)], Emit(t', Stopped(stop.value)); }
        return;
      }
      var suspended, executed, terminals;
      control, suspended, executed, terminals, events, t' := TakeRound(it, calls, events, t, journal, others);
      if control != GoOn { return; }
      if suspended { return Leave, events + [Stopped(Halted)], Emit(t', Stopped(Halted)); }
      if executed > 0 && terminals == executed {
        return Leave, events + [Stopped(NoToolCall)], Emit(t', Stopped(NoToolCall));
      }
    }

    /** The message of this iteration, and what is done about it. */
    method Respond(req: TurnRequest, it: nat, budget: Tally, history: seq<Message>, events0: seq<Event>, ghost t: Turn,
                   ghost journal: seq<ToolCallRecord>, ghost others: map<RunId, seq<Message>>)
      returns (control: Control, events: seq<Event>, ghost t': Turn)
      requires Mirrors(t, events0, journal, others) && budget.limits == core.limits
      modifies store, budget
      ensures var res := Responded(ports, core, req, run, handler, LoopState(it, old(budget.runTokens), t), history);
              && Agrees(res, control, t', (st: LoopState) => st.turn)
              && (control == GoOn ==> res == Again(LoopState(it + 1, budget.runTokens, t')))
      ensures Mirrors(t', events, journal, others)
    {
      var message, stepTokens;
      control, message, stepTokens, events, t' := HearMessage(req, it, budget, history, events0, t, journal, others);
      if control != GoOn { return; }
      control, events, t' := ActOn(it, message, stepTokens, budget, events, t', journal, others);
    }

    /** Prepare the request, and respond. */
    method ContinuePass(req: TurnRequest, it: nat, budget: Tally, events0: seq<Event>, ghost t: Turn,
                        ghost journal: seq<ToolCallRecord>, ghost others: map<RunId, seq<Message>>)
      returns (control: Control, events: seq<Event>, ghost t': Turn)
      requires Mirrors(t, events0, journal, others) && budget.limits == core.limits
      modifies store, budget
      ensures var res := Continued(ports, core, req, run, handler, LoopState(it, old(budget.runTokens), t));
              && Agrees(res, control, t', (st: LoopState) => st.turn)
              && (control == GoOn ==> res == Again(LoopState(it + 1, budget.runTokens, t')))
      ensures Mirrors(t', events, journal, others)
    {
      var history := store.Load(run);
      control, events, t' := PrepareRequest(it, events0, history, t, journal, others);
      if control != GoOn { return; }
      control, events, t' := Respond(req, it, budget, history, events, t', journal, others);
    }

    /** One pass of the loop body. */
    method Pass(req: TurnRequest, it: nat, budget: Tally, events0: seq<Event>, ghost t: Turn,
                ghost journal: seq<ToolCallRecord>, ghost others: map<RunId, seq<Message>>)
      returns (control: Control, events: seq<Event>, ghost t': Turn)
      requires Mirrors(t, events0, journal, others) && budget.limits == core.limits && req.run == run
      modifies store, budget
      ensures var res := Iterate(ports, core, req, handler, LoopState(it, old(budget.runTokens), t));
              && Agrees(res, control, t', (st: LoopState) => st.turn)
              && (control == GoOn ==> res == Again(LoopState(it + 1, budget.runTokens, t')))
      ensures Mirrors(t', events, journal, others)
    {
      IterateContinues(ports, core, req, handler, LoopState(it, budget.runTokens, t));
      control, events, t' := EnterIteration(it, budget, events0, t, journal, others);
      if control != GoOn { return; }
      control, events, t' := ContinuePass(req, it, budget, events, t', journal, others);
    }

    /** `AgentCore::run`: the events returned, the transcript and the journal are those of
        RunTurn, which also says when there is an error instead. Other runs' messages change by
        exactly the foreign head writes of the turn, so not at all where it has none. A clean run
        emits every journalled reply as the content of a tool message. */
    method Run(req: TurnRequest, seedStored: bool) returns (r: Result<seq<Event>, string>)
      requires req.run == run
      modifies store
      ensures var res := RunTurn(ports, core, req, handler, old(store.Contents(run)), seedStored);
              && r == (if res.Done? then Ok(res.turn.events) else Err(res.error))
              && store.Contents(run) == res.turn.transcript
              && store.journal == old(store.journal) + res.turn.journal
              && store.msgs - {run} == Written(old(store.msgs) - {run}, res.turn.foreign)
      ensures r.Ok? ==> forall i :: |old(store.journal)| <= i < |store.journal| ==>
                          var call, reply := store.journal[i].call, store.journal[i].reply;
                          MessageEvent(Message(Tool, [ToolResult(call.id, Some(call.name), reply.content,
                                                                 Some(reply.isError))])) in r.value
    {
      ghost var journal, others, t := store.journal, store.msgs - {run}, NewTurn(store.Contents(run));
      if req.seed.NewMessage? {
        if !seedStored { return Err("append failed"); }
        store.Append(run, req.seed.message);
        t := Say(t, FromSeed, req.seed.message);
      }
      ghost var t';
      r, t' := RunLoop(req, t, journal, others);
      if r.Ok? { RunShowsReplies(ports, core, req, handler, old(store.Contents(run)), seedStored); }
    }

    /** The loop itself, from the first head. */
    method RunLoop(req: TurnRequest, ghost t: Turn,
                ghost journal: seq<ToolCallRecord>, ghost others: map<RunId, seq<Message>>)
      returns (r: Result<seq<Event>, string>, ghost t': Turn)
      requires req.run == run && Mirrors(t, [], journal, others)
      modifies store
      ensures var res := LoopFrom(ports, core, req, handler, LoopState(StartIteration(req), 0, t));
              t' == res.turn && r == (if res.Done? then Ok(t'.events) else Err(res.error))
      ensures Mirrors(t', t'.events, journal, others)
    {
      var events: seq<Event> := [];
      var budget := new Tally(core.limits);
      var iteration := StartIteration(req);
      t' := t;
      while true
        invariant fresh(budget) && budget.limits == core.limits
        invariant Mirrors(t', events, journal, others)
        invariant LoopFrom(ports, core, req, handler, LoopState(iteration, budget.runTokens, t'))
               == LoopFrom(ports, core, req, handler, LoopState(StartIteration(req), 0, t))
        decreases SaturatingSub(core.limits.maxSteps, iteration)
      {
        ghost var head := LoopState(iteration, budget.runTokens, t');
        LoopSteps(ports, core, req, handler, head);
        var control;
        control, events, t' := Pass(req, iteration, budget, events, t', journal, others);
        match control {
          case Fail(e) => return Err(e), t';
          case Leave => return Ok(events), t';
          case GoOn => IterateAdvances(ports, core, req, handler, head);
        }
        iteration := iteration + 1;
      }
    }
  }
}
