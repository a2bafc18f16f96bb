/** agent-core/src/core.rs: one turn of the agent loop, as a function of what its ports answer.
    Each port is an arbitrary table of answers, indexed by where in the run it is asked. */
module AgentLoop {
  import opened Wrappers
  import opened Chat
  import opened Compaction
  import opened CompactionRuns
  import opened Pairing
  import opened Approval
  import opened Budget

  /** A run, named by where it was spawned. */
  datatype RunId = Root(n: nat) | Child(parent: RunId, iteration: nat, ordinal: nat, index: nat)

  datatype ToolReply = ToolReply(content: seq<Block>, isError: bool, terminal: bool)
  datatype Key = Key(run: RunId, iteration: nat, ordinal: nat)
  datatype ToolCallRecord = ToolCallRecord(key: Key, call: ToolCall, reply: ToolReply)

  datatype Event =
    | MessageEvent(message: Message)
    | UsageEvent(tokens: nat)
    | GateOpened(ticket: nat)
    | Stopped(reason: StopReason)

  datatype Flow = Continue | ShortCircuit

  /** A model call: a reply with its usage, a cancellation that wins the race, or an error. */
  datatype ModelAnswer = Replied(message: Message, tokens: nat) | CancelledMidCall | ModelFailed(error: string)

  /** What each port answers. The first argument is the iteration; the second, where there is
      one, the ordinal of the tool call within the round (or of the steering note). `request` is
      what the extensions before compaction make of the loaded history. */
  datatype Ports = Ports(
    cancelledAtHead: nat -> bool,
    cancelledAfterReply: nat -> bool,
    notes: nat -> Result<seq<string>, string>,
    noteStored: (nat, nat) -> bool,
    prepare: nat -> Result<Flow, string>,
    request: (nat, seq<Message>) -> seq<Message>,
    summarize: nat -> Summarize,
    headReplaced: nat -> bool,
    lateHooks: nat -> Result<Flow, string>,
    model: nat -> ModelAnswer,
    replyStored: nat -> bool,
    afterRound: nat -> Result<Flow, string>,
    isTrusted: string -> bool,
    policy: (nat, nat, bool) -> Decision,
    assess: (nat, nat) -> Result<Assessment, string>,
    gate: (nat, nat) -> Result<GateOutcome, string>,
    tool: (nat, nat) -> Result<ToolReply, string>,
    journalStored: (nat, nat) -> bool,
    resultStored: (nat, nat) -> bool)

  /** The compaction extension: the run whose head it replaces is fixed when it is made
      (agent-core/src/compaction.rs:643-667), whichever run it is asked by. */
  datatype Extension = Extension(compactor: Compactor, run: RunId)

  /** What the host fixes: the compaction extension if registered, reviewer, limits, resume mode. */
  datatype Core = Core(
    compaction: Option<Extension>,
    reviewer: Option<Reviewer>,
    limits: Limits,
    resumeExecutesPending: bool)

  datatype Seed = NewMessage(message: Message) | Resume

  datatype TurnRequest = TurnRequest(run: RunId, seed: Seed, startIteration: nat)

  function StartIteration(req: TurnRequest): nat { Max(req.startIteration, 1) }

  /** `replace_head(run, summary, upto)` */
  datatype HeadWrite = HeadWrite(run: RunId, summary: Message, upto: nat)

  /** The in-process answer to a core tool call, and the heads that were replaced meanwhile. */
  datatype Handled = Handled(reply: ToolReply, writes: seq<HeadWrite>)
  type Handler = (nat, nat, ToolCall) -> Handled

  // ----- the state of a turn, with the history of what was done -----

  /** Where an appended message is from: the seed, a steering note, a model reply, an executed call
      or a call that was not executed. */
  datatype Origin =
    | FromSeed
    | FromSteering(iteration: nat, index: nat)
    | FromModel(iteration: nat)
    | FromCall(iteration: nat, ordinal: nat)
    | FromRefusal(iteration: nat, ordinal: nat)

  datatype Entry = Entry(origin: Origin, message: Message)
  datatype Execution = Execution(iteration: nat, ordinal: nat, call: ToolCall, core: bool)
  datatype Asking = Asking(iteration: nat, ordinal: nat, outcome: GateOutcome)

  datatype Turn = Turn(
    transcript: seq<Message>,
    events: seq<Event>,
    journal: seq<ToolCallRecord>,
    appended: seq<Entry>,
    executed: seq<Execution>,
    asked: seq<Asking>,
    usages: seq<nat>,
    modelCalls: nat,
    foreign: seq<HeadWrite>)

  function NewTurn(transcript: seq<Message>): Turn { Turn(transcript, [], [], [], [], [], [], 0, []) }

  function Say(t: Turn, origin: Origin, m: Message): Turn {
    t.(transcript := t.transcript + [m], appended := t.appended + [Entry(origin, m)])
  }

  function Emit(t: Turn, ev: Event): Turn { t.(events := t.events + [ev]) }

  function Post(t: Turn, origin: Origin, m: Message): Turn { Emit(Say(t, origin, m), MessageEvent(m)) }

  /** A head is replaced: this run's, or another's. */
  function Wrote(run: RunId, t: Turn, w: HeadWrite): Turn {
    if w.run == run then t.(transcript := ReplaceHead(t.transcript, w.summary, w.upto))
    else t.(foreign := t.foreign + [w])
  }

  function WroteAll(run: RunId, t: Turn, ws: seq<HeadWrite>): Turn
    decreases |ws|
  {
    if ws == [] then t else WroteAll(run, Wrote(run, t, ws[0]), ws[1..])
  }

  /** Head writes touch the transcript and the list of foreign ones, and nothing else of the turn. */
  lemma {:induction false} HeadWritesOnly(run: RunId, t: Turn, ws: seq<HeadWrite>)
    ensures var t' := WroteAll(run, t, ws); t' == t.(transcript := t'.transcript, foreign := t'.foreign)
    decreases |ws|
  {
    if ws != [] { HeadWritesOnly(run, Wrote(run, t, ws[0]), ws[1..]); }
  }

  /** `Done` is a clean stop; `Broken` is a port error passed on with `?`. */
  datatype Progress<T> = Again(value: T) | Done(turn: Turn) | Broken(turn: Turn, error: string)

  function Stop<T>(t: Turn, reason: StopReason): Progress<T> { Done(Emit(t, Stopped(reason))) }

  // ----- tool results -----

  function ErrorReply(message: string): ToolReply { ToolReply([TextBlock(message)], true, false) }

  function ToolResultMessage(call: ToolCall, reply: ToolReply): Message {
    Message(Tool, [ToolResult(call.id, Some(call.name), reply.content, Some(reply.isError))])
  }

  // ----- core tools (agent-core/src/core_tools.rs:61-74) -----

  datatype CoreTool = Delegate | TaskCreate | TaskUpdate | TaskGet | TaskList | ScheduleNext

  function CoreToolFromName(name: string): Option<CoreTool> {
    if name == "delegate" then Some(Delegate)
    else if name == "task_create" then Some(TaskCreate)
    else if name == "task_update" then Some(TaskUpdate)
    else if name == "task_get" then Some(TaskGet)
    else if name == "task_list" then Some(TaskList)
    else if name == "schedule_next" then Some(ScheduleNext)
    else None
  }

  predicate IsCoreCall(call: ToolCall) { CoreToolFromName(call.name).Some? }

  // ----- one round of tool calls -----

  datatype Round = Round(turn: Turn, suspended: bool, executed: nat, terminals: nat)

  /** Journal an executed call and append its result. */
  function Settle(
      p: Ports, run: RunId, it: nat, ord: nat, call: ToolCall, reply: ToolReply, core: bool,
      r: Round): Progress<Round> {
    var t1 := r.turn.(executed := r.turn.executed + [Execution(it, ord, call, core)]);
    if !p.journalStored(it, ord) then Broken(t1, "journal_tool_call failed")
    else
      var t2 := t1.(journal := t1.journal + [ToolCallRecord(Key(run, it, ord), call, reply)]);
      if !p.resultStored(it, ord) then Broken(t2, "append failed")
      else Again(Round(Post(t2, FromCall(it, ord), ToolResultMessage(call, reply)), r.suspended, r.executed + 1,
                       r.terminals + if reply.terminal then 1 else 0))
  }

  /** Append a result for a call that was not executed. */
  function Refuse(p: Ports, it: nat, ord: nat, call: ToolCall, reason: string, t: Turn): Progress<Turn> {
    if !p.resultStored(it, ord) then Broken(t, "append failed")
    else Again(Post(t, FromRefusal(it, ord), ToolResultMessage(call, ErrorReply(reason))))
  }

  function RefuseInRound(p: Ports, it: nat, ord: nat, call: ToolCall, reason: string, r: Round): Progress<Round> {
    match Refuse(p, it, ord, call, reason, r.turn)
    case Again(t) => Again(r.(turn := t))
    case Broken(t, e) => Broken(t, e)
    case Done(t) => Done(t)
  }

  /** A tool failure becomes an error result rather than an error of the turn. */
  function ReplyOf(p: Ports, it: nat, ord: nat): ToolReply {
    match p.tool(it, ord)
    case Ok(reply) => reply
    case Err(e) => ErrorReply("tool execution failed: " + e)
  }

  function Execute(p: Ports, run: RunId, it: nat, ord: nat, call: ToolCall, r: Round): Progress<Round> {
    Settle(p, run, it, ord, call, ReplyOf(p, it, ord), false, r)
  }

  function DecisionFor(p: Ports, core: Core, it: nat, ord: nat, call: ToolCall): Decision {
    var trusted := p.isTrusted(call.name);
    Resolved(p.policy(it, ord, trusted), trusted, core.reviewer, p.assess(it, ord))
  }

  /** One call of a round. */
  function RunCall(
      p: Ports, core: Core, run: RunId, h: Handler, it: nat, ord: nat, call: ToolCall, r: Round): Progress<Round> {
    if IsCoreCall(call) then
      var handled := h(it, ord, call);
      Settle(p, run, it, ord, call, handled.reply, true, r.(turn := WroteAll(run, r.turn, handled.writes)))
    else match DecisionFor(p, core, it, ord, call)
         case Auto => Execute(p, run, it, ord, call, r)
         case Deny => RefuseInRound(p, it, ord, call, "denied by approval policy", r)
         case _ =>
           match p.gate(it, ord)
           case Err(e) => Broken(r.turn, e)
           case Ok(outcome) =>
             var r' := r.(turn := r.turn.(asked := r.turn.asked + [Asking(it, ord, outcome)]));
             if IsApproval(outcome) then Execute(p, run, it, ord, call, r')
             else if outcome.Suspended? then
               Again(r'.(turn := Emit(r'.turn, GateOpened(outcome.ticket)), suspended := true))
             else RefuseInRound(p, it, ord, call, "denied by human reviewer", r')
  }

  function Asked(r: Round, it: nat, ord: nat, outcome: GateOutcome): Round {
    r.(turn := r.turn.(asked := r.turn.asked + [Asking(it, ord, outcome)]))
  }

  function Gated(
      p: Ports, run: RunId, it: nat, ord: nat, call: ToolCall, outcome: GateOutcome, r: Round): Progress<Round> {
    match outcome
    case Suspended(ticket) => Again(r.(turn := Emit(r.turn, GateOpened(ticket)), suspended := true))
    case Decided(d) =>
      if IsApproval(Decided(d)) then Execute(p, run, it, ord, call, r)
      else RefuseInRound(p, it, ord, call, "denied by human reviewer", r)
  }

  /** A call that the gate is asked about. */
  lemma GateForms(p: Ports, core: Core, run: RunId, h: Handler, it: nat, ord: nat, call: ToolCall, r: Round)
    requires !IsCoreCall(call)
    requires DecisionFor(p, core, it, ord, call) != Auto && DecisionFor(p, core, it, ord, call) != Deny
    ensures RunCall(p, core, run, h, it, ord, call, r)
         == match p.gate(it, ord)
            case Err(e) => Broken(r.turn, e)
            case Ok(outcome) => Gated(p, run, it, ord, call, outcome, Asked(r, it, ord, outcome))
  {
  }

  /** The calls of a round from `ord` on; a suspension does not end the round. */
  function RunCalls(
      p: Ports, core: Core, run: RunId, h: Handler, it: nat, calls: seq<ToolCall>, ord: nat,
      r: Round): (res: Progress<Round>)
    requires ord <= |calls|
    ensures !res.Done?
    decreases |calls| - ord
  {
    if ord == |calls| then Again(r)
    else match RunCall(p, core, run, h, it, ord, calls[ord], r)
         case Again(r') => RunCalls(p, core, run, h, it, calls, ord + 1, r')
         case Broken(t, e) => Broken(t, e)
  }

  function ReasonName(reason: StopReason): string {
    match reason
    case NoToolCall => "NoToolCall"
    case IterationCap => "IterationCap"
    case TokenCap => "TokenCap"
    case Halted => "Halted"
  }

  /** Error results for the calls from `ord` on, when no round may run. */
  function RefuseCalls(
      p: Ports, it: nat, calls: seq<ToolCall>, ord: nat, reason: StopReason, t: Turn): (res: Progress<Turn>)
    requires ord <= |calls|
    ensures !res.Done?
    decreases |calls| - ord
  {
    if ord == |calls| then Again(t)
    else match Refuse(p, it, ord, calls[ord], "tool not executed: agent stopped (" + ReasonName(reason) + ")", t)
         case Again(t') => RefuseCalls(p, it, calls, ord + 1, reason, t')
         case Broken(t', e) => Broken(t', e)
  }

  // ----- one iteration -----

  datatype LoopState = LoopState(iteration: nat, tokens: nat, turn: Turn)

  /** Append the steering notes from the `i`-th on. */
  function AppendNotes(p: Ports, it: nat, notes: seq<string>, i: nat, t: Turn): (res: Progress<Turn>)
    requires i <= |notes|
    ensures !res.Done?
    decreases |notes| - i
  {
    if i == |notes| then Again(t)
    else if !p.noteStored(it, i) then Broken(t, "append failed")
    else AppendNotes(p, it, notes, i + 1, Say(t, FromSteering(it, i), UserMessage("[steering] " + notes[i])))
  }

  /** The stops at the head of the loop, then the steering notes. */
  function Enter(p: Ports, core: Core, st: LoopState): Progress<Turn> {
    var it, t := st.iteration, st.turn;
    if p.cancelledAtHead(it) then Stop(t, Halted)
    else match StopBefore(core.limits, st.tokens, it)
         case Some(reason) => Stop(t, reason)
         case None =>
           match p.notes(it)
           case Err(e) => Broken(t, e)
           case Ok(notes) => AppendNotes(p, it, notes, 0, t)
  }

  /** The compaction extension: fit the request, write the summary over the head of its run. */
  function Compact(p: Ports, core: Core, run: RunId, it: nat, t: Turn): Progress<Turn> {
    match core.compaction
    case None => Again(t)
    case Some(ext) =>
      match Fit(ext.compactor, p.request(it, t.transcript), None, p.summarize(it))
      case Err(e) => Broken(t, e)
      case Ok(None) => Again(t)
      case Ok(Some(fitted)) =>
        match fitted.summaryWrite
        case None => Again(t)
        case Some((summary, upto)) =>
          if !p.headReplaced(it) then Broken(t, "replace_head failed")
          else Again(Wrote(run, t, HeadWrite(ext.run, summary, upto)))
  }

  /** Compaction fails with the summarizer or the store, or replaces a head exactly when a summary
      call completes. */
  lemma CompactForms(p: Ports, core: Core, run: RunId, it: nat, t: Turn)
    requires core.compaction.Some?
    ensures var ext, request := core.compaction.value, p.request(it, t.transcript);
            var fit := Fit(ext.compactor, request, None, p.summarize(it));
            var call := CallOf(ext.compactor, request, None, p.summarize(it));
            Compact(p, core, run, it, t)
            == if fit.Err? then Broken(t, fit.error)
               else if call.None? then Again(t)
               else if !p.headReplaced(it) then Broken(t, "replace_head failed")
               else Again(Wrote(run, t, HeadWrite(ext.run, call.value.summary, call.value.upto)))
  {
    var ext := core.compaction.value;
    WriteIsCall(ext.compactor, p.request(it, t.transcript), None, p.summarize(it));
  }

  /** Compaction replaces a head and changes nothing else of the turn. */
  lemma CompactWritesOnly(p: Ports, core: Core, run: RunId, it: nat, t: Turn)
    ensures var res := Compact(p, core, run, it, t);
            && !res.Done?
            && (res.Again? ==> res.value == t.(transcript := res.value.transcript, foreign := res.value.foreign))
            && (res.Broken? ==> res.turn == t)
  {
  }

  /** Contribute, load, list, and the `before_model` hooks: those before compaction, compaction,
      those after. */
  function Prepare(p: Ports, core: Core, run: RunId, it: nat, t: Turn): Progress<Turn> {
    match p.prepare(it)
    case Err(e) => Broken(t, e)
    case Ok(ShortCircuit) => Stop(t, NoToolCall)
    case Ok(Continue) =>
      match Compact(p, core, run, it, t)
      case Broken(t', e) => Broken(t', e)
      case Done(t') => Done(t')
      case Again(t') =>
        match p.lateHooks(it)
        case Err(e) => Broken(t', e)
        case Ok(ShortCircuit) => Stop(t', NoToolCall)
        case Ok(Continue) => Again(t')
  }

  function LastPendingAssistant(history: seq<Message>): Option<Message> {
    if history == [] then None
    else
      var last := history[|history| - 1];
      if last.role == Assistant && HasToolUse(last) then Some(last) else None
  }

  /** The message of this iteration: what it is, what it cost, the new total, and the turn. */
  datatype Heard = Heard(message: Message, stepTokens: nat, tokens: nat, turn: Turn)

  /** The turn once a reply is stored and emitted, with its usage. */
  function AfterReply(t: Turn, it: nat, m: Message, tokens: nat): Turn {
    Emit(Post(t.(modelCalls := t.modelCalls + 1, usages := t.usages + [tokens]), FromModel(it), m), UsageEvent(tokens))
  }

  function AskModel(p: Ports, st: LoopState, t: Turn): Progress<Heard> {
    var called := t.(modelCalls := t.modelCalls + 1);
    match p.model(st.iteration)
    case ModelFailed(e) => Broken(called, e)
    case CancelledMidCall => Stop(called, Halted)
    case Replied(m, tokens) =>
      if !p.replyStored(st.iteration) then Broken(called.(usages := called.usages + [tokens]), "append failed")
      else
        var heard := AfterReply(t, st.iteration, m, tokens);
        match p.afterRound(st.iteration)
        case Err(e) => Broken(heard, e)
        case Ok(ShortCircuit) => Stop(heard, NoToolCall)
        case Ok(Continue) => Again(Heard(m, tokens, SaturatingAdd(st.tokens, tokens), heard))
  }

  /** Whether this iteration executes a pending message instead of asking the model. */
  function Pending(core: Core, req: TurnRequest, it: nat, history: seq<Message>): Option<Message> {
    if core.resumeExecutesPending && it == StartIteration(req) && req.seed.Resume?
    then LastPendingAssistant(history) else None
  }

  function Hear(
      p: Ports, core: Core, req: TurnRequest, st: LoopState, history: seq<Message>, t: Turn): Progress<Heard> {
    match Pending(core, req, st.iteration, history)
    case Some(m) => Again(Heard(m, 0, st.tokens, t))
    case None => AskModel(p, st, t)
  }

  /** Why the requested round may not run, if so. */
  function RoundStop(p: Ports, core: Core, it: nat, heard: Heard): Option<StopReason> {
    if p.cancelledAfterReply(it) then Some(Halted)
    else if heard.tokens > core.limits.perRunTokenCap then Some(TokenCap)
    else if heard.stepTokens > core.limits.perStepTokenCap then Some(TokenCap)
    else if it >= core.limits.maxSteps then Some(IterationCap)
    else None
  }

  /** What follows the message: a final answer, a refused round, or a round. */
  function Act(p: Ports, core: Core, run: RunId, h: Handler, it: nat, heard: Heard): Progress<LoopState> {
    var calls := Calls(heard.message);
    if calls == [] then Stop(heard.turn, NoToolCall)
    else match RoundStop(p, core, it, heard)
         case Some(reason) =>
           (match RefuseCalls(p, it, calls, 0, reason, heard.turn)
            case Again(t) => Stop(t, reason)
            case Broken(t, e) => Broken(t, e))
         case None =>
           match RunCalls(p, core, run, h, it, calls, 0, Round(heard.turn, false, 0, 0))
           case Broken(t, e) => Broken(t, e)
           case Again(r) =>
             if r.suspended then Stop(r.turn, Halted)
             else if r.executed > 0 && r.terminals == r.executed then Stop(r.turn, NoToolCall)
             else Again(LoopState(it + 1, heard.tokens, r.turn))
  }

  /** One pass of the loop body. */
  function Iterate(p: Ports, core: Core, req: TurnRequest, h: Handler, st: LoopState): Progress<LoopState> {
    match Enter(p, core, st)
    case Done(t) => Done(t)
    case Broken(t, e) => Broken(t, e)
    case Again(entered) =>
      match Prepare(p, core, req.run, st.iteration, entered)
      case Done(t) => Done(t)
      case Broken(t, e) => Broken(t, e)
      case Again(prepared) =>
        match Hear(p, core, req, st, entered.transcript, prepared)
        case Done(t) => Done(t)
        case Broken(t, e) => Broken(t, e)
        case Again(heard) => Act(p, core, req.run, h, st.iteration, heard)
  }

  // ----- the loop -----

  /** Only an iteration within the step limit goes on to another. */
  lemma IterateAdvances(p: Ports, core: Core, req: TurnRequest, h: Handler, st: LoopState)
    requires Iterate(p, core, req, h, st).Again?
    ensures Iterate(p, core, req, h, st).value.iteration == st.iteration + 1
    ensures st.iteration < core.limits.maxSteps
  {
  }

  /** How the run ends from a loop head. */
  function Loop(p: Ports, core: Core, req: TurnRequest, h: Handler, st: LoopState): (res: Progress<LoopState>)
    ensures !res.Again?
    decreases SaturatingSub(core.limits.maxSteps, st.iteration)
  {
    match Iterate(p, core, req, h, st)
    case Done(t) => Done(t)
    case Broken(t, e) => Broken(t, e)
    case Again(st') =>
      IterateAdvances(p, core, req, h, st);
      Loop(p, core, req, h, st')
  }

  function Started(req: TurnRequest, transcript: seq<Message>): LoopState {
    var t := NewTurn(transcript);
    LoopState(StartIteration(req), 0, if req.seed.NewMessage? then Say(t, FromSeed, req.seed.message) else t)
  }

  /** `AgentCore::run`; `seedStored` says whether the seed's append succeeds. */
  function RunTurn(
      p: Ports, core: Core, req: TurnRequest, h: Handler, transcript: seq<Message>,
      seedStored: bool): (res: Progress<LoopState>)
    ensures !res.Again?
  {
    if req.seed.NewMessage? && !seedStored then Broken(NewTurn(transcript), "append failed")
    else Loop(p, core, req, h, Started(req, transcript))
  }
}
