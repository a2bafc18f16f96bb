/** What every run of the loop keeps: its record, the approval of its calls, its budget
    (agent-core/src/core.rs:336-740, agent-core/src/budget.rs:33-56). */
module LoopRecord {
  import opened Wrappers
  import opened Chat
  import opened Pairing
  import opened Approval
  import opened Budget
  import opened AgentLoop

  // ----- views of the record -----

  function Messages(evs: seq<Event>): seq<Message> {
    if evs == [] then []
    else
      var last := evs[|evs| - 1];
      Messages(evs[..|evs| - 1]) + if last.MessageEvent? then [last.message] else []
  }

  function UsagesOf(evs: seq<Event>): seq<nat> {
    if evs == [] then []
    else
      var last := evs[|evs| - 1];
      UsagesOf(evs[..|evs| - 1]) + if last.UsageEvent? then [last.tokens] else []
  }

  function LoopMessages(entries: seq<Entry>): seq<Message> {
    if entries == [] then []
    else
      var last := entries[|entries| - 1];
      LoopMessages(entries[..|entries| - 1]) + if IsLoopOrigin(last.origin) then [last.message] else []
  }

  predicate IsLoopOrigin(o: Origin) { o.FromModel? || o.FromCall? || o.FromRefusal? }
  predicate IsCallEntry(e: Entry) { e.origin.FromCall? }

  /** What answers a journalled call: a tool message of one block, with the call's id and name and
      the reply's content and error flag. */
  function ResultEntry(rec: ToolCallRecord): Entry {
    Entry(FromCall(rec.key.iteration, rec.key.ordinal),
          Message(Tool, [ToolResult(rec.call.id, Some(rec.call.name), rec.reply.content, Some(rec.reply.isError))]))
  }

  /** The messages appended for executed calls are the answers of the journal, in order. */
  ghost predicate Answered(appended: seq<Entry>, journal: seq<ToolCallRecord>) {
    Filter(IsCallEntry, appended) == Map(ResultEntry, journal)
  }

  ghost predicate NoStop(evs: seq<Event>) {
    forall i :: 0 <= i < |evs| ==> !evs[i].Stopped?
  }

  predicate Before(a: Execution, it: nat, ord: nat) {
    a.iteration < it || (a.iteration == it && a.ordinal < ord)
  }

  /** The executions are in strictly increasing order of (iteration, ordinal), all before the
      given place. */
  ghost predicate Ordered(ex: seq<Execution>, it: nat, ord: nat) {
    && (forall i :: 0 <= i < |ex| ==> Before(ex[i], it, ord))
    && (forall i, j :: 0 <= i < j < |ex| ==> Before(ex[i], ex[j].iteration, ex[j].ordinal))
  }

  /** The journal lists the executed calls, in order, under their own keys. */
  ghost predicate Journalled(run: RunId, journal: seq<ToolCallRecord>, ex: seq<Execution>) {
    && |journal| == |ex|
    && forall i :: 0 <= i < |ex| ==>
         journal[i].key == Key(run, ex[i].iteration, ex[i].ordinal) && journal[i].call == ex[i].call
  }

  ghost predicate Recorded(run: RunId, it: nat, ord: nat, t: Turn) {
    && NoStop(t.events) && Messages(t.events) == LoopMessages(t.appended) && UsagesOf(t.events) == t.usages
    && Journalled(run, t.journal, t.executed) && Ordered(t.executed, it, ord)
    && Answered(t.appended, t.journal)
  }

  /** A finished record: the only stop event is the tail. */
  ghost predicate Closed(run: RunId, t: Turn) {
    && t.events != [] && t.events[|t.events| - 1].Stopped? && NoStop(t.events[..|t.events| - 1])
    && Messages(t.events) == LoopMessages(t.appended) && UsagesOf(t.events) == t.usages
    && Journalled(run, t.journal, t.executed) && Answered(t.appended, t.journal)
    && exists it: nat, ord: nat :: Ordered(t.executed, it, ord)
  }

  lemma EmitRecord(t: Turn, ev: Event)
    ensures Messages(Emit(t, ev).events) == Messages(t.events) + if ev.MessageEvent? then [ev.message] else []
    ensures UsagesOf(Emit(t, ev).events) == UsagesOf(t.events) + if ev.UsageEvent? then [ev.tokens] else []
  {
    assert Emit(t, ev).events[..|t.events|] == t.events;
  }

  lemma SayRecord(t: Turn, origin: Origin, m: Message)
    ensures LoopMessages(Say(t, origin, m).appended)
         == LoopMessages(t.appended) + if IsLoopOrigin(origin) then [m] else []
  {
    assert Say(t, origin, m).appended[..|t.appended|] == t.appended;
  }

  lemma AnsweredSnoc(appended: seq<Entry>, journal: seq<ToolCallRecord>, e: Entry)
    requires Answered(appended, journal)
    ensures !IsCallEntry(e) ==> Answered(appended + [e], journal)
    ensures forall rec :: e == ResultEntry(rec) ==> Answered(appended + [e], journal + [rec])
  {
    FilterConcat(IsCallEntry, appended, [e]);
    assert [e][1..] == [];
    forall rec | e == ResultEntry(rec)
      ensures Answered(appended + [e], journal + [rec])
    {
      assert Map(ResultEntry, journal + [rec]) == Map(ResultEntry, journal) + [ResultEntry(rec)];
    }
  }

  lemma PostKeepsRecord(run: RunId, it: nat, ord: nat, t: Turn, origin: Origin, m: Message)
    requires Recorded(run, it, ord, t) && IsLoopOrigin(origin) && !origin.FromCall?
    ensures Recorded(run, it, ord, Post(t, origin, m))
  {
    SayRecord(t, origin, m);
    EmitRecord(Say(t, origin, m), MessageEvent(m));
    AnsweredSnoc(t.appended, t.journal, Entry(origin, m));
  }

  lemma StopClosesRecord(run: RunId, it: nat, ord: nat, t: Turn, reason: StopReason)
    requires Recorded(run, it, ord, t)
    ensures Closed(run, Emit(t, Stopped(reason)))
  {
    EmitRecord(t, Stopped(reason));
    assert Emit(t, Stopped(reason)).events[..|t.events|] == t.events;
  }

  lemma LaterPlace(run: RunId, it: nat, ord: nat, it': nat, ord': nat, t: Turn)
    requires Recorded(run, it, ord, t) && (it < it' || (it == it' && ord <= ord'))
    ensures Recorded(run, it', ord', t)
  {
  }

  lemma SettleKeepsRecord(
      p: Ports, run: RunId, it: nat, ord: nat, call: ToolCall, reply: ToolReply, isCore: bool, r: Round)
    requires Recorded(run, it, ord, r.turn) && Settle(p, run, it, ord, call, reply, isCore, r).Again?
    ensures Recorded(run, it, ord + 1, Settle(p, run, it, ord, call, reply, isCore, r).value.turn)
  {
    var t, e := r.turn, Execution(it, ord, call, isCore);
    var rec, m := ToolCallRecord(Key(run, it, ord), call, reply), ToolResultMessage(call, reply);
    var t2 := t.(executed := t.executed + [e], journal := t.journal + [rec]);
    OrderedSnoc(t.executed, e);
    JournalledSnoc(run, t.journal, t.executed, e, reply);
    SayRecord(t2, FromCall(it, ord), m);
    EmitRecord(Say(t2, FromCall(it, ord), m), MessageEvent(m));
    AnsweredSnoc(t.appended, t.journal, Entry(FromCall(it, ord), m));
    assert ResultEntry(rec) == Entry(FromCall(it, ord), m);
  }

  lemma OrderedSnoc(ex: seq<Execution>, e: Execution)
    requires Ordered(ex, e.iteration, e.ordinal)
    ensures Ordered(ex + [e], e.iteration, e.ordinal + 1)
  {
  }

  lemma JournalledSnoc(run: RunId, journal: seq<ToolCallRecord>, ex: seq<Execution>, e: Execution, reply: ToolReply)
    requires Journalled(run, journal, ex)
    ensures Journalled(run, journal + [ToolCallRecord(Key(run, e.iteration, e.ordinal), e.call, reply)], ex + [e])
  {
  }

  lemma GatedCallKeepsRecord(p: Ports, core: Core, run: RunId, h: Handler, it: nat, ord: nat, call: ToolCall, r: Round)
    requires Recorded(run, it, ord, r.turn) && !IsCoreCall(call)
    requires DecisionFor(p, core, it, ord, call) == Prompt || DecisionFor(p, core, it, ord, call) == Review
    requires RunCall(p, core, run, h, it, ord, call, r).Again?
    ensures Recorded(run, it, ord + 1, RunCall(p, core, run, h, it, ord, call, r).value.turn)
  {
    GateForms(p, core, run, h, it, ord, call, r);
    GatedKeepsRecord(p, run, it, ord, call, p.gate(it, ord).value, Asked(r, it, ord, p.gate(it, ord).value));
  }

  lemma GatedKeepsRecord(p: Ports, run: RunId, it: nat, ord: nat, call: ToolCall, outcome: GateOutcome, r: Round)
    requires Recorded(run, it, ord, r.turn) && Gated(p, run, it, ord, call, outcome, r).Again?
    ensures Recorded(run, it, ord + 1, Gated(p, run, it, ord, call, outcome, r).value.turn)
  {
    LaterPlace(run, it, ord, it, ord + 1, r.turn);
    if IsApproval(outcome) {
      SettleKeepsRecord(p, run, it, ord, call, ReplyOf(p, it, ord), false, r);
    } else if outcome.Suspended? {
      EmitRecord(r.turn, GateOpened(outcome.ticket));
    } else {
      PostKeepsRecord(run, it, ord + 1, r.turn, FromRefusal(it, ord),
                      ToolResultMessage(call, ErrorReply("denied by human reviewer")));
    }
  }

  lemma RunCallKeepsRecord(p: Ports, core: Core, run: RunId, h: Handler, it: nat, ord: nat, call: ToolCall, r: Round)
    requires Recorded(run, it, ord, r.turn) && RunCall(p, core, run, h, it, ord, call, r).Again?
    ensures Recorded(run, it, ord + 1, RunCall(p, core, run, h, it, ord, call, r).value.turn)
  {
    if IsCoreCall(call) {
      HeadWritesOnly(run, r.turn, h(it, ord, call).writes);
      var r' := r.(turn := WroteAll(run, r.turn, h(it, ord, call).writes));
      SettleKeepsRecord(p, run, it, ord, call, h(it, ord, call).reply, true, r');
    } else if DecisionFor(p, core, it, ord, call) == Auto {
      SettleKeepsRecord(p, run, it, ord, call, ReplyOf(p, it, ord), false, r);
    } else if DecisionFor(p, core, it, ord, call) == Deny {
      LaterPlace(run, it, ord, it, ord + 1, r.turn);
      PostKeepsRecord(run, it, ord + 1, r.turn, FromRefusal(it, ord),
                      ToolResultMessage(call, ErrorReply("denied by approval policy")));
    } else {
      GatedCallKeepsRecord(p, core, run, h, it, ord, call, r);
    }
  }

  lemma {:induction false} RunCallsKeepsRecord(
      p: Ports, core: Core, run: RunId, h: Handler, it: nat, calls: seq<ToolCall>, ord: nat, r: Round)
    requires ord <= |calls| && Recorded(run, it, ord, r.turn) && RunCalls(p, core, run, h, it, calls, ord, r).Again?
    ensures Recorded(run, it, |calls|, RunCalls(p, core, run, h, it, calls, ord, r).value.turn)
    decreases |calls| - ord
  {
    if ord < |calls| {
      RunCallKeepsRecord(p, core, run, h, it, ord, calls[ord], r);
      RunCallsKeepsRecord(p, core, run, h, it, calls, ord + 1, RunCall(p, core, run, h, it, ord, calls[ord], r).value);
    }
  }

  lemma {:induction false} RefuseCallsKeepsRecord(
      p: Ports, run: RunId, it: nat, calls: seq<ToolCall>, ord: nat, reason: StopReason, t: Turn)
    requires ord <= |calls| && Recorded(run, it, 0, t) && RefuseCalls(p, it, calls, ord, reason, t).Again?
    ensures Recorded(run, it, 0, RefuseCalls(p, it, calls, ord, reason, t).value)
    decreases |calls| - ord
  {
    if ord < |calls| {
      var why := "tool not executed: agent stopped (" + ReasonName(reason) + ")";
      PostKeepsRecord(run, it, 0, t, FromRefusal(it, ord), ToolResultMessage(calls[ord], ErrorReply(why)));
      RefuseCallsKeepsRecord(p, run, it, calls, ord + 1, reason, Refuse(p, it, ord, calls[ord], why, t).value);
    }
  }

  lemma {:induction false} AppendNotesKeepsRecord(p: Ports, run: RunId, it: nat, notes: seq<string>, i: nat, t: Turn)
    requires i <= |notes| && Recorded(run, it, 0, t) && AppendNotes(p, it, notes, i, t).Again?
    ensures Recorded(run, it, 0, AppendNotes(p, it, notes, i, t).value)
    decreases |notes| - i
  {
    if i < |notes| {
      var m := UserMessage("[steering] " + notes[i]);
      SayRecord(t, FromSteering(it, i), m);
      AnsweredSnoc(t.appended, t.journal, Entry(FromSteering(it, i), m));
      AppendNotesKeepsRecord(p, run, it, notes, i + 1, Say(t, FromSteering(it, i), m));
    }
  }

  /** A turn passed through a phase: recorded while it goes on, closed where it stops. */
  ghost predicate PhaseRecorded<T>(run: RunId, it: nat, res: Progress<T>, turnOf: T -> Turn) {
    match res
    case Again(v) => Recorded(run, it, 0, turnOf(v))
    case Done(t) => Closed(run, t)
    case Broken(_, _) => true
  }

  lemma EnterKeepsRecord(p: Ports, core: Core, run: RunId, st: LoopState)
    requires Recorded(run, st.iteration, 0, st.turn)
    ensures PhaseRecorded(run, st.iteration, Enter(p, core, st), (t: Turn) => t)
  {
    var it, t := st.iteration, st.turn;
    if p.cancelledAtHead(it) {
      StopClosesRecord(run, it, 0, t, Halted);
    } else if StopBefore(core.limits, st.tokens, it).Some? {
      StopClosesRecord(run, it, 0, t, StopBefore(core.limits, st.tokens, it).value);
    } else if p.notes(it).Ok? && AppendNotes(p, it, p.notes(it).value, 0, t).Again? {
      AppendNotesKeepsRecord(p, run, it, p.notes(it).value, 0, t);
    }
  }

  lemma PrepareKeepsRecord(p: Ports, core: Core, run: RunId, it: nat, t: Turn)
    requires Recorded(run, it, 0, t)
    ensures PhaseRecorded(run, it, Prepare(p, core, run, it, t), (t: Turn) => t)
  {
    match p.prepare(it) {
      case Err(_) =>
      case Ok(ShortCircuit) => StopClosesRecord(run, it, 0, t, NoToolCall);
      case Ok(Continue) =>
        if Compact(p, core, run, it, t).Again? {
          var t' := Compact(p, core, run, it, t).value;
          CompactWritesOnly(p, core, run, it, t);
          if p.lateHooks(it) == Ok(ShortCircuit) { StopClosesRecord(run, it, 0, t', NoToolCall); }
        } else {
          CompactWritesOnly(p, core, run, it, t);
        }
    }
  }

  lemma ReplyKeepsRecord(run: RunId, it: nat, t: Turn, m: Message, tokens: nat)
    requires Recorded(run, it, 0, t)
    ensures Recorded(run, it, 0, AfterReply(t, it, m, tokens))
  {
    var t1 := t.(modelCalls := t.modelCalls + 1);
    PostKeepsRecord(run, it, 0, t1, FromModel(it), m);
    EmitRecord(Post(t1, FromModel(it), m), UsageEvent(tokens));
  }

  lemma HearKeepsRecord(p: Ports, core: Core, req: TurnRequest, st: LoopState, history: seq<Message>, t: Turn)
    requires Recorded(req.run, st.iteration, 0, t)
    ensures PhaseRecorded(req.run, st.iteration, Hear(p, core, req, st, history, t), (h: Heard) => h.turn)
  {
    if Pending(core, req, st.iteration, history).None? {
      var t1 := t.(modelCalls := t.modelCalls + 1);
      match p.model(st.iteration) {
        case ModelFailed(_) =>
        case CancelledMidCall => StopClosesRecord(req.run, st.iteration, 0, t1, Halted);
        case Replied(m, tokens) =>
          ReplyKeepsRecord(req.run, st.iteration, t, m, tokens);
          StopClosesRecord(req.run, st.iteration, 0, AfterReply(t, st.iteration, m, tokens), NoToolCall);
      }
    }
  }

  lemma ActKeepsRecord(p: Ports, core: Core, run: RunId, h: Handler, it: nat, heard: Heard)
    requires Recorded(run, it, 0, heard.turn)
    ensures PhaseRecorded(run, it + 1, Act(p, core, run, h, it, heard), (st: LoopState) => st.turn)
  {
    var calls := Calls(heard.message);
    if calls == [] {
      StopClosesRecord(run, it, 0, heard.turn, NoToolCall);
    } else if RoundStop(p, core, it, heard).Some? {
      var reason := RoundStop(p, core, it, heard).value;
      if RefuseCalls(p, it, calls, 0, reason, heard.turn).Again? {
        RefuseCallsKeepsRecord(p, run, it, calls, 0, reason, heard.turn);
        StopClosesRecord(run, it, 0, RefuseCalls(p, it, calls, 0, reason, heard.turn).value, reason);
      }
    } else {
      var res := RunCalls(p, core, run, h, it, calls, 0, Round(heard.turn, false, 0, 0));
      if res.Again? {
        RunCallsKeepsRecord(p, core, run, h, it, calls, 0, Round(heard.turn, false, 0, 0));
        var t := res.value.turn;
        StopClosesRecord(run, it, |calls|, t, Halted);
        StopClosesRecord(run, it, |calls|, t, NoToolCall);
        LaterPlace(run, it, |calls|, it + 1, 0, t);
      }
    }
  }

  lemma IterateKeepsRecord(p: Ports, core: Core, req: TurnRequest, h: Handler, st: LoopState)
    requires Recorded(req.run, st.iteration, 0, st.turn)
    ensures PhaseRecorded(req.run, st.iteration + 1, Iterate(p, core, req, h, st), (st: LoopState) => st.turn)
  {
    EnterKeepsRecord(p, core, req.run, st);
    if Enter(p, core, st).Again? {
      var entered := Enter(p, core, st).value;
      PrepareKeepsRecord(p, core, req.run, st.iteration, entered);
      if Prepare(p, core, req.run, st.iteration, entered).Again? {
        var prepared := Prepare(p, core, req.run, st.iteration, entered).value;
        HearKeepsRecord(p, core, req, st, entered.transcript, prepared);
        if Hear(p, core, req, st, entered.transcript, prepared).Again? {
          ActKeepsRecord(p, core, req.run, h, st.iteration, Hear(p, core, req, st, entered.transcript, prepared).value);
        }
      }
    }
  }

  lemma {:induction false} LoopKeepsRecord(p: Ports, core: Core, req: TurnRequest, h: Handler, st: LoopState)
    requires Recorded(req.run, st.iteration, 0, st.turn)
    ensures Loop(p, core, req, h, st).Done? ==> Closed(req.run, Loop(p, core, req, h, st).turn)
    decreases SaturatingSub(core.limits.maxSteps, st.iteration)
  {
    IterateKeepsRecord(p, core, req, h, st);
    var res := Iterate(p, core, req, h, st);
    if res.Again? {
      IterateAdvances(p, core, req, h, st);
      LoopKeepsRecord(p, core, req, h, res.value);
    }
  }

  /** Every clean run: one stop event, as the tail; message events are the appended messages but
      the seed and the steering notes; usage events are the model calls'; the journal is the
      executed calls, in order, under strictly increasing keys; and what was appended for executed
      calls is, in order, the journal's replies. */
  lemma RunRecord(p: Ports, core: Core, req: TurnRequest, h: Handler, transcript: seq<Message>, seedStored: bool)
    requires RunTurn(p, core, req, h, transcript, seedStored).Done?
    ensures Closed(req.run, RunTurn(p, core, req, h, transcript, seedStored).turn)
  {
    var t := NewTurn(transcript);
    if req.seed.NewMessage? {
      SayRecord(t, FromSeed, req.seed.message);
      AnsweredSnoc([], [], Entry(FromSeed, req.seed.message));
    }
    LoopKeepsRecord(p, core, req, h, Started(req, transcript));
  }

  lemma {:induction false} ShownMessage(evs: seq<Event>, m: Message)
    requires m in Messages(evs)
    ensures MessageEvent(m) in evs
  {
    var last := evs[|evs| - 1];
    if last != MessageEvent(m) { ShownMessage(evs[..|evs| - 1], m); }
  }

  lemma {:induction false} LoopMessageOf(entries: seq<Entry>, e: Entry)
    requires e in entries && IsLoopOrigin(e.origin)
    ensures e.message in LoopMessages(entries)
  {
    if e != entries[|entries| - 1] { LoopMessageOf(entries[..|entries| - 1], e); }
  }

  /** A clean run emits what it was answered: each journalled reply is the content of a tool
      message among its events. */
  lemma RunShowsReplies(p: Ports, core: Core, req: TurnRequest, h: Handler, transcript: seq<Message>, seedStored: bool)
    requires RunTurn(p, core, req, h, transcript, seedStored).Done?
    ensures var t := RunTurn(p, core, req, h, transcript, seedStored).turn;
            forall i :: 0 <= i < |t.journal| ==>
              var call, reply := t.journal[i].call, t.journal[i].reply;
              MessageEvent(Message(Tool, [ToolResult(call.id, Some(call.name), reply.content, Some(reply.isError))]))
              in t.events
  {
    var t := RunTurn(p, core, req, h, transcript, seedStored).turn;
    RunRecord(p, core, req, h, transcript, seedStored);
    forall i | 0 <= i < |t.journal|
      ensures MessageEvent(ResultEntry(t.journal[i]).message) in t.events
    {
      assert Map(ResultEntry, t.journal)[i] == ResultEntry(t.journal[i]);
      assert ResultEntry(t.journal[i]) in Filter(IsCallEntry, t.appended);
      LoopMessageOf(t.appended, ResultEntry(t.journal[i]));
      ShownMessage(t.events, ResultEntry(t.journal[i]).message);
    }
  }

  /** Two journal entries never share a key. */
  lemma JournalKeysDiffer(run: RunId, t: Turn, i: nat, j: nat)
    requires Closed(run, t) && i < j < |t.journal|
    ensures t.journal[i].key != t.journal[j].key
  {
    var it: nat, ord: nat :| Ordered(t.executed, it, ord);
    assert Before(t.executed[i], t.executed[j].iteration, t.executed[j].ordinal);
  }
}
