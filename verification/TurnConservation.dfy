/** Conservation for the loop itself: a turn is a run of appends and compactions over its
    transcript (agent-core/src/core.rs:345-741, agent-core/src/compaction.rs:682-698). */
module TurnConservation {
  import opened Wrappers
  import opened Chat
  import opened Compaction
  import opened CompactionRuns
  import opened Pairing
  import opened Approval
  import opened Budget
  import opened AgentLoop
  import opened LoopGuarantees
  import opened LoopPairing

  // ----- the compaction passes of a turn -----

  /** A pass over this run's own transcript: the iteration, and the history that it found. */
  datatype Pass = Pass(iteration: nat, history: seq<Message>)

  /** The pass that compaction comes to, unless it ends the turn or belongs to another run. */
  function PassOf(p: Ports, core: Core, run: RunId, it: nat, t: Turn): seq<Pass> {
    if core.compaction.Some? && core.compaction.value.run == run && Compact(p, core, run, it, t).Again?
    then [Pass(it, t.transcript)] else []
  }

  function PreparedPass(p: Ports, core: Core, run: RunId, it: nat, t: Turn): seq<Pass> {
    if p.prepare(it) == Ok(Continue) then PassOf(p, core, run, it, t) else []
  }

  function IterationPass(p: Ports, core: Core, run: RunId, st: LoopState): seq<Pass> {
    match Enter(p, core, st)
    case Again(entered) => PreparedPass(p, core, run, st.iteration, entered)
    case _ => []
  }

  /** The passes of a run from a loop head on. */
  function PassesFrom(p: Ports, core: Core, req: TurnRequest, h: Handler, st: LoopState): seq<Pass>
    decreases SaturatingSub(core.limits.maxSteps, st.iteration)
  {
    IterationPass(p, core, req.run, st)
    + match Iterate(p, core, req, h, st)
      case Again(st') =>
        IterateAdvances(p, core, req, h, st);
        PassesFrom(p, core, req, h, st')
      case _ => []
  }

  function TurnPasses(
      p: Ports, core: Core, req: TurnRequest, h: Handler, transcript: seq<Message>, seedStored: bool): seq<Pass> {
    if req.seed.NewMessage? && !seedStored then [] else PassesFrom(p, core, req, h, Started(req, transcript))
  }

  // ----- invariants of transcript and appended messages -----

  type Invariant = (seq<Message>, seq<Entry>) -> bool

  ghost predicate Holds(ok: Invariant, t: Turn) { ok(t.transcript, t.appended) }

  /** Appending keeps it. */
  ghost predicate IsAppendable(ok: Invariant) {
    forall tr, ap, origin, m :: ok(tr, ap) && NotSystem(m) ==> ok(tr + [m], ap + [Entry(origin, m)])
  }

  /** An invariant for each list of passes made so far, which appending keeps. */
  type History = seq<Pass> -> Invariant

  ghost predicate IsOpen(ok: History) { forall ps :: IsAppendable(ok(ps)) }

  /** Compaction leads from the invariant for the passes so far to the one with its own. */
  ghost predicate IsKept(ok: History, p: Ports, core: Core, run: RunId) {
    forall ps, it: nat, t: Turn :: Holds(ok(ps), t) ==>
      Holds(ok(ps + PassOf(p, core, run, it, t)), TurnOf(Compact(p, core, run, it, t), (t: Turn) => t))
  }

  ghost predicate RepliesPlainly(p: Ports) {
    forall it: nat :: p.model(it).Replied? ==> NotSystem(p.model(it).message)
  }

  lemma SayKeepsInvariant(ok: Invariant, t: Turn, origin: Origin, m: Message)
    requires Holds(ok, t) && IsAppendable(ok) && NotSystem(m)
    ensures Holds(ok, Say(t, origin, m))
  {
  }

  lemma {:induction false} NotesKeepInvariant(ok: Invariant, p: Ports, it: nat, notes: seq<string>, i: nat, t: Turn)
    requires i <= |notes| && Holds(ok, t) && IsAppendable(ok)
    ensures Holds(ok, TurnOf(AppendNotes(p, it, notes, i, t), (t: Turn) => t))
    decreases |notes| - i
  {
    if i < |notes| && p.noteStored(it, i) {
      var m := UserMessage("[steering] " + notes[i]);
      SayKeepsInvariant(ok, t, FromSteering(it, i), m);
      NotesKeepInvariant(ok, p, it, notes, i + 1, Say(t, FromSteering(it, i), m));
    }
  }

  lemma EnterKeepsInvariant(ok: Invariant, p: Ports, core: Core, st: LoopState)
    requires Holds(ok, st.turn) && IsAppendable(ok)
    ensures Holds(ok, TurnOf(Enter(p, core, st), (t: Turn) => t))
  {
    if p.notes(st.iteration).Ok? { NotesKeepInvariant(ok, p, st.iteration, p.notes(st.iteration).value, 0, st.turn); }
  }

  lemma PrepareKeepsInvariant(
      ok: History, ps: seq<Pass>, p: Ports, core: Core, run: RunId, it: nat, t: Turn)
    requires Holds(ok(ps), t) && IsKept(ok, p, core, run)
    ensures Holds(ok(ps + PreparedPass(p, core, run, it, t)), TurnOf(Prepare(p, core, run, it, t), (t: Turn) => t))
  {
    if p.prepare(it) == Ok(Continue) {
      assert Holds(ok(ps + PassOf(p, core, run, it, t)), TurnOf(Compact(p, core, run, it, t), (t: Turn) => t));
      CompactWritesOnly(p, core, run, it, t);
    } else {
      assert ps + [] == ps;
    }
  }

  lemma HearKeepsInvariant(
      ok: Invariant, p: Ports, core: Core, req: TurnRequest, st: LoopState, history: seq<Message>, t: Turn)
    requires Holds(ok, t) && IsAppendable(ok) && RepliesPlainly(p)
    ensures Holds(ok, TurnOf(Hear(p, core, req, st, history, t), (h: Heard) => h.turn))
  {
    var t' := TurnOf(Hear(p, core, req, st, history, t), (h: Heard) => h.turn);
    if t'.appended != t.appended { SayKeepsInvariant(ok, t, FromModel(st.iteration), p.model(st.iteration).message); }
  }

  /** One result more, or nothing. */
  ghost predicate SaysAtMost(t: Turn, t': Turn) {
    || (t'.transcript == t.transcript && t'.appended == t.appended)
    || exists e: Entry :: NotSystem(e.message) && t'.transcript == t.transcript + [e.message]
                          && t'.appended == t.appended + [e]
  }

  lemma SaidKeepsInvariant(ok: Invariant, t: Turn, t': Turn)
    requires Holds(ok, t) && IsAppendable(ok) && SaysAtMost(t, t')
    ensures Holds(ok, t')
  {
    if !(t'.transcript == t.transcript && t'.appended == t.appended) {
      var e: Entry :| NotSystem(e.message) && t'.transcript == t.transcript + [e.message]
                      && t'.appended == t.appended + [e];
      SayKeepsInvariant(ok, t, e.origin, e.message);
    }
  }

  lemma SettleSays(p: Ports, run: RunId, it: nat, ord: nat, call: ToolCall, reply: ToolReply, isCore: bool, r: Round)
    ensures SaysAtMost(r.turn, TurnOf(Settle(p, run, it, ord, call, reply, isCore, r), (r: Round) => r.turn))
  {
    var m := ToolResultMessage(call, reply);
    assert NotSystem(m);
  }

  lemma RefusalSays(p: Ports, it: nat, ord: nat, call: ToolCall, reason: string, r: Round)
    ensures SaysAtMost(r.turn, TurnOf(RefuseInRound(p, it, ord, call, reason, r), (r: Round) => r.turn))
  {
    var m := ToolResultMessage(call, ErrorReply(reason));
    assert NotSystem(m);
  }

  lemma RunCallSays(p: Ports, core: Core, run: RunId, h: Handler, it: nat, ord: nat, call: ToolCall, r: Round)
    requires Harmless(h, run)
    ensures SaysAtMost(r.turn, TurnOf(RunCall(p, core, run, h, it, ord, call, r), (r: Round) => r.turn))
  {
    if IsCoreCall(call) {
      var handled := h(it, ord, call);
      ForeignWrites(run, r.turn, handled.writes);
      SettleSays(p, run, it, ord, call, handled.reply, true, r.(turn := WroteAll(run, r.turn, handled.writes)));
    } else {
      match DecisionFor(p, core, it, ord, call) {
        case Auto => SettleSays(p, run, it, ord, call, ReplyOf(p, it, ord), false, r);
        case Deny => RefusalSays(p, it, ord, call, "denied by approval policy", r);
        case _ => GatedCallSays(p, core, run, h, it, ord, call, r);
      }
    }
  }

  lemma GatedCallSays(p: Ports, core: Core, run: RunId, h: Handler, it: nat, ord: nat, call: ToolCall, r: Round)
    requires !IsCoreCall(call) && DecisionFor(p, core, it, ord, call) != Auto
    requires DecisionFor(p, core, it, ord, call) != Deny
    ensures SaysAtMost(r.turn, TurnOf(RunCall(p, core, run, h, it, ord, call, r), (r: Round) => r.turn))
  {
    if p.gate(it, ord).Ok? {
      var outcome := p.gate(it, ord).value;
      var r1 := r.(turn := r.turn.(asked := r.turn.asked + [Asking(it, ord, outcome)]));
      if IsApproval(outcome) {
        SettleSays(p, run, it, ord, call, ReplyOf(p, it, ord), false, r1);
      } else if !outcome.Suspended? {
        RefusalSays(p, it, ord, call, "denied by human reviewer", r1);
      }
    }
  }

  lemma {:induction false} RunCallsKeepInvariant(
      ok: Invariant, p: Ports, core: Core, run: RunId, h: Handler, it: nat, calls: seq<ToolCall>, ord: nat, r: Round)
    requires ord <= |calls| && Holds(ok, r.turn) && IsAppendable(ok) && Harmless(h, run)
    ensures Holds(ok, TurnOf(RunCalls(p, core, run, h, it, calls, ord, r), (r: Round) => r.turn))
    decreases |calls| - ord
  {
    if ord < |calls| {
      var res := RunCall(p, core, run, h, it, ord, calls[ord], r);
      RunCallSays(p, core, run, h, it, ord, calls[ord], r);
      SaidKeepsInvariant(ok, r.turn, TurnOf(res, (r: Round) => r.turn));
      if res.Again? { RunCallsKeepInvariant(ok, p, core, run, h, it, calls, ord + 1, res.value); }
    }
  }

  lemma {:induction false} RefuseCallsKeepInvariant(
      ok: Invariant, p: Ports, it: nat, calls: seq<ToolCall>, ord: nat, reason: StopReason, t: Turn)
    requires ord <= |calls| && Holds(ok, t) && IsAppendable(ok)
    ensures Holds(ok, TurnOf(RefuseCalls(p, it, calls, ord, reason, t), (t: Turn) => t))
    decreases |calls| - ord
  {
    if ord < |calls| && p.resultStored(it, ord) {
      var why := "tool not executed: agent stopped (" + ReasonName(reason) + ")";
      var m := ToolResultMessage(calls[ord], ErrorReply(why));
      SayKeepsInvariant(ok, t, FromRefusal(it, ord), m);
      RefuseCallsKeepInvariant(ok, p, it, calls, ord + 1, reason, Post(t, FromRefusal(it, ord), m));
    }
  }

  lemma ActKeepsInvariant(ok: Invariant, p: Ports, core: Core, run: RunId, h: Handler, it: nat, heard: Heard)
    requires Holds(ok, heard.turn) && IsAppendable(ok) && Harmless(h, run)
    ensures Holds(ok, TurnOf(Act(p, core, run, h, it, heard), (st: LoopState) => st.turn))
  {
    var calls := Calls(heard.message);
    if calls != [] {
      if RoundStop(p, core, it, heard).Some? {
        RefuseCallsKeepInvariant(ok, p, it, calls, 0, RoundStop(p, core, it, heard).value, heard.turn);
      } else {
        RunCallsKeepInvariant(ok, p, core, run, h, it, calls, 0, Round(heard.turn, false, 0, 0));
      }
    }
  }

  lemma IterateKeepsInvariant(
      ok: History, ps: seq<Pass>, p: Ports, core: Core, req: TurnRequest, h: Handler, st: LoopState)
    requires Holds(ok(ps), st.turn) && IsOpen(ok) && IsKept(ok, p, core, req.run)
    requires Harmless(h, req.run) && RepliesPlainly(p)
    ensures Holds(ok(ps + IterationPass(p, core, req.run, st)),
                  TurnOf(Iterate(p, core, req, h, st), (st: LoopState) => st.turn))
  {
    EnterKeepsInvariant(ok(ps), p, core, st);
    if Enter(p, core, st).Again? {
      var entered := Enter(p, core, st).value;
      var ps' := ps + PreparedPass(p, core, req.run, st.iteration, entered);
      PrepareKeepsInvariant(ok, ps, p, core, req.run, st.iteration, entered);
      if Prepare(p, core, req.run, st.iteration, entered).Again? {
        var prepared := Prepare(p, core, req.run, st.iteration, entered).value;
        HearKeepsInvariant(ok(ps'), p, core, req, st, entered.transcript, prepared);
        if Hear(p, core, req, st, entered.transcript, prepared).Again? {
          ActKeepsInvariant(ok(ps'), p, core, req.run, h, st.iteration,
                            Hear(p, core, req, st, entered.transcript, prepared).value);
        }
      }
    } else {
      assert ps + [] == ps;
    }
  }

  /** The loop and its passes, unfolded once. */
  lemma PassesStep(p: Ports, core: Core, req: TurnRequest, h: Handler, st: LoopState)
    ensures var own, res := IterationPass(p, core, req.run, st), Iterate(p, core, req, h, st);
            && PassesFrom(p, core, req, h, st)
               == own + (if res.Again? then PassesFrom(p, core, req, h, res.value) else [])
            && Loop(p, core, req, h, st).turn
               == if res.Again? then Loop(p, core, req, h, res.value).turn else res.turn
  {
  }

  lemma {:induction false} LoopKeepsInvariant(
      ok: History, ps: seq<Pass>, p: Ports, core: Core, req: TurnRequest, h: Handler, st: LoopState)
    requires Holds(ok(ps), st.turn) && IsOpen(ok) && IsKept(ok, p, core, req.run)
    requires Harmless(h, req.run) && RepliesPlainly(p)
    ensures Holds(ok(ps + PassesFrom(p, core, req, h, st)), Loop(p, core, req, h, st).turn)
    decreases SaturatingSub(core.limits.maxSteps, st.iteration)
  {
    var own, res := IterationPass(p, core, req.run, st), Iterate(p, core, req, h, st);
    IterateKeepsInvariant(ok, ps, p, core, req, h, st);
    PassesStep(p, core, req, h, st);
    if res.Again? {
      IterateAdvances(p, core, req, h, st);
      LoopKeepsInvariant(ok, ps + own, p, core, req, h, res.value);
      assert ps + own + PassesFrom(p, core, req, h, res.value) == ps + PassesFrom(p, core, req, h, st);
    } else {
      assert own + [] == own;
    }
  }

  // ----- the trace of a turn -----

  /** At most one summary, and no other System message. */
  ghost predicate IsSummarised(t: seq<Message>) {
    && (forall i :: 0 < i < |t| ==> NotSystem(t[i]))
    && (t != [] && IsSystem(t[0]) ==> IsPriorSummary(t[0]))
  }

  /** Requests show the transcript. */
  ghost predicate PassesHistoryOn(p: Ports) {
    forall it: nat, t: seq<Message> {:trigger p.request(it, t)} :: IsSummarised(t) ==> Shows(p.request(it, t), t)
  }

  /** The compactor at work on this run's own transcript, if any, is `c`. */
  ghost predicate Compacts(c: Compactor, core: Core, run: RunId) {
    core.compaction.Some? && core.compaction.value.run == run ==> core.compaction.value.compactor == c
  }

  function EntryMessage(e: Entry): Message { e.message }

  /** The step that a pass is. */
  function PassStep(p: Ports): Pass -> Step {
    (pass: Pass) => Model(p.request(pass.iteration, pass.history), p.summarize(pass.iteration))
  }

  /** `steps` lead from `s0` to the transcript: they append just these messages, in order, and
      pass the compactor over the requests of just these passes, in order. */
  ghost predicate IsTrace(
      c: Compactor, s0: Store, p: Ports, ps: seq<Pass>, transcript: seq<Message>, appended: seq<Entry>,
      steps: seq<Step>)
  {
    && IsRun(c, s0, steps) && Run(c, s0, steps).transcript == transcript
    && Appends(steps) == Map(EntryMessage, appended)
    && ModelSteps(steps) == Map(PassStep(p), ps)
  }

  ghost predicate Traced(
      c: Compactor, s0: Store, p: Ports, ps: seq<Pass>, transcript: seq<Message>, appended: seq<Entry>)
  {
    exists steps :: IsTrace(c, s0, p, ps, transcript, appended, steps)
  }

  lemma MapSnoc<T, U>(f: T -> U, s: seq<T>, x: T)
    ensures Map(f, s + [x]) == Map(f, s) + [f(x)]
  {
  }

  lemma AppendTraced(
      c: Compactor, s0: Store, p: Ports, ps: seq<Pass>, tr: seq<Message>, ap: seq<Entry>, origin: Origin, m: Message)
    requires Traced(c, s0, p, ps, tr, ap) && NotSystem(m)
    ensures Traced(c, s0, p, ps, tr + [m], ap + [Entry(origin, m)])
  {
    var steps :| IsTrace(c, s0, p, ps, tr, ap, steps);
    RunSnoc(c, s0, steps, Append(m));
    StepsSnoc(steps, Append(m));
    MapSnoc(EntryMessage, ap, Entry(origin, m));
    assert IsTrace(c, s0, p, ps, tr + [m], ap + [Entry(origin, m)], steps + [Append(m)]);
  }

  lemma ConservedIsSummarised(c: Compactor, s: Store)
    requires Conserved(c, s)
    ensures IsSummarised(s.transcript)
  {
    SummaryAndBody(Head(s.calls), Body(s));
  }

  lemma SummaryAndBody(head: seq<Message>, body: seq<Message>)
    requires |head| <= 1 && NoSystem(body) && forall m :: m in head ==> IsPriorSummary(m)
    ensures IsSummarised(head + body)
  {
    var t := head + body;
    forall i | |head| <= i < |t|
      ensures NotSystem(t[i])
    {
      assert t[i] == body[i - |head|] && t[i] in body;
    }
    if head != [] { assert t[0] == head[0] && head[0] in head; }
  }

  lemma CompactTraced(
      c: Compactor, s0: Store, p: Ports, core: Core, run: RunId, ps: seq<Pass>, it: nat, t: Turn)
    requires Conserved(c, s0) && PassesHistoryOn(p) && Compacts(c, core, run)
    requires Traced(c, s0, p, ps, t.transcript, t.appended)
    ensures var t' := TurnOf(Compact(p, core, run, it, t), (t: Turn) => t);
            Traced(c, s0, p, ps + PassOf(p, core, run, it, t), t'.transcript, t'.appended)
  {
    var t' := TurnOf(Compact(p, core, run, it, t), (t: Turn) => t);
    CompactWritesOnly(p, core, run, it, t);
    if PassOf(p, core, run, it, t) == [] {
      NoPassNoChange(p, core, run, it, t);
      assert ps + [] == ps;
    } else {
      var steps :| IsTrace(c, s0, p, ps, t.transcript, t.appended, steps);
      PassIsStep(c, p, core, run, it, t, Run(c, s0, steps));
      PassTraced(c, s0, p, ps, Pass(it, t.transcript), t.appended, steps);
    }
  }

  lemma NoPassNoChange(p: Ports, core: Core, run: RunId, it: nat, t: Turn)
    requires PassOf(p, core, run, it, t) == []
    ensures TurnOf(Compact(p, core, run, it, t), (t: Turn) => t).transcript == t.transcript
  {
    CompactWritesOnly(p, core, run, it, t);
    if core.compaction.Some? { CompactForms(p, core, run, it, t); }
  }

  /** A pass over this run's transcript is the store's step. */
  lemma PassIsStep(c: Compactor, p: Ports, core: Core, run: RunId, it: nat, t: Turn, s: Store)
    requires Compacts(c, core, run) && s.transcript == t.transcript && PassOf(p, core, run, it, t) != []
    ensures Next(c, s, PassStep(p)(Pass(it, t.transcript))).transcript
         == TurnOf(Compact(p, core, run, it, t), (t: Turn) => t).transcript
  {
    CompactForms(p, core, run, it, t);
  }

  lemma PassTraced(
      c: Compactor, s0: Store, p: Ports, ps: seq<Pass>, pass: Pass, ap: seq<Entry>, steps: seq<Step>)
    requires Conserved(c, s0) && PassesHistoryOn(p) && IsTrace(c, s0, p, ps, pass.history, ap, steps)
    ensures Traced(c, s0, p, ps + [pass], Next(c, Run(c, s0, steps), PassStep(p)(pass)).transcript, ap)
  {
    RunConserves(c, s0, steps);
    ConservedIsSummarised(c, Run(c, s0, steps));
    RunSnoc(c, s0, steps, PassStep(p)(pass));
    StepsSnoc(steps, PassStep(p)(pass));
    MapSnoc(PassStep(p), ps, pass);
    assert IsTrace(c, s0, p, ps + [pass], Next(c, Run(c, s0, steps), PassStep(p)(pass)).transcript, ap,
                   steps + [PassStep(p)(pass)]);
  }

  lemma RunKeepsInvariant(
      ok: History, p: Ports, core: Core, req: TurnRequest, h: Handler, transcript: seq<Message>, seedStored: bool)
    requires ok([])(transcript, []) && IsOpen(ok) && IsKept(ok, p, core, req.run)
    requires Harmless(h, req.run) && RepliesPlainly(p) && (req.seed.NewMessage? ==> NotSystem(req.seed.message))
    ensures Holds(ok(TurnPasses(p, core, req, h, transcript, seedStored)),
                  RunTurn(p, core, req, h, transcript, seedStored).turn)
  {
    if req.seed.NewMessage? { SayKeepsInvariant(ok([]), NewTurn(transcript), FromSeed, req.seed.message); }
    if !(req.seed.NewMessage? && !seedStored) {
      var st := Started(req, transcript);
      LoopKeepsInvariant(ok, [], p, core, req, h, st);
      assert [] + PassesFrom(p, core, req, h, st) == PassesFrom(p, core, req, h, st);
    }
  }

  /** A turn, however it ends, is a run of the store that keeps a conserved history conserved. Its
      steps append exactly the messages that the turn appended, in order, and are otherwise exactly
      the turn's own compaction passes, each over the request made of the history found in that
      iteration and with that iteration's summarizer. So the run ends with the turn's transcript,
      nothing is lost or duplicated, and the summary calls stay within their amortised bound. The
      next turn goes on from there. */
  lemma TurnConserves(c: Compactor, s0: Store, p: Ports, core: Core, req: TurnRequest, h: Handler, seedStored: bool)
    returns (steps: seq<Step>)
    requires Conserved(c, s0) && PassesHistoryOn(p) && RepliesPlainly(p)
    requires Compacts(c, core, req.run) && Harmless(h, req.run)
    requires req.seed.NewMessage? ==> NotSystem(req.seed.message)
    ensures var t := RunTurn(p, core, req, h, s0.transcript, seedStored).turn;
            && IsRun(c, s0, steps) && Run(c, s0, steps).transcript == t.transcript
            && Appends(steps) == Map(EntryMessage, t.appended)
            && ModelSteps(steps) == Map(PassStep(p), TurnPasses(p, core, req, h, s0.transcript, seedStored))
    ensures var s := Run(c, s0, steps);
            && Conserved(c, s) && s.appended == s0.appended + Appends(steps)
            && s0.segments <= s.segments && s0.calls <= s.calls
            && |s.calls| * c.config.minFreeTokens <= c.Est(s.appended)
  {
    var ok := (ps: seq<Pass>) => (tr: seq<Message>, ap: seq<Entry>) => Traced(c, s0, p, ps, tr, ap);
    TraceStarts(c, s0, p);
    TracedIsKept(c, s0, p, core, req.run, ok);
    RunKeepsInvariant(ok, p, core, req, h, s0.transcript, seedStored);
    var t := RunTurn(p, core, req, h, s0.transcript, seedStored).turn;
    steps :| IsTrace(c, s0, p, TurnPasses(p, core, req, h, s0.transcript, seedStored), t.transcript, t.appended, steps);
    RunConserves(c, s0, steps);
    RunGrows(c, s0, steps);
    ConservedBound(c, Run(c, s0, steps));
  }

  lemma TraceStarts(c: Compactor, s0: Store, p: Ports)
    ensures Traced(c, s0, p, [], s0.transcript, [])
  {
    assert IsTrace(c, s0, p, [], s0.transcript, [], []);
  }

  lemma TracedIsKept(c: Compactor, s0: Store, p: Ports, core: Core, run: RunId, ok: History)
    requires Conserved(c, s0) && PassesHistoryOn(p) && Compacts(c, core, run)
    requires forall ps, tr, ap :: ok(ps)(tr, ap) == Traced(c, s0, p, ps, tr, ap)
    ensures IsOpen(ok) && IsKept(ok, p, core, run)
  {
    forall ps, tr, ap, origin, m | ok(ps)(tr, ap) && NotSystem(m)
      ensures ok(ps)(tr + [m], ap + [Entry(origin, m)])
    {
      AppendTraced(c, s0, p, ps, tr, ap, origin, m);
    }
    forall ps, it: nat, t: Turn | Holds(ok(ps), t)
      ensures Holds(ok(ps + PassOf(p, core, run, it, t)), TurnOf(Compact(p, core, run, it, t), (t: Turn) => t))
    {
      CompactTraced(c, s0, p, core, run, ps, it, t);
    }
  }
}
