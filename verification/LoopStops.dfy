/** Why a run goes on or stops (agent-core/src/core.rs:367-376, 436-470, 534-600, 705-738). */
module LoopStops {
  import opened Wrappers
  import opened Chat
  import opened Pairing
  import opened Approval
  import opened Budget
  import opened AgentLoop
  import opened LoopGuarantees
  import opened LoopPairing

  // ----- a round and its record -----

  /** What the record says has happened since `t0`: gate answers and journalled replies. */
  function AskedSince(t0: Turn, t: Turn): seq<Asking> {
    if |t0.asked| <= |t.asked| then t.asked[|t0.asked|..] else []
  }

  function RepliesSince(t0: Turn, t: Turn): seq<ToolCallRecord> {
    if |t0.journal| <= |t.journal| then t.journal[|t0.journal|..] else []
  }

  ghost predicate SomeParked(t0: Turn, t: Turn) {
    exists a :: a in AskedSince(t0, t) && a.outcome.Suspended?
  }

  /** Something was executed, and every reply was terminal. */
  ghost predicate AllTerminal(t0: Turn, t: Turn) {
    RepliesSince(t0, t) != [] && forall rec :: rec in RepliesSince(t0, t) ==> rec.reply.terminal
  }

  predicate IsTerminal(rec: ToolCallRecord) { rec.reply.terminal }

  /** The counters of a round are what the record says. */
  ghost predicate Counts(t0: Turn, r: Round) {
    && t0.asked <= r.turn.asked && t0.journal <= r.turn.journal
    && (r.suspended <==> SomeParked(t0, r.turn))
    && r.executed == |RepliesSince(t0, r.turn)| && r.terminals == |Filter(IsTerminal, RepliesSince(t0, r.turn))|
  }

  lemma SettleCounts(
      t0: Turn, p: Ports, run: RunId, it: nat, ord: nat, call: ToolCall, reply: ToolReply, isCore: bool, r: Round)
    requires Counts(t0, r) && Settle(p, run, it, ord, call, reply, isCore, r).Again?
    ensures Counts(t0, Settle(p, run, it, ord, call, reply, isCore, r).value)
  {
    var r' := Settle(p, run, it, ord, call, reply, isCore, r).value;
    var rec := ToolCallRecord(Key(run, it, ord), call, reply);
    assert RepliesSince(t0, r'.turn) == RepliesSince(t0, r.turn) + [rec];
    FilterConcat(IsTerminal, RepliesSince(t0, r.turn), [rec]);
    assert [rec][1..] == [];
  }

  lemma AskedCounts(t0: Turn, r: Round, a: Asking)
    requires Counts(t0, r)
    ensures var r' := Round(r.turn.(asked := r.turn.asked + [a]), r.suspended || a.outcome.Suspended?, r.executed,
                            r.terminals);
            Counts(t0, r')
  {
    var t' := r.turn.(asked := r.turn.asked + [a]);
    assert AskedSince(t0, t') == AskedSince(t0, r.turn) + [a];
    assert SomeParked(t0, t') <==> SomeParked(t0, r.turn) || a.outcome.Suspended? by {
      if SomeParked(t0, r.turn) {
        var b :| b in AskedSince(t0, r.turn) && b.outcome.Suspended?;
        assert b in AskedSince(t0, t');
      }
      assert a in AskedSince(t0, t');
    }
  }

  /** Only gate answers, replies and the counters matter. */
  lemma CountsFrame(t0: Turn, r: Round, r': Round)
    requires Counts(t0, r) && r'.turn.asked == r.turn.asked && r'.turn.journal == r.turn.journal
    requires r'.suspended == r.suspended && r'.executed == r.executed && r'.terminals == r.terminals
    ensures Counts(t0, r')
  {
    assert AskedSince(t0, r'.turn) == AskedSince(t0, r.turn);
    assert SomeParked(t0, r'.turn) <==> SomeParked(t0, r.turn);
  }

  lemma RunCallCounts(
      t0: Turn, p: Ports, core: Core, run: RunId, h: Handler, it: nat, ord: nat, call: ToolCall, r: Round)
    requires Counts(t0, r) && RunCall(p, core, run, h, it, ord, call, r).Again?
    ensures Counts(t0, RunCall(p, core, run, h, it, ord, call, r).value)
  {
    if IsCoreCall(call) {
      var handled := h(it, ord, call);
      HeadWritesOnly(run, r.turn, handled.writes);
      var r1 := r.(turn := WroteAll(run, r.turn, handled.writes));
      CountsFrame(t0, r, r1);
      SettleCounts(t0, p, run, it, ord, call, handled.reply, true, r1);
    } else {
      match DecisionFor(p, core, it, ord, call) {
        case Auto => SettleCounts(t0, p, run, it, ord, call, ReplyOf(p, it, ord), false, r);
        case Deny => CountsFrame(t0, r, RunCall(p, core, run, h, it, ord, call, r).value);
        case _ => GatedCallCounts(t0, p, core, run, h, it, ord, call, r);
      }
    }
  }

  lemma GatedCallCounts(
      t0: Turn, p: Ports, core: Core, run: RunId, h: Handler, it: nat, ord: nat, call: ToolCall, r: Round)
    requires Counts(t0, r) && RunCall(p, core, run, h, it, ord, call, r).Again? && !IsCoreCall(call)
    requires DecisionFor(p, core, it, ord, call) != Auto && DecisionFor(p, core, it, ord, call) != Deny
    ensures Counts(t0, RunCall(p, core, run, h, it, ord, call, r).value)
  {
    var outcome := p.gate(it, ord).value;
    var t1 := r.turn.(asked := r.turn.asked + [Asking(it, ord, outcome)]);
    AskedCounts(t0, r, Asking(it, ord, outcome));
    var r1 := Round(t1, r.suspended || outcome.Suspended?, r.executed, r.terminals);
    if IsApproval(outcome) {
      SettleCounts(t0, p, run, it, ord, call, ReplyOf(p, it, ord), false, r1);
    } else {
      CountsFrame(t0, r1, RunCall(p, core, run, h, it, ord, call, r).value);
    }
  }

  lemma {:induction false} RunCallsCount(
      t0: Turn, p: Ports, core: Core, run: RunId, h: Handler, it: nat, calls: seq<ToolCall>, ord: nat, r: Round)
    requires ord <= |calls| && Counts(t0, r) && RunCalls(p, core, run, h, it, calls, ord, r).Again?
    ensures Counts(t0, RunCalls(p, core, run, h, it, calls, ord, r).value)
    decreases |calls| - ord
  {
    if ord < |calls| {
      RunCallCounts(t0, p, core, run, h, it, ord, calls[ord], r);
      RunCallsCount(t0, p, core, run, h, it, calls, ord + 1, RunCall(p, core, run, h, it, ord, calls[ord], r).value);
    }
  }

  lemma {:induction false} FilterWhole<T(!new)>(keep: T -> bool, s: seq<T>)
    ensures |Filter(keep, s)| == |s| <==> forall x :: x in s ==> keep(x)
  {
    if s != [] {
      FilterWhole(keep, s[1..]);
      assert s == [s[0]] + s[1..];
    }
  }

  /** When a round is over, its counters decide as its record would. */
  lemma RoundDecides(t0: Turn, r: Round)
    requires Counts(t0, r)
    ensures r.suspended <==> SomeParked(t0, r.turn)
    ensures r.executed > 0 && r.terminals == r.executed <==> AllTerminal(t0, r.turn)
  {
    FilterWhole(IsTerminal, RepliesSince(t0, r.turn));
  }

  // ----- what follows the message -----

  /** The requested round may run: nothing was cancelled, both caps are kept, steps are left. */
  ghost predicate MayRun(p: Ports, core: Core, it: nat, heard: Heard) {
    && !p.cancelledAfterReply(it)
    && heard.tokens <= core.limits.perRunTokenCap && heard.stepTokens <= core.limits.perStepTokenCap
    && it < core.limits.maxSteps
  }

  /** After this message the run goes on with its calls answered in `t`. */
  ghost predicate ActsOn(p: Ports, core: Core, it: nat, heard: Heard, t: Turn) {
    && Calls(heard.message) != [] && MayRun(p, core, it, heard)
    && !SomeParked(heard.turn, t) && !AllTerminal(heard.turn, t)
  }

  /** After this message the run stops for this reason. */
  ghost predicate ActStops(p: Ports, core: Core, it: nat, heard: Heard, t: Turn, reason: StopReason) {
    var asks := Calls(heard.message) != [];
    match reason
    case NoToolCall =>
      !asks || (MayRun(p, core, it, heard) && !SomeParked(heard.turn, t) && AllTerminal(heard.turn, t))
    case Halted =>
      asks && (p.cancelledAfterReply(it) || (MayRun(p, core, it, heard) && SomeParked(heard.turn, t)))
    case TokenCap =>
      && asks && !p.cancelledAfterReply(it)
      && (heard.tokens > core.limits.perRunTokenCap || heard.stepTokens > core.limits.perStepTokenCap)
    case IterationCap =>
      && asks && !p.cancelledAfterReply(it) && it >= core.limits.maxSteps
      && heard.tokens <= core.limits.perRunTokenCap && heard.stepTokens <= core.limits.perStepTokenCap
  }

  /** The last event is a stop with this reason. */
  ghost predicate StoppedWith(t: Turn, reason: StopReason) {
    t.events != [] && t.events[|t.events| - 1] == Stopped(reason)
  }

  /** Going on and stopping for a reason exclude each other, and so do the reasons. */
  lemma ActDecides(p: Ports, core: Core, run: RunId, h: Handler, it: nat, heard: Heard)
    ensures var res := Act(p, core, run, h, it, heard);
            && (res.Again? ==> ActsOn(p, core, it, heard, res.value.turn))
            && (res.Done? ==> exists reason ::
                  StoppedWith(res.turn, reason) && ActStops(p, core, it, heard, res.turn, reason))
  {
    var calls, res := Calls(heard.message), Act(p, core, run, h, it, heard);
    if calls == [] {
      assert StoppedWith(res.turn, NoToolCall) && ActStops(p, core, it, heard, res.turn, NoToolCall);
    } else if RoundStop(p, core, it, heard).Some? {
      var reason := RoundStop(p, core, it, heard).value;
      if res.Done? { assert StoppedWith(res.turn, reason) && ActStops(p, core, it, heard, res.turn, reason); }
    } else {
      RoundRuns(p, core, run, h, it, heard);
    }
  }

  lemma RoundRuns(p: Ports, core: Core, run: RunId, h: Handler, it: nat, heard: Heard)
    requires Calls(heard.message) != [] && RoundStop(p, core, it, heard).None?
    ensures var res := Act(p, core, run, h, it, heard);
            && (res.Again? ==> ActsOn(p, core, it, heard, res.value.turn))
            && (res.Done? ==> exists reason ::
                  StoppedWith(res.turn, reason) && ActStops(p, core, it, heard, res.turn, reason))
  {
    var calls, r0, res := Calls(heard.message), Round(heard.turn, false, 0, 0), Act(p, core, run, h, it, heard);
    assert AskedSince(heard.turn, heard.turn) == [] && RepliesSince(heard.turn, heard.turn) == [];
    var round := RunCalls(p, core, run, h, it, calls, 0, r0);
    if round.Again? {
      RunCallsCount(heard.turn, p, core, run, h, it, calls, 0, r0);
      RoundDecides(heard.turn, round.value);
      var t := round.value.turn;
      if round.value.suspended {
        StopKeepsRecord(heard.turn, t, Halted);
        assert StoppedWith(res.turn, Halted) && ActStops(p, core, it, heard, res.turn, Halted);
      } else if AllTerminal(heard.turn, t) {
        StopKeepsRecord(heard.turn, t, NoToolCall);
        assert StoppedWith(res.turn, NoToolCall) && ActStops(p, core, it, heard, res.turn, NoToolCall);
      }
    }
  }

  lemma StopKeepsRecord(t0: Turn, t: Turn, reason: StopReason)
    ensures var t' := Emit(t, Stopped(reason));
            && (SomeParked(t0, t') <==> SomeParked(t0, t)) && (AllTerminal(t0, t') <==> AllTerminal(t0, t))
            && StoppedWith(t', reason)
  {
    var t' := Emit(t, Stopped(reason));
    assert AskedSince(t0, t') == AskedSince(t0, t) && RepliesSince(t0, t') == RepliesSince(t0, t);
  }

  // ----- the iteration -----

  ghost predicate SameAnswers(t: Turn, t': Turn) { t'.asked == t.asked && t'.journal == t.journal }

  /** The iteration heard this message: the pending one for nothing, or a reply for its usage. */
  ghost predicate Hears(p: Ports, core: Core, req: TurnRequest, st: LoopState, heard: Heard) {
    && SameAnswers(st.turn, heard.turn)
    && if core.resumeExecutesPending && req.seed.Resume? && st.iteration == StartIteration(req)
          && heard.turn.modelCalls == st.turn.modelCalls
       then heard.stepTokens == 0 && heard.tokens == st.tokens
       else
         && p.model(st.iteration) == Replied(heard.message, heard.stepTokens)
         && heard.tokens == SaturatingAdd(st.tokens, heard.stepTokens) && p.afterRound(st.iteration) == Ok(Continue)
  }

  ghost predicate HeardAndStopped(
      p: Ports, core: Core, req: TurnRequest, st: LoopState, t: Turn, reason: StopReason) {
    exists heard :: Hears(p, core, req, st, heard) && ActStops(p, core, st.iteration, heard, t, reason)
  }

  /** Why the iteration at this head stops the run. */
  ghost predicate StopsFor(p: Ports, core: Core, req: TurnRequest, st: LoopState, t: Turn, reason: StopReason) {
    var it := st.iteration;
    || (reason == Halted && (p.cancelledAtHead(it) || p.model(it).CancelledMidCall?))
    || (reason == IterationCap && !p.cancelledAtHead(it) && it > core.limits.maxSteps)
    || (reason == TokenCap && !p.cancelledAtHead(it) && it <= core.limits.maxSteps
        && st.tokens > core.limits.perRunTokenCap)
    || (reason == NoToolCall
        && (p.prepare(it) == Ok(ShortCircuit) || p.lateHooks(it) == Ok(ShortCircuit)
            || p.afterRound(it) == Ok(ShortCircuit)))
    || (it <= core.limits.maxSteps && HeardAndStopped(p, core, req, st, t, reason))
  }

  /** What the run goes on from: this iteration's message asked for calls, and none of the stops
      applied. */
  ghost predicate GoesOn(p: Ports, core: Core, req: TurnRequest, st: LoopState, st': LoopState) {
    && !p.cancelledAtHead(st.iteration) && st.tokens <= core.limits.perRunTokenCap
    && p.prepare(st.iteration) == Ok(Continue) == p.lateHooks(st.iteration)
    && exists heard :: Hears(p, core, req, st, heard) && ActsOn(p, core, st.iteration, heard, st'.turn)
                       && st'.tokens == heard.tokens
  }

  lemma HearingIs(p: Ports, core: Core, req: TurnRequest, st: LoopState, history: seq<Message>, t: Turn)
    requires SameDeeds(st.turn, t)
    ensures var res := Hear(p, core, req, st, history, t);
            && (res.Again? ==> Hears(p, core, req, st, res.value))
            && (res.Done? ==>
                  || (p.model(st.iteration).CancelledMidCall? && StoppedWith(res.turn, Halted))
                  || (p.afterRound(st.iteration) == Ok(ShortCircuit) && StoppedWith(res.turn, NoToolCall)))
  {
  }

  lemma PreparingIs(p: Ports, core: Core, run: RunId, it: nat, t: Turn)
    ensures var res := Prepare(p, core, run, it, t);
            && (res.Again? ==> p.prepare(it) == Ok(Continue) == p.lateHooks(it))
            && (res.Done? ==> StoppedWith(res.turn, NoToolCall))
            && (res.Done? ==> p.prepare(it) == Ok(ShortCircuit) || p.lateHooks(it) == Ok(ShortCircuit))
  {
    assert !Compact(p, core, run, it, t).Done? by { CompactWritesOnly(p, core, run, it, t); }
  }

  lemma EnteringIs(p: Ports, core: Core, st: LoopState)
    ensures var res, it := Enter(p, core, st), st.iteration;
            && (res.Again? ==>
                  !p.cancelledAtHead(it) && it <= core.limits.maxSteps && st.tokens <= core.limits.perRunTokenCap)
            && (res.Done? ==>
                  if p.cancelledAtHead(it) then StoppedWith(res.turn, Halted)
                  else if it > core.limits.maxSteps then StoppedWith(res.turn, IterationCap)
                  else st.tokens > core.limits.perRunTokenCap && StoppedWith(res.turn, TokenCap))
  {
  }

  lemma IterationDecides(p: Ports, core: Core, req: TurnRequest, h: Handler, st: LoopState)
    ensures var res := Iterate(p, core, req, h, st);
            && (res.Again? ==> GoesOn(p, core, req, st, res.value))
            && (res.Done? ==> exists reason ::
                  StoppedWith(res.turn, reason) && StopsFor(p, core, req, st, res.turn, reason))
  {
    var it, res := st.iteration, Iterate(p, core, req, h, st);
    EnteringIs(p, core, st);
    EnterSameDeeds(p, core, st);
    if Enter(p, core, st).Again? {
      var entered := Enter(p, core, st).value;
      PreparingIs(p, core, req.run, it, entered);
      PrepareSameDeeds(p, core, req.run, it, entered);
      if Prepare(p, core, req.run, it, entered).Again? {
        var prepared := Prepare(p, core, req.run, it, entered).value;
        HearingIs(p, core, req, st, entered.transcript, prepared);
        if Hear(p, core, req, st, entered.transcript, prepared).Again? {
          ActedIs(p, core, req, h, st, Hear(p, core, req, st, entered.transcript, prepared).value, res);
        }
      }
    }
  }

  lemma ActedIs(p: Ports, core: Core, req: TurnRequest, h: Handler, st: LoopState, heard: Heard,
                res: Progress<LoopState>)
    requires Hears(p, core, req, st, heard) && res == Act(p, core, req.run, h, st.iteration, heard)
    requires !p.cancelledAtHead(st.iteration) && st.iteration <= core.limits.maxSteps
    requires st.tokens <= core.limits.perRunTokenCap
    requires p.prepare(st.iteration) == Ok(Continue) == p.lateHooks(st.iteration)
    ensures res.Again? ==> GoesOn(p, core, req, st, res.value)
    ensures res.Done? ==> exists reason ::
              StoppedWith(res.turn, reason) && StopsFor(p, core, req, st, res.turn, reason)
  {
    ActDecides(p, core, req.run, h, st.iteration, heard);
    if res.Done? {
      var reason :| StoppedWith(res.turn, reason) && ActStops(p, core, st.iteration, heard, res.turn, reason);
      assert HeardAndStopped(p, core, req, st, res.turn, reason);
    }
  }

  // ----- the run -----

  lemma {:induction false} LoopDecides(p: Ports, core: Core, req: TurnRequest, h: Handler, st: LoopState)
    ensures var res := Loop(p, core, req, h, st);
            res.Done? ==> exists reason ::
              StoppedWith(res.turn, reason) && StopsFor(p, core, req, LastHead(p, core, req, h, st), res.turn, reason)
    decreases SaturatingSub(core.limits.maxSteps, st.iteration)
  {
    IterationDecides(p, core, req, h, st);
    var res := Iterate(p, core, req, h, st);
    if res.Again? {
      IterateAdvances(p, core, req, h, st);
      LoopDecides(p, core, req, h, res.value);
    }
  }

  /** A clean run stops for a reason that its last iteration gave, and every iteration before went
      on with calls that were asked for, allowed to run, not parked and not all terminal. */
  lemma RunStops(p: Ports, core: Core, req: TurnRequest, h: Handler, transcript: seq<Message>, n: nat)
    ensures var res := RunTurn(p, core, req, h, transcript, true); var st := Started(req, transcript);
            res.Done? ==> exists reason ::
              StoppedWith(res.turn, reason) && StopsFor(p, core, req, LastHead(p, core, req, h, st), res.turn, reason)
    ensures var st := Started(req, transcript);
            var before, after := HeadAfter(p, core, req, h, st, n), HeadAfter(p, core, req, h, st, n + 1);
            before.Some? && after.Some? ==> GoesOn(p, core, req, before.value, after.value)
  {
    var st := Started(req, transcript);
    LoopDecides(p, core, req, h, st);
    var before, after := HeadAfter(p, core, req, h, st, n), HeadAfter(p, core, req, h, st, n + 1);
    if before.Some? && after.Some? {
      FollowsFrom(s => NextHead(p, core, req, h, s), st, n);
      IterationDecides(p, core, req, h, before.value);
    }
  }

  lemma {:induction false} FollowsFrom(next: LoopState -> Option<LoopState>, st: LoopState, n: nat)
    requires Follow(next, st, n).Some? && Follow(next, st, n + 1).Some?
    ensures next(Follow(next, st, n).value) == Follow(next, st, n + 1)
    decreases n
  {
    if n > 0 { FollowsFrom(next, next(st).value, n - 1); } else { assert Follow(next, next(st).value, 0) == next(st); }
  }
}
