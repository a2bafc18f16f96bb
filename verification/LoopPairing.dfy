/** Tool pairing across the loop and compaction (agent-core/src/core.rs:367-738). */
module LoopPairing {
  import opened Wrappers
  import opened Chat
  import opened Compaction
  import opened CompactionRuns
  import opened Pairing
  import opened Approval
  import opened Budget
  import opened AgentLoop
  import opened LoopGuarantees

  // ----- transcripts with at most one summary at their head -----

  function HeadLen(t: seq<Message>): nat { if t != [] && IsSystem(t[0]) then 1 else 0 }

  predicate IsPlain(m: Message) { Calls(m) == [] && !HasToolResult(m) }

  ghost predicate Headed(t: seq<Message>) {
    && (forall i :: HeadLen(t) <= i < |t| ==> NotSystem(t[i]))
    && (HeadLen(t) == 1 ==> IsPriorSummary(t[0]) && IsPlain(t[0]))
  }

  function BodyOf(t: seq<Message>): seq<Message> { t[HeadLen(t)..] }

  lemma HeadedKinds(t: seq<Message>)
    requires Headed(t)
    ensures NonSystem(t) == BodyOf(t) && Priors(t) == t[..HeadLen(t)]
  {
    var n := HeadLen(t);
    assert t == t[..n] + t[n..];
    FilterConcat(NotSystem, t[..n], t[n..]);
    FilterConcat(IsPriorSummary, t[..n], t[n..]);
    FilterNone(NotSystem, t[..n]);
    FilterAll(NotSystem, t[n..]);
    FilterAll(IsPriorSummary, t[..n]);
    FilterNone(IsPriorSummary, t[n..]);
  }

  lemma BodyPaired(t: seq<Message>)
    requires Headed(t) && WellPaired(t)
    ensures WellPaired(BodyOf(t))
  {
    if HeadLen(t) == 1 {
      assert t[0 + 1..] == BodyOf(t);
    } else {
      assert t[0..] == t;
    }
  }

  /** The newest message made calls that nothing answers yet; all before it is paired. */
  ghost predicate Open(t: seq<Message>) {
    t != [] && Calls(t[|t| - 1]) != [] && !HasToolResult(t[|t| - 1]) && WellPaired(t[..|t| - 1])
  }

  lemma AppendHeaded(t: seq<Message>, m: Message)
    requires Headed(t) && NotSystem(m)
    ensures Headed(t + [m])
  {
    if t != [] { assert (t + [m])[0] == t[0]; }
  }

  lemma AppendPlain(t: seq<Message>, m: Message)
    requires WellPaired(t) && IsPlain(m)
    ensures WellPaired(t + [m])
  {
    PairedSingle(m);
    PairedConcat(t, [m]);
  }

  /** A caller followed by fewer messages than it made calls is not paired. */
  lemma {:induction false} TooFewIsNotPaired(t: seq<Message>, m: Message, results: seq<Message>)
    requires WellPaired(t) && |results| < |Calls(m)|
    ensures !WellPaired(t + [m] + results)
    decreases |t|
  {
    var all := t + [m] + results;
    if t == [] {
      assert all[0] == m;
    } else {
      var n := |Calls(t[0])|;
      assert all[0] == t[0] && all[n + 1..] == t[n + 1..] + [m] + results;
      TooFewIsNotPaired(t[n + 1..], m, results);
    }
  }

  // ----- compaction inside the loop -----

  lemma TextIsPlain(role: Role, text: string)
    ensures IsPlain(Message(role, [TextBlock(text)]))
  {
    SingleBlockCalls(Message(role, [TextBlock(text)]));
  }

  lemma SingleBlockCalls(m: Message)
    requires |m.content| == 1 && !m.content[0].ToolUse?
    ensures Calls(m) == [] && HasToolResult(m) == m.content[0].ToolResult?
  {
    assert BlockCalls(m.content[1..]) == [];
  }

  lemma CompactIsReplace(p: Ports, core: Core, run: RunId, it: nat, t: Turn)
    requires Compact(p, core, run, it, t).Again?
    ensures var t' := Compact(p, core, run, it, t).value;
            && t' == t.(transcript := t'.transcript, foreign := t'.foreign)
            && (t'.transcript == t.transcript
                || (core.compaction.Some?
                    && var call := CallOf(core.compaction.value.compactor, p.request(it, t.transcript), None,
                                          p.summarize(it));
                       call.Some? && IsGenuine(call.value)
                       && t'.transcript == ReplaceHead(t.transcript, call.value.summary, call.value.upto)))
  {
    if core.compaction.Some? {
      CompactForms(p, core, run, it, t);
      WriteIsCall(core.compaction.value.compactor, p.request(it, t.transcript), None, p.summarize(it));
    }
  }

  /** The shape of the transcript after compaction: unchanged, or a plain summary over a suffix
      of the body that does not start with a tool result. */
  ghost predicate CutTo(t: seq<Message>, t': seq<Message>, k: nat) {
    && 0 < k < |BodyOf(t)| && !HasToolResult(BodyOf(t)[k])
    && Headed(t') && HeadLen(t') == 1 && BodyOf(t') == BodyOf(t)[k..]
  }

  lemma CompactShape(p: Ports, core: Core, run: RunId, it: nat, t: Turn) returns (k: nat)
    requires Headed(t.transcript) && Shows(p.request(it, t.transcript), t.transcript)
    requires Compact(p, core, run, it, t).Again?
    ensures var t' := Compact(p, core, run, it, t).value.transcript;
            t' == t.transcript || CutTo(t.transcript, t', k)
  {
    k := 0;
    CompactIsReplace(p, core, run, it, t);
    if Compact(p, core, run, it, t).value.transcript != t.transcript {
      var c, request := core.compaction.value.compactor, p.request(it, t.transcript);
      var call := CallOf(c, request, None, p.summarize(it));
      k := CallCuts(c, t.transcript, request, p.summarize(it), call.value);
    }
  }

  lemma CallCuts(c: Compactor, t: seq<Message>, request: seq<Message>, ask: Summarize, call: Call) returns (k: nat)
    requires Headed(t) && Shows(request, t) && CallOf(c, request, None, ask) == Some(call) && IsGenuine(call)
    ensures CutTo(t, ReplaceHead(t, call.summary, call.upto), k)
  {
    HeadedKinds(t);
    k := CallShape(c, request, ask, call);
    CutShowsNoResult(c, request, k);
    TextIsPlain(System, SummaryText(call.upto, call.text));
    ReplacedHead(t, call.summary, k);
  }

  lemma CutShowsNoResult(c: Compactor, msgs: seq<Message>, k: nat)
    requires FiresAt(c, msgs, None) == Some(k)
    ensures !HasToolResult(NonSystem(msgs)[k])
  {
  }

  lemma ReplacedHead(t: seq<Message>, summary: Message, k: nat)
    requires Headed(t) && k < |BodyOf(t)| && IsPriorSummary(summary) && IsPlain(summary)
    ensures var t' := ReplaceHead(t, summary, HeadLen(t) + k);
            Headed(t') && HeadLen(t') == 1 && BodyOf(t') == BodyOf(t)[k..]
  {
    assert t[HeadLen(t) + k..] == BodyOf(t)[k..];
  }

  lemma HeadedPaired(t: seq<Message>)
    requires Headed(t) && HeadLen(t) == 1 && WellPaired(BodyOf(t))
    ensures WellPaired(t)
  {
    assert t[1..1] == [] && t[0 + 1..] == BodyOf(t);
  }

  lemma CompactKeepsPaired(p: Ports, core: Core, run: RunId, it: nat, t: Turn)
    requires Headed(t.transcript) && Shows(p.request(it, t.transcript), t.transcript)
    requires Compact(p, core, run, it, t).Again?
    requires WellPaired(t.transcript)
    ensures var t' := Compact(p, core, run, it, t).value.transcript; Headed(t') && WellPaired(t')
  {
    var k := CompactShape(p, core, run, it, t);
    var t' := Compact(p, core, run, it, t).value.transcript;
    if t' != t.transcript {
      BodyPaired(t.transcript);
      PairedCut(BodyOf(t.transcript), k);
      HeadedPaired(t');
    }
  }

  /** The pending message survives compaction: it is the newest. */
  lemma CompactKeepsOpen(p: Ports, core: Core, run: RunId, it: nat, t: Turn)
    requires Headed(t.transcript) && Shows(p.request(it, t.transcript), t.transcript)
    requires Compact(p, core, run, it, t).Again?
    requires Open(t.transcript)
    ensures var t' := Compact(p, core, run, it, t).value.transcript;
            Headed(t') && Open(t') && t'[|t'| - 1] == t.transcript[|t.transcript| - 1]
  {
    var k := CompactShape(p, core, run, it, t);
    var t' := Compact(p, core, run, it, t).value.transcript;
    if t' != t.transcript { CutKeepsOpen(t.transcript, t', k); }
  }

  lemma CutKeepsOpen(t: seq<Message>, t': seq<Message>, k: nat)
    requires Headed(t) && Open(t) && CutTo(t, t', k)
    ensures Open(t') && t'[|t'| - 1] == t[|t| - 1]
  {
    var body := BodyOf(t);
    assert body[|body| - 1] == t[|t| - 1];
    OlderBodyPaired(t);
    CutAtLast(t', body, k);
    CutOlderPaired(body, t'[0], k);
  }

  /** Cutting the messages before a pending one leaves them paired under the summary. */
  lemma CutOlderPaired(body: seq<Message>, summary: Message, k: nat)
    requires k < |body| && !HasToolResult(body[k]) && WellPaired(body[..|body| - 1]) && IsPlain(summary)
    ensures WellPaired([summary] + body[..|body| - 1][k..])
  {
    var older := body[..|body| - 1];
    if k < |older| { assert older[k] == body[k]; }
    PairedCut(older, k);
    PairedSingle(summary);
    PairedConcat([summary], older[k..]);
  }

  lemma CutAtLast(t': seq<Message>, body: seq<Message>, k: nat)
    requires HeadLen(t') == 1 && k < |body| && BodyOf(t') == body[k..]
    ensures t'[|t'| - 1] == body[|body| - 1] && t'[..|t'| - 1] == [t'[0]] + body[..|body| - 1][k..]
  {
    assert t' == [t'[0]] + body[k..];
  }

  lemma OlderBodyPaired(t: seq<Message>)
    requires Headed(t) && Open(t) && BodyOf(t) != []
    ensures WellPaired(BodyOf(t)[..|BodyOf(t)| - 1])
  {
    var before := t[..|t| - 1];
    if HeadLen(t) == 1 {
      assert before[0] == t[0] && before[0 + 1..] == BodyOf(t)[..|BodyOf(t)| - 1];
    } else {
      assert before == BodyOf(t)[..|BodyOf(t)| - 1];
    }
  }

  // ----- the round -----

  /** The gate parked the call at this place. */
  ghost predicate Parked(asked: seq<Asking>, it: nat, ord: nat) {
    exists i :: 0 <= i < |asked| && asked[i].iteration == it && asked[i].ordinal == ord && asked[i].outcome.Suspended?
  }

  /** Everything asked so far was asked before this place. */
  ghost predicate AskedBefore(asked: seq<Asking>, it: nat, ord: nat) {
    forall i :: 0 <= i < |asked| ==> asked[i].iteration < it || (asked[i].iteration == it && asked[i].ordinal < ord)
  }

  ghost predicate NoGate(evs: seq<Event>) {
    forall i :: 0 <= i < |evs| ==> !evs[i].GateOpened?
  }

  /** The calls among the first `k` that were not parked. */
  ghost function Unparked(asked: seq<Asking>, it: nat, calls: seq<ToolCall>, k: nat): (r: seq<ToolCall>)
    requires k <= |calls|
    ensures |r| <= k
  {
    if k == 0 then []
    else Unparked(asked, it, calls, k - 1) + if Parked(asked, it, k - 1) then [] else [calls[k - 1]]
  }

  /** No head of this run is replaced while a core tool is at work. */
  ghost predicate Harmless(h: Handler, run: RunId) {
    forall it, ord, call, i :: 0 <= i < |h(it, ord, call).writes| ==> h(it, ord, call).writes[i].run != run
  }

  lemma {:induction false} ForeignWrites(run: RunId, t: Turn, ws: seq<HeadWrite>)
    requires forall i :: 0 <= i < |ws| ==> ws[i].run != run
    ensures WroteAll(run, t, ws) == t.(foreign := t.foreign + ws)
    decreases |ws|
  {
    if ws == [] {
      assert t.foreign + ws == t.foreign;
    } else {
      ForeignWrites(run, Wrote(run, t, ws[0]), ws[1..]);
      assert t.foreign + [ws[0]] + ws[1..] == t.foreign + ws;
    }
  }

  ghost predicate RoundPaired(it: nat, calls: seq<ToolCall>, ord: nat, base: seq<Message>, r: Round)
    requires ord <= |calls|
  {
    && base <= r.turn.transcript
    && AnswersAll(r.turn.transcript[|base|..], Unparked(r.turn.asked, it, calls, ord))
    && (forall i :: |base| <= i < |r.turn.transcript| ==> r.turn.transcript[i].role == Tool)
    && (r.suspended <==> |Unparked(r.turn.asked, it, calls, ord)| < ord)
    && (r.suspended <==> !NoGate(r.turn.events))
    && AskedBefore(r.turn.asked, it, ord)
  }

  lemma ResultAnswers(call: ToolCall, reply: ToolReply)
    ensures Answers(ToolResultMessage(call, reply), call) && ToolResultMessage(call, reply).role == Tool
  {
  }

  /** What the gate is asked about a call. */
  function Asks(p: Ports, core: Core, it: nat, ord: nat, call: ToolCall): seq<Asking> {
    if IsCoreCall(call) || p.gate(it, ord).Err? then []
    else match DecisionFor(p, core, it, ord, call)
         case Auto => []
         case Deny => []
         case _ => [Asking(it, ord, p.gate(it, ord).value)]
  }

  predicate IsSuspended(p: Ports, core: Core, it: nat, ord: nat, call: ToolCall) {
    Asks(p, core, it, ord, call) != [] && Asks(p, core, it, ord, call)[0].outcome.Suspended?
  }

  /** Whether a call is executed: a core tool, or decided or approved at the gate. */
  predicate IsAllowed(p: Ports, core: Core, it: nat, ord: nat, call: ToolCall) {
    || IsCoreCall(call) || DecisionFor(p, core, it, ord, call) == Auto
    || (Asks(p, core, it, ord, call) != [] && IsApproval(Asks(p, core, it, ord, call)[0].outcome))
  }

  /** A round moved on over a call: answered and not parked, or parked and not answered. */
  ghost predicate Moved(it: nat, ord: nat, call: ToolCall, asks: seq<Asking>, r: Round, r': Round) {
    && r'.turn.asked == r.turn.asked + asks
    && if asks != [] && asks[0].outcome.Suspended?
       then r'.suspended && r'.turn.transcript == r.turn.transcript && !NoGate(r'.turn.events)
       else r'.suspended == r.suspended && (NoGate(r'.turn.events) <==> NoGate(r.turn.events))
            && exists reply :: r'.turn.transcript == r.turn.transcript + [ToolResultMessage(call, reply)]
  }

  lemma EmitGate(t: Turn, ev: Event)
    ensures NoGate(Emit(t, ev).events) <==> NoGate(t.events) && !ev.GateOpened?
  {
    assert Emit(t, ev).events[|t.events|] == ev;
    assert forall i :: 0 <= i < |t.events| ==> Emit(t, ev).events[i] == t.events[i];
  }

  lemma SettleMoves(p: Ports, run: RunId, it: nat, ord: nat, call: ToolCall, reply: ToolReply, isCore: bool, r: Round)
    requires Settle(p, run, it, ord, call, reply, isCore, r).Again?
    ensures Moved(it, ord, call, [], r, Settle(p, run, it, ord, call, reply, isCore, r).value)
  {
    var t := r.turn.(executed := r.turn.executed + [Execution(it, ord, call, isCore)]);
    var t2 := t.(journal := t.journal + [ToolCallRecord(Key(run, it, ord), call, reply)]);
    EmitGate(Say(t2, FromCall(it, ord), ToolResultMessage(call, reply)), MessageEvent(ToolResultMessage(call, reply)));
  }

  lemma RefusalMoves(p: Ports, it: nat, ord: nat, call: ToolCall, reason: string, r: Round)
    requires RefuseInRound(p, it, ord, call, reason, r).Again?
    ensures Moved(it, ord, call, [], r, RefuseInRound(p, it, ord, call, reason, r).value)
  {
    var m := ToolResultMessage(call, ErrorReply(reason));
    EmitGate(Say(r.turn, FromRefusal(it, ord), m), MessageEvent(m));
  }

  /** What one call does to the transcript and the record: one answer, or a gate opened. */
  lemma RunCallAnswers(p: Ports, core: Core, run: RunId, h: Handler, it: nat, ord: nat, call: ToolCall, r: Round)
    requires Harmless(h, run) && RunCall(p, core, run, h, it, ord, call, r).Again?
    ensures Moved(it, ord, call, Asks(p, core, it, ord, call), r, RunCall(p, core, run, h, it, ord, call, r).value)
  {
    if IsCoreCall(call) {
      var handled := h(it, ord, call);
      ForeignWrites(run, r.turn, handled.writes);
      SettleMoves(p, run, it, ord, call, handled.reply, true, r.(turn := WroteAll(run, r.turn, handled.writes)));
    } else {
      match DecisionFor(p, core, it, ord, call) {
        case Auto => SettleMoves(p, run, it, ord, call, ReplyOf(p, it, ord), false, r);
        case Deny => RefusalMoves(p, it, ord, call, "denied by approval policy", r);
        case _ => GatedCallMoves(p, core, run, h, it, ord, call, r);
      }
    }
  }

  lemma GatedCallMoves(p: Ports, core: Core, run: RunId, h: Handler, it: nat, ord: nat, call: ToolCall, r: Round)
    requires !IsCoreCall(call) && DecisionFor(p, core, it, ord, call) != Auto
    requires DecisionFor(p, core, it, ord, call) != Deny
    requires RunCall(p, core, run, h, it, ord, call, r).Again?
    ensures Moved(it, ord, call, Asks(p, core, it, ord, call), r, RunCall(p, core, run, h, it, ord, call, r).value)
  {
    var outcome := p.gate(it, ord).value;
    var r1 := r.(turn := r.turn.(asked := r.turn.asked + [Asking(it, ord, outcome)]));
    if IsApproval(outcome) {
      SettleMoves(p, run, it, ord, call, ReplyOf(p, it, ord), false, r1);
    } else if outcome.Suspended? {
      EmitGate(r1.turn, GateOpened(outcome.ticket));
    } else {
      RefusalMoves(p, it, ord, call, "denied by human reviewer", r1);
    }
  }

  lemma {:induction false} UnparkedFrame(asked: seq<Asking>, more: seq<Asking>, it: nat, calls: seq<ToolCall>, k: nat)
    requires k <= |calls| && forall i :: 0 <= i < |more| ==> more[i].iteration == it && more[i].ordinal >= k
    ensures Unparked(asked + more, it, calls, k) == Unparked(asked, it, calls, k)
  {
    if k > 0 {
      UnparkedFrame(asked, more, it, calls, k - 1);
      ParkedFrame(asked, more, it, k - 1);
    }
  }

  lemma ParkedFrame(asked: seq<Asking>, more: seq<Asking>, it: nat, ord: nat)
    ensures Parked(asked + more, it, ord) <==> Parked(asked, it, ord) || Parked(more, it, ord)
  {
    var all := asked + more;
    if Parked(asked, it, ord) {
      var i :| 0 <= i < |asked| && asked[i].iteration == it && asked[i].ordinal == ord && asked[i].outcome.Suspended?;
      assert all[i] == asked[i];
    }
    if Parked(more, it, ord) {
      var i :| 0 <= i < |more| && more[i].iteration == it && more[i].ordinal == ord && more[i].outcome.Suspended?;
      assert all[|asked| + i] == more[i];
    }
  }

  /** What is asked at a place decides whether its call is parked. */
  lemma AskedHere(p: Ports, core: Core, it: nat, ord: nat, call: ToolCall, asked: seq<Asking>)
    requires AskedBefore(asked, it, ord)
    ensures var all := asked + Asks(p, core, it, ord, call);
            AskedBefore(all, it, ord + 1) && (Parked(all, it, ord) <==> IsSuspended(p, core, it, ord, call))
  {
    var asks := Asks(p, core, it, ord, call);
    ParkedFrame(asked, asks, it, ord);
    if IsSuspended(p, core, it, ord, call) { assert asks[0].iteration == it && asks[0].ordinal == ord; }
  }

  lemma MovedPaired(
      p: Ports, core: Core, it: nat, calls: seq<ToolCall>, ord: nat, base: seq<Message>, r: Round, r': Round)
    requires ord < |calls| && RoundPaired(it, calls, ord, base, r)
    requires Moved(it, ord, calls[ord], Asks(p, core, it, ord, calls[ord]), r, r')
    ensures RoundPaired(it, calls, ord + 1, base, r')
  {
    UnparkedFrame(r.turn.asked, Asks(p, core, it, ord, calls[ord]), it, calls, ord);
    AskedHere(p, core, it, ord, calls[ord], r.turn.asked);
    if !IsSuspended(p, core, it, ord, calls[ord]) {
      var reply :| r'.turn.transcript == r.turn.transcript + [ToolResultMessage(calls[ord], reply)];
      AnswerOneMore(base, r.turn.transcript, Unparked(r.turn.asked, it, calls, ord), calls[ord], reply);
    }
  }

  lemma AnswerOneMore(base: seq<Message>, t: seq<Message>, answered: seq<ToolCall>, call: ToolCall, reply: ToolReply)
    requires base <= t && AnswersAll(t[|base|..], answered)
    ensures var t' := t + [ToolResultMessage(call, reply)];
            base <= t' && AnswersAll(t'[|base|..], answered + [call])
  {
    ResultAnswers(call, reply);
    assert (t + [ToolResultMessage(call, reply)])[|base|..] == t[|base|..] + [ToolResultMessage(call, reply)];
  }

  lemma {:induction false} RunCallsPaired(
      p: Ports, core: Core, run: RunId, h: Handler,
      it: nat, calls: seq<ToolCall>, ord: nat, base: seq<Message>, r: Round)
    requires ord <= |calls| && Harmless(h, run) && RoundPaired(it, calls, ord, base, r)
    requires RunCalls(p, core, run, h, it, calls, ord, r).Again?
    ensures RoundPaired(it, calls, |calls|, base, RunCalls(p, core, run, h, it, calls, ord, r).value)
    decreases |calls| - ord
  {
    if ord < |calls| {
      var r' := RunCall(p, core, run, h, it, ord, calls[ord], r).value;
      RunCallAnswers(p, core, run, h, it, ord, calls[ord], r);
      MovedPaired(p, core, it, calls, ord, base, r, r');
      RunCallsPaired(p, core, run, h, it, calls, ord + 1, base, r');
    }
  }

  lemma {:induction false} NoneParked(asked: seq<Asking>, it: nat, calls: seq<ToolCall>, k: nat)
    requires k <= |calls| && |Unparked(asked, it, calls, k)| == k
    ensures Unparked(asked, it, calls, k) == calls[..k]
  {
    if k > 0 {
      NoneParked(asked, it, calls, k - 1);
      assert calls[..k] == calls[..k - 1] + [calls[k - 1]];
    }
  }

  // ----- which calls of a round were executed -----

  ghost predicate ExecutedAt(ex: seq<Execution>, it: nat, ord: nat) {
    exists i :: 0 <= i < |ex| && ex[i].iteration == it && ex[i].ordinal == ord
  }

  /** Of the calls before `ord` exactly the allowed ones were executed in this iteration, each at
      its own place. */
  ghost predicate ExecutedAllowed(p: Ports, core: Core, it: nat, calls: seq<ToolCall>, ord: nat, ex: seq<Execution>)
    requires ord <= |calls|
  {
    && (forall i :: 0 <= i < |ex| && ex[i].iteration == it ==>
          ex[i].ordinal < ord && ex[i].call == calls[ex[i].ordinal])
    && (forall o :: 0 <= o < ord ==> (ExecutedAt(ex, it, o) <==> IsAllowed(p, core, it, o, calls[o])))
  }

  /** One call adds its own execution, or none. */
  lemma RunCallExecutes(p: Ports, core: Core, run: RunId, h: Handler, it: nat, ord: nat, call: ToolCall, r: Round)
    requires RunCall(p, core, run, h, it, ord, call, r).Again?
    ensures RunCall(p, core, run, h, it, ord, call, r).value.turn.executed
         == r.turn.executed
            + if IsAllowed(p, core, it, ord, call) then [Execution(it, ord, call, IsCoreCall(call))] else []
  {
    if IsCoreCall(call) { HeadWritesOnly(run, r.turn, h(it, ord, call).writes); }
  }

  lemma ExecutedSnoc(p: Ports, core: Core, it: nat, calls: seq<ToolCall>, ord: nat, ex: seq<Execution>)
    requires ord < |calls| && ExecutedAllowed(p, core, it, calls, ord, ex)
    ensures var e := Execution(it, ord, calls[ord], IsCoreCall(calls[ord]));
            ExecutedAllowed(p, core, it, calls, ord + 1,
                            ex + if IsAllowed(p, core, it, ord, calls[ord]) then [e] else [])
  {
    var e := Execution(it, ord, calls[ord], IsCoreCall(calls[ord]));
    var more := if IsAllowed(p, core, it, ord, calls[ord]) then [e] else [];
    forall o | 0 <= o < ord + 1
      ensures ExecutedAt(ex + more, it, o) <==> IsAllowed(p, core, it, o, calls[o])
    {
      if ExecutedAt(ex, it, o) {
        var i :| 0 <= i < |ex| && ex[i].iteration == it && ex[i].ordinal == o;
        assert (ex + more)[i] == ex[i];
      }
      if o == ord && more != [] { assert (ex + more)[|ex|] == e; }
    }
  }

  lemma {:induction false} RunCallsExecute(
      p: Ports, core: Core, run: RunId, h: Handler, it: nat, calls: seq<ToolCall>, ord: nat, r: Round)
    requires ord <= |calls| && ExecutedAllowed(p, core, it, calls, ord, r.turn.executed)
    requires RunCalls(p, core, run, h, it, calls, ord, r).Again?
    ensures ExecutedAllowed(p, core, it, calls, |calls|,
                            RunCalls(p, core, run, h, it, calls, ord, r).value.turn.executed)
    decreases |calls| - ord
  {
    if ord < |calls| {
      RunCallExecutes(p, core, run, h, it, ord, calls[ord], r);
      ExecutedSnoc(p, core, it, calls, ord, r.turn.executed);
      RunCallsExecute(p, core, run, h, it, calls, ord + 1, RunCall(p, core, run, h, it, ord, calls[ord], r).value);
    }
  }

  /** Answering all calls of the newest message closes its pairing. */
  lemma AnswersClose(before: seq<Message>, m: Message, results: seq<Message>)
    requires WellPaired(before) && !HasToolResult(m) && AnswersAll(results, Calls(m))
    ensures WellPaired(before + [m] + results)
  {
    PairedRound(m, results);
    PairedConcat(before, [m] + results);
    assert before + [m] + results == before + ([m] + results);
  }

  lemma SplitAtLast(base: seq<Message>, t: seq<Message>)
    requires base != [] && base <= t
    ensures t == base[..|base| - 1] + [base[|base| - 1]] + t[|base|..]
  {
  }

  lemma RefusalCloses(base: seq<Message>, t: seq<Message>)
    requires Open(base) && Headed(base) && base <= t && AnswersAll(t[|base|..], Calls(base[|base| - 1]))
    requires forall i :: |base| <= i < |t| ==> t[i].role == Tool
    ensures WellPaired(t) && Headed(t)
  {
    SplitAtLast(base, t);
    AnswersClose(base[..|base| - 1], base[|base| - 1], t[|base|..]);
    ToolsKeepHeaded(base, t);
  }

  lemma ToolsKeepHeaded(base: seq<Message>, t: seq<Message>)
    requires Headed(base) && base != [] && base <= t && forall i :: |base| <= i < |t| ==> t[i].role == Tool
    ensures Headed(t)
  {
    assert t[0] == base[0] && forall i :: 0 <= i < |base| ==> t[i] == base[i];
  }

  lemma {:induction false} RefuseCallsAnswer(
      p: Ports, it: nat, calls: seq<ToolCall>, ord: nat, reason: StopReason, base: seq<Message>, t: Turn)
    requires ord <= |calls| && RefuseCalls(p, it, calls, ord, reason, t).Again?
    requires base <= t.transcript && AnswersAll(t.transcript[|base|..], calls[..ord])
    requires forall i :: |base| <= i < |t.transcript| ==> t.transcript[i].role == Tool
    ensures var t' := RefuseCalls(p, it, calls, ord, reason, t).value;
            && base <= t'.transcript && AnswersAll(t'.transcript[|base|..], calls)
            && (forall i :: |base| <= i < |t'.transcript| ==> t'.transcript[i].role == Tool)
            && (NoGate(t'.events) <==> NoGate(t.events))
    decreases |calls| - ord
  {
    if ord == |calls| {
      assert calls[..ord] == calls;
    } else {
      var reply := ErrorReply("tool not executed: agent stopped (" + ReasonName(reason) + ")");
      var m := ToolResultMessage(calls[ord], reply);
      AnswerOneMore(base, t.transcript, calls[..ord], calls[ord], reply);
      EmitGate(Say(t, FromRefusal(it, ord), m), MessageEvent(m));
      assert calls[..ord + 1] == calls[..ord] + [calls[ord]];
      RefuseCallsAnswer(p, it, calls, ord + 1, reason, base, Post(t, FromRefusal(it, ord), m));
    }
  }

  // ----- what is asked of the ports -----

  /** Requests show the transcript, replies are what a provider sends, and no `after_round` hook
      short-circuits a reply that makes calls. */
  ghost predicate WellBehaved(p: Ports) {
    && (forall it: nat, t: seq<Message> {:trigger p.request(it, t)} :: Headed(t) ==> Shows(p.request(it, t), t))
    && (forall it: nat {:trigger p.model(it)} :: p.model(it).Replied? ==>
          && NotSystem(p.model(it).message) && !HasToolResult(p.model(it).message)
          && (p.afterRound(it) == Ok(ShortCircuit) ==> Calls(p.model(it).message) == []))
  }

  ghost predicate IsPairedHead(st: LoopState) {
    && Headed(st.turn.transcript) && WellPaired(st.turn.transcript)
    && NoGate(st.turn.events) && AskedBefore(st.turn.asked, st.iteration, 0)
  }

  /** The head of a resume that is to execute a pending message, with no steering note before it. */
  ghost predicate IsResumingHead(p: Ports, core: Core, req: TurnRequest, st: LoopState) {
    && Headed(st.turn.transcript) && Open(st.turn.transcript)
    && st.turn.transcript[|st.turn.transcript| - 1].role == Assistant
    && st.turn == NewTurn(st.turn.transcript)
    && st.iteration == StartIteration(req) && req.seed.Resume? && core.resumeExecutesPending
    && p.notes(st.iteration) == Ok([])
  }

  /** What a round leaves behind: the message `m` that asked for it, and answers to exactly its
      calls that the gate did not park in this iteration. */
  ghost predicate RoundOver(t: Turn, it: nat, m: Message, base: seq<Message>) {
    && Open(base) && base[|base| - 1] == m && base <= t.transcript
    && (forall i :: |base| <= i < |t.transcript| ==> t.transcript[i].role == Tool)
    && AnswersAll(t.transcript[|base|..], Unparked(t.asked, it, Calls(m), |Calls(m)|))
  }

  /** An ended turn whose round had parked calls. */
  ghost predicate PartlyAnswered(t: Turn, it: nat, base: seq<Message>) {
    && base != [] && RoundOver(t, it, base[|base| - 1], base)
    && |t.transcript| - |base| < |Calls(base[|base| - 1])|
  }

  /** How a clean run leaves the transcript: paired if and only if no gate was opened; and else
      the calls left open are those of the last iteration's round that were parked. */
  ghost predicate PairedExit(t: Turn, it: nat) {
    && (WellPaired(t.transcript) <==> NoGate(t.events))
    && (WellPaired(t.transcript) || exists base :: PartlyAnswered(t, it, base))
  }

  lemma PartlyIsNotPaired(t: Turn, it: nat, base: seq<Message>)
    requires PartlyAnswered(t, it, base)
    ensures !WellPaired(t.transcript)
  {
    SplitAtLast(base, t.transcript);
    TooFewIsNotPaired(base[..|base| - 1], base[|base| - 1], t.transcript[|base|..]);
  }

  lemma {:induction false} NotesKeepPaired(p: Ports, it: nat, notes: seq<string>, i: nat, t: Turn)
    requires i <= |notes| && Headed(t.transcript) && WellPaired(t.transcript)
    requires AppendNotes(p, it, notes, i, t).Again?
    ensures var t' := AppendNotes(p, it, notes, i, t).value;
            && Headed(t'.transcript) && WellPaired(t'.transcript)
            && t'.events == t.events && t'.asked == t.asked
    decreases |notes| - i
  {
    if i < |notes| {
      var m := UserMessage("[steering] " + notes[i]);
      TextIsPlain(User, "[steering] " + notes[i]);
      AppendHeaded(t.transcript, m);
      AppendPlain(t.transcript, m);
      NotesKeepPaired(p, it, notes, i + 1, Say(t, FromSteering(it, i), m));
    }
  }

  /** The transcript the round starts from. */
  ghost predicate ReadyToAct(it: nat, heard: Heard) {
    var t := heard.turn.transcript;
    && NoGate(heard.turn.events) && AskedBefore(heard.turn.asked, it, 0)
    && Headed(t) && t != [] && t[|t| - 1] == heard.message
    && (if Calls(heard.message) == [] then WellPaired(t) else Open(t))
  }

  lemma LastPending(t: seq<Message>)
    requires Open(t) && t[|t| - 1].role == Assistant
    ensures LastPendingAssistant(t) == Some(t[|t| - 1])
  {
    CallsNeedUse(t[|t| - 1].content);
  }

  lemma {:induction false} UseMakesCall(content: seq<Block>, i: nat)
    requires i < |content| && content[i].ToolUse?
    ensures BlockCalls(content) != []
  {
    if i > 0 { UseMakesCall(content[1..], i - 1); }
  }

  lemma {:induction false} PairedEndsAnswered(t: seq<Message>)
    requires WellPaired(t) && t != []
    ensures Calls(t[|t| - 1]) == [] || HasToolResult(t[|t| - 1])
    decreases |t|
  {
    var n := |Calls(t[0])|;
    if t[n + 1..] == [] {
      if n > 0 {
        assert t[1..n + 1][n - 1] == t[n];
        AnswerIsResult(t[n], Calls(t[0])[n - 1]);
      }
    } else {
      PairedEndsAnswered(t[n + 1..]);
    }
  }

  lemma {:induction false} PairedHasNoMixedMessage(t: seq<Message>, i: nat)
    requires WellPaired(t) && i < |t| && HasToolResult(t[i])
    ensures Calls(t[i]) == []
    decreases |t|
  {
    var n := |Calls(t[0])|;
    if i <= n {
      assert t[1..n + 1][i - 1] == t[i];
      if i > 0 { SingleBlockCalls(t[i]); }
    } else {
      PairedHasNoMixedMessage(t[n + 1..], i - n - 1);
    }
  }

  lemma NoPending(t: seq<Message>)
    requires WellPaired(t)
    ensures LastPendingAssistant(t) == None
  {
    if t != [] && HasToolUse(t[|t| - 1]) {
      var m := t[|t| - 1];
      var i :| 0 <= i < |m.content| && m.content[i].ToolUse?;
      UseMakesCall(m.content, i);
      PairedEndsAnswered(t);
      PairedHasNoMixedMessage(t, |t| - 1);
    }
  }

  lemma ReplyKeepsPaired(it: nat, t: Turn, m: Message, tokens: nat)
    requires Headed(t.transcript) && WellPaired(t.transcript) && NotSystem(m) && !HasToolResult(m)
    requires NoGate(t.events) && AskedBefore(t.asked, it, 0)
    ensures var t' := AfterReply(t, it, m, tokens);
            && t'.transcript == t.transcript + [m] && t'.asked == t.asked && NoGate(t'.events)
            && Headed(t'.transcript)
            && (if Calls(m) == [] then WellPaired(t'.transcript) else Open(t'.transcript))
  {
    AppendHeaded(t.transcript, m);
    if Calls(m) == [] { AppendPlain(t.transcript, m); }
    assert (t.transcript + [m])[..|t.transcript|] == t.transcript;
    EmitGate(t, MessageEvent(m));
    EmitGate(Emit(t, MessageEvent(m)), UsageEvent(tokens));
  }

  /** The ways in which asking the model can go on or stop. */
  lemma HearForms(p: Ports, core: Core, req: TurnRequest, st: LoopState, history: seq<Message>, t: Turn)
    requires Pending(core, req, st.iteration, history).None?
    ensures var res := Hear(p, core, req, st, history, t);
            var answer, hook := p.model(st.iteration), p.afterRound(st.iteration);
            && (res.Again? ==> answer.Replied? && hook == Ok(Continue) && res.value.message == answer.message
                               && res.value.turn == AfterReply(t, st.iteration, answer.message, answer.tokens))
            && (res.Done? ==>
                  || res.turn == Emit(t.(modelCalls := t.modelCalls + 1), Stopped(Halted))
                  || (answer.Replied? && hook == Ok(ShortCircuit)
                      && res.turn
                         == Emit(AfterReply(t, st.iteration, answer.message, answer.tokens), Stopped(NoToolCall))))
  {
  }

  lemma HearKeepsPaired(p: Ports, core: Core, req: TurnRequest, st: LoopState, history: seq<Message>, t: Turn)
    requires WellBehaved(p) && Headed(t.transcript) && WellPaired(t.transcript)
    requires NoGate(t.events) && AskedBefore(t.asked, st.iteration, 0)
    requires Pending(core, req, st.iteration, history).None?
    ensures var res := Hear(p, core, req, st, history, t);
            && (res.Again? ==> ReadyToAct(st.iteration, res.value))
            && (res.Done? ==> WellPaired(res.turn.transcript) && NoGate(res.turn.events))
  {
    HearForms(p, core, req, st, history, t);
    var answer := p.model(st.iteration);
    if answer.Replied? {
      ReplyKeepsPaired(st.iteration, t, answer.message, answer.tokens);
      EmitGate(AfterReply(t, st.iteration, answer.message, answer.tokens), Stopped(NoToolCall));
    }
    EmitGate(t.(modelCalls := t.modelCalls + 1), Stopped(Halted));
  }

  /** A round over without a parked call closes the pairing of the message that asked for it. */
  lemma RoundCloses(t: Turn, it: nat, base: seq<Message>)
    requires base != [] && RoundOver(t, it, base[|base| - 1], base) && Headed(base)
    requires |t.transcript| - |base| == |Calls(base[|base| - 1])|
    ensures WellPaired(t.transcript) && Headed(t.transcript)
  {
    var calls := Calls(base[|base| - 1]);
    NoneParked(t.asked, it, calls, |calls|);
    assert calls[..|calls|] == calls;
    RefusalCloses(base, t.transcript);
  }

  /** Nothing asked in this iteration, nothing parked. */
  lemma {:induction false} NothingAsked(asked: seq<Asking>, it: nat, calls: seq<ToolCall>, k: nat)
    requires k <= |calls| && AskedBefore(asked, it, 0)
    ensures Unparked(asked, it, calls, k) == calls[..k]
  {
    if k > 0 {
      NothingAsked(asked, it, calls, k - 1);
      assert calls[..k] == calls[..k - 1] + [calls[k - 1]];
    }
  }

  /** A refused round answers every call. */
  lemma RefusalIsRound(p: Ports, core: Core, it: nat, heard: Heard, reason: StopReason)
    requires ReadyToAct(it, heard) && Calls(heard.message) != []
    requires RefuseCalls(p, it, Calls(heard.message), 0, reason, heard.turn).Again?
    ensures var t := RefuseCalls(p, it, Calls(heard.message), 0, reason, heard.turn).value;
            && RoundOver(t, it, heard.message, heard.turn.transcript) && NoGate(t.events)
            && |t.transcript| - |heard.turn.transcript| == |Calls(heard.message)|
            && t.executed == heard.turn.executed && t.modelCalls == heard.turn.modelCalls
  {
    var calls, base := Calls(heard.message), heard.turn.transcript;
    assert base[|base|..] == [] && calls[..0] == [] && calls[..|calls|] == calls;
    RefuseCallsAnswer(p, it, calls, 0, reason, base, heard.turn);
    RefuseSameDeeds(p, it, calls, 0, reason, heard.turn);
    NothingAsked(heard.turn.asked, it, calls, |calls|);
  }

  /** So does a round, but for the calls it parks. */
  lemma RoundIsRound(p: Ports, core: Core, run: RunId, h: Handler, it: nat, heard: Heard)
    requires ReadyToAct(it, heard) && Calls(heard.message) != [] && Harmless(h, run)
    requires RunCalls(p, core, run, h, it, Calls(heard.message), 0, Round(heard.turn, false, 0, 0)).Again?
    ensures var r := RunCalls(p, core, run, h, it, Calls(heard.message), 0, Round(heard.turn, false, 0, 0)).value;
            && RoundOver(r.turn, it, heard.message, heard.turn.transcript)
            && (r.suspended <==> |r.turn.transcript| - |heard.turn.transcript| < |Calls(heard.message)|)
            && (r.suspended <==> !NoGate(r.turn.events))
            && AskedBefore(r.turn.asked, it + 1, 0)
            && r.turn.modelCalls == heard.turn.modelCalls
  {
    var calls, base, r := Calls(heard.message), heard.turn.transcript, Round(heard.turn, false, 0, 0);
    assert base[|base|..] == [];
    RunCallsPaired(p, core, run, h, it, calls, 0, base, r);
    RoundSameCalls(p, core, run, h, it, calls, 0, r);
  }

  lemma ActKeepsPaired(p: Ports, core: Core, run: RunId, h: Handler, it: nat, heard: Heard)
    requires ReadyToAct(it, heard) && Harmless(h, run)
    ensures var res := Act(p, core, run, h, it, heard);
            && (res.Again? ==> IsPairedHead(res.value))
            && (res.Done? ==> PairedExit(res.turn, it))
  {
    var calls, base := Calls(heard.message), heard.turn.transcript;
    if calls != [] {
      if RoundStop(p, core, it, heard).Some? {
        var reason := RoundStop(p, core, it, heard).value;
        if RefuseCalls(p, it, calls, 0, reason, heard.turn).Again? {
          RefusalIsRound(p, core, it, heard, reason);
          RoundExits(it, base, Round(RefuseCalls(p, it, calls, 0, reason, heard.turn).value, false, 0, 0));
        }
      } else if RunCalls(p, core, run, h, it, calls, 0, Round(heard.turn, false, 0, 0)).Again? {
        RoundIsRound(p, core, run, h, it, heard);
        RoundExits(it, base, RunCalls(p, core, run, h, it, calls, 0, Round(heard.turn, false, 0, 0)).value);
      }
    }
  }

  /** A round that ends the run leaves it paired, or its parked calls open. */
  lemma RoundExits(it: nat, base: seq<Message>, r: Round)
    requires base != [] && Headed(base) && RoundOver(r.turn, it, base[|base| - 1], base)
    requires r.suspended <==> |r.turn.transcript| - |base| < |Calls(base[|base| - 1])|
    requires r.suspended <==> !NoGate(r.turn.events)
    ensures forall reason :: PairedExit(Emit(r.turn, Stopped(reason)), it)
    ensures !r.suspended ==> Headed(r.turn.transcript) && WellPaired(r.turn.transcript)
  {
    if r.suspended { PartlyIsNotPaired(r.turn, it, base); } else { RoundCloses(r.turn, it, base); }
    forall reason
      ensures PairedExit(Emit(r.turn, Stopped(reason)), it)
    {
      EmitGate(r.turn, Stopped(reason));
      if r.suspended { assert PartlyAnswered(Emit(r.turn, Stopped(reason)), it, base); }
    }
  }

  lemma PreparedTurn(p: Ports, core: Core, run: RunId, it: nat, t: Turn)
    ensures var res := Prepare(p, core, run, it, t);
            && (res.Again? ==> Compact(p, core, run, it, t) == Again(res.value))
            && (res.Done? ==>
                  || res.turn == Emit(t, Stopped(NoToolCall))
                  || (Compact(p, core, run, it, t).Again?
                      && res.turn == Emit(Compact(p, core, run, it, t).value, Stopped(NoToolCall))))
  {
  }

  lemma PrepareKeepsPaired(p: Ports, core: Core, run: RunId, it: nat, t: Turn)
    requires WellBehaved(p) && IsPairedHead(LoopState(it, 0, t))
    ensures var res := Prepare(p, core, run, it, t);
            && (res.Again? ==> IsPairedHead(LoopState(it, 0, res.value)))
            && (res.Done? ==> WellPaired(res.turn.transcript) && NoGate(res.turn.events))
  {
    PreparedTurn(p, core, run, it, t);
    EmitGate(t, Stopped(NoToolCall));
    if Compact(p, core, run, it, t).Again? {
      CompactKeepsPaired(p, core, run, it, t);
      CompactIsReplace(p, core, run, it, t);
      EmitGate(Compact(p, core, run, it, t).value, Stopped(NoToolCall));
    }
  }

  lemma EnterKeepsPaired(p: Ports, core: Core, st: LoopState)
    requires IsPairedHead(st)
    ensures var res := Enter(p, core, st);
            && (res.Again? ==> IsPairedHead(LoopState(st.iteration, 0, res.value)))
            && (res.Done? ==> WellPaired(res.turn.transcript) && NoGate(res.turn.events))
  {
    EmitGate(st.turn, Stopped(Halted));
    match StopBefore(core.limits, st.tokens, st.iteration) {
      case Some(reason) => EmitGate(st.turn, Stopped(reason));
      case None =>
        if Enter(p, core, st).Again? { NotesKeepPaired(p, st.iteration, p.notes(st.iteration).value, 0, st.turn); }
    }
  }

  lemma PairedIteration(p: Ports, core: Core, req: TurnRequest, h: Handler, st: LoopState)
    requires WellBehaved(p) && Harmless(h, req.run) && IsPairedHead(st)
    ensures var res := Iterate(p, core, req, h, st);
            && (res.Again? ==> IsPairedHead(res.value))
            && (res.Done? ==> PairedExit(res.turn, st.iteration))
  {
    EnterKeepsPaired(p, core, st);
    if Enter(p, core, st).Again? {
      var entered := Enter(p, core, st).value;
      PrepareKeepsPaired(p, core, req.run, st.iteration, entered);
      if Prepare(p, core, req.run, st.iteration, entered).Again? {
        var prepared := Prepare(p, core, req.run, st.iteration, entered).value;
        NoPending(entered.transcript);
        HearKeepsPaired(p, core, req, st, entered.transcript, prepared);
        if Hear(p, core, req, st, entered.transcript, prepared).Again? {
          var heard := Hear(p, core, req, st, entered.transcript, prepared).value;
          ActKeepsPaired(p, core, req.run, h, st.iteration, heard);
        }
      }
    }
  }

  // ----- taking up a pending message -----

  /** The pending message was acted on, before any model call: its round is over, and exactly its
      allowed calls were executed, or none of them where the round was refused. */
  ghost predicate TakenUp(p: Ports, core: Core, it: nat, m: Message, base: seq<Message>, t: Turn) {
    && t.modelCalls == 0 && RoundOver(t, it, m, base)
    && (|| ExecutedAllowed(p, core, it, Calls(m), |Calls(m)|, t.executed)
        || (t.executed == [] && |t.transcript| - |base| == |Calls(m)|))
  }

  ghost predicate TakesUp(p: Ports, core: Core, it: nat, m: Message, t: Turn) {
    exists base :: TakenUp(p, core, it, m, base, t)
  }

  /** The run stopped before it came to the pending message, which is still the newest. */
  ghost predicate LeftOpen(m: Message, t: Turn) {
    Open(t.transcript) && t.transcript[|t.transcript| - 1] == m && t.executed == [] && t.modelCalls == 0
  }

  lemma PrepareKeepsOpen(p: Ports, core: Core, run: RunId, it: nat, t: Turn)
    requires WellBehaved(p) && Headed(t.transcript) && Open(t.transcript) && NoGate(t.events) && t.asked == []
    requires t.executed == [] && t.modelCalls == 0
    ensures var res := Prepare(p, core, run, it, t); var m := t.transcript[|t.transcript| - 1];
            && (res.Again? ==> LeftOpen(m, res.value) && Headed(res.value.transcript)
                               && NoGate(res.value.events) && res.value.asked == [])
            && (res.Done? ==> LeftOpen(m, res.turn))
  {
    PreparedTurn(p, core, run, it, t);
    if Compact(p, core, run, it, t).Again? {
      CompactKeepsOpen(p, core, run, it, t);
      CompactIsReplace(p, core, run, it, t);
    }
  }

  lemma ActTakesUp(p: Ports, core: Core, run: RunId, h: Handler, it: nat, heard: Heard)
    requires ReadyToAct(it, heard) && Harmless(h, run) && Calls(heard.message) != []
    requires heard.turn.executed == [] && heard.turn.modelCalls == 0
    ensures var res := Act(p, core, run, h, it, heard);
            && (res.Again? ==> TakenUp(p, core, it, heard.message, heard.turn.transcript, res.value.turn))
            && (res.Done? ==> TakenUp(p, core, it, heard.message, heard.turn.transcript, res.turn))
  {
    var calls, r := Calls(heard.message), Round(heard.turn, false, 0, 0);
    if RoundStop(p, core, it, heard).Some? {
      var reason := RoundStop(p, core, it, heard).value;
      if RefuseCalls(p, it, calls, 0, reason, heard.turn).Again? { RefusalIsRound(p, core, it, heard, reason); }
    } else if RunCalls(p, core, run, h, it, calls, 0, r).Again? {
      RoundIsRound(p, core, run, h, it, heard);
      RunCallsExecute(p, core, run, h, it, calls, 0, r);
    }
  }

  /** The first iteration of a resume, on a fresh turn: the pending message is acted on, even if
      compaction fires, unless the run stops first. */
  lemma ResumingIteration(p: Ports, core: Core, req: TurnRequest, h: Handler, st: LoopState)
    requires WellBehaved(p) && Harmless(h, req.run) && IsResumingHead(p, core, req, st)
    ensures var res := Iterate(p, core, req, h, st); var m := st.turn.transcript[|st.turn.transcript| - 1];
            && (res.Again? ==> IsPairedHead(res.value) && TakesUp(p, core, st.iteration, m, res.value.turn))
            && (res.Done? ==>
                  || LeftOpen(m, res.turn)
                  || (PairedExit(res.turn, st.iteration) && TakesUp(p, core, st.iteration, m, res.turn)))
  {
    if Enter(p, core, st).Again? {
      var entered := Enter(p, core, st).value;
      EntersAsItWas(p, core, st);
      PrepareKeepsOpen(p, core, req.run, st.iteration, entered);
      if Prepare(p, core, req.run, st.iteration, entered).Again? {
        var prepared := Prepare(p, core, req.run, st.iteration, entered).value;
        var m := entered.transcript[|entered.transcript| - 1];
        HearsPending(p, core, req, st, entered.transcript, prepared);
        ActOnPending(p, core, req.run, h, st.iteration, Heard(m, 0, st.tokens, prepared));
      }
    }
  }

  lemma EntersAsItWas(p: Ports, core: Core, st: LoopState)
    requires p.notes(st.iteration) == Ok([]) && Enter(p, core, st).Again?
    ensures Enter(p, core, st).value == st.turn
  {
  }

  lemma HearsPending(p: Ports, core: Core, req: TurnRequest, st: LoopState, history: seq<Message>, prepared: Turn)
    requires Open(history) && history[|history| - 1].role == Assistant
    requires st.iteration == StartIteration(req) && req.seed.Resume? && core.resumeExecutesPending
    ensures Hear(p, core, req, st, history, prepared) == Again(Heard(history[|history| - 1], 0, st.tokens, prepared))
  {
    LastPending(history);
  }

  lemma ActOnPending(p: Ports, core: Core, run: RunId, h: Handler, it: nat, heard: Heard)
    requires LeftOpen(heard.message, heard.turn) && Headed(heard.turn.transcript) && Harmless(h, run)
    requires NoGate(heard.turn.events) && heard.turn.asked == []
    ensures var res := Act(p, core, run, h, it, heard);
            && (res.Again? ==> IsPairedHead(res.value) && TakesUp(p, core, it, heard.message, res.value.turn))
            && (res.Done? ==> PairedExit(res.turn, it) && TakesUp(p, core, it, heard.message, res.turn))
  {
    assert ReadyToAct(it, heard);
    ActKeepsPaired(p, core, run, h, it, heard);
    ActTakesUp(p, core, run, h, it, heard);
  }

  // ----- the loop -----

  /** The loop head of the last iteration. */
  function LastHead(p: Ports, core: Core, req: TurnRequest, h: Handler, st: LoopState): LoopState
    decreases SaturatingSub(core.limits.maxSteps, st.iteration)
  {
    match Iterate(p, core, req, h, st)
    case Again(st') =>
      IterateAdvances(p, core, req, h, st);
      LastHead(p, core, req, h, st')
    case _ => st
  }

  lemma {:induction false} LoopKeepsPaired(p: Ports, core: Core, req: TurnRequest, h: Handler, st: LoopState)
    requires WellBehaved(p) && Harmless(h, req.run) && IsPairedHead(st)
    ensures Loop(p, core, req, h, st).Done? ==>
              PairedExit(Loop(p, core, req, h, st).turn, LastHead(p, core, req, h, st).iteration)
    decreases SaturatingSub(core.limits.maxSteps, st.iteration)
  {
    PairedIteration(p, core, req, h, st);
    var res := Iterate(p, core, req, h, st);
    if res.Again? {
      IterateAdvances(p, core, req, h, st);
      LoopKeepsPaired(p, core, req, h, res.value);
    }
  }

  function NextHead(p: Ports, core: Core, req: TurnRequest, h: Handler, st: LoopState): Option<LoopState> {
    match Iterate(p, core, req, h, st)
    case Again(st') => Some(st')
    case _ => None
  }

  function Follow(next: LoopState -> Option<LoopState>, st: LoopState, n: nat): Option<LoopState>
    decreases n
  {
    if n == 0 then Some(st)
    else match next(st)
         case Some(st') => Follow(next, st', n - 1)
         case None => None
  }

  /** The loop head reached after `n` iterations, if the run gets there. */
  function HeadAfter(p: Ports, core: Core, req: TurnRequest, h: Handler, st: LoopState, n: nat): Option<LoopState> {
    Follow(s => NextHead(p, core, req, h, s), st, n)
  }

  lemma {:induction false} FollowKeeps(
      next: LoopState -> Option<LoopState>, inv: LoopState -> bool, st: LoopState, n: nat, st': LoopState)
    requires inv(st) && forall s, s' :: inv(s) && next(s) == Some(s') ==> inv(s')
    requires Follow(next, st, n) == Some(st')
    ensures inv(st')
    decreases n
  {
    if n > 0 {
      FollowKeeps(next, inv, next(st).value, n - 1, st');
    }
  }

  lemma HeadsStayPaired(p: Ports, core: Core, req: TurnRequest, h: Handler, st: LoopState, n: nat, st': LoopState)
    requires WellBehaved(p) && Harmless(h, req.run) && IsPairedHead(st)
    requires HeadAfter(p, core, req, h, st, n) == Some(st')
    ensures IsPairedHead(st')
  {
    var next := s => NextHead(p, core, req, h, s);
    forall s, s' | IsPairedHead(s) && next(s) == Some(s')
      ensures IsPairedHead(s')
    {
      PairedIteration(p, core, req, h, s);
    }
    FollowKeeps(next, s => IsPairedHead(s), st, n, st');
  }

  /** A new message on a paired transcript: every loop head is paired; a clean end is paired if
      and only if no gate was opened, and else leaves open exactly the calls of the last
      iteration's round that the gate is recorded to have parked. */
  lemma RunPairing(p: Ports, core: Core, req: TurnRequest, h: Handler, transcript: seq<Message>)
    requires WellBehaved(p) && Harmless(h, req.run) && Headed(transcript) && WellPaired(transcript)
    requires req.seed.NewMessage? && NotSystem(req.seed.message) && IsPlain(req.seed.message)
    ensures forall n: nat, st: LoopState :: HeadAfter(p, core, req, h, Started(req, transcript), n) == Some(st) ==>
              WellPaired(st.turn.transcript)
    ensures var res := RunTurn(p, core, req, h, transcript, true);
            res.Done? ==> PairedExit(res.turn, LastHead(p, core, req, h, Started(req, transcript)).iteration)
  {
    var st := Started(req, transcript);
    AppendHeaded(transcript, req.seed.message);
    AppendPlain(transcript, req.seed.message);
    LoopKeepsPaired(p, core, req, h, st);
    forall n: nat, st': LoopState | HeadAfter(p, core, req, h, st, n) == Some(st')
      ensures WellPaired(st'.turn.transcript)
    {
      HeadsStayPaired(p, core, req, h, st, n, st');
    }
  }

  /** A resume of a turn whose every call was parked, without a steering note in between. Either
      the run stops with the pending message still the newest and nothing done; or the first
      iteration takes up this very message, and the run goes on and ends paired like any other. */
  lemma ResumePairing(p: Ports, core: Core, req: TurnRequest, h: Handler, transcript: seq<Message>)
    requires WellBehaved(p) && Harmless(h, req.run) && IsResumingHead(p, core, req, Started(req, transcript))
    ensures var st := Started(req, transcript); var m := transcript[|transcript| - 1];
            var first, res := Iterate(p, core, req, h, st), RunTurn(p, core, req, h, transcript, true);
            && (first.Again? ==> TakesUp(p, core, st.iteration, m, first.value.turn))
            && (first.Done? ==> LeftOpen(m, first.turn) || TakesUp(p, core, st.iteration, m, first.turn))
            && (res.Done? ==> LeftOpen(m, res.turn) || PairedExit(res.turn, LastHead(p, core, req, h, st).iteration))
  {
    var st := Started(req, transcript);
    ResumingIteration(p, core, req, h, st);
    var res := Iterate(p, core, req, h, st);
    if res.Again? { LoopKeepsPaired(p, core, req, h, res.value); }
  }

  // ----- where pairing is given up -----

  /** After an `after_round` short-circuit the transcript is paired exactly when the reply made no
      calls. */
  lemma ShortCircuitOrphans(p: Ports, core: Core, req: TurnRequest, st: LoopState, history: seq<Message>, t: Turn)
    requires WellPaired(t.transcript) && Pending(core, req, st.iteration, history).None?
    requires p.model(st.iteration).Replied? && !HasToolResult(p.model(st.iteration).message)
    requires p.replyStored(st.iteration) && p.afterRound(st.iteration) == Ok(ShortCircuit)
    ensures var res := Hear(p, core, req, st, history, t);
            res.Done? && (WellPaired(res.turn.transcript) <==> Calls(p.model(st.iteration).message) == [])
  {
    var m := p.model(st.iteration).message;
    if Calls(m) != [] {
      TooFewIsNotPaired(t.transcript, m, []);
      assert t.transcript + [m] + [] == t.transcript + [m];
    } else {
      AppendPlain(t.transcript, m);
    }
  }

  function NoteMessages(notes: seq<string>): seq<Message> {
    Map((n: string) => UserMessage("[steering] " + n), notes)
  }

  /** What a resume looks for: an assistant message at the very end that makes a call. */
  lemma PendingIs(history: seq<Message>, m: Message)
    ensures LastPendingAssistant(history) == Some(m) <==>
              && history != [] && history[|history| - 1] == m && m.role == Assistant && Calls(m) != []
  {
    if Calls(m) != [] { CallsNeedUse(m.content); }
    if HasToolUse(m) {
      var i :| 0 <= i < |m.content| && m.content[i].ToolUse?;
      UseMakesCall(m.content, i);
    }
  }

  /** A resume finds the parked calls exactly when no call of that round was answered and no
      steering note came after it. */
  lemma ResumeFindsPending(t: Turn, it: nat, base: seq<Message>, notes: seq<string>)
    requires PartlyAnswered(t, it, base) && base[|base| - 1].role == Assistant
    ensures LastPendingAssistant(t.transcript + NoteMessages(notes)).Some? <==> t.transcript == base && notes == []
  {
    var ns, tr := NoteMessages(notes), t.transcript;
    if notes == [] {
      assert tr + ns == tr;
      if tr == base {
        LastPending(base);
      } else {
        assert tr[|tr| - 1].role == Tool;
      }
    } else {
      assert (tr + ns)[|tr + ns| - 1] == ns[|ns| - 1];
    }
  }
}
