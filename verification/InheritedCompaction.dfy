/** What an inherited compaction extension does: a child that is not isolated keeps its parent's,
    whose run is fixed (agent-core/src/fanout.rs:300-326, agent-core/src/compaction.rs:643-698). */
module InheritedCompaction {
  import opened Wrappers
  import opened Chat
  import opened Compaction
  import opened CompactionRuns
  import opened Pairing
  import opened Approval
  import opened Budget
  import opened AgentLoop
  import opened LoopGuarantees
  import opened LoopPairing
  import opened Delegation

  // ----- the head writes of one run -----

  /** What a pass over `t` writes over the head of another run: the summary, if one completes. */
  function WriteAt(p: Ports, core: Core, run: RunId, it: nat, t: Turn): seq<HeadWrite> {
    if core.compaction.None? || core.compaction.value.run == run || !p.headReplaced(it) then []
    else match CallOf(core.compaction.value.compactor, p.request(it, t.transcript), None, p.summarize(it))
         case None => []
         case Some(call) => [HeadWrite(core.compaction.value.run, call.summary, call.upto)]
  }

  function PreparedWrite(p: Ports, core: Core, run: RunId, it: nat, t: Turn): seq<HeadWrite> {
    if p.prepare(it) == Ok(Continue) then WriteAt(p, core, run, it, t) else []
  }

  function IterationWrite(p: Ports, core: Core, run: RunId, st: LoopState): seq<HeadWrite> {
    match Enter(p, core, st)
    case Again(entered) => PreparedWrite(p, core, run, st.iteration, entered)
    case _ => []
  }

  /** The summaries that a run writes over the heads of other runs, in order. */
  function SummariesElsewhere(p: Ports, core: Core, req: TurnRequest, h: Handler, st: LoopState): seq<HeadWrite>
    decreases SaturatingSub(core.limits.maxSteps, st.iteration)
  {
    IterationWrite(p, core, req.run, st)
    + match Iterate(p, core, req, h, st)
      case Again(st') =>
        IterateAdvances(p, core, req, h, st);
        SummariesElsewhere(p, core, req, h, st')
      case _ => []
  }

  ghost predicate WritesNothing(h: Handler) {
    forall it, ord, call :: h(it, ord, call).writes == []
  }

  predicate IsElsewhere(core: Core, run: RunId) { core.compaction.Some? && core.compaction.value.run != run }

  /** What a phase adds to the foreign writes; and a run whose extension writes elsewhere only
      adds to its own messages. */
  ghost predicate Adds(core: Core, run: RunId, t: Turn, t': Turn, ws: seq<HeadWrite>) {
    t'.foreign == t.foreign + ws && (IsElsewhere(core, run) ==> t.transcript <= t'.transcript)
  }

  lemma AddsInTurn(core: Core, run: RunId, t: Turn, t': Turn, t'': Turn, ws: seq<HeadWrite>, ws': seq<HeadWrite>)
    requires Adds(core, run, t, t', ws) && Adds(core, run, t', t'', ws')
    ensures Adds(core, run, t, t'', ws + ws')
  {
    assert t.foreign + ws + ws' == t.foreign + (ws + ws');
  }

  lemma CompactAdds(p: Ports, core: Core, run: RunId, it: nat, t: Turn)
    ensures Adds(core, run, t, TurnOf(Compact(p, core, run, it, t), (t: Turn) => t), WriteAt(p, core, run, it, t))
  {
    if core.compaction.Some? {
      CompactForms(p, core, run, it, t);
      WriteIsCall(core.compaction.value.compactor, p.request(it, t.transcript), None, p.summarize(it));
    }
  }

  /** Neither the foreign writes nor the messages said so far change. */
  ghost predicate Grows(t: Turn, t': Turn) { t'.foreign == t.foreign && t.transcript <= t'.transcript }

  lemma {:induction false} NotesGrow(p: Ports, it: nat, notes: seq<string>, i: nat, t: Turn)
    requires i <= |notes|
    ensures Grows(t, TurnOf(AppendNotes(p, it, notes, i, t), (t: Turn) => t))
    decreases |notes| - i
  {
    if i < |notes| && p.noteStored(it, i) {
      NotesGrow(p, it, notes, i + 1, Say(t, FromSteering(it, i), UserMessage("[steering] " + notes[i])));
    }
  }

  lemma EnterGrows(p: Ports, core: Core, st: LoopState)
    ensures Grows(st.turn, TurnOf(Enter(p, core, st), (t: Turn) => t))
  {
    if p.notes(st.iteration).Ok? { NotesGrow(p, st.iteration, p.notes(st.iteration).value, 0, st.turn); }
  }

  lemma HearGrows(p: Ports, core: Core, req: TurnRequest, st: LoopState, history: seq<Message>, t: Turn)
    ensures Grows(t, TurnOf(Hear(p, core, req, st, history, t), (h: Heard) => h.turn))
  {
  }

  lemma {:induction false} RefusalGrows(
      p: Ports, it: nat, calls: seq<ToolCall>, ord: nat, reason: StopReason, t: Turn)
    requires ord <= |calls|
    ensures Grows(t, TurnOf(RefuseCalls(p, it, calls, ord, reason, t), (t: Turn) => t))
    decreases |calls| - ord
  {
    if ord < |calls| && p.resultStored(it, ord) {
      var why := "tool not executed: agent stopped (" + ReasonName(reason) + ")";
      RefusalGrows(p, it, calls, ord + 1, reason, Refuse(p, it, ord, calls[ord], why, t).value);
    }
  }

  lemma {:induction false} RoundGrows(
      p: Ports, core: Core, run: RunId, h: Handler, it: nat, calls: seq<ToolCall>, ord: nat, r: Round)
    requires ord <= |calls| && WritesNothing(h)
    ensures Grows(r.turn, TurnOf(RunCalls(p, core, run, h, it, calls, ord, r), (r: Round) => r.turn))
    decreases |calls| - ord
  {
    if ord < |calls| {
      CallGrows(p, core, run, h, it, ord, calls[ord], r);
      var res := RunCall(p, core, run, h, it, ord, calls[ord], r);
      if res.Again? { RoundGrows(p, core, run, h, it, calls, ord + 1, res.value); }
    }
  }

  lemma SettleGrows(
      p: Ports, run: RunId, it: nat, ord: nat, call: ToolCall, reply: ToolReply, isCore: bool, r: Round)
    ensures Grows(r.turn, TurnOf(Settle(p, run, it, ord, call, reply, isCore, r), (r: Round) => r.turn))
  {
  }

  lemma CallGrows(p: Ports, core: Core, run: RunId, h: Handler, it: nat, ord: nat, call: ToolCall, r: Round)
    requires WritesNothing(h)
    ensures Grows(r.turn, TurnOf(RunCall(p, core, run, h, it, ord, call, r), (r: Round) => r.turn))
  {
    if IsCoreCall(call) {
      assert r.(turn := WroteAll(run, r.turn, h(it, ord, call).writes)) == r;
      SettleGrows(p, run, it, ord, call, h(it, ord, call).reply, true, r);
    } else if DecisionFor(p, core, it, ord, call) == Auto {
      SettleGrows(p, run, it, ord, call, ReplyOf(p, it, ord), false, r);
    } else {
      AskedCallGrows(p, core, run, h, it, ord, call, r);
    }
  }

  lemma AskedCallGrows(p: Ports, core: Core, run: RunId, h: Handler, it: nat, ord: nat, call: ToolCall, r: Round)
    requires !IsCoreCall(call) && DecisionFor(p, core, it, ord, call) != Auto
    ensures Grows(r.turn, TurnOf(RunCall(p, core, run, h, it, ord, call, r), (r: Round) => r.turn))
  {
  }

  lemma ActGrows(p: Ports, core: Core, run: RunId, h: Handler, it: nat, heard: Heard)
    requires WritesNothing(h)
    ensures Grows(heard.turn, TurnOf(Act(p, core, run, h, it, heard), (st: LoopState) => st.turn))
  {
    var calls := Calls(heard.message);
    if calls != [] {
      if RoundStop(p, core, it, heard).Some? {
        RefusalGrows(p, it, calls, 0, RoundStop(p, core, it, heard).value, heard.turn);
      } else {
        RoundGrows(p, core, run, h, it, calls, 0, Round(heard.turn, false, 0, 0));
      }
    }
  }

  lemma PrepareAdds(p: Ports, core: Core, run: RunId, it: nat, t: Turn)
    ensures Adds(core, run, t, TurnOf(Prepare(p, core, run, it, t), (t: Turn) => t), PreparedWrite(p, core, run, it, t))
  {
    CompactAdds(p, core, run, it, t);
  }

  /** One iteration: the messages it found, and its own write. */
  lemma IterateAdds(p: Ports, core: Core, req: TurnRequest, h: Handler, st: LoopState)
    requires WritesNothing(h)
    ensures var t' := TurnOf(Iterate(p, core, req, h, st), (st: LoopState) => st.turn);
            && Adds(core, req.run, st.turn, t', IterationWrite(p, core, req.run, st))
            && (Enter(p, core, st).Again? && IsElsewhere(core, req.run) ==>
                  Enter(p, core, st).value.transcript <= t'.transcript)
  {
    EnterGrows(p, core, st);
    if Enter(p, core, st).Again? {
      var entered := Enter(p, core, st).value;
      PrepareAdds(p, core, req.run, st.iteration, entered);
      if Prepare(p, core, req.run, st.iteration, entered).Again? {
        var prepared := Prepare(p, core, req.run, st.iteration, entered).value;
        HearGrows(p, core, req, st, entered.transcript, prepared);
        if Hear(p, core, req, st, entered.transcript, prepared).Again? {
          ActGrows(p, core, req.run, h, st.iteration, Hear(p, core, req, st, entered.transcript, prepared).value);
        }
      }
    }
  }

  /** The loop and its writes, unfolded once. */
  lemma WritesStep(p: Ports, core: Core, req: TurnRequest, h: Handler, st: LoopState)
    ensures var own, res := IterationWrite(p, core, req.run, st), Iterate(p, core, req, h, st);
            && SummariesElsewhere(p, core, req, h, st)
               == own + (if res.Again? then SummariesElsewhere(p, core, req, h, res.value) else [])
            && Loop(p, core, req, h, st).turn
               == if res.Again? then Loop(p, core, req, h, res.value).turn else res.turn
  {
  }

  /** A run that spawns nothing replaces exactly the foreign heads for which its own iterations
      complete summaries, in this order. */
  lemma {:induction false} LoopAdds(p: Ports, core: Core, req: TurnRequest, h: Handler, st: LoopState)
    requires WritesNothing(h)
    ensures Adds(core, req.run, st.turn, Loop(p, core, req, h, st).turn, SummariesElsewhere(p, core, req, h, st))
    decreases SaturatingSub(core.limits.maxSteps, st.iteration)
  {
    var own, res := IterationWrite(p, core, req.run, st), Iterate(p, core, req, h, st);
    IterateAdds(p, core, req, h, st);
    WritesStep(p, core, req, h, st);
    if res.Again? {
      IterateAdvances(p, core, req, h, st);
      LoopAdds(p, core, req, h, res.value);
      AddsInTurn(core, req.run, st.turn, res.value.turn, Loop(p, core, req, h, st).turn, own,
                 SummariesElsewhere(p, core, req, h, res.value));
    } else {
      assert own + [] == own;
    }
  }

  // ----- what the written summaries are about -----

  /** `x` replaces a head of the extension's run by a summary of the first `k` messages that
      iteration `it` found: its text answers the request made of them. */
  ghost predicate IsSummaryOf(
      p: Ports, core: Core, it: nat, history: seq<Message>, x: HeadWrite, k: nat, text: string)
  {
    var request := p.request(it, history);
    && core.compaction.Some? && x.run == core.compaction.value.run
    && 0 < k < |NonSystem(request)| && x.upto == |Priors(request)| + k
    && p.summarize(it)(SummaryInputFor(request, NonSystem(request)[..k])) == Ok(text)
    && x.summary == SummaryMessage(x.upto, text)
  }

  /** `x` summarizes what some iteration of a run found of its messages. */
  ghost predicate Summarises(p: Ports, core: Core, transcript: seq<Message>, x: HeadWrite) {
    exists it: nat, n: nat, k: nat, text: string ::
      n <= |transcript| && IsSummaryOf(p, core, it, transcript[..n], x, k, text)
  }

  lemma WriteSummarises(
      p: Ports, core: Core, run: RunId, it: nat, t: Turn, transcript: seq<Message>, x: HeadWrite)
    requires x in WriteAt(p, core, run, it, t) && t.transcript <= transcript
    ensures Summarises(p, core, transcript, x)
  {
    var c, request := core.compaction.value.compactor, p.request(it, t.transcript);
    var call := CallOf(c, request, None, p.summarize(it)).value;
    var k := FiresAt(c, request, None).value;
    CallIsOfFirst(c, request, p.summarize(it), call, k);
    assert transcript[..|t.transcript|] == t.transcript;
    assert IsSummaryOf(p, core, it, transcript[..|t.transcript|], x, k, call.text);
  }

  /** Whatever a run writes elsewhere is a summary of its own messages. */
  lemma {:induction false} LoopSummarises(
      p: Ports, core: Core, req: TurnRequest, h: Handler, st: LoopState, x: HeadWrite)
    requires WritesNothing(h) && x in SummariesElsewhere(p, core, req, h, st)
    ensures Summarises(p, core, Loop(p, core, req, h, st).turn.transcript, x)
    decreases SaturatingSub(core.limits.maxSteps, st.iteration)
  {
    var res := Iterate(p, core, req, h, st);
    WritesStep(p, core, req, h, st);
    if x in IterationWrite(p, core, req.run, st) {
      var entered := Enter(p, core, st).value;
      IterateAdds(p, core, req, h, st);
      if res.Again? { LoopAdds(p, core, req, h, res.value); }
      WriteSummarises(p, core, req.run, st.iteration, entered, Loop(p, core, req, h, st).turn.transcript, x);
    } else {
      IterateAdvances(p, core, req, h, st);
      LoopSummarises(p, core, req, h, res.value, x);
    }
  }

  // ----- children -----

  /** The summaries that a child writes over the head of the extension's run. */
  function ChildSummaries(w: World, child: RunId, spec: ChildSpec): seq<HeadWrite> {
    var req := ChildRequest(child);
    if IsRejected(w, child, spec) || !w.seedStored(child) then []
    else SummariesElsewhere(w.ports(child), CoreOf(w, child), req, HandlerOf(w, child, false), Started(req, []))
  }

  /** They are what it writes, and each is a summary of its own messages. */
  lemma ChildWritesSummaries(w: World, child: RunId, spec: ChildSpec)
    ensures ChildWrites(w, child, spec) == ChildSummaries(w, child, spec)
    ensures forall x :: x in ChildWrites(w, child, spec) ==>
              Summarises(w.ports(child), CoreOf(w, child), ChildRun(w, child).turn.transcript, x)
  {
    var p, core, req, h := w.ports(child), CoreOf(w, child), ChildRequest(child), HandlerOf(w, child, false);
    assert ChildRun(w, child) == RunAt(w, child, req, [], false)
        == RunTurn(p, core, req, h, [], w.seedStored(child));
    if !IsRejected(w, child, spec) && w.seedStored(child) {
      RefusedWithoutLeave(w, child);
      LoopAdds(p, core, req, h, Started(req, []));
      forall x | x in ChildSummaries(w, child, spec)
        ensures Summarises(p, core, ChildRun(w, child).turn.transcript, x)
      {
        LoopSummarises(p, core, req, h, Started(req, []), x);
      }
    }
  }

  // ----- what a delegate call does to its parent -----

  /** The children's writes happen in some order, each once. */
  ghost predicate Interleaves(w: World) {
    forall id, it, ord, lists ::
      multiset(w.interleave(id, it, ord, lists)) == multiset(Flatten(lists))
  }

  lemma {:induction false} FlattenEmpty<T>(lists: seq<seq<T>>)
    ensures Flatten(lists) == [] <==> forall i :: 0 <= i < |lists| ==> lists[i] == []
  {
    if lists != [] {
      FlattenEmpty(lists[1..]);
      assert (forall i :: 0 <= i < |lists| ==> lists[i] == []) <==>
             lists[0] == [] && forall i :: 0 <= i < |lists| - 1 ==> lists[1..][i] == [];
    }
  }

  lemma {:induction false} FlattenFrom<T>(lists: seq<seq<T>>, x: T) returns (i: nat)
    requires x in Flatten(lists)
    ensures i < |lists| && x in lists[i]
  {
    if x in lists[0] {
      i := 0;
    } else {
      i := FlattenFrom(lists[1..], x);
      i := i + 1;
    }
  }

  lemma SameElements<T>(a: seq<T>, b: seq<T>)
    requires multiset(a) == multiset(b)
    ensures |a| == |b| && forall x :: x in a ==> x in b
  {
    assert |multiset(a)| == |a| && |multiset(b)| == |b|;
    forall x | x in a ensures x in b { assert x in multiset(a); }
  }

  /** No child of this call writes a summary. */
  ghost predicate NoneSummarises(w: World, id: RunId, it: nat, ord: nat, specs: seq<ChildSpec>) {
    forall i :: 0 <= i < |specs| ==> ChildSummaries(w, RunId.Child(id, it, ord, i), specs[i]) == []
  }

  /** `x` is the `i`-th child's write, and a summary of that child's messages. */
  ghost predicate IsWrittenBy(
      w: World, id: RunId, it: nat, ord: nat, specs: seq<ChildSpec>, x: HeadWrite, i: nat)
  {
    var child := RunId.Child(id, it, ord, i);
    && i < |specs| && x in ChildSummaries(w, child, specs[i])
    && Summarises(w.ports(child), CoreOf(w, child), ChildRun(w, child).turn.transcript, x)
  }

  ghost predicate IsChildSummary(w: World, id: RunId, it: nat, ord: nat, specs: seq<ChildSpec>, x: HeadWrite) {
    && !w.isolateChildren && w.core.compaction.Some? && x.run == w.core.compaction.value.run
    && x.upto > 0 && IsPriorSummary(x.summary)
    && exists i: nat :: IsWrittenBy(w, id, it, ord, specs, x, i)
  }

  /** The writes of a delegate call: none exactly when no child completes a summary; and each is
      some child's summary of its own messages, over the head of the extension's run. */
  lemma DelegateWrites(w: World, id: RunId, it: nat, ord: nat, call: ToolCall, allow: bool)
    requires Interleaves(w) && IsDelegateCall(call)
    ensures var writes, specs := HandleCoreTool(w, id, it, ord, call, allow).writes, SpecsOf(w, id, it, call, allow).0;
            && (writes == [] <==> NoneSummarises(w, id, it, ord, specs))
            && forall x :: x in writes ==> IsChildSummary(w, id, it, ord, specs, x)
  {
    var specs := SpecsOf(w, id, it, call, allow).0;
    if specs != [] {
      var lists := Delegation.WritesOf(w, id, it, ord, specs);
      var writes := HandleCoreTool(w, id, it, ord, call, allow).writes;
      assert writes == w.interleave(id, it, ord, lists);
      forall i | 0 <= i < |specs|
        ensures lists[i] == ChildSummaries(w, RunId.Child(id, it, ord, i), specs[i])
      {
        ChildWritesSummaries(w, RunId.Child(id, it, ord, i), specs[i]);
      }
      FlattenEmpty(lists);
      SameElements(writes, Flatten(lists));
      forall x | x in writes
        ensures IsChildSummary(w, id, it, ord, specs, x)
      {
        var i := FlattenFrom(lists, x);
        WrittenIsSummary(w, id, it, ord, specs, x, i);
      }
    }
  }

  lemma WrittenIsSummary(w: World, id: RunId, it: nat, ord: nat, specs: seq<ChildSpec>, x: HeadWrite, i: nat)
    requires i < |specs| && x in ChildSummaries(w, RunId.Child(id, it, ord, i), specs[i])
    ensures IsChildSummary(w, id, it, ord, specs, x)
  {
    var child := RunId.Child(id, it, ord, i);
    ChildWritesSummaries(w, child, specs[i]);
    var p, core, transcript := w.ports(child), CoreOf(w, child), ChildRun(w, child).turn.transcript;
    var round: nat, n: nat, k: nat, text: string :|
      n <= |transcript| && IsSummaryOf(p, core, round, transcript[..n], x, k, text);
    SummaryIsPrior(x.upto, text);
    assert IsWrittenBy(w, id, it, ord, specs, x, i);
  }

  /** How many messages of a long transcript such writes drop: the first write takes as many as it
      names, and each later one takes the summary before it in their number. */
  function Lost(ws: seq<HeadWrite>): nat {
    if ws == [] then 0
    else if |ws| == 1 then ws[0].upto
    else ws[0].upto + SaturatingSub(Lost(ws[1..]), 1)
  }

  ghost predicate AllOver(run: RunId, ws: seq<HeadWrite>) {
    forall x :: x in ws ==> x.run == run && x.upto > 0
  }

  lemma {:induction false} LostSome(run: RunId, ws: seq<HeadWrite>)
    requires ws != [] && AllOver(run, ws)
    ensures Lost(ws) > 0
  {
    assert ws[0] in ws;
  }

  /** One head replacement before another. */
  lemma CutTwice<T>(t: seq<T>, x: T, a: nat, b: nat)
    requires b > 0
    ensures var t' := [x] + t[Min(a, |t|)..]; t'[Min(b, |t'|)..] == t[Min(a + (b - 1), |t|)..]
  {
  }

  /** Writes over a run's head leave the last summary and the messages that none of them took. */
  lemma {:induction false} OwnWritesCut(run: RunId, t: Turn, ws: seq<HeadWrite>)
    requires ws != [] && AllOver(run, ws)
    ensures WroteAll(run, t, ws).transcript
         == [ws[|ws| - 1].summary] + t.transcript[Min(Lost(ws), |t.transcript|)..]
    decreases |ws|
  {
    assert ws[0] in ws;
    var t' := Wrote(run, t, ws[0]);
    if |ws| == 1 {
      assert WroteAll(run, t', ws[1..]) == t';
    } else {
      OwnWritesCut(run, t', ws[1..]);
      LostSome(run, ws[1..]);
      CutTwice(t.transcript, ws[0].summary, ws[0].upto, Lost(ws[1..]));
    }
  }

  /** What is left of a transcript under these writes. */
  ghost predicate LeavesTail(id: RunId, writes: seq<HeadWrite>) {
    && writes != [] && Lost(writes) >= writes[0].upto > 0
    && forall t: Turn :: WroteAll(id, t, writes).transcript
                         == [writes[|writes| - 1].summary] + t.transcript[Min(Lost(writes), |t.transcript|)..]
  }

  /** Exactly when is the transcript of a delegating run left alone by its delegate call, where
      the extension was made for this run: when its children are isolated, or there is no
      extension, or none of them completes a summary. Otherwise the first messages of the run, as
      many as the children's writes take, are gone, and in their place stands a child's summary
      of that child's own messages. */
  lemma ParentUntouched(w: World, id: RunId, it: nat, ord: nat, call: ToolCall, allow: bool)
    requires Interleaves(w) && IsDelegateCall(call)
    requires w.core.compaction.Some? ==> w.core.compaction.value.run == id
    ensures var writes, specs := HandleCoreTool(w, id, it, ord, call, allow).writes, SpecsOf(w, id, it, call, allow).0;
            var untouched := w.isolateChildren || w.core.compaction.None? || NoneSummarises(w, id, it, ord, specs);
            && (untouched <==> forall t: Turn :: WroteAll(id, t, writes) == t)
            && (!untouched ==> LeavesTail(id, writes))
            && forall x :: x in writes ==> IsChildSummary(w, id, it, ord, specs, x)
  {
    var writes, specs := HandleCoreTool(w, id, it, ord, call, allow).writes, SpecsOf(w, id, it, call, allow).0;
    DelegateWrites(w, id, it, ord, call, allow);
    assert writes != [] ==> writes[0] in writes;
    if writes != [] { WritesLeaveTail(id, writes); }
  }

  lemma WritesLeaveTail(id: RunId, writes: seq<HeadWrite>)
    requires writes != [] && AllOver(id, writes)
    ensures LeavesTail(id, writes) && exists t: Turn :: WroteAll(id, t, writes) != t
  {
    assert writes[0] in writes;
    forall t: Turn
      ensures WroteAll(id, t, writes).transcript
           == [writes[|writes| - 1].summary] + t.transcript[Min(Lost(writes), |t.transcript|)..]
    {
      OwnWritesCut(id, t, writes);
    }
    assert WroteAll(id, NewTurn([]), writes) != NewTurn([]);
  }

  /** Where no child touches it, a delegating run keeps its tool calls paired. */
  lemma DelegatingRunPairing(w: World, id: RunId, req: TurnRequest, transcript: seq<Message>, allow: bool)
    requires Interleaves(w) && (w.isolateChildren || w.core.compaction.None? || w.core.compaction.value.run != id)
    requires req.run == id && w.seedStored(id) && WellBehaved(w.ports(id)) && Headed(transcript)
    requires WellPaired(transcript)
    requires req.seed.NewMessage? && NotSystem(req.seed.message) && LoopPairing.IsPlain(req.seed.message)
    ensures var res := RunAt(w, id, req, transcript, allow); var st := Started(req, transcript);
            res.Done? ==>
              PairedExit(res.turn, LastHead(w.ports(id), CoreOf(w, id), req, HandlerOf(w, id, allow), st).iteration)
  {
    var h := HandlerOf(w, id, allow);
    forall it, ord, call, i | 0 <= i < |h(it, ord, call).writes|
      ensures h(it, ord, call).writes[i].run != id
    {
      HandlerWrites(w, id, it, ord, call, allow, h(it, ord, call).writes[i]);
    }
    RunPairing(w.ports(id), CoreOf(w, id), req, h, transcript);
  }

  lemma HandlerWrites(w: World, id: RunId, it: nat, ord: nat, call: ToolCall, allow: bool, x: HeadWrite)
    requires Interleaves(w) && x in HandleCoreTool(w, id, it, ord, call, allow).writes
    ensures !w.isolateChildren && w.core.compaction.Some? && x.run == w.core.compaction.value.run
  {
    DelegateWrites(w, id, it, ord, call, allow);
  }
}
