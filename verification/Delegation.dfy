/** The delegation tree: run, handle_delegate, fan_out_inner, child run
    (agent-core/src/core_tools.rs:242-449, agent-core/src/fanout.rs:329-352). */
module Delegation {
  import opened Wrappers
  import opened Text
  import opened Guard
  import opened GuardLaws
  import opened GuardPasses
  import opened Chat
  import opened Pairing
  import opened AgentLoop
  import opened LoopRecord
  import opened LoopGuarantees
  import F = FanOut

  // ----- prepare_child_specs -----

  datatype ChildInput = ChildInput(system: string, servers: Option<seq<string>>, modelId: Option<string>)
  datatype ChildSpec = ChildSpec(modelId: Option<string>, system: string, servers: seq<string>, allowDelegate: bool)

  function NarrowServers(requested: Option<seq<string>>, parent: seq<string>): seq<string> {
    if requested.None? then [] else Filter((s: string) => s in parent, requested.value)
  }

  /** A child may use what it asked for and its parent has. */
  predicate MayUse(requested: Option<seq<string>>, parent: seq<string>, server: string) {
    requested.Some? && server in requested.value && server in parent
  }

  function ToSpec(c: ChildInput, parent: seq<string>): ChildSpec {
    ChildSpec(c.modelId, c.system, NarrowServers(c.servers, parent), false)
  }

  function Cap(maxChildren: nat): (c: nat) ensures c >= 1 { Max(maxChildren, 1) }

  /** The specs, and the cap note when some children were cut off. */
  function PrepareChildSpecs(
      children: seq<ChildInput>, parent: seq<string>, maxChildren: nat): (seq<ChildSpec>, seq<string>) {
    var cap := Cap(maxChildren);
    var kept := if |children| > cap then children[..cap] else children;
    (Map((c: ChildInput) => ToSpec(c, parent), kept), if |children| > cap then [CapNote(|children|, cap)] else [])
  }

  /** At most the cap and at least one, in order, each with no more servers than it asked for and its
      parent has, and none may delegate; and the note tells exactly when children were left out. */
  ghost predicate AreNarrowed(
      children: seq<ChildInput>, parent: seq<string>, maxChildren: nat, specs: seq<ChildSpec>, note: seq<string>)
  {
    && |specs| == (if |children| < maxChildren then |children|
                   else if maxChildren > 0 then maxChildren else Min(|children|, 1))
    && (note == if |specs| < |children| then [CapNote(|children|, |specs|)] else [])
    && forall i :: 0 <= i < |specs| ==>
         && specs[i].system == children[i].system && specs[i].modelId == children[i].modelId
         && !specs[i].allowDelegate
         && forall s :: s in specs[i].servers <==> MayUse(children[i].servers, parent, s)
  }

  lemma SpecsAreNarrowed(children: seq<ChildInput>, parent: seq<string>, maxChildren: nat)
    ensures var (specs, note) := PrepareChildSpecs(children, parent, maxChildren);
            AreNarrowed(children, parent, maxChildren, specs, note)
  {
  }

  // ----- the world the tree runs in -----

  /** Port tables for every run that may come to be, and the other answers from outside. An
      extension may withdraw delegation from an iteration; none grants it. */
  datatype World = World(
    ports: RunId -> Ports,
    seedStored: RunId -> bool,
    delegates: (RunId, nat) -> bool,
    servers: (RunId, nat) -> seq<string>,
    parse: string -> Result<seq<ChildInput>, string>,
    resolve: RunId -> Option<string>,
    panics: RunId -> Option<string>,
    otherTool: (RunId, nat, nat, ToolCall) -> ToolReply,
    interleave: (RunId, nat, nat, seq<seq<HeadWrite>>) -> seq<HeadWrite>,
    core: Core,
    isolateChildren: bool,
    maxChildren: nat)

  /** An isolated child inherits no extension, so no compaction. Any other child inherits its
      parent's, which goes on replacing the head of the run it was made for. */
  function CoreOf(w: World, id: RunId): Core {
    if id.Child? && w.isolateChildren then w.core.(compaction := None) else w.core
  }

  function ChildRequest(id: RunId): TurnRequest {
    TurnRequest(id, NewMessage(UserMessage("Proceed with your task.")), 1)
  }

  /** The text blocks' texts, one after another. */
  function PlainText(content: seq<Block>): string { Join(TextsOf(content), "") }

  /** `summary_from_events`: the last assistant text that is not empty. */
  function SummaryFromEvents(events: seq<Event>): string {
    if events == [] then ""
    else
      var last := events[|events| - 1];
      if last.MessageEvent? && last.message.role == Assistant && PlainText(last.message.content) != ""
      then PlainText(last.message.content)
      else SummaryFromEvents(events[..|events| - 1])
  }

  predicate IsText(b: Block) { b.TextBlock? }

  /** An assistant message whose text blocks, one right after another, say this. */
  ghost predicate AssistantSays(e: Event, said: string) {
    && e.MessageEvent? && e.message.role == Assistant
    && exists texts :: TextsOfBlocks(e.message.content, texts) && IsJoined(said, texts, "")
  }

  /** `texts` are what the text blocks among `content` say, in order. */
  ghost predicate TextsOfBlocks(content: seq<Block>, texts: seq<string>) {
    var blocks := Filter(IsText, content);
    |texts| == |blocks| && forall i :: 0 <= i < |blocks| ==> blocks[i] == TextBlock(texts[i])
  }

  /** Event `i` is the last in which the assistant says anything, and it says this. */
  ghost predicate IsLastSaid(events: seq<Event>, i: nat, said: string) {
    && i < |events| && said != "" && AssistantSays(events[i], said)
    && forall j :: i < j < |events| ==> SaysNothing(events[j])
  }

  ghost predicate SaysNothing(e: Event) { forall said :: AssistantSays(e, said) ==> said == "" }

  /** What a child contributes: what its assistant said last, or nothing. */
  ghost predicate IsSummary(events: seq<Event>, said: string) {
    if said == "" then forall i :: 0 <= i < |events| ==> SaysNothing(events[i])
    else exists i: nat :: IsLastSaid(events, i, said)
  }

  lemma {:induction false} TextsAreBlocks(content: seq<Block>)
    ensures TextsOfBlocks(content, TextsOf(content))
  {
    if content != [] {
      TextsAreBlocks(content[1..]);
    }
  }

  /** Two texts joined of the same parts are the same. */
  lemma {:induction false} JoinedOnce(a: string, parts: seq<string>)
    requires IsJoined(a, parts, "")
    ensures a == Join(parts, "")
  {
    if parts == [] {
      assert Offset(parts, 0, 0) == 0;
    } else {
      var tail := a[|parts[0]|..];
      TailJoined(a, parts);
      JoinedOnce(tail, parts[1..]);
      assert a[0..0 + |parts[0]|] == parts[0] && a == parts[0] + tail;
      if |parts| == 1 { assert parts[1..] == [] && tail == ""; }
    }
  }

  lemma TailJoined(a: string, parts: seq<string>)
    requires parts != [] && IsJoined(a, parts, "")
    ensures |parts[0]| <= |a| && a[0..|parts[0]|] == parts[0] && IsJoined(a[|parts[0]|..], parts[1..], "")
  {
    var n, rest := |parts[0]|, parts[1..];
    assert OccursAt(a, parts[0], Offset(parts, 0, 0));
    var tail := a[n..];
    assert |tail| == Offset(rest, 0, |rest|);
    forall i | 0 <= i < |rest|
      ensures OccursAt(tail, rest[i], Offset(rest, 0, i))
      ensures OccursAt(tail, "", Offset(rest, 0, i) - 0)
    {
      var at := Offset(rest, 0, i);
      assert OccursAt(a, parts[i + 1], Offset(parts, 0, i + 1)) && parts[i + 1] == rest[i];
      assert Offset(parts, 0, i + 1) == n + at;
      assert tail[at..at + |rest[i]|] == a[n + at..n + at + |rest[i]|];
    }
  }

  lemma SaysPlainText(e: Event, said: string)
    ensures AssistantSays(e, said) <==>
              e.MessageEvent? && e.message.role == Assistant && said == PlainText(e.message.content)
  {
    if e.MessageEvent? && e.message.role == Assistant {
      var content := e.message.content;
      TextsAreBlocks(content);
      JoinIsJoined(TextsOf(content), "");
      if AssistantSays(e, said) {
        var texts :| TextsOfBlocks(content, texts) && IsJoined(said, texts, "");
        assert texts == TextsOf(content);
        JoinedOnce(said, texts);
      }
    }
  }

  /** Whether an event says anything, and what. */
  lemma LastSays(e: Event)
    ensures SaysNothing(e) <==>
              !(e.MessageEvent? && e.message.role == Assistant && PlainText(e.message.content) != "")
    ensures !SaysNothing(e) ==> AssistantSays(e, PlainText(e.message.content))
  {
    forall said
      ensures AssistantSays(e, said) <==>
                e.MessageEvent? && e.message.role == Assistant && said == PlainText(e.message.content)
    {
      SaysPlainText(e, said);
    }
    if e.MessageEvent? && e.message.role == Assistant { assert AssistantSays(e, PlainText(e.message.content)); }
  }

  /** A child's summary is the last thing that its assistant said in text. */
  lemma {:induction false} SummaryIsLastSaid(events: seq<Event>)
    ensures IsSummary(events, SummaryFromEvents(events))
  {
    if events != [] {
      var n, before := |events| - 1, events[..|events| - 1];
      var said := SummaryFromEvents(events);
      LastSays(events[n]);
      if SaysNothing(events[n]) {
        SummaryIsLastSaid(before);
        if said != "" {
          var i: nat :| IsLastSaid(before, i, said);
          assert IsLastSaid(events, i, said);
        }
      } else {
        assert IsLastSaid(events, n, said);
      }
    }
  }

  // ----- the recursion -----

  /** The children a delegate call spawns, and the cap note. */
  function SpecsOf(w: World, id: RunId, it: nat, call: ToolCall, allow: bool): (seq<ChildSpec>, seq<string>) {
    if !allow || !w.delegates(id, it) then ([], [])
    else match w.parse(call.input)
         case Err(_) => ([], [])
         case Ok(children) => PrepareChildSpecs(children, w.servers(id, it), w.maxChildren)
  }

  /** A run of the tree; `allow` says whether its scope offers `delegate`. */
  function RunAt(
      w: World, id: RunId, req: TurnRequest, transcript: seq<Message>, allow: bool): (res: Progress<LoopState>)
    ensures !res.Again?
    decreases allow, 2
  {
    RunTurn(w.ports(id), CoreOf(w, id), req, HandlerOf(w, id, allow), transcript, w.seedStored(id))
  }

  function HandleCoreTool(w: World, id: RunId, it: nat, ord: nat, call: ToolCall, allow: bool): Handled
    decreases allow, 0
  {
    if CoreToolFromName(call.name) != Some(Delegate) then Handled(w.otherTool(id, it, ord, call), [])
    else if !allow || !w.delegates(id, it) then Handled(ErrorReply("delegate: " + NOT_PERMITTED), [])
    else match w.parse(call.input)
         case Err(e) => Handled(ErrorReply("delegate: invalid input: " + e), [])
         case Ok(_) =>
           var (specs, note) := SpecsOf(w, id, it, call, allow);
           if specs == [] then Handled(ErrorReply("delegate: no sub-agents specified"), [])
           else
             var children := ChildrenOf(w, id, it, ord, specs);
             var writes := w.interleave(id, it, ord, WritesOf(w, id, it, ord, specs));
             match F.FanOutResult(children, F.ErrorSummary)
             case Ok(summaries) => Handled(ToolReply([TextBlock(Merged(summaries, note))], false, false), writes)
             case Err(e) => Handled(ErrorReply("delegate: fan-out failed: " + e), writes)
  }

  const NOT_PERMITTED := "delegation is not permitted in this context (a sub-agent cannot spawn further sub-agents)"

  function ChildrenOf(w: World, id: RunId, it: nat, ord: nat, specs: seq<ChildSpec>): (children: seq<F.Child>)
    ensures |children| == |specs|
    decreases false, 5
  {
    seq(|specs|, i requires 0 <= i < |specs| => ChildOf(w, RunId.Child(id, it, ord, i), specs[i]))
  }

  function WritesOf(w: World, id: RunId, it: nat, ord: nat, specs: seq<ChildSpec>): (writes: seq<seq<HeadWrite>>)
    ensures |writes| == |specs|
    decreases false, 5
  {
    seq(|specs|, i requires 0 <= i < |specs| => ChildWrites(w, RunId.Child(id, it, ord, i), specs[i]))
  }

  predicate IsRejected(w: World, child: RunId, spec: ChildSpec) { spec.modelId.Some? && w.resolve(child).Some? }

  function ChildRun(w: World, child: RunId): (res: Progress<LoopState>)
    ensures !res.Again?
    decreases false, 3
  {
    RunAt(w, child, ChildRequest(child), [], false)
  }

  /** The heads of other runs that a child's compaction replaced. */
  function ChildWrites(w: World, child: RunId, spec: ChildSpec): seq<HeadWrite>
    decreases false, 4
  {
    if IsRejected(w, child, spec) then [] else ChildRun(w, child).turn.foreign
  }

  /** A spawned child, as the fan-out sees it. */
  function ChildOf(w: World, id: RunId, spec: ChildSpec): F.Child
    decreases false, 4
  {
    F.Child(if spec.modelId.Some? then w.resolve(id) else None,
            if w.panics(id).Some? then F.Panicked(w.panics(id).value)
            else match ChildRun(w, id)
                 case Done(t) => F.Finished(SummaryFromEvents(t.events))
                 case Broken(_, e) => F.Failed(e))
  }

  function HandlerOf(w: World, id: RunId, allow: bool): Handler
    decreases allow, 1
  {
    (it: nat, ord: nat, call: ToolCall) => HandleCoreTool(w, id, it, ord, call, allow)
  }

  /** The children of a delegate call are those that it asks for, narrowed to what the delegating run
      itself may use in that iteration; and none where it may not delegate or asks for nothing. */
  lemma SpawnsAreNarrowed(w: World, id: RunId, it: nat, call: ToolCall, allow: bool)
    ensures var (specs, note) := SpecsOf(w, id, it, call, allow);
            if allow && w.delegates(id, it) && w.parse(call.input).Ok? then
              AreNarrowed(w.parse(call.input).value, w.servers(id, it), w.maxChildren, specs, note)
            else specs == [] && note == []
  {
    if w.parse(call.input).Ok? {
      SpecsAreNarrowed(w.parse(call.input).value, w.servers(id, it), w.maxChildren);
    }
  }

  /** Isolation takes the compaction extension from children only, and nothing else from them. */
  lemma OnlyChildrenAreIsolated(w: World, id: RunId, req: TurnRequest, transcript: seq<Message>, allow: bool)
    ensures var (p, h, stored) := (w.ports(id), HandlerOf(w, id, allow), w.seedStored(id));
            var c := w.core;
            RunAt(w, id, req, transcript, allow)
            == if id.Root? || !w.isolateChildren then RunTurn(p, c, req, h, transcript, stored)
               else RunTurn(p, Core(None, c.reviewer, c.limits, c.resumeExecutesPending), req, h, transcript, stored)
  {
  }

  // ----- counting model calls over the tree -----

  function SumOver<T>(f: T -> nat, s: seq<T>): nat {
    if s == [] then 0 else f(s[0]) + SumOver(f, s[1..])
  }

  function CountOver<T>(f: T -> bool, s: seq<T>): nat {
    if s == [] then 0 else (if f(s[0]) then 1 else 0) + CountOver(f, s[1..])
  }

  lemma {:induction false} SumBound<T>(f: T -> nat, g: T -> bool, s: seq<T>, per: nat)
    requires forall x :: f(x) <= if g(x) then per else 0
    ensures SumOver(f, s) <= CountOver(g, s) * per
  {
    if s != [] {
      SumBound(f, g, s[1..], per);
      if g(s[0]) { assert (CountOver(g, s[1..]) + 1) * per == CountOver(g, s[1..]) * per + per; }
    }
  }

  predicate IsDelegate(e: Execution) { e.core && IsDelegateCall(e.call) }

  /** Model calls of the first `n` children of one delegate call; a rejected child never runs. */
  function ChildrenCalls(w: World, id: RunId, e: Execution, specs: seq<ChildSpec>, n: nat): nat
    requires n <= |specs|
    decreases false, 8, n
  {
    if n == 0 then 0
    else
      var child := RunId.Child(id, e.iteration, e.ordinal, n - 1);
      ChildrenCalls(w, id, e, specs, n - 1)
      + if IsRejected(w, child, specs[n - 1]) then 0
        else TreeCalls(w, child, ChildRequest(child), [], false)
  }

  /** Model calls of the children that an executed call spawned, if it is a delegate call. */
  function SpawnedCalls(w: World, id: RunId, e: Execution, allow: bool): nat
    decreases allow, 4
  {
    var specs := SpecsOf(w, id, e.iteration, e.call, allow).0;
    if IsDelegate(e) && allow then ChildrenCalls(w, id, e, specs, |specs|) else 0
  }

  function SpawnedBy(w: World, id: RunId, allow: bool): Execution -> nat
    decreases allow, 5
  {
    (e: Execution) => SpawnedCalls(w, id, e, allow)
  }

  function DelegatedCalls(w: World, id: RunId, executed: seq<Execution>, allow: bool): nat
    decreases allow, 6
  {
    SumOver(SpawnedBy(w, id, allow), executed)
  }

  /** Main-loop model calls of a run and of all runs below it. */
  function TreeCalls(w: World, id: RunId, req: TurnRequest, transcript: seq<Message>, allow: bool): nat
    decreases allow, 7
  {
    var t := RunAt(w, id, req, transcript, allow).turn;
    t.modelCalls + DelegatedCalls(w, id, t.executed, allow)
  }

  predicate Spawns(w: World, id: RunId, e: Execution, allow: bool) {
    IsDelegate(e) && SpecsOf(w, id, e.iteration, e.call, allow).0 != []
  }

  /** The delegate calls of a run that spawned at least one child. */
  function DelegateCount(w: World, id: RunId, executed: seq<Execution>, allow: bool): nat {
    CountOver((e: Execution) => Spawns(w, id, e, allow), executed)
  }

  lemma OwnCalls(w: World, id: RunId, req: TurnRequest, transcript: seq<Message>, allow: bool)
    ensures RunAt(w, id, req, transcript, allow).turn.modelCalls <= w.core.limits.maxSteps
  {
    BudgetAgreement(w.ports(id), CoreOf(w, id), req, HandlerOf(w, id, allow), transcript, w.seedStored(id));
  }

  lemma NothingDelegated(w: World, id: RunId, executed: seq<Execution>)
    ensures DelegatedCalls(w, id, executed, false) == 0
  {
    SumBound(SpawnedBy(w, id, false), (e: Execution) => false, executed, 0);
  }

  // ----- no child spawns -----

  predicate IsDelegateCall(call: ToolCall) { CoreToolFromName(call.name) == Some(Delegate) }

  lemma RefusedWithoutLeave(w: World, id: RunId)
    ensures forall it, ord, call :: IsDelegateCall(call) ==> HandlerOf(w, id, false)(it, ord, call).reply.isError
    ensures forall it, ord, call :: HandlerOf(w, id, false)(it, ord, call).writes == []
  {
  }

  /** A whole run that may not delegate, whatever its model emits and however it ends: nothing it
      executed spawned a child, every delegate call in its journal was answered with an error, a
      clean run journalled each such call, and its tree of model calls is its own. */
  lemma ChildrenDoNotSpawn(w: World, id: RunId, req: TurnRequest, transcript: seq<Message>)
    ensures var res := RunAt(w, id, req, transcript, false); var t := res.turn;
            && (forall i :: 0 <= i < |t.executed| ==> !Spawns(w, id, t.executed[i], false))
            && (forall i :: 0 <= i < |t.journal| && IsDelegateCall(t.journal[i].call) ==> t.journal[i].reply.isError)
            && (res.Done? ==> |t.journal| == |t.executed|)
            && (res.Done? ==> forall i :: 0 <= i < |t.executed| ==> t.journal[i].call == t.executed[i].call)
            && TreeCalls(w, id, req, transcript, false) == t.modelCalls
  {
    var good := (call: ToolCall, reply: ToolReply) => IsDelegateCall(call) ==> reply.isError;
    var h := HandlerOf(w, id, false);
    RefusedWithoutLeave(w, id);
    forall call: ToolCall, reply: ToolReply | !IsCoreCall(call)
      ensures good(call, reply)
    {
      assert !IsDelegateCall(call);
    }
    RunAnswersWell(good, w.ports(id), CoreOf(w, id), req, h, transcript, w.seedStored(id));
    if RunAt(w, id, req, transcript, false).Done? {
      RunRecord(w.ports(id), CoreOf(w, id), req, h, transcript, w.seedStored(id));
    }
    NothingDelegated(w, id, RunAt(w, id, req, transcript, false).turn.executed);
  }

  /** A child's tree is within its own step limit. */
  lemma ChildTree(w: World, id: RunId, req: TurnRequest)
    ensures TreeCalls(w, id, req, [], false) <= w.core.limits.maxSteps
  {
    OwnCalls(w, id, req, [], false);
    ChildrenDoNotSpawn(w, id, req, []);
  }

  lemma {:induction false} ChildrenBound(w: World, id: RunId, e: Execution, specs: seq<ChildSpec>, n: nat)
    requires n <= |specs|
    ensures ChildrenCalls(w, id, e, specs, n) <= n * w.core.limits.maxSteps
    decreases n
  {
    if n > 0 {
      var child := RunId.Child(id, e.iteration, e.ordinal, n - 1);
      ChildrenBound(w, id, e, specs, n - 1);
      ChildTree(w, child, ChildRequest(child));
      assert n * w.core.limits.maxSteps == (n - 1) * w.core.limits.maxSteps + w.core.limits.maxSteps;
    }
  }

  lemma SpecsWithinCap(w: World, id: RunId, it: nat, call: ToolCall, allow: bool)
    ensures |SpecsOf(w, id, it, call, allow).0| <= Cap(w.maxChildren)
  {
    if w.parse(call.input).Ok? {
      SpecsAreNarrowed(w.parse(call.input).value, w.servers(id, it), w.maxChildren);
    }
  }

  lemma TimesMonotone(a: nat, b: nat, s: nat)
    requires a <= b
    ensures a * s <= b * s
  {
  }

  /** A call that spawned adds at most its children's own calls; any other adds nothing. */
  lemma OneDelegate(w: World, id: RunId, e: Execution, allow: bool)
    ensures SpawnedCalls(w, id, e, allow)
         <= if Spawns(w, id, e, allow) then Cap(w.maxChildren) * w.core.limits.maxSteps else 0
  {
    var specs := SpecsOf(w, id, e.iteration, e.call, allow).0;
    SpecsWithinCap(w, id, e.iteration, e.call, allow);
    ChildrenBound(w, id, e, specs, |specs|);
    TimesMonotone(|specs|, Cap(w.maxChildren), w.core.limits.maxSteps);
  }

  lemma DelegatedBound(w: World, id: RunId, executed: seq<Execution>, allow: bool)
    ensures DelegatedCalls(w, id, executed, allow)
         <= DelegateCount(w, id, executed, allow) * (Cap(w.maxChildren) * w.core.limits.maxSteps)
  {
    forall e
      ensures SpawnedCalls(w, id, e, allow)
           <= if Spawns(w, id, e, allow) then Cap(w.maxChildren) * w.core.limits.maxSteps else 0
    {
      OneDelegate(w, id, e, allow);
    }
    SumBound(SpawnedBy(w, id, allow), (e: Execution) => Spawns(w, id, e, allow), executed,
             Cap(w.maxChildren) * w.core.limits.maxSteps);
  }

  /** The whole tree makes at most S + D * max(1, max_children) * S main-loop model calls, for
      S the step limit and D the delegate calls of the root that spawned children. */
  lemma TreeBound(w: World, id: RunId, req: TurnRequest, transcript: seq<Message>, allow: bool)
    ensures TreeCalls(w, id, req, transcript, allow)
         <= w.core.limits.maxSteps
            + DelegateCount(w, id, RunAt(w, id, req, transcript, allow).turn.executed, allow)
              * (Cap(w.maxChildren) * w.core.limits.maxSteps)
  {
    OwnCalls(w, id, req, transcript, allow);
    DelegatedBound(w, id, RunAt(w, id, req, transcript, allow).turn.executed, allow);
  }

  // ----- what the parent reads -----

  /** What a child tells its parent: why its model was refused or its task died, or else, neutralized,
      what its assistant said last, or why its run broke off. */
  ghost predicate ChildTells(w: World, child: RunId, spec: ChildSpec, told: string) {
    if spec.modelId.Some? && w.resolve(child).Some? then
      told == F.ErrorShown("model resolution failed: ", w.resolve(child).value)
    else if w.panics(child).Some? then told == F.ErrorShown("sub-agent task panicked: ", w.panics(child).value)
    else match ChildRun(w, child)
         case Done(t) => exists said :: IsSummary(t.events, said) && told == Neutralized(said)
         case Broken(_, e) => told == F.ErrorShown("sub-agent failed: ", e)
  }

  lemma ChildIsTold(w: World, child: RunId, spec: ChildSpec)
    ensures ChildTells(w, child, spec, F.NeutralContribution(ChildOf(w, child, spec)))
  {
    F.ContributionTells(ChildOf(w, child, spec));
    if ChildRun(w, child).Done? { SummaryIsLastSaid(ChildRun(w, child).turn.events); }
  }

  /** A delegate call that spawns children answers with what they tell, one text per spec in spawn
      order, verbatim under numbered labels and after the cap note: the second neutralization adds
      nothing, and no marker is left for the parent to act on. */
  lemma DelegateReply(w: World, id: RunId, it: nat, ord: nat, call: ToolCall, allow: bool)
    returns (told: seq<string>, parts: seq<string>, text: string)
    requires CoreToolFromName(call.name) == Some(Delegate) && SpecsOf(w, id, it, call, allow).0 != []
    ensures var (specs, note) := SpecsOf(w, id, it, call, allow);
            && |told| == |specs|
            && (forall i :: 0 <= i < |specs| ==> ChildTells(w, RunId.Child(id, it, ord, i), specs[i], told[i]))
            && IsMerge(told, note, parts, text) && Clean(text)
            && HandleCoreTool(w, id, it, ord, call, allow).reply == ToolReply([TextBlock(text)], false, false)
  {
    var (specs, note) := SpecsOf(w, id, it, call, allow);
    var children := ChildrenOf(w, id, it, ord, specs);
    told, parts := Map(F.NeutralContribution, children), MergeParts(Map(F.NeutralContribution, children), note);
    text := Join(parts, "\n\n");
    forall i | 0 <= i < |told|
      ensures Neutralized(told[i]) == told[i]
      ensures ChildTells(w, RunId.Child(id, it, ord, i), specs[i], told[i])
    {
      NeutralizeFixedPoint(F.Contribution(children[i]));
      ChildIsTold(w, RunId.Child(id, it, ord, i), specs[i]);
    }
    MergeOfNeutralized(told, note);
    NeutralizedIsClean(text);
    PartsMerge(told, note);
    assert F.FanOutResult(children, F.ErrorSummary) == Ok(told);
  }
}
