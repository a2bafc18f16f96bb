/** How often the summary tier can fire, and when a system prompt makes it lose a message. */
module CompactionLimits {
  import opened Wrappers
  import opened Text
  import opened Chat
  import opened Compaction
  import opened CheapTiers
  import opened Pairing
  import opened CompactionRuns

  // ----- anti-thrash (agent-core/src/compaction.rs:146-162, 454-486) -----

  function AppendedTokens(c: Compactor, steps: seq<Step>): nat {
    if steps == [] then 0
    else (if steps[0].Append? then EstimateMsg(c.count, steps[0].m) else 0) + AppendedTokens(c, steps[1..])
  }

  /** Every request pins at most `pinned` tokens, and the cheap tiers do not raise its estimate. */
  ghost predicate Quiet(c: Compactor, steps: seq<Step>, pinned: nat) {
    forall i :: 0 <= i < |steps| && steps[i].Model? ==>
      && c.Est(Pinned(steps[i].request)) <= pinned
      && c.Est(Cheap(steps[i].request, c.config.keepToolResults)) <= c.Est(steps[i].request)
  }

  lemma TranscriptEstimate(c: Compactor, st: Store)
    requires Conserved(c, st)
    ensures c.Est(st.transcript) == c.Est(Priors(st.transcript)) + c.Est(NonSystem(st.transcript))
  {
    TranscriptKinds(c, st);
    EstimateConcat(c.count, Head(st.calls), Body(st));
  }

  /** A request under the trigger does not fire, and leaves the store alone. */
  lemma QuietRequest(c: Compactor, st: Store, request: seq<Message>, ask: Summarize, pinned: nat)
    requires Conserved(c, st) && Shows(request, st.transcript)
    requires c.Est(Pinned(request)) <= pinned && c.Est(Cheap(request, c.config.keepToolResults)) <= c.Est(request)
    requires pinned + c.Est(st.transcript) <= c.HighWatermark()
    ensures Next(c, st, Model(request, ask)) == st
  {
    EstimateByKind(c.count, request);
    TranscriptEstimate(c, st);
    UnderTrigger(c, request, ask);
    NoCallNoChange(c, st, request, ask);
  }

  lemma UnderTrigger(c: Compactor, request: seq<Message>, ask: Summarize)
    requires c.Est(Cheap(request, c.config.keepToolResults)) <= c.HighWatermark()
    ensures CallOf(c, request, None, ask).None?
  {
  }

  lemma NoCallNoChange(c: Compactor, st: Store, request: seq<Message>, ask: Summarize)
    requires CallOf(c, request, None, ask).None?
    ensures Next(c, st, Model(request, ask)) == st
  {
  }

  lemma QuietTail(c: Compactor, steps: seq<Step>, pinned: nat)
    requires steps != [] && Quiet(c, steps, pinned)
    ensures Quiet(c, steps[1..], pinned) && Quiet(c, [steps[0]], pinned)
  {
    assert forall i :: 0 <= i < |steps| - 1 ==> steps[1..][i] == steps[i + 1];
  }

  /** One step: an append makes the transcript longer by its message, a quiet request changes
      nothing. */
  lemma QuietStep(c: Compactor, st: Store, step: Step, pinned: nat)
    requires Conserved(c, st) && Enabled(st, step) && Quiet(c, [step], pinned)
    requires pinned + c.Est(st.transcript) <= c.HighWatermark()
    ensures var st' := Next(c, st, step);
            && Conserved(c, st') && st'.calls == st.calls
            && c.Est(st'.transcript)
               == c.Est(st.transcript) + if step.Append? then EstimateMsg(c.count, step.m) else 0
  {
    match step {
      case Append(m) =>
        AppendConserves(c, st, m);
        EstimateConcat(c.count, st.transcript, [m]);
        assert [m][1..] == [];
      case Model(request, ask) =>
        assert [step][0] == step;
        QuietRequest(c, st, request, ask, pinned);
    }
  }

  lemma {:induction false} QuietRun(c: Compactor, st: Store, steps: seq<Step>, pinned: nat)
    requires Conserved(c, st) && IsRun(c, st, steps) && Quiet(c, steps, pinned)
    requires pinned + c.Est(st.transcript) + AppendedTokens(c, steps) <= c.HighWatermark()
    ensures Run(c, st, steps).calls == st.calls
    decreases |steps|
  {
    if steps != [] {
      QuietTail(c, steps, pinned);
      QuietStep(c, st, steps[0], pinned);
      QuietRun(c, Next(c, st, steps[0]), steps[1..], pinned);
    }
  }

  /** After a summary that landed at or below the low watermark, no further summary is made
      until more than the distance between the watermarks has been appended. */
  lemma NoThrash(c: Compactor, st: Store, request: seq<Message>, ask: Summarize, call: Call, steps: seq<Step>)
    requires Conserved(c, st) && Shows(request, st.transcript) && CallOf(c, request, None, ask) == Some(call)
    requires c.Est(Outbound(c, request, None, ask)) <= c.LowWatermark() <= c.HighWatermark()
    requires IsRun(c, Replaced(st, Some(call)), steps) && Quiet(c, steps, c.Est(Pinned(request)))
    requires AppendedTokens(c, steps) <= c.HighWatermark() - c.LowWatermark()
    ensures Run(c, Replaced(st, Some(call)), steps).calls == st.calls + [call]
  {
    var k := CompactionCuts(c, st, request, ask, call);
    CompactionConserves(c, st, request, ask);
    SummaryAccounting(c, request, None, ask, call, k);
    TranscriptKinds(c, st);
    EstimateConcat(c.count, [call.summary], Body(st)[k..]);
    assert [call.summary][1..] == [];
    QuietRun(c, Replaced(st, Some(call)), steps, c.Est(Pinned(request)));
  }

  /** Under the default counter, ASCII tool results make every request quiet. */
  lemma AsciiIsQuiet(c: Compactor, steps: seq<Step>, pinned: nat)
    requires c.count == EstimateTokens
    requires forall i, j :: 0 <= i < |steps| && steps[i].Model? && 0 <= j < |steps[i].request| ==>
               AsciiResults(steps[i].request[j])
    requires forall i :: 0 <= i < |steps| && steps[i].Model? ==> c.Est(Pinned(steps[i].request)) <= pinned
    ensures Quiet(c, steps, pinned)
  {
    forall i | 0 <= i < |steps| && steps[i].Model?
      ensures c.Est(Cheap(steps[i].request, c.config.keepToolResults)) <= c.Est(steps[i].request)
    {
      CheapEstimate(steps[i].request, c.config.keepToolResults);
    }
  }

  // ----- pairing over runs -----

  /** Head replacement keeps the body well paired. */
  lemma CompactionKeepsPaired(c: Compactor, st: Store, request: seq<Message>, ask: Summarize)
    requires Conserved(c, st) && Shows(request, st.transcript) && WellPaired(Body(st))
    ensures WellPaired(Body(Next(c, st, Model(request, ask))))
  {
    if CallOf(c, request, None, ask).Some? {
      CutKeepsPaired(c, st, request, ask, CallOf(c, request, None, ask).value);
    } else {
      NoCallNoChange(c, st, request, ask);
    }
  }

  lemma CutKeepsPaired(c: Compactor, st: Store, request: seq<Message>, ask: Summarize, call: Call)
    requires Conserved(c, st) && Shows(request, st.transcript) && WellPaired(Body(st))
    requires CallOf(c, request, None, ask) == Some(call)
    ensures WellPaired(Body(Replaced(st, Some(call))))
  {
    var k := CompactionCuts(c, st, request, ask, call);
    TranscriptKinds(c, st);
    CutIsBetweenRounds(c, request, None);
  }

  // ----- the assembled request -----

  /** `assemble_messages` (agent-core/src/core.rs:760-767) */
  function AssembleMessages(system: seq<Block>, history: seq<Message>): seq<Message> {
    (if system == [] then [] else [Message(System, system)]) + history
  }

  /** A text that starts, behind white space, like a summary. */
  ghost predicate ReadsLikeSummary(text: string) { exists j: nat :: SummaryFrom(text, j) }

  ghost predicate SummaryFrom(text: string, j: nat) {
    j <= |text| && AllWhite(text[..j]) && "[Summary of " <= text[j..]
  }

  ghost predicate HasMark(system: seq<Block>) {
    exists i :: 0 <= i < |system| && system[i].TextBlock? && ReadsLikeSummary(system[i].text)
  }

  lemma MarkReads(b: Block)
    ensures HasSummaryMark(b) <==> b.TextBlock? && ReadsLikeSummary(b.text)
  {
    if b.TextBlock? {
      LeadingWhite(b.text);
      if HasSummaryMark(b) { assert SummaryFrom(b.text, WhiteLen(b.text)); }
      if j: nat :| SummaryFrom(b.text, j) {
        WhiteBefore(b.text, j);
      }
    }
  }

  /** The first visible character is where the white space ends. */
  lemma {:induction false} WhiteBefore(s: string, j: nat)
    requires j < |s| && AllWhite(s[..j]) && !IsWhite(s[j])
    ensures WhiteLen(s) == j
  {
    if j > 0 {
      assert s[0] == s[..j][0] && s[1..][..j - 1] == s[..j][1..];
      WhiteBefore(s[1..], j - 1);
    }
  }

  lemma MarksRead(system: seq<Block>)
    ensures HasMark(system) <==> exists i :: 0 <= i < |system| && HasSummaryMark(system[i])
  {
    forall i | 0 <= i < |system|
      ensures HasSummaryMark(system[i]) <==> system[i].TextBlock? && ReadsLikeSummary(system[i].text)
    {
      MarkReads(system[i]);
    }
  }

  /** The assembled request shows the transcript exactly when the system prompt has no block
      that reads like a summary. */
  lemma AssembledShows(system: seq<Block>, history: seq<Message>)
    ensures Shows(AssembleMessages(system, history), history) <==> !HasMark(system)
  {
    if system != [] {
      var m := Message(System, system);
      FilterConcat(NotSystem, [m], history);
      FilterConcat(IsPriorSummary, [m], history);
      assert [m][1..] == [];
      MarksRead(system);
      assert IsPriorSummary(m) <==> HasMark(system);
    } else {
      assert AssembleMessages(system, history) == history;
    }
  }

  lemma MarkedRequest(c: Compactor, st: Store, system: seq<Block>)
    requires Conserved(c, st) && HasMark(system)
    ensures var request := AssembleMessages(system, st.transcript);
            NonSystem(request) == Body(st) && Priors(request) == [Message(System, system)] + Head(st.calls)
  {
    var m := Message(System, system);
    FilterConcat(NotSystem, [m], st.transcript);
    FilterConcat(IsPriorSummary, [m], st.transcript);
    MarksRead(system);
    assert [m][1..] == [] && IsPriorSummary(m);
    TranscriptKinds(c, st);
  }

  /** Replacing a head of this length leaves the rest of the body. */
  lemma ReplacedAt(c: Compactor, st: Store, call: Call, k: nat)
    requires Conserved(c, st) && k <= |Body(st)| && call.upto == |Head(st.calls)| + k
    ensures Replaced(st, Some(call)).transcript == [call.summary] + Body(st)[k..]
  {
    HeadOfTranscript(c, st, k);
  }

  /** With such a block in the prompt the boundary is off by one: the message after the
      summarized ones is dropped, and the summarizer never saw it. */
  lemma MarkedPromptLosesMessage(
      c: Compactor, st: Store, system: seq<Block>, ask: Summarize, call: Call) returns (k: nat)
    requires Conserved(c, st) && HasMark(system)
    requires CallOf(c, AssembleMessages(system, st.transcript), None, ask) == Some(call)
    ensures 0 < k < |Body(st)| && ReadsAll(call.input.transcript, Body(st)[..k])
    ensures Replaced(st, Some(call)).transcript == [call.summary] + Body(st)[k + 1..]
  {
    MarkedRequest(c, st, system);
    k := CallShape(c, AssembleMessages(system, st.transcript), ask, call);
    JoinTextsReads(Body(st)[..k]);
    ReplacedAt(c, st, call, k + 1);
  }

  // ----- a prompt, a history and a configuration for which this happens -----

  function OneEach(): TokenCounter { (s: string) => 1 }

  const EAGER := Config(None, 0, 0, 0, 0.0, 0.0, 0.0, 0, 0, 0)

  function Answer(text: string): Summarize { (input: SummaryInput) => Ok(text) }

  lemma {:induction false} EstimateCounts(msgs: seq<Message>)
    ensures Estimate(OneEach(), msgs) == |msgs|
  {
    if msgs != [] { EstimateCounts(msgs[1..]); }
  }

  /** A compactor that summarizes whatever it can, counting every message as one token. */
  const EAGER_ONE := Compactor(EAGER, OneEach())

  lemma EagerMarks(msgs: seq<Message>)
    ensures EAGER_ONE.HighWatermark() == 0 && EAGER_ONE.Tier1() == 0 && TargetKeep(EAGER_ONE, msgs) == 1
  {
    assert EAGER_ONE.UsableWindow() as real * 0.0 == 0.0;
    assert EAGER_ONE.Threshold(0.0) == 0;
  }

  /** It keeps the newest message alone, and the round of a tool result. */
  lemma EagerCuts(msgs: seq<Message>, k: nat)
    requires |NonSystem(msgs)| >= 2 && PulledBack(NonSystem(msgs), |NonSystem(msgs)| - 1) == k > 0
    ensures SummaryCut(EAGER_ONE, msgs) == Some(k)
  {
    var rest := NonSystem(msgs);
    var last := |rest| - 1;
    EagerMarks(msgs);
    EstimateCounts(rest[last..]);
    EstimateCounts(rest[last - 1..]);
    assert IsBestSplit(EAGER_ONE, rest, 1, last);
    SplitIsOptimal(EAGER_ONE, rest, 1, last);
  }

  lemma EagerFires(msgs: seq<Message>, k: nat)
    requires |NonSystem(msgs)| >= 2 && PulledBack(NonSystem(msgs), |NonSystem(msgs)| - 1) == k > 0
    ensures FiresAt(EAGER_ONE, msgs, None) == Some(k)
  {
    EagerMarks(msgs);
    EagerCuts(msgs, k);
    TrimFacts(Evicted(msgs, 0));
    EstimateCounts(msgs);
    EstimateCounts(Cheap(msgs, 0));
  }

  /** A run that starts by appending. */
  lemma AppendFirst(c: Compactor, st: Store, m: Message, steps: seq<Step>)
    requires NotSystem(m) && IsRun(c, Next(c, st, Append(m)), steps)
    ensures IsRun(c, st, [Append(m)] + steps)
    ensures Run(c, st, [Append(m)] + steps) == Run(c, Next(c, st, Append(m)), steps)
    ensures Attempts(c, [Append(m)] + steps) == Attempts(c, steps)
  {
    assert ([Append(m)] + steps)[1..] == steps;
  }

  function TwoAppended(c: Compactor): Store {
    Next(c, Next(c, EMPTY, Append(UserMessage("a"))), Append(UserMessage("b")))
  }

  /** A transcript of two user messages. */
  lemma TwoMessages(c: Compactor)
    ensures var st, body := TwoAppended(c), [UserMessage("a"), UserMessage("b")];
            Conserved(c, st) && st == Store(body, body, [], []) && Body(st) == body
    ensures NotSystem(UserMessage("a")) && NotSystem(UserMessage("b")) && !HasToolResult(UserMessage("b"))
  {
    AppendConserves(c, EMPTY, UserMessage("a"));
    AppendConserves(c, Next(c, EMPTY, Append(UserMessage("a"))), UserMessage("b"));
  }

  /** Over two messages the compactor asks for a summary of the first one, marked prompt or not. */
  lemma EagerOverTwo(st: Store, request: seq<Message>)
    requires Conserved(EAGER_ONE, st) && |Body(st)| == 2 && !HasToolResult(Body(st)[1])
    requires NonSystem(request) == Body(st)
    ensures FiresAt(EAGER_ONE, request, None) == Some(1)
    ensures CallOf(EAGER_ONE, request, None, Answer("")).Some?
    ensures CallOf(EAGER_ONE, request, None, Refusal("busy")).None?
  {
    EagerFires(request, 1);
  }

  function Refusal(error: string): Summarize { (input: SummaryInput) => Err(error) }

  lemma MarkedOverTwo(st: Store, system: seq<Block>) returns (call: Call)
    requires Conserved(EAGER_ONE, st) && |Body(st)| == 2 && !HasToolResult(Body(st)[1]) && HasMark(system)
    ensures CallOf(EAGER_ONE, AssembleMessages(system, st.transcript), None, Answer("")) == Some(call)
    ensures Replaced(st, Some(call)).transcript == [call.summary]
    ensures ReadsAll(call.input.transcript, Body(st)[..1])
  {
    MarkedRequest(EAGER_ONE, st, system);
    EagerOverTwo(st, AssembleMessages(system, st.transcript));
    call := CallOf(EAGER_ONE, AssembleMessages(system, st.transcript), None, Answer("")).value;
    var k := MarkedPromptLosesMessage(EAGER_ONE, st, system, Answer(""), call);
    assert k == 1;
  }

  /** A prompt that reads like a summary, over two user messages: the second one is lost. */
  lemma MarkedPromptWitness()
    returns (c: Compactor, st: Store, system: seq<Block>, ask: Summarize, call: Call)
    ensures Conserved(c, st) && HasMark(system) && |st.transcript| == 2
    ensures CallOf(c, AssembleMessages(system, st.transcript), None, ask) == Some(call)
    ensures Replaced(st, Some(call)).transcript == [call.summary]
    ensures ReadsAll(call.input.transcript, st.transcript[..1])
  {
    c, ask, st := EAGER_ONE, Answer(""), TwoAppended(EAGER_ONE);
    TwoMessages(c);
    system := [TextBlock(SUMMARY_MARKER_PREFIX + "")];
    MarkLeads("");
    assert HasSummaryMark(system[0]);
    MarksRead(system);
    call := MarkedOverTwo(st, system);
  }

  lemma RefusedOverTwo(st: Store, n: nat)
    requires Conserved(EAGER_ONE, st) && |Body(st)| == 2 && !HasToolResult(Body(st)[1])
    ensures var steps := seq(n, i => Model(st.transcript, Refusal("busy")));
            IsRun(EAGER_ONE, st, steps) && Run(EAGER_ONE, st, steps) == st && Attempts(EAGER_ONE, steps) == n
  {
    TranscriptKinds(EAGER_ONE, st);
    EagerOverTwo(st, st.transcript);
    FailedCallsRepeat(EAGER_ONE, st, Model(st.transcript, Refusal("busy")), n);
  }

  /** After two appended messages, a summarizer that fails can be called any number of times. */
  lemma FailedCallsWitness(n: nat) returns (c: Compactor, steps: seq<Step>)
    ensures IsRun(c, EMPTY, steps) && Attempts(c, steps) == n
    ensures var st := Run(c, EMPTY, steps); |st.appended| == 2 && st.transcript == st.appended && st.calls == []
  {
    c := EAGER_ONE;
    TwoMessages(c);
    RefusedOverTwo(TwoAppended(c), n);
    var calls := seq(n, i => Model(TwoAppended(c).transcript, Refusal("busy")));
    AppendFirst(c, Next(c, EMPTY, Append(UserMessage("a"))), UserMessage("b"), calls);
    AppendFirst(c, EMPTY, UserMessage("a"), [Append(UserMessage("b"))] + calls);
    steps := [Append(UserMessage("a"))] + ([Append(UserMessage("b"))] + calls);
  }
}
