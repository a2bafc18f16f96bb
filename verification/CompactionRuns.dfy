/** Compaction over a persisted transcript, for any number of appends and model calls
    (agent-core/src/compaction.rs:496-608, agent-core/src/fanout.rs:78-99). */
module CompactionRuns {
  import opened Wrappers
  import opened Text
  import opened Chat
  import opened Compaction

  // ----- accounting of one pass -----

  lemma {:induction false} EstimateByKind(count: TokenCounter, msgs: seq<Message>)
    ensures Estimate(count, msgs)
         == Estimate(count, Pinned(msgs)) + Estimate(count, Priors(msgs)) + Estimate(count, NonSystem(msgs))
  {
    if msgs != [] {
      EstimateByKind(count, msgs[1..]);
      EstimateConcat(count, if IsPinned(msgs[0]) then [msgs[0]] else [], Pinned(msgs[1..]));
      EstimateConcat(count, if IsPriorSummary(msgs[0]) then [msgs[0]] else [], Priors(msgs[1..]));
      EstimateConcat(count, if NotSystem(msgs[0]) then [msgs[0]] else [], NonSystem(msgs[1..]));
      assert Estimate(count, [msgs[0]]) == EstimateMsg(count, msgs[0]) by { assert [msgs[0]][1..] == []; }
    }
  }

  /** The block is the formatted text. */
  ghost predicate IsGenuine(call: Call) {
    call.summary == SummaryMessage(call.upto, call.text)
  }

  /** The summary call that a pass makes and completes, if any. */
  function CallOf(c: Compactor, msgs: seq<Message>, mark: Option<nat>, ask: Summarize): Option<Call> {
    match FiresAt(c, msgs, mark)
    case None => None
    case Some(k) => (match SummaryCall(msgs, k, ask)
                     case Err(_) => None
                     case Ok(call) => Some(call))
  }

  /** `replace_head` is asked for exactly when a summary call succeeds, with its result. */
  lemma WriteIsCall(c: Compactor, msgs: seq<Message>, mark: Option<nat>, ask: Summarize)
    ensures var r := Fit(c, msgs, mark, ask); var call := CallOf(c, msgs, mark, ask);
            && (call.Some? <==> r.Ok? && r.value.Some? && r.value.value.summaryWrite.Some?)
            && (call.Some? ==> r.value.value.summaryWrite.value == (call.value.summary, call.value.upto))
            && (call.Some? ==> IsGenuine(call.value))
  {
    match FiresAt(c, msgs, mark) {
      case None => QuietPass(c, msgs, mark, ask);
      case Some(k) =>
        FiringSummarizes(c, msgs, mark, ask, k);
        FiringCalls(c, msgs, mark, ask, k);
        SummarizedIsCall(msgs, k, ask);
    }
  }

  lemma FiringCalls(c: Compactor, msgs: seq<Message>, mark: Option<nat>, ask: Summarize, k: nat)
    requires FiresAt(c, msgs, mark) == Some(k)
    ensures CallOf(c, msgs, mark, ask)
         == match SummaryCall(msgs, k, ask)
            case Err(_) => None
            case Ok(call) => Some(call)
  {
  }

  lemma SummarizedIsCall(msgs: seq<Message>, k: nat, ask: Summarize)
    requires k <= |NonSystem(msgs)|
    ensures match SummaryCall(msgs, k, ask)
            case Err(e) => Summarized(msgs, k, ask) == Err(e)
            case Ok(call) =>
              && IsGenuine(call) && call.upto == |Priors(msgs)| + k
              && call.input == SummaryInputFor(msgs, NonSystem(msgs)[..k])
              && var out := Pinned(msgs) + [call.summary] + NonSystem(msgs)[k..];
                 Summarized(msgs, k, ask) == Ok(Some(Fitted(out, Some((call.summary, call.upto)))))
  {
  }

  lemma QuietPass(c: Compactor, msgs: seq<Message>, mark: Option<nat>, ask: Summarize)
    requires FiresAt(c, msgs, mark).None?
    ensures var r := Fit(c, msgs, mark, ask); r.Ok? && (r.value.Some? ==> r.value.value.summaryWrite.None?)
  {
  }

  /** The messages that go out when the summary call of the pass succeeds. */
  function Outbound(c: Compactor, msgs: seq<Message>, mark: Option<nat>, ask: Summarize): seq<Message>
    requires CallOf(c, msgs, mark, ask).Some?
  {
    Fit(c, msgs, mark, ask).value.value.messages
  }

  lemma OutboundShape(c: Compactor, msgs: seq<Message>, mark: Option<nat>, ask: Summarize, call: Call, k: nat)
    requires CallOf(c, msgs, mark, ask) == Some(call) && FiresAt(c, msgs, mark) == Some(k)
    ensures Outbound(c, msgs, mark, ask) == Pinned(msgs) + [call.summary] + NonSystem(msgs)[k..]
  {
    FiringSummarizes(c, msgs, mark, ask, k);
    FiringCalls(c, msgs, mark, ask, k);
    SummarizedIsCall(msgs, k, ask);
  }

  /** When the summary tier fires, tokens are accounted for exactly. */
  lemma SummaryAccounting(c: Compactor, msgs: seq<Message>, mark: Option<nat>, ask: Summarize, call: Call, k: nat)
    requires CallOf(c, msgs, mark, ask) == Some(call) && FiresAt(c, msgs, mark) == Some(k)
    ensures c.Est(Outbound(c, msgs, mark, ask))
         == c.Est(msgs) - c.Est(Priors(msgs)) - c.Est(NonSystem(msgs)[..k])
            + EstimateMsg(c.count, call.summary)
    ensures c.Est(Outbound(c, msgs, mark, ask))
         == c.Est(Pinned(msgs)) + EstimateMsg(c.count, call.summary) + c.Est(NonSystem(msgs)[k..])
  {
    OutboundShape(c, msgs, mark, ask, call, k);
    EstimateAround(c.count, Pinned(msgs), call.summary, NonSystem(msgs)[k..]);
    EstimateByKind(c.count, msgs);
    EstimateSplit(c.count, NonSystem(msgs), k);
  }

  lemma EstimateAround(count: TokenCounter, a: seq<Message>, m: Message, b: seq<Message>)
    ensures Estimate(count, a + [m] + b) == Estimate(count, a) + EstimateMsg(count, m) + Estimate(count, b)
  {
    EstimateConcat(count, a, [m]);
    EstimateConcat(count, a + [m], b);
    assert [m][1..] == [];
  }

  /** By how much a pass can overshoot the low watermark: the pinned content and the reserve
      leave no room, the summary outgrows its reserve, the newest message alone exceeds the
      target, or the pull-back brought older messages along. */
  function Overshoot(c: Compactor, msgs: seq<Message>, mark: Option<nat>, summary: Message): nat
    requires FiresAt(c, msgs, mark).Some?
  {
    OvershootAt(c, msgs, FiresAt(c, msgs, mark).value, summary)
  }

  function OvershootAt(c: Compactor, msgs: seq<Message>, k: nat, summary: Message): nat
    requires k < |NonSystem(msgs)|
  {
    var rest := NonSystem(msgs);
    var split := SplitKeepStart(c, rest, TargetKeep(c, msgs));
    Excess(c.Est(Pinned(msgs)), SummaryReserve(c), c.LowWatermark(), if k <= split then c.Est(rest[k..split]) else 0,
           EstimateMsg(c.count, rest[|rest| - 1]), EstimateMsg(c.count, summary))
  }

  function Target(pinned: nat, reserve: nat, low: nat): nat { Max(SaturatingSub(low, pinned + reserve), 1) }

  function Excess(pinned: nat, reserve: nat, low: nat, pulled: nat, newest: nat, summary: nat): nat {
    (if low <= pinned + reserve then pinned + reserve + 1 - low else 0)
    + SaturatingSub(summary, reserve) + SaturatingSub(newest, Target(pinned, reserve, low)) + pulled
  }

  lemma LandsAtLowWatermark(c: Compactor, msgs: seq<Message>, mark: Option<nat>, ask: Summarize, call: Call)
    requires CallOf(c, msgs, mark, ask) == Some(call)
    ensures c.Est(Outbound(c, msgs, mark, ask))
         <= c.LowWatermark() + Overshoot(c, msgs, mark, call.summary)
  {
    var k := FiresAt(c, msgs, mark).value;
    SummaryAccounting(c, msgs, mark, ask, call, k);
    CutIsAtMostSplit(c, msgs, mark);
    FitsBesideSummary(c, msgs, k, call.summary);
  }

  lemma CutIsAtMostSplit(c: Compactor, msgs: seq<Message>, mark: Option<nat>)
    requires FiresAt(c, msgs, mark).Some?
    ensures FiresAt(c, msgs, mark).value <= SplitKeepStart(c, NonSystem(msgs), TargetKeep(c, msgs))
  {
    SplitInRange(c, NonSystem(msgs), TargetKeep(c, msgs));
  }

  /** What is pinned, the summary and what is kept, against the low watermark. */
  lemma FitsBesideSummary(c: Compactor, msgs: seq<Message>, k: nat, summary: Message)
    requires k < |NonSystem(msgs)| && k <= SplitKeepStart(c, NonSystem(msgs), TargetKeep(c, msgs))
    ensures c.Est(Pinned(msgs)) + EstimateMsg(c.count, summary) + c.Est(NonSystem(msgs)[k..])
         <= c.LowWatermark() + OvershootAt(c, msgs, k, summary)
  {
    var rest, target := NonSystem(msgs), TargetKeep(c, msgs);
    KeptIsWithinTarget(c, rest, target);
    var split := SplitKeepStart(c, rest, target);
    EstimateThrough(c, rest, k, split);
    MarkArithmetic(c.Est(Pinned(msgs)), SummaryReserve(c), c.LowWatermark(), c.Est(rest[split..]),
                   c.Est(rest[k..split]),
                   EstimateMsg(c.count, rest[|rest| - 1]), EstimateMsg(c.count, summary));
  }

  lemma MarkArithmetic(pinned: nat, reserve: nat, low: nat, kept: nat, pulled: nat, newest: nat, summary: nat)
    requires kept <= Target(pinned, reserve, low) + SaturatingSub(newest, Target(pinned, reserve, low))
    ensures pinned + summary + (pulled + kept) <= low + Excess(pinned, reserve, low, pulled, newest, summary)
  {
  }

  lemma EstimateThrough(c: Compactor, rest: seq<Message>, k: nat, split: nat)
    requires k <= split <= |rest|
    ensures c.Est(rest[k..]) == c.Est(rest[k..split]) + c.Est(rest[split..])
  {
    assert rest[k..] == rest[k..split] + rest[split..];
    EstimateConcat(c.count, rest[k..split], rest[split..]);
  }

  lemma KeptIsWithinTarget(c: Compactor, rest: seq<Message>, target: nat)
    requires rest != []
    ensures SplitKeepStart(c, rest, target) < |rest|
    ensures c.Est(rest[SplitKeepStart(c, rest, target)..])
         <= target + SaturatingSub(EstimateMsg(c.count, rest[|rest| - 1]), target)
  {
    var split := SplitKeepStart(c, rest, target);
    SplitInRange(c, rest, target);
    SplitIsOptimal(c, rest, target, split);
    if split == |rest| - 1 { EstimateFrom(c, rest, split); }
  }

  // ----- runs -----

  /** The transcript, with the history of how it came about. */
  datatype Store = Store(
    transcript: seq<Message>,
    appended: seq<Message>,
    segments: seq<seq<Message>>,
    calls: seq<Call>)

  /** Append a message, or pass the compactor over a request; `ask` answers its summary call. */
  datatype Step = Append(m: Message) | Model(request: seq<Message>, ask: Summarize)

  /** `EphemeralTranscript::replace_head` */
  function ReplaceHead(t: seq<Message>, summary: Message, upto: nat): seq<Message> {
    [summary] + t[Min(upto, |t|)..]
  }

  function Next(c: Compactor, st: Store, step: Step): Store {
    match step
    case Append(m) => st.(transcript := st.transcript + [m], appended := st.appended + [m])
    case Model(request, ask) => Replaced(st, CallOf(c, request, None, ask))
  }

  /** The store after `replace_head`; the segment is what the head lost besides summaries. */
  function Replaced(st: Store, call: Option<Call>): Store {
    match call
    case None => st
    case Some(call) =>
      var t := st.transcript;
      Store(ReplaceHead(t, call.summary, call.upto), st.appended,
            st.segments + [NonSystem(t[..Min(call.upto, |t|)])], st.calls + [call])
  }

  /** The request shows the transcript: its messages besides System ones, and its summary. */
  predicate Shows(request: seq<Message>, transcript: seq<Message>) {
    NonSystem(request) == NonSystem(transcript) && Priors(request) == Priors(transcript)
  }

  predicate Enabled(st: Store, step: Step) {
    match step
    case Append(m) => NotSystem(m)
    case Model(request, _) => Shows(request, st.transcript)
  }

  function Run(c: Compactor, st: Store, steps: seq<Step>): Store
    decreases |steps|
  {
    if steps == [] then st else Run(c, Next(c, st, steps[0]), steps[1..])
  }

  predicate IsRun(c: Compactor, st: Store, steps: seq<Step>)
    decreases |steps|
  {
    steps == [] || (Enabled(st, steps[0]) && IsRun(c, Next(c, st, steps[0]), steps[1..]))
  }

  /** What a run appends, in order. */
  function Appends(steps: seq<Step>): seq<Message> {
    if steps == [] then [] else (if steps[0].Append? then [steps[0].m] else []) + Appends(steps[1..])
  }

  predicate IsModel(step: Step) { step.Model? }

  /** The passes of a run, in order. */
  function ModelSteps(steps: seq<Step>): seq<Step> { Filter(IsModel, steps) }

  lemma {:induction false} RunSnoc(c: Compactor, st: Store, steps: seq<Step>, step: Step)
    requires IsRun(c, st, steps)
    ensures Run(c, st, steps + [step]) == Next(c, Run(c, st, steps), step)
    ensures IsRun(c, st, steps + [step]) <==> Enabled(Run(c, st, steps), step)
    decreases |steps|
  {
    if steps == [] {
      OneStep(c, st, step);
      assert [] + [step] == [step];
    } else {
      assert (steps + [step])[1..] == steps[1..] + [step];
      RunSnoc(c, Next(c, st, steps[0]), steps[1..], step);
    }
  }

  lemma OneStep(c: Compactor, st: Store, step: Step)
    ensures Run(c, st, [step]) == Next(c, st, step) && (IsRun(c, st, [step]) <==> Enabled(st, step))
  {
    assert [step][1..] == [];
  }

  lemma {:induction false} StepsSnoc(steps: seq<Step>, step: Step)
    ensures Appends(steps + [step]) == Appends(steps) + if step.Append? then [step.m] else []
    ensures ModelSteps(steps + [step]) == ModelSteps(steps) + if step.Model? then [step] else []
  {
    if steps == [] {
      assert [step][1..] == [] && [] + [step] == [step];
    } else {
      assert (steps + [step])[1..] == steps[1..] + [step];
      StepsSnoc(steps[1..], step);
    }
  }

  /** A run only adds to the history, and the appended messages are those of its steps. */
  lemma {:induction false} RunGrows(c: Compactor, st: Store, steps: seq<Step>)
    ensures var st' := Run(c, st, steps);
            && st'.appended == st.appended + Appends(steps)
            && st.segments <= st'.segments && st.calls <= st'.calls
    decreases |steps|
  {
    if steps != [] { RunGrows(c, Next(c, st, steps[0]), steps[1..]); }
  }

  // ----- the invariant -----

  function Head(calls: seq<Call>): seq<Message> {
    if calls == [] then [] else [calls[|calls| - 1].summary]
  }

  function Body(st: Store): seq<Message> {
    if |Head(st.calls)| <= |st.transcript| then st.transcript[|Head(st.calls)|..] else []
  }

  /** `text` is the texts of these messages, in order, with an empty line between them. */
  ghost predicate ReadsAll(text: string, msgs: seq<Message>) { IsJoined(text, Map(MessageText, msgs), "\n\n") }

  lemma JoinTextsReads(msgs: seq<Message>)
    ensures ReadsAll(JoinTexts(msgs), msgs)
    ensures |msgs| == 1 ==> JoinTexts(msgs) == MessageText(msgs[0])
  {
    JoinIsJoined(Map(MessageText, msgs), "\n\n");
  }

  /** The `i`-th call read its own segment and the summary before it. */
  ghost predicate Chained(segments: seq<seq<Message>>, calls: seq<Call>) {
    && |segments| == |calls|
    && (forall i :: 0 <= i < |calls| ==>
         && ReadsAll(calls[i].input.transcript, segments[i])
         && calls[i].upto == (if i == 0 then 0 else 1) + |segments[i]|)
    && (calls != [] ==> calls[0].input.previous == None)
    && forall i, j :: 0 <= i && j == i + 1 < |calls| ==> calls[j].input.previous == Some(MessageText(calls[i].summary))
  }

  ghost predicate NoSystem(body: seq<Message>) {
    forall m :: m in body ==> NotSystem(m)
  }

  ghost predicate Recognised(calls: seq<Call>) {
    forall i :: 0 <= i < |calls| ==> IsPriorSummary(calls[i].summary)
  }

  /** Nothing lost, nothing duplicated: at most one summary, then the body; the segments
      summarized so far and the body are all that was ever appended, in order. */
  ghost predicate Conserved(c: Compactor, st: Store) {
    ConservedWith(c, st, Body(st))
  }

  ghost predicate ConservedWith(c: Compactor, st: Store, body: seq<Message>) {
    && st.transcript == Head(st.calls) + body
    && NoSystem(body) && Recognised(st.calls)
    && Flatten(st.segments) + body == st.appended
    && Chained(st.segments, st.calls)
    && Worthwhile(c, st.segments)
  }

  const EMPTY := Store([], [], [], [])

  /** A summary just written is recognised by the next pass, and says what was answered. */
  lemma SummaryIsPrior(upto: nat, text: string)
    ensures IsPriorSummary(SummaryMessage(upto, text))
    ensures SummaryMessage(upto, text).role == System
    ensures MessageText(SummaryMessage(upto, text)) == SummaryText(upto, text)
         == "[Summary of " + (Decimal(upto) + " earlier messages]\n" + text)
  {
    var m, s := SummaryMessage(upto, text), SummaryText(upto, text);
    MarkLeads(Decimal(upto) + " earlier messages]\n" + text);
    assert HasSummaryMark(m.content[0]);
    assert m.content[1..] == [] && Parts(m.content) == [s];
    assert Map(MessageText, [m]) == [s];
  }

  lemma MarkLeads(tail: string)
    ensures SUMMARY_MARKER_PREFIX <= TrimStart(SUMMARY_MARKER_PREFIX + tail)
  {
    var s := SUMMARY_MARKER_PREFIX + tail;
    assert s[0] == '[' && WhiteLen(s) == 0 && s[0..] == s;
  }

  lemma TranscriptKinds(c: Compactor, st: Store)
    requires Conserved(c, st)
    ensures NonSystem(st.transcript) == Body(st) && Priors(st.transcript) == Head(st.calls)
  {
    var head, body := Head(st.calls), Body(st);
    FilterConcat(NotSystem, head, body);
    FilterNone(NotSystem, head);
    FilterAll(NotSystem, body);
    FilterConcat(IsPriorSummary, head, body);
    FilterAll(IsPriorSummary, head);
    FilterNone(IsPriorSummary, body);
  }

  lemma AppendConserves(c: Compactor, st: Store, m: Message)
    requires Conserved(c, st) && NotSystem(m)
    ensures Conserved(c, Next(c, st, Append(m))) && Body(Next(c, st, Append(m))) == Body(st) + [m]
  {
    var st' := Next(c, st, Append(m));
    assert Body(st') == Body(st) + [m];
    assert st'.transcript == Head(st.calls) + (Body(st) + [m]);
    assert st'.appended == Flatten(st.segments) + (Body(st) + [m]);
  }

  lemma HeadOfTranscript(c: Compactor, st: Store, k: nat)
    requires Conserved(c, st) && k <= |Body(st)|
    ensures var upto := |Head(st.calls)| + k;
            && upto <= |st.transcript| && st.transcript[upto..] == Body(st)[k..]
            && NonSystem(st.transcript[..upto]) == Body(st)[..k]
  {
    var t, upto, head, body := st.transcript, |Head(st.calls)| + k, Head(st.calls), Body(st);
    assert t[..upto] == head + body[..k] && t[upto..] == body[k..];
    FilterConcat(NotSystem, head, body[..k]);
    FilterNone(NotSystem, head);
    FilterAll(NotSystem, body[..k]);
  }

  /** One completed summary: where the body is cut, and what the call read. */
  lemma CompactionCuts(c: Compactor, st: Store, request: seq<Message>, ask: Summarize, call: Call) returns (k: nat)
    requires Conserved(c, st) && Shows(request, st.transcript) && CallOf(c, request, None, ask) == Some(call)
    ensures 0 < k < |Body(st)| && FiresAt(c, request, None) == Some(k)
    ensures Replaced(st, Some(call)) == Store([call.summary] + Body(st)[k..], st.appended,
                                              st.segments + [Body(st)[..k]], st.calls + [call])
    ensures call.upto == |Head(st.calls)| + k && ReadsAll(call.input.transcript, Body(st)[..k])
    ensures call.input.previous
         == if st.calls == [] then None else Some(MessageText(st.calls[|st.calls| - 1].summary))
    ensures IsPriorSummary(call.summary) && c.Est(Body(st)[..k]) >= c.config.minFreeTokens
  {
    TranscriptKinds(c, st);
    k := CallShape(c, request, ask, call);
    HeadOfTranscript(c, st, k);
    JoinTextsReads(Body(st)[..k]);
    JoinTextsReads(Head(st.calls));
  }

  lemma CallShape(c: Compactor, request: seq<Message>, ask: Summarize, call: Call) returns (k: nat)
    requires CallOf(c, request, None, ask) == Some(call)
    ensures 0 < k < |NonSystem(request)| && FiresAt(c, request, None) == Some(k)
    ensures call.upto == |Priors(request)| + k && IsPriorSummary(call.summary)
    ensures call.input == SummaryInputFor(request, NonSystem(request)[..k])
    ensures c.Est(NonSystem(request)[..k]) >= c.config.minFreeTokens
  {
    k := FiresAt(c, request, None).value;
    CallIsOfFirst(c, request, ask, call, k);
    CutIsWorthwhile(c, request, k);
    SummaryIsPrior(call.upto, call.text);
  }

  lemma CallIsOfFirst(c: Compactor, request: seq<Message>, ask: Summarize, call: Call, k: nat)
    requires CallOf(c, request, None, ask) == Some(call) && FiresAt(c, request, None) == Some(k)
    ensures call.upto == |Priors(request)| + k && IsGenuine(call)
    ensures call.input == SummaryInputFor(request, NonSystem(request)[..k])
  {
    FiringCalls(c, request, None, ask, k);
    SummarizedIsCall(request, k, ask);
  }

  lemma CutIsWorthwhile(c: Compactor, msgs: seq<Message>, k: nat)
    requires FiresAt(c, msgs, None) == Some(k)
    ensures c.Est(NonSystem(msgs)[..k]) >= c.config.minFreeTokens
  {
  }

  lemma ChainedSnoc(segments: seq<seq<Message>>, calls: seq<Call>, segment: seq<Message>, call: Call)
    requires Chained(segments, calls)
    requires ReadsAll(call.input.transcript, segment)
    requires call.input.previous == (if calls == [] then None else Some(MessageText(calls[|calls| - 1].summary)))
    requires call.upto == (if calls == [] then 0 else 1) + |segment|
    ensures Chained(segments + [segment], calls + [call])
  {
  }

  lemma CompactionConserves(c: Compactor, st: Store, request: seq<Message>, ask: Summarize)
    requires Conserved(c, st) && Shows(request, st.transcript)
    ensures Conserved(c, Next(c, st, Model(request, ask)))
  {
    if CallOf(c, request, None, ask).Some? {
      var call := CallOf(c, request, None, ask).value;
      var k := CompactionCuts(c, st, request, ask, call);
      ChainedSnoc(st.segments, st.calls, Body(st)[..k], call);
      CutConserves(c, st, call, k);
    }
  }

  lemma CutConserves(c: Compactor, st: Store, call: Call, k: nat)
    requires Conserved(c, st) && 0 < k <= |Body(st)| && c.Est(Body(st)[..k]) >= c.config.minFreeTokens
    requires Chained(st.segments + [Body(st)[..k]], st.calls + [call]) && IsPriorSummary(call.summary)
    ensures Conserved(c, Store([call.summary] + Body(st)[k..], st.appended,
                               st.segments + [Body(st)[..k]], st.calls + [call]))
  {
    var old', kept := Body(st)[..k], Body(st)[k..];
    var st' := Store([call.summary] + kept, st.appended, st.segments + [old'], st.calls + [call]);
    assert Head(st'.calls) == [call.summary];
    NoSystemSuffix(Body(st), k);
    RecognisedSnoc(st.calls, call);
    FlattenMoves(st.segments, Body(st), k);
    SegmentsSnoc(c, st.segments, old');
    assert ConservedWith(c, st', kept);
    BodyIsUnique(c, st', kept);
  }

  lemma FlattenMoves<T>(segments: seq<seq<T>>, body: seq<T>, k: nat)
    requires k <= |body|
    ensures Flatten(segments + [body[..k]]) + body[k..] == Flatten(segments) + body
  {
    FlattenSnoc(segments, body[..k]);
    assert body[..k] + body[k..] == body;
  }

  lemma BodyIsUnique(c: Compactor, st: Store, body: seq<Message>)
    requires ConservedWith(c, st, body)
    ensures Body(st) == body && Conserved(c, st)
  {
  }

  lemma NoSystemSuffix(body: seq<Message>, k: nat)
    requires NoSystem(body) && k <= |body|
    ensures NoSystem(body[k..]) && NoSystem(body[..k])
  {
  }

  lemma RecognisedSnoc(calls: seq<Call>, call: Call)
    requires Recognised(calls) && IsPriorSummary(call.summary)
    ensures Recognised(calls + [call])
  {
  }

  ghost predicate Worthwhile(c: Compactor, segments: seq<seq<Message>>) {
    forall i :: 0 <= i < |segments| ==> segments[i] != [] && c.Est(segments[i]) >= c.config.minFreeTokens
  }

  lemma SegmentsSnoc(c: Compactor, segments: seq<seq<Message>>, segment: seq<Message>)
    requires Worthwhile(c, segments) && segment != [] && c.Est(segment) >= c.config.minFreeTokens
    ensures Worthwhile(c, segments + [segment])
  {
  }

  lemma {:induction false} RunConserves(c: Compactor, st: Store, steps: seq<Step>)
    requires Conserved(c, st) && IsRun(c, st, steps)
    ensures Conserved(c, Run(c, st, steps))
    decreases |steps|
  {
    if steps != [] {
      match steps[0] {
        case Append(m) => AppendConserves(c, st, m);
        case Model(request, ask) => CompactionConserves(c, st, request, ask);
      }
      RunConserves(c, Next(c, st, steps[0]), steps[1..]);
    }
  }

  /** Conservation over every run from the empty transcript. */
  lemma Conservation(c: Compactor, steps: seq<Step>)
    requires IsRun(c, EMPTY, steps)
    ensures Conserved(c, Run(c, EMPTY, steps))
  {
    RunConserves(c, EMPTY, steps);
  }

  // ----- the amortised bound -----

  lemma TimesSuccessor(n: nat, m: nat)
    ensures (n + 1) * m == n * m + m
  {
  }

  lemma {:induction false} SegmentsEstimate(c: Compactor, segments: seq<seq<Message>>)
    requires Worthwhile(c, segments)
    ensures |segments| * c.config.minFreeTokens <= c.Est(Flatten(segments))
  {
    if segments != [] {
      var rest := segments[1..];
      SegmentsEstimate(c, rest);
      EstimateConcat(c.count, segments[0], Flatten(rest));
      TimesSuccessor(|rest|, c.config.minFreeTokens);
    }
  }

  lemma ConservedBound(c: Compactor, st: Store)
    requires Conserved(c, st)
    ensures |st.calls| * c.config.minFreeTokens <= c.Est(st.appended)
  {
    SegmentsEstimate(c, st.segments);
    EstimateConcat(c.count, Flatten(st.segments), Body(st));
  }

  /** Completed summary calls times the minimum each must free never exceed the tokens of all
      messages ever appended; and these are all the calls exactly when none fails. */
  lemma AmortisedCalls(c: Compactor, steps: seq<Step>)
    requires IsRun(c, EMPTY, steps)
    ensures var st := Run(c, EMPTY, steps);
            && |st.calls| * c.config.minFreeTokens <= c.Est(st.appended)
            && (Attempts(c, steps) == |st.calls| <==> AllComplete(c, steps))
  {
    Conservation(c, steps);
    ConservedBound(c, Run(c, EMPTY, steps));
    AttemptsComplete(c, EMPTY, steps);
  }

  /** The summary calls of a run, completed or failed. */
  function Attempts(c: Compactor, steps: seq<Step>): nat {
    if steps == [] then 0
    else (if steps[0].Model? && FiresAt(c, steps[0].request, None).Some? then 1 else 0) + Attempts(c, steps[1..])
  }

  /** Every summary call that a run makes completes. */
  ghost predicate AllComplete(c: Compactor, steps: seq<Step>) {
    forall i :: 0 <= i < |steps| && steps[i].Model? && FiresAt(c, steps[i].request, None).Some? ==>
      CallOf(c, steps[i].request, None, steps[i].ask).Some?
  }

  lemma {:induction false} AttemptsComplete(c: Compactor, st: Store, steps: seq<Step>)
    requires IsRun(c, st, steps)
    ensures |Run(c, st, steps).calls| <= |st.calls| + Attempts(c, steps)
    ensures |Run(c, st, steps).calls| == |st.calls| + Attempts(c, steps) <==> AllComplete(c, steps)
    decreases |steps|
  {
    if steps != [] {
      AttemptsComplete(c, Next(c, st, steps[0]), steps[1..]);
      assert AllComplete(c, steps) <==>
             AllComplete(c, steps[..1]) && AllComplete(c, steps[1..]) by { SplitComplete(c, steps); }
    }
  }

  lemma SplitComplete(c: Compactor, steps: seq<Step>)
    requires steps != []
    ensures AllComplete(c, steps) <==> AllComplete(c, steps[..1]) && AllComplete(c, steps[1..])
  {
    if AllComplete(c, steps[..1]) && AllComplete(c, steps[1..]) {
      forall i | 0 <= i < |steps| && steps[i].Model? && FiresAt(c, steps[i].request, None).Some?
        ensures CallOf(c, steps[i].request, None, steps[i].ask).Some?
      {
        assert if i == 0 then steps[..1][0] == steps[0] else steps[1..][i - 1] == steps[i];
      }
    }
    if AllComplete(c, steps) {
      assert forall i :: 0 <= i < |steps| - 1 ==> steps[1..][i] == steps[i + 1];
    }
  }

  /** A failed call leaves the store as it was, so the same request fires again, as often as one
      likes: attempts have no bound in what was appended. */
  lemma {:induction false} FailedCallsRepeat(c: Compactor, st: Store, step: Step, n: nat)
    requires step.Model? && Enabled(st, step) && FiresAt(c, step.request, None).Some?
    requires CallOf(c, step.request, None, step.ask).None?
    ensures var steps := seq(n, i => step);
            IsRun(c, st, steps) && Run(c, st, steps) == st && Attempts(c, steps) == n
  {
    var steps := seq(n, i => step);
    if n > 0 {
      assert steps[1..] == seq(n - 1, i => step);
      FailedCallsRepeat(c, st, step, n - 1);
    }
  }

  // ----- provenance -----

  lemma {:induction false} TrimEndKeepsVisible(s: string)
    requires s != "" && !IsWhite(s[0])
    ensures TrimEnd(s) != ""
  {
    if IsWhite(s[|s| - 1]) {
      TrimEndKeepsVisible(s[..|s| - 1]);
    }
  }

  lemma FullRequest(instruction: string, turns: string)
    ensures SummaryRequest(instruction, SummaryInput(turns, None)) == "Conversation to summarize:\n" + turns
    ensures Contains(SummaryRequest(instruction, SummaryInput(turns, None)), turns)
  {
    ContainsMiddle(FULL_HEADER, turns, "");
    assert FULL_HEADER + turns + "" == FULL_HEADER + turns;
  }

  /** The incremental request carries the earlier summary's text and the new turns. */
  lemma IncrementalRequest(instruction: string, upto: nat, text: string, turns: string)
    ensures var request := SummaryRequest(instruction, SummaryInput(turns, Some(SummaryText(upto, text))));
            && request == instruction + "Existing summary:\n" + SummaryText(upto, text)
                          + "\n\nNew conversation turns since the existing summary:\n" + turns
            && Contains(request, text) && Contains(request, turns)
  {
    var shown := SummaryText(upto, text);
    var tail := Decimal(upto) + " earlier messages]\n" + text;
    assert shown[0] == SUMMARY_MARKER_PREFIX[0] == '[';
    assert WhiteLen(shown) == 0 && shown[0..] == shown;
    TrimEndKeepsVisible(shown);
    RequestParts(instruction + EXISTING_HEADER, SUMMARY_MARKER_PREFIX, Decimal(upto) + " earlier messages]\n", text,
                 NEW_TURNS_HEADER, turns);
  }

  lemma RequestParts(a: string, p: string, q: string, text: string, b: string, turns: string)
    ensures var request := a + (p + (q + text)) + b + turns;
            Contains(request, text) && Contains(request, turns)
  {
    var request := a + (p + (q + text)) + b + turns;
    assert request == (a + (p + q)) + text + (b + turns);
    ContainsMiddle(a + (p + q), text, b + turns);
    assert request == (a + (p + (q + text)) + b) + turns + "";
    ContainsMiddle(a + (p + (q + text)) + b, turns, "");
  }

  lemma {:induction false} RunIsGenuine(c: Compactor, st: Store, steps: seq<Step>)
    requires IsRun(c, st, steps) && forall i :: 0 <= i < |st.calls| ==> IsGenuine(st.calls[i])
    ensures forall i :: 0 <= i < |Run(c, st, steps).calls| ==> IsGenuine(Run(c, st, steps).calls[i])
    decreases |steps|
  {
    if steps != [] {
      if steps[0].Model? { WriteIsCall(c, steps[0].request, None, steps[0].ask); }
      RunIsGenuine(c, Next(c, st, steps[0]), steps[1..]);
    }
  }

  /** Every later call is the incremental one: its request carries the previous summary, and the
      text of every message of its own segment, in order. */
  lemma SummaryIsFolded(c: Compactor, steps: seq<Step>, instruction: string, i: nat)
    requires IsRun(c, EMPTY, steps) && i < |Run(c, EMPTY, steps).calls|
    ensures var st := Run(c, EMPTY, steps); var request := SummaryRequest(instruction, st.calls[i].input);
            && i < |st.segments|
            && Contains(request, st.calls[i].input.transcript)
            && ReadsAll(st.calls[i].input.transcript, st.segments[i])
            && (forall j :: 0 <= j < |st.segments[i]| ==> Contains(request, MessageText(st.segments[i][j])))
            && (i > 0 ==> Contains(request, st.calls[i - 1].text))
  {
    Conservation(c, steps);
    RunIsGenuine(c, EMPTY, steps);
    var st := Run(c, EMPTY, steps);
    var input := st.calls[i].input;
    if i == 0 {
      assert input == SummaryInput(input.transcript, None);
      FullRequest(instruction, input.transcript);
    } else {
      var previous := st.calls[i - 1];
      assert IsGenuine(previous) && input == SummaryInput(input.transcript, Some(MessageText(previous.summary)));
      SummaryIsPrior(previous.upto, previous.text);
      IncrementalRequest(instruction, previous.upto, previous.text, input.transcript);
    }
    RequestReads(SummaryRequest(instruction, input), input.transcript, st.segments[i]);
  }

  lemma RequestReads(request: string, text: string, msgs: seq<Message>)
    requires Contains(request, text) && ReadsAll(text, msgs)
    ensures forall j :: 0 <= j < |msgs| ==> Contains(request, MessageText(msgs[j]))
  {
    var parts := Map(MessageText, msgs);
    JoinedContains(text, parts, "\n\n");
    forall j | 0 <= j < |msgs|
      ensures Contains(request, MessageText(msgs[j]))
    {
      assert Contains(text, parts[j]);
      ContainsThrough(request, text, parts[j]);
    }
  }
}
