/** agent-core/src/compaction.rs: the tiered pipeline. */
module Compaction {
  import opened Wrappers
  import opened Text
  import opened Chat

  const SUMMARY_RESERVE_TOKENS: nat := 2000

  const TOOL_RESULT_PLACEHOLDER :=
    "[Older tool result " + "cleared to save " + "context. Recall " + "it with " + "get_tool_result "
    + "if still needed.]"

  /** `TOOL_RESULT_PLACEHOLDER.len()` */
  const PLACEHOLDER_BYTES: nat := 92

  datatype Config = Config(
    contextWindow: Option<nat>,
    maxOutputTokens: nat,
    safetyTokens: nat,
    fallbackWindowTokens: nat,
    triggerFraction: real,
    lowWatermarkFraction: real,
    tier1Fraction: real,
    keepToolResults: nat,
    minFreeTokens: nat,
    cooldownGrowthTokens: nat)

  datatype Compactor = Compactor(config: Config, count: TokenCounter) {

    function UsableWindow(): (w: nat)
      ensures w >= 1
    {
      var raw := if config.contextWindow.Some? then config.contextWindow.value else config.fallbackWindowTokens;
      Max(SaturatingSub(raw, config.maxOutputTokens + config.safetyTokens), 1)
    }

    function Threshold(fraction: real): nat {
      var x := (UsableWindow() as real * fraction).Floor;
      if x < 0 then 0 else x
    }

    function HighWatermark(): nat { Threshold(config.triggerFraction) }
    function LowWatermark(): nat { Threshold(config.lowWatermarkFraction) }
    function Tier1(): nat { Threshold(config.tier1Fraction) }

    function Est(msgs: seq<Message>): nat { Estimate(count, msgs) }
  }

  // ----- tier 1: tool-result eviction -----

  /** The bytes of text in a tool result (the length test of the source is in bytes). */
  function TextBytes(content: seq<Block>): nat {
    if content == [] then 0
    else (if content[0].TextBlock? then ByteLen(content[0].text) else 0) + TextBytes(content[1..])
  }

  predicate Shrinks(b: Block) {
    b.ToolResult? && TextBytes(b.content) > PLACEHOLDER_BYTES
  }

  function EvictBlock(b: Block): Block {
    if Shrinks(b) then b.(content := [TextBlock(TOOL_RESULT_PLACEHOLDER)]) else b
  }

  function EvictMessage(m: Message): Message {
    m.(content := Map(EvictBlock, m.content))
  }

  predicate IsToolResultMessage(m: Message) {
    m.role != System && HasToolResult(m)
  }

  function CountResults(msgs: seq<Message>): (n: nat)
    ensures n <= |msgs|
  {
    |Filter(IsToolResultMessage, msgs)|
  }

  /** All but the newest `keep` tool-result messages lose their content. */
  function Evicted(msgs: seq<Message>, keep: nat): (r: seq<Message>)
    ensures |r| == |msgs|
  {
    MapFirst(IsToolResultMessage, EvictMessage, msgs, SaturatingSub(CountResults(msgs), keep))
  }

  // ----- tier 2: turn trim -----

  predicate IsPureTurn(m: Message) { m.role != System && !HasToolBlock(m) }

  /** `m` says again what the previous kept turn of the same role said. */
  predicate IsDuplicate(kept: seq<Message>, m: Message) {
    && kept != []
    && var p := kept[|kept| - 1];
       p.role == m.role && !HasToolBlock(p) && Trim(MessageText(p)) == Trim(MessageText(m))
  }

  predicate IsDroppable(kept: seq<Message>, m: Message) {
    IsPureTurn(m) && (Trim(MessageText(m)) == "" || IsDuplicate(kept, m))
  }

  /** Trim `msgs` after `kept`; the newest message always stays. */
  function TrimAfter(kept: seq<Message>, msgs: seq<Message>): seq<Message>
    decreases |msgs|
  {
    if msgs == [] then kept
    else if |msgs| > 1 && IsDroppable(kept, msgs[0]) then TrimAfter(kept, msgs[1..])
    else TrimAfter(kept + [msgs[0]], msgs[1..])
  }

  function Trimmed(msgs: seq<Message>): seq<Message> { TrimAfter([], msgs) }

  function Cheap(msgs: seq<Message>, keep: nat): seq<Message> { Trimmed(Evicted(msgs, keep)) }

  // ----- tier 4: the split -----

  /** Extend the kept suffix `rest[i..]` to older messages while it stays within the target. */
  function KeepFrom(c: Compactor, rest: seq<Message>, target: nat, i: nat): (k: nat)
    requires i <= |rest|
    ensures k <= i
  {
    if i == 0 then 0
    else if i != |rest| && c.Est(rest[i..]) + EstimateMsg(c.count, rest[i - 1]) > target then i
    else KeepFrom(c, rest, target, i - 1)
  }

  function SplitKeepStart(c: Compactor, rest: seq<Message>, target: nat): (k: nat)
    ensures k <= |rest|
  {
    KeepFrom(c, rest, target, |rest|)
  }

  /** Move the boundary back so that the kept suffix does not start with a tool result. */
  function PulledBack(rest: seq<Message>, k: nat): (r: nat)
    requires k < |rest|
    ensures r <= k && (r == 0 || !HasToolResult(rest[r]))
    ensures forall i :: r < i <= k ==> HasToolResult(rest[i])
  {
    if k > 0 && HasToolResult(rest[k]) then PulledBack(rest, k - 1) else k
  }

  function SummaryReserve(c: Compactor): nat {
    Min(SUMMARY_RESERVE_TOKENS, c.LowWatermark() / 2)
  }

  function TargetKeep(c: Compactor, msgs: seq<Message>): nat {
    Max(SaturatingSub(c.LowWatermark(), c.Est(Pinned(msgs)) + SummaryReserve(c)), 1)
  }

  // ----- the summarizer port (agent-core/src/summarizer.rs) -----

  datatype SummaryInput = SummaryInput(transcript: string, previous: Option<string>)

  /** One call of the summarizer: whatever text or error the model gives for the input. */
  type Summarize = SummaryInput -> Result<string, string>

  const FULL_HEADER := "Conversation to summarize:\n"
  const EXISTING_HEADER := "Existing summary:\n"
  const NEW_TURNS_HEADER := "\n\nNew conversation turns since the existing summary:\n"

  /** The user message of `build_summary_request`; `instruction` is the fixed preamble of the
      incremental request. */
  function SummaryRequest(instruction: string, input: SummaryInput): string {
    if input.previous.Some? && Trim(input.previous.value) != "" then
      instruction + EXISTING_HEADER + input.previous.value + NEW_TURNS_HEADER + input.transcript
    else FULL_HEADER + input.transcript
  }

  function JoinTexts(msgs: seq<Message>): string { Join(Map(MessageText, msgs), "\n\n") }

  function SummaryInputFor(msgs: seq<Message>, earlier: seq<Message>): SummaryInput {
    SummaryInput(JoinTexts(earlier), if Priors(msgs) == [] then None else Some(JoinTexts(Priors(msgs))))
  }

  function SummaryText(upto: nat, text: string): string {
    SUMMARY_MARKER_PREFIX + (Decimal(upto) + " earlier messages]\n" + text)
  }

  function SummaryMessage(upto: nat, text: string): Message {
    SystemMessage(SummaryText(upto, text))
  }

  // ----- the pipeline -----

  datatype Fitted = Fitted(messages: seq<Message>, summaryWrite: Option<(Message, nat)>)

  function CheapResult(msgs: seq<Message>, work: seq<Message>): Option<Fitted> {
    if work == msgs then None else Some(Fitted(work, None))
  }

  /** Where the summary tier cuts `NonSystem(msgs)`, when it has something worth summarizing. */
  function SummaryCut(c: Compactor, msgs: seq<Message>): (k: Option<nat>)
    ensures k.Some? ==> 0 < k.value < |NonSystem(msgs)|
  {
    var rest := NonSystem(msgs);
    if |rest| < 2 then None
    else
      SplitInRange(c, rest, TargetKeep(c, msgs));
      var k := PulledBack(rest, SplitKeepStart(c, rest, TargetKeep(c, msgs)));
      if k == 0 || c.Est(rest[..k]) < c.config.minFreeTokens then None else Some(k)
  }

  /** Whether the pass reaches the summary tier and gets past its guards. */
  function FiresAt(c: Compactor, msgs: seq<Message>, mark: Option<nat>): (k: Option<nat>)
    ensures k.Some? ==> 0 < k.value < |NonSystem(msgs)|
  {
    if c.Est(msgs) <= c.Tier1() then None
    else if c.Est(Cheap(msgs, c.config.keepToolResults)) <= c.HighWatermark() then None
    else if mark.Some? && SaturatingSub(c.Est(msgs), mark.value) < c.config.cooldownGrowthTokens then None
    else SummaryCut(c, msgs)
  }

  /** A successful summary call: its input, the number of messages replaced, the text that came
      back and the block made of it. */
  datatype Call = Call(input: SummaryInput, upto: nat, text: string, summary: Message)

  /** Ask for a summary of the first `k` messages besides System ones. */
  function SummaryCall(msgs: seq<Message>, k: nat, ask: Summarize): Result<Call, string>
    requires k <= |NonSystem(msgs)|
  {
    var input, upto := SummaryInputFor(msgs, NonSystem(msgs)[..k]), |Priors(msgs)| + k;
    match ask(input)
    case Err(e) => Err(e)
    case Ok(text) => Ok(Call(input, upto, text, SummaryMessage(upto, text)))
  }

  /** Put the summary in the place of what it summarizes. */
  function Summarized(msgs: seq<Message>, k: nat, ask: Summarize): Result<Option<Fitted>, string>
    requires k <= |NonSystem(msgs)|
  {
    match SummaryCall(msgs, k, ask)
    case Err(e) => Err(e)
    case Ok(call) =>
      Ok(Some(Fitted(Pinned(msgs) + [call.summary] + NonSystem(msgs)[k..], Some((call.summary, call.upto)))))
  }

  /** `Compactor::fit`. */
  function Fit(c: Compactor, msgs: seq<Message>, mark: Option<nat>, ask: Summarize): Result<Option<Fitted>, string> {
    if c.Est(msgs) <= c.Tier1() then Ok(None)
    else match FiresAt(c, msgs, mark)
         case None => Ok(CheapResult(msgs, Cheap(msgs, c.config.keepToolResults)))
         case Some(k) => Summarized(msgs, k, ask)
  }

  lemma FiringSummarizes(c: Compactor, msgs: seq<Message>, mark: Option<nat>, ask: Summarize, k: nat)
    requires FiresAt(c, msgs, mark) == Some(k)
    ensures Fit(c, msgs, mark, ask) == Summarized(msgs, k, ask)
  {
  }

  lemma {:induction false} KeepFromInRange(c: Compactor, rest: seq<Message>, target: nat, i: nat)
    requires 0 < i <= |rest|
    ensures KeepFrom(c, rest, target, i) < |rest|
  {
    if i == |rest| {
      assert KeepFrom(c, rest, target, i) == KeepFrom(c, rest, target, i - 1);
    }
  }

  lemma SplitInRange(c: Compactor, rest: seq<Message>, target: nat)
    requires rest != []
    ensures SplitKeepStart(c, rest, target) < |rest|
  {
    KeepFromInRange(c, rest, target, |rest|);
  }

  // ----- the split is optimal -----

  /** What is asked of a boundary: the kept suffix is within the target (or only the newest
      message), and one more message would exceed it. */
  ghost predicate IsBestSplit(c: Compactor, rest: seq<Message>, target: nat, k: nat) {
    && k < |rest|
    && (c.Est(rest[k..]) <= target || k == |rest| - 1)
    && (k > 0 ==> c.Est(rest[k - 1..]) > target)
  }

  lemma EstimateFrom(c: Compactor, rest: seq<Message>, i: nat)
    requires i < |rest|
    ensures c.Est(rest[i..]) == EstimateMsg(c.count, rest[i]) + c.Est(rest[i + 1..])
  {
    assert rest[i..][1..] == rest[i + 1..];
  }

  lemma SuffixGrows(c: Compactor, rest: seq<Message>, lo: nat, hi: nat)
    requires lo <= hi <= |rest|
    ensures c.Est(rest[hi..]) <= c.Est(rest[lo..])
  {
    var tail := rest[lo..];
    EstimateSplit(c.count, tail, hi - lo);
    assert tail[hi - lo..] == rest[hi..];
  }

  lemma {:induction false} KeepFromIsBest(c: Compactor, rest: seq<Message>, target: nat, i: nat)
    requires rest != [] && i <= |rest|
    requires i < |rest| ==> c.Est(rest[i..]) <= target || i == |rest| - 1
    ensures IsBestSplit(c, rest, target, KeepFrom(c, rest, target, i))
  {
    if i > 0 {
      EstimateFrom(c, rest, i - 1);
      if i == |rest| || c.Est(rest[i - 1..]) <= target {
        KeepFromIsBest(c, rest, target, i - 1);
      } else {
        assert KeepFrom(c, rest, target, i) == i;
      }
    }
  }

  /** The boundary of `split_keep_start` is the one best split there is. */
  lemma SplitIsOptimal(c: Compactor, rest: seq<Message>, target: nat, k: nat)
    requires rest != []
    ensures IsBestSplit(c, rest, target, k) <==> k == SplitKeepStart(c, rest, target)
  {
    KeepFromIsBest(c, rest, target, |rest|);
    var best := SplitKeepStart(c, rest, target);
    if IsBestSplit(c, rest, target, k) {
      if k < best { SuffixGrows(c, rest, k, best - 1); }
      if best < k { SuffixGrows(c, rest, best, k - 1); }
    }
  }
}
