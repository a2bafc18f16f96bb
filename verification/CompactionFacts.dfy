/** What the numbers and texts of agent-core/src/compaction.rs come to: the watermarks, when the
    summary tier fires, what the summarizer is asked, and what a message's text holds. */
module CompactionFacts {
  import opened Wrappers
  import opened Text
  import opened Chat
  import opened Compaction
  import opened CheapTiers
  import opened CompactionRuns

  // ----- watermarks (compaction.rs:238-265) -----

  /** The context window that the model is taken to have. */
  function Window(c: Config): nat { if c.contextWindow.Some? then c.contextWindow.value else c.fallbackWindowTokens }

  /** A threshold is the largest number of tokens within its fraction of what the window leaves
      for input, and of at least one token where it leaves nothing. */
  lemma ThresholdIsFloor(c: Compactor, fraction: real, n: nat)
    ensures var left := Window(c.config) - c.config.maxOutputTokens - c.config.safetyTokens;
            var usable := if left < 1 then 1 else left;
            if fraction < 0.0 then c.Threshold(fraction) == 0
            else n <= c.Threshold(fraction) <==> n as real <= usable as real * fraction
  {
    var x := c.UsableWindow() as real * fraction;
    assert x.Floor as real <= x < x.Floor as real + 1.0;
    assert if fraction < 0.0 then x <= 0.0 else x >= 0.0;
  }

  /** A request that fits under the trigger leaves room for the output and the safety margin. */
  lemma QuietLeavesRoom(c: Compactor, msgs: seq<Message>)
    requires 0.0 <= c.config.triggerFraction <= 1.0 && c.Est(msgs) <= c.HighWatermark()
    requires c.config.maxOutputTokens + c.config.safetyTokens < Window(c.config)
    ensures c.Est(msgs) + c.config.maxOutputTokens + c.config.safetyTokens <= Window(c.config)
  {
    var left := Window(c.config) - c.config.maxOutputTokens - c.config.safetyTokens;
    var high := c.Threshold(c.config.triggerFraction);
    ThresholdIsFloor(c, c.config.triggerFraction, high);
    FractionOf(left as real, c.config.triggerFraction);
    assert high as real <= left as real * c.config.triggerFraction <= left as real;
    assert high <= left;
  }

  lemma FractionOf(x: real, fraction: real)
    requires x >= 0.0 && 0.0 <= fraction <= 1.0
    ensures x * fraction <= x
  {
  }

  // ----- when the summary tier fires (compaction.rs:449-560) -----

  /** What is kept: the best split for the room under the low watermark beside the pinned messages
      and the summary's reserve, pulled back over tool results. */
  ghost predicate IsCut(c: Compactor, msgs: seq<Message>, k: nat) {
    exists split: nat :: PulledFrom(c, NonSystem(msgs), Room(c, msgs), split, k)
  }

  function Room(c: Compactor, msgs: seq<Message>): nat {
    var low := c.Threshold(c.config.lowWatermarkFraction);
    var room := low - c.Est(Pinned(msgs)) - (if low / 2 < 2000 then low / 2 else 2000);
    if room < 1 then 1 else room
  }

  ghost predicate PulledFrom(c: Compactor, rest: seq<Message>, target: nat, split: nat, k: nat) {
    && IsBestSplit(c, rest, target, split) && k <= split
    && (forall i :: k < i <= split ==> HasToolResult(rest[i])) && (k == 0 || !HasToolResult(rest[k]))
  }

  /** The summary tier fires at `k` exactly when the request is over the first tier's mark and,
      after the cheap tiers, still over the trigger, the cooldown is over, and cutting at `k`
      leaves something worth summarizing. */
  lemma FiresExactly(c: Compactor, msgs: seq<Message>, mark: Option<nat>, k: nat)
    ensures FiresAt(c, msgs, mark) == Some(k) <==>
              && c.Est(msgs) > c.Threshold(c.config.tier1Fraction)
              && c.Est(Cheap(msgs, c.config.keepToolResults)) > c.Threshold(c.config.triggerFraction)
              && (mark.Some? ==> c.Est(msgs) - mark.value >= c.config.cooldownGrowthTokens
                                 || c.config.cooldownGrowthTokens == 0)
              && 0 < k < |NonSystem(msgs)| && IsCut(c, msgs, k)
              && c.Est(NonSystem(msgs)[..k]) >= c.config.minFreeTokens
  {
    if NonSystem(msgs) != [] { CutIsUnique(c, msgs, k); }
  }

  lemma CutIsUnique(c: Compactor, msgs: seq<Message>, k: nat)
    requires NonSystem(msgs) != []
    ensures SplitKeepStart(c, NonSystem(msgs), TargetKeep(c, msgs)) < |NonSystem(msgs)|
    ensures IsCut(c, msgs, k) <==>
              k == PulledBack(NonSystem(msgs), SplitKeepStart(c, NonSystem(msgs), TargetKeep(c, msgs)))
  {
    var rest, target := NonSystem(msgs), Room(c, msgs);
    assert TargetKeep(c, msgs) == target;
    SplitInRange(c, rest, target);
    forall split: nat
      ensures PulledFrom(c, rest, target, split, k) <==>
                split == SplitKeepStart(c, rest, target) && k == PulledBack(rest, split)
    {
      SplitIsOptimal(c, rest, target, split);
      if IsBestSplit(c, rest, target, split) { PullIsUnique(c, rest, target, split, k); }
    }
  }

  lemma PullIsUnique(c: Compactor, rest: seq<Message>, target: nat, split: nat, k: nat)
    requires IsBestSplit(c, rest, target, split)
    ensures PulledFrom(c, rest, target, split, k) <==> k == PulledBack(rest, split)
  {
  }

  // ----- what the summarizer is asked (compaction.rs:562-608) -----

  /** The request for a summary of the first `k` messages: their texts, and the earlier summary. */
  ghost predicate AsksAbout(msgs: seq<Message>, k: nat, input: SummaryInput)
    requires k <= |NonSystem(msgs)|
  {
    && ReadsAll(input.transcript, NonSystem(msgs)[..k])
    && match input.previous
       case None => Priors(msgs) == []
       case Some(previous) => Priors(msgs) != [] && ReadsAll(previous, Priors(msgs))
  }

  /** What a pass comes to, given the answer to its request. */
  ghost predicate Answered(
      msgs: seq<Message>, k: nat, answer: Result<string, string>, r: Result<Option<Fitted>, string>)
    requires k <= |NonSystem(msgs)|
  {
    var upto := |Priors(msgs)| + k;
    match answer
    case Err(e) => r == Err(e)
    case Ok(text) =>
      var summary := Message(System, [TextBlock("[Summary of " + (Decimal(upto) + " earlier messages]\n" + text))]);
      r == Ok(Some(Fitted(Pinned(msgs) + [summary] + NonSystem(msgs)[k..], Some((summary, upto)))))
  }

  ghost predicate FitsByAsking(
      msgs: seq<Message>, k: nat, ask: Summarize, r: Result<Option<Fitted>, string>)
    requires k <= |NonSystem(msgs)|
  {
    exists input :: AsksAbout(msgs, k, input) && Answered(msgs, k, ask(input), r)
  }

  /** Every pass: under the first mark nothing; where the summary tier does not fire, the cheap
      tiers' result if it differs; where it fires, the summarizer is asked about the messages that
      are cut, all of them and in order, and its answer takes their place. */
  lemma FitOutcome(c: Compactor, msgs: seq<Message>, mark: Option<nat>, ask: Summarize)
    ensures var r, cheap := Fit(c, msgs, mark, ask), Cheap(msgs, c.config.keepToolResults);
            match FiresAt(c, msgs, mark)
            case None =>
              r == Ok(if c.Est(msgs) <= c.Threshold(c.config.tier1Fraction) || cheap == msgs then None
                      else Some(Fitted(cheap, None)))
            case Some(k) => FitsByAsking(msgs, k, ask, r)
  {
    match FiresAt(c, msgs, mark) {
      case None =>
      case Some(k) =>
        var input := SummaryInputFor(msgs, NonSystem(msgs)[..k]);
        FiringSummarizes(c, msgs, mark, ask, k);
        JoinTextsReads(NonSystem(msgs)[..k]);
        JoinTextsReads(Priors(msgs));
        SummarizedAnswers(msgs, k, ask, input);
    }
  }

  lemma SummarizedAnswers(msgs: seq<Message>, k: nat, ask: Summarize, input: SummaryInput)
    requires k <= |NonSystem(msgs)| && input == SummaryInputFor(msgs, NonSystem(msgs)[..k])
    requires AsksAbout(msgs, k, input)
    ensures FitsByAsking(msgs, k, ask, Summarized(msgs, k, ask))
  {
    if ask(input).Ok? { SummaryIsPrior(|Priors(msgs)| + k, ask(input).value); }
    assert Answered(msgs, k, ask(input), Summarized(msgs, k, ask));
  }

  // ----- the text of a message (compaction.rs:270-291) -----

  /** What a block says is in the text. */
  ghost predicate Shows(text: string, b: Block) {
    match b
    case TextBlock(said) => Contains(text, said)
    case Thinking(said) => Contains(text, said)
    case ToolUse(_, name, input) => Contains(text, name + " " + input)
    case ToolResult(_, _, content, _) =>
      forall j :: 0 <= j < |content| && content[j].TextBlock? ==> Contains(text, content[j].text)
    case Other(_) => true
  }

  lemma {:induction false} TextAmong(content: seq<Block>, j: nat) returns (i: nat)
    requires j < |content| && content[j].TextBlock?
    ensures i < |TextsOf(content)| && TextsOf(content)[i] == content[j].text
  {
    var here := if content[0].TextBlock? then [content[0].text] else [];
    if j == 0 {
      i := 0;
    } else {
      i := TextAmong(content[1..], j - 1);
      assert (here + TextsOf(content[1..]))[|here| + i] == TextsOf(content[1..])[i];
      i := |here| + i;
    }
  }

  lemma {:induction false} PartAmong(content: seq<Block>, j: nat) returns (i: nat)
    requires j < |content| && !content[j].Other?
    ensures |BlockParts(content[j])| == 1 && i < |Parts(content)| && Parts(content)[i] == BlockParts(content[j])[0]
  {
    var here := BlockParts(content[0]);
    if j == 0 {
      i := 0;
    } else {
      i := PartAmong(content[1..], j - 1);
      assert (here + Parts(content[1..]))[|here| + i] == Parts(content[1..])[i];
      i := |here| + i;
    }
  }

  lemma JoinContains(parts: seq<string>, sep: string, i: nat)
    requires i < |parts|
    ensures Contains(Join(parts, sep), parts[i])
  {
    JoinIsJoined(parts, sep);
    JoinedContains(Join(parts, sep), parts, sep);
  }

  /** A message's text holds what each of its blocks says. */
  lemma MessageShows(m: Message, j: nat)
    requires j < |m.content|
    ensures Shows(MessageText(m), m.content[j])
  {
    var b := m.content[j];
    if !b.Other? {
      var i := PartAmong(m.content, j);
      JoinContains(Parts(m.content), " ", i);
      if b.ToolResult? { ResultShows(MessageText(m), b); }
    }
  }

  /** The length of what a block says, if it says anything. */
  function SaidLength(b: Block): nat {
    match b
    case TextBlock(said) => |said|
    case Thinking(said) => |said|
    case ToolUse(_, name, input) => |name| + 1 + |input|
    case ToolResult(_, _, content, _) => |Join(TextsOf(content), " ")|
    case Other(_) => 0
  }

  function SaidLengths(content: seq<Block>): nat {
    if content == [] then 0 else SaidLength(content[0]) + SaidLengths(content[1..])
  }

  predicate Speaks(b: Block) { !b.Other? }

  lemma {:induction false} PartsLength(content: seq<Block>)
    ensures |Parts(content)| == |Filter(Speaks, content)| && TotalLen(Parts(content)) == SaidLengths(content)
  {
    if content != [] {
      PartsLength(content[1..]);
      TotalLenConcat(BlockParts(content[0]), Parts(content[1..]));
      OnePart(content[0]);
    }
  }

  lemma OnePart(b: Block)
    ensures |BlockParts(b)| == (if Speaks(b) then 1 else 0) && TotalLen(BlockParts(b)) == SaidLength(b)
  {
    if Speaks(b) { assert BlockParts(b)[1..] == []; }
  }

  /** And nothing more than that, but one blank between two blocks that say something. */
  lemma MessageLength(m: Message)
    ensures |MessageText(m)| == SaidLengths(m.content) + SaturatingSub(|Filter(Speaks, m.content)|, 1)
  {
    PartsLength(m.content);
    JoinLength(Parts(m.content));
  }

  lemma ResultShows(text: string, b: Block)
    requires b.ToolResult? && Contains(text, Join(TextsOf(b.content), " "))
    ensures Shows(text, b)
  {
    forall j | 0 <= j < |b.content| && b.content[j].TextBlock?
      ensures Contains(text, b.content[j].text)
    {
      var i := TextAmong(b.content, j);
      JoinContains(TextsOf(b.content), " ", i);
      ContainsThrough(text, Join(TextsOf(b.content), " "), b.content[j].text);
    }
  }
}
