/** The loops of agent-core/src/compaction.rs and the compaction extension, proved against the
    functions of module Compaction. */
module CompactionCode {
  import opened Wrappers
  import opened Text
  import opened Chat
  import opened Compaction
  import opened CompactionRuns
  import opened CompactionFacts
  import opened AgentLoop
  import opened Transcript
  import CT = CheapTiers

  /** The positions among the first `n` elements that satisfy `hit`, in order. */
  ghost function Hits<T(!new)>(hit: T -> bool, s: seq<T>, n: nat): (r: seq<nat>)
    requires n <= |s|
    ensures forall i :: i in r ==> i < n
  {
    if n == 0 then [] else Hits(hit, s, n - 1) + if hit(s[n - 1]) then [n - 1] else []
  }

  /** How many there are, and which of them come first. */
  lemma {:induction false} HitsCounted<T(!new)>(hit: T -> bool, s: seq<T>, n: nat)
    requires n <= |s|
    ensures |Hits(hit, s, n)| == |Filter(hit, s[..n])|
  {
    if n > 0 {
      HitsCounted(hit, s, n - 1);
      assert s[..n] == s[..n - 1] + [s[n - 1]];
      FilterConcat(hit, s[..n - 1], [s[n - 1]]);
      assert [s[n - 1]][1..] == [];
    }
  }

  lemma {:induction false} HitAmongFirst<T(!new)>(hit: T -> bool, s: seq<T>, n: nat, first: nat, i: nat)
    requires i < n <= |s| && first <= |Hits(hit, s, n)|
    ensures i in Hits(hit, s, n)[..first] <==> hit(s[i]) && |Hits(hit, s, i)| < first
  {
    var before, here := Hits(hit, s, n - 1), Hits(hit, s, n);
    if first <= |before| {
      assert here[..first] == before[..first];
      if i < n - 1 {
        HitAmongFirst(hit, s, n - 1, first, i);
      } else {
        assert forall x :: x in before[..first] ==> x in before;
      }
    } else {
      assert here[..first] == before + [n - 1];
      if i < n - 1 {
        HitAmongFirst(hit, s, n - 1, |before|, i);
        assert before[..|before|] == before;
        HitsGrow(hit, s, i, n - 1);
      }
    }
  }

  lemma {:induction false} HitsGrow<T(!new)>(hit: T -> bool, s: seq<T>, i: nat, n: nat)
    requires i < n <= |s|
    ensures |Hits(hit, s, i)| + (if hit(s[i]) then 1 else 0) <= |Hits(hit, s, n)|
  {
    if i < n - 1 { HitsGrow(hit, s, i, n - 1); }
  }

  method FindToolResults(msgs: seq<Message>) returns (results: seq<nat>)
    ensures results == Hits(IsToolResultMessage, msgs, |msgs|)
  {
    results := [];
    for i := 0 to |msgs|
      invariant results == Hits(IsToolResultMessage, msgs, i)
    {
      if IsToolResultMessage(msgs[i]) { results := results + [i]; }
    }
  }

  /** What the source does at one position is what the specification says. */
  lemma EvictedAt(msgs: seq<Message>, keep: nat, results: seq<nat>, i: nat)
    requires results == Hits(IsToolResultMessage, msgs, |msgs|) && i < |msgs|
    ensures Evicted(msgs, keep)[i]
         == if i in results[..SaturatingSub(|results|, keep)] then EvictMessage(msgs[i]) else msgs[i]
  {
    HitsCounted(IsToolResultMessage, msgs, |msgs|);
    assert msgs[..|msgs|] == msgs;
    var n := SaturatingSub(|results|, keep);
    MapFirstAt(IsToolResultMessage, EvictMessage, msgs, n, i);
    HitAmongFirst(IsToolResultMessage, msgs, |msgs|, n, i);
    HitsCounted(IsToolResultMessage, msgs, i);
  }

  /** The message that takes the place of `m`, and whether it differs. */
  method EvictOne(m: Message, evict: bool) returns (r: Message, changed: bool)
    ensures r == if evict then EvictMessage(m) else m
    ensures changed <==> r != m
  {
    if !evict { return m, false; }
    var content, shrunk := EvictContent(m.content);
    return m.(content := content), shrunk;
  }

  method EvictToolResults(c: Compactor, msgs: seq<Message>) returns (out: seq<Message>, changed: bool)
    ensures out == Evicted(msgs, c.config.keepToolResults)
    ensures changed <==> out != msgs
  {
    ghost var spec := Evicted(msgs, c.config.keepToolResults);
    var results := FindToolResults(msgs);
    var evictUpto := SaturatingSub(|results|, c.config.keepToolResults);
    var evictSet := set i | i in results[..evictUpto];
    out, changed := [], false;
    for i := 0 to |msgs|
      invariant out == spec[..i]
      invariant changed <==> out != msgs[..i]
    {
      EvictedAt(msgs, c.config.keepToolResults, results, i);
      var m, shrunk := EvictOne(msgs[i], i in evictSet);
      Longer(out, m, msgs, i);
      Longer(out, m, spec, i);
      changed := changed || shrunk;
      out := out + [m];
    }
    assert msgs[..|msgs|] == msgs && spec[..|msgs|] == spec;
  }

  lemma Longer<T>(out: seq<T>, x: T, s: seq<T>, i: nat)
    requires i < |s| && |out| == i
    ensures out + [x] == s[..i + 1] <==> out == s[..i] && x == s[i]
  {
    assert s[..i + 1] == s[..i] + [s[i]];
    if out + [x] == s[..i + 1] {
      assert (out + [x])[..i] == s[..i + 1][..i];
      assert (out + [x])[i] == s[..i + 1][i];
    }
  }

  method EvictContent(content: seq<Block>) returns (r: seq<Block>, changed: bool)
    ensures r == Map(EvictBlock, content)
    ensures changed <==> r != content
  {
    r, changed := [], false;
    for i := 0 to |content|
      invariant r == Map(EvictBlock, content)[..i]
      invariant changed <==> r != content[..i]
    {
      var b := content[i];
      ShrinkingChanges(b);
      if b.ToolResult? && TextBytes(b.content) > PLACEHOLDER_BYTES {
        changed := true;
        b := ToolResult(b.toolUseId, b.toolName, [TextBlock(TOOL_RESULT_PLACEHOLDER)], b.isError);
      }
      assert content[..i + 1] == content[..i] + [content[i]];
      r := r + [b];
    }
    assert content[..|content|] == content;
  }

  lemma ShrinkingChanges(b: Block)
    ensures EvictBlock(b) != b <==> Shrinks(b)
  {
    PlaceholderBytes();
  }

  lemma PlaceholderBytes()
    ensures TextBytes([TextBlock(TOOL_RESULT_PLACEHOLDER)]) == PLACEHOLDER_BYTES
  {
    CT.PlaceholderIsShort();
  }

  lemma ShortStays(msgs: seq<Message>)
    requires |msgs| <= 1
    ensures Trimmed(msgs) == msgs
  {
    if |msgs| == 1 {
      assert TrimAfter([] + [msgs[0]], msgs[1..]) == [msgs[0]];
      assert [msgs[0]] == msgs;
    }
  }

  method TurnTrim(msgs: seq<Message>) returns (out: seq<Message>, changed: bool)
    ensures out == Trimmed(msgs)
    ensures changed <==> out != msgs
  {
    if |msgs| <= 1 {
      ShortStays(msgs);
      return msgs, false;
    }
    var last := |msgs| - 1;
    out, changed := [], false;
    for i := 0 to |msgs|
      invariant TrimAfter(out, msgs[i..]) == Trimmed(msgs)
      invariant |out| <= i && (changed <==> |out| < i) && (!changed ==> out == msgs[..i])
    {
      var m := msgs[i];
      assert msgs[i..][1..] == msgs[i + 1..];
      assert !changed ==> out + [m] == msgs[..i + 1];
      if IsPureTurn(m) && i != last {
        if Trim(MessageText(m)) == "" {
          changed := true;
          continue;
        }
        if IsDuplicate(out, m) {
          changed := true;
          continue;
        }
      }
      out := out + [m];
    }
    assert msgs[..|msgs|] == msgs;
  }

  method FindSplitStart(c: Compactor, rest: seq<Message>, targetKeep: nat) returns (keepStart: nat)
    ensures keepStart == SplitKeepStart(c, rest, targetKeep)
  {
    var acc := 0;
    keepStart := |rest|;
    for i := |rest| downto 0
      invariant keepStart == i && acc == c.Est(rest[i..])
      invariant KeepFrom(c, rest, targetKeep, i) == SplitKeepStart(c, rest, targetKeep)
    {
      var t := EstimateMsg(c.count, rest[i]);
      if keepStart != |rest| && acc + t > targetKeep { break; }
      EstimateFrom(c, rest, i);
      acc := acc + t;
      keepStart := i;
    }
  }

  method FitMessages(c: Compactor, messages: seq<Message>, mark: Option<nat>, ask: Summarize)
    returns (r: Result<Option<Fitted>, string>)
    ensures r == Fit(c, messages, mark, ask)
    ensures FiresAt(c, messages, mark).Some? ==> FitsByAsking(messages, FiresAt(c, messages, mark).value, ask, r)
  {
    FitOutcome(c, messages, mark, ask);
    var current := c.Est(messages);
    if current <= c.Tier1() { return Ok(None); }
    var evicted, didEvict := EvictToolResults(c, messages);
    var work, didTrim := TurnTrim(evicted);
    var cheapChanged := didEvict || didTrim;
    CheapChanged(c, messages);
    var cheapResult: Option<Fitted> := if cheapChanged then Some(Fitted(work, None)) else None;
    if c.Est(work) <= c.HighWatermark() { return Ok(cheapResult); }
    if mark.Some? && SaturatingSub(current, mark.value) < c.config.cooldownGrowthTokens { return Ok(cheapResult); }
    r := SummaryTier(c, messages, ask, cheapResult);
  }

  /** The last tier: split, pull back, guard, summarize. */
  method SummaryTier(c: Compactor, messages: seq<Message>, ask: Summarize, cheapResult: Option<Fitted>)
    returns (r: Result<Option<Fitted>, string>)
    ensures r == match SummaryCut(c, messages)
                 case None => Ok(cheapResult)
                 case Some(k) => Summarized(messages, k, ask)
  {
    var rest := NonSystem(messages);
    if |rest| < 2 { return Ok(cheapResult); }
    var targetKeep := TargetKeep(c, messages);
    var keepStart := FindSplitStart(c, rest, targetKeep);
    SplitInRange(c, rest, targetKeep);
    keepStart := PullBack(rest, keepStart);
    if keepStart == 0 { return Ok(cheapResult); }
    if c.Est(rest[..keepStart]) < c.config.minFreeTokens { return Ok(cheapResult); }
    r := AskForSummary(messages, keepStart, ask);
  }

  /** Ask for the summary, and put it in the place of what it is about. */
  method AskForSummary(messages: seq<Message>, keepStart: nat, ask: Summarize)
    returns (r: Result<Option<Fitted>, string>)
    requires keepStart <= |NonSystem(messages)|
    ensures r == Summarized(messages, keepStart, ask)
  {
    var pinned, priors, rest := Pinned(messages), Priors(messages), NonSystem(messages);
    var older', keep := rest[..keepStart], rest[keepStart..];
    var previous := if priors == [] then None else Some(JoinTexts(priors));
    var answer := ask(SummaryInput(JoinTexts(older'), previous));
    if answer.Err? { return Err(answer.error); }
    var upto := |priors| + keepStart;
    var summary := SystemMessage(SummaryText(upto, answer.value));
    r := Ok(Some(Fitted(pinned + [summary] + keep, Some((summary, upto)))));
  }

  method PullBack(rest: seq<Message>, start: nat) returns (keepStart: nat)
    requires start < |rest|
    ensures keepStart == PulledBack(rest, start)
  {
    keepStart := start;
    while keepStart > 0 && HasToolResult(rest[keepStart])
      invariant keepStart <= start
      invariant PulledBack(rest, keepStart) == PulledBack(rest, start)
    {
      keepStart := keepStart - 1;
    }
  }

  /** The two change flags say whether the cheap tiers changed anything. */
  lemma CheapChanged(c: Compactor, msgs: seq<Message>)
    ensures var e := Evicted(msgs, c.config.keepToolResults); var w := Trimmed(e);
            (e != msgs || w != e) <==> w != msgs
  {
    var e := Evicted(msgs, c.config.keepToolResults);
    CT.TrimmedDrops(e);
    DropsShorten(e, Trimmed(e), IsPureTurn);
  }

  lemma {:induction false} DropsShorten(s: seq<Message>, r: seq<Message>, drop: Message -> bool)
    requires CT.DropsOnly(s, r, drop)
    ensures |r| <= |s| && (|r| == |s| ==> r == s)
    decreases |s|
  {
    if s != [] {
      if r != [] && r[0] == s[0] && CT.DropsOnly(s[1..], r[1..], drop) {
        DropsShorten(s[1..], r[1..], drop);
      } else {
        DropsShorten(s[1..], r, drop);
      }
    }
  }

  /** The extension: it rewrites the request, and only the summary tier touches the store. */
  class CompactionExtension {
    const compactor: Compactor
    const transcript: EphemeralTranscript
    const run: RunId

    constructor (compactor: Compactor, transcript: EphemeralTranscript, run: RunId)
      ensures this.compactor == compactor && this.transcript == transcript && this.run == run
    {
      this.compactor, this.transcript, this.run := compactor, transcript, run;
    }

    /** `replaced` carries the event's index when history was replaced. */
    method BeforeModel(request: seq<Message>, ask: Summarize)
      returns (r: Result<seq<Message>, string>, replaced: Option<nat>)
      modifies transcript
      ensures var fit := Fit(compactor, request, None, ask); var call := CallOf(compactor, request, None, ask);
              && (fit.Err? ==> r == Err(fit.error) && replaced == None)
              && (fit.Ok? ==> r == Ok(if fit.value.None? then request else fit.value.value.messages))
              && (call.None? ==> replaced == None && unchanged(transcript))
              && (call.Some? ==> replaced == Some(call.value.upto))
      ensures var call := CallOf(compactor, request, None, ask);
              call.Some? ==>
                && transcript.journal == old(transcript.journal)
                && transcript.msgs == old(transcript.msgs)[run := ReplaceHead(old(transcript.Contents(run)),
                                                                              call.value.summary, call.value.upto)]
    {
      var fit := FitMessages(compactor, request, None, ask);
      WriteIsCall(compactor, request, None, ask);
      replaced := None;
      match fit {
        case Err(e) => r := Err(e);
        case Ok(None) => r := Ok(request);
        case Ok(Some(fitted)) =>
          r := Ok(fitted.messages);
          if fitted.summaryWrite.Some? {
            var (summary, upto) := fitted.summaryWrite.value;
            transcript.ReplaceHeadOf(run, summary, upto);
            replaced := Some(upto);
          }
      }
    }
  }
}
