/** Tool pairing: every tool call is answered, in order, right after the message that made it
    (the orphan-free rule of agent-core/src/core.rs:550-552 and compaction.rs:539-541). */
module Pairing {
  import opened Wrappers
  import opened Chat
  import opened Compaction
  import opened CheapTiers

  datatype ToolCall = ToolCall(id: string, name: string, input: string)

  /** `extract_tool_calls` */
  function BlockCalls(content: seq<Block>): seq<ToolCall> {
    if content == [] then []
    else (if content[0].ToolUse? then [ToolCall(content[0].id, content[0].name, content[0].input)] else [])
         + BlockCalls(content[1..])
  }

  function Calls(m: Message): seq<ToolCall> { BlockCalls(m.content) }

  predicate Answers(m: Message, call: ToolCall) {
    && |m.content| == 1 && m.content[0].ToolResult?
    && m.content[0].toolUseId == call.id && m.content[0].toolName == Some(call.name)
  }

  /** `results` answers `calls`, one by one. */
  ghost predicate AnswersAll(results: seq<Message>, calls: seq<ToolCall>) {
    |results| == |calls| && forall i :: 0 <= i < |calls| ==> Answers(results[i], calls[i])
  }

  /** The length of the first round: its message and the answers to its calls. */
  function RoundLength(msgs: seq<Message>): nat
    requires msgs != []
  {
    |Calls(msgs[0])| + 1
  }

  ghost predicate StartsWithRound(msgs: seq<Message>) {
    && msgs != [] && !HasToolResult(msgs[0]) && RoundLength(msgs) <= |msgs|
    && AnswersAll(msgs[1..RoundLength(msgs)], Calls(msgs[0]))
  }

  ghost predicate WellPaired(msgs: seq<Message>)
    decreases |msgs|
  {
    msgs == [] || (StartsWithRound(msgs) && WellPaired(msgs[RoundLength(msgs)..]))
  }

  lemma AnswerIsResult(m: Message, call: ToolCall)
    requires Answers(m, call)
    ensures HasToolResult(m) && HasToolBlock(m)
  {
    assert m.content[0].ToolResult?;
  }

  /** The messages that answer the first one are tool results. */
  lemma RoundHasResults(msgs: seq<Message>)
    requires StartsWithRound(msgs)
    ensures forall i :: 0 < i < RoundLength(msgs) ==> HasToolResult(msgs[i])
  {
    forall i | 0 < i < RoundLength(msgs)
      ensures HasToolResult(msgs[i])
    {
      assert msgs[1..RoundLength(msgs)][i - 1] == msgs[i];
      AnswerIsResult(msgs[i], Calls(msgs[0])[i - 1]);
    }
  }

  lemma SliceSplit<T>(s: seq<T>, m: nat, k: nat)
    requires m <= k <= |s|
    ensures s[..k] == s[..m] + s[m..][..k - m] && s[k..] == s[m..][k - m..]
  {
  }

  lemma TailOfConcat<T>(a: seq<T>, b: seq<T>, m: nat)
    requires 0 < m <= |a|
    ensures (a + b)[1..m] == a[1..m] && (a + b)[m..] == a[m..] + b
  {
  }

  /** More messages after it do not change the first round. */
  lemma RoundOfConcat(a: seq<Message>, b: seq<Message>)
    requires StartsWithRound(a)
    ensures StartsWithRound(a + b) && RoundLength(a + b) == RoundLength(a)
    ensures (a + b)[RoundLength(a)..] == a[RoundLength(a)..] + b
  {
    TailOfConcat(a, b, RoundLength(a));
    assert (a + b)[0] == a[0];
  }

  lemma {:induction false} PairedConcat(a: seq<Message>, b: seq<Message>)
    requires WellPaired(a) && WellPaired(b)
    ensures WellPaired(a + b)
    decreases |a|
  {
    if a == [] {
      assert a + b == b;
    } else {
      PairedConcat(a[RoundLength(a)..], b);
      RoundOfConcat(a, b);
    }
  }

  /** A cut anywhere but in front of a tool result falls between rounds. */
  lemma {:induction false} PairedCut(msgs: seq<Message>, k: nat)
    requires WellPaired(msgs) && k <= |msgs| && (k < |msgs| ==> !HasToolResult(msgs[k]))
    ensures WellPaired(msgs[..k]) && WellPaired(msgs[k..])
    decreases |msgs|
  {
    if k > 0 {
      var n := RoundLength(msgs);
      RoundHasResults(msgs);
      PairedCut(msgs[n..], k - n);
      SliceSplit(msgs, n, k);
      CutKeepsRound(msgs, k);
    } else {
      assert msgs[0..] == msgs && msgs[..0] == [];
    }
  }

  lemma CutKeepsRound(msgs: seq<Message>, k: nat)
    requires StartsWithRound(msgs) && RoundLength(msgs) <= k <= |msgs|
    ensures StartsWithRound(msgs[..k]) && RoundLength(msgs[..k]) == RoundLength(msgs)
    ensures msgs[..k][RoundLength(msgs)..] == msgs[RoundLength(msgs)..][..k - RoundLength(msgs)]
  {
    assert msgs[..k][0] == msgs[0] && msgs[..k][1..RoundLength(msgs)] == msgs[1..RoundLength(msgs)];
  }

  lemma PairedSingle(m: Message)
    requires Calls(m) == [] && !HasToolResult(m)
    ensures WellPaired([m])
  {
    assert [m][1..] == [] && [m][1..1] == [];
  }

  lemma PairedRound(m: Message, results: seq<Message>)
    requires !HasToolResult(m) && AnswersAll(results, Calls(m))
    ensures WellPaired([m] + results)
  {
    var r := [m] + results;
    assert r[1..|results| + 1] == results && r[|results| + 1..] == [];
  }

  // ----- the cheap tiers -----

  lemma {:induction false} DropsPrefix(s: seq<Message>, r: seq<Message>, drop: Message -> bool, k: nat)
    requires DropsOnly(s, r, drop) && k <= |s| && forall i :: 0 <= i < k ==> !drop(s[i])
    ensures k <= |r| && r[..k] == s[..k] && DropsOnly(s[k..], r[k..], drop)
    decreases |s|
  {
    if k == 0 {
      assert s[0..] == s && r[0..] == r;
    } else {
      assert !drop(s[0]);
      assert forall i :: 0 <= i < k - 1 ==> s[1..][i] == s[i + 1];
      DropsPrefix(s[1..], r[1..], drop, k - 1);
      SliceSplit(s, 1, k);
      SliceSplit(r, 1, k);
    }
  }

  /** Leaving out pure-text turns orphans nothing. */
  lemma {:induction false} DropsKeepPairing(s: seq<Message>, r: seq<Message>)
    requires WellPaired(s) && DropsOnly(s, r, IsPureTurn)
    ensures WellPaired(r)
    decreases |s|
  {
    if s != [] {
      var n := |Calls(s[0])|;
      if n == 0 && !(r != [] && r[0] == s[0] && DropsOnly(s[1..], r[1..], IsPureTurn)) {
        DropsKeepPairing(s[1..], r);
      } else {
        if n == 0 {
          DropsKeepPairing(s[1..], r[1..]);
          assert r[1..1] == [];
        } else {
          CallerHasToolBlock(s[0]);
          forall i | 0 <= i < n + 1
            ensures !IsPureTurn(s[i])
          {
            if i > 0 {
              assert s[1..n + 1][i - 1] == s[i];
              AnswerIsResult(s[i], Calls(s[0])[i - 1]);
            }
          }
          DropsPrefix(s, r, IsPureTurn, n + 1);
          DropsKeepPairing(s[n + 1..], r[n + 1..]);
          assert r[0] == r[..n + 1][0] && r[1..n + 1] == r[..n + 1][1..] == s[1..n + 1];
        }
      }
    }
  }

  lemma CallerHasToolBlock(m: Message)
    requires Calls(m) != []
    ensures HasToolBlock(m)
  {
    CallsNeedUse(m.content);
  }

  lemma {:induction false} CallsNeedUse(content: seq<Block>)
    requires BlockCalls(content) != []
    ensures exists i :: 0 <= i < |content| && content[i].ToolUse?
  {
    if !content[0].ToolUse? {
      CallsNeedUse(content[1..]);
      var i :| 0 <= i < |content[1..]| && content[1..][i].ToolUse?;
      assert content[i + 1].ToolUse?;
    }
  }

  lemma {:induction false} SameCalls(a: seq<Block>, b: seq<Block>)
    requires |a| == |b| && forall i :: 0 <= i < |a| ==> if a[i].ToolResult? then b[i].ToolResult? else b[i] == a[i]
    ensures BlockCalls(a) == BlockCalls(b)
  {
    if a != [] {
      SameCalls(a[1..], b[1..]);
    }
  }

  /** A list whose messages have the same shape, one by one, is paired alike. */
  lemma {:induction false} ShapeKeepsPairing(s: seq<Message>, r: seq<Message>)
    requires WellPaired(s) && |r| == |s| && forall i :: 0 <= i < |s| ==> SameShape(s[i], r[i])
    ensures WellPaired(r)
    decreases |s|
  {
    if s != [] {
      var n := |Calls(s[0])|;
      SameCalls(s[0].content, r[0].content);
      forall i | 0 <= i < |r[0].content|
        ensures !r[0].content[i].ToolResult?
      {
        assert !s[0].content[i].ToolResult?;
      }
      forall i | 0 <= i < n
        ensures Answers(r[1..n + 1][i], Calls(r[0])[i])
      {
        assert Answers(s[1..n + 1][i], Calls(s[0])[i]) && SameShape(s[i + 1], r[i + 1]);
      }
      ShapeKeepsPairing(s[n + 1..], r[n + 1..]);
    }
  }

  lemma {:induction false} FilterShape(s: seq<Message>, r: seq<Message>)
    requires |r| == |s| && forall i :: 0 <= i < |s| ==> SameShape(s[i], r[i])
    ensures var a, b := NonSystem(s), NonSystem(r);
            |a| == |b| && forall i :: 0 <= i < |a| ==> SameShape(a[i], b[i])
  {
    if s != [] {
      FilterShape(s[1..], r[1..]);
      assert SameShape(s[0], r[0]);
    }
  }

  lemma NonSystemHead(s: seq<Message>)
    requires s != []
    ensures NotSystem(s[0]) ==> NonSystem(s) != [] && NonSystem(s)[0] == s[0] && NonSystem(s)[1..] == NonSystem(s[1..])
    ensures !NotSystem(s[0]) ==> NonSystem(s) == NonSystem(s[1..])
  {
  }

  lemma {:induction false} FilterDrops(s: seq<Message>, r: seq<Message>)
    requires DropsOnly(s, r, IsPureTurn)
    ensures DropsOnly(NonSystem(s), NonSystem(r), IsPureTurn)
    decreases |s|
  {
    if s != [] {
      NonSystemHead(s);
      if r != [] && r[0] == s[0] && DropsOnly(s[1..], r[1..], IsPureTurn) {
        FilterDrops(s[1..], r[1..]);
        NonSystemHead(r);
      } else {
        FilterDrops(s[1..], r);
        assert IsPureTurn(NonSystem(s)[0]);
      }
    }
  }

  lemma CheapKeepsPairing(msgs: seq<Message>, keep: nat)
    requires WellPaired(NonSystem(msgs))
    ensures WellPaired(NonSystem(Cheap(msgs, keep)))
  {
    var e := Evicted(msgs, keep);
    forall i | 0 <= i < |msgs|
      ensures SameShape(msgs[i], e[i])
    {
      EvictionKeeps(msgs, keep, i);
    }
    FilterShape(msgs, e);
    ShapeKeepsPairing(NonSystem(msgs), NonSystem(e));
    TrimFacts(e);
    FilterDrops(e, Trimmed(e));
    DropsKeepPairing(NonSystem(e), NonSystem(Trimmed(e)));
  }

  /** Whatever tier fires, the request that goes out is paired when the one that came in was:
      the provider never sees an orphan. */
  lemma OutboundIsPaired(c: Compactor, msgs: seq<Message>, mark: Option<nat>, ask: Summarize)
    requires WellPaired(NonSystem(msgs))
    requires Fit(c, msgs, mark, ask).Ok? && Fit(c, msgs, mark, ask).value.Some?
    ensures WellPaired(NonSystem(Fit(c, msgs, mark, ask).value.value.messages))
  {
    if FiresAt(c, msgs, mark).Some? {
      var k := FiresAt(c, msgs, mark).value;
      CutIsBetweenRounds(c, msgs, mark);
      FiringSummarizes(c, msgs, mark, ask, k);
      SummarizedKinds(msgs, k, ask);
    } else {
      CheapKeepsPairing(msgs, c.config.keepToolResults);
    }
  }

  /** What goes out after a summary: besides System messages, what was kept. */
  lemma SummarizedKinds(msgs: seq<Message>, k: nat, ask: Summarize)
    requires k <= |NonSystem(msgs)| && Summarized(msgs, k, ask).Ok?
    ensures Summarized(msgs, k, ask).value.Some?
    ensures NonSystem(Summarized(msgs, k, ask).value.value.messages) == NonSystem(msgs)[k..]
  {
    var out, kept := Summarized(msgs, k, ask).value.value, NonSystem(msgs)[k..];
    var head := Pinned(msgs) + [out.summaryWrite.value.0];
    FilterConcat(NotSystem, head, kept);
    FilterNone(NotSystem, head);
    FilterAll(NotSystem, kept);
  }

  /** The pull-back never cuts inside a round. */
  lemma CutIsBetweenRounds(c: Compactor, msgs: seq<Message>, mark: Option<nat>)
    requires WellPaired(NonSystem(msgs)) && FiresAt(c, msgs, mark).Some?
    ensures var k := FiresAt(c, msgs, mark).value;
            WellPaired(NonSystem(msgs)[..k]) && WellPaired(NonSystem(msgs)[k..])
  {
    PairedCut(NonSystem(msgs), FiresAt(c, msgs, mark).value);
  }

  // ----- what pairing means for the blocks -----

  /** The only block of the message answers this tool use. */
  ghost predicate Resolves(m: Message, use: Block)
    requires use.ToolUse?
  {
    && |m.content| == 1 && m.content[0].ToolResult?
    && m.content[0].toolUseId == use.id && m.content[0].toolName == Some(use.name)
  }

  lemma {:induction false} UseIsCalled(content: seq<Block>, b: nat) returns (k: nat)
    requires b < |content| && content[b].ToolUse?
    ensures k < |BlockCalls(content)|
    ensures BlockCalls(content)[k] == ToolCall(content[b].id, content[b].name, content[b].input)
  {
    if b == 0 {
      k := 0;
    } else {
      k := UseIsCalled(content[1..], b - 1);
      if content[0].ToolUse? { k := k + 1; }
    }
  }

  lemma {:induction false} CallIsUse(content: seq<Block>, k: nat) returns (b: nat)
    requires k < |BlockCalls(content)|
    ensures b < |content| && content[b].ToolUse?
    ensures BlockCalls(content)[k] == ToolCall(content[b].id, content[b].name, content[b].input)
  {
    if content[0].ToolUse? && k == 0 {
      b := 0;
    } else {
      b := CallIsUse(content[1..], if content[0].ToolUse? then k - 1 else k);
      b := b + 1;
    }
  }

  lemma OnlyResults(msgs: seq<Message>)
    requires StartsWithRound(msgs)
    ensures forall i, b :: 0 < i < RoundLength(msgs) && 0 <= b < |msgs[i].content| ==> msgs[i].content[b].ToolResult?
  {
    forall i, b | 0 < i < RoundLength(msgs) && 0 <= b < |msgs[i].content|
      ensures msgs[i].content[b].ToolResult?
    {
      assert Answers(msgs[1..RoundLength(msgs)][i - 1], Calls(msgs[0])[i - 1]);
    }
  }

  /** No orphaned call: a later message resolves it, with nothing but results in between. */
  lemma {:induction false} UseIsResolved(msgs: seq<Message>, i: nat, b: nat) returns (j: nat)
    requires WellPaired(msgs) && i < |msgs| && b < |msgs[i].content| && msgs[i].content[b].ToolUse?
    ensures i < j < |msgs| && Resolves(msgs[j], msgs[i].content[b])
    ensures forall k :: i < k <= j ==> HasToolResult(msgs[k])
    decreases |msgs|
  {
    var n := RoundLength(msgs);
    RoundHasResults(msgs);
    if i == 0 {
      var k := UseIsCalled(msgs[0].content, b);
      assert Answers(msgs[1..n][k], Calls(msgs[0])[k]);
      j := k + 1;
    } else {
      OnlyResults(msgs);
      j := UseIsResolved(msgs[n..], i - n, b);
      j := j + n;
    }
  }

  /** No stray result: an earlier message made the call that it resolves. */
  lemma {:induction false} ResultHasUse(msgs: seq<Message>, j: nat) returns (i: nat, b: nat)
    requires WellPaired(msgs) && j < |msgs| && HasToolResult(msgs[j])
    ensures i < j && b < |msgs[i].content| && msgs[i].content[b].ToolUse? && Resolves(msgs[j], msgs[i].content[b])
    decreases |msgs|
  {
    var n := RoundLength(msgs);
    if j < n {
      i := 0;
      b := CallIsUse(msgs[0].content, j - 1);
      assert Answers(msgs[1..n][j - 1], Calls(msgs[0])[j - 1]);
    } else {
      i, b := ResultHasUse(msgs[n..], j - n);
      i := i + n;
    }
  }
}
