/** What the two tiers without a model call keep (agent-core/src/compaction.rs:302-420). */
module CheapTiers {
  import opened Wrappers
  import opened Text
  import opened Chat
  import opened Compaction

  // ----- eviction -----

  /** Eviction touches only the content of tool results. */
  ghost predicate SameShape(m: Message, r: Message) {
    && r.role == m.role && |r.content| == |m.content|
    && forall i :: 0 <= i < |m.content| ==>
         if m.content[i].ToolResult? then
           r.content[i].ToolResult? && r.content[i].(content := m.content[i].content) == m.content[i]
         else r.content[i] == m.content[i]
  }

  lemma EvictBlockShape(b: Block)
    ensures EvictBlock(EvictBlock(b)) == EvictBlock(b)
    ensures EvictBlock(b).ToolResult? == b.ToolResult? && EvictBlock(b).ToolUse? == b.ToolUse?
    ensures if b.ToolResult? then EvictBlock(b).(content := b.content) == b else EvictBlock(b) == b
  {
    PlaceholderIsShort();
  }

  lemma EvictMessageShape(m: Message)
    ensures SameShape(m, EvictMessage(m))
    ensures IsToolResultMessage(EvictMessage(m)) == IsToolResultMessage(m)
    ensures HasToolBlock(EvictMessage(m)) == HasToolBlock(m)
    ensures EvictMessage(EvictMessage(m)) == EvictMessage(m)
  {
    var r := EvictMessage(m);
    forall i | 0 <= i < |m.content|
      ensures r.content[i] == EvictBlock(m.content[i]) == EvictBlock(r.content[i])
      ensures r.content[i].ToolResult? == m.content[i].ToolResult? && r.content[i].ToolUse? == m.content[i].ToolUse?
      ensures if m.content[i].ToolResult? then r.content[i].(content := m.content[i].content) == m.content[i]
              else r.content[i] == m.content[i]
    {
      EvictBlockShape(m.content[i]);
    }
    assert Map(EvictBlock, r.content) == r.content;
  }

  lemma PlaceholderIsShort()
    ensures TextBytes([TextBlock(TOOL_RESULT_PLACEHOLDER)]) == PLACEHOLDER_BYTES
  {
    OneTextBytes(TOOL_RESULT_PLACEHOLDER);
    PlaceholderLength();
  }

  lemma OneTextBytes(text: string)
    ensures TextBytes([TextBlock(text)]) == ByteLen(text) && TextsOf([TextBlock(text)]) == [text]
  {
    assert [TextBlock(text)][1..] == [];
  }

  lemma AsciiConcat(a: string, b: string)
    requires IsAscii(a) && IsAscii(b)
    ensures IsAscii(a + b)
  {
  }

  lemma PlaceholderLength()
    ensures |TOOL_RESULT_PLACEHOLDER| == ByteLen(TOOL_RESULT_PLACEHOLDER) == PLACEHOLDER_BYTES
  {
    var a := "[Older tool result " + "cleared to save ";
    var b := a + "context. Recall ";
    var c := b + "it with ";
    var d := c + "get_tool_result ";
    AsciiConcat("[Older tool result ", "cleared to save ");
    AsciiConcat(a, "context. Recall ");
    AsciiConcat(b, "it with ");
    AsciiConcat(c, "get_tool_result ");
    AsciiConcat(d, "if still needed.]");
    AsciiBytesAreChars(TOOL_RESULT_PLACEHOLDER);
  }

  /** `b` after eviction: a tool result with more than 92 bytes of text holds the placeholder. */
  function Cleared(b: Block): Block {
    match b
    case ToolResult(id, name, content, isError) =>
      if TextBytes(content) > 92 then ToolResult(id, name, [TextBlock(TOOL_RESULT_PLACEHOLDER)], isError) else b
    case _ => b
  }

  /** A tool-result message is evicted exactly when `keep` newer ones follow it; all else stays.
      Evicting clears its long tool results and nothing else. */
  lemma EvictionKeeps(msgs: seq<Message>, keep: nat, i: nat)
    requires i < |msgs|
    ensures SameShape(msgs[i], Evicted(msgs, keep)[i])
    ensures Evicted(msgs, keep)[i] ==
      if IsToolResultMessage(msgs[i]) && CountResults(msgs[i..]) > keep then EvictMessage(msgs[i]) else msgs[i]
    ensures forall j :: 0 <= j < |msgs[i].content| ==> EvictMessage(msgs[i]).content[j] == Cleared(msgs[i].content[j])
  {
    MapFirstAt(IsToolResultMessage, EvictMessage, msgs, SaturatingSub(CountResults(msgs), keep), i);
    FilterConcat(IsToolResultMessage, msgs[..i], msgs[i..]);
    assert msgs == msgs[..i] + msgs[i..];
    EvictMessageShape(msgs[i]);
    if IsToolResultMessage(msgs[i]) { assert msgs[i] in msgs[i..]; }
  }

  // ----- trimming -----

  /** `kept` is a trimmed beginning: no message of it would be dropped where it stands. */
  ghost predicate Settled(kept: seq<Message>) {
    forall i :: 0 <= i < |kept| ==> !IsDroppable(kept[..i], kept[i])
  }

  /** Only the newest message may stand where it could be dropped. */
  ghost predicate SettledButLast(r: seq<Message>) {
    r != [] ==> Settled(r[..|r| - 1])
  }

  lemma {:induction false} TrimSettles(kept: seq<Message>, msgs: seq<Message>)
    requires Settled(kept)
    ensures SettledButLast(TrimAfter(kept, msgs)) && kept <= TrimAfter(kept, msgs)
    decreases |msgs|
  {
    if msgs == [] {
      if kept != [] { SettledPrefix(kept, |kept| - 1); }
    } else if |msgs| > 1 && IsDroppable(kept, msgs[0]) {
      TrimSettles(kept, msgs[1..]);
    } else {
      var kept' := kept + [msgs[0]];
      assert kept'[..|kept|] == kept;
      if |msgs| == 1 {
        assert msgs[1..] == [];
      } else {
        forall i | 0 <= i < |kept'|
          ensures !IsDroppable(kept'[..i], kept'[i])
        {
          assert i < |kept| ==> kept'[..i] == kept[..i];
        }
        TrimSettles(kept', msgs[1..]);
      }
    }
  }

  lemma SettledPrefix(kept: seq<Message>, k: nat)
    requires Settled(kept) && k <= |kept|
    ensures Settled(kept[..k])
  {
    forall i | 0 <= i < k
      ensures !IsDroppable(kept[..k][..i], kept[..k][i])
    {
      assert kept[..k][..i] == kept[..i];
    }
  }

  lemma {:induction false} SettledStays(r: seq<Message>, i: nat)
    requires SettledButLast(r) && i <= |r|
    ensures TrimAfter(r[..i], r[i..]) == r
    decreases |r| - i
  {
    if i == |r| {
      assert r[..i] == r && r[i..] == [];
    } else {
      if i < |r| - 1 {
        assert r[..|r| - 1][..i] == r[..i] && r[..|r| - 1][i] == r[i];
        assert !IsDroppable(r[..i], r[i]);
      }
      assert r[..i] + [r[i]] == r[..i + 1] && r[i..][1..] == r[i + 1..];
      SettledStays(r, i + 1);
    }
  }

  lemma TrimIdempotent(msgs: seq<Message>)
    ensures Trimmed(Trimmed(msgs)) == Trimmed(msgs)
  {
    TrimSettles([], msgs);
    var r := Trimmed(msgs);
    SettledStays(r, 0);
    assert r[..0] == [] && r[0..] == r;
  }

  /** `r` is `s` with some messages left out, each of them satisfying `drop`. */
  ghost predicate DropsOnly(s: seq<Message>, r: seq<Message>, drop: Message -> bool)
    decreases |s|
  {
    if s == [] then r == []
    else || (r != [] && r[0] == s[0] && DropsOnly(s[1..], r[1..], drop))
         || (drop(s[0]) && DropsOnly(s[1..], r, drop))
  }

  /** A turn without tool blocks that is blank, or says again what the message kept last, of the
      same role and without tool blocks, said. */
  ghost predicate SaysNothingNew(kept: seq<Message>, m: Message) {
    && m.role != System && (forall i :: 0 <= i < |m.content| ==> !m.content[i].ToolUse? && !m.content[i].ToolResult?)
    && (|| Trim(MessageText(m)) == ""
        || (kept != []
            && var last := kept[|kept| - 1];
               && last.role == m.role && Trim(MessageText(last)) == Trim(MessageText(m))
               && forall i :: 0 <= i < |last.content| ==> !last.content[i].ToolUse? && !last.content[i].ToolResult?))
  }

  lemma DroppableSaysNothing(kept: seq<Message>, m: Message)
    ensures IsDroppable(kept, m) <==> SaysNothingNew(kept, m)
  {
  }

  /** `r` is `s` with some messages left out, each of which said nothing new after what was kept
      before it, and none of them the newest. */
  ghost predicate TrimsOnly(kept: seq<Message>, s: seq<Message>, r: seq<Message>)
    decreases |s|
  {
    if s == [] then r == []
    else || (r != [] && r[0] == s[0] && TrimsOnly(kept + [s[0]], s[1..], r[1..]))
         || (|s| > 1 && SaysNothingNew(kept, s[0]) && TrimsOnly(kept, s[1..], r))
  }

  lemma {:induction false} TrimDropsOnly(kept: seq<Message>, msgs: seq<Message>)
    ensures kept <= TrimAfter(kept, msgs) && TrimsOnly(kept, msgs, TrimAfter(kept, msgs)[|kept|..])
    decreases |msgs|
  {
    var r := TrimAfter(kept, msgs);
    if msgs == [] {
      assert r[|kept|..] == [];
    } else if |msgs| > 1 && IsDroppable(kept, msgs[0]) {
      TrimDropsOnly(kept, msgs[1..]);
    } else {
      var kept' := kept + [msgs[0]];
      TrimDropsOnly(kept', msgs[1..]);
      assert kept <= r by { assert kept'[..|kept|] == kept; }
      assert r[|kept|..][0] == kept'[|kept|] && r[|kept|..][1..] == r[|kept'|..];
    }
  }

  /** What is trimmed are pure-text turns, and never the newest message. */
  lemma {:induction false} TrimsAreDrops(kept: seq<Message>, s: seq<Message>, r: seq<Message>)
    requires TrimsOnly(kept, s, r)
    ensures DropsOnly(s, r, IsPureTurn) && (s != [] ==> r != [] && r[|r| - 1] == s[|s| - 1])
    decreases |s|
  {
    if s != [] {
      if r != [] && r[0] == s[0] && TrimsOnly(kept + [s[0]], s[1..], r[1..]) {
        TrimsAreDrops(kept + [s[0]], s[1..], r[1..]);
      } else {
        TrimsAreDrops(kept, s[1..], r);
      }
    }
  }

  /** Some message of this role says this text. */
  ghost predicate Said(msgs: seq<Message>, role: Role, text: string) {
    exists x :: x in msgs && x.role == role && Trim(MessageText(x)) == text
  }

  /** Whatever was said is still said, by the same role. */
  lemma {:induction false} TrimsKeepWords(kept: seq<Message>, s: seq<Message>, r: seq<Message>, m: Message)
    requires TrimsOnly(kept, s, r) && m in s && Trim(MessageText(m)) != ""
    ensures Said(kept + r, m.role, Trim(MessageText(m)))
    decreases |s|
  {
    if r != [] && r[0] == s[0] && TrimsOnly(kept + [s[0]], s[1..], r[1..]) {
      assert kept + [s[0]] + r[1..] == kept + r;
      if m != s[0] { TrimsKeepWords(kept + [s[0]], s[1..], r[1..], m); } else { assert m in kept + r; }
    } else if m in s[1..] {
      TrimsKeepWords(kept, s[1..], r, m);
    } else {
      assert kept[|kept| - 1] in kept + r;
    }
  }

  /** What a filter does not see leaving, it does not miss. */
  lemma {:induction false} DropsKeepFilter(
      s: seq<Message>, r: seq<Message>, drop: Message -> bool, keep: Message -> bool)
    requires DropsOnly(s, r, drop) && forall m: Message :: drop(m) ==> !keep(m)
    ensures Filter(keep, r) == Filter(keep, s)
    decreases |s|
  {
    if s != [] {
      if r != [] && r[0] == s[0] && DropsOnly(s[1..], r[1..], drop) {
        DropsKeepFilter(s[1..], r[1..], drop, keep);
      } else {
        DropsKeepFilter(s[1..], r, drop, keep);
      }
    }
  }

  lemma TrimKeeps(msgs: seq<Message>, keep: Message -> bool)
    requires forall m: Message :: IsPureTurn(m) ==> !keep(m)
    ensures Filter(keep, Trimmed(msgs)) == Filter(keep, msgs)
  {
    TrimmedDrops(msgs);
    DropsKeepFilter(msgs, Trimmed(msgs), IsPureTurn, keep);
  }

  lemma TrimmedDrops(msgs: seq<Message>)
    ensures TrimsOnly([], msgs, Trimmed(msgs)) && DropsOnly(msgs, Trimmed(msgs), IsPureTurn)
    ensures msgs != [] ==> Trimmed(msgs) != [] && Trimmed(msgs)[|Trimmed(msgs)| - 1] == msgs[|msgs| - 1]
  {
    TrimDropsOnly([], msgs);
    assert Trimmed(msgs)[0..] == Trimmed(msgs);
    TrimsAreDrops([], msgs, Trimmed(msgs));
  }

  lemma PureTurnIsNoResult(m: Message)
    requires IsPureTurn(m)
    ensures !IsToolResultMessage(m)
  {
    assert forall i :: 0 <= i < |m.content| ==> !m.content[i].ToolResult?;
  }

  lemma NothingLeftToTrim(msgs: seq<Message>)
    ensures forall i :: 0 <= i < |Trimmed(msgs)| - 1 ==> !SaysNothingNew(Trimmed(msgs)[..i], Trimmed(msgs)[i])
  {
    TrimSettles([], msgs);
    SettledSaysNew(Trimmed(msgs));
  }

  lemma SettledSaysNew(r: seq<Message>)
    requires SettledButLast(r)
    ensures forall i :: 0 <= i < |r| - 1 ==> !SaysNothingNew(r[..i], r[i])
  {
    forall i | 0 <= i < |r| - 1
      ensures !SaysNothingNew(r[..i], r[i])
    {
      NotDroppedAt(r[..|r| - 1], i);
      assert r[..|r| - 1][..i] == r[..i];
    }
  }

  lemma NotDroppedAt(kept: seq<Message>, i: nat)
    requires Settled(kept) && i < |kept|
    ensures !SaysNothingNew(kept[..i], kept[i])
  {
    assert !IsDroppable(kept[..i], kept[i]);
    DroppableSaysNothing(kept[..i], kept[i]);
  }

  /** Trimming leaves out nothing but empty turns and repetitions of the turn kept last, and no
      such turn is left but perhaps the newest message: every text is still said by the same role.
      It keeps every System message, every tool-bearing message and the newest message, each in
      its place among its kind. */
  lemma TrimFacts(msgs: seq<Message>)
    ensures TrimsOnly([], msgs, Trimmed(msgs)) && DropsOnly(msgs, Trimmed(msgs), IsPureTurn)
    ensures forall i :: 0 <= i < |Trimmed(msgs)| - 1 ==> !SaysNothingNew(Trimmed(msgs)[..i], Trimmed(msgs)[i])
    ensures forall m :: m in msgs && Trim(MessageText(m)) != "" ==> Said(Trimmed(msgs), m.role, Trim(MessageText(m)))
    ensures msgs != [] ==> Trimmed(msgs) != [] && Trimmed(msgs)[|Trimmed(msgs)| - 1] == msgs[|msgs| - 1]
    ensures Filter(IsSystem, Trimmed(msgs)) == Filter(IsSystem, msgs)
    ensures Filter(HasToolBlock, Trimmed(msgs)) == Filter(HasToolBlock, msgs)
    ensures Filter(IsToolResultMessage, Trimmed(msgs)) == Filter(IsToolResultMessage, msgs)
  {
    TrimmedDrops(msgs);
    forall m | m in msgs && Trim(MessageText(m)) != ""
      ensures Said(Trimmed(msgs), m.role, Trim(MessageText(m)))
    {
      TrimsKeepWords([], msgs, Trimmed(msgs), m);
      assert [] + Trimmed(msgs) == Trimmed(msgs);
    }
    NothingLeftToTrim(msgs);
    TrimKeeps(msgs, IsSystem);
    TrimKeeps(msgs, HasToolBlock);
    forall m: Message | IsPureTurn(m)
      ensures !IsToolResultMessage(m)
    {
      PureTurnIsNoResult(m);
    }
    TrimKeeps(msgs, IsToolResultMessage);
  }

  // ----- the two tiers together -----

  /** Each tier, and the two in turn, are normal forms: applied again they change nothing. */
  lemma CheapIdempotent(msgs: seq<Message>, keep: nat)
    ensures Evicted(Evicted(msgs, keep), keep) == Evicted(msgs, keep)
    ensures Trimmed(Trimmed(msgs)) == Trimmed(msgs)
    ensures Cheap(Cheap(msgs, keep), keep) == Cheap(msgs, keep)
  {
    var n := SaturatingSub(CountResults(msgs), keep);
    var e := Evicted(msgs, keep);
    forall m: Message
      ensures IsToolResultMessage(EvictMessage(m)) == IsToolResultMessage(m)
      ensures EvictMessage(EvictMessage(m)) == EvictMessage(m)
    {
      EvictMessageShape(m);
    }
    MapFirstHits(IsToolResultMessage, EvictMessage, msgs, n);
    MapFirstFixed(IsToolResultMessage, EvictMessage, e, n);
    TrimFacts(e);
    MapFirstFixed(IsToolResultMessage, EvictMessage, Cheap(msgs, keep), n);
    TrimIdempotent(e);
    TrimIdempotent(msgs);
  }

  /** A second pass over its own output asks for nothing. */
  lemma CheapResultSettles(msgs: seq<Message>, keep: nat)
    ensures CheapResult(Cheap(msgs, keep), Cheap(Cheap(msgs, keep), keep)) == None
  {
    CheapIdempotent(msgs, keep);
  }

  // ----- the estimate under the default counter -----

  function TotalLen(parts: seq<string>): nat {
    if parts == [] then 0 else |parts[0]| + TotalLen(parts[1..])
  }

  lemma {:induction false} JoinLength(parts: seq<string>)
    ensures |Join(parts, " ")| == TotalLen(parts) + SaturatingSub(|parts|, 1)
  {
    if |parts| > 1 {
      JoinLength(parts[1..]);
    } else if |parts| == 1 {
      assert parts[1..] == [];
    }
  }

  lemma {:induction false} TotalLenConcat(a: seq<string>, b: seq<string>)
    ensures TotalLen(a + b) == TotalLen(a) + TotalLen(b)
  {
    if a == [] {
      assert a + b == b;
    } else {
      assert (a + b)[1..] == a[1..] + b;
      TotalLenConcat(a[1..], b);
    }
  }

  /** By how many characters eviction lengthens the text of these blocks. */
  function CharGain(content: seq<Block>): int {
    if content == [] then 0
    else (if Shrinks(content[0]) then |TOOL_RESULT_PLACEHOLDER| - |Join(TextsOf(content[0].content), " ")| else 0)
         + CharGain(content[1..])
  }

  lemma EvictBlockParts(b: Block)
    ensures |BlockParts(EvictBlock(b))| == |BlockParts(b)|
    ensures TotalLen(BlockParts(EvictBlock(b))) == TotalLen(BlockParts(b)) + CharGain([b])
  {
    assert [b][1..] == [];
    if Shrinks(b) {
      OneTextBytes(TOOL_RESULT_PLACEHOLDER);
      assert BlockParts(EvictBlock(b)) == [TOOL_RESULT_PLACEHOLDER];
      assert BlockParts(b) == [Join(TextsOf(b.content), " ")];
    }
  }

  lemma {:induction false} EvictParts(content: seq<Block>)
    ensures |Parts(Map(EvictBlock, content))| == |Parts(content)|
    ensures TotalLen(Parts(Map(EvictBlock, content))) == TotalLen(Parts(content)) + CharGain(content)
  {
    if content != [] {
      var b, e := content[0], Map(EvictBlock, content);
      assert e[1..] == Map(EvictBlock, content[1..]);
      EvictParts(content[1..]);
      EvictBlockParts(b);
      assert [b][1..] == [] && CharGain([b]) + CharGain(content[1..]) == CharGain(content);
      TotalLenConcat(BlockParts(b), Parts(content[1..]));
      TotalLenConcat(BlockParts(EvictBlock(b)), Parts(e[1..]));
    }
  }

  /** Eviction changes a message's length by exactly its gain; so its token estimate rises if and
      only if the new length does not fit the tokens it had. */
  lemma EvictionLength(m: Message)
    ensures |MessageText(EvictMessage(m))| == |MessageText(m)| + CharGain(m.content)
    ensures EstimateMsg(EstimateTokens, EvictMessage(m)) > EstimateMsg(EstimateTokens, m)
            <==> |MessageText(m)| + CharGain(m.content) > 4 * EstimateMsg(EstimateTokens, m)
  {
    EvictParts(m.content);
    JoinLength(Parts(m.content));
    JoinLength(Parts(EvictMessage(m).content));
  }

  /** The tokens that a text of this length takes, with or without a gain. */
  function TokenGain(m: Message): int {
    var length := |MessageText(m)| + CharGain(m.content);
    (if length < 0 then 0 else TokensFromChars(length)) - TokensFromChars(|MessageText(m)|)
  }

  /** The gains of the first `n` tool-result messages. */
  function EvictedGain(msgs: seq<Message>, n: nat): int {
    if msgs == [] then 0
    else if n > 0 && IsToolResultMessage(msgs[0]) then TokenGain(msgs[0]) + EvictedGain(msgs[1..], n - 1)
    else EvictedGain(msgs[1..], n)
  }

  lemma {:induction false} EvictionGain(msgs: seq<Message>, n: nat)
    ensures Estimate(EstimateTokens, MapFirst(IsToolResultMessage, EvictMessage, msgs, n))
         == Estimate(EstimateTokens, msgs) + EvictedGain(msgs, n)
  {
    if msgs != [] {
      EvictionGain(msgs[1..], if n > 0 && IsToolResultMessage(msgs[0]) then n - 1 else n);
      EvictionLength(msgs[0]);
    }
  }

  /** The turns of `msgs` that trimming after `kept` leaves out. */
  function DroppedAfter(kept: seq<Message>, msgs: seq<Message>): seq<Message>
    decreases |msgs|
  {
    if msgs == [] then []
    else if |msgs| > 1 && IsDroppable(kept, msgs[0]) then [msgs[0]] + DroppedAfter(kept, msgs[1..])
    else DroppedAfter(kept + [msgs[0]], msgs[1..])
  }

  lemma EstimateSnoc(count: TokenCounter, kept: seq<Message>, m: Message)
    ensures Estimate(count, kept + [m]) == Estimate(count, kept) + EstimateMsg(count, m)
  {
    EstimateConcat(count, kept, [m]);
    assert [m][1..] == [];
  }

  /** Trimming divides the messages into those that stay and turns that go, and the estimate with
      them. */
  lemma {:induction false} TrimEstimate(count: TokenCounter, kept: seq<Message>, msgs: seq<Message>)
    ensures Estimate(count, TrimAfter(kept, msgs)) + Estimate(count, DroppedAfter(kept, msgs))
         == Estimate(count, kept) + Estimate(count, msgs)
    decreases |msgs|
  {
    if msgs != [] {
      if |msgs| > 1 && IsDroppable(kept, msgs[0]) {
        TrimEstimate(count, kept, msgs[1..]);
      } else {
        EstimateSnoc(count, kept, msgs[0]);
        TrimEstimate(count, kept + [msgs[0]], msgs[1..]);
      }
    }
  }

  /** A message goes with the rest, or stays with the kept. */
  lemma OneDivides<T>(stay: multiset<T>, kept: seq<T>, x: T, rest: seq<T>, gone: seq<T>)
    ensures stay + multiset(gone) == multiset(kept) + multiset(rest) ==>
              stay + multiset([x] + gone) == multiset(kept) + multiset([x] + rest)
    ensures multiset(kept + [x]) + multiset(rest) == multiset(kept) + multiset([x] + rest)
  {
    if stay + multiset(gone) == multiset(kept) + multiset(rest) {
      assert stay + multiset([x] + gone) == (stay + multiset(gone)) + multiset{x};
      assert multiset(kept) + multiset([x] + rest) == (multiset(kept) + multiset(rest)) + multiset{x};
    }
  }

  lemma {:induction false} TrimDivides(kept: seq<Message>, msgs: seq<Message>)
    ensures multiset(TrimAfter(kept, msgs)) + multiset(DroppedAfter(kept, msgs)) == multiset(kept) + multiset(msgs)
    ensures forall m :: m in DroppedAfter(kept, msgs) ==> IsPureTurn(m)
    decreases |msgs|
  {
    if msgs != [] {
      var m, rest := msgs[0], msgs[1..];
      assert msgs == [m] + rest;
      if |msgs| > 1 && IsDroppable(kept, m) {
        TrimDivides(kept, rest);
        OneDivides(multiset(TrimAfter(kept, rest)), kept, m, rest, DroppedAfter(kept, rest));
      } else {
        TrimDivides(kept + [m], rest);
        OneDivides(multiset{}, kept, m, rest, []);
      }
    }
  }

  /** Exactly when the cheap tiers raise the estimate of a list. The gains of what is evicted are
      read off the lengths before; eviction raises the estimate when they sum up to more than
      nothing, and both tiers raise it when they sum up to more than the turns that trimming
      leaves out. */
  lemma EvictionRaises(msgs: seq<Message>, keep: nat)
    ensures var gain := EvictedGain(msgs, SaturatingSub(CountResults(msgs), keep));
            var evicted, cheap, gone := Evicted(msgs, keep), Cheap(msgs, keep), DroppedAfter([], Evicted(msgs, keep));
            && Estimate(EstimateTokens, evicted) == Estimate(EstimateTokens, msgs) + gain
            && (Estimate(EstimateTokens, evicted) > Estimate(EstimateTokens, msgs) <==> gain > 0)
            && multiset(cheap) + multiset(gone) == multiset(evicted)
            && (forall m :: m in gone ==> IsPureTurn(m))
            && Estimate(EstimateTokens, cheap)
               == Estimate(EstimateTokens, msgs) + gain - Estimate(EstimateTokens, gone)
            && (Estimate(EstimateTokens, cheap) > Estimate(EstimateTokens, msgs)
                <==> gain > Estimate(EstimateTokens, gone))
  {
    EvictionGain(msgs, SaturatingSub(CountResults(msgs), keep));
    TrimDivides([], Evicted(msgs, keep));
    TrimEstimate(EstimateTokens, [], Evicted(msgs, keep));
  }

  predicate AsciiBlocks(content: seq<Block>) {
    forall i :: 0 <= i < |content| && content[i].TextBlock? ==> IsAscii(content[i].text)
  }

  /** Every tool result's text is ASCII: its bytes are its characters. */
  predicate AsciiResults(m: Message) {
    forall i :: 0 <= i < |m.content| && m.content[i].ToolResult? ==> AsciiBlocks(m.content[i].content)
  }

  lemma {:induction false} AsciiTextLength(content: seq<Block>)
    requires AsciiBlocks(content)
    ensures TextBytes(content) == TotalLen(TextsOf(content))
  {
    if content != [] {
      AsciiTextLength(content[1..]);
      if content[0].TextBlock? {
        AsciiBytesAreChars(content[0].text);
        TotalLenConcat([content[0].text], TextsOf(content[1..]));
        assert [content[0].text][1..] == [];
      } else {
        assert TextsOf(content) == TextsOf(content[1..]);
      }
    }
  }

  lemma {:induction false} AsciiGain(content: seq<Block>)
    requires forall i :: 0 <= i < |content| && content[i].ToolResult? ==> AsciiBlocks(content[i].content)
    ensures CharGain(content) <= 0
  {
    if content != [] {
      AsciiGain(content[1..]);
      if content[0].ToolResult? {
        AsciiTextLength(content[0].content);
        JoinLength(TextsOf(content[0].content));
      }
    }
  }

  lemma {:induction false} NoGain(msgs: seq<Message>, n: nat)
    requires forall i :: 0 <= i < |msgs| ==> CharGain(msgs[i].content) <= 0
    ensures EvictedGain(msgs, n) <= 0
  {
    if msgs != [] {
      NoGain(msgs[1..], if n > 0 && IsToolResultMessage(msgs[0]) then n - 1 else n);
    }
  }

  /** The cheap tiers do not raise the estimate when no evicted message gains characters, and
      ASCII tool results never do. */
  lemma CheapEstimate(msgs: seq<Message>, keep: nat)
    requires forall i :: 0 <= i < |msgs| ==> CharGain(msgs[i].content) <= 0 || AsciiResults(msgs[i])
    ensures Estimate(EstimateTokens, Cheap(msgs, keep)) <= Estimate(EstimateTokens, msgs)
  {
    forall i | 0 <= i < |msgs|
      ensures CharGain(msgs[i].content) <= 0
    {
      if AsciiResults(msgs[i]) { AsciiGain(msgs[i].content); }
    }
    NoGain(msgs, SaturatingSub(CountResults(msgs), keep));
    EvictionRaises(msgs, keep);
  }

  function Repeat(c: char, n: nat): (s: string)
    ensures |s| == n && forall i :: 0 <= i < n ==> s[i] == c
  {
    seq(n, i => c)
  }

  lemma {:induction false} RepeatBytes(c: char, n: nat)
    ensures ByteLen(Repeat(c, n)) == n * Utf8Len(c)
  {
    if n > 0 {
      assert Repeat(c, n)[1..] == Repeat(c, n - 1);
      RepeatBytes(c, n - 1);
    }
  }

  /** The shrink test counts bytes and the estimate counts characters: 48 two-byte letters pass
      the test, and the cheap tiers make the request that carries them longer. */
  lemma EvictionCanRaiseEstimate() returns (msgs: seq<Message>)
    ensures Estimate(EstimateTokens, Evicted(msgs, 0)) > Estimate(EstimateTokens, msgs)
    ensures Estimate(EstimateTokens, Cheap(msgs, 0)) > Estimate(EstimateTokens, msgs)
  {
    var m := WideResult();
    msgs := [m];
    OneEvicted(m);
    EvictionRaises(msgs, 0);
    OneStays(EvictMessage(m));
  }

  lemma WideResult() returns (m: Message)
    ensures IsToolResultMessage(m) && TokenGain(m) > 0
  {
    var text := Repeat('\U{E9}', 48);
    var b := ToolResult("id", None, [TextBlock(text)], None);
    m := Message(Tool, [b]);
    assert m.content[0].ToolResult?;
    RepeatBytes('\U{E9}', 48);
    OneTextBytes(text);
    PlaceholderLength();
    assert [b][1..] == [] && CharGain([b]) == |TOOL_RESULT_PLACEHOLDER| - |Join(TextsOf(b.content), " ")|;
    OneResultText(b, text);
  }

  lemma OneResultText(b: Block, text: string)
    requires b.ToolResult? && b.content == [TextBlock(text)]
    ensures MessageText(Message(Tool, [b])) == text
  {
    OneTextBytes(text);
    assert Join([text], " ") == text;
    assert BlockParts(b) == [text];
    assert [b][1..] == [] && Parts([b]) == [text] + Parts([]) == [text];
  }

  lemma OneEvicted(m: Message)
    requires IsToolResultMessage(m)
    ensures CountResults([m]) == 1 && Evicted([m], 0) == [EvictMessage(m)] && EvictedGain([m], 1) == TokenGain(m)
  {
    assert [m][1..] == [];
  }

  lemma OneStays(m: Message)
    ensures Trimmed([m]) == [m]
  {
    assert TrimAfter([] + [m], [m][1..]) == [m];
  }
}
