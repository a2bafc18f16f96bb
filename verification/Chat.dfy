/** Messages (server/ai-providers/src/models/chat.rs:107-160) and the views of them that the
    agent crate takes. */
module Chat {
  import opened Wrappers
  import opened Text

  datatype Role = System | User | Assistant | Tool

  /** `Other` stands for image, document and redacted-thinking blocks, which carry no text. */
  datatype Block =
    | TextBlock(text: string)
    | Thinking(thinking: string)
    | ToolUse(id: string, name: string, input: string)
    | ToolResult(toolUseId: string, toolName: Option<string>, content: seq<Block>, isError: Option<bool>)
    | Other(data: string)

  datatype Message = Message(role: Role, content: seq<Block>)

  function SystemMessage(text: string): Message { Message(System, [TextBlock(text)]) }
  function UserMessage(text: string): Message { Message(User, [TextBlock(text)]) }

  // ----- text and tokens (agent-core/src/compaction.rs:268-300, agent-core/src/tokens.rs) -----

  /** The texts of the text blocks among `content`. */
  function TextsOf(content: seq<Block>): seq<string> {
    if content == [] then []
    else (if content[0].TextBlock? then [content[0].text] else []) + TextsOf(content[1..])
  }

  function BlockParts(b: Block): seq<string> {
    match b
    case TextBlock(text) => [text]
    case Thinking(thinking) => [thinking]
    case ToolUse(_, name, input) => [name + " " + input]
    case ToolResult(_, _, content, _) => [Join(TextsOf(content), " ")]
    case Other(_) => []
  }

  function Parts(content: seq<Block>): seq<string> {
    if content == [] then [] else BlockParts(content[0]) + Parts(content[1..])
  }

  function MessageText(m: Message): string {
    Join(Parts(m.content), " ")
  }

  type TokenCounter = string -> nat

  function TokensFromChars(chars: nat): (t: nat)
    ensures 4 * t >= chars && (t > 0 ==> 4 * (t - 1) < chars)
  {
    if chars == 0 then 0 else (chars + 3) / 4
  }

  function EstimateTokens(s: string): nat { TokensFromChars(|s|) }

  function EstimateMsg(count: TokenCounter, m: Message): nat { count(MessageText(m)) }

  function Estimate(count: TokenCounter, msgs: seq<Message>): nat {
    if msgs == [] then 0 else EstimateMsg(count, msgs[0]) + Estimate(count, msgs[1..])
  }

  lemma {:induction false} EstimateConcat(count: TokenCounter, a: seq<Message>, b: seq<Message>)
    ensures Estimate(count, a + b) == Estimate(count, a) + Estimate(count, b)
  {
    if a == [] {
      assert a + b == b;
    } else {
      assert (a + b)[1..] == a[1..] + b;
      EstimateConcat(count, a[1..], b);
    }
  }

  lemma EstimateSplit(count: TokenCounter, s: seq<Message>, k: nat)
    requires k <= |s|
    ensures Estimate(count, s) == Estimate(count, s[..k]) + Estimate(count, s[k..])
  {
    EstimateConcat(count, s[..k], s[k..]);
    assert s == s[..k] + s[k..];
  }

  // ----- shapes -----

  predicate HasToolBlock(m: Message) {
    exists i :: 0 <= i < |m.content| && (m.content[i].ToolUse? || m.content[i].ToolResult?)
  }

  predicate HasToolResult(m: Message) {
    exists i :: 0 <= i < |m.content| && m.content[i].ToolResult?
  }

  predicate HasToolUse(m: Message) {
    exists i :: 0 <= i < |m.content| && m.content[i].ToolUse?
  }

  const SUMMARY_MARKER_PREFIX := "[Summary of "

  predicate IsSystem(m: Message) { m.role == System }
  predicate NotSystem(m: Message) { m.role != System }

  predicate HasSummaryMark(b: Block) {
    b.TextBlock? && SUMMARY_MARKER_PREFIX <= TrimStart(b.text)
  }

  /** A rolling summary written by an earlier pass. */
  predicate IsPriorSummary(m: Message) {
    m.role == System && exists i :: 0 <= i < |m.content| && HasSummaryMark(m.content[i])
  }

  predicate IsPinned(m: Message) { m.role == System && !IsPriorSummary(m) }

  function NonSystem(msgs: seq<Message>): seq<Message> { Filter(NotSystem, msgs) }
  function Priors(msgs: seq<Message>): seq<Message> { Filter(IsPriorSummary, msgs) }
  function Pinned(msgs: seq<Message>): seq<Message> { Filter(IsPinned, msgs) }
}
