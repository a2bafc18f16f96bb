/** agent-core/src/fanout.rs:57-109: the in-memory transcript store. */
module Transcript {
  import opened Wrappers
  import opened Chat
  import opened CompactionRuns
  import opened AgentLoop

  class EphemeralTranscript {
    var msgs: map<RunId, seq<Message>>
    var journal: seq<ToolCallRecord>

    constructor ()
      ensures msgs == map[] && journal == []
    {
      msgs, journal := map[], [];
    }

    /** The messages of a run; none when the run is unknown. */
    function Contents(run: RunId): seq<Message>
      reads this
    {
      if run in msgs then msgs[run] else []
    }

    method Load(run: RunId) returns (history: seq<Message>)
      ensures history == Contents(run)
    {
      history := if run in msgs then msgs[run] else [];
    }

    method Append(run: RunId, msg: Message)
      modifies this
      ensures msgs == old(msgs)[run := old(Contents(run)) + [msg]] && journal == old(journal)
      ensures Contents(run) == old(Contents(run)) + [msg]
    {
      var v := if run in msgs then msgs[run] else [];
      msgs := msgs[run := v + [msg]];
    }

    /** Split the run's messages at `upto`, or at their end, and put the summary before the tail. */
    method ReplaceHeadOf(run: RunId, summary: Message, upto: nat)
      modifies this
      ensures msgs == old(msgs)[run := ReplaceHead(old(Contents(run)), summary, upto)] && journal == old(journal)
      ensures Contents(run) == ReplaceHead(old(Contents(run)), summary, upto)
    {
      var v := if run in msgs then msgs[run] else [];
      var tail := v[Min(upto, |v|)..];
      msgs := msgs[run := [summary] + tail];
    }

    method JournalToolCall(rec: ToolCallRecord)
      modifies this
      ensures msgs == old(msgs) && journal == old(journal) + [rec]
    {
      journal := journal + [rec];
    }
  }
}
