/** One conversation's turn log and the pure computations over it
    (workflows.py: `ChatMessage`, the two query bodies, the history given
    to the completion call, and what processing one user message appends). */
module Conversation {

  import opened Wrappers
  import opened SharedModels
  import opened Retry

  datatype Role = User | Assistant

  /** The role as the source spells it. */
  function RoleName(r: Role): (s: string)
    ensures s == (if r == User then "user" else "assistant")
  {
    match r
    case User => "user"
    case Assistant => "assistant"
  }

  /** The inverse of `RoleName`; any other text names no role. */
  function ParseRole(s: string): (r: Option<Role>)
    ensures r.Some? ==> RoleName(r.value) == s
    ensures r.None? ==> s != "user" && s != "assistant"
  {
    if s == "user" then Some(User)
    else if s == "assistant" then Some(Assistant)
    else None
  }

  /** One turn of the conversation; `timestamp` is in whole seconds. */
  datatype ChatMessage = ChatMessage(role: Role, content: string, timestamp: int)

  /** One entry of the history query's answer. */
  datatype HistoryEntry = HistoryEntry(role: string, content: string, timestamp: int)

  /** One entry of the history handed to the completion call. */
  datatype PromptTurn = PromptTurn(role: string, content: string)

  function Entry(m: ChatMessage): HistoryEntry {
    HistoryEntry(RoleName(m.role), m.content, m.timestamp)
  }

  /** The history query's answer: one entry per stored turn, in order. */
  function History(msgs: seq<ChatMessage>): (r: seq<HistoryEntry>)
    ensures |r| == |msgs|
    ensures forall i :: 0 <= i < |msgs| ==> r[i] == Entry(msgs[i])
  {
    seq(|msgs|, i requires 0 <= i < |msgs| => Entry(msgs[i]))
  }

  /** Reads a history answer back into turns; fails on an unknown role. */
  function FromHistory(h: seq<HistoryEntry>): (r: Option<seq<ChatMessage>>)
    ensures r.Some? ==> |r.value| == |h|
    decreases |h|
  {
    if h == [] then Some([])
    else
      match (ParseRole(h[0].role), FromHistory(h[1..]))
      case (Some(role), Some(rest)) => Some([ChatMessage(role, h[0].content, h[0].timestamp)] + rest)
      case _ => None
  }

  /** The history answer loses nothing: the turns can be read back from it. */
  lemma {:induction false} HistoryRoundTrip(msgs: seq<ChatMessage>)
    ensures FromHistory(History(msgs)) == Some(msgs)
    decreases |msgs|
  {
    if msgs != [] {
      HistoryRoundTrip(msgs[1..]);
      assert History(msgs)[1..] == History(msgs[1..]);
      assert [msgs[0]] + msgs[1..] == msgs;
    }
  }

  /** Appending turns appends their entries to the history answer. */
  lemma HistoryAppend(msgs: seq<ChatMessage>, more: seq<ChatMessage>)
    ensures History(msgs + more) == History(msgs) + History(more)
  {
  }

  /** The history handed to the completion call: every stored turn as
      (role, content), oldest first. */
  function Rendered(msgs: seq<ChatMessage>): (r: seq<PromptTurn>)
    ensures |r| == |msgs|
    ensures forall i :: 0 <= i < |msgs| ==> r[i] == PromptTurn(RoleName(msgs[i].role), msgs[i].content)
  {
    seq(|msgs|, i requires 0 <= i < |msgs| => PromptTurn(RoleName(msgs[i].role), msgs[i].content))
  }

  /** The rendered history is the history answer with timestamps dropped. */
  lemma RenderedIsHistoryWithoutTime(msgs: seq<ChatMessage>, i: int)
    requires 0 <= i < |msgs|
    ensures Rendered(msgs)[i].role == History(msgs)[i].role
    ensures Rendered(msgs)[i].content == History(msgs)[i].content
  {
  }

  /** After a user turn is recorded, the rendered history is the earlier
      one unchanged, with that turn last. */
  lemma RenderedAfterUserTurn(msgs: seq<ChatMessage>, text: string, at: int)
    ensures Rendered(msgs + [ChatMessage(User, text, at)]) == Rendered(msgs) + [PromptTurn("user", text)]
  {
  }

  /** The content of the most recent assistant turn, if any. */
  function LastAssistant(msgs: seq<ChatMessage>): (r: Option<string>)
    ensures r.None? <==> forall i :: 0 <= i < |msgs| ==> msgs[i].role == User
    ensures r.Some? ==> exists i :: 0 <= i < |msgs| && msgs[i].role == Assistant && msgs[i].content == r.value &&
                         forall j :: i < j < |msgs| ==> msgs[j].role == User
    decreases |msgs|
  {
    if msgs == [] then None
    else if msgs[|msgs| - 1].role == Assistant then Some(msgs[|msgs| - 1].content)
    else
      var front := msgs[..|msgs| - 1];
      assert forall i :: 0 <= i < |front| ==> front[i] == msgs[i];
      assert msgs[|msgs| - 1].role == User;
      LastAssistant(front)
  }

  /** An assistant turn just appended is what the last-answer query returns. */
  lemma LastAssistantAfterReply(msgs: seq<ChatMessage>, text: string, at: int)
    ensures LastAssistant(msgs + [ChatMessage(Assistant, text, at)]) == Some(text)
  {
  }

  /** A user turn does not change the last answer. */
  lemma LastAssistantAfterUserTurn(msgs: seq<ChatMessage>, text: string, at: int)
    ensures LastAssistant(msgs + [ChatMessage(User, text, at)]) == LastAssistant(msgs)
  {
  }

  /** The turns after processing one user message, and the reply if the
      call produced one. */
  datatype Exchange = Exchange(messages: seq<ChatMessage>, reply: Option<string>)

  /** Processing one user message: record the user turn at `sentAt`, make
      the retry-wrapped call, and record the reply at `repliedAt` when
      there is one. */
  function Process(msgs: seq<ChatMessage>, text: string, sentAt: int, repliedAt: int,
                   attempts: seq<Attempt>): (r: Exchange)
    ensures r.reply.Some? <==> CallOutcome(attempts).Some?
    ensures r.reply.Some? ==> r.reply.value == CallOutcome(attempts).value.text
    ensures |r.messages| == |msgs| + (if r.reply.Some? then 2 else 1)
    ensures r.messages[..|msgs|] == msgs
    ensures r.messages[|msgs|] == ChatMessage(User, text, sentAt)
    ensures r.reply.Some? ==> r.messages[|msgs| + 1] == ChatMessage(Assistant, r.reply.value, repliedAt)
  {
    var withUser := msgs + [ChatMessage(User, text, sentAt)];
    match CallOutcome(attempts)
    case Some(response) =>
      Exchange(withUser + [ChatMessage(Assistant, response.text, repliedAt)], Some(response.text))
    case None =>
      Exchange(withUser, None)
  }

  /** A successful exchange leaves its reply as the last answer. */
  lemma ProcessLastAssistant(msgs: seq<ChatMessage>, text: string, sentAt: int, repliedAt: int,
                             attempts: seq<Attempt>)
    ensures var ex := Process(msgs, text, sentAt, repliedAt, attempts);
            LastAssistant(ex.messages) == if ex.reply.Some? then ex.reply else LastAssistant(msgs)
  {
  }
}
