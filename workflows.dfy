/** The chat workflow object: one conversation's state, updated in place by
    the run method and the signal handlers, and read by the two queries. */
module Workflows {

  import opened Wrappers
  import opened SharedModels
  import opened Retry
  import opened Conversation
  import opened Session

  class ClaudeChatWorkflow {
    var messages: seq<ChatMessage>
    var model: string
    var maxTokens: int
    var lastActivity: int
    var phase: Phase

    /** The object's state as a session value. */
    ghost function State(): Session
      reads this
    {
      Session(messages, model, maxTokens, lastActivity, phase)
    }

    ghost predicate Valid()
      reads this
    {
      WellFormed(State())
    }

    /** `__init__`: no turns, the default configuration, activity time zero. */
    constructor ()
      ensures Valid() && State() == Initial()
    {
      messages := [];
      model := DefaultModel;
      maxTokens := DefaultMaxTokens;
      lastActivity := 0;
      phase := Created;
    }

    /** `_process_user_message`: record the user turn, hand the whole
        rendered history to the retry-wrapped call, and record the reply
        when one comes back. `history` is what the call is given. */
    method ProcessUserMessage(message: string, sentAt: int, repliedAt: int, attempts: seq<Attempt>)
      returns (history: seq<PromptTurn>, reply: Option<string>)
      modifies this`messages
      ensures history == Rendered(old(messages)) + [PromptTurn("user", message)]
      ensures Exchange(messages, reply) == Process(old(messages), message, sentAt, repliedAt, attempts)
    {
      messages := messages + [ChatMessage(User, message, sentAt)];
      history := Rendered(messages);
      RenderedAfterUserTurn(old(messages), message, sentAt);
      var response := CallOutcome(attempts);
      if response.Some? {
        messages := messages + [ChatMessage(Assistant, response.value.text, repliedAt)];
        reply := Some(response.value.text);
      } else {
        reply := None;
      }
    }

    /** `send_message`: process the message; only when the call succeeds is
        the last activity time moved to the time of the reply. A failed
        call raises out of the handler and ends the session. A session that
        is not active is not delivered the signal. */
    method SendMessage(message: string, sentAt: int, repliedAt: int, attempts: seq<Attempt>)
      requires Valid()
      modifies this
      ensures Valid()
      ensures !old(phase).Active? ==> unchanged(this)
      ensures old(phase).Active? ==>
                var ex := Process(old(messages), message, sentAt, repliedAt, attempts);
                messages == ex.messages &&
                lastActivity == (if ex.reply.Some? then repliedAt else old(lastActivity)) &&
                phase == (if ex.reply.Some? then Active else Ended(CallFailed))
      ensures model == old(model) && maxTokens == old(maxTokens)
      ensures State() == Step(old(State()), Send(message, sentAt, repliedAt, attempts))
    {
      if phase != Active {
        return;
      }
      StepWellFormed(State(), Send(message, sentAt, repliedAt, attempts));
      var _, reply := ProcessUserMessage(message, sentAt, repliedAt, attempts);
      if reply.Some? {
        lastActivity := repliedAt;
      } else {
        phase := Ended(CallFailed);
      }
    }

    /** `end_conversation`: the handler raises, which ends the session;
        turns and the activity time stay as they are. */
    method EndConversation()
      requires Valid()
      modifies this`phase
      ensures Valid()
      ensures phase == if old(phase) == Active then Ended(UserEnded) else old(phase)
      ensures State() == Step(old(State()), End)
    {
      if phase == Active {
        phase := Ended(UserEnded);
      }
    }

    /** One expiry of the polling wait: end the session when strictly more
        than the inactivity timeout has passed since the last activity,
        otherwise keep polling. */
    method WakeUp(now: int) returns (keepPolling: bool)
      requires Valid()
      modifies this`phase
      ensures Valid()
      ensures keepPolling <==> old(phase) == Active && now - lastActivity <= InactivityTimeout
      ensures phase == if old(phase) == Active && !keepPolling then Ended(Inactive) else old(phase)
      ensures State() == Step(old(State()), Tick(now))
    {
      if phase != Active {
        return false;
      }
      if now - lastActivity > InactivityTimeout {
        phase := Ended(Inactive);
        return false;
      }
      return true;
    }

    /** `run`: capture the configuration and the start time, process the
        first prompt, then keep waking up. Each iteration of the loop is one
        thing that reaches the waiting workflow: the polling timer, or a
        signal the runtime delivers between two waits. The loop stops when
        the session ends or the given events run out. */
    method Run(input: PromptInput, startedAt: int, repliedAt: int, attempts: seq<Attempt>, events: seq<Event>)
      requires Valid() && phase == Created
      modifies this
      ensures Valid()
      ensures State() == Replay(Begin(old(State()), input, startedAt, repliedAt, attempts), events)
    {
      ghost var start := Begin(State(), input, startedAt, repliedAt, attempts);
      BeginWellFormed(State(), input, startedAt, repliedAt, attempts);
      model := input.model;
      maxTokens := input.maxTokens;
      lastActivity := startedAt;
      var _, reply := ProcessUserMessage(input.prompt, startedAt, repliedAt, attempts);
      if reply.None? {
        phase := Ended(CallFailed);
        ReplayEnded(State(), events);
        return;
      }
      phase := Active;
      assert State() == start;
      var i := 0;
      while i < |events| && phase == Active
        invariant 0 <= i <= |events|
        invariant Valid() && !phase.Created?
        invariant Replay(State(), events[i..]) == Replay(start, events)
        decreases |events| - i
      {
        assert events[i..][0] == events[i] && events[i..][1..] == events[i + 1..];
        match events[i] {
          case Send(text, sentAt, at, tries) =>
            SendMessage(text, sentAt, at, tries);
          case End =>
            EndConversation();
          case Tick(now) =>
            var _ := WakeUp(now);
        }
        i := i + 1;
      }
      if i < |events| {
        ReplayEnded(State(), events[i..]);
      } else {
        assert events[i..] == [];
      }
    }

    /** `get_conversation_history`: one (role, content, timestamp) entry per
        stored turn, in stored order. */
    function GetConversationHistory(): (r: seq<HistoryEntry>)
      reads this
      ensures |r| == |messages|
      ensures forall i :: 0 <= i < |messages| ==>
                r[i].role == RoleName(messages[i].role) && r[i].content == messages[i].content &&
                r[i].timestamp == messages[i].timestamp
    {
      History(messages)
    }

    /** `get_last_assistant_message`: scan from the newest turn back and
        return the content of the first assistant turn met. */
    method GetLastAssistantMessage() returns (r: Option<string>)
      ensures r == LastAssistant(messages)
      ensures r.None? <==> forall i :: 0 <= i < |messages| ==> messages[i].role == User
    {
      var i := |messages|;
      while i > 0
        invariant 0 <= i <= |messages|
        invariant LastAssistant(messages[..i]) == LastAssistant(messages)
        decreases i
      {
        if messages[i - 1].role == Assistant {
          return Some(messages[i - 1].content);
        }
        assert messages[..i - 1] == messages[..i][..i - 1];
        i := i - 1;
      }
      return None;
    }
  }
}
