/** The conversation session as a value and the events that move it: the
    specification the workflow class is proved against. */
module Session {

  import opened Wrappers
  import opened SharedModels
  import opened Retry
  import opened Conversation

  /** Idle span, in seconds, after which a wake-up ends the session. */
  const InactivityTimeout: int := 30 * 60

  /** Why a session stopped: the end signal raised, a wake-up found it idle,
      or a completion call exhausted its retries and the error escaped. */
  datatype EndReason = UserEnded | Inactive | CallFailed

  /** `Created` is the state between construction and the start of `run`. */
  datatype Phase = Created | Active | Ended(reason: EndReason)

  datatype Session = Session(messages: seq<ChatMessage>, model: string, maxTokens: int,
                             lastActivity: int, phase: Phase)

  /** What reaches a started session, one at a time: the message signal with
      the times its two turns are recorded and the outcomes of the call's
      attempts, the end signal, or the polling timer firing at `at`. */
  datatype Event =
    | Send(text: string, sentAt: int, repliedAt: int, attempts: seq<Attempt>)
    | End
    | Tick(at: int)

  /** The state right after construction. */
  function Initial(): (s: Session)
    ensures s.messages == [] && s.phase == Created
    ensures s.model == DefaultModel && s.maxTokens == DefaultMaxTokens && s.lastActivity == 0
  {
    Session([], DefaultModel, DefaultMaxTokens, 0, Created)
  }

  /** Strictly more than the timeout has passed since the last activity. */
  predicate Expired(lastActivity: int, now: int) {
    now - lastActivity > InactivityTimeout
  }

  /** The start of `run`: capture the configuration and the start time,
      then process the first prompt; an exhausted call ends the run. */
  function Begin(s: Session, input: PromptInput, startedAt: int, repliedAt: int,
                 attempts: seq<Attempt>): (r: Session)
    ensures !s.phase.Created? ==> r == s
    ensures s.phase.Created? ==> r.model == input.model && r.maxTokens == input.maxTokens
    ensures s.phase.Created? ==> r.lastActivity == startedAt
    ensures s.phase.Created? ==>
              r.messages == Process(s.messages, input.prompt, startedAt, repliedAt, attempts).messages
    ensures s.phase.Created? ==>
              (r.phase == Active <==> CallOutcome(attempts).Some?) &&
              (r.phase != Active ==> r.phase == Ended(CallFailed))
  {
    if !s.phase.Created? then s
    else
      var ex := Process(s.messages, input.prompt, startedAt, repliedAt, attempts);
      Session(ex.messages, input.model, input.maxTokens, startedAt,
              if ex.reply.Some? then Active else Ended(CallFailed))
  }

  /** One event applied to a session. Only an active session reacts. */
  function Step(s: Session, e: Event): (r: Session)
    ensures !s.phase.Active? ==> r == s
    ensures r.model == s.model && r.maxTokens == s.maxTokens
    ensures s.messages <= r.messages
    ensures r.phase != s.phase ==> r.phase.Ended?
    ensures r.lastActivity != s.lastActivity ==>
              e.Send? && CallOutcome(e.attempts).Some? && r.lastActivity == e.repliedAt
  {
    if !s.phase.Active? then s
    else
      match e
      case Send(text, sentAt, repliedAt, attempts) =>
        var ex := Process(s.messages, text, sentAt, repliedAt, attempts);
        if ex.reply.Some? then s.(messages := ex.messages, lastActivity := repliedAt)
        else s.(messages := ex.messages, phase := Ended(CallFailed))
      case End => s.(phase := Ended(UserEnded))
      case Tick(at) => if Expired(s.lastActivity, at) then s.(phase := Ended(Inactive)) else s
  }

  /** Events applied in order. */
  function Replay(s: Session, events: seq<Event>): Session
    decreases |events|
  {
    if events == [] then s else Replay(Step(s, events[0]), events[1..])
  }

  /** Events no longer change a session once it has ended. */
  lemma {:induction false} ReplayEnded(s: Session, events: seq<Event>)
    requires s.phase.Ended?
    ensures Replay(s, events) == s
    decreases |events|
  {
    if events != [] {
      ReplayEnded(Step(s, events[0]), events[1..]);
    }
  }

  /** Over any run of events, the earlier turns stay as they were, in
      place, and the configuration never changes. */
  lemma {:induction false} ReplayAppendOnly(s: Session, events: seq<Event>)
    ensures s.messages <= Replay(s, events).messages
    ensures Replay(s, events).model == s.model && Replay(s, events).maxTokens == s.maxTokens
    decreases |events|
  {
    if events != [] {
      ReplayAppendOnly(Step(s, events[0]), events[1..]);
    }
  }

  /** The last activity time is either what it was, or the time at which
      one of the message signals got its reply. */
  lemma {:induction false} ReplayLastActivity(s: Session, events: seq<Event>)
    ensures var r := Replay(s, events);
            r.lastActivity == s.lastActivity ||
            exists i :: 0 <= i < |events| && events[i].Send? && CallOutcome(events[i].attempts).Some? &&
                        r.lastActivity == events[i].repliedAt
    decreases |events|
  {
    if events != [] {
      var t := Step(s, events[0]);
      ReplayLastActivity(t, events[1..]);
      assert forall i :: 1 <= i < |events| ==> events[i] == events[1..][i - 1];
    }
  }

  /** A run of events with no successful message signal leaves the last
      activity time unchanged. */
  lemma {:induction false} ReplayNoReplyKeepsActivity(s: Session, events: seq<Event>)
    requires forall i :: 0 <= i < |events| ==> !(events[i].Send? && CallOutcome(events[i].attempts).Some?)
    ensures Replay(s, events).lastActivity == s.lastActivity
    decreases |events|
  {
    if events != [] {
      ReplayNoReplyKeepsActivity(Step(s, events[0]), events[1..]);
    }
  }

  /** Roles alternate user, assistant, user, ... from the first turn. */
  ghost predicate Alternating(msgs: seq<ChatMessage>) {
    forall i :: 0 <= i < |msgs| ==> msgs[i].role == (if i % 2 == 0 then User else Assistant)
  }

  /** The shape of the turn log in each phase: empty before the start;
      complete user/assistant pairs while active and after an end signal
      or an inactivity close; pairs and one unanswered user turn after a
      failed call. */
  ghost predicate WellFormed(s: Session) {
    Alternating(s.messages) &&
    match s.phase
    case Created => s.messages == []
    case Ended(CallFailed) => |s.messages| % 2 == 1
    case _ => |s.messages| % 2 == 0 && |s.messages| > 0
  }

  /** Processing a message keeps the alternation of an even-length log. */
  lemma ProcessAlternates(msgs: seq<ChatMessage>, text: string, sentAt: int, repliedAt: int,
                          attempts: seq<Attempt>)
    requires Alternating(msgs) && |msgs| % 2 == 0
    ensures Alternating(Process(msgs, text, sentAt, repliedAt, attempts).messages)
  {
  }

  lemma BeginWellFormed(s: Session, input: PromptInput, startedAt: int, repliedAt: int,
                        attempts: seq<Attempt>)
    requires WellFormed(s)
    ensures WellFormed(Begin(s, input, startedAt, repliedAt, attempts))
  {
  }

  lemma StepWellFormed(s: Session, e: Event)
    requires WellFormed(s)
    ensures WellFormed(Step(s, e))
  {
  }

  /** The shape of the turn log holds after any run of events. */
  lemma {:induction false} ReplayWellFormed(s: Session, events: seq<Event>)
    requires WellFormed(s)
    ensures WellFormed(Replay(s, events))
    decreases |events|
  {
    if events != [] {
      StepWellFormed(s, events[0]);
      ReplayWellFormed(Step(s, events[0]), events[1..]);
    }
  }

  /** While a session is active its last turn is an assistant turn, so the
      last-answer query returns the newest turn's content. */
  lemma ActiveLastIsAssistant(s: Session)
    requires WellFormed(s) && s.phase == Active
    ensures LastAssistant(s.messages) == Some(s.messages[|s.messages| - 1].content)
  {
  }

  /** A message signal on an active session whose call succeeds appends
      exactly the user turn and the assistant reply, refreshes the last
      activity time, leaves the session active, and makes the reply the
      last answer. */
  lemma SendSucceeds(s: Session, text: string, sentAt: int, repliedAt: int, attempts: seq<Attempt>)
    requires s.phase == Active && CallOutcome(attempts).Some?
    ensures var r := Step(s, Send(text, sentAt, repliedAt, attempts));
            var reply := CallOutcome(attempts).value.text;
            r.messages == s.messages + [ChatMessage(User, text, sentAt), ChatMessage(Assistant, reply, repliedAt)] &&
            r.lastActivity == repliedAt && r.phase == Active &&
            LastAssistant(r.messages) == Some(reply)
  {
  }

  /** A message signal whose call exhausts its retries keeps the user turn,
      appends no reply, keeps the last activity time, and ends the session. */
  lemma SendFails(s: Session, text: string, sentAt: int, repliedAt: int, attempts: seq<Attempt>)
    requires s.phase == Active && CallOutcome(attempts).None?
    ensures var r := Step(s, Send(text, sentAt, repliedAt, attempts));
            r.messages == s.messages + [ChatMessage(User, text, sentAt)] &&
            r.lastActivity == s.lastActivity && r.phase == Ended(CallFailed)
  {
  }

  /** The timer ends the session exactly when strictly more than the
      timeout has passed since the last activity, and touches nothing else. */
  lemma TickEndsOnlyWhenExpired(s: Session, at: int)
    requires s.phase == Active
    ensures var r := Step(s, Tick(at));
            (r.phase == Ended(Inactive) <==> at - s.lastActivity > 1800) &&
            (r.phase != Ended(Inactive) ==> r.phase == Active) &&
            r.messages == s.messages && r.lastActivity == s.lastActivity
  {
  }

  /** The end signal ends an active session and changes nothing else. */
  lemma EndStopsSession(s: Session)
    requires s.phase == Active
    ensures Step(s, End) == s.(phase := Ended(UserEnded))
  {
  }

  /** An ended session ignores every event: the one-event case of
      `ReplayEnded`. */
  lemma EndedIgnoresEvent(s: Session, e: Event)
    requires s.phase.Ended?
    ensures Step(s, e) == s
  {
  }

  /** Turn times never decrease along the log. */
  ghost predicate Chronological(msgs: seq<ChatMessage>) {
    forall i, j :: 0 <= i < j < |msgs| ==> msgs[i].timestamp <= msgs[j].timestamp
  }

  ghost predicate NoneAfter(msgs: seq<ChatMessage>, t: int) {
    forall i :: 0 <= i < |msgs| ==> msgs[i].timestamp <= t
  }

  /** The logical clock after an event observed at clock `t`. */
  function ClockAfter(t: int, e: Event): int {
    match e
    case Send(_, _, repliedAt, _) => repliedAt
    case End => t
    case Tick(at) => at
  }

  /** The event's times do not run behind the clock `t`. */
  predicate OnTime(t: int, e: Event) {
    match e
    case Send(_, sentAt, repliedAt, _) => t <= sentAt <= repliedAt
    case End => true
    case Tick(at) => t <= at
  }

  /** The events arrive with a clock that never runs backwards, from `t`. */
  ghost predicate TimesFrom(t: int, events: seq<Event>)
    decreases |events|
  {
    events == [] || (OnTime(t, events[0]) && TimesFrom(ClockAfter(t, events[0]), events[1..]))
  }

  lemma StepChronological(s: Session, t: int, e: Event)
    requires Chronological(s.messages) && NoneAfter(s.messages, t) && OnTime(t, e)
    ensures Chronological(Step(s, e).messages) && NoneAfter(Step(s, e).messages, ClockAfter(t, e))
  {
  }

  /** With a clock that never runs backwards, turn times never decrease:
      each user turn is no later than its reply, and each reply no later
      than the next user turn. */
  lemma {:induction false} ReplayChronological(s: Session, t: int, events: seq<Event>)
    requires Chronological(s.messages) && NoneAfter(s.messages, t) && TimesFrom(t, events)
    ensures Chronological(Replay(s, events).messages)
    decreases |events|
  {
    if events != [] {
      StepChronological(s, t, events[0]);
      ReplayChronological(Step(s, events[0]), ClockAfter(t, events[0]), events[1..]);
    }
  }

  /** The start records its turns no earlier than the start time. */
  lemma BeginChronological(input: PromptInput, startedAt: int, repliedAt: int, attempts: seq<Attempt>)
    requires startedAt <= repliedAt
    ensures var r := Begin(Initial(), input, startedAt, repliedAt, attempts);
            Chronological(r.messages) && NoneAfter(r.messages, repliedAt)
  {
  }

  /** Create with "Hello", one more exchange, then end: four turns, the
      second reply is the last answer, and a later message is ignored. */
  lemma ConversationScenario(hello: ClaudeResponse, second: ClaudeResponse)
    ensures var s1 := Begin(Initial(), DefaultInput("Hello"), 0, 1, [Some(hello)]);
            var s2 := Step(s1, Send("How are you?", 10, 11, [Some(second)]));
            var s3 := Step(s2, End);
            var s4 := Step(s3, Send("Still there?", 20, 21, [Some(hello)]));
            s1.phase == Active && |s1.messages| == 2 &&
            |s2.messages| == 4 && LastAssistant(s2.messages) == Some(second.text) &&
            s3.phase == Ended(UserEnded) && s4 == s3
  {
  }
}
