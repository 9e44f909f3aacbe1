/**
 * Sequences of chat-page events, and the invariants that hold across them:
 * follow-up questions are never issued by two completed turns in a row, and
 * message ids stay equal to positions under the corrected numbering.
 *
 * A send applies the corrected turn `StepFixed`. From the same state it
 * completes, and issues a follow-up, exactly as the handler as written does
 * (`SentFlagIsHandlers`). For the handler as written itself, two consecutive
 * completed turns are covered by `Chat.NoFollowUpTwiceInARow`.
 */
module ChatRun {
  import opened Wrappers
  import opened Chat
  import ChatMessages
  import JsText

  /** What can happen on the chat page. */
  datatype Event =
    | Mounted
    | ProfileLoaded(me: Option<ChatUser>)
    | Typed(text: string)
    | LanguageChosen(code: string)
    | Sent(messageText: Option<string>, gateway: GatewayOutcome, store: StoreOutcome)

  /** The state after an event, and for a completed turn whether it issued a follow-up. */
  datatype Outcome = Outcome(state: ChatState, turn: Option<bool>)

  function Apply(s: ChatState, e: Event): (r: Outcome)
    ensures !e.Sent? ==> r.turn.None?
    ensures !e.Sent? ==> r.state.awaitingFollowUp == s.awaitingFollowUp && r.state.followUpCount == s.followUpCount
    ensures e.Sent? ==> r.state == StepFixed(s, e.messageText, e.gateway, e.store).state
    ensures e.Sent? ==> (r.turn.Some? <==> StepFixed(s, e.messageText, e.gateway, e.store).prompt.Some?)
    ensures r.turn.Some? ==> r.turn.value == r.state.awaitingFollowUp
  {
    match e
    case Mounted => Outcome(InitializeChat(s), None)
    case ProfileLoaded(me) => Outcome(LoadUserProfile(s, me), None)
    case Typed(text) => Outcome(SetInput(s, text), None)
    case LanguageChosen(code) => Outcome(ChangeLanguage(s, code), None)
    case Sent(m, g, st) =>
      var t := StepFixed(s, m, g, st);
      Outcome(t.state, if t.prompt.Some? then Some(t.state.awaitingFollowUp) else None)
  }

  /** A send completes, and issues a follow-up, exactly as the handler as written does. */
  lemma SentFlagIsHandlers(s: ChatState, m: Option<string>, g: GatewayOutcome, st: StoreOutcome)
    ensures Apply(s, Sent(m, g, st)).turn.Some? <==> Step(s, m, g, st).prompt.Some?
    ensures Apply(s, Sent(m, g, st)).turn.Some? ==>
      Apply(s, Sent(m, g, st)).turn.value == Step(s, m, g, st).state.awaitingFollowUp
    ensures Apply(s, Sent(m, g, st)).state.followUpCount == Step(s, m, g, st).state.followUpCount
  {
  }

  /** The outcome of each event of a sequence, in order. */
  function Outcomes(s: ChatState, evs: seq<Event>): (os: seq<Outcome>)
    ensures |os| == |evs|
    decreases |evs|
  {
    if evs == [] then []
    else
      var o := Apply(s, evs[0]);
      [o] + Outcomes(o.state, evs[1..])
  }

  /** The state after a sequence of events. */
  function Final(s: ChatState, evs: seq<Event>): ChatState {
    var os := Outcomes(s, evs);
    if os == [] then s else os[|os| - 1].state
  }

  /** The follow-up flags of the completed turns among some outcomes, in order. */
  function TurnFlags(os: seq<Outcome>): (log: seq<bool>)
    ensures |log| <= |os|
  {
    if os == [] then []
    else (if os[0].turn.Some? then [os[0].turn.value] else []) + TurnFlags(os[1..])
  }

  /** For each completed turn, in order, whether it issued a follow-up. */
  function FollowUpLog(s: ChatState, evs: seq<Event>): seq<bool> {
    TurnFlags(Outcomes(s, evs))
  }

  predicate NoTwoInARow(log: seq<bool>) {
    forall i :: 0 <= i < |log| - 1 ==> !(log[i] && log[i + 1])
  }

  /** What one event does to the follow-up flag, starting from a consistent state. */
  predicate FollowUpLinked(before: ChatState, o: Outcome) {
    && FollowUpConsistent(o.state)
    && (o.turn.Some? && before.awaitingFollowUp ==> !o.turn.value)
    && (o.turn.None? ==> o.state.awaitingFollowUp == before.awaitingFollowUp)
    && (o.turn.Some? ==> o.turn.value == o.state.awaitingFollowUp)
  }

  /** Every outcome is linked to the state before it. */
  predicate LinkedChain(before: ChatState, os: seq<Outcome>)
    decreases |os|
  {
    os != [] ==> FollowUpLinked(before, os[0]) && LinkedChain(os[0].state, os[1..])
  }

  /** The outcomes of any events from a consistent state form a linked chain. */
  lemma {:induction false} OutcomesLinked(s: ChatState, evs: seq<Event>)
    requires FollowUpConsistent(s)
    ensures LinkedChain(s, Outcomes(s, evs))
    decreases |evs|
  {
    if evs != [] {
      var o := Apply(s, evs[0]);
      ApplyFollowUp(s, evs[0]);
      OutcomesLinked(o.state, evs[1..]);
      var os := Outcomes(s, evs);
      assert os[0] == o && os[1..] == Outcomes(o.state, evs[1..]);
    }
  }

  /** In a linked chain no two consecutive turns issue a follow-up, and none is issued first while one is awaited. */
  lemma {:induction false} ChainNoTwoInARow(before: ChatState, os: seq<Outcome>)
    requires LinkedChain(before, os)
    ensures NoTwoInARow(TurnFlags(os))
    ensures before.awaitingFollowUp && |TurnFlags(os)| > 0 ==> !TurnFlags(os)[0]
    decreases |os|
  {
    if os != [] {
      ChainNoTwoInARow(os[0].state, os[1..]);
      var head := if os[0].turn.Some? then [os[0].turn.value] else [];
      assert TurnFlags(os) == head + TurnFlags(os[1..]);
    }
  }

  /** In a linked chain the last state's flag records whether the last turn issued a follow-up. */
  lemma {:induction false} ChainLastFlag(before: ChatState, os: seq<Outcome>)
    requires FollowUpConsistent(before)
    requires LinkedChain(before, os)
    ensures var last := if os == [] then before else os[|os| - 1].state;
      && FollowUpConsistent(last)
      && (|TurnFlags(os)| > 0 ==> (last.awaitingFollowUp <==> TurnFlags(os)[|TurnFlags(os)| - 1]))
      && (|TurnFlags(os)| == 0 ==> last.awaitingFollowUp == before.awaitingFollowUp)
    decreases |os|
  {
    if os != [] {
      ChainLastFlag(os[0].state, os[1..]);
      var head := if os[0].turn.Some? then [os[0].turn.value] else [];
      var rest := TurnFlags(os[1..]);
      var log := head + rest;
      assert TurnFlags(os) == log;
      if |os| > 1 {
        assert os[|os| - 1] == os[1..][|os[1..]| - 1];
      }
      if |rest| > 0 {
        assert log[|log| - 1] == rest[|rest| - 1];
      }
    }
  }

  /**
   * Across any events, no two consecutive completed turns both issue a
   * follow-up, and while one is awaited the next completed turn issues none.
   */
  lemma NoConsecutiveFollowUps(s: ChatState, evs: seq<Event>)
    requires FollowUpConsistent(s)
    ensures NoTwoInARow(FollowUpLog(s, evs))
    ensures s.awaitingFollowUp && |FollowUpLog(s, evs)| > 0 ==> !FollowUpLog(s, evs)[0]
  {
    OutcomesLinked(s, evs);
    ChainNoTwoInARow(s, Outcomes(s, evs));
  }

  /**
   * The awaiting flag left after any events records whether the last
   * completed turn issued a follow-up, and the count stays in step with it.
   */
  lemma FlagRecordsLastTurn(s: ChatState, evs: seq<Event>)
    requires FollowUpConsistent(s)
    ensures FollowUpConsistent(Final(s, evs))
    ensures |FollowUpLog(s, evs)| > 0 ==> (Final(s, evs).awaitingFollowUp <==> FollowUpLog(s, evs)[|FollowUpLog(s, evs)| - 1])
    ensures |FollowUpLog(s, evs)| == 0 ==> Final(s, evs).awaitingFollowUp == s.awaitingFollowUp
  {
    OutcomesLinked(s, evs);
    ChainLastFlag(s, Outcomes(s, evs));
  }

  /** One event keeps the follow-up count consistent and never issues a follow-up while one is awaited. */
  lemma ApplyFollowUp(s: ChatState, e: Event)
    requires FollowUpConsistent(s)
    ensures FollowUpLinked(s, Apply(s, e))
  {
  }

  /** With the corrected numbering, every event keeps ids equal to positions. */
  lemma {:induction false} IdsStayPositions(s: ChatState, evs: seq<Event>)
    requires IdsArePositions(s.messages)
    ensures IdsArePositions(Final(s, evs).messages)
    decreases |evs|
  {
    if evs != [] {
      var o := Apply(s, evs[0]);
      assert IdsArePositions(o.state.messages);
      IdsStayPositions(o.state, evs[1..]);
      var os := Outcomes(s, evs);
      assert os[1..] == Outcomes(o.state, evs[1..]);
      if |os| > 1 {
        assert os[|os| - 1] == os[1..][|os[1..]| - 1];
      }
    }
  }

  /** The follow-up bubble offers the quick replies Yes, No and Sometimes and shows no severity header. */
  lemma FollowUpOffersQuickReplies(n: int, question: string)
    ensures var m := FollowUpMessage(n, question);
      var b := ChatMessages.RenderBubble(m.text, m.isBot, m.severity, true);
      && b.quickReplies == ["Yes", "No", "Sometimes"]
      && b.header.None?
  {
    var m := FollowUpMessage(n, question);
    assert m.text == "To help you better, " + ChatMessages.QuickReplyMarker + (": " + question);
    JsText.ContainsInfix("To help you better, ", ChatMessages.QuickReplyMarker, ": " + question);
  }

  /** On a gateway failure the bot bubble is styled as a medium-severity advisory. */
  lemma FallbackBubble(s: ChatState, messageText: Option<string>, store: StoreOutcome)
    requires ChosenText(messageText, s.input) != ""
    ensures var m := Step(s, messageText, Rejected, store).appended[1];
      var b := ChatMessages.RenderBubble(m.text, m.isBot, m.severity, true);
      && m.text == FallbackText + DoctorNote
      && m.severity == Some("medium")
      && b.bubbleClass == "bot-bubble " + "border-yellow-200 bg-yellow-50"
      && b.header.Some? && b.header.value.title == "Advisory" && b.header.value.icon.None?
  {
    var text := ChosenText(messageText, s.input);
    var t := Step(s, messageText, Rejected, store);
    assert t == CompleteTurn(s, text, Rejected, store);
    FallbackDisplay();
    assert t.appended[1] == Message(|s.messages| + 2, FallbackText + DoctorNote, true, Some("medium"));
  }
}
