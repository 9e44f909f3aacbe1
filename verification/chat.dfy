/**
 * The chat page's turn logic: the welcome state, the conservative fallback
 * advisory, the prompt's optional sections, the composition of the bot's
 * display text, the single follow-up policy, the follow-up history, and the
 * session record handed to the store.
 *
 * The inference gateway and the session store are opaque: a turn receives
 * their outcomes as inputs. React state updates are applied in order to the
 * state captured when the turn started.
 */
module Chat {
  import opened Wrappers
  import JsText
  import opened ChatSession

  /** A chat bubble; `severity` is absent on user messages. */
  datatype Message = Message(id: int, text: string, isBot: bool, severity: Option<string>)

  /** The structured reply of the inference gateway. */
  datatype Advisory = Advisory(
    response: string,
    severity: Option<string>,
    followUpQuestion: Option<string>,
    seeDoctor: bool,
    emergencyAction: Option<string>)

  /** What the gateway call did: answered, or threw. */
  datatype GatewayOutcome = Replied(advisory: Advisory) | Rejected

  /** What `ChatSession.create` did: stored the record for the signed-in owner, or threw. */
  datatype StoreOutcome = Created(owner: string) | StoreFailed

  /** The signed-in user's fields the chat page reads. */
  datatype ChatUser = ChatUser(
    age: string,
    gender: string,
    medicalConditions: Option<seq<string>>,
    preferredLanguage: Option<string>)

  /** The chat page's state. */
  datatype ChatState = ChatState(
    messages: seq<Message>,
    input: string,
    language: string,
    user: Option<ChatUser>,
    session: Option<SessionRecord>,
    awaitingFollowUp: bool,
    followUpCount: nat)

  datatype UserInfo = UserInfo(age: string, gender: string)

  /** The parts of the gateway prompt that vary from turn to turn. */
  datatype Prompt = Prompt(
    query: string,
    language: string,
    userInfo: Option<UserInfo>,
    medicalConditions: Option<seq<string>>,
    previousConversation: Option<seq<FollowUpItem>>)

  /**
   * One call of the send handler: the resulting state, the messages it
   * appended in order, the prompt sent to the gateway (if it was called) and
   * the record handed to the store (if it was reached).
   */
  datatype Turn = Turn(
    state: ChatState,
    appended: seq<Message>,
    prompt: Option<Prompt>,
    record: Option<SessionRecord>)

  const WelcomeText := "Hi! I'm HealBuddy, your health helper. I can help you with:\n\n• Check your symptoms\n• Give health tips  \n• Emergency help\n• Find doctors\n\n⚠️ **Important**: I give health info only. See a real doctor for treatment.\n\nWhat health question do you have?"
  const FallbackText := "I'm having technical issues. For any health concerns, please consult a doctor or call 108 for emergencies."
  const ErrorText := "I'm having trouble connecting. Please try again or call 108 if this is an emergency."
  const EmergencyHeading := "\n\n🚨 EMERGENCY ACTION: "
  const DoctorNote := "\n\n👨‍⚕️ Please consult a doctor for proper diagnosis and treatment."
  const FollowUpPrefix := "To help you better, may I ask: "
  const AnswerLabel := "User response"
  const SymptomCheck := "symptom_check"

  /** The component's state before any effect has run. */
  function InitialState(): (s: ChatState)
    ensures s.messages == [] && s.input == "" && s.language == "english"
    ensures s.user.None? && s.session.None? && !s.awaitingFollowUp && s.followUpCount == 0
  {
    ChatState([], "", "english", None, None, false, 0)
  }

  /** The mount effect's welcome: the message list becomes exactly the low-severity welcome bubble. */
  function InitializeChat(s: ChatState): (r: ChatState)
    ensures |r.messages| == 1
    ensures r.messages[0].id == 1 && r.messages[0].isBot && r.messages[0].severity == Some("low")
    ensures r.messages[0].text == WelcomeText
    ensures r.(messages := s.messages) == s
  {
    s.(messages := [Message(1, WelcomeText, true, Some("low"))])
  }

  /**
   * The profile load: `me` is the signed-in user, or None when the lookup
   * threw. A truthy preferred language replaces the current one.
   */
  function LoadUserProfile(s: ChatState, me: Option<ChatUser>): (r: ChatState)
    ensures me.None? ==> r == s
    ensures me.Some? ==> r.user == me
    ensures me.Some? && Truthy(me.value.preferredLanguage) ==> r.language == me.value.preferredLanguage.value
    ensures me.Some? && !Truthy(me.value.preferredLanguage) ==> r.language == s.language
    ensures r.(user := s.user, language := s.language) == s
  {
    match me
    case None => s
    case Some(u) => s.(user := me, language := OrElse(u.preferredLanguage, s.language))
  }

  /** Choosing a language sets it at once; the profile write-back's failure is swallowed. */
  function ChangeLanguage(s: ChatState, code: string): (r: ChatState)
    ensures r.language == code && r.(language := s.language) == s
  {
    s.(language := code)
  }

  /** Typing, or a voice transcript, replaces the input field. */
  function SetInput(s: ChatState, text: string): (r: ChatState)
    ensures r.input == text && r.(input := s.input) == s
  {
    s.(input := text)
  }

  /** `messageText || inputMessage.trim()`: a quick-reply text is taken verbatim, typed input trimmed. */
  function ChosenText(messageText: Option<string>, input: string): (r: string)
    ensures Truthy(messageText) ==> r == messageText.value
    ensures !Truthy(messageText) ==> r == JsText.Trim(input)
    ensures r == "" <==> !Truthy(messageText) && JsText.AllWhitespace(input)
  {
    OrElse(messageText, JsText.Trim(input))
  }

  /** The conservative advisory substituted when the gateway call throws. */
  const Fallback := Advisory(FallbackText, Some("medium"), None, true, None)

  /** The advisory a turn acts on. */
  function Resolve(g: GatewayOutcome): (a: Advisory)
    ensures g.Replied? ==> a == g.advisory
    ensures g.Rejected? ==> a.response == FallbackText && a.severity == Some("medium")
    ensures g.Rejected? ==> a.seeDoctor && a.followUpQuestion.None? && a.emergencyAction.None?
  {
    match g
    case Replied(a) => a
    case Rejected => Fallback
  }

  /** The doctor segment is added when a doctor is advised and the severity is not an emergency. */
  predicate DoctorAdvised(a: Advisory) {
    a.seeDoctor && a.severity != Some("emergency")
  }

  /** A piece of the bot's display text. */
  datatype Segment = BaseResponse(text: string) | EmergencyAction(action: string) | DoctorAdvice

  /** The fixed position of each kind of segment. */
  function Rank(seg: Segment): nat {
    match seg
    case BaseResponse(_) => 0
    case EmergencyAction(_) => 1
    case DoctorAdvice => 2
  }

  predicate HasEmergencyAction(segs: seq<Segment>) {
    exists i :: 0 <= i < |segs| && segs[i].EmergencyAction?
  }

  /** The segments of the display text, in order. */
  function Segments(a: Advisory): (r: seq<Segment>)
    ensures |r| >= 1 && r[0] == BaseResponse(a.response)
    ensures forall i, j :: 0 <= i < j < |r| ==> Rank(r[i]) < Rank(r[j])
    ensures HasEmergencyAction(r) <==> Truthy(a.emergencyAction)
    ensures forall i :: 0 <= i < |r| && r[i].EmergencyAction? ==> Truthy(a.emergencyAction) && r[i].action == a.emergencyAction.value
    ensures DoctorAdvice in r <==> DoctorAdvised(a)
  {
    var r := [BaseResponse(a.response)]
      + (if Truthy(a.emergencyAction) then [EmergencyAction(a.emergencyAction.value)] else [])
      + (if DoctorAdvised(a) then [DoctorAdvice] else []);
    assert Truthy(a.emergencyAction) ==> r[1].EmergencyAction?;
    r
  }

  function Render(seg: Segment): string {
    match seg
    case BaseResponse(t) => t
    case EmergencyAction(act) => EmergencyHeading + act
    case DoctorAdvice => DoctorNote
  }

  function RenderAll(segs: seq<Segment>): string {
    if segs == [] then "" else Render(segs[0]) + RenderAll(segs[1..])
  }

  lemma {:induction false} RenderAllAppend(xs: seq<Segment>, ys: seq<Segment>)
    ensures RenderAll(xs + ys) == RenderAll(xs) + RenderAll(ys)
  {
    if xs == [] {
      assert xs + ys == ys;
    } else {
      assert (xs + ys)[1..] == xs[1..] + ys;
      RenderAllAppend(xs[1..], ys);
    }
  }

  /** The bot message's text: the advisory's response followed by its segments. */
  function DisplayText(a: Advisory): (r: string)
    ensures |a.response| <= |r| && r[..|a.response|] == a.response
    ensures DoctorAdvised(a) ==> |DoctorNote| <= |r| && r[|r| - |DoctorNote|..] == DoctorNote
    ensures Truthy(a.emergencyAction) ==> JsText.Contains(r, EmergencyHeading + a.emergencyAction.value)
    ensures !Truthy(a.emergencyAction) && !DoctorAdvised(a) ==> r == a.response
  {
    var segs := Segments(a);
    var e := if Truthy(a.emergencyAction) then [EmergencyAction(a.emergencyAction.value)] else [];
    var d := if DoctorAdvised(a) then [DoctorAdvice] else [];
    assert segs == [BaseResponse(a.response)] + e + d;
    RenderAllAppend([BaseResponse(a.response)] + e, d);
    RenderAllAppend([BaseResponse(a.response)], e);
    assert RenderAll([BaseResponse(a.response)]) == a.response;
    assert e != [] ==> RenderAll(e) == EmergencyHeading + a.emergencyAction.value;
    assert d != [] ==> RenderAll(d) == DoctorNote;
    assert RenderAll(segs) == a.response + RenderAll(e) + RenderAll(d);
    JsText.ContainsInfix(a.response, RenderAll(e), RenderAll(d));
    RenderAll(segs)
  }

  /** The display text is the response, then the emergency segment when there is an action, then the doctor segment when advised. */
  lemma DisplayTextLayout(a: Advisory)
    ensures DisplayText(a) ==
      a.response
      + (if Truthy(a.emergencyAction) then EmergencyHeading + a.emergencyAction.value else "")
      + (if DoctorAdvised(a) then DoctorNote else "")
  {
    var e := if Truthy(a.emergencyAction) then [EmergencyAction(a.emergencyAction.value)] else [];
    var d := if DoctorAdvised(a) then [DoctorAdvice] else [];
    RenderAllAppend([BaseResponse(a.response)] + e, d);
    RenderAllAppend([BaseResponse(a.response)], e);
    assert RenderAll([BaseResponse(a.response)]) == a.response;
    assert e != [] ==> RenderAll(e) == EmergencyHeading + a.emergencyAction.value;
    assert d != [] ==> RenderAll(d) == DoctorNote;
  }

  /** An emergency advisory with an action ends with the action and carries no doctor segment. */
  lemma EmergencyDisplay(a: Advisory)
    requires a.severity == Some("emergency") && Truthy(a.emergencyAction)
    ensures DisplayText(a) == a.response + EmergencyHeading + a.emergencyAction.value
  {
    assert Segments(a) == [BaseResponse(a.response), EmergencyAction(a.emergencyAction.value)];
    assert RenderAll(Segments(a)[1..]) == EmergencyHeading + a.emergencyAction.value;
  }

  /** The fallback advisory shows its text followed by the doctor segment only. */
  lemma FallbackDisplay()
    ensures DisplayText(Resolve(Rejected)) == FallbackText + DoctorNote
  {
  }

  /** `severity || "low"`. */
  function BotSeverity(a: Advisory): (r: string)
    ensures r != ""
    ensures Truthy(a.severity) ==> r == a.severity.value
    ensures !Truthy(a.severity) ==> r == "low"
  {
    OrElse(a.severity, "low")
  }

  /** The follow-up condition: a truthy question, not already awaiting an answer, and budget left. */
  predicate IssuesFollowUp(a: Advisory, awaiting: bool, count: int) {
    Truthy(a.followUpQuestion) && !awaiting && count < 1
  }

  /**
   * The history sent with an answer to a follow-up: the current session's
   * pairs, or none, plus the answer. Built only while a follow-up is awaited
   * and a session exists.
   */
  function FollowUpHistory(s: ChatState, text: string): (h: Option<seq<FollowUpItem>>)
    ensures h.Some? <==> s.session.Some? && s.awaitingFollowUp
    ensures h.Some? ==> |h.value| >= 1 && h.value[|h.value| - 1] == FollowUpItem(AnswerLabel, text)
    ensures h.Some? ==> h.value[..|h.value| - 1] == s.session.value.followUpQuestions.GetOr([])
  {
    if s.session.Some? && s.awaitingFollowUp then
      Some(s.session.value.followUpQuestions.GetOr([]) + [FollowUpItem(AnswerLabel, text)])
    else None
  }

  /** The prompt's variable sections; each optional section is present exactly when its source is. */
  function BuildPrompt(text: string, language: string, user: Option<ChatUser>, history: Option<seq<FollowUpItem>>): (p: Prompt)
    ensures p.query == text && p.language == language
    ensures p.userInfo.Some? <==> user.Some?
    ensures p.userInfo.Some? ==> p.userInfo.value == UserInfo(user.value.age, user.value.gender)
    ensures p.medicalConditions.Some? <==> user.Some? && user.value.medicalConditions.Some? && |user.value.medicalConditions.value| > 0
    ensures p.medicalConditions.Some? ==> p.medicalConditions == user.value.medicalConditions
    ensures p.previousConversation == history
  {
    Prompt(
      text,
      language,
      if user.Some? then Some(UserInfo(user.value.age, user.value.gender)) else None,
      if user.Some? && user.value.medicalConditions.Some? && |user.value.medicalConditions.value| > 0
      then user.value.medicalConditions else None,
      history)
  }

  /** The `sessionData` object handed to the store. */
  function TurnRecord(text: string, a: Advisory, language: string, history: Option<seq<FollowUpItem>>): (r: SessionRecord)
    ensures r.userMessage == Some(text) && r.botResponse == Some(a.response) && r.language == Some(language)
    ensures r.severityAssessment == a.severity && r.sessionType == Some(SymptomCheck)
    ensures r.followUpQuestions == Some(history.GetOr([]))
    ensures r.createdBy.None?
    ensures ValidRecord(r) <==> InEnumIfPresent(a.severity, Severities)
  {
    SessionRecord(Some(text), Some(a.response), Some(history.GetOr([])), Some(language), a.severity, Some(SymptomCheck), None)
  }

  /**
   * The current session after a failed store: pushing the answer onto the
   * history grew the session's own `follow_up_questions` array in place,
   * unless that array was missing and a fresh one was used.
   */
  function SessionAfterFailedStore(session: Option<SessionRecord>, history: Option<seq<FollowUpItem>>): (r: Option<SessionRecord>)
    ensures r.Some? <==> session.Some?
    ensures r.Some? ==> r.value.(followUpQuestions := session.value.followUpQuestions) == session.value
    ensures r.Some? && r.value != session.value ==> history.Some? && r.value.followUpQuestions == history
    // An existing array is the one the answer was pushed onto.
    ensures session.Some? && session.value.followUpQuestions.Some? && history.Some? ==>
      r == Some(session.value.(followUpQuestions := history))
    // A missing array was replaced by a fresh one, so the session is untouched.
    ensures !(session.Some? && session.value.followUpQuestions.Some? && history.Some?) ==> r == session
  {
    if session.Some? && session.value.followUpQuestions.Some? && history.Some? then
      Some(session.value.(followUpQuestions := history))
    else session
  }

  /** The follow-up bubble, numbered from the message count captured at the start of the turn. */
  function FollowUpMessage(n: int, question: string): (m: Message)
    ensures m.id == n + 3 && m.isBot && m.severity == Some("low")
    ensures |m.text| == |FollowUpPrefix| + |question|
    ensures m.text[..|FollowUpPrefix|] == FollowUpPrefix && m.text[|FollowUpPrefix|..] == question
  {
    Message(n + 3, FollowUpPrefix + question, true, Some("low"))
  }

  /** The bubble the catch block appends. */
  function ErrorMessage(n: int): (m: Message)
    ensures m.id == n + 2 && m.isBot && m.severity == Some("medium") && m.text == ErrorText
  {
    Message(n + 2, ErrorText, true, Some("medium"))
  }

  /** A completed turn: `text` is the non-empty text chosen for sending. */
  function CompleteTurn(s: ChatState, text: string, g: GatewayOutcome, store: StoreOutcome): (t: Turn)
    requires text != ""
    ensures t.state.messages == s.messages + t.appended
    ensures t.state.input == "" && t.state.language == s.language && t.state.user == s.user
    ensures |t.appended| >= 2
    ensures t.appended[0] == Message(|s.messages| + 1, text, false, None)
    ensures t.appended[1] == Message(|s.messages| + 2, DisplayText(Resolve(g)), true, Some(BotSeverity(Resolve(g))))
    ensures t.state.awaitingFollowUp <==> IssuesFollowUp(Resolve(g), s.awaitingFollowUp, s.followUpCount)
    ensures t.state.followUpCount == if t.state.awaitingFollowUp then 1 else 0
    ensures t.state.awaitingFollowUp ==>
      t.appended[|t.appended| - 1] == FollowUpMessage(|s.messages|, Resolve(g).followUpQuestion.value)
    ensures |t.appended| == 2 + (if store.StoreFailed? then 1 else 0) + (if t.state.awaitingFollowUp then 1 else 0)
    ensures store.StoreFailed? ==> t.appended[2] == ErrorMessage(|s.messages|)
    ensures t.prompt == Some(BuildPrompt(text, s.language, s.user, FollowUpHistory(s, text)))
    ensures t.record == Some(TurnRecord(text, Resolve(g), s.language, FollowUpHistory(s, text)))
    ensures store.Created? ==> t.state.session == Some(t.record.value.(createdBy := Some(store.owner)))
    ensures store.StoreFailed? ==> t.state.session == SessionAfterFailedStore(s.session, FollowUpHistory(s, text))
  {
    var n := |s.messages|;
    var history := FollowUpHistory(s, text);
    var a := Resolve(g);
    var userMessage := Message(n + 1, text, false, None);
    var botMessage := Message(n + 2, DisplayText(a), true, Some(BotSeverity(a)));
    var issue := IssuesFollowUp(a, s.awaitingFollowUp, s.followUpCount);
    var followUp := if issue then [FollowUpMessage(n, a.followUpQuestion.value)] else [];
    var record := TurnRecord(text, a, s.language, history);
    var appended := match store
      case Created(_) => [userMessage, botMessage] + followUp
      case StoreFailed => [userMessage, botMessage, ErrorMessage(n)] + followUp;
    var session := match store
      case Created(owner) => Some(record.(createdBy := Some(owner)))
      case StoreFailed => SessionAfterFailedStore(s.session, history);
    var next := s.(
      messages := s.messages + appended,
      input := "",
      session := session,
      awaitingFollowUp := issue,
      followUpCount := if issue then 1 else 0);
    Turn(next, appended, Some(BuildPrompt(text, s.language, s.user, history)), Some(record))
  }

  /**
   * The send handler. `messageText` is the quick-reply text, or None when
   * the form is submitted; `g` and `store` are the outcomes of the two
   * external calls.
   */
  function Step(s: ChatState, messageText: Option<string>, g: GatewayOutcome, store: StoreOutcome): (t: Turn)
    // Empty text: nothing at all happens, and the gateway is not called.
    ensures ChosenText(messageText, s.input) == "" <==> t.state == s && t.appended == [] && t.prompt.None?
    ensures ChosenText(messageText, s.input) == "" ==> t.record.None?
    // A completed turn appends the user message, then the bot message.
    ensures t.state.messages == s.messages + t.appended
    ensures t.prompt.Some? ==> (|t.appended| >= 2
      && t.appended[0] == Message(|s.messages| + 1, ChosenText(messageText, s.input), false, None)
      && t.appended[1] == Message(|s.messages| + 2, DisplayText(Resolve(g)), true, Some(BotSeverity(Resolve(g)))))
    // The follow-up decision and the state it leaves behind.
    ensures t.prompt.Some? ==>
      (t.state.awaitingFollowUp <==> IssuesFollowUp(Resolve(g), s.awaitingFollowUp, s.followUpCount))
    ensures t.prompt.Some? ==> t.state.followUpCount == (if t.state.awaitingFollowUp then 1 else 0)
    ensures t.prompt.Some? && s.awaitingFollowUp ==> !t.state.awaitingFollowUp
    ensures t.prompt.Some? && t.state.awaitingFollowUp ==>
      t.appended[|t.appended| - 1] == FollowUpMessage(|s.messages|, Resolve(g).followUpQuestion.value)
    ensures t.prompt.Some? ==> |t.appended| == 2 + (if store.StoreFailed? then 1 else 0) + (if t.state.awaitingFollowUp then 1 else 0)
    // What is sent to the gateway and to the store.
    ensures t.prompt.Some? ==> t.prompt.value.query == ChosenText(messageText, s.input)
    ensures t.prompt.Some? ==> t.prompt.value.previousConversation == FollowUpHistory(s, ChosenText(messageText, s.input))
    ensures t.prompt.Some? <==> t.record.Some?
    ensures t.record.Some? ==> (t.record.value.userMessage == Some(ChosenText(messageText, s.input))
      && t.record.value.botResponse == Some(Resolve(g).response)
      && t.record.value.sessionType == Some(SymptomCheck)
      && t.record.value.severityAssessment == Resolve(g).severity
      && t.record.value.followUpQuestions == Some(FollowUpHistory(s, ChosenText(messageText, s.input)).GetOr([])))
    ensures t.prompt.Some? && store.Created? ==> t.state.session == Some(t.record.value.(createdBy := Some(store.owner)))
    ensures t.prompt.Some? ==> t.state.input == ""
    // A non-empty text makes the call a completed turn, with everything CompleteTurn states.
    ensures ChosenText(messageText, s.input) != "" ==> t == CompleteTurn(s, ChosenText(messageText, s.input), g, store)
  {
    var text := ChosenText(messageText, s.input);
    if text == "" then Turn(s, [], None, None)
    else CompleteTurn(s, text, g, store)
  }

  /** A captured state in which every follow-up count agrees with the awaiting flag. */
  predicate FollowUpConsistent(s: ChatState) {
    s.followUpCount == if s.awaitingFollowUp then 1 else 0
  }

  /** Every call of the send handler keeps the count in step with the flag, so the count test adds nothing. */
  lemma StepKeepsFollowUpConsistent(s: ChatState, messageText: Option<string>, g: GatewayOutcome, store: StoreOutcome)
    requires FollowUpConsistent(s)
    ensures FollowUpConsistent(Step(s, messageText, g, store).state)
    ensures forall a: Advisory :: IssuesFollowUp(a, s.awaitingFollowUp, s.followUpCount) <==> Truthy(a.followUpQuestion) && !s.awaitingFollowUp
  {
  }

  /** Of two completed turns in a row, at most one issues a follow-up. */
  lemma NoFollowUpTwiceInARow(s: ChatState, m1: Option<string>, g1: GatewayOutcome, st1: StoreOutcome,
                              m2: Option<string>, g2: GatewayOutcome, st2: StoreOutcome)
    ensures var t1 := Step(s, m1, g1, st1);
      var t2 := Step(t1.state, m2, g2, st2);
      t1.prompt.Some? && t2.prompt.Some? ==> !(t1.state.awaitingFollowUp && t2.state.awaitingFollowUp)
  {
  }

  /** A follow-up answer is sent with the session's history and stored with it. */
  lemma AnswerCarriesHistory(s: ChatState, text: string, g: GatewayOutcome, store: StoreOutcome)
    requires text != "" && s.awaitingFollowUp && s.session.Some?
    ensures var t := Step(s, Some(text), g, store);
      var h := s.session.value.followUpQuestions.GetOr([]) + [FollowUpItem(AnswerLabel, text)];
      && t.prompt.value.previousConversation == Some(h)
      && t.record.value.followUpQuestions == Some(h)
  {
  }

  /**
   * When the store throws after a follow-up answer, the current session's
   * existing follow-up list has grown by exactly that answer.
   */
  lemma FailedStoreKeepsPushedAnswer(s: ChatState, text: string, g: GatewayOutcome)
    requires text != "" && s.awaitingFollowUp && s.session.Some? && s.session.value.followUpQuestions.Some?
    ensures var t := Step(s, Some(text), g, StoreFailed);
      && t.state.session.Some?
      && t.state.session.value.followUpQuestions ==
         Some(s.session.value.followUpQuestions.value + [FollowUpItem(AnswerLabel, text)])
      && t.state.session.value.(followUpQuestions := s.session.value.followUpQuestions) == s.session.value
  {
  }

  /** The language chosen before a turn is the one named in its prompt and its record. */
  lemma ChosenLanguageIsUsed(s: ChatState, code: string, messageText: Option<string>, g: GatewayOutcome, store: StoreOutcome)
    requires Step(ChangeLanguage(s, code), messageText, g, store).prompt.Some?
    ensures Step(ChangeLanguage(s, code), messageText, g, store).prompt.value.language == code
    ensures Step(ChangeLanguage(s, code), messageText, g, store).record.value.language == Some(code)
  {
  }

  /** Submitting the form sends the typed text trimmed, and nothing when it is blank. */
  lemma TypedTextIsSent(s: ChatState, typed: string, g: GatewayOutcome, store: StoreOutcome)
    ensures JsText.AllWhitespace(typed) ==> Step(SetInput(s, typed), None, g, store).state == SetInput(s, typed)
    ensures !JsText.AllWhitespace(typed) ==> Step(SetInput(s, typed), None, g, store).appended[0].text == JsText.Trim(typed)
  {
  }

  /** The stored record meets the entity schema exactly when the advisory's severity is absent or in the enum. */
  lemma TurnRecordValid(s: ChatState, messageText: Option<string>, g: GatewayOutcome, store: StoreOutcome)
    requires Step(s, messageText, g, store).record.Some?
    ensures ValidRecord(Step(s, messageText, g, store).record.value) <==> InEnumIfPresent(Resolve(g).severity, Severities)
    ensures g.Rejected? ==> ValidRecord(Step(s, messageText, g, store).record.value)
  {
  }

  /** Message ids equal positions, counting from 1. */
  predicate IdsArePositions(ms: seq<Message>) {
    forall i :: 0 <= i < |ms| ==> ms[i].id == i + 1
  }

  /** When the store succeeds, a turn keeps ids equal to positions. */
  lemma StoredTurnKeepsIds(s: ChatState, messageText: Option<string>, g: GatewayOutcome, owner: string)
    requires IdsArePositions(s.messages)
    ensures IdsArePositions(Step(s, messageText, g, Created(owner)).state.messages)
  {
  }

  lemma AppendedIdsWhenStored(s: ChatState, text: string, g: GatewayOutcome, owner: string)
    requires text != ""
    ensures var t := CompleteTurn(s, text, g, Created(owner));
      forall i :: 0 <= i < |t.appended| ==> t.appended[i].id == |s.messages| + 1 + i
  {
  }

  /**
   * When the store throws after the bot message is shown, the catch block's
   * message reuses the bot message's id.
   */
  lemma StoreFailureRepeatsBotId(s: ChatState, messageText: Option<string>, g: GatewayOutcome)
    requires ChosenText(messageText, s.input) != ""
    ensures var t := Step(s, messageText, g, StoreFailed);
      && t.appended[1].id == t.appended[2].id
      && t.appended[2].text == ErrorText
      && !IdsArePositions(t.state.messages)
  {
    var t := Step(s, messageText, g, StoreFailed);
    var n := |s.messages|;
    assert t.appended[2] == ErrorMessage(n) by {
      assert t == CompleteTurn(s, ChosenText(messageText, s.input), g, StoreFailed);
    }
    assert t.state.messages[n + 2] == t.appended[2];
  }

  /** A concrete instance: after the welcome, a quick reply whose store call fails. */
  lemma StoreFailureExample()
    ensures var t := Step(InitializeChat(InitialState()), Some("Yes"), Rejected, StoreFailed);
      && [t.state.messages[1].id, t.state.messages[2].id, t.state.messages[3].id] == [2, 3, 3]
  {
  }

  /** Renumbering messages that are already numbered consecutively changes nothing. */
  lemma RenumberConsecutive(ms: seq<Message>, first: int)
    requires forall i :: 0 <= i < |ms| ==> ms[i].id == first + i
    ensures Renumber(ms, first) == ms
  {
  }

  /** Assigns consecutive ids starting at `first`, in order. */
  function Renumber(ms: seq<Message>, first: int): (r: seq<Message>)
    ensures |r| == |ms|
    ensures forall i :: 0 <= i < |ms| ==> r[i] == ms[i].(id := first + i)
  {
    seq(|ms|, i requires 0 <= i < |ms| => ms[i].(id := first + i))
  }

  /**
   * The send handler with each appended message numbered by the position it
   * takes, so that the catch block's message gets an id of its own.
   */
  function StepFixed(s: ChatState, messageText: Option<string>, g: GatewayOutcome, store: StoreOutcome): (t: Turn)
    ensures t.state.messages == s.messages + t.appended
    ensures IdsArePositions(s.messages) ==> IdsArePositions(t.state.messages)
    ensures |t.appended| == |Step(s, messageText, g, store).appended|
    ensures forall i :: 0 <= i < |t.appended| ==>
      t.appended[i].(id := 0) == Step(s, messageText, g, store).appended[i].(id := 0)
    ensures t.state.(messages := []) == Step(s, messageText, g, store).state.(messages := [])
    ensures t.prompt == Step(s, messageText, g, store).prompt && t.record == Step(s, messageText, g, store).record
  {
    var t := Step(s, messageText, g, store);
    var renumbered := Renumber(t.appended, |s.messages| + 1);
    t.(state := t.state.(messages := s.messages + renumbered), appended := renumbered)
  }

  /** The correction changes nothing when the store succeeds. */
  lemma StepFixedAgreesWhenStored(s: ChatState, messageText: Option<string>, g: GatewayOutcome, owner: string)
    ensures StepFixed(s, messageText, g, Created(owner)) == Step(s, messageText, g, Created(owner))
  {
    var t := Step(s, messageText, g, Created(owner));
    var n := |s.messages|;
    if t.prompt.Some? {
      var text := ChosenText(messageText, s.input);
      assert t == CompleteTurn(s, text, g, Created(owner));
      AppendedIdsWhenStored(s, text, g, owner);
    }
    RenumberConsecutive(t.appended, n + 1);
  }
}
