# HealBuddy chat core in Dafny

A model of the HealBuddy web application's conversational core and the small
pure helpers around it. The centre is the chat page's send handler. One call:

- picks the text to send: a quick reply verbatim, or the typed input trimmed;
- builds the gateway prompt and its optional sections;
- substitutes a conservative fallback advisory when the gateway throws;
- composes the bot message (emergency action and doctor note);
- decides whether to ask the single follow-up question;
- builds the follow-up history;
- hands a ChatSession record to the entity store;
- appends the catch block's error bubble when the store throws.

Around it are:

- the message bubble's severity styling, header, quick replies and speech locale;
- the language selector's catalog lookup;
- the ChatSession entity's schema and row-level access rules;
- the profile form's load, save and condition-list editing;
- the healthcare page's facility-type badges, map query and call link.

Modules, one per source file:

| module | file | content |
|---|---|---|
| `Wrappers` | `wrappers.dfy` | `Option`, JavaScript truthiness of optional strings, `x \|\| d` |
| `JsText` | `js_text.dfy` | `trim`, `toLowerCase`, `includes` |
| `ChatSession` | `chat_session.dfy` | the entity schema and access rules |
| `LanguageSelector` | `language_selector.dfy` | the language catalog and lookup |
| `ChatMessages` | `chat_messages.dfy` | the message bubble |
| `Chat` | `chat.dfy` | the chat page: state, one turn, the corrected numbering |
| `ChatRun` | `chat_run.dfy` | sequences of chat-page events and their invariants |
| `Profile` | `profile.dfy` | the profile page |
| `Healthcare` | `healthcare.dfy` | the healthcare page |

External calls become inputs of the model:

- The inference gateway (`InvokeLLM`) is a `GatewayOutcome`: `Replied(advisory)` or `Rejected`.
- `ChatSession.create` is a `StoreOutcome`: `Created(owner)` or `StoreFailed`.
- `User.me` is an optional user; `None` means the call threw.

React state updates are applied, in order, to the state captured when the handler started. That is what the handler's closures see.

Where the code differs from what its own comments or a reader would expect, the model follows the code:

- **Follow-up budget.** The comment at `pages/Chat.js:193` says only one follow-up is asked per conversation. But lines 208-210 reset the count to 0 whenever a turn issues no follow-up. So the answer to a follow-up re-arms the budget, and the next question may be asked a follow-up again. `Chat.StepKeepsFollowUpConsistent` shows the count always equals the awaiting flag, so the count test adds nothing. The policy is therefore "never two follow-ups from consecutive turns" (`ChatRun.NoConsecutiveFollowUps`), not "one per topic".
- **Trimming.** Only typed input is trimmed. A quick-reply text is sent as given.
- **Follow-up history.** It is built only when a follow-up is awaited and a stored session exists. The answer is pushed onto the stored session's own array.
- **Fallback bubble.** On a gateway failure the bubble shows the fallback text followed by the doctor note, because the fallback has `see_doctor` true and severity "medium" (`ChatRun.FallbackBubble`).
- **Quick replies.** They appear under every bot message containing "may I ask", not only the most recent one.

## Model

| member | source | states |
|---|---|---|
| Wrappers.Truthy | pages/Chat.js:148 | JavaScript truthiness of an optional string: false for null, undefined and "" |
| Wrappers.OrElse | pages/Chat.js:188 | `x \|\| d`: the string when truthy, otherwise the default, and non-empty whenever the default is (also used at profile.js:32-37, chatMessages.js:27, healthcare.js:78) |
| Profile.AgeTruthy | pages/profile.js:49 | the age field is falsy exactly when it is "" or the number 0 |
| JsText.Trim | pages/Chat.js:148 | only a leading and a trailing run of whitespace are removed; the rest is empty exactly when the input is all whitespace, and otherwise starts and ends with a non-whitespace character |
| JsText.TrimDetermined | pages/Chat.js:148 | these properties determine the trimmed text: any string meeting them is `Trim`'s result |
| JsText.Contains | component/chat/chatMessages.js:92 | `includes`: some slice of the text equals the phrase |
| JsText.ToLower | pages/healthcare.js:91 | same length, every ASCII capital mapped to its small letter, no capital left |
| JsText.ToLowerIdempotent | pages/healthcare.js:91 | lower-casing twice is lower-casing once |
| ChatSession.ValidRecord | Entities/ChatSession.js:32-57 | the schema accepts a record exactly when user message, bot response and language are present and any severity and session type are in their enumerations |
| ChatSession.CanRead | Entities/ChatSession.js:59-70 | the owner, or any admin, may read |
| ChatSession.CanWrite | Entities/ChatSession.js:71-73 | only the owner may write |
| ChatSession.AccessRules | Entities/ChatSession.js:58-74 | a writer can read; an admin reads every record; for a non-admin, reading and writing coincide; a record without an owner is writable by nobody |
| ChatSession.SingleWriter | Entities/ChatSession.js:71-73 | two viewers who may both write a record have the same email |
| LanguageSelector.CatalogShape | component/chat/LanguageSelector.js:11-24 | twelve languages, English first, no code listed twice |
| LanguageSelector.FindFrom | component/chat/LanguageSelector.js:27 | the result is the first index at or after the start whose code matches; None means no later entry matches |
| LanguageSelector.Lookup | component/chat/LanguageSelector.js:27 | the result is a catalog entry; it carries the code when any entry does; otherwise it is the first entry |
| LanguageSelector.LookupFindsEveryEntry | component/chat/LanguageSelector.js:11-27 | each catalog entry is what its own code looks up |
| LanguageSelector.LookupUnknownIsEnglish | component/chat/LanguageSelector.js:27 | a code outside the twelve shows English |
| ChatMessages.EffectiveSeverity | component/chat/chatMessages.js:6 | a message without a severity is styled as "low" |
| ChatMessages.SeverityColor | component/chat/chatMessages.js:38-45 | each of emergency, high and medium has its own class string, and every other severity gets the grey default |
| ChatMessages.SeverityIcon | component/chat/chatMessages.js:47-51 | an icon appears exactly for emergency (red phone) and high (orange triangle) |
| ChatMessages.SeverityHeader | component/chat/chatMessages.js:63-70 | a header appears exactly on bot messages whose severity is not "low"; its icon, title and colour follow the severity, with "Advisory" for anything other than emergency and high |
| ChatMessages.QuickReplies | component/chat/chatMessages.js:92-119 | the options Yes, No, Sometimes are offered exactly for a bot message containing "may I ask" when a handler is supplied, otherwise none |
| ChatMessages.SpeechLocale | component/chat/chatMessages.js:14-27 | a listed language gets its locale, any other gets en-IN, and the result is always one of the table's locales |
| ChatMessages.CatalogSpeechLocales | component/chat/chatMessages.js:14-27 | every selectable language has an "xx-IN" locale; English, Odia and Assamese, and only they, are spoken as en-IN |
| ChatMessages.RenderBubble | component/chat/chatMessages.js:62-92 | bot bubbles carry the severity colour and user bubbles the fixed indigo class; header and quick replies appear under exactly their conditions |
| Chat.InitialState | pages/Chat.js:16-23 | the page starts with no messages, empty input, English, no user or session, and no follow-up pending |
| Chat.InitializeChat | pages/Chat.js:51-72 | the message list becomes exactly the welcome bubble (id 1, bot, low), and nothing else changes |
| Chat.LoadUserProfile | pages/Chat.js:39-49 | a failed lookup changes nothing; a found user is kept, and their preferred language replaces the current one only when it is non-empty |
| Chat.ChangeLanguage | pages/Chat.js:249-257 | the language changes at once whatever the profile write-back does; `Chat.ChosenLanguageIsUsed` shows the next turn uses it |
| Chat.SetInput | pages/Chat.js:245-247 | only the input field changes; `Chat.TypedTextIsSent` shows what a submit then sends |
| Chat.ChosenText | pages/Chat.js:147-149 | a non-empty quick reply wins, otherwise the trimmed input; the text is empty exactly when there is no quick reply and the input is blank |
| Chat.Resolve | pages/Chat.js:133-144 | a reply is used as is; a gateway failure yields the fallback text with severity medium, doctor advised, and no follow-up or emergency action |
| Chat.DoctorAdvised | pages/Chat.js:179 | the doctor note is added exactly when a doctor is advised and the severity is not "emergency" |
| Chat.Segments | pages/Chat.js:171-181 | the display text's pieces: the response first, then the emergency action (present exactly when the action is non-empty), then the doctor note (present exactly when a doctor is advised and the severity is not emergency), in that fixed order |
| Chat.DisplayText | pages/Chat.js:171-181 | the response is a prefix, the doctor note a suffix when advised, the emergency line occurs when there is an action, and a plain advisory shows just its response |
| Chat.DisplayTextLayout | pages/Chat.js:171-181 | the display text equals response, then the optional emergency line, then the optional doctor note |
| Chat.EmergencyDisplay | pages/Chat.js:173-181 | an emergency with an action shows the response and the action line, and no doctor note |
| Chat.FallbackDisplay | pages/Chat.js:137-181 | the fallback displays as its text followed by the doctor note |
| Chat.BotSeverity | pages/Chat.js:188 | the bot message's severity is the advisory's when non-empty, else "low"; never empty |
| Chat.IssuesFollowUp | pages/Chat.js:194 | a follow-up is issued exactly for a non-empty question while none is awaited and the count is below 1 |
| Chat.FollowUpHistory | pages/Chat.js:163-167 | history exists exactly when a session exists and a follow-up is awaited; it is the session's pairs (or none) followed by the answer under "User response" |
| Chat.BuildPrompt | pages/Chat.js:76-82 | query and language are passed through; user info appears exactly when there is a user; conditions appear exactly when the user has a non-empty list; the history appears exactly when there is one |
| Chat.TurnRecord | pages/Chat.js:213-221 | the record carries the text, the raw response, the language, the advisory's severity, "symptom_check" and the history or an empty list; it meets the schema exactly when the severity is absent or one of the four levels |
| Chat.SessionAfterFailedStore | pages/Chat.js:163-167 | after a failed store, a session whose follow-up array exists keeps that array grown to the history (the push mutates it in place); a session without one, or a turn without history, leaves the session unchanged |
| Chat.FailedStoreKeepsPushedAnswer | pages/Chat.js:163-167 | when the store throws after a follow-up answer, the current session's existing list has grown by exactly that answer and nothing else in the session changed |
| Chat.FollowUpMessage | pages/Chat.js:198-207 | the follow-up bubble has id count + 3 and severity low, and its text is the fixed prefix followed by the question |
| Chat.ErrorMessage | pages/Chat.js:228-235 | the catch block's bubble has id count + 2, severity medium and the connection-trouble text |
| Chat.CompleteTurn | pages/Chat.js:151-236 | a completed turn appends, in order, the user message, the bot message, the error bubble when the store failed, and the follow-up when issued; it also fixes the state, prompt, record and session each outcome leaves |
| Chat.Step | pages/Chat.js:147-239 | blank text is a no-op that calls nothing; any other text makes the call a completed turn with everything `Chat.CompleteTurn` states (state, appended messages, prompt, record and session for each outcome); its own clauses restate the messages, follow-up decision, count, prompt and record in terms of the chosen text |
| Chat.StepKeepsFollowUpConsistent | pages/Chat.js:193-211 | every turn leaves the count equal to the awaiting flag, so the count condition is implied by the flag condition |
| Chat.NoFollowUpTwiceInARow | pages/Chat.js:193-211 | of two consecutive completed turns, at most one issues a follow-up |
| Chat.AnswerCarriesHistory | pages/Chat.js:162-169 | an answer to a follow-up is sent and stored with the session's pairs plus the answer |
| Chat.ChosenLanguageIsUsed | pages/Chat.js:249-250 | after choosing a language, the next turn's prompt (line 79) and record (line 217) name that language |
| Chat.TypedTextIsSent | pages/Chat.js:323-327 | submitting blank typed text changes nothing; otherwise the user message is the trimmed text |
| Chat.TurnRecordValid | Entities/ChatSession.js:32-57 | a turn's record satisfies the schema exactly when the advisory's severity is absent or allowed; the fallback's always does |
| Chat.StoredTurnKeepsIds | pages/Chat.js:151-207 | when the store succeeds, ids stay equal to positions |
| Chat.StoreFailureRepeatsBotId | pages/Chat.js:226-235 | when the store throws, the error bubble repeats the bot message's id, so ids stop being positions |
| Chat.StoreFailureExample | pages/Chat.js:226-235 | after the welcome, a quick reply whose gateway and store calls both fail yields ids 2, 3, 3 |
| Chat.StepFixed | pages/Chat.js:183-235 | the corrected turn: the same messages, state, prompt and record as the handler, with appended ids numbered by position, so ids stay positions |
| Chat.StepFixedAgreesWhenStored | pages/Chat.js:183-224 | the correction coincides with the handler whenever the store succeeds |
| ChatRun.Apply | pages/Chat.js:241-257 | mount, profile load, typing and language choice leave the follow-up state alone; a send is the corrected turn and reports whether it issued a follow-up |
| ChatRun.SentFlagIsHandlers | pages/Chat.js:193-211 | a send under the corrected numbering completes, issues a follow-up and sets the count exactly as the handler as written does |
| ChatRun.ApplyFollowUp | pages/Chat.js:193-211 | any event keeps the count consistent and issues no follow-up while one is awaited |
| ChatRun.NoConsecutiveFollowUps | pages/Chat.js:193-211 | over any event sequence, no two consecutive completed turns both issue a follow-up |
| ChatRun.FlagRecordsLastTurn | pages/Chat.js:193-211 | after any event sequence, the awaiting flag says whether the last completed turn issued a follow-up |
| ChatRun.IdsStayPositions | pages/Chat.js:151-235 | under the corrected numbering, every event sequence keeps ids equal to positions |
| ChatRun.FollowUpOffersQuickReplies | component/chat/chatMessages.js:92-119 | the follow-up bubble offers Yes, No, Sometimes and has no severity header |
| ChatRun.FallbackBubble | component/chat/chatMessages.js:38-68 | on a gateway failure the bot bubble shows the fallback text and doctor note, is yellow and carries the "Advisory" header without icon |
| Profile.LoadProfile | pages/profile.js:28-42 | a failed lookup leaves the form; otherwise each missing field takes its default ("english" for the language, an empty list for conditions), the language is never empty, and the age is the stored number when it is non-zero and "" otherwise |
| Profile.SaveBeforeLoad | pages/profile.js:13-20 | saving the initial form, or a form whose load failed, sends a null age, English and empty fields |
| Profile.SaveRequest | pages/profile.js:44-50 | the payload copies every field, and the age is null exactly when the field is falsy |
| Profile.LoadThenSave | pages/profile.js:28-50 | loading a fully filled-in user and saving writes back the same values |
| Profile.AddMedicalCondition | pages/profile.js:58-66 | a non-empty, unlisted trimmed condition is appended and the field cleared, otherwise nothing changes; no other value enters the list, and a list without duplicates keeps none |
| Profile.RemoveMedicalCondition | pages/profile.js:68-73 | the result holds exactly the listed values other than the removed one, and a value not listed leaves the list unchanged |
| Profile.RemoveDistributes | pages/profile.js:68-73 | removal filters element by element, so it distributes over concatenation and keeps order |
| Profile.RemoveUndoesAdd | pages/profile.js:58-73 | removing a condition just added restores the list |
| Profile.RemoveKeepsNoDuplicates | pages/profile.js:68-73 | removal keeps a list without duplicates without duplicates |
| Healthcare.TypeColor | pages/healthcare.js:90-97 | each of the three known types, in any letter case, gets its own badge, and every other type the grey default |
| Healthcare.TypeColorIgnoresCase | pages/healthcare.js:90-91 | two types equal up to case get the same badge |
| Healthcare.ListedKindsHaveBadges | pages/healthcare.js:90-97 | the three types as the directory spells them get specific badges |
| Healthcare.FacilitiesHaveKnownTypes | pages/healthcare.js:13-74 | every listed facility gets a specific badge |
| Healthcare.SearchQuery | pages/healthcare.js:76-80 | the query is the type, " near ", then the location, or "current location" when it is empty |
| Healthcare.SearchQueryInjective | pages/healthcare.js:78 | two non-empty locations giving the same query are equal |
| Healthcare.CallLink | pages/healthcare.js:82-84 | the dial link is "tel:" followed by the unchanged phone |

## Left out

- Rendering: JSX, layout classes other than the bubble and badge classes above, scrolling and the loading indicator are not modelled.
- The `isLoading` flag disables only the text field and the send button. The model runs turns one after another and does not track the flag.
- Concurrent sends are not modelled. The quick-reply buttons (`component/chat/chatMessages.js:94-117`) are never disabled and stay under every earlier "may I ask" bubble. So a quick reply can start a send while another is in flight. That send captures a message count without the first turn's bot message, which duplicates an id. It can also push a second answer onto the same `follow_up_questions` array.
- Timing:
  - The 1500 ms delay before the follow-up bubble is not modelled; the follow-up is appended at the end of its turn.
  - On the store-failure path the error bubble is placed before the follow-up. In the page the order depends on whether the store fails within the delay.
  - A send started before a pending follow-up appears captures a count that misses it, which can duplicate ids. This depends on timing and is not modelled.
- Timestamps on messages are not modelled.
- The gateway is opaque. Modelled replies have a string `response`, a string or absent severity (an absent one, or one outside the enumeration, throws nowhere and is covered by `Chat.TurnRecordValid`), an optional string follow-up question and emergency action, and a boolean `see_doctor`. Not modelled are:
  - a null or undefined result, which throws in the handler at `aiResponse.response` (`pages/Chat.js:171`);
  - a non-string `response`, which throws later in the bubble's `message.includes` (`component/chat/chatMessages.js:92`);
  - non-string values in the other fields, which JavaScript would coerce.
- The prompt's fixed instruction text is not modelled. Conditions are kept as the list that `join(', ')` prints.
- JsText.ToLower: maps only ASCII letters. Outside ASCII the only characters whose JavaScript lower case contains an ASCII letter are U+212A (to "k") and U+0130 (to "i" plus a combining dot). None of the three known types contains a "k", and the combining dot never matches. So a type matches a known type here exactly when it does in JavaScript.
- Strings are sequences of Unicode scalar values, not UTF-16 code units. No modelled operation depends on the difference.
- Profile.SaveRequest: `parseInt` is kept symbolic as `ParseIntOf(field)` and its numeric result is not computed.
- Profile.LoadProfile: a stored age that is a number other than a non-zero integer (NaN, a string) is not modelled.
- ChatMessages.SpeechLocale: JavaScript property lookup also finds inherited names such as "constructor". The language always comes from the catalog, so this is not modelled.
- Speech synthesis itself (rate, pitch, play state) and `VoiceInput` are not modelled; a voice transcript is `Chat.SetInput`.
- `window.open`, `encodeURIComponent` and `getDirections`: opening URLs is I/O, and `getDirections` only passes the address through. The map query and dial link are modelled before encoding.
- The facility ratings are kept in tenths (4.5 as 45) to avoid reals. They take part in no property.
- Profile field setters, the state list, the save alerts and the emergency, layout and health-content files are outside this core.
- Profile write-back failures are swallowed (`Chat.ChangeLanguage`). The profile page's own save outcome only chooses an alert.

## Findings

| source | as written | input that shows it | evidently intended | confidence | as-written member | corrected member |
|---|---|---|---|---|---|---|
| pages/Chat.js:226-235 | the catch block numbers its error bubble `messages.length + 2`, but when `ChatSession.create` throws, the bot message already holds that id | right after the welcome, send "Yes" and let `ChatSession.create` throw: the ids become 1, 2, 3, 3 | each bubble gets an id of its own (the ids are React keys), numbered by position | high; not executed | Chat.StoreFailureRepeatsBotId | Chat.StepFixed |

`Chat.Step` models the handler as written, and `Chat.StoreFailureExample` exhibits the duplicate. `Chat.StepFixed` numbers the appended bubbles by position. `Chat.StepFixedAgreesWhenStored` shows it coincides with the handler whenever the store succeeds. `ChatRun` uses the corrected turn, and `ChatRun.IdsStayPositions` proves ids stay equal to positions across any event sequence.
