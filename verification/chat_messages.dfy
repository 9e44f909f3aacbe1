/**
 * The message bubble's pure lookups: severity styling, the severity header,
 * the quick-reply trigger and the speech-synthesis locale.
 */
module ChatMessages {
  import opened Wrappers
  import JsText
  import LanguageSelector

  /** The `severity` prop: an absent severity renders as "low". */
  function EffectiveSeverity(severity: Option<string>): (r: string)
    ensures severity.Some? ==> r == severity.value
    ensures severity.None? ==> r == "low"
  {
    severity.GetOr("low")
  }

  /** Bubble border and background classes for a bot message. */
  function SeverityColor(severity: string): (r: string)
    ensures severity == "emergency" <==> r == "border-red-200 bg-red-50"
    ensures severity == "high" <==> r == "border-orange-200 bg-orange-50"
    ensures severity == "medium" <==> r == "border-yellow-200 bg-yellow-50"
    ensures severity !in {"emergency", "high", "medium"} <==> r == DefaultColor
  {
    match severity
    case "emergency" => "border-red-200 bg-red-50"
    case "high" => "border-orange-200 bg-orange-50"
    case "medium" => "border-yellow-200 bg-yellow-50"
    case _ => DefaultColor
  }

  const DefaultColor := "border-gray-200 bg-white"

  datatype Icon = Icon(glyph: Glyph, colorClass: string)
  datatype Glyph = Phone | AlertTriangle

  /** The header icon: a red phone for emergencies, an orange triangle for high, none otherwise. */
  function SeverityIcon(severity: string): (r: Option<Icon>)
    ensures r.Some? <==> severity in {"emergency", "high"}
    ensures severity == "emergency" ==> r == Some(Icon(Phone, "w-4 h-4 text-red-500"))
    ensures severity == "high" ==> r == Some(Icon(AlertTriangle, "w-4 h-4 text-orange-500"))
  {
    if severity == "emergency" then Some(Icon(Phone, "w-4 h-4 text-red-500"))
    else if severity == "high" then Some(Icon(AlertTriangle, "w-4 h-4 text-orange-500"))
    else None
  }

  datatype Header = Header(icon: Option<Icon>, title: string, titleClass: string)

  /** The severity header above a bot message; user messages and "low" severity get none. */
  function SeverityHeader(isBot: bool, severity: string): (r: Option<Header>)
    ensures r.Some? <==> isBot && severity != "low"
    ensures r.Some? ==> r.value.icon == SeverityIcon(severity)
    ensures r.Some? && severity == "emergency" ==> r.value.title == "Emergency Alert" && r.value.titleClass == "text-red-600"
    ensures r.Some? && severity == "high" ==> r.value.title == "Important" && r.value.titleClass == "text-orange-600"
    ensures r.Some? && severity !in {"emergency", "high"} ==> r.value.title == "Advisory" && r.value.titleClass == "text-yellow-600"
  {
    if isBot && severity != "low" then
      Some(Header(
        SeverityIcon(severity),
        if severity == "emergency" then "Emergency Alert" else if severity == "high" then "Important" else "Advisory",
        if severity == "emergency" then "text-red-600" else if severity == "high" then "text-orange-600" else "text-yellow-600"))
    else None
  }

  /** The phrase whose presence in a bot message offers quick replies. */
  const QuickReplyMarker := "may I ask"

  const QuickReplyOptions: seq<string> := ["Yes", "No", "Sometimes"]

  /** The quick-reply buttons under a message, in display order. */
  function QuickReplies(text: string, isBot: bool, hasHandler: bool): (r: seq<string>)
    ensures r == QuickReplyOptions <==> JsText.Contains(text, QuickReplyMarker) && isBot && hasHandler
    ensures r != QuickReplyOptions ==> r == []
  {
    if JsText.Contains(text, QuickReplyMarker) && isBot && hasHandler then QuickReplyOptions else []
  }

  /** The `languageCodes` table of `speakMessage`. */
  const SpeechLocales: map<string, string> := map[
    "english" := "en-IN",
    "hindi" := "hi-IN",
    "tamil" := "ta-IN",
    "telugu" := "te-IN",
    "bengali" := "bn-IN",
    "marathi" := "mr-IN",
    "gujarati" := "gu-IN",
    "kannada" := "kn-IN",
    "malayalam" := "ml-IN",
    "punjabi" := "pa-IN"
  ]

  /** `languageCodes[language] || 'en-IN'`. */
  function SpeechLocale(language: string): (r: string)
    ensures language in SpeechLocales ==> r == SpeechLocales[language]
    ensures language !in SpeechLocales ==> r == "en-IN"
    ensures r in SpeechLocales.Values
  {
    assert SpeechLocales["english"] == "en-IN";
    if language in SpeechLocales && SpeechLocales[language] != "" then SpeechLocales[language] else "en-IN"
  }

  /** Every catalog language has a locale of the form `xx-IN`; only Odia and Assamese fall back to English's. */
  lemma CatalogSpeechLocales(i: nat)
    requires i < |LanguageSelector.Catalog|
    ensures var code := LanguageSelector.Catalog[i].code;
      && |SpeechLocale(code)| == 5 && SpeechLocale(code)[2..] == "-IN"
      && (SpeechLocale(code) == "en-IN" <==> code in {"english", "odia", "assamese"})
  {
  }

  /** What a message bubble shows, apart from its text. */
  datatype Bubble = Bubble(bubbleClass: string, header: Option<Header>, quickReplies: seq<string>)

  /** The bubble for one message, given whether a quick-reply handler is supplied. */
  function RenderBubble(text: string, isBot: bool, severity: Option<string>, hasHandler: bool): (r: Bubble)
    ensures isBot ==> r.bubbleClass == "bot-bubble " + SeverityColor(EffectiveSeverity(severity))
    ensures !isBot ==> r.bubbleClass == UserBubbleClass && r.header.None? && r.quickReplies == []
    ensures r.header.Some? <==> isBot && EffectiveSeverity(severity) != "low"
    ensures |r.quickReplies| > 0 <==> isBot && hasHandler && JsText.Contains(text, QuickReplyMarker)
  {
    var sev := EffectiveSeverity(severity);
    Bubble(
      if isBot then "bot-bubble " + SeverityColor(sev) else UserBubbleClass,
      SeverityHeader(isBot, sev),
      QuickReplies(text, isBot, hasHandler))
  }

  const UserBubbleClass := "chat-bubble bg-indigo-500 text-white border-indigo-500"
}
