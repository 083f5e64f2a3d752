/** services/translation_service.py: translation through the language
    model with a prefix-keyed cache, the fixed UI string tables, and the
    validation of a detected language code. */
module Translation {
  import opened Common

  /** `TranslationService.LANGUAGES` */
  const Languages: map<string, string> := map["en" := "English", "hi" := "Hindi", "te" := "Telugu"]

  /** How many characters of the text enter the cache key. */
  const KeyPrefixLength: nat := 50

  /** `f"{source_language}:{target_language}:{text[:50]}"` */
  function CacheKey(source: string, target: string, text: string): string
  {
    source + ":" + target + ":" + Take(text, KeyPrefixLength)
  }

  /** Texts that agree on their first 50 characters share a cache key. */
  lemma CacheKeyPrefix(source: string, target: string, a: string, b: string)
    requires Take(a, KeyPrefixLength) == Take(b, KeyPrefixLength)
    ensures CacheKey(source, target, a) == CacheKey(source, target, b)
  {
  }

  /** For language codes without ':', the key determines the language
      pair and the 50-character prefix: different pairs never collide. */
  lemma CacheKeySeparates(s1: string, t1: string, x1: string, s2: string, t2: string, x2: string)
    requires ':' !in s1 && ':' !in t1 && ':' !in s2 && ':' !in t2
    requires CacheKey(s1, t1, x1) == CacheKey(s2, t2, x2)
    ensures s1 == s2 && t1 == t2 && Take(x1, KeyPrefixLength) == Take(x2, KeyPrefixLength)
  {
    var k := CacheKey(s1, t1, x1);
    var r1 := t1 + ":" + Take(x1, KeyPrefixLength);
    var r2 := t2 + ":" + Take(x2, KeyPrefixLength);
    assert k == s1 + ":" + r1 == s2 + ":" + r2;
    FirstColonSplits(s1, r1);
    FirstColonSplits(s2, r2);
    assert r1 == r2;
    FirstColonSplits(t1, Take(x1, KeyPrefixLength));
    FirstColonSplits(t2, Take(x2, KeyPrefixLength));
  }

  lemma FirstColonSplits(a: string, b: string)
    requires ':' !in a
    ensures ':' in a + ":" + b
    ensures FirstIndex(a + ":" + b, ':') == |a|
    ensures (a + ":" + b)[..|a|] == a && (a + ":" + b)[|a| + 1..] == b
  {
    assert (a + ":" + b)[|a|] == ':';
  }

  /** The outcome of one `translate` call: the text returned and the cache after it. */
  datatype Outcome = Outcome(text: string, cache: map<string, string>)

  /** `translate(text, target_language, source_language)` against a cache. */
  function Translated(cache: map<string, string>, model: Model, text: string, target: string,
                      source: string): Outcome
  {
    if source == target || target !in Languages then Outcome(text, cache)
    else
      var key := CacheKey(source, target, text);
      if key in cache then Outcome(cache[key], cache)
      else
        var sourceName := if source in Languages then Languages[source] else "English";
        match model(TranslatePrompt(text, sourceName, Languages[target]))
        case Answer(t) => Outcome(Strip(t), cache[key := Strip(t)])
        case Raised(_) => Outcome(text, cache)
  }

  /** Short-circuits: the same language on both sides, or an unsupported
      target, give the text back and leave the cache alone, whatever the
      model would answer. */
  lemma ShortCircuit(cache: map<string, string>, model: Model, text: string, target: string, source: string)
    requires source == target || target !in {"en", "hi", "te"}
    ensures Translated(cache, model, text, target, source) == Outcome(text, cache)
  {
  }

  /** A cache hit answers without asking the model: any two models give the same outcome. */
  lemma CacheHitIgnoresModel(cache: map<string, string>, m1: Model, m2: Model, text: string,
                             target: string, source: string)
    requires source != target && target in Languages
    requires CacheKey(source, target, text) in cache
    ensures Translated(cache, m1, text, target, source) == Translated(cache, m2, text, target, source)
    ensures Translated(cache, m1, text, target, source).text == cache[CacheKey(source, target, text)]
  {
  }

  /** A stored entry is never changed or removed: the cache only grows. */
  lemma CacheOnlyGrows(cache: map<string, string>, model: Model, text: string, target: string, source: string)
    ensures var after := Translated(cache, model, text, target, source).cache;
      forall k :: k in cache ==> k in after && after[k] == cache[k]
  {
  }

  /** A failing model gives the original text back and stores nothing. */
  lemma FailureKeepsText(cache: map<string, string>, model: Model, text: string, target: string, source: string)
    requires source != target && target in Languages && CacheKey(source, target, text) !in cache
    requires model(TranslatePrompt(text, if source in Languages then Languages[source] else "English",
                                   Languages[target])).Raised?
    ensures Translated(cache, model, text, target, source) == Outcome(text, cache)
  {
  }

  /** Once a text has been translated, a later call for any text with the
      same first 50 characters returns that translation, whatever the
      model would answer then. */
  lemma SharedPrefixSharesTranslation(cache: map<string, string>, m1: Model, m2: Model, a: string, b: string,
                                      target: string, source: string)
    requires source != target && target in Languages
    requires Take(a, KeyPrefixLength) == Take(b, KeyPrefixLength)
    requires var sourceName := if source in Languages then Languages[source] else "English";
      m1(TranslatePrompt(a, sourceName, Languages[target])).Answer?
    ensures var first := Translated(cache, m1, a, target, source);
      Translated(first.cache, m2, b, target, source).text == first.text
  {
    CacheKeyPrefix(source, target, a, b);
  }

  /** The translator, holding its cache across calls. */
  class TranslationService {
    var cache: map<string, string>

    constructor ()
      ensures cache == map[]
    {
      cache := map[];
    }

    /** translate: the short-circuits, then the cache, then the model. */
    method Translate(model: Model, text: string, target: string, source: string := "en")
      returns (r: string)
      modifies this
      ensures Outcome(r, cache) == Translated(old(cache), model, text, target, source)
    {
      if source == target {
        return text;
      }
      if target !in Languages {
        return text;
      }
      var key := source + ":" + target + ":" + Take(text, KeyPrefixLength);
      if key in cache {
        return cache[key];
      }
      var sourceName := if source in Languages then Languages[source] else "English";
      match model(TranslatePrompt(text, sourceName, Languages[target]))
      case Answer(t) =>
        r := Strip(t);
        cache := cache[key := r];
      case Raised(_) =>
        r := text;
    }
  }

  // ---------------------------------------------------------------------
  // UI strings

  /** The keys of every UI table, in the order the source lists them. */
  const UiKeys: seq<string> := [
    "welcome",
    "get_support",
    "admin_dashboard",
    "home",
    "your_name",
    "email_optional",
    "start_chat",
    "type_message",
    "send",
    "return_product",
    "create_ticket",
    "request_call",
    "upload_document",
    "analytics",
    "knowledge_base",
    "customer_conversations",
    "all",
    "active",
    "resolved",
    "ai_assistant_online",
    "no_documents",
    "no_conversations",
    "today_conversations",
    "total_documents",
    "active_chats",
    "avg_response_time",
    "cancel",
    "confirm",
    "close",
    "delete",
    "view",
    "export"
  ]

  /** The English texts, one per key of `UiKeys`. */
  const UiEnText: seq<string> := [
    "Welcome to SupportGenie!",
    "Get Support Now",
    "Admin Dashboard",
    "Home",
    "Your Name",
    "Email (Optional)",
    "Start Chat",
    "Type your message...",
    "Send",
    "Return Product",
    "Create Ticket",
    "Request Call",
    "Upload Document",
    "Analytics",
    "Knowledge Base",
    "Customer Conversations",
    "All",
    "Active",
    "Resolved",
    "AI Assistant - Online",
    "No documents uploaded yet",
    "No conversations yet",
    "Today's Conversations",
    "Total Documents",
    "Active Chats",
    "Avg Response Time",
    "Cancel",
    "Confirm",
    "Close",
    "Delete",
    "View",
    "Export"
  ]

  /** The Hindi texts, one per key of `UiKeys`. */
  const UiHiText: seq<string> := [
    "SupportGenie में आपका स्वागत है!",
    "अभी सहायता प्राप्त करें",
    "प्रशासन डैशबोर्ड",
    "होम",
    "आपका नाम",
    "ईमेल (वैकल्पिक)",
    "चैट शुरू करें",
    "अपना संदेश टाइप करें...",
    "भेजें",
    "उत्पाद वापस करें",
    "टिकट बनाएं",
    "कॉल का अनुरोध करें",
    "दस्तावेज़ अपलोड करें",
    "विश्लेषण",
    "ज्ञान आधार",
    "ग्राहक वार्तालाप",
    "सभी",
    "सक्रिय",
    "हल किया गया",
    "AI सहायक - ऑनलाइन",
    "अभी तक कोई दस्तावेज़ अपलोड नहीं किया गया",
    "अभी तक कोई वार्तालाप नहीं",
    "आज की बातचीत",
    "कुल दस्तावेज़",
    "सक्रिय चैट",
    "औसत प्रतिक्रिया समय",
    "रद्द करें",
    "पुष्टि करें",
    "बंद करें",
    "हटाएं",
    "देखें",
    "निर्यात करें"
  ]

  /** The Telugu texts, one per key of `UiKeys`. */
  const UiTeText: seq<string> := [
    "SupportGenie కి స్వాగతం!",
    "ఇప్పుడే మద్దతు పొందండి",
    "అడ్మిన్ డాష్‌బోర్డ్",
    "హోమ్",
    "మీ పేరు",
    "ఇమెయిల్ (ఐచ్ఛికం)",
    "చాట్ ప్రారంభించండి",
    "మీ సందేశాన్ని టైప్ చేయండి...",
    "పంపండి",
    "ఉత్పత్తిని తిరిగి ఇవ్వండి",
    "టికెట్ సృష్టించండి",
    "కాల్ అభ్యర్థించండి",
    "పత్రాన్ని అప్‌లోడ్ చేయండి",
    "విశ్లేషణలు",
    "జ్ఞాన స్థావరం",
    "కస్టమర్ సంభాషణలు",
    "అన్నీ",
    "క్రియాశీల",
    "పరిష్కరించబడింది",
    "AI అసిస్టెంట్ - ఆన్‌లైన్",
    "ఇంకా పత్రాలు అప్‌లోడ్ చేయలేదు",
    "ఇంకా సంభాషణలు లేవు",
    "నేటి సంభాషణలు",
    "మొత్తం పత్రాలు",
    "క్రియాశీల చాట్‌లు",
    "సగటు ప్రతిస్పందన సమయం",
    "రద్దు చేయండి",
    "నిర్ధారించండి",
    "మూసివేయండి",
    "తొలగించండి",
    "చూడండి",
    "ఎగుమతి చేయండి"
  ]

  /** Position of a key in `UiKeys`. */
  function KeyIndex(k: string): (i: nat)
    requires k in UiKeys
    ensures i < |UiKeys| && UiKeys[i] == k
  {
    KeyIndexFrom(k, 0)
  }

  function KeyIndexFrom(k: string, from: nat): (i: nat)
    requires from <= |UiKeys| && k in UiKeys[from..]
    ensures from <= i < |UiKeys| && UiKeys[i] == k
    decreases |UiKeys| - from
  {
    if UiKeys[from] == k then from else KeyIndexFrom(k, from + 1)
  }

  /** One UI table: each key mapped to the text at its position. */
  function UiTable(texts: seq<string>): (t: map<string, string>)
    requires |texts| == |UiKeys|
    ensures forall k :: k in t <==> k in UiKeys
  {
    map k | k in UiKeys :: texts[KeyIndex(k)]
  }

  const UiEn: map<string, string> := UiTable(UiEnText)
  const UiHi: map<string, string> := UiTable(UiHiText)
  const UiTe: map<string, string> := UiTable(UiTeText)

  /** `get_ui_translations(language)`: the table of the language, the
      English one for any other code.  Every table offers the same keys. */
  function UiTranslations(language: string): (r: map<string, string>)
    ensures r.Keys == UiEn.Keys
    ensures language !in {"hi", "te"} ==> r == UiEn
  {
    UiTablesAgree();
    if language == "hi" then UiHi else if language == "te" then UiTe else UiEn
  }

  /** The three UI tables offer the same keys. */
  lemma UiTablesAgree()
    ensures UiHi.Keys == UiEn.Keys && UiTe.Keys == UiEn.Keys
  {
  }

  // ---------------------------------------------------------------------
  // detect_language

  /** detect_language: the stripped, lowercased answer when it is a
      supported code, otherwise 'en'; 'en' when the model raises. */
  function DetectLanguage(model: Model, text: string): (code: string)
    ensures code in Languages
    ensures model(LanguagePrompt(text)).Raised? ==> code == "en"
    ensures model(LanguagePrompt(text)).Answer? && Lower(Strip(model(LanguagePrompt(text)).text)) in Languages ==>
      code == Lower(Strip(model(LanguagePrompt(text)).text))
    ensures model(LanguagePrompt(text)).Answer? && Lower(Strip(model(LanguagePrompt(text)).text)) !in Languages ==>
      code == "en"
    ensures code != "en" ==> model(LanguagePrompt(text)).Answer?
  {
    match model(LanguagePrompt(text))
    case Raised(_) => "en"
    case Answer(t) =>
      var detected := Lower(Strip(t));
      if detected in Languages then detected else "en"
  }
}
