/** services/gemini_service.py: prompt assembly around the language model,
    the parsing of the classifier's answer, and the fixed fallbacks used
    when the model call raises.  The model itself is the `Model` oracle. */
module Gemini {
  import opened Common
  import opened Store

  /** process_document sends at most this many characters of the text. */
  const MaxDocumentChars: nat := 15000
  /** generate_response sends at most this many characters per document. */
  const MaxContextCharsPerDocument: nat := 3000
  /** generate_response sends at most this many history messages. */
  const HistoryWindow: nat := 5

  const FallbackIntent: string := "general_query"
  const DefaultConfidence: string := "medium"

  // ---------------------------------------------------------------------
  // Languages and fixed replies

  /** `language_names.get(language, 'English')` */
  function LanguageName(code: string): (name: string)
    ensures name in {"English", "Hindi", "Telugu"}
    ensures code == "hi" <==> name == "Hindi"
    ensures code == "te" <==> name == "Telugu"
  {
    if code == "hi" then "Hindi" else if code == "te" then "Telugu" else "English"
  }

  const ReplyApologyEn: string := "I apologize, but I'm having trouble processing your request right now. Could you please try again? 😊"
  const ReplyApologyHi: string := "मुझे खेद है, लेकिन मुझे अभी आपके अनुरोध को संसाधित करने में परेशानी हो रही है। क्या आप कृपया पुनः प्रयास कर सकते हैं? 😊"
  const ReplyApologyTe: string := "క్షమించండి, కానీ నేను ప్రస్తుతం మీ అభ్యర్థనను ప్రాసెస్ చేయడంలో ఇబ్బంది పడుతున్నాను. దయచేసి మళ్లీ ప్రయత్నించగలరా? 😊"

  /** The reply generate_response gives when the model raises:
      `error_messages.get(language, error_messages['en'])`. */
  function ReplyApology(code: string): string
  {
    if code == "hi" then ReplyApologyHi else if code == "te" then ReplyApologyTe else ReplyApologyEn
  }

  // ---------------------------------------------------------------------
  // process_document and draft_email

  /** The structured text of a document: the model's answer, or the error
      text when it raises.  Only the first 15000 characters are sent. */
  function StructureDocument(model: Model, text: string): string
  {
    match model(StructurePrompt(Take(text, MaxDocumentChars)))
    case Answer(t) => t
    case Raised(d) => "Error processing document: " + d
  }

  /** Two texts that agree on their first 15000 characters are structured alike. */
  lemma StructureSeesOnlyPrefix(model: Model, a: string, b: string)
    requires Take(a, MaxDocumentChars) == Take(b, MaxDocumentChars)
    ensures StructureDocument(model, a) == StructureDocument(model, b)
  {
  }

  /** When the model raises, the structured text is the error text. */
  lemma StructureFailure(model: Model, text: string, detail: string)
    requires model(StructurePrompt(Take(text, MaxDocumentChars))) == Raised(detail)
    ensures StructureDocument(model, text) == "Error processing document: " + detail
  {
  }

  /** The drafted email: the model's answer to the drafting prompt, or a
      fixed error text when the call raises. */
  function DraftEmail(model: Model, context: string, purpose: string): string
  {
    match model(DraftPrompt(context, purpose))
    case Answer(t) => t
    case Raised(_) => "Error drafting email"
  }

  /** When the model answers, the draft is its answer, verbatim. */
  lemma DraftAnswer(model: Model, context: string, purpose: string, text: string)
    requires model(DraftPrompt(context, purpose)) == Answer(text)
    ensures DraftEmail(model, context, purpose) == text
  {
  }

  /** When the model raises, the draft is the fixed error text, whatever the
      error said. */
  lemma DraftFailure(model: Model, context: string, purpose: string, detail: string)
    requires model(DraftPrompt(context, purpose)) == Raised(detail)
    ensures DraftEmail(model, context, purpose) == "Error drafting email"
  {
  }

  // ---------------------------------------------------------------------
  // generate_response

  const KnowledgeHeader: string := "\n\n=== KNOWLEDGE BASE ===\n"
  const HistoryHeader: string := "\n\n=== CONVERSATION HISTORY ===\n"

  function ContextEntry(doc: SearchHit): string
  {
    "\nDocument: " + doc.filename + "\n" + Take(doc.content, MaxContextCharsPerDocument) + "\n---\n"
  }

  function ContextEntries(docs: seq<SearchHit>): string
  {
    if docs == [] then "" else ContextEntries(docs[..|docs| - 1]) + ContextEntry(docs[|docs| - 1])
  }

  /** The knowledge-base section of the prompt; empty when there are no documents. */
  function ContextText(docs: seq<SearchHit>): string
  {
    if docs == [] then "" else KnowledgeHeader + ContextEntries(docs)
  }

  function HistoryLine(msg: MessageRow): string
  {
    Upper(msg.sender) + ": " + msg.message + "\n"
  }

  function HistoryLines(msgs: seq<MessageRow>): string
  {
    if msgs == [] then "" else HistoryLines(msgs[..|msgs| - 1]) + HistoryLine(msgs[|msgs| - 1])
  }

  /** The history section of the prompt: the last five messages only. */
  function HistoryText(history: seq<MessageRow>): string
  {
    if history == [] then ""
    else HistoryHeader + HistoryLines(LastN(history, HistoryWindow))
  }

  /** The prompt generate_response builds. */
  function ReplyPromptFor(userMessage: string, docs: seq<SearchHit>, history: seq<MessageRow>, language: string)
    : Prompt
  {
    ReplyPrompt(ContextText(docs), HistoryText(history), userMessage, LanguageName(language))
  }

  /** The reply generate_response returns. */
  function ReplyFor(model: Model, userMessage: string, docs: seq<SearchHit>, history: seq<MessageRow>,
                    language: string): string
  {
    match model(ReplyPromptFor(userMessage, docs, history, language))
    case Answer(t) => t
    case Raised(_) => ReplyApology(language)
  }

  method BuildContextText(docs: seq<SearchHit>) returns (text: string)
    ensures text == ContextText(docs)
  {
    text := "";
    if docs != [] {
      text := KnowledgeHeader;
      for i := 0 to |docs|
        invariant text == KnowledgeHeader + ContextEntries(docs[..i])
      {
        assert docs[..i + 1][..i] == docs[..i];
        var doc := docs[i];
        var entry := "\nDocument: " + doc.filename + "\n" + Take(doc.content, MaxContextCharsPerDocument) + "\n---\n";
        text := text + entry;
      }
      assert docs[..|docs|] == docs;
    }
  }

  method BuildHistoryText(history: seq<MessageRow>) returns (text: string)
    ensures text == HistoryText(history)
  {
    text := "";
    if history != [] {
      text := HistoryHeader;
      var recent := LastN(history, HistoryWindow);
      for i := 0 to |recent|
        invariant text == HistoryHeader + HistoryLines(recent[..i])
      {
        assert recent[..i + 1][..i] == recent[..i];
        var line := Upper(recent[i].sender) + ": " + recent[i].message + "\n";
        assert HistoryLines(recent[..i + 1]) == HistoryLines(recent[..i]) + line;
        text := text + line;
      }
      assert recent[..|recent|] == recent;
    }
  }

  /** generate_response: the model's answer to the assembled prompt, or the
      fixed apology of the conversation's language when the call raises. */
  method GenerateResponse(model: Model, userMessage: string, docs: seq<SearchHit>,
                          history: seq<MessageRow>, language: string)
    returns (reply: string)
    ensures reply == ReplyFor(model, userMessage, docs, history, language)
  {
    var contextText := BuildContextText(docs);
    var historyText := BuildHistoryText(history);
    var prompt := ReplyPrompt(contextText, historyText, userMessage, LanguageName(language));
    match model(prompt)
    case Answer(t) => reply := t;
    case Raised(_) => reply := ReplyApology(language);
  }

  /** When the model raises, the reply is the fixed apology of the
      conversation's language, the English one for an unknown code. */
  lemma ReplyFailureIsLocalized(model: Model, userMessage: string, docs: seq<SearchHit>,
                                history: seq<MessageRow>, language: string)
    requires model(ReplyPromptFor(userMessage, docs, history, language)).Raised?
    ensures ReplyFor(model, userMessage, docs, history, language) == ReplyApology(language)
    ensures language !in {"hi", "te"} ==>
      ReplyFor(model, userMessage, docs, history, language) == ReplyApologyEn
  {
  }

  function TruncateContent(doc: SearchHit, n: nat): SearchHit
  {
    doc.(content := Take(doc.content, n))
  }

  function TruncateAll(docs: seq<SearchHit>, n: nat): (r: seq<SearchHit>)
    ensures |r| == |docs|
    ensures forall i :: 0 <= i < |docs| ==> r[i] == TruncateContent(docs[i], n)
  {
    seq(|docs|, i requires 0 <= i < |docs| => TruncateContent(docs[i], n))
  }

  /** Nothing past the first 3000 characters of a document's content ever
      reaches the prompt: cutting every document there changes nothing. */
  lemma {:induction false} ContextSeesOnlyPrefixes(docs: seq<SearchHit>)
    ensures ContextEntries(TruncateAll(docs, MaxContextCharsPerDocument)) == ContextEntries(docs)
    ensures ContextText(TruncateAll(docs, MaxContextCharsPerDocument)) == ContextText(docs)
  {
    if docs != [] {
      var t := TruncateAll(docs, MaxContextCharsPerDocument);
      var init := docs[..|docs| - 1];
      assert t[..|t| - 1] == TruncateAll(init, MaxContextCharsPerDocument);
      ContextSeesOnlyPrefixes(init);
      var last := docs[|docs| - 1];
      assert Take(Take(last.content, MaxContextCharsPerDocument), MaxContextCharsPerDocument)
          == Take(last.content, MaxContextCharsPerDocument);
    }
  }

  /** Two histories that end in the same five messages give the same
      history section, so older messages never reach the prompt. */
  lemma HistorySeesOnlyLastFive(a: seq<MessageRow>, b: seq<MessageRow>)
    requires a != [] && b != []
    requires LastN(a, HistoryWindow) == LastN(b, HistoryWindow)
    ensures HistoryText(a) == HistoryText(b)
  {
  }

  // ---------------------------------------------------------------------
  // detect_intent: parsing the classifier's answer

  /** Length of the leading run of characters satisfying `\s`. */
  function SpaceRun(s: string): (n: nat)
    ensures n <= |s|
    ensures forall i :: 0 <= i < n ==> IsSpace(s[i])
    ensures n < |s| ==> !IsSpace(s[n])
  {
    if s != [] && IsSpace(s[0]) then 1 + SpaceRun(s[1..]) else 0
  }

  /** Length of the leading run of characters satisfying `\w`. */
  function WordRun(s: string): (n: nat)
    ensures n <= |s|
    ensures forall i :: 0 <= i < n ==> IsWordChar(s[i])
    ensures n < |s| ==> !IsWordChar(s[n])
  {
    if s != [] && IsWordChar(s[0]) then 1 + WordRun(s[1..]) else 0
  }

  predicate AllWordChars(s: string)
  {
    forall i :: 0 <= i < |s| ==> IsWordChar(s[i])
  }

  /** The group of `LABEL\s*(\w+)` matched at the very start of `s`.
      Blanks and word characters are disjoint, so the greedy `\s*` never
      has to give anything back. */
  function WordFieldAt(s: string, tag: string): (r: Option<string>)
    ensures r.Some? ==> r.value != [] && AllWordChars(r.value)
  {
    if !StartsWith(s, tag) then None
    else
      var rest := s[|tag|..];
      var k := SpaceRun(rest);
      var w := WordRun(rest[k..]);
      if w == 0 then None else Some(rest[k..k + w])
  }

  /** `re.search(LABEL + r'\s*(\w+)', s)`: the group of the leftmost match. */
  function SearchWordField(s: string, tag: string): (r: Option<string>)
    ensures r.Some? ==> r.value != [] && AllWordChars(r.value)
    decreases |s|
  {
    if WordFieldAt(s, tag).Some? then WordFieldAt(s, tag)
    else if s == [] then None
    else SearchWordField(s[1..], tag)
  }

  /** The search finds the leftmost position where the pattern matches. */
  lemma {:induction false} SearchWordFieldLeftmost(s: string, tag: string)
    ensures SearchWordField(s, tag).Some? ==>
      exists p :: 0 <= p <= |s| && SearchWordField(s, tag) == WordFieldAt(s[p..], tag) &&
        forall q :: 0 <= q < p ==> WordFieldAt(s[q..], tag).None?
    ensures SearchWordField(s, tag).None? ==>
      forall q :: 0 <= q <= |s| ==> WordFieldAt(s[q..], tag).None?
    decreases |s|
  {
    assert s[0..] == s;
    if WordFieldAt(s, tag).None? && s != [] {
      SearchWordFieldLeftmost(s[1..], tag);
      if SearchWordField(s, tag).Some? {
        var p :| 0 <= p <= |s[1..]| && SearchWordField(s[1..], tag) == WordFieldAt(s[1..][p..], tag) &&
          forall q :: 0 <= q < p ==> WordFieldAt(s[1..][q..], tag).None?;
        assert s[1..][p..] == s[p + 1..];
        forall q | 0 <= q < p + 1 ensures WordFieldAt(s[q..], tag).None? {
          if q > 0 { assert s[1..][q - 1..] == s[q..]; }
        }
      } else {
        forall q | 0 <= q <= |s| ensures WordFieldAt(s[q..], tag).None? {
          if q > 0 { assert s[1..][q - 1..] == s[q..]; }
        }
      }
    }
  }

  /** Where the lazy group of `\s*(.+?)(?:\n|$)` starts when the greedy
      `\s*` gives back blanks: the last of the first `k + 1` positions that
      holds a character other than a newline. */
  function CaptureStart(rest: string, k: nat): (r: Option<nat>)
    requires k <= |rest|
    ensures r.Some? ==> r.value <= k && r.value < |rest| && rest[r.value] != '\n'
  {
    if k < |rest| && rest[k] != '\n' then Some(k)
    else if k == 0 then None
    else CaptureStart(rest, k - 1)
  }

  /** The first position after `start` holding a newline, or the end. */
  function LineEnd(rest: string, start: nat): (e: nat)
    requires start < |rest|
    ensures start < e <= |rest|
    ensures forall i :: start < i < e ==> rest[i] != '\n'
    ensures e < |rest| ==> rest[e] == '\n'
    decreases |rest| - start
  {
    if start + 1 == |rest| || rest[start + 1] == '\n' then start + 1 else LineEnd(rest, start + 1)
  }

  /** The group of `LABEL\s*(.+?)(?:\n|$)` matched at the very start of `s`. */
  function LineFieldAt(s: string, tag: string): (r: Option<string>)
    ensures r.Some? ==> r.value != [] && '\n' !in r.value
  {
    if !StartsWith(s, tag) then None
    else
      var rest := s[|tag|..];
      match CaptureStart(rest, SpaceRun(rest))
      case None => None
      case Some(b) => Some(rest[b..LineEnd(rest, b)])
  }

  /** `re.search(LABEL + r'\s*(.+?)(?:\n|$)', s)`: the group of the leftmost match. */
  function SearchLineField(s: string, tag: string): (r: Option<string>)
    ensures r.Some? ==> r.value != [] && '\n' !in r.value
    decreases |s|
  {
    if LineFieldAt(s, tag).Some? then LineFieldAt(s, tag)
    else if s == [] then None
    else SearchLineField(s[1..], tag)
  }

  /** `key, value = pair.split('=', 1)` followed by `.strip()` on each. */
  function EntityKey(pair: string): string
    requires '=' in pair
  {
    Strip(pair[..FirstIndex(pair, '=')])
  }

  function EntityValue(pair: string): string
    requires '=' in pair
  {
    Strip(pair[FirstIndex(pair, '=') + 1..])
  }

  /** The entity dictionary after the pieces have been read in order. */
  function EntityMap(pieces: seq<string>): map<string, string>
  {
    if pieces == [] then map[]
    else
      var m := EntityMap(pieces[..|pieces| - 1]);
      var p := pieces[|pieces| - 1];
      if '=' in p then m[EntityKey(p) := EntityValue(p)] else m
  }

  /** Piece `j` holds '=' and its key is `k`. */
  predicate KeyedAt(pieces: seq<string>, j: int, k: string)
  {
    0 <= j < |pieces| && '=' in pieces[j] && EntityKey(pieces[j]) == k
  }

  /** The keys of the entity dictionary are exactly the keys of the
      pieces that hold '='; pieces without '=' contribute nothing. */
  lemma {:induction false} EntityMapKeys(pieces: seq<string>)
    ensures forall k :: k in EntityMap(pieces) <==> exists j :: KeyedAt(pieces, j, k)
  {
    if pieces != [] {
      var init := pieces[..|pieces| - 1];
      EntityMapKeys(init);
      forall k ensures k in EntityMap(pieces) <==> exists j :: KeyedAt(pieces, j, k)
      {
        if exists j :: KeyedAt(pieces, j, k) {
          var j :| KeyedAt(pieces, j, k);
          if j < |pieces| - 1 {
            assert init[j] == pieces[j];
            assert KeyedAt(init, j, k);
          }
        }
        if k in EntityMap(init) {
          var j :| KeyedAt(init, j, k);
          assert pieces[j] == init[j];
          assert KeyedAt(pieces, j, k);
        } else if k in EntityMap(pieces) {
          assert KeyedAt(pieces, |pieces| - 1, k);
        }
      }
    }
  }

  /** A key maps to the value of the last piece that names it: later
      keys overwrite earlier ones. */
  lemma {:induction false} EntityMapLastWins(pieces: seq<string>, j: nat)
    requires j < |pieces| && '=' in pieces[j]
    requires forall l :: j < l ==> !KeyedAt(pieces, l, EntityKey(pieces[j]))
    ensures EntityKey(pieces[j]) in EntityMap(pieces)
    ensures EntityMap(pieces)[EntityKey(pieces[j])] == EntityValue(pieces[j])
  {
    var init := pieces[..|pieces| - 1];
    if j < |pieces| - 1 {
      assert init[j] == pieces[j];
      forall l | j < l
        ensures !KeyedAt(init, l, EntityKey(init[j]))
      {
        if l < |init| {
          assert init[l] == pieces[l];
          assert !KeyedAt(pieces, l, EntityKey(pieces[j]));
        }
      }
      EntityMapLastWins(init, j);
      assert !KeyedAt(pieces, |pieces| - 1, EntityKey(pieces[j]));
    }
  }

  /** The classifier's answer as detect_intent returns it. */
  datatype Classification = Classification(intent: string, entities: map<string, string>, confidence: string)

  /** The text after 'ENTITIES:' that is split into pairs, if any: none
      when the line is missing or reads 'none' in any letter case. */
  function EntitiesText(text: string): (r: Option<string>)
    ensures r.Some? ==> Lower(r.value) != "none"
  {
    match SearchLineField(text, "ENTITIES:")
    case None => None
    case Some(t) => if Lower(t) == "none" then None else Some(t)
  }

  /** The parse of a classifier answer, as a specification. */
  function Parsed(text: string): Classification
  {
    var intent := match SearchWordField(text, "INTENT:") case Some(w) => w case None => FallbackIntent;
    var confidence := match SearchWordField(text, "CONFIDENCE:") case Some(w) => w case None => DefaultConfidence;
    var entities := match EntitiesText(text) case None => map[] case Some(t) => EntityMap(SplitOn(t, ','));
    Classification(intent, entities, confidence)
  }

  lemma EntityMapStep(pieces: seq<string>, i: nat)
    requires i < |pieces|
    ensures '=' in pieces[i] ==>
      EntityMap(pieces[..i + 1]) == EntityMap(pieces[..i])[EntityKey(pieces[i]) := EntityValue(pieces[i])]
    ensures '=' !in pieces[i] ==> EntityMap(pieces[..i + 1]) == EntityMap(pieces[..i])
  {
    assert pieces[..i + 1][..i] == pieces[..i];
  }

  /** The entity loop of detect_intent. */
  method ParseEntities(entitiesText: string) returns (entities: map<string, string>)
    ensures entities == EntityMap(SplitOn(entitiesText, ','))
  {
    var pairs := SplitOn(entitiesText, ',');
    entities := map[];
    for i := 0 to |pairs|
      invariant entities == EntityMap(pairs[..i])
    {
      EntityMapStep(pairs, i);
      var pair := pairs[i];
      if '=' in pair {
        var cut := FirstIndex(pair, '=');
        entities := entities[Strip(pair[..cut]) := Strip(pair[cut + 1..])];
      }
    }
    assert pairs[..|pairs|] == pairs;
  }

  /** What detect_intent returns for a message. */
  function IntentFor(model: Model, userMessage: string): Classification
  {
    match model(IntentPrompt(userMessage))
    case Answer(text) => Parsed(text)
    case Raised(_) => Classification(FallbackIntent, map[], "low")
  }

  /** detect_intent: the parsed answer, or general_query at low confidence
      with no entities when the model raises. */
  method DetectIntent(model: Model, userMessage: string) returns (c: Classification)
    ensures model(IntentPrompt(userMessage)).Answer? ==> c == Parsed(model(IntentPrompt(userMessage)).text)
    ensures model(IntentPrompt(userMessage)).Raised? ==> c == Classification(FallbackIntent, map[], "low")
    ensures c == IntentFor(model, userMessage)
  {
    match model(IntentPrompt(userMessage))
    case Raised(_) =>
      c := Classification(FallbackIntent, map[], "low");
    case Answer(text) =>
      var intent := FallbackIntent;
      var found := SearchWordField(text, "INTENT:");
      if found.Some? { intent := found.value; }
      var confidence := DefaultConfidence;
      found := SearchWordField(text, "CONFIDENCE:");
      if found.Some? { confidence := found.value; }
      var entities := map[];
      var line := EntitiesText(text);
      if line.Some? {
        entities := ParseEntities(line.value);
      }
      c := Classification(intent, entities, confidence);
  }

  /** A word run followed by a non-word character (or nothing) is read whole. */
  lemma {:induction false} WordRunOf(word: string, tail: string)
    requires AllWordChars(word)
    requires tail == [] || !IsWordChar(tail[0])
    ensures WordRun(word + tail) == |word|
  {
    if word != [] {
      assert (word + tail)[1..] == word[1..] + tail;
      WordRunOf(word[1..], tail);
    } else {
      assert word + tail == tail;
    }
  }

  /** The intent is whatever word follows 'INTENT:', listed intent or not:
      the answer is not checked against the intents the prompt names. */
  lemma IntentIsAnyWord(word: string, tail: string)
    requires word != [] && AllWordChars(word)
    requires tail == [] || !IsWordChar(tail[0])
    ensures Parsed("INTENT: " + word + tail).intent == word
  {
    var s := "INTENT: " + word + tail;
    var rest := s[7..];
    assert s[..7] == "INTENT:";
    assert rest == " " + (word + tail);
    assert rest[1..] == word + tail;
    assert !IsSpace(rest[1]) by { assert rest[1] == word[0]; }
    assert SpaceRun(rest[1..]) == 0;
    assert SpaceRun(rest) == 1;
    WordRunOf(word, tail);
    assert rest[1..1 + |word|] == word;
    assert WordFieldAt(s, "INTENT:") == Some(word);
  }

  /** A line 'ENTITIES: none' (any letter case) yields no entities. */
  lemma EntitiesNone(text: string)
    requires SearchLineField(text, "ENTITIES:").Some?
    requires Lower(SearchLineField(text, "ENTITIES:").value) == "none"
    ensures Parsed(text).entities == map[]
  {
  }
}
