/** agents/chat_agent.py: keyword extraction, the character budget on
    retrieved documents, and the message pipeline that stores both sides
    of an exchange. */
module Chat {
  import opened Common
  import opened Store
  import Gemini

  // ---------------------------------------------------------------------
  // _extract_keywords

  const StopWords: seq<string> := [
    "i", "me", "my", "myself", "we", "our", "ours", "ourselves", "you", "your",
    "yours", "yourself", "yourselves", "he", "him", "his", "himself", "she",
    "her", "hers", "herself", "it", "its", "itself", "they", "them", "their",
    "theirs", "themselves", "what", "which", "who", "whom", "this", "that",
    "these", "those", "am", "is", "are", "was", "were", "be", "been", "being",
    "have", "has", "had", "having", "do", "does", "did", "doing", "a", "an",
    "the", "and", "but", "if", "or", "because", "as", "until", "while", "of",
    "at", "by", "for", "with", "about", "against", "between", "into", "through",
    "during", "before", "after", "above", "below", "to", "from", "up", "down",
    "in", "out", "on", "off", "over", "under", "again", "further", "then",
    "once", "can", "will", "just", "should", "now", "how", "where", "when"
  ]

  /** At most this many keywords are kept. */
  const MaxKeywords: nat := 5

  /** `''.join(char for char in word if char.isalnum())`: the alphanumeric
      characters of `word`, in order. */
  function CleanWord(word: string): (r: string)
    ensures |r| <= |word| && AllAlnum(r)
    ensures AllAlnum(word) ==> r == word
  {
    if word == [] then []
    else
      var init := CleanWord(word[..|word| - 1]);
      var c := word[|word| - 1];
      if IsAlnum(c) then
        assert AllAlnum(word) ==> AllAlnum(word[..|word| - 1]) && word[..|word| - 1] + [c] == word;
        init + [c]
      else init
  }

  /** A cleaned word is kept when it is not a stop word and is longer than two. */
  predicate Qualifies(clean: string)
  {
    clean != [] && clean !in StopWords && |clean| > 2
  }

  /** The list the loop of _extract_keywords builds, duplicates included. */
  function Candidates(words: seq<string>): seq<string>
  {
    if words == [] then []
    else
      var init := Candidates(words[..|words| - 1]);
      var clean := CleanWord(words[|words| - 1]);
      if Qualifies(clean) then init + [clean] else init
  }

  /** The distinct qualifying keywords of a message. */
  function KeywordPool(message: string): set<string>
  {
    set k | k in Candidates(Words(Lower(message)))
  }

  /** What _extract_keywords may return: at most five distinct keywords of
      the pool, and as many as the pool offers up to five.  Which ones, and
      in which order, depends on set iteration and is left open. */
  predicate KeywordsFor(message: string, keywords: seq<string>)
  {
    (forall i, j :: 0 <= i < j < |keywords| ==> keywords[i] != keywords[j]) &&
    (forall k :: k in keywords ==> k in KeywordPool(message)) &&
    |keywords| == if |KeywordPool(message)| < MaxKeywords then |KeywordPool(message)| else MaxKeywords
  }

  /** Every candidate is the cleaned form of one of the words, qualifies,
      and consists of alphanumeric characters only. */
  lemma {:induction false} CandidatesQualify(words: seq<string>)
    ensures forall k :: k in Candidates(words) ==>
      Qualifies(k) && AllAlnum(k) && exists w :: w in words && CleanWord(w) == k
  {
    if words != [] {
      var init := words[..|words| - 1];
      CandidatesQualify(init);
      forall k | k in Candidates(words)
        ensures Qualifies(k) && AllAlnum(k) && exists w :: w in words && CleanWord(w) == k
      {
        if k in Candidates(init) {
          var w :| w in init && CleanWord(w) == k;
          assert w in words;
        } else {
          assert CleanWord(words[|words| - 1]) == k;
        }
      }
    }
  }

  /** Every keyword of the pool is a lower-case, punctuation-free, non-stop
      word of length above two, cut from one whitespace-separated token of
      the message. */
  lemma KeywordPoolMembers(message: string, k: string)
    requires k in KeywordPool(message)
    ensures |k| > 2 && k !in StopWords && AllAlnum(k)
    ensures exists w :: w in Words(Lower(message)) && CleanWord(w) == k
  {
    CandidatesQualify(Words(Lower(message)));
  }

  /** _extract_keywords */
  method ExtractKeywords(message: string) returns (keywords: seq<string>)
    ensures KeywordsFor(message, keywords)
    ensures |keywords| <= MaxKeywords
  {
    var words := Words(Lower(message));
    var found: seq<string> := [];
    for i := 0 to |words|
      invariant found == Candidates(words[..i])
    {
      assert words[..i + 1][..i] == words[..i];
      var clean := CleanWord(words[i]);
      if clean != [] && clean !in StopWords && |clean| > 2 {
        found := found + [clean];
      }
    }
    assert words[..|words|] == words;
    var pool := set k | k in found;
    ghost var full := pool;
    keywords := [];
    while |keywords| < MaxKeywords && pool != {}
      invariant pool <= full && |pool| == |full| - |keywords|
      invariant forall k :: k in keywords ==> k in full && k !in pool
      invariant forall i, j :: 0 <= i < j < |keywords| ==> keywords[i] != keywords[j]
      invariant |keywords| <= MaxKeywords
      decreases |pool|
    {
      var k :| k in pool;
      keywords := keywords + [k];
      pool := pool - {k};
    }
  }

  /** No qualifying keyword: the keyword list is empty, and only then. */
  lemma NoKeywordsExactly(message: string, keywords: seq<string>)
    requires KeywordsFor(message, keywords)
    ensures keywords == [] <==> KeywordPool(message) == {}
  {
    if KeywordPool(message) != {} {
      assert |KeywordPool(message)| > 0;
    }
  }

  // ---------------------------------------------------------------------
  // _search_relevant_documents

  /** The context budget in characters. */
  const MaxContextChars: nat := 8000
  /** A hit that crosses the budget is kept only if more than this remains. */
  const MinRemainder: nat := 500

  /** The hits kept once `used` characters are spent: each hit is kept
      whole while the total stays below the budget; the first that would
      reach it is cut to the remainder when more than 500 characters are
      left, and the scan stops there. */
  function FitBudget(hits: seq<SearchHit>, used: nat): seq<SearchHit>
    requires used < MaxContextChars
  {
    if hits == [] then []
    else
      var h := hits[0];
      if used + |h.content| < MaxContextChars then [h] + FitBudget(hits[1..], used + |h.content|)
      else if MaxContextChars - used > MinRemainder then [h.(content := h.content[..MaxContextChars - used])]
      else []
  }

  predicate IsPrefix(a: string, b: string)
  {
    |a| <= |b| && b[..|a|] == a
  }

  /** Total content length of a list of hits. */
  function TotalChars(hits: seq<SearchHit>): nat
  {
    if hits == [] then 0 else |hits[0].content| + TotalChars(hits[1..])
  }

  /** The documents handed to the reply: none without keywords, otherwise
      the search result cut to the budget. */
  function Relevant(rows: seq<DocumentRow>, keywords: seq<string>): seq<SearchHit>
  {
    if keywords == [] then [] else FitBudget(SearchResult(rows, keywords), 0)
  }

  /** The kept hits never exceed the budget, and they are the leading hits
      in order: all whole except possibly the last, which is then a prefix
      of its hit's content exactly as long as the remaining budget and
      longer than 500 characters. */
  lemma {:induction false} FitBudgetShape(hits: seq<SearchHit>, used: nat)
    requires used < MaxContextChars
    ensures var r := FitBudget(hits, used);
      used + TotalChars(r) <= MaxContextChars &&
      |r| <= |hits| &&
      (forall i :: 0 <= i < |r| ==>
         r[i].id == hits[i].id && r[i].filename == hits[i].filename &&
         IsPrefix(r[i].content, hits[i].content)) &&
      (forall i :: 0 <= i < |r| - 1 ==> r[i] == hits[i]) &&
      (r != [] && r[|r| - 1] != hits[|r| - 1] ==>
         used + TotalChars(r) == MaxContextChars && |r[|r| - 1].content| > MinRemainder)
    decreases |hits|
  {
    if hits != [] {
      var h := hits[0];
      var r := FitBudget(hits, used);
      if used + |h.content| < MaxContextChars {
        var used' := used + |h.content|;
        FitBudgetShape(hits[1..], used');
        var rest := FitBudget(hits[1..], used');
        assert r == [h] + rest;
        assert r[1..] == rest;
        forall i | 1 <= i < |r|
          ensures r[i].id == hits[i].id && r[i].filename == hits[i].filename
          ensures IsPrefix(r[i].content, hits[i].content)
        {
          assert r[i] == rest[i - 1] && hits[i] == hits[1..][i - 1];
        }
        forall i | 1 <= i < |r| - 1 ensures r[i] == hits[i] {
          assert r[i] == rest[i - 1] && hits[i] == hits[1..][i - 1];
        }
        if r != [] && r[|r| - 1] != hits[|r| - 1] {
          assert rest != [] && rest[|rest| - 1] == r[|r| - 1] && hits[1..][|rest| - 1] == hits[|r| - 1];
        }
      } else if MaxContextChars - used > MinRemainder {
        assert TotalChars(r) == MaxContextChars - used by {
          assert r[1..] == [];
        }
      }
    }
  }

  lemma TotalCharsCons(hits: seq<SearchHit>, n: nat)
    requires 0 < n <= |hits|
    ensures TotalChars(hits[..n]) == |hits[0].content| + TotalChars(hits[1..][..n - 1])
  {
    assert hits[..n][1..] == hits[1..][..n - 1];
  }

  lemma FitBudgetStep(hits: seq<SearchHit>, used: nat)
    requires hits != [] && used + |hits[0].content| < MaxContextChars
    ensures FitBudget(hits, used) == [hits[0]] + FitBudget(hits[1..], used + |hits[0].content|)
  {
  }

  /** While the running total stays below the budget, the hits are kept
      whole and in place, and the scan goes on from there. */
  lemma {:induction false} FitBudgetSplit(hits: seq<SearchHit>, used: nat, n: nat)
    requires used < MaxContextChars && n <= |hits|
    requires used + TotalChars(hits[..n]) < MaxContextChars
    ensures FitBudget(hits, used) == hits[..n] + FitBudget(hits[n..], used + TotalChars(hits[..n]))
    decreases n
  {
    if n == 0 {
      assert hits[..0] == [] && hits[0..] == hits;
    } else {
      var h, tail := hits[0], hits[1..];
      TotalCharsCons(hits, n);
      var used' := used + |h.content|;
      var rest := FitBudget(hits[n..], used + TotalChars(hits[..n]));
      FitBudgetSplit(tail, used', n - 1);
      assert tail[n - 1..] == hits[n..];
      FitBudgetStep(hits, used);
      calc {
        FitBudget(hits, used);
        [h] + FitBudget(tail, used');
        [h] + (tail[..n - 1] + rest);
        ([h] + tail[..n - 1]) + rest;
        { assert hits[..n] == [h] + tail[..n - 1]; }
        hits[..n] + rest;
      }
    }
  }

  /** When every hit fits below the budget, all of them are kept whole. */
  lemma FitBudgetAllFit(hits: seq<SearchHit>, used: nat)
    requires used + TotalChars(hits) < MaxContextChars
    ensures FitBudget(hits, used) == hits
  {
    assert hits[..|hits|] == hits && hits[|hits|..] == [];
    FitBudgetSplit(hits, used, |hits|);
  }

  /** The first hit whose content brings the total to the budget ends the
      scan: it is kept, cut to exactly the remaining budget, when more than
      500 characters remain, and dropped otherwise; every hit before it is
      kept whole. */
  lemma FitBudgetCrossing(hits: seq<SearchHit>, used: nat, n: nat)
    requires used < MaxContextChars && n < |hits|
    requires used + TotalChars(hits[..n]) < MaxContextChars
    requires used + TotalChars(hits[..n]) + |hits[n].content| >= MaxContextChars
    ensures var remaining := MaxContextChars - used - TotalChars(hits[..n]);
      FitBudget(hits, used) == hits[..n] +
        (if remaining > MinRemainder then [hits[n].(content := hits[n].content[..remaining])] else [])
  {
    FitBudgetSplit(hits, used, n);
    assert hits[n..][0] == hits[n];
  }

  /** A hit cut short never has any hit after it: everything kept after a
      cut is nothing, and the kept list is the search order's prefix. */
  lemma {:induction false} FitBudgetStopsAtCut(hits: seq<SearchHit>, used: nat, i: nat)
    requires used < MaxContextChars
    requires i < |FitBudget(hits, used)| && i < |hits| && FitBudget(hits, used)[i] != hits[i]
    ensures i == |FitBudget(hits, used)| - 1
    decreases |hits|
  {
    var h := hits[0];
    if used + |h.content| < MaxContextChars {
      var rest := FitBudget(hits[1..], used + |h.content|);
      assert FitBudget(hits, used) == [h] + rest;
      if i > 0 {
        assert rest[i - 1] == FitBudget(hits, used)[i] && hits[1..][i - 1] == hits[i];
        FitBudgetStopsAtCut(hits[1..], used + |h.content|, i - 1);
      }
    }
  }

  /** The budget loop of _search_relevant_documents. */
  method LimitContext(documents: seq<SearchHit>) returns (docs: seq<SearchHit>)
    ensures docs == FitBudget(documents, 0)
  {
    docs := [];
    var total: nat := 0;
    var i := 0;
    while i < |documents|
      invariant 0 <= i <= |documents| && total < MaxContextChars
      invariant docs + FitBudget(documents[i..], total) == FitBudget(documents, 0)
      decreases |documents| - i
    {
      var doc := documents[i];
      ghost var rest := documents[i..];
      assert rest[0] == doc && rest[1..] == documents[i + 1..];
      var docChars := |doc.content|;
      if total + docChars < MaxContextChars {
        assert FitBudget(rest, total) == [doc] + FitBudget(documents[i + 1..], total + docChars);
        assert docs + [doc] + FitBudget(documents[i + 1..], total + docChars) == docs + FitBudget(rest, total);
        docs := docs + [doc];
        total := total + docChars;
      } else {
        var remaining := MaxContextChars - total;
        if remaining > MinRemainder {
          assert FitBudget(rest, total) == [doc.(content := doc.content[..remaining])];
          docs := docs + [doc.(content := doc.content[..remaining])];
        } else {
          assert FitBudget(rest, total) == [];
          assert docs + [] == docs;
        }
        return;
      }
      i := i + 1;
    }
    assert documents[i..] == [];
  }

  /** _search_relevant_documents, with the keyword choice exposed as a ghost
      result.  `searchFails` says whether `search_documents` raises if it is
      called; it is called only when some keyword qualifies, so a message
      without keywords gets no documents and never reaches the failure. */
  method SearchRelevantDocuments(db: Database, message: string, searchFails: bool)
    returns (docs: Option<seq<SearchHit>>, ghost keywords: seq<string>)
    requires db.Valid()
    ensures KeywordsFor(message, keywords)
    ensures docs.None? <==> searchFails && KeywordPool(message) != {}
    ensures KeywordPool(message) == {} ==> docs == Some([])
    ensures docs.Some? ==> docs.value == Relevant(db.documents, keywords)
  {
    var found := ExtractKeywords(message);
    keywords := found;
    NoKeywordsExactly(message, found);
    if found == [] {
      return Some([]), keywords;
    }
    if searchFails {
      return None, keywords;
    }
    var documents := db.SearchDocuments(found);
    var limited := LimitContext(documents);
    docs := Some(limited);
  }

  // ---------------------------------------------------------------------
  // handle_message

  const ChatApologyEn: string := "I apologize, but I'm having trouble processing your message. Please try again."
  const ChatApologyHi: string := "मुझे खेद है, लेकिन मुझे आपके संदेश को संसाधित करने में परेशानी हो रही है। कृपया पुनः प्रयास करें।"
  const ChatApologyTe: string := "క్షమించండి, కానీ నేను మీ సందేశాన్ని ప్రాసెస్ చేయడంలో ఇబ్బంది పడుతున్నాను. దయచేసి మళ్లీ ప్రయత్నించండి."

  /** The apology handle_message returns when the pipeline raises. */
  function ChatApology(code: string): string
  {
    if code == "hi" then ChatApologyHi else if code == "te" then ChatApologyTe else ChatApologyEn
  }

  /** generate_response as the chat agent sees it: the reply to a message
      given the retrieved documents, the history and the language. */
  type Responder = (string, seq<SearchHit>, seq<MessageRow>, string) -> string

  /** The store calls of the pipeline, in the order they are made. */
  datatype PipelineCall = ReadLanguage | SaveCustomerMessage | ReadHistory | SearchStore | SaveAiMessage

  /** The calls made once the customer's message is stored. */
  predicate AfterCustomerSaved(call: PipelineCall)
  {
    call.ReadHistory? || call.SearchStore? || call.SaveAiMessage?
  }

  /** Which store call raises, and with what message, if any. */
  datatype StoreFault = NoFault | FailsAt(call: PipelineCall, detail: string)

  /** Whether the faulty call is reached: the search is skipped, and so
      cannot raise, when no keyword of the message qualifies. */
  predicate Raises(fault: StoreFault, message: string)
  {
    fault.FailsAt? && (fault.call == SearchStore ==> KeywordPool(message) != {})
  }

  datatype ChatResult =
    | Replied(response: string, sourceDocuments: seq<string>, language: string)
    | Failed(response: string, error: string)

  /** The filenames of the documents handed to the reply, in order. */
  function Filenames(docs: seq<SearchHit>): (r: seq<string>)
    ensures |r| == |docs| && forall i :: 0 <= i < |docs| ==> r[i] == docs[i].filename
  {
    seq(|docs|, i requires 0 <= i < |docs| => docs[i].filename)
  }

  /** The source document recorded with the AI message: the first retrieved one. */
  function SourceDocument(docs: seq<SearchHit>): Option<nat>
  {
    if docs == [] then None else Some(docs[0].id)
  }

  /** The language of the failure apology: 'en' for the falsy id 0. */
  function FailureLanguage(rows: seq<ConversationRow>, conversationId: int): string
  {
    if conversationId == 0 then "en" else ConversationLanguage(rows, conversationId)
  }

  /** The result of the except branch: the apology in the language read
      again from the store, and the error text. */
  function Apology(rows: seq<ConversationRow>, conversationId: int, detail: string): ChatResult
  {
    Failed(ChatApology(FailureLanguage(rows, conversationId)), detail)
  }

  /** The row save_message stores for the customer's message. */
  function CustomerRow(nextId: nat, clock: nat, conversationId: int, userMessage: string): MessageRow
  {
    MessageRow(nextId, conversationId, "customer", userMessage, clock, None)
  }

  /** The row save_message stores for the reply. */
  function AiRow(nextId: nat, clock: nat, conversationId: int, reply: string, docs: seq<SearchHit>): MessageRow
  {
    MessageRow(nextId, conversationId, "ai", reply, clock, SourceDocument(docs))
  }

  /** The documents a reply may be given: the ones retrieved for some
      keyword choice _extract_keywords may make. */
  ghost predicate RetrievedFor(rows: seq<DocumentRow>, message: string, retrieved: seq<SearchHit>)
  {
    exists keywords :: KeywordsFor(message, keywords) && retrieved == Relevant(rows, keywords)
  }

  /** The part of handle_message after the customer's message is stored:
      read the history, retrieve documents, reply, and store the reply. */
  method AnswerAndRecord(db: Database, respond: Responder, conversationId: int, userMessage: string,
                         language: string, fault: StoreFault)
    returns (result: ChatResult, ghost retrieved: seq<SearchHit>)
    requires db.Valid()
    requires fault.NoFault? || AfterCustomerSaved(fault.call)
    modifies db
    ensures db.Valid()
    ensures db.documents == old(db.documents) && db.conversations == old(db.conversations)
    ensures db.actions == old(db.actions) && db.statusWrites == old(db.statusWrites)
    ensures !Raises(fault, userMessage) ==>
      RetrievedFor(old(db.documents), userMessage, retrieved) &&
      result == Replied(respond(userMessage, retrieved, MessagesOf(old(db.messages), conversationId), language),
                        Filenames(retrieved), language) &&
      db.messages == old(db.messages) + [AiRow(|old(db.messages)| + 1, old(db.clock), conversationId, result.response, retrieved)] &&
      db.clock == old(db.clock) + 1
    ensures Raises(fault, userMessage) ==>
      result == Apology(old(db.conversations), conversationId, fault.detail) &&
      db.messages == old(db.messages)
  {
    retrieved := [];
    if fault.FailsAt? && fault.call == ReadHistory {
      return Apology(db.conversations, conversationId, fault.detail), retrieved;
    }
    var history := db.GetConversationMessages(conversationId);
    var found;
    ghost var keywords;
    found, keywords := SearchRelevantDocuments(db, userMessage, fault.FailsAt? && fault.call == SearchStore);
    if found.None? {
      return Apology(db.conversations, conversationId, fault.detail), retrieved;
    }
    var docs := found.value;
    retrieved := docs;
    var reply := respond(userMessage, docs, history, language);
    var sourceId := SourceDocument(docs);
    if fault.FailsAt? && fault.call == SaveAiMessage {
      return Apology(db.conversations, conversationId, fault.detail), retrieved;
    }
    var _ := db.SaveMessage(conversationId, "ai", reply, sourceId);
    result := Replied(reply, Filenames(docs), language);
  }

  /** The first half of handle_message: read the conversation's language
      and store the customer's message, unless one of those calls raises. */
  method OpenExchange(db: Database, conversationId: int, userMessage: string, fault: StoreFault)
    returns (language: string)
    requires db.Valid()
    modifies db
    ensures db.Valid()
    ensures db.documents == old(db.documents) && db.conversations == old(db.conversations)
    ensures db.actions == old(db.actions) && db.statusWrites == old(db.statusWrites)
    ensures language == ConversationLanguage(old(db.conversations), conversationId)
    ensures fault.FailsAt? && !AfterCustomerSaved(fault.call) ==> unchanged(db)
    ensures !(fault.FailsAt? && !AfterCustomerSaved(fault.call)) ==>
      db.messages == old(db.messages) + [CustomerRow(|old(db.messages)| + 1, old(db.clock), conversationId, userMessage)] &&
      db.clock == old(db.clock) + 1
  {
    language := ConversationLanguage(db.conversations, conversationId);
    if fault.FailsAt? && fault.call == ReadLanguage {
      return;
    }
    language := db.GetConversationLanguage(conversationId);
    if fault.FailsAt? && fault.call == SaveCustomerMessage {
      return;
    }
    var _ := db.SaveMessage(conversationId, "customer", userMessage);
  }

  /** handle_message.  On success the customer's message and then the AI's
      reply are appended; when a store call raises, the messages saved
      before it stay and the localized apology is returned.  A failing
      search is never reached for a message without keywords, which then
      succeeds as if nothing failed. */
  method HandleMessage(db: Database, respond: Responder, conversationId: int, userMessage: string,
                       fault: StoreFault)
    returns (result: ChatResult, ghost retrieved: seq<SearchHit>)
    requires db.Valid()
    modifies db
    ensures db.Valid()
    ensures db.documents == old(db.documents) && db.conversations == old(db.conversations)
    ensures db.actions == old(db.actions) && db.statusWrites == old(db.statusWrites)
    ensures !Raises(fault, userMessage) ==>
      var customer := CustomerRow(|old(db.messages)| + 1, old(db.clock), conversationId, userMessage);
      var language := ConversationLanguage(old(db.conversations), conversationId);
      RetrievedFor(old(db.documents), userMessage, retrieved) &&
      result == Replied(respond(userMessage, retrieved, MessagesOf(old(db.messages) + [customer], conversationId), language),
                        Filenames(retrieved), language) &&
      db.messages == old(db.messages) + [customer]
        + [AiRow(|old(db.messages)| + 2, old(db.clock) + 1, conversationId, result.response, retrieved)] &&
      db.clock == old(db.clock) + 2
    ensures Raises(fault, userMessage) ==> result == Apology(old(db.conversations), conversationId, fault.detail)
    ensures fault.FailsAt? && !AfterCustomerSaved(fault.call) ==> db.messages == old(db.messages)
    ensures Raises(fault, userMessage) && AfterCustomerSaved(fault.call) ==>
      db.messages == old(db.messages) + [CustomerRow(|old(db.messages)| + 1, old(db.clock), conversationId, userMessage)]
  {
    retrieved := [];
    var language := OpenExchange(db, conversationId, userMessage, fault);
    if fault.FailsAt? && !AfterCustomerSaved(fault.call) {
      return Apology(db.conversations, conversationId, fault.detail), retrieved;
    }
    result, retrieved := AnswerAndRecord(db, respond, conversationId, userMessage, language, fault);
  }
}
