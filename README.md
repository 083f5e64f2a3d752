# SupportGenie core in Dafny

SupportGenie is a customer-support assistant. An administrator uploads
documents (PDF, TXT, DOCX, XLSX, XLS, CSV, JSON, MD, XML). Each upload is
turned into text, structured by a language model and stored. A customer opens
a conversation and sends messages. For each message the chat agent:

- extracts keywords;
- searches the stored documents for context under a character budget;
- asks the model for a reply in the conversation's language (English, Hindi or Telugu);
- stores both messages.

The message route then classifies the customer's intent. When the intent is
actionable, the action agent records an action, runs a handler (ticket,
e-mail draft, order check, return) and writes the action's final status.

This project models that core:

- `common.dfy` (module `Common`): text helpers shared by the modules.
  - Python's `strip`, `split`, `lower` and `join`, over characters.
  - Decimal rendering of numbers.
  - The language model as an oracle: a `Model` maps a `Prompt` to `Answer(text)` or `Raised(detail)`.
- `store.dfy` (module `Store`): `Database` is a class whose four tables are `seq` fields.
  - Ids equal the row number, as SQLite's AUTOINCREMENT gives them when nothing is physically deleted.
  - A strictly increasing `clock` stands in for `CURRENT_TIMESTAMP`.
- `gemini.dfy` (module `Gemini`): the model service.
  - It covers prompt assembly for replies, with context truncation and the history window.
  - It covers the failure fallbacks.
  - It covers the `INTENT:`/`CONFIDENCE:`/`ENTITIES:` parser of the intent classifier, written out as the regular-expression searches it performs.
- `translation.dfy` (module `Translation`): the translation service.
  - Its cache is a `map` field that `Translate` updates.
  - It also holds the three UI tables and language detection.
- `chat.dfy` (module `Chat`): the chat agent.
  - It covers keyword extraction, the context budget and `handle_message`.
  - Store failures are a `StoreFault` parameter that names the store call which raises.
- `actions.dfy` (module `Actions`): the action agent. Its random numbers are a `Draws` parameter within the ranges of the code.
- `documents.dfy` (module `Documents`): the document agent.
  - It covers extension routing and the minimum-content rule.
  - It covers the text assembly of every extractor over what the parsing libraries return.
  - It covers saving the upload.
- `app.dfy` (module `App`): the route decisions, namely `allowed_file`, field validation and defaults, the intent-to-action gate, and the delete status mapping.

## Model

| member | source | states |
|---|---|---|
| Store.Database.constructor | services/database.py:32-94 | a fresh database has four empty tables |
| Store.Database.SaveDocument | services/database.py:96-114 | the new id is one past the table's length and unused so far; one row is appended, not deleted, stamped with the current clock; the other tables are unchanged |
| Store.Database.GetAllDocuments | services/database.py:116-139 | the listing is `LiveNewestFirst` of the table (rows without a deletion marker, newest first) |
| Store.LiveListing | services/database.py:122-126 | the listing has as many entries as the analytics count, holds exactly the undeleted rows, and is strictly newest first |
| Store.LiveCounted | services/database.py:122-126 | the listing's length equals the count of undeleted rows |
| Store.LiveMembers | services/database.py:122-126 | a summary is listed iff it comes from a row with no deletion marker |
| Store.LiveOrdered | services/database.py:126 | listed upload times strictly decrease and all lie before the clock |
| Store.Database.GetDocumentById | services/database.py:141-164 | a result exists iff some row has the id, whether soft-deleted or not, and it is that row's detail |
| Store.Database.SearchDocuments | services/database.py:166-200 | the hits are `SearchResult`: the first three rows whose structured content or filename contains a keyword |
| Store.MatchingPrefix | services/database.py:186 | stopping the scan once three hits are found yields the same first three hits |
| Store.HitsMonotone | services/database.py:178-186 | scanning a prefix of the table never finds more hits than the whole table |
| Store.MatchingHitsSound | services/database.py:178-186 | every hit comes from a stored row in which some keyword occurs, deleted rows included |
| Store.MatchingHitsComplete | services/database.py:178-186 | every matching row, deleted or not, yields a hit |
| Store.SearchResultBounded | services/database.py:178-186 | search returns at most three hits, each from a matching stored row |
| Store.SearchIgnoresDeletion | services/database.py:173-186 | soft deletion does not change what search finds |
| Store.Database.CreateConversation | services/database.py:202-220 | a fresh id; the row is appended with status 'active' and the given language ('en' by default) |
| Store.Database.SaveMessage | services/database.py:222-241 | a fresh id; the message row is appended with the current clock; the other tables are unchanged |
| Store.Database.GetConversationMessages | services/database.py:243-268 | the result is `MessagesOf` the table for that conversation |
| Store.MessagesOfExact | services/database.py:249-254 | the result holds exactly that conversation's messages, in strictly ascending timestamp order |
| Store.Database.GetAllConversations | services/database.py:270-305 | the listing is every conversation, newest first, each with its message count |
| Store.Database.GetConversationById | services/database.py:307-331 | a result exists iff a conversation has that id, and it is that row's info |
| Store.ConversationAt | services/database.py:307-331 | with consecutive ids, the lookup returns the row at position id - base, and nothing outside the range |
| Store.Database.UpdateConversationStatus | services/database.py:333-350 | the conversations become `SetConversationStatus` of the old ones; the other tables are unchanged |
| Store.ConversationStatusUpdate | services/database.py:338-343 | only the status of the row with that id changes; every other row and field stays |
| Store.Database.CreateAction | services/database.py:352-370 | a fresh id; the action is appended with its payload and status 'pending' |
| Store.Database.UpdateActionStatus | services/database.py:372-389 | the actions become `SetActionStatus` of the old ones; the write is logged; nothing else changes |
| Store.ActionStatusUpdate | services/database.py:377-382 | the row with that id takes the new status and every other row keeps its own; no other field changes |
| Store.ActionStatusLastWriteWins | services/database.py:377-382 | a second write replaces the first whatever both values are: no one-way guard |
| Store.Database.GetAnalytics | services/database.py:391-427 | the document count is the number of undeleted rows; the active count is the number of 'active' conversations |
| Store.Database.DeleteDocument | services/database.py:429-455 | it reports true iff a row with that id exists without a deletion marker; only that row is marked |
| Store.DeleteOnce | services/database.py:443-450 | after one delete the id is no longer deletable and a second delete changes nothing; other rows are untouched |
| Store.DocumentsOrderKept | services/database.py:443-447 | an update that keeps every timestamp keeps the document order |
| Store.ConversationsOrderKept | services/database.py:338-343 | a status update, which keeps every timestamp, keeps the conversation order |
| Store.Database.GetConversationLanguage | services/database.py:457-481 | the result is `ConversationLanguage`: the stored language, or 'en' |
| Store.LanguageLookup | services/database.py:470-478 | the result is the language of the row with that id, and 'en' exactly when no such row exists |
| Store.LanguageAt | services/database.py:470-478 | with consecutive ids, the result is the language at position id - base, 'en' outside the range |
| Gemini.StructureSeesOnlyPrefix | services/gemini_service.py:25-52 | two texts that agree on their first 15000 characters are structured alike |
| Gemini.StructureFailure | services/gemini_service.py:47-52 | when the model raises, the structured text is 'Error processing document: ' followed by the error |
| Gemini.DraftAnswer | services/gemini_service.py:219-221 | when the model answers the drafting prompt, the draft is that answer |
| Gemini.DraftFailure | services/gemini_service.py:219-224 | when the model raises, the draft is 'Error drafting email', whatever the error |
| Gemini.LanguageName | services/gemini_service.py:81-86 | 'hi' names Hindi and 'te' Telugu, each iff; every other code names English |
| Gemini.BuildContextText | services/gemini_service.py:62-70 | the loop builds `ContextText` of the hits |
| Gemini.ContextSeesOnlyPrefixes | services/gemini_service.py:66-69 | cutting every document at 3000 characters leaves the knowledge-base section unchanged |
| Gemini.TruncateAll | services/gemini_service.py:69 | each hit is kept, in order, with its content cut at the bound |
| Gemini.BuildHistoryText | services/gemini_service.py:72-78 | the loop builds `HistoryText` of the history |
| Gemini.HistorySeesOnlyLastFive | services/gemini_service.py:75 | histories that end in the same five messages give the same history section |
| Gemini.GenerateResponse | services/gemini_service.py:54-140 | the reply is `ReplyFor`: the model's answer to the assembled prompt, or the apology |
| Gemini.ReplyFailureIsLocalized | services/gemini_service.py:132-140 | when the model raises, the reply is the apology of the language, the English one for codes other than hi and te |
| Gemini.SpaceRun | services/gemini_service.py:173 | the maximal leading run of `\s` characters |
| Gemini.WordRun | services/gemini_service.py:173 | the maximal leading run of `\w` characters |
| Gemini.SearchWordField | services/gemini_service.py:172-176 | a found field is a non-empty run of word characters |
| Gemini.SearchWordFieldLeftmost | services/gemini_service.py:172-176 | the search returns the leftmost match, and none when no position matches |
| Gemini.LineEnd | services/gemini_service.py:180 | the end of the line: the first newline after the start, or the end of the text |
| Gemini.SearchLineField | services/gemini_service.py:179-180 | a found `ENTITIES:` field is non-empty and holds no newline |
| Gemini.EntitiesText | services/gemini_service.py:179-182 | a text to split exists only when the field is present and is not 'none' in any letter case |
| Gemini.EntityMapKeys | services/gemini_service.py:184-187 | the entity keys are exactly the stripped keys of the comma pieces that hold '=' |
| Gemini.EntityMapLastWins | services/gemini_service.py:184-187 | a key maps to the value of the last piece that names it |
| Gemini.EntityMapStep | services/gemini_service.py:184-187 | a piece with '=' sets its key; a piece without one adds nothing |
| Gemini.ParseEntities | services/gemini_service.py:184-187 | the loop builds `EntityMap` of the comma pieces |
| Gemini.DetectIntent | services/gemini_service.py:142-200 | the answer's parse, or 'general_query' with no entities at 'low' confidence when the model raises |
| Gemini.IntentIsAnyWord | services/gemini_service.py:172-173 | the intent is whatever word follows 'INTENT:', not checked against the listed intents |
| Gemini.EntitiesNone | services/gemini_service.py:181-182 | an 'ENTITIES: none' line in any letter case yields no entities |
| Translation.CacheKeyPrefix | services/translation_service.py:57 | texts sharing their first 50 characters share a cache key |
| Translation.CacheKeySeparates | services/translation_service.py:57 | for codes without ':', equal keys mean the same pair and the same 50-character prefix |
| Translation.FirstColonSplits | services/translation_service.py:57 | a key splits back at its first ':' into the code and the rest |
| Translation.TranslationService.Translate | services/translation_service.py:36-82 | the returned text and the new cache are `Translated` of the old cache |
| Translation.ShortCircuit | services/translation_service.py:49-54 | the same language, or an unsupported target, returns the text and leaves the cache unchanged |
| Translation.CacheHitIgnoresModel | services/translation_service.py:57-59 | a cache hit returns the stored value, whatever the model would answer |
| Translation.CacheOnlyGrows | services/translation_service.py:57-78 | no stored entry is ever changed or removed |
| Translation.FailureKeepsText | services/translation_service.py:80-82 | a failing model returns the original text and stores nothing |
| Translation.SharedPrefixSharesTranslation | services/translation_service.py:57-78 | after one text is translated, any text with the same first 50 characters gets that translation |
| Translation.UiTable | services/translation_service.py:94-197 | a table built from the key list offers exactly those keys |
| Translation.UiTranslations | services/translation_service.py:84-199 | every table has the English key set, and any code other than hi and te gets the English table |
| Translation.UiTablesAgree | services/translation_service.py:94-197 | the three tables have the same keys |
| Translation.DetectLanguage | services/translation_service.py:201-231 | the result is always en, hi or te: the cleaned answer when it is a supported code, 'en' for any other answer and on failure |
| Chat.CleanWord | agents/chat_agent.py:160 | the alphanumeric characters of the word, all of them when it has no others |
| Chat.CandidatesQualify | agents/chat_agent.py:155-164 | every candidate is longer than two characters, not a stop word, alphanumeric, and the cleaned form of a word |
| Chat.KeywordPoolMembers | agents/chat_agent.py:155-164 | every pooled keyword qualifies and comes from a whitespace-separated word of the lowercased message |
| Chat.ExtractKeywords | agents/chat_agent.py:128-167 | at most five distinct keywords, each from the pool, and min(5, pool size) of them |
| Chat.NoKeywordsExactly | agents/chat_agent.py:163-167 | there are no keywords exactly when no word qualifies |
| Chat.FitBudgetShape | agents/chat_agent.py:108-126 | the kept hits are in search order and total at most 8000 characters; only the last may be cut, to a prefix that fills the budget and is longer than 500 |
| Chat.FitBudgetStopsAtCut | agents/chat_agent.py:118-124 | a hit cut short is the last one kept |
| Chat.FitBudgetSplit | agents/chat_agent.py:113-116 | while the running total stays below 8000, the hits are kept whole and in place, and the scan continues from the next one with the total added |
| Chat.FitBudgetAllFit | agents/chat_agent.py:113-116 | when all hits together stay below 8000 characters, every hit is kept whole |
| Chat.FitBudgetCrossing | agents/chat_agent.py:113-124 | the first hit that brings the total to 8000 ends the scan: the hits before it are kept whole, and it is kept cut to the remaining budget when more than 500 remain and dropped otherwise |
| Chat.LimitContext | agents/chat_agent.py:109-124 | the budget loop computes `FitBudget` from an empty budget |
| Chat.SearchRelevantDocuments | agents/chat_agent.py:88-126 | the documents are `Relevant` for keywords meeting the extraction contract, and none without keywords; the search raises only when there are keywords to search for |
| Chat.Filenames | agents/chat_agent.py:66-71 | the filenames of the documents, in order |
| Chat.OpenExchange | agents/chat_agent.py:31-38 | reads the stored language and appends the customer's message unless a store call before it raises |
| Chat.AnswerAndRecord | agents/chat_agent.py:41-86 | when no store call raises, the reply to the retrieved documents and history is stored as the AI message and returned; a raising call gives the localized apology and stores nothing; a failing search counts only when the message has keywords |
| Chat.HandleMessage | agents/chat_agent.py:19-86 | when no store call raises, exactly two messages are appended, the customer's then the AI's; a raising call gives the apology of the language, keeping only the messages stored before it; a search fault on a message without keywords is never reached and changes nothing |
| Actions.Get | agents/action_agent.py:91-99 | `data.get(key, default)` |
| Actions.CreateTicket | agents/action_agent.py:76-118 | the outcome is `TicketOutcome` of the conversation and its message count |
| Actions.TicketShape | agents/action_agent.py:91-118 | the ticket is 'TKT-' and the drawn five digits, status 'open', with the message count and the customer's details; priority and summary default |
| Actions.BuildEmailContext | agents/action_agent.py:137-141 | the loop builds `EmailContext` of the messages |
| Actions.EmailSeesLastThree | agents/action_agent.py:138 | only the last three messages enter the e-mail context |
| Actions.DraftEmailAction | agents/action_agent.py:120-153 | the outcome is `EmailOutcome` of the conversation and its messages |
| Actions.CheckOrderShape | agents/action_agent.py:155-188 | always succeeds; the order id is the given one or 'ORD-' and four drawn digits; the status is one of four; items and total default |
| Actions.ReturnShape | agents/action_agent.py:190-217 | always succeeds; the RMA is 'RMA-' and five drawn digits; the label URL ends in it; the other fields default |
| Actions.PrefixedNumber | agents/action_agent.py:92 | a prefix with a k-digit number has k more characters, and the digits read back as the number |
| Actions.Dispatch | agents/action_agent.py:46-59 | the outcome is `Dispatched`: the handler for the type, or the unknown-type failure |
| Actions.Execute | agents/action_agent.py:22-74 | one record is appended before dispatch and exactly one status write takes effect; the result is `Executed`: the handler's result, or the error of a raising handler read or status write, with that record's id |
| Actions.CleanRunIsDispatched | agents/action_agent.py:44-66 | when no store call raises, the result is the handler's outcome with the record's id |
| Actions.StatusWriteFailureFails | agents/action_agent.py:61-74 | when the status write raises, the record ends 'failed' and the result is 'Error executing action: ' with the error, even after a successful handler |
| Actions.CompletedIffHandledUnderFaults | agents/action_agent.py:44-74 | under any store fault, the record ends 'completed' iff the type is known, the handler returned successfully, no handler read raised and the status write did not raise |
| Actions.RecordLifecycle | agents/action_agent.py:37-63 | the status write touches only the record this call appended |
| Actions.UnknownTypeFails | agents/action_agent.py:55-63 | an unknown type fails with 'Unknown action type: <type>' and a 'failed' record |
| Actions.MissingConversationFails | agents/action_agent.py:68-74 | a ticket or e-mail for a missing conversation raises, giving a failed result and a 'failed' record |
| Actions.CompletedIffHandled | agents/action_agent.py:61-69 | the record is 'completed' iff the type is known and the handler returned |
| Actions.RaisesIffMissing | agents/action_agent.py:46-74 | a handler raises iff it is the ticket or e-mail handler and the conversation is missing |
| Documents.Basename | agents/document_agent.py:62 | the text after the last '/', holding no '/' |
| Documents.ExtensionShape | agents/document_agent.py:63 | the extension is empty iff the name has no '.' or ends in one, and it never holds a '.' |
| Documents.ExtensionOfSplit | agents/document_agent.py:63 | the extension is the lowercased text after the last '.' |
| Documents.RoutedIffSupported | agents/document_agent.py:66-88 | the routing accepts exactly the nine supported extensions |
| Documents.ExtractPdf | agents/document_agent.py:141-145 | the loop builds `PdfText` of the pages |
| Documents.PdfRawBlank | agents/document_agent.py:141-143 | the joined pages are blank iff every page is |
| Documents.PdfTextEmptyIffBlank | agents/document_agent.py:141-145 | a PDF yields no text iff every page is blank |
| Documents.StripAll | agents/document_agent.py:197 | each cell stripped, in order |
| Documents.CollectParagraphs | agents/document_agent.py:190-192 | the loop builds `KeptParagraphs` |
| Documents.CollectTableRows | agents/document_agent.py:195-198 | the loop builds `TablesLines` |
| Documents.ExtractDocx | agents/document_agent.py:187-200 | the text is `DocxText`: kept paragraphs, then table rows, joined by blank lines |
| Documents.KeptIffNonBlank | agents/document_agent.py:190-192 | a paragraph is kept iff it is one of the document's paragraphs and not blank |
| Documents.Repeat | agents/document_agent.py:225 | a run of n copies of one character |
| Documents.ExtractCsv | agents/document_agent.py:216-232 | the loop builds `CsvText` |
| Documents.CsvDataAppend | agents/document_agent.py:227-230 | data lines of joined rows are the joined data lines |
| Documents.JoinStartsWithTwo | agents/document_agent.py:232 | a join of two or more parts starts with the first, the separator and the second |
| Documents.CsvHeaderShape | agents/document_agent.py:221-225 | the text starts with 'Headers: ', the header cells joined by bars, a newline and 50 dashes |
| Documents.CsvSkipsEmptyRow | agents/document_agent.py:228-230 | an empty data row leaves the text unchanged |
| Documents.RowValues | agents/document_agent.py:342-346 | each cell rendered by the reader's rule: openpyxl renders every non-empty cell (xlrd's rule, lines 380-383, only true values) |
| Documents.CollectSheetRows | agents/document_agent.py:342-347 | the loop builds `SheetRowLines` |
| Documents.ExtractWorkbook | agents/document_agent.py:334-351 | the loop builds `WorkbookText`, shared by the XLSX reader and the XLS reader (lines 371-391) |
| Documents.SheetRowsAppend | agents/document_agent.py:342-347 | row lines of joined row lists are the joined row lines |
| Documents.BlankRowDropped | agents/document_agent.py:345-347 | a row whose cells all render empty adds no line |
| Documents.FilledRowKept | agents/document_agent.py:345-347 | a row with some non-empty rendered cell adds, in its place, its cells joined by bars |
| Documents.SheetFraming | agents/document_agent.py:337-349 | each sheet adds its title, a blank line, its row lines and a trailing blank line |
| Documents.ZeroCellReaders | agents/document_agent.py:345 | every falsy value (zero, empty text, False) is rendered by openpyxl as its text and by xlrd (line 384) as empty |
| Documents.ReadersAgreeOnRow | agents/document_agent.py:384 | row by row, the two readers agree on blank and truthy cells and differ only on falsy values, which xlrd renders as empty |
| Documents.Indent | agents/document_agent.py:291 | two spaces per level |
| Documents.AttributePairs | agents/document_agent.py:296 | one 'k=v' per attribute |
| Documents.ChildParts | agents/document_agent.py:306-307 | one line block per child |
| Documents.FlattenPrefixed | agents/document_agent.py:306-309 | flattening keeps a prefix that every block's lines share |
| Documents.ElementIndented | agents/document_agent.py:289-309 | every line of an element starts with its own indentation |
| Documents.XmlNesting | agents/document_agent.py:289-309 | the first line is the tag line; every other line is one level deeper |
| Documents.ExtractText | agents/document_agent.py:66-83 | the extraction is `Extract` of the format and of what that format's library read; `.xls` workbooks are rendered with xlrd's rule and every other workbook with openpyxl's |
| Documents.SpreadsheetReaderByExtension | agents/document_agent.py:72-75 | the `xls` extension routes to the XLS format, whose workbook is rendered under xlrd's rule (line 384); `xlsx` routes to XLSX, rendered under openpyxl's rule (line 345) |
| Documents.AcceptedText | agents/document_agent.py:66-94 | an accepted upload's extension is routed, and its stored text is exactly what that format's extractor produced from what its library read |
| Documents.ProcessDocument | agents/document_agent.py:49-122 | a refusal returns its error and saves nothing; an acceptance saves one document with the basename, text and structured text, and reports its id and the unstripped length; a raising save gives 'Error processing document: ' with the error and saves nothing |
| Documents.UnsupportedNotRead | agents/document_agent.py:84-88 | an unsupported extension is refused without reading the file |
| Documents.AcceptedIff | agents/document_agent.py:62-94 | accepted iff the extension is routed, extraction succeeds and the stripped text has 10 or more characters |
| Documents.BlankPdfRefused | agents/document_agent.py:90-94 | a PDF of blank pages is refused for insufficient content |
| App.AllowedIffRouted | app.py:48-52 | a name is allowed iff its extension is one the document agent routes |
| App.AllowedHasExtension | app.py:52 | an allowed name holds a '.' and does not end in one |
| App.StartConversation | app.py:267-300 | a missing name gives 400 and changes nothing; otherwise one conversation is created with the given or 'en' language |
| App.ActionDataFor | app.py:334-338 | the action data has exactly the keys user_message, intent and entities |
| App.DispatchIntent | app.py:330-350 | `ActionsRecorded` with the action agent's `Executed` result: when the intent is not general_query and the confidence is not low, exactly the record for the conversation, the intent and the chat payload is appended, created at the current clock and ending in that result's status, one status write for it is logged, and action_taken holds the result iff it succeeded; otherwise the actions table and the write log are unchanged and action_taken is empty; messages, documents and conversations never change |
| App.SendMessage | app.py:303-363 | missing fields give 400 and change nothing; a store call raising inside the chat pipeline gives the localized apology, records no action and keeps only the messages saved before the failure; otherwise the customer and AI rows are appended after the untouched earlier messages, the reply is the model's answer (or apology) for the message, the retrieved documents, the conversation's history including the new customer row, and its language, source_documents are the retrieved filenames, and the actions table and write log are `ActionsRecorded` for the detected intent, with the action agent run on the tables as the chat left them; documents and conversations never change |
| App.Converse | app.py:317-356 | the same outcome as send_message once both fields are present, with `res` the action agent's `Executed` result for the detected intent on the tables as the chat left them |
| App.FailedClassificationNeverDispatches | app.py:333 | when classification fails, no action is dispatched |
| App.ChatActionsSeeDefaults | app.py:334-344 | the chat passes entities nested, so an order check draws its order id and a ticket takes the default summary |
| App.ExecuteAction | app.py:383-411 | missing fields give 400 and change nothing; otherwise the action agent runs on the payload or {}, the reply is its `Executed` result, one record and one effective status write are added, and documents, conversations and messages are unchanged |
| App.RequestCall | app.py:414-450 | success iff both fields are present and the notification was sent |
| App.CallValidationOrder | app.py:424-430 | the name is checked before the phone number, and a missing field is reported whatever the notification would do |
| App.DeleteDocument | app.py:222-242 | 200 iff the store deleted the row, otherwise 404 with its fixed message; the documents table is `SoftDelete` of the old one in either case, and the other tables are unchanged |

## Left out

- The Flask routes that only read and serialise are not modelled beyond the store calls they make: `get_documents`, `get_conversations`, `get_conversation`, `get_analytics`, `get_translations` and `get_customer_conversation`. The same holds for the upload route and static pages. JSON serialisation, CORS and start-up configuration are also left out.
- `upload_document`'s `secure_filename`, `file.save` and temporary path are left out. The document agent receives the path.
- The parsing libraries (PyPDF2, python-docx, openpyxl, xlrd, csv, ElementTree, json) and file opening with encoding fallback are one oracle, `Library`. It gives pages, paragraphs and tables, sheets of cells, rows, an element tree, or plain text, or it reports an error. Its type requires each format's library to give that format's shape (`Fits`): pages for PDF, plain text for TXT, JSON and MD, a body for DOCX, a workbook for XLSX and XLS, rows for CSV, an element tree for XML, or an error for any of them.
  - TXT, JSON and MD text arrives as plain text. Pretty-printing JSON is the library's business.
  - The "library not installed" errors of the DOCX, XLSX and XLS extractors are one of the library's error messages.
- Documents.ProcessDocument: the `FileNotFoundError` branch ('File not found') is not modelled. Every extractor catches its exceptions and re-raises a plain `Exception`, so that branch is reached only through the re-wrapped message, which the `Unreadable` case carries.
- The language model is an oracle from prompts to answers or errors, and only the variable parts of each prompt are kept. The prompt wording is not modelled.
- The e-mail service (SMTP and templates) is left out.
  - `request_call` takes whether the notification was sent as a parameter.
  - The ticket handler's notification is ignored, as its result is.
- `random.randint` and `random.choice` are the `Draws` parameter, which is required to be in the code's ranges.
- SQLite mechanics are left out: connections, commit and rollback, SQL text. `CURRENT_TIMESTAMP` is a strictly increasing clock, so same-second ties in the ORDER BY clauses are not modelled.
- Store.Database.SearchDocuments: a keyword matches as a case-insensitive substring. A `%` or `_` inside a keyword is matched literally instead of as a LIKE wildcard. The chat's keywords are alphanumeric, so they never hold either character.
- Store.Database.GetAnalytics: states only the two counts. `avg_response_time` is a constant float and `conversations_today` depends on the date, so both are left out.
- Lowercasing, `isalnum` and `\w` are per character over ASCII letters and digits. Python's Unicode tables are not modelled. `\s` and `str.strip` use Python's whitespace set.
- Chat.ExtractKeywords: the order of the keywords comes from Python's set iteration, so the result is stated for any order. The contract fixes which keywords appear and how many, but not their order.
- Chat.HandleMessage: after a failure the source reads the conversation's language again. The model takes that read from the conversation table, which nothing in the pipeline changes. A second store failure during that read, which would escape `handle_message`, is not modelled.
- Actions.Execute: a raising `create_action` (outside the try block) and a second raising status write inside the except branch escape `execute_action`. They end in the route's 500 response, which is left out.
- Common.Render: a dictionary interpolated into a message is rendered as the placeholder `{...}`, not as Python's `str(dict)`. Dictionary key order and value quoting are not modelled.
- Request bodies are records of optional typed fields. A key that is present with the JSON value null, and a body that is not an object, are not distinguished from other values. A non-dict `action_data` is left out.
- The catch-all 500 responses ('Server error: …') of the routes are left out. They are reached only when a store call raises outside the agents.
- Concurrent requests on one conversation are left out. Every call is modelled as running alone.
- The seeding, setup and migration scripts are not part of this model.
