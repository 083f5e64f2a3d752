/** The SQLite store of services/database.py as in-memory tables.

    Each table is a sequence of rows in insertion (rowid) order.  Rows are
    never removed (documents are only soft-deleted), so AUTOINCREMENT hands
    out the ids 1, 2, 3, ... and the row with id `k` sits at index `k - 1`.
    `clock` stands for CURRENT_TIMESTAMP: every write reads it and moves it
    on, so timestamps strictly increase in insertion order. */
module Store {
  import opened Common

  type ActionData = map<string, Json>

  datatype DocumentRow = DocumentRow(
    id: nat, filename: string, originalContent: string, structuredContent: string,
    uploadedAt: nat, deletedAt: Option<nat>)

  /** A row of `get_all_documents`. */
  datatype DocumentSummary = DocumentSummary(id: nat, filename: string, uploadedAt: nat)

  /** The row `get_document_by_id` returns (no deletion marker). */
  datatype DocumentDetail = DocumentDetail(
    id: nat, filename: string, originalContent: string, structuredContent: string, uploadedAt: nat)

  /** A row of `search_documents`; `content` is the structured content. */
  datatype SearchHit = SearchHit(id: nat, filename: string, content: string)

  datatype ConversationRow = ConversationRow(
    id: nat, customerName: string, customerEmail: Option<string>, language: string,
    startedAt: nat, status: string, satisfactionRating: Option<int>)

  /** The columns `get_conversation_by_id` returns (no language). */
  datatype ConversationInfo = ConversationInfo(
    id: nat, customerName: string, customerEmail: Option<string>,
    startedAt: nat, status: string, satisfactionRating: Option<int>)

  /** A row of `get_all_conversations`. */
  datatype ConversationSummary = ConversationSummary(info: ConversationInfo, messageCount: nat)

  datatype MessageRow = MessageRow(
    id: nat, conversationId: int, sender: string, message: string,
    timestamp: nat, sourceDocumentId: Option<nat>)

  /** `actionData` holds the payload that create_action serialises to JSON. */
  datatype ActionRow = ActionRow(
    id: nat, conversationId: int, actionType: string, actionData: ActionData,
    status: string, createdAt: nat)

  /** The counts of `get_analytics`. */
  datatype Analytics = Analytics(totalDocuments: nat, activeConversations: nat)

  const MaxSearchResults: nat := 3

  function Detail(row: DocumentRow): DocumentDetail
  {
    DocumentDetail(row.id, row.filename, row.originalContent, row.structuredContent, row.uploadedAt)
  }

  function Info(row: ConversationRow): ConversationInfo
  {
    ConversationInfo(row.id, row.customerName, row.customerEmail, row.startedAt, row.status,
                     row.satisfactionRating)
  }

  predicate Live(row: DocumentRow)
  {
    row.deletedAt.None?
  }

  // ---------------------------------------------------------------------
  // Specification functions for the queries

  /** `WHERE deleted_at IS NULL ORDER BY uploaded_at DESC` */
  function LiveNewestFirst(rows: seq<DocumentRow>): seq<DocumentSummary>
  {
    if rows == [] then []
    else
      var last := rows[|rows| - 1];
      (if Live(last) then [DocumentSummary(last.id, last.filename, last.uploadedAt)] else [])
      + LiveNewestFirst(rows[..|rows| - 1])
  }

  /** `SELECT COUNT(*) FROM documents WHERE deleted_at IS NULL` */
  function LiveCount(rows: seq<DocumentRow>): nat
  {
    if rows == [] then 0
    else LiveCount(rows[..|rows| - 1]) + (if Live(rows[|rows| - 1]) then 1 else 0)
  }

  /** SQLite's `LIKE '%kw%'`: a substring test, case-insensitive for ASCII. */
  predicate Like(field: string, keyword: string)
  {
    Contains(Lower(field), Lower(keyword))
  }

  /** The WHERE clause of search_documents: some keyword occurs in the
      structured content or in the filename.  No deletion filter. */
  predicate Matches(row: DocumentRow, keywords: seq<string>)
  {
    exists k :: k in keywords && (Like(row.structuredContent, k) || Like(row.filename, k))
  }

  /** Every matching row, in table order. */
  function MatchingHits(rows: seq<DocumentRow>, keywords: seq<string>): seq<SearchHit>
  {
    if rows == [] then []
    else
      var last := rows[|rows| - 1];
      MatchingHits(rows[..|rows| - 1], keywords)
      + (if Matches(last, keywords) then [SearchHit(last.id, last.filename, last.structuredContent)] else [])
  }

  /** The result of search_documents: the first three matching rows. */
  function SearchResult(rows: seq<DocumentRow>, keywords: seq<string>): seq<SearchHit>
  {
    Take(MatchingHits(rows, keywords), MaxSearchResults)
  }

  /** `WHERE conversation_id = ? ORDER BY timestamp ASC` over a table whose
      timestamps increase in table order. */
  function MessagesOf(rows: seq<MessageRow>, conversationId: int): seq<MessageRow>
  {
    if rows == [] then []
    else
      var last := rows[|rows| - 1];
      MessagesOf(rows[..|rows| - 1], conversationId)
      + (if last.conversationId == conversationId then [last] else [])
  }

  /** `COUNT(m.id)` of the LEFT JOIN in get_all_conversations. */
  function MessageCount(rows: seq<MessageRow>, conversationId: int): nat
  {
    |MessagesOf(rows, conversationId)|
  }

  /** `GROUP BY c.id ORDER BY c.started_at DESC` */
  function ConversationsNewestFirst(rows: seq<ConversationRow>, messages: seq<MessageRow>)
    : seq<ConversationSummary>
  {
    if rows == [] then []
    else
      var last := rows[|rows| - 1];
      [ConversationSummary(Info(last), MessageCount(messages, last.id))]
      + ConversationsNewestFirst(rows[..|rows| - 1], messages)
  }

  /** `SELECT COUNT(*) FROM conversations WHERE status = 'active'` */
  function ActiveCount(rows: seq<ConversationRow>): nat
  {
    if rows == [] then 0
    else ActiveCount(rows[..|rows| - 1]) + (if rows[|rows| - 1].status == "active" then 1 else 0)
  }

  // ---------------------------------------------------------------------
  // Specification functions for the updates

  /** `UPDATE conversations SET status = ? WHERE id = ?` */
  function SetConversationStatus(rows: seq<ConversationRow>, id: int, status: string)
    : (r: seq<ConversationRow>)
    ensures |r| == |rows|
  {
    seq(|rows|, i requires 0 <= i < |rows| =>
      if rows[i].id == id then rows[i].(status := status) else rows[i])
  }

  /** `UPDATE actions SET status = ? WHERE id = ?`.  The same update as
      SetConversationStatus, written out again because action rows and
      conversation rows are different record types. */
  function SetActionStatus(rows: seq<ActionRow>, id: int, status: string): (r: seq<ActionRow>)
    ensures |r| == |rows|
  {
    seq(|rows|, i requires 0 <= i < |rows| =>
      if rows[i].id == id then rows[i].(status := status) else rows[i])
  }

  /** `WHERE id = ? AND deleted_at IS NULL`: the rows the soft delete touches. */
  predicate Deletable(rows: seq<DocumentRow>, id: int)
  {
    exists i :: 0 <= i < |rows| && rows[i].id == id && Live(rows[i])
  }

  /** `UPDATE documents SET deleted_at = ? WHERE id = ? AND deleted_at IS NULL` */
  function SoftDelete(rows: seq<DocumentRow>, id: int, stamp: nat): (r: seq<DocumentRow>)
    ensures |r| == |rows|
  {
    seq(|rows|, i requires 0 <= i < |rows| =>
      if rows[i].id == id && Live(rows[i]) then rows[i].(deletedAt := Some(stamp)) else rows[i])
  }

  // ---------------------------------------------------------------------
  // Table invariants

  ghost predicate DocumentsWellFormed(rows: seq<DocumentRow>, clock: nat)
  {
    (forall i :: 0 <= i < |rows| ==> rows[i].id == i + 1 && rows[i].uploadedAt < clock) &&
    DocumentsAscending(rows)
  }

  /** Each row is strictly newer than the one before it. */
  ghost predicate DocumentsAscending(rows: seq<DocumentRow>)
    decreases |rows|
  {
    |rows| <= 1 ||
    (rows[|rows| - 2].uploadedAt < rows[|rows| - 1].uploadedAt && DocumentsAscending(rows[..|rows| - 1]))
  }

  ghost predicate ConversationsWellFormed(rows: seq<ConversationRow>, clock: nat)
  {
    (forall i :: 0 <= i < |rows| ==> rows[i].id == i + 1 && rows[i].startedAt < clock) &&
    ConversationsAscending(rows)
  }

  /** Each row is strictly newer than the one before it. */
  ghost predicate ConversationsAscending(rows: seq<ConversationRow>)
    decreases |rows|
  {
    |rows| <= 1 ||
    (rows[|rows| - 2].startedAt < rows[|rows| - 1].startedAt && ConversationsAscending(rows[..|rows| - 1]))
  }

  ghost predicate MessagesWellFormed(rows: seq<MessageRow>, clock: nat)
  {
    (forall i :: 0 <= i < |rows| ==> rows[i].id == i + 1 && rows[i].timestamp < clock) &&
    MessagesAscending(rows)
  }

  /** Each row is strictly newer than the one before it. */
  ghost predicate MessagesAscending(rows: seq<MessageRow>)
    decreases |rows|
  {
    |rows| <= 1 ||
    (rows[|rows| - 2].timestamp < rows[|rows| - 1].timestamp && MessagesAscending(rows[..|rows| - 1]))
  }

  ghost predicate ActionsWellFormed(rows: seq<ActionRow>, clock: nat)
  {
    forall i :: 0 <= i < |rows| ==> rows[i].id == i + 1 && rows[i].createdAt < clock
  }

  class Database {
    var documents: seq<DocumentRow>
    var conversations: seq<ConversationRow>
    var messages: seq<MessageRow>
    var actions: seq<ActionRow>
    var clock: nat
    /** Every `update_action_status(id, status)` write that takes effect, in
        order; a call that raises is rolled back and not logged. */
    ghost var statusWrites: seq<(int, string)>

    ghost predicate Valid()
      reads this
    {
      DocumentsWellFormed(documents, clock) &&
      ConversationsWellFormed(conversations, clock) &&
      MessagesWellFormed(messages, clock) &&
      ActionsWellFormed(actions, clock)
    }

    /** `_init_database` on a fresh file: four empty tables. */
    constructor ()
      ensures Valid()
      ensures documents == [] && conversations == [] && messages == [] && actions == []
      ensures statusWrites == []
    {
      documents, conversations, messages, actions := [], [], [], [];
      clock := 0;
      statusWrites := [];
    }

    method SaveDocument(filename: string, originalContent: string, structuredContent: string)
      returns (id: nat)
      requires Valid()
      modifies this
      ensures Valid() && clock == old(clock) + 1
      ensures id == |old(documents)| + 1 && forall row :: row in old(documents) ==> row.id != id
      ensures documents == old(documents)
        + [DocumentRow(id, filename, originalContent, structuredContent, old(clock), None)]
      ensures conversations == old(conversations) && messages == old(messages)
      ensures actions == old(actions) && statusWrites == old(statusWrites)
    {
      id := |documents| + 1;
      ghost var before := documents;
      documents := documents + [DocumentRow(id, filename, originalContent, structuredContent, clock, None)];
      assert documents[..|documents| - 1] == before;
      clock := clock + 1;
    }

    method GetAllDocuments() returns (r: seq<DocumentSummary>)
      ensures r == LiveNewestFirst(documents)
    {
      var rows := documents;
      r := [];
      var i := |rows|;
      assert rows[..i] == rows;
      while i > 0
        invariant 0 <= i <= |rows|
        invariant r + LiveNewestFirst(rows[..i]) == LiveNewestFirst(rows)
      {
        var row := rows[i - 1];
        var head := if row.deletedAt.None? then [DocumentSummary(row.id, row.filename, row.uploadedAt)] else [];
        assert rows[..i][..i - 1] == rows[..i - 1];
        assert LiveNewestFirst(rows[..i]) == head + LiveNewestFirst(rows[..i - 1]);
        assert r + (head + LiveNewestFirst(rows[..i - 1])) == (r + head) + LiveNewestFirst(rows[..i - 1]);
        r := r + head;
        i := i - 1;
      }
    }

    /** No deletion filter: a soft-deleted row is still returned. */
    method GetDocumentById(id: int) returns (r: Option<DocumentDetail>)
      requires Valid()
      ensures r.Some? <==> exists row :: row in documents && row.id == id
      ensures r.Some? ==> exists row :: row in documents && row.id == id && r.value == Detail(row)
    {
      if 1 <= id <= |documents| {
        r := Some(Detail(documents[id - 1]));
      } else {
        r := None;
        forall row | row in documents ensures row.id != id {
          var i :| 0 <= i < |documents| && documents[i] == row;
        }
      }
    }

    /** The keyword list must be non-empty: with none the query text would
        end in an empty WHERE clause, which SQLite refuses. */
    method SearchDocuments(keywords: seq<string>) returns (r: seq<SearchHit>)
      requires keywords != []
      ensures r == SearchResult(documents, keywords)
    {
      r := [];
      var i := 0;
      while i < |documents| && |r| < MaxSearchResults
        invariant 0 <= i <= |documents|
        invariant r == MatchingHits(documents[..i], keywords)
        invariant |r| <= MaxSearchResults
      {
        var row := documents[i];
        assert documents[..i + 1][..i] == documents[..i];
        var hit := false;
        for k := 0 to |keywords|
          invariant hit <==> (exists j :: 0 <= j < k && (Like(row.structuredContent, keywords[j]) || Like(row.filename, keywords[j])))
        {
          if Like(row.structuredContent, keywords[k]) || Like(row.filename, keywords[k]) {
            hit := true;
          }
        }
        if hit {
          r := r + [SearchHit(row.id, row.filename, row.structuredContent)];
        }
        i := i + 1;
      }
      MatchingPrefix(documents, i, keywords);
      assert documents[..|documents|] == documents;
    }

    method CreateConversation(customerName: string, customerEmail: Option<string> := None,
                              language: string := "en")
      returns (id: nat)
      requires Valid()
      modifies this
      ensures Valid() && clock == old(clock) + 1
      ensures id == |old(conversations)| + 1 && forall row :: row in old(conversations) ==> row.id != id
      ensures conversations == old(conversations)
        + [ConversationRow(id, customerName, customerEmail, language, old(clock), "active", None)]
      ensures documents == old(documents) && messages == old(messages)
      ensures actions == old(actions) && statusWrites == old(statusWrites)
    {
      id := |conversations| + 1;
      ghost var before := conversations;
      conversations := conversations
        + [ConversationRow(id, customerName, customerEmail, language, clock, "active", None)];
      assert conversations[..|conversations| - 1] == before;
      clock := clock + 1;
    }

    method SaveMessage(conversationId: int, sender: string, message: string,
                       sourceDocumentId: Option<nat> := None)
      returns (id: nat)
      requires Valid()
      modifies this
      ensures Valid() && clock == old(clock) + 1
      ensures id == |old(messages)| + 1 && forall row :: row in old(messages) ==> row.id != id
      ensures messages == old(messages)
        + [MessageRow(id, conversationId, sender, message, old(clock), sourceDocumentId)]
      ensures documents == old(documents) && conversations == old(conversations)
      ensures actions == old(actions) && statusWrites == old(statusWrites)
    {
      id := |messages| + 1;
      ghost var before := messages;
      messages := messages + [MessageRow(id, conversationId, sender, message, clock, sourceDocumentId)];
      assert messages[..|messages| - 1] == before;
      clock := clock + 1;
    }

    method GetConversationMessages(conversationId: int) returns (r: seq<MessageRow>)
      ensures r == MessagesOf(messages, conversationId)
    {
      r := [];
      for i := 0 to |messages|
        invariant r == MessagesOf(messages[..i], conversationId)
      {
        assert messages[..i + 1][..i] == messages[..i];
        if messages[i].conversationId == conversationId {
          r := r + [messages[i]];
        }
      }
      assert messages[..|messages|] == messages;
    }

    method GetAllConversations() returns (r: seq<ConversationSummary>)
      ensures r == ConversationsNewestFirst(conversations, messages)
    {
      r := [];
      var i := |conversations|;
      assert conversations[..i] == conversations;
      while i > 0
        invariant 0 <= i <= |conversations|
        invariant r + ConversationsNewestFirst(conversations[..i], messages)
               == ConversationsNewestFirst(conversations, messages)
      {
        var row := conversations[i - 1];
        var summary := ConversationSummary(Info(row), MessageCount(messages, row.id));
        assert conversations[..i][..i - 1] == conversations[..i - 1];
        assert ConversationsNewestFirst(conversations[..i], messages)
          == [summary] + ConversationsNewestFirst(conversations[..i - 1], messages);
        assert r + ([summary] + ConversationsNewestFirst(conversations[..i - 1], messages))
          == (r + [summary]) + ConversationsNewestFirst(conversations[..i - 1], messages);
        r := r + [summary];
        i := i - 1;
      }
      assert conversations[..|conversations|] == conversations;
    }

    method GetConversationById(conversationId: int) returns (r: Option<ConversationInfo>)
      requires Valid()
      ensures r.Some? <==> exists row :: row in conversations && row.id == conversationId
      ensures r.Some? ==> exists row :: row in conversations && row.id == conversationId && r.value == Info(row)
      ensures r == ConversationById(conversations, conversationId)
    {
      ConversationAt(conversations, 1, conversationId);
      if 1 <= conversationId <= |conversations| {
        r := Some(Info(conversations[conversationId - 1]));
      } else {
        r := None;
        forall row | row in conversations ensures row.id != conversationId {
          var i :| 0 <= i < |conversations| && conversations[i] == row;
        }
      }
    }

    method UpdateConversationStatus(conversationId: int, status: string)
      requires Valid()
      modifies this
      ensures Valid() && clock == old(clock) + 1
      ensures conversations == SetConversationStatus(old(conversations), conversationId, status)
      ensures documents == old(documents) && messages == old(messages)
      ensures actions == old(actions) && statusWrites == old(statusWrites)
    {
      ConversationsOrderKept(conversations, SetConversationStatus(conversations, conversationId, status));
      conversations := SetConversationStatus(conversations, conversationId, status);
      clock := clock + 1;
    }

    method CreateAction(conversationId: int, actionType: string, actionData: ActionData)
      returns (id: nat)
      requires Valid()
      modifies this
      ensures Valid() && clock == old(clock) + 1
      ensures id == |old(actions)| + 1 && forall row :: row in old(actions) ==> row.id != id
      ensures actions == old(actions)
        + [ActionRow(id, conversationId, actionType, actionData, "pending", old(clock))]
      ensures documents == old(documents) && conversations == old(conversations)
      ensures messages == old(messages) && statusWrites == old(statusWrites)
    {
      id := |actions| + 1;
      actions := actions + [ActionRow(id, conversationId, actionType, actionData, "pending", clock)];
      clock := clock + 1;
    }

    /** No guard on the current status: any value overwrites any other. */
    method UpdateActionStatus(actionId: int, status: string)
      requires Valid()
      modifies this
      ensures Valid() && clock == old(clock) + 1
      ensures actions == SetActionStatus(old(actions), actionId, status)
      ensures statusWrites == old(statusWrites) + [(actionId, status)]
      ensures documents == old(documents) && conversations == old(conversations)
      ensures messages == old(messages)
    {
      actions := SetActionStatus(actions, actionId, status);
      statusWrites := statusWrites + [(actionId, status)];
      clock := clock + 1;
    }

    method GetAnalytics() returns (r: Analytics)
      requires Valid()
      ensures r.totalDocuments == LiveCount(documents)
      ensures r.activeConversations == ActiveCount(conversations)
    {
      var total := 0;
      for i := 0 to |documents|
        invariant total == LiveCount(documents[..i])
      {
        assert documents[..i + 1][..i] == documents[..i];
        if documents[i].deletedAt.None? {
          total := total + 1;
        }
      }
      var active := 0;
      for i := 0 to |conversations|
        invariant active == ActiveCount(conversations[..i])
      {
        assert conversations[..i + 1][..i] == conversations[..i];
        if conversations[i].status == "active" {
          active := active + 1;
        }
      }
      assert documents[..|documents|] == documents;
      assert conversations[..|conversations|] == conversations;
      r := Analytics(total, active);
    }

    /** `rowcount > 0` of the guarded soft delete. */
    method DeleteDocument(documentId: int) returns (deleted: bool)
      requires Valid()
      modifies this
      ensures Valid() && clock == old(clock) + 1
      ensures deleted == Deletable(old(documents), documentId)
      ensures documents == SoftDelete(old(documents), documentId, old(clock))
      ensures conversations == old(conversations) && messages == old(messages)
      ensures actions == old(actions) && statusWrites == old(statusWrites)
    {
      deleted := 1 <= documentId <= |documents| && documents[documentId - 1].deletedAt.None?;
      if !deleted {
        forall i | 0 <= i < |documents| && documents[i].id == documentId
          ensures !Live(documents[i])
        {
        }
      }
      DocumentsOrderKept(documents, SoftDelete(documents, documentId, clock));
      documents := SoftDelete(documents, documentId, clock);
      clock := clock + 1;
    }

    method GetConversationLanguage(conversationId: int) returns (language: string)
      requires Valid()
      ensures language == ConversationLanguage(conversations, conversationId)
    {
      LanguageLookup(conversations, clock, conversationId);
      if 1 <= conversationId <= |conversations| {
        language := conversations[conversationId - 1].language;
      } else {
        language := "en";
      }
    }
  }

  /** The language of the first row with that id, or "en" when there is none. */
  function ConversationLanguage(rows: seq<ConversationRow>, conversationId: int): string
  {
    if rows == [] then "en"
    else if rows[0].id == conversationId then rows[0].language
    else ConversationLanguage(rows[1..], conversationId)
  }

  /** The columns of the first row with that id, or none. */
  function ConversationById(rows: seq<ConversationRow>, conversationId: int): Option<ConversationInfo>
  {
    if rows == [] then None
    else if rows[0].id == conversationId then Some(Info(rows[0]))
    else ConversationById(rows[1..], conversationId)
  }

  // ---------------------------------------------------------------------
  // Properties of the store

  /** The matches among the first `n` rows are a prefix of all matches,
      so stopping the scan after three hits gives the first three. */
  lemma {:induction false} MatchingPrefix(rows: seq<DocumentRow>, n: nat, keywords: seq<string>)
    requires n <= |rows|
    requires n < |rows| ==> |MatchingHits(rows[..n], keywords)| >= MaxSearchResults
    ensures Take(MatchingHits(rows[..n], keywords), MaxSearchResults) == SearchResult(rows, keywords)
    decreases |rows|
  {
    if n < |rows| {
      var init := rows[..|rows| - 1];
      assert init[..n] == rows[..n];
      MatchingPrefix(init, n, keywords);
      var m := MatchingHits(init, keywords);
      assert |m| >= MaxSearchResults by { HitsMonotone(init, n, keywords); }
      var all := MatchingHits(rows, keywords);
      assert all[..|m|] == m;
      assert all[..MaxSearchResults] == m[..MaxSearchResults];
    } else {
      assert rows[..n] == rows;
    }
  }

  lemma {:induction false} HitsMonotone(rows: seq<DocumentRow>, n: nat, keywords: seq<string>)
    requires n <= |rows|
    ensures |MatchingHits(rows[..n], keywords)| <= |MatchingHits(rows, keywords)|
    decreases |rows|
  {
    if n < |rows| {
      var init := rows[..|rows| - 1];
      assert init[..n] == rows[..n];
      HitsMonotone(init, n, keywords);
    } else {
      assert rows[..n] == rows;
    }
  }

  /** Every matching hit comes from a row of the table and satisfies the
      search condition; deleted rows are not filtered out. */
  lemma {:induction false} MatchingHitsSound(rows: seq<DocumentRow>, keywords: seq<string>)
    ensures forall h :: h in MatchingHits(rows, keywords) ==>
      (exists row :: row in rows && Matches(row, keywords) &&
        h == SearchHit(row.id, row.filename, row.structuredContent))
  {
    if rows != [] {
      var init := rows[..|rows| - 1];
      MatchingHitsSound(init, keywords);
      forall h | h in MatchingHits(rows, keywords)
        ensures exists row :: row in rows && Matches(row, keywords) && h == SearchHit(row.id, row.filename, row.structuredContent)
      {
        if h in MatchingHits(init, keywords) {
          var row :| row in init && Matches(row, keywords) &&
            h == SearchHit(row.id, row.filename, row.structuredContent);
          assert row in rows;
        } else {
          assert rows[|rows| - 1] in rows;
        }
      }
    }
  }

  /** Every row that matches — deleted or not — yields a hit. */
  lemma {:induction false} MatchingHitsComplete(rows: seq<DocumentRow>, keywords: seq<string>, i: nat)
    requires i < |rows| && Matches(rows[i], keywords)
    ensures SearchHit(rows[i].id, rows[i].filename, rows[i].structuredContent) in MatchingHits(rows, keywords)
    decreases |rows|
  {
    if i < |rows| - 1 {
      var init := rows[..|rows| - 1];
      MatchingHitsComplete(init, keywords, i);
    }
  }

  /** search_documents returns at most three rows, each one a stored row
      (possibly soft-deleted) in which some keyword occurs. */
  lemma SearchResultBounded(rows: seq<DocumentRow>, keywords: seq<string>)
    ensures |SearchResult(rows, keywords)| <= MaxSearchResults
    ensures forall h :: h in SearchResult(rows, keywords) ==>
      (exists row :: row in rows && Matches(row, keywords) &&
        h == SearchHit(row.id, row.filename, row.structuredContent))
  {
    MatchingHitsSound(rows, keywords);
    var m := MatchingHits(rows, keywords);
    forall h | h in SearchResult(rows, keywords) ensures h in m {
      var k :| 0 <= k < |SearchResult(rows, keywords)| && SearchResult(rows, keywords)[k] == h;
      assert m[k] == h;
    }
  }

  /** Soft deletion does not change what search finds. */
  lemma {:induction false} SearchIgnoresDeletion(rows: seq<DocumentRow>, keywords: seq<string>, id: int, stamp: nat)
    ensures MatchingHits(SoftDelete(rows, id, stamp), keywords) == MatchingHits(rows, keywords)
  {
    if rows != [] {
      var init := rows[..|rows| - 1];
      assert SoftDelete(rows, id, stamp)[..|rows| - 1] == SoftDelete(init, id, stamp);
      SearchIgnoresDeletion(init, keywords, id, stamp);
    }
  }

  /** get_all_documents lists exactly the rows without a deletion marker,
      as many as the analytics count, newest first. */
  lemma LiveListing(rows: seq<DocumentRow>, clock: nat)
    requires DocumentsWellFormed(rows, clock)
    ensures |LiveNewestFirst(rows)| == LiveCount(rows)
    ensures forall s :: s in LiveNewestFirst(rows) <==>
      exists row :: row in rows && Live(row) && s == DocumentSummary(row.id, row.filename, row.uploadedAt)
    ensures forall i, j :: 0 <= i < j < |LiveNewestFirst(rows)| ==>
      LiveNewestFirst(rows)[i].uploadedAt > LiveNewestFirst(rows)[j].uploadedAt
    ensures forall s :: s in LiveNewestFirst(rows) ==> s.uploadedAt < clock
  {
    LiveCounted(rows);
    LiveMembers(rows);
    LiveOrdered(rows, clock);
  }

  lemma {:induction false} LiveCounted(rows: seq<DocumentRow>)
    ensures |LiveNewestFirst(rows)| == LiveCount(rows)
  {
    if rows != [] {
      LiveCounted(rows[..|rows| - 1]);
    }
  }

  lemma {:induction false} LiveMembers(rows: seq<DocumentRow>)
    ensures forall s :: s in LiveNewestFirst(rows) <==>
      exists row :: row in rows && Live(row) && s == DocumentSummary(row.id, row.filename, row.uploadedAt)
  {
    if rows != [] {
      var init := rows[..|rows| - 1];
      var last := rows[|rows| - 1];
      LiveMembers(init);
      forall s ensures s in LiveNewestFirst(rows) <==>
        exists row :: row in rows && Live(row) && s == DocumentSummary(row.id, row.filename, row.uploadedAt)
      {
        if exists row :: row in rows && Live(row) && s == DocumentSummary(row.id, row.filename, row.uploadedAt) {
          var row :| row in rows && Live(row) && s == DocumentSummary(row.id, row.filename, row.uploadedAt);
          if row != last {
            assert row in init;
          }
        }
      }
    }
  }

  lemma {:induction false} LiveOrdered(rows: seq<DocumentRow>, clock: nat)
    requires DocumentsWellFormed(rows, clock)
    ensures forall i, j :: 0 <= i < j < |LiveNewestFirst(rows)| ==>
      LiveNewestFirst(rows)[i].uploadedAt > LiveNewestFirst(rows)[j].uploadedAt
    ensures forall s :: s in LiveNewestFirst(rows) ==> s.uploadedAt < clock
  {
    if rows != [] {
      var init := rows[..|rows| - 1];
      var last := rows[|rows| - 1];
      DocumentsPrefix(rows, clock);
      LiveOrdered(init, last.uploadedAt);
      var head := if Live(last) then [DocumentSummary(last.id, last.filename, last.uploadedAt)] else [];
      var older := LiveNewestFirst(init);
      var all := LiveNewestFirst(rows);
      assert all == head + older;
      forall i, j | 0 <= i < j < |all| ensures all[i].uploadedAt > all[j].uploadedAt {
        assert all[j] == older[j - |head|];
        assert older[j - |head|] in older;
        if i >= |head| {
          assert all[i] == older[i - |head|];
        }
      }
      forall s | s in all ensures s.uploadedAt < clock {
        if s !in head {
          assert s in older;
        }
      }
    }
  }

  /** Timestamps only grow, so the rows before the last one are all older
      than it: the table without its last row is well formed up to that
      row's timestamp. */
  lemma DocumentsPrefix(rows: seq<DocumentRow>, clock: nat)
    requires DocumentsWellFormed(rows, clock) && rows != []
    ensures DocumentsWellFormed(rows[..|rows| - 1], rows[|rows| - 1].uploadedAt)
  {
    forall i | 0 <= i < |rows| - 1 ensures rows[i].uploadedAt < rows[|rows| - 1].uploadedAt {
      DocumentsChain(rows, i);
    }
  }

  lemma {:induction false} DocumentsChain(rows: seq<DocumentRow>, i: nat)
    requires DocumentsAscending(rows) && i < |rows| - 1
    ensures rows[i].uploadedAt < rows[|rows| - 1].uploadedAt
    decreases |rows|
  {
    if i < |rows| - 2 {
      var init := rows[..|rows| - 1];
      DocumentsChain(init, i);
      assert init[i] == rows[i];
    }
  }

  lemma MessagesPrefix(rows: seq<MessageRow>, clock: nat)
    requires MessagesWellFormed(rows, clock) && rows != []
    ensures MessagesWellFormed(rows[..|rows| - 1], rows[|rows| - 1].timestamp)
  {
    forall i | 0 <= i < |rows| - 1 ensures rows[i].timestamp < rows[|rows| - 1].timestamp {
      MessagesChain(rows, i);
    }
  }

  lemma {:induction false} MessagesChain(rows: seq<MessageRow>, i: nat)
    requires MessagesAscending(rows) && i < |rows| - 1
    ensures rows[i].timestamp < rows[|rows| - 1].timestamp
    decreases |rows|
  {
    if i < |rows| - 2 {
      var init := rows[..|rows| - 1];
      MessagesChain(init, i);
      assert init[i] == rows[i];
    }
  }

  /** An update that leaves every timestamp in place keeps the order. */
  lemma {:induction false} DocumentsOrderKept(rows: seq<DocumentRow>, updated: seq<DocumentRow>)
    requires DocumentsAscending(rows) && |updated| == |rows|
    requires forall i :: 0 <= i < |rows| ==> updated[i].uploadedAt == rows[i].uploadedAt
    ensures DocumentsAscending(updated)
    decreases |rows|
  {
    if |rows| > 1 {
      DocumentsOrderKept(rows[..|rows| - 1], updated[..|rows| - 1]);
    }
  }

  /** An update that leaves every timestamp in place keeps the order. */
  lemma {:induction false} ConversationsOrderKept(rows: seq<ConversationRow>, updated: seq<ConversationRow>)
    requires ConversationsAscending(rows) && |updated| == |rows|
    requires forall i :: 0 <= i < |rows| ==> updated[i].startedAt == rows[i].startedAt
    ensures ConversationsAscending(updated)
    decreases |rows|
  {
    if |rows| > 1 {
      ConversationsOrderKept(rows[..|rows| - 1], updated[..|rows| - 1]);
    }
  }

  /** The soft delete succeeds once: afterwards the same id is no longer
      deletable and a second delete leaves the table as it is. */
  lemma DeleteOnce(rows: seq<DocumentRow>, id: int, stamp: nat, later: nat)
    requires DocumentsWellFormed(rows, stamp)
    ensures !Deletable(SoftDelete(rows, id, stamp), id)
    ensures SoftDelete(SoftDelete(rows, id, stamp), id, later) == SoftDelete(rows, id, stamp)
    ensures Deletable(rows, id) ==> SoftDelete(rows, id, stamp)[id - 1].deletedAt == Some(stamp)
    ensures forall i :: 0 <= i < |rows| && rows[i].id != id ==> SoftDelete(rows, id, stamp)[i] == rows[i]
  {
  }

  /** get_conversation_messages returns exactly that conversation's
      messages, and in ascending timestamp order. */
  lemma {:induction false} MessagesOfExact(rows: seq<MessageRow>, clock: nat, conversationId: int)
    requires MessagesWellFormed(rows, clock)
    ensures forall m :: m in MessagesOf(rows, conversationId) <==> m in rows && m.conversationId == conversationId
    ensures forall i, j :: 0 <= i < j < |MessagesOf(rows, conversationId)| ==>
      MessagesOf(rows, conversationId)[i].timestamp < MessagesOf(rows, conversationId)[j].timestamp
    ensures forall m :: m in MessagesOf(rows, conversationId) ==> m.timestamp < clock
  {
    if rows != [] {
      var init := rows[..|rows| - 1];
      var last := rows[|rows| - 1];
      MessagesPrefix(rows, clock);
      MessagesOfExact(init, last.timestamp, conversationId);
      forall m ensures m in MessagesOf(rows, conversationId) <==> m in rows && m.conversationId == conversationId {
        if m in rows && m != last {
          var k :| 0 <= k < |rows| && rows[k] == m;
          assert k < |rows| - 1;
          assert m in init;
        }
      }
    }
  }

  /** An action status update changes the status of the row with that id
      and nothing else; it does not look at the status it replaces. */
  lemma ActionStatusUpdate(rows: seq<ActionRow>, id: int, status: string)
    ensures forall i :: 0 <= i < |rows| ==>
      SetActionStatus(rows, id, status)[i].status == (if rows[i].id == id then status else rows[i].status)
    ensures forall i :: 0 <= i < |rows| ==>
      SetActionStatus(rows, id, status)[i] == rows[i].(status := SetActionStatus(rows, id, status)[i].status)
  {
  }

  /** No one-way guard: a later write replaces an earlier one, whatever the
      statuses are, so 'completed' can be turned back into 'pending'. */
  lemma ActionStatusLastWriteWins(rows: seq<ActionRow>, id: int, first: string, second: string)
    ensures SetActionStatus(SetActionStatus(rows, id, first), id, second) == SetActionStatus(rows, id, second)
  {
  }

  /** A conversation status update changes only that row's status. */
  lemma ConversationStatusUpdate(rows: seq<ConversationRow>, id: int, status: string)
    ensures forall i :: 0 <= i < |rows| ==>
      SetConversationStatus(rows, id, status)[i] ==
        rows[i].(status := if rows[i].id == id then status else rows[i].status)
  {
  }

  /** With ids equal to row numbers, the language lookup reads the row
      with that id and falls back to "en" only when there is none. */
  lemma LanguageLookup(rows: seq<ConversationRow>, clock: nat, conversationId: int)
    requires ConversationsWellFormed(rows, clock)
    ensures 1 <= conversationId <= |rows| ==>
      ConversationLanguage(rows, conversationId) == rows[conversationId - 1].language
    ensures !(1 <= conversationId <= |rows|) ==> ConversationLanguage(rows, conversationId) == "en"
  {
    LanguageAt(rows, 1, conversationId);
  }

  lemma {:induction false} ConversationAt(rows: seq<ConversationRow>, base: int, conversationId: int)
    requires forall i :: 0 <= i < |rows| ==> rows[i].id == i + base
    ensures base <= conversationId < base + |rows| ==>
      ConversationById(rows, conversationId) == Some(Info(rows[conversationId - base]))
    ensures !(base <= conversationId < base + |rows|) ==> ConversationById(rows, conversationId) == None
  {
    if rows != [] {
      ConversationAt(rows[1..], base + 1, conversationId);
    }
  }

  lemma {:induction false} LanguageAt(rows: seq<ConversationRow>, base: int, conversationId: int)
    requires forall i :: 0 <= i < |rows| ==> rows[i].id == i + base
    ensures base <= conversationId < base + |rows| ==>
      ConversationLanguage(rows, conversationId) == rows[conversationId - base].language
    ensures !(base <= conversationId < base + |rows|) ==> ConversationLanguage(rows, conversationId) == "en"
  {
    if rows != [] {
      LanguageAt(rows[1..], base + 1, conversationId);
    }
  }
}
