/**
 * The chat utilities over the chat log table and the document table:
 * logging an interaction, checking that a document exists, listing a user's
 * history or a document's chats newest first, and deleting one entry. Each
 * store call can reply with an error or throw; both are reported as a
 * `ChatError`, never thrown on.
 */
module ChatLogs {
  import opened Wrappers
  import opened Js
  import Store
  import Ordering
  import Seqs
  import opened ChatTypes

  /** A store error object as a chat error with the given message. */
  function FromStore(message: string, e: Store.StoreError): (r: ChatError)
    ensures r.message == message && r.code == Some(e.code) && r.details == Data(JStr(e.details))
  {
    ChatError(message, Some(e.code), Data(JStr(e.details)))
  }

  /** A caught exception as a chat error: no code, the exception itself as details. */
  function FromThrown(message: string, t: Thrown): (r: ChatError)
    ensures r.message == message && r.code == None && r.details == Raised(t)
  {
    ChatError(message, None, Raised(t))
  }

  function CreatedAt(c: ChatLog): int {
    c.createdAt
  }

  /** `.eq("user_id", userId)`: rows without a user never match. */
  predicate OwnedBy(c: ChatLog, userId: string) {
    c.entry.userId == Some(userId)
  }

  predicate AboutDocument(c: ChatLog, documentId: string) {
    c.entry.documentId == Some(documentId)
  }

  /** The rows `deleteChatLog` removes: this identifier, owned by this user. */
  predicate Targeted(c: ChatLog, userId: string, chatId: string) {
    c.id == chatId && OwnedBy(c, userId)
  }

  /** The table after deleting the targeted rows; the others stay, in order. */
  function Remaining(rows: seq<ChatLog>, userId: string, chatId: string): (r: seq<ChatLog>)
    ensures |r| <= |rows|
    ensures forall c :: c in r <==> c in rows && !Targeted(c, userId, chatId)
    ensures forall c :: c in rows && !Targeted(c, userId, chatId) ==>
      multiset(r)[c] == multiset(rows)[c]
  {
    if rows == [] then []
    else
      assert rows == [rows[0]] + rows[1..];
      if Targeted(rows[0], userId, chatId) then Remaining(rows[1..], userId, chatId)
      else [rows[0]] + Remaining(rows[1..], userId, chatId)
  }

  /** Deleting the same entry twice removes nothing the second time. */
  lemma {:induction false} RemainingIdempotent(rows: seq<ChatLog>, userId: string, chatId: string)
    ensures Remaining(Remaining(rows, userId, chatId), userId, chatId) == Remaining(rows, userId, chatId)
  {
    if rows != [] {
      RemainingIdempotent(rows[1..], userId, chatId);
    }
  }

  /** Another user's rows are never touched, whatever identifier is given. */
  lemma {:induction false} OtherUsersUntouched(rows: seq<ChatLog>, userId: string, chatId: string, other: string)
    requires other != userId
    ensures Seqs.Filter(Remaining(rows, userId, chatId), (c: ChatLog) => OwnedBy(c, other))
         == Seqs.Filter(rows, (c: ChatLog) => OwnedBy(c, other))
  {
    if rows != [] {
      OtherUsersUntouched(rows[1..], userId, chatId, other);
    }
  }

  datatype ChatQuery = ChatQuery(data: Option<seq<ChatLog>>, error: Option<ChatError>)

  /** `getChatHistory`: the user's entries, newest first. */
  function History(rows: seq<ChatLog>, userId: string, fault: Store.Fault): (r: ChatQuery)
    ensures r.data.Some? <==> fault.Healthy?
    ensures r.error.None? <==> fault.Healthy?
    ensures r.data.Some? ==>
      multiset(r.data.value) == multiset(Seqs.Filter(rows, (c: ChatLog) => OwnedBy(c, userId))) &&
      Ordering.NewestFirst(r.data.value, CreatedAt)
    ensures r.data.Some? ==> forall c :: c in r.data.value <==> c in rows && OwnedBy(c, userId)
    ensures fault.Fails? ==> r.error == Some(FromStore("Failed to fetch chat history", fault.error))
    ensures fault.Throws? ==> r.error == Some(FromThrown("Failed to fetch chat history", fault.thrown))
  {
    match fault
    case Healthy =>
      var mine := Seqs.Filter(rows, (c: ChatLog) => OwnedBy(c, userId));
      var sorted := Ordering.SortNewestFirst(mine, CreatedAt);
      assert forall c :: c in sorted <==> c in multiset(sorted);
      ChatQuery(Some(sorted), None)
    case Fails(e) => ChatQuery(None, Some(FromStore("Failed to fetch chat history", e)))
    case Throws(t) => ChatQuery(None, Some(FromThrown("Failed to fetch chat history", t)))
  }

  /** `getDocumentChats`: the user's entries about one document, newest first. */
  function DocumentChats(rows: seq<ChatLog>, userId: string, documentId: string, fault: Store.Fault): (r: ChatQuery)
    ensures r.data.Some? <==> fault.Healthy?
    ensures r.error.None? <==> fault.Healthy?
    ensures r.data.Some? ==>
      multiset(r.data.value) == multiset(Seqs.Filter(rows, (c: ChatLog) => OwnedBy(c, userId) && AboutDocument(c, documentId))) &&
      Ordering.NewestFirst(r.data.value, CreatedAt)
    ensures r.data.Some? ==> forall c :: c in r.data.value <==> c in rows && OwnedBy(c, userId) && AboutDocument(c, documentId)
    ensures fault.Fails? ==> r.error == Some(FromStore("Failed to fetch document chats", fault.error))
    ensures fault.Throws? ==> r.error == Some(FromThrown("Failed to fetch document chats", fault.thrown))
  {
    match fault
    case Healthy =>
      var mine := Seqs.Filter(rows, (c: ChatLog) => OwnedBy(c, userId) && AboutDocument(c, documentId));
      var sorted := Ordering.SortNewestFirst(mine, CreatedAt);
      assert forall c :: c in sorted <==> c in multiset(sorted);
      ChatQuery(Some(sorted), None)
    case Fails(e) => ChatQuery(None, Some(FromStore("Failed to fetch document chats", e)))
    case Throws(t) => ChatQuery(None, Some(FromThrown("Failed to fetch document chats", t)))
  }

  /** A document's chats are exactly the entries of the user's history that are about it. */
  lemma DocumentChatsWithinHistory(rows: seq<ChatLog>, userId: string, documentId: string)
    ensures forall c :: c in DocumentChats(rows, userId, documentId, Store.Healthy).data.value <==>
      c in History(rows, userId, Store.Healthy).data.value && AboutDocument(c, documentId)
  {
  }

  /**
   * `validateDocumentAccess`: valid exactly when the document table holds one
   * row with this `doc_id`. `.single()` reports zero or several rows as an
   * error, so a missing document and a duplicated one are both refused.
   */
  function ValidateDocumentAccess(userId: string, documentId: string, documents: seq<Store.Row>, fault: Store.Fault)
    : (r: ChatValidationResult)
    ensures r.valid <==> fault.Healthy? && Store.CountWhere(documents, "doc_id", documentId) == 1
    ensures r.valid <==> r.error.None?
    ensures fault.Healthy? && !r.valid ==>
      r.error == Some(FromStore("Document access validation failed",
                                Store.NotSingleRow(Store.CountWhere(documents, "doc_id", documentId))))
    ensures fault.Fails? ==> r.error == Some(FromStore("Document access validation failed", fault.error))
    ensures fault.Throws? ==> r.error == Some(FromThrown("Unexpected error during document validation", fault.thrown))
  {
    match fault
    case Healthy =>
      (match Store.Single(Store.Where(documents, "doc_id", documentId))
       case Found(_) => ChatValidationResult(true, None)
       case NotSingle(e) => ChatValidationResult(false, Some(FromStore("Document access validation failed", e))))
    case Fails(e) => ChatValidationResult(false, Some(FromStore("Document access validation failed", e)))
    case Throws(t) => ChatValidationResult(false, Some(FromThrown("Unexpected error during document validation", t)))
  }

  /** The user is never consulted: any two users get the same answer for the same document. */
  lemma ValidationIgnoresUser(a: string, b: string, documentId: string, documents: seq<Store.Row>, fault: Store.Fault)
    ensures ValidateDocumentAccess(a, documentId, documents, fault) == ValidateDocumentAccess(b, documentId, documents, fault)
  {
  }

  /** The `chat_logs` table. */
  class ChatLogTable {
    var rows: seq<ChatLog>

    constructor (initial: seq<ChatLog>)
      ensures rows == initial
    {
      rows := initial;
    }

    /**
     * `logChat`: inserts one row carrying the entry, with the identifier and
     * timestamp the store assigns; a store error or an exception leaves the
     * table as it was and is reported.
     */
    method LogChat(entry: ChatLogInput, fault: Store.Fault, newId: string, now: int) returns (error: Option<ChatError>)
      modifies this
      ensures error.None? <==> fault.Healthy?
      ensures fault.Healthy? ==> rows == old(rows) + [ChatLog(newId, now, entry)]
      ensures !fault.Healthy? ==> rows == old(rows)
      ensures fault.Fails? ==> error == Some(FromStore("Failed to log chat interaction", fault.error))
      ensures fault.Throws? ==> error == Some(FromThrown("Unexpected error while logging chat", fault.thrown))
    {
      match fault {
        case Healthy =>
          rows := rows + [ChatLog(newId, now, entry)];
          error := None;
        case Fails(e) =>
          error := Some(FromStore("Failed to log chat interaction", e));
        case Throws(t) =>
          error := Some(FromThrown("Unexpected error while logging chat", t));
      }
    }

    /** `deleteChatLog`: removes the entry only when both identifier and owner match. */
    method DeleteChatLog(userId: string, chatId: string, fault: Store.Fault) returns (error: Option<ChatError>)
      modifies this
      ensures error.None? <==> fault.Healthy?
      ensures fault.Healthy? ==> rows == Remaining(old(rows), userId, chatId)
      ensures !fault.Healthy? ==> rows == old(rows)
      ensures fault.Fails? ==> error == Some(FromStore("Failed to delete chat log", fault.error))
      ensures fault.Throws? ==> error == Some(FromThrown("Unexpected error while deleting chat log", fault.thrown))
    {
      match fault {
        case Healthy =>
          rows := Remaining(rows, userId, chatId);
          error := None;
        case Fails(e) =>
          error := Some(FromStore("Failed to delete chat log", e));
        case Throws(t) =>
          error := Some(FromThrown("Unexpected error while deleting chat log", t));
      }
    }

  }

  /** A logged interaction shows up in its user's history. */
  lemma LoggedChatInHistory(before: seq<ChatLog>, entry: ChatLogInput, userId: string, newId: string, now: int)
    requires entry.userId == Some(userId)
    ensures ChatLog(newId, now, entry) in History(before + [ChatLog(newId, now, entry)], userId, Store.Healthy).data.value
  {
  }

  /** After a successful delete the entry is gone from its owner's history. */
  lemma DeletedChatLeavesHistory(rows: seq<ChatLog>, userId: string, chatId: string)
    ensures forall c :: c in History(Remaining(rows, userId, chatId), userId, Store.Healthy).data.value ==> c.id != chatId
  {
  }
}
