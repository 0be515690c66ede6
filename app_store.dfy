/**
 * The back end's tables and the endpoints of `backend/app.py` that read or
 * change them: upload, document and chat deletion (scoped by owner, with
 * their cascades), the chat list with its previews, and the study-tools
 * request. The tables are sequences in insertion order; since every
 * timestamp defaults to the time of insertion, insertion order stands for
 * timestamp order.
 */
module AppStore {
  import opened Wrappers
  import opened Json
  import opened AppChecks

  datatype Document = Document(id: int, userId: int, filename: string, extractedText: string)
  datatype Chat = Chat(id: int, userId: int, documentId: int)
  datatype Message = Message(id: int, chatId: int, sender: string, text: string)

  /** `id` is a primary key. */
  ghost predicate UniqueDocumentIds(ds: seq<Document>) {
    forall i, j :: 0 <= i < j < |ds| ==> ds[i].id != ds[j].id
  }

  ghost predicate UniqueChatIds(cs: seq<Chat>) {
    forall i, j :: 0 <= i < j < |cs| ==> cs[i].id != cs[j].id
  }

  /** Every chat was opened by its document's owner (`create_chat` checks this). */
  ghost predicate ChatsOnOwnDocuments(ds: seq<Document>, cs: seq<Chat>) {
    forall c :: c in cs ==> exists d :: d in ds && d.id == c.documentId && d.userId == c.userId
  }

  // --------------------------------------------------------------- lookups

  /** `Document.query.filter_by(id=id, user_id=user).first()`. */
  function FindDocument(ds: seq<Document>, id: int, user: int): (r: Option<Document>)
    ensures r.Some? ==> r.value in ds && r.value.id == id && r.value.userId == user
    ensures r.None? ==> forall d :: d in ds ==> !(d.id == id && d.userId == user)
  {
    if ds == [] then None
    else if ds[0].id == id && ds[0].userId == user then Some(ds[0])
    else FindDocument(ds[1..], id, user)
  }

  /** `Chat.query.filter_by(id=id, user_id=user).first()`. */
  function FindChat(cs: seq<Chat>, id: int, user: int): (r: Option<Chat>)
    ensures r.Some? ==> r.value in cs && r.value.id == id && r.value.userId == user
    ensures r.None? ==> forall c :: c in cs ==> !(c.id == id && c.userId == user)
  {
    if cs == [] then None
    else if cs[0].id == id && cs[0].userId == user then Some(cs[0])
    else FindChat(cs[1..], id, user)
  }

  /** `Document.query.get(id)`: by primary key alone, whoever owns it. */
  function GetDocument(ds: seq<Document>, id: int): (r: Option<Document>)
    ensures r.Some? ==> r.value in ds && r.value.id == id
    ensures r.None? ==> forall d :: d in ds ==> d.id != id
  {
    if ds == [] then None
    else if ds[0].id == id then Some(ds[0])
    else GetDocument(ds[1..], id)
  }

  /** A record another user owns is not found, so the request gets 404. */
  lemma OthersDocumentNotFound(ds: seq<Document>, k: nat, user: int)
    requires UniqueDocumentIds(ds) && k < |ds| && ds[k].userId != user
    ensures FindDocument(ds, ds[k].id, user).None?
  {
    var r := FindDocument(ds, ds[k].id, user);
    if r.Some? {
      assert false;
    }
  }

  lemma OthersChatNotFound(cs: seq<Chat>, k: nat, user: int)
    requires UniqueChatIds(cs) && k < |cs| && cs[k].userId != user
    ensures FindChat(cs, cs[k].id, user).None?
  {
    var r := FindChat(cs, cs[k].id, user);
    if r.Some? {
      assert false;
    }
  }

  // ------------------------------------------------------------- deletions

  /** The documents other than the one with primary key `id`. */
  function WithoutDocument(ds: seq<Document>, id: int): (r: seq<Document>)
    ensures forall d :: d in r <==> d in ds && d.id != id
  {
    if ds == [] then []
    else (if ds[0].id == id then [] else [ds[0]]) + WithoutDocument(ds[1..], id)
  }

  /** The chats other than the one with primary key `id`. */
  function WithoutChat(cs: seq<Chat>, id: int): (r: seq<Chat>)
    ensures forall c :: c in r <==> c in cs && c.id != id
  {
    if cs == [] then []
    else (if cs[0].id == id then [] else [cs[0]]) + WithoutChat(cs[1..], id)
  }

  /** `Chat.query.filter_by(document_id=id).all()`. */
  function ChatsOf(cs: seq<Chat>, documentId: int): (r: seq<Chat>)
    ensures forall c :: c in r <==> c in cs && c.documentId == documentId
  {
    if cs == [] then []
    else (if cs[0].documentId == documentId then [cs[0]] else []) + ChatsOf(cs[1..], documentId)
  }

  /** The chats not on document `documentId`. */
  function WithoutChatsOf(cs: seq<Chat>, documentId: int): (r: seq<Chat>)
    ensures forall c :: c in r <==> c in cs && c.documentId != documentId
  {
    if cs == [] then []
    else (if cs[0].documentId == documentId then [] else [cs[0]]) + WithoutChatsOf(cs[1..], documentId)
  }

  /** The ids of the chats in `cs`. */
  function ChatIds(cs: seq<Chat>): (r: set<int>)
    ensures forall id :: id in r <==> exists c :: c in cs && c.id == id
  {
    if cs == [] then {}
    else
      var last := cs[|cs| - 1];
      assert forall c :: c in cs <==> c in cs[..|cs| - 1] || c == last;
      ChatIds(cs[..|cs| - 1]) + {last.id}
  }

  /** The messages whose chat is not in `chatIds`. */
  function WithoutMessagesOf(ms: seq<Message>, chatIds: set<int>): (r: seq<Message>)
    ensures forall m :: m in r <==> m in ms && m.chatId !in chatIds
  {
    if ms == [] then []
    else (if ms[0].chatId in chatIds then [] else [ms[0]]) + WithoutMessagesOf(ms[1..], chatIds)
  }

  /** Deleting the messages of one more chat is deleting those of the enlarged set of chats. */
  lemma {:induction false} WithoutMessagesOfMore(ms: seq<Message>, chatIds: set<int>, id: int)
    ensures WithoutMessagesOf(WithoutMessagesOf(ms, chatIds), {id}) == WithoutMessagesOf(ms, chatIds + {id})
  {
    if ms != [] {
      WithoutMessagesOfMore(ms[1..], chatIds, id);
      if ms[0].chatId !in chatIds {
        var rest := WithoutMessagesOf(ms[1..], chatIds);
        assert ([ms[0]] + rest)[0] == ms[0] && ([ms[0]] + rest)[1..] == rest;
      } else {
        assert WithoutMessagesOf(ms, chatIds) == WithoutMessagesOf(ms[1..], chatIds);
      }
    }
  }

  /** Deleting the messages of no chat deletes nothing. */
  lemma {:induction false} WithoutMessagesOfNone(ms: seq<Message>)
    ensures WithoutMessagesOf(ms, {}) == ms
  {
    if ms != [] {
      WithoutMessagesOfNone(ms[1..]);
      assert [ms[0]] + ms[1..] == ms;
    }
  }

  /**
   * `delete_document` gathers the chats on the document without looking at
   * their owner; while chats sit on their owner's documents, those chats are
   * all the caller's.
   */
  lemma CascadeStaysWithOwner(ds: seq<Document>, cs: seq<Chat>, documentId: int, user: int)
    requires UniqueDocumentIds(ds) && ChatsOnOwnDocuments(ds, cs)
    requires FindDocument(ds, documentId, user).Some?
    ensures forall c :: c in ChatsOf(cs, documentId) ==> c.userId == user
  {
    var owned := FindDocument(ds, documentId, user).value;
    forall c | c in ChatsOf(cs, documentId) ensures c.userId == user {
      var d :| d in ds && d.id == c.documentId && d.userId == c.userId;
      var i :| 0 <= i < |ds| && ds[i] == d;
      var j :| 0 <= j < |ds| && ds[j] == owned;
      assert i == j;
    }
  }

  /**
   * Deleting a document keeps exactly the messages whose chat is not on that
   * document, the chats not on it, and the other documents.
   */
  lemma DeleteDocumentKeepsOthers(ds: seq<Document>, cs: seq<Chat>, ms: seq<Message>, documentId: int)
    ensures forall m :: m in WithoutMessagesOf(ms, ChatIds(ChatsOf(cs, documentId))) <==>
      m in ms && !(exists c :: c in cs && c.documentId == documentId && c.id == m.chatId)
    ensures forall c :: c in WithoutChatsOf(cs, documentId) <==> c in cs && c.documentId != documentId
    ensures forall d :: d in WithoutDocument(ds, documentId) <==> d in ds && d.id != documentId
  {
  }

  // ---------------------------------------------------------------- previews

  /** The first message the user sent, if any. */
  function FirstUserMessage(ms: seq<Message>): (r: Option<Message>)
    ensures r.Some? ==> r.value.sender == "user"
    ensures r.Some? ==> exists k :: 0 <= k < |ms| && ms[k] == r.value && forall j :: 0 <= j < k ==> ms[j].sender != "user"
    ensures r.None? ==> forall j :: 0 <= j < |ms| ==> ms[j].sender != "user"
  {
    if ms == [] then None
    else if ms[0].sender == "user" then Some(ms[0])
    else
      var r := FirstUserMessage(ms[1..]);
      if r.Some? then
        var k :| 0 <= k < |ms[1..]| && ms[1..][k] == r.value && forall j :: 0 <= j < k ==> ms[1..][j].sender != "user";
        assert ms[k + 1] == r.value && forall j :: 0 <= j < k + 1 ==> ms[j].sender != "user";
        r
      else r
  }

  /** The preview of a chat's messages (in timestamp order). */
  function Preview(ms: seq<Message>): (r: string)
    ensures |r| <= 53
    ensures FirstUserMessage(ms).None? ==> r == "New chat"
    ensures FirstUserMessage(ms).Some? ==> r == Truncate(FirstUserMessage(ms).value.text)
  {
    match FirstUserMessage(ms)
    case None => "New chat"
    case Some(m) => Truncate(m.text)
  }

  /** The preview loop of `get_chats`: scan for the first user message and stop there. */
  method FindPreview(ms: seq<Message>) returns (preview: string)
    ensures preview == Preview(ms)
  {
    preview := "New chat";
    var i := 0;
    while i < |ms|
      invariant 0 <= i <= |ms|
      invariant forall j :: 0 <= j < i ==> ms[j].sender != "user"
      invariant preview == "New chat"
    {
      if ms[i].sender == "user" {
        preview := Truncate(ms[i].text);
        FirstUserAt(ms, i);
        return;
      }
      i := i + 1;
    }
  }

  /** A user message with no user message before it is the first one. */
  lemma {:induction false} FirstUserAt(ms: seq<Message>, i: nat)
    requires i < |ms| && ms[i].sender == "user"
    requires forall j :: 0 <= j < i ==> ms[j].sender != "user"
    ensures FirstUserMessage(ms) == Some(ms[i])
  {
    if i > 0 {
      FirstUserAt(ms[1..], i - 1);
    }
  }

  /** `Message.query.filter_by(chat_id=id)`, in timestamp order. */
  function MessagesOf(ms: seq<Message>, chatId: int): (r: seq<Message>)
    ensures forall m :: m in r <==> m in ms && m.chatId == chatId
    ensures |r| <= |ms|
  {
    if ms == [] then []
    else (if ms[0].chatId == chatId then [ms[0]] else []) + MessagesOf(ms[1..], chatId)
  }

  /**
   * Messages keep the order they were stored in: a message stored after all
   * others comes after the chat's earlier messages, which are unchanged.
   */
  lemma {:induction false} MessagesOfAppend(ms: seq<Message>, m: Message, chatId: int)
    ensures MessagesOf(ms + [m], chatId) == MessagesOf(ms, chatId) + (if m.chatId == chatId then [m] else [])
  {
    if ms == [] {
      assert [] + [m] == [m];
      assert [m][1..] == [];
    } else {
      assert (ms + [m])[0] == ms[0] && (ms + [m])[1..] == ms[1..] + [m];
      MessagesOfAppend(ms[1..], m, chatId);
    }
  }

  /** One entry of the `get_chats` reply. */
  datatype ChatSummary = ChatSummary(id: int, documentId: int, documentName: string, preview: string)

  /** The entry for chat `c`: its document's file name ("Unknown" if the document is gone) and its preview. */
  function Summary(ds: seq<Document>, ms: seq<Message>, c: Chat): (s: ChatSummary)
    ensures s.id == c.id && s.documentId == c.documentId && |s.preview| <= 53
    ensures GetDocument(ds, c.documentId).Some? ==> s.documentName == GetDocument(ds, c.documentId).value.filename
    ensures (forall d :: d in ds ==> d.id != c.documentId) ==> s.documentName == "Unknown"
    ensures FirstUserMessage(MessagesOf(ms, c.id)).None? ==> s.preview == "New chat"
    ensures FirstUserMessage(MessagesOf(ms, c.id)).Some? ==>
      s.preview == Truncate(FirstUserMessage(MessagesOf(ms, c.id)).value.text)
  {
    var name := match GetDocument(ds, c.documentId)
      case Some(d) => d.filename
      case None => "Unknown";
    ChatSummary(c.id, c.documentId, name, Preview(MessagesOf(ms, c.id)))
  }

  /** The `get_chats` reply: the user's chats, newest first. */
  function ChatList(ds: seq<Document>, cs: seq<Chat>, ms: seq<Message>, user: int): seq<ChatSummary>
  {
    if cs == [] then []
    else ChatList(ds, cs[1..], ms, user) + (if cs[0].userId == user then [Summary(ds, ms, cs[0])] else [])
  }

  /** The list has one entry per chat of the user, the latest created first. */
  lemma {:induction false} ChatListShape(ds: seq<Document>, cs: seq<Chat>, ms: seq<Message>, user: int)
    ensures forall s :: s in ChatList(ds, cs, ms, user) <==>
      exists c :: c in cs && c.userId == user && s == Summary(ds, ms, c)
    ensures forall s :: s in ChatList(ds, cs, ms, user) ==> |s.preview| <= 53
  {
    if cs != [] {
      ChatListShape(ds, cs[1..], ms, user);
      assert forall c :: c in cs <==> c == cs[0] || c in cs[1..];
    }
  }

  /** The chat created last heads the list. */
  lemma {:induction false} NewestChatFirst(ds: seq<Document>, cs: seq<Chat>, ms: seq<Message>, c: Chat)
    ensures ChatList(ds, cs + [c], ms, c.userId) == [Summary(ds, ms, c)] + ChatList(ds, cs, ms, c.userId)
  {
    if cs != [] {
      assert (cs + [c])[1..] == cs[1..] + [c];
      NewestChatFirst(ds, cs[1..], ms, c);
    } else {
      assert ([] + [c])[1..] == [];
    }
  }

  // ------------------------------------------------------------ study tools

  /** What `get_study_tools` does before calling the generator. */
  datatype ToolReply = Refused(response: Response) | Generate(toolType: string)

  /**
   * 404 unless the document is the user's, then 400 unless the body's
   * `type` is one of the three tools; a body that is not a JSON object has
   * no `get`, and Flask answers the AttributeError with a bare 500.
   */
  function StudyToolsReply(ds: seq<Document>, user: int, documentId: int, body: Value): (r: ToolReply)
    ensures FindDocument(ds, documentId, user).None? ==> r == Refused(Response(404, "Document not found!"))
    ensures r.Generate? <==>
      FindDocument(ds, documentId, user).Some? && body.Obj? && ValidToolType(Get(body, "type"))
    ensures r.Generate? ==> Str(r.toolType) == Get(body, "type")
    ensures FindDocument(ds, documentId, user).Some? && !body.Obj? ==>
      r == Refused(Response(500, ""))
    ensures FindDocument(ds, documentId, user).Some? && body.Obj? && !ValidToolType(Get(body, "type")) ==>
      r == Refused(Response(400, "Invalid tool type!"))
  {
    if FindDocument(ds, documentId, user).None? then Refused(Response(404, "Document not found!"))
    else if !body.Obj? then Refused(Response(500, ""))
    else if !ValidToolType(Get(body, "type")) then Refused(Response(400, "Invalid tool type!"))
    else Generate(Get(body, "type").s)
  }

  // ------------------------------------------------------------------ store

  /** The largest document id, or 0 for no documents. */
  function MaxDocumentId(ds: seq<Document>): (r: int)
    ensures forall d :: d in ds ==> d.id <= r
  {
    if ds == [] then 0
    else
      var m := MaxDocumentId(ds[..|ds| - 1]);
      assert forall d :: d in ds ==> d in ds[..|ds| - 1] || d == ds[|ds| - 1];
      if ds[|ds| - 1].id > m then ds[|ds| - 1].id else m
  }

  /** The largest chat id, or 0 for no chats. */
  function MaxChatId(cs: seq<Chat>): (r: int)
    ensures forall c :: c in cs ==> c.id <= r
  {
    if cs == [] then 0
    else
      var m := MaxChatId(cs[..|cs| - 1]);
      assert forall c :: c in cs ==> c in cs[..|cs| - 1] || c == cs[|cs| - 1];
      if cs[|cs| - 1].id > m then cs[|cs| - 1].id else m
  }

  /** The three tables. */
  class Store {
    var documents: seq<Document>
    var chats: seq<Chat>
    var messages: seq<Message>

    ghost predicate Valid()
      reads this
    {
      Tables(documents, chats)
    }

    constructor ()
      ensures Valid() && documents == [] && chats == [] && messages == []
    {
      documents, chats, messages := [], [], [];
    }

    /**
     * `upload_document`: the checks, then extraction; a Document is added,
     * under the next free id, only on 201.
     */
    method UploadDocument(user: int, filename: Option<string>, extraction: Extraction) returns (resp: Response)
      requires Valid()
      modifies this
      ensures Valid()
      ensures resp == UploadReply(filename, extraction)
      ensures documents == WithUpload(old(documents), user, filename, extraction)
      ensures chats == old(chats) && messages == old(messages)
    {
      resp := UploadReply(filename, extraction);
      UploadKeepsTables(documents, chats, user, filename, extraction);
      documents := WithUpload(documents, user, filename, extraction);
    }

    /**
     * `delete_document`: 404 unless the document is the user's; otherwise
     * delete the messages of each chat on it, then those chats, then the
     * document.
     */
    method DeleteDocument(user: int, documentId: int) returns (resp: Response)
      requires Valid()
      modifies this
      ensures Valid()
      ensures FindDocument(old(documents), documentId, user).None? ==>
        resp == Response(404, "Document not found!") &&
        documents == old(documents) && chats == old(chats) && messages == old(messages)
      ensures FindDocument(old(documents), documentId, user).Some? ==>
        resp == Response(200, "Document deleted successfully!") &&
        messages == WithoutMessagesOf(old(messages), ChatIds(ChatsOf(old(chats), documentId))) &&
        chats == WithoutChatsOf(old(chats), documentId) &&
        documents == WithoutDocument(old(documents), documentId)
    {
      if FindDocument(documents, documentId, user).None? {
        return Response(404, "Document not found!");
      }
      var doomed := ChatsOf(chats, documentId);
      var k := 0;
      assert doomed[..0] == [];
      WithoutMessagesOfNone(messages);
      while k < |doomed|
        invariant 0 <= k <= |doomed|
        invariant messages == WithoutMessagesOf(old(messages), ChatIds(doomed[..k]))
        invariant documents == old(documents) && chats == old(chats)
      {
        WithoutMessagesOfMore(old(messages), ChatIds(doomed[..k]), doomed[k].id);
        assert doomed[..k + 1][..k] == doomed[..k];
        messages := WithoutMessagesOf(messages, {doomed[k].id});
        k := k + 1;
      }
      assert doomed[..k] == doomed;
      chats := WithoutChatsOf(chats, documentId);
      documents := WithoutDocument(documents, documentId);
      WithoutChatsOfKeepsKeys(old(chats), documentId);
      WithoutDocumentKeepsKeys(old(documents), documentId);
      assert ChatsOnOwnDocuments(documents, chats) by {
        forall c | c in chats
          ensures exists d :: d in documents && d.id == c.documentId && d.userId == c.userId
        {
          var d :| d in old(documents) && d.id == c.documentId && d.userId == c.userId;
          assert d in documents;
        }
      }
      resp := Response(200, "Document deleted successfully!");
    }

    /** `delete_chat`: 404 unless the chat is the user's; otherwise its messages, then the chat. */
    method DeleteChat(user: int, chatId: int) returns (resp: Response)
      requires Valid()
      modifies this
      ensures Valid()
      ensures FindChat(old(chats), chatId, user).None? ==>
        resp == Response(404, "Chat not found!") &&
        documents == old(documents) && chats == old(chats) && messages == old(messages)
      ensures FindChat(old(chats), chatId, user).Some? ==>
        resp == Response(200, "Chat deleted successfully!") &&
        messages == WithoutMessagesOf(old(messages), {chatId}) &&
        chats == WithoutChat(old(chats), chatId) && documents == old(documents)
    {
      if FindChat(chats, chatId, user).None? {
        return Response(404, "Chat not found!");
      }
      messages := WithoutMessagesOf(messages, {chatId});
      chats := WithoutChat(chats, chatId);
      WithoutChatKeepsKeys(old(chats), chatId);
      resp := Response(200, "Chat deleted successfully!");
    }

    /**
     * `create_chat`: 400 for a missing (or zero) document id, 404 unless the
     * document is the user's; otherwise a chat under the next free id (the
     * 201 reply carries the new chat rather than a message, hence "").
     */
    method CreateChat(user: int, documentId: int) returns (resp: Response)
      requires Valid()
      modifies this
      ensures Valid()
      ensures documentId == 0 ==> resp == Response(400, "Document ID is required!")
      ensures documentId != 0 && FindDocument(old(documents), documentId, user).None? ==>
        resp == Response(404, "Document not found!")
      ensures resp.status == 201 <==> documentId != 0 && FindDocument(old(documents), documentId, user).Some?
      ensures resp.status == 201 ==>
        chats == old(chats) + [Chat(MaxChatId(old(chats)) + 1, user, documentId)]
      ensures resp.status != 201 ==> chats == old(chats)
      ensures documents == old(documents) && messages == old(messages)
    {
      if documentId == 0 {
        return Response(400, "Document ID is required!");
      }
      var found := FindDocument(documents, documentId, user);
      if found.None? {
        return Response(404, "Document not found!");
      }
      var c := Chat(MaxChatId(chats) + 1, user, documentId);
      AppendFreshKeepsChatKeys(chats, c);
      chats := chats + [c];
      assert forall x :: x in chats ==> x in old(chats) || x == c;
      resp := Response(201, "");
    }

    /** `get_chats`: walk the user's chats newest first, building each entry. */
    method GetChats(user: int) returns (result: seq<ChatSummary>)
      ensures result == ChatList(documents, chats, messages, user)
    {
      result := [];
      var i := |chats|;
      while i > 0
        invariant 0 <= i <= |chats|
        invariant result == ChatList(documents, chats[i..], messages, user)
      {
        i := i - 1;
        var chat := chats[i];
        assert chats[i..][1..] == chats[i + 1..];
        if chat.userId == user {
          var name := match GetDocument(documents, chat.documentId)
            case Some(d) => d.filename
            case None => "Unknown";
          var preview := FindPreview(MessagesOf(messages, chat.id));
          result := result + [ChatSummary(chat.id, chat.documentId, name, preview)];
        }
      }
      assert chats[0..] == chats;
    }
  }

  // ------------------------------------------------------- keeping the keys

  /** A document whose id exceeds every other keeps the primary key unique. */
  lemma AppendFreshKeepsKeys(ds: seq<Document>, d: Document)
    requires UniqueDocumentIds(ds) && d.id == MaxDocumentId(ds) + 1
    ensures UniqueDocumentIds(ds + [d])
  {
    var r := ds + [d];
    forall i, j | 0 <= i < j < |r| ensures r[i].id != r[j].id {
      assert r[i] == ds[i] && r[i] in ds;
      if j < |ds| {
        assert r[j] == ds[j];
      }
    }
  }

  lemma AppendFreshKeepsChatKeys(cs: seq<Chat>, c: Chat)
    requires UniqueChatIds(cs) && c.id == MaxChatId(cs) + 1
    ensures UniqueChatIds(cs + [c])
  {
    var r := cs + [c];
    forall i, j | 0 <= i < j < |r| ensures r[i].id != r[j].id {
      assert r[i] == cs[i] && r[i] in cs;
      if j < |cs| {
        assert r[j] == cs[j];
      }
    }
  }

  /**
   * The documents table after an upload: on a 201 reply, one more document
   * under the next id, with the owner, the file name and the extracted
   * text; otherwise unchanged.
   */
  /** The row an accepted upload inserts: the next free id, owned by the uploader. */
  function NewDocument(ds: seq<Document>, user: int, name: string, text: string): (d: Document)
    ensures d.userId == user && d.filename == name && d.extractedText == text
    ensures forall e :: e in ds ==> e.id < d.id
  {
    Document(MaxDocumentId(ds) + 1, user, name, text)
  }

  function WithUpload(ds: seq<Document>, user: int, filename: Option<string>, extraction: Extraction): (r: seq<Document>)
    ensures UploadReply(filename, extraction).status != 201 ==> r == ds
    ensures UploadReply(filename, extraction).status == 201 ==> filename.Some? && extraction.Extracted?
    ensures UploadReply(filename, extraction).status == 201 ==>
      r == ds + [NewDocument(ds, user, filename.value, extraction.text)]
  {
    if filename.Some? && extraction.Extracted? && UploadReply(filename, extraction).status == 201 then
      ds + [NewDocument(ds, user, filename.value, extraction.text)]
    else ds
  }

  /** An upload keeps the tables consistent. */
  lemma UploadKeepsTables(ds: seq<Document>, cs: seq<Chat>, user: int, filename: Option<string>, extraction: Extraction)
    requires Tables(ds, cs)
    ensures Tables(WithUpload(ds, user, filename, extraction), cs)
  {
    if UploadReply(filename, extraction).status == 201 {
      AppendKeepsTables(ds, cs, NewDocument(ds, user, filename.value, extraction.text));
    }
  }

  /** The class invariant of `Store`, on the table contents. */
  ghost predicate Tables(ds: seq<Document>, cs: seq<Chat>) {
    UniqueDocumentIds(ds) && UniqueChatIds(cs) && ChatsOnOwnDocuments(ds, cs)
  }

  /** A document added under the next id keeps the tables consistent. */
  lemma AppendKeepsTables(ds: seq<Document>, cs: seq<Chat>, d: Document)
    requires Tables(ds, cs) && d.id == MaxDocumentId(ds) + 1
    ensures Tables(ds + [d], cs)
  {
    AppendFreshKeepsKeys(ds, d);
    AppendKeepsOwnership(ds, d, cs);
  }

  /** Adding a document leaves every chat on its owner's document. */
  lemma AppendKeepsOwnership(ds: seq<Document>, d: Document, cs: seq<Chat>)
    requires ChatsOnOwnDocuments(ds, cs)
    ensures ChatsOnOwnDocuments(ds + [d], cs)
  {
    forall c | c in cs ensures exists x :: x in ds + [d] && x.id == c.documentId && x.userId == c.userId {
      var x :| x in ds && x.id == c.documentId && x.userId == c.userId;
      assert x in ds + [d];
    }
  }

  /** Dropping chats keeps the primary key unique. */
  lemma {:induction false} WithoutChatsOfKeepsKeys(cs: seq<Chat>, documentId: int)
    requires UniqueChatIds(cs)
    ensures UniqueChatIds(WithoutChatsOf(cs, documentId))
  {
    if cs != [] {
      assert UniqueChatIds(cs[1..]) by {
        forall i, j | 0 <= i < j < |cs[1..]| ensures cs[1..][i].id != cs[1..][j].id {
          assert cs[1..][i] == cs[i + 1] && cs[1..][j] == cs[j + 1];
        }
      }
      WithoutChatsOfKeepsKeys(cs[1..], documentId);
      ConsKeepsChatKeys(cs, WithoutChatsOf(cs[1..], documentId));
    }
  }

  lemma {:induction false} WithoutChatKeepsKeys(cs: seq<Chat>, id: int)
    requires UniqueChatIds(cs)
    ensures UniqueChatIds(WithoutChat(cs, id))
  {
    if cs != [] {
      assert UniqueChatIds(cs[1..]) by {
        forall i, j | 0 <= i < j < |cs[1..]| ensures cs[1..][i].id != cs[1..][j].id {
          assert cs[1..][i] == cs[i + 1] && cs[1..][j] == cs[j + 1];
        }
      }
      WithoutChatKeepsKeys(cs[1..], id);
      ConsKeepsChatKeys(cs, WithoutChat(cs[1..], id));
    }
  }

  /** Putting `cs[0]` (or nothing) before unique chats drawn from `cs[1..]` keeps the key unique. */
  lemma ConsKeepsChatKeys(cs: seq<Chat>, rest: seq<Chat>)
    requires cs != [] && UniqueChatIds(cs) && UniqueChatIds(rest)
    requires forall c :: c in rest ==> c in cs[1..]
    ensures UniqueChatIds([cs[0]] + rest)
  {
    forall c | c in rest ensures c.id != cs[0].id {
      var j :| 0 <= j < |cs[1..]| && cs[1..][j] == c;
      assert cs[j + 1] == c;
    }
    var r := [cs[0]] + rest;
    forall i, j | 0 <= i < j < |r| ensures r[i].id != r[j].id {
      if i == 0 {
        assert r[j] == rest[j - 1] && r[j] in rest;
      } else {
        assert r[i] == rest[i - 1] && r[j] == rest[j - 1];
      }
    }
  }

  lemma {:induction false} WithoutDocumentKeepsKeys(ds: seq<Document>, id: int)
    requires UniqueDocumentIds(ds)
    ensures UniqueDocumentIds(WithoutDocument(ds, id))
  {
    if ds != [] {
      assert UniqueDocumentIds(ds[1..]) by {
        forall i, j | 0 <= i < j < |ds[1..]| ensures ds[1..][i].id != ds[1..][j].id {
          assert ds[1..][i] == ds[i + 1] && ds[1..][j] == ds[j + 1];
        }
      }
      WithoutDocumentKeepsKeys(ds[1..], id);
      if ds[0].id != id {
        ConsKeepsDocumentKeys(ds, WithoutDocument(ds[1..], id));
      }
    }
  }

  /** Putting `ds[0]` before unique documents drawn from `ds[1..]` keeps the key unique. */
  lemma ConsKeepsDocumentKeys(ds: seq<Document>, rest: seq<Document>)
    requires ds != [] && UniqueDocumentIds(ds) && UniqueDocumentIds(rest)
    requires forall d :: d in rest ==> d in ds[1..]
    ensures UniqueDocumentIds([ds[0]] + rest)
  {
    forall d | d in rest ensures d.id != ds[0].id {
      var j :| 0 <= j < |ds[1..]| && ds[1..][j] == d;
      assert ds[j + 1] == d;
    }
    var r := [ds[0]] + rest;
    forall i, j | 0 <= i < j < |r| ensures r[i].id != r[j].id {
      if i == 0 {
        assert r[j] == rest[j - 1] && r[j] in rest;
      } else {
        assert r[i] == rest[i - 1] && r[j] == rest[j - 1];
      }
    }
  }
}
