/** The front end's client-side stores (frontend/lib/store.ts): the signed-in user, the
    uploaded documents, the chat messages with their conversations and the active one, and
    the audit log. Each action replaces store fields; each getter filters (and sorts) the
    current state. Dates are millisecond timestamps; the clock and the random part of a new
    conversation's id are parameters. Browser persistence is outside the model. */
module Stores {
  import opened Wrappers
  import opened Text
  import opened Sequences
  import UserTable

  // ---------------------------------------------------------------------------
  // Signed-in user

  class AuthStore {
    var user: Option<UserTable.UserInfo>

    constructor ()
      ensures user == None
    {
      user := None;
    }

    /** `login(user)` and `switchUser(user)`: both only replace the user. */
    method Login(u: UserTable.UserInfo)
      modifies this
      ensures user == Some(u)
    {
      user := Some(u);
    }

    method Logout()
      modifies this
      ensures user == None
    {
      user := None;
    }
  }

  // ---------------------------------------------------------------------------
  // Documents

  datatype Document = Document(id: string, name: string, department: string, docType: string,
                               size: string, uploadedAt: int, uploadedBy: string)

  class DocumentStore {
    var documents: seq<Document>

    constructor ()
      ensures documents == []
    {
      documents := [];
    }

    /** `addDocument(doc)`: appended at the end. */
    method AddDocument(doc: Document)
      modifies this
      ensures documents == old(documents) + [doc]
    {
      documents := documents + [doc];
    }

    /** `removeDocument(id)`: every document with that id goes, the rest keep their order. */
    method RemoveDocument(id: string)
      modifies this
      ensures documents == Filter(old(documents), (d: Document) => d.id != id)
    {
      documents := Filter(documents, (d: Document) => d.id != id);
    }
  }

  /** After a removal no document has the id, every other document is still there, and the
      survivors are in their old order. */
  lemma RemovedDocuments(docs: seq<Document>, id: string)
    ensures var r := Filter(docs, (d: Document) => d.id != id);
      (forall i :: 0 <= i < |r| ==> r[i].id != id) &&
      (forall d :: d in docs && d.id != id ==> d in r) &&
      (forall d :: d in r ==> d in docs) &&
      IsSubsequence(r, docs)
  {
    FilterSpec(docs, (d: Document) => d.id != id);
    FilterSubsequence(docs, (d: Document) => d.id != id);
  }

  // ---------------------------------------------------------------------------
  // Chat

  datatype MessageRole = User | Assistant
  datatype ChatMessage = ChatMessage(id: string, role: MessageRole, content: string, timestamp: int,
                                     userId: string, conversationId: string)
  datatype Conversation = Conversation(id: string, title: string, userId: string, createdAt: int,
                                       updatedAt: int, messageCount: int)

  const DefaultTitle: string := "New Chat"

  /** The conversations after a message for `id` at time `now`: each conversation with that id
      counts one more message and was updated now; every other is as it was. */
  function Bumped(cs: seq<Conversation>, id: string, now: int): (r: seq<Conversation>)
    ensures |r| == |cs|
    ensures forall i :: 0 <= i < |cs| && cs[i].id != id ==> r[i] == cs[i]
    ensures forall i :: 0 <= i < |cs| && cs[i].id == id ==>
      r[i].messageCount == cs[i].messageCount + 1 && r[i].updatedAt == now &&
      r[i].(messageCount := cs[i].messageCount, updatedAt := cs[i].updatedAt) == cs[i]
  {
    seq(|cs|, i requires 0 <= i < |cs| =>
      if cs[i].id == id then cs[i].(updatedAt := now, messageCount := cs[i].messageCount + 1) else cs[i])
  }

  /** The first conversation with the id (`conversations.find`). */
  function FindConversation(cs: seq<Conversation>, id: string): (r: Option<Conversation>)
    ensures r.Some? <==> exists i :: 0 <= i < |cs| && cs[i].id == id
    ensures r.Some? ==> r.value in cs && r.value.id == id
  {
    if cs == [] then None
    else if cs[0].id == id then Some(cs[0])
    else
      var r := FindConversation(cs[1..], id);
      assert forall i :: 1 <= i < |cs| ==> cs[i] == cs[1..][i - 1];
      assert r.Some? ==> exists i :: 0 <= i < |cs[1..]| && cs[1..][i].id == id;
      r
  }

  /** The sum of the message counts of `cs`. */
  function TotalCount(cs: seq<Conversation>): int {
    if cs == [] then 0 else TotalCount(cs[..|cs| - 1]) + cs[|cs| - 1].messageCount
  }

  /** The number of conversations with the id. */
  function WithId(cs: seq<Conversation>, id: string): nat {
    if cs == [] then 0 else WithId(cs[..|cs| - 1], id) + (if cs[|cs| - 1].id == id then 1 else 0)
  }

  /** A message adds one to the total count for each conversation with its id: exactly one
      when the id is listed once, none when it is not listed. */
  lemma {:induction false} BumpedTotal(cs: seq<Conversation>, id: string, now: int)
    ensures TotalCount(Bumped(cs, id, now)) == TotalCount(cs) + WithId(cs, id)
  {
    if cs != [] {
      var r := Bumped(cs, id, now);
      assert r[..|r| - 1] == Bumped(cs[..|cs| - 1], id, now);
      BumpedTotal(cs[..|cs| - 1], id, now);
    }
  }

  /** A conversation id that is not listed leaves the conversations as they are. */
  lemma BumpedUnknown(cs: seq<Conversation>, id: string, now: int)
    requires forall i :: 0 <= i < |cs| ==> cs[i].id != id
    ensures Bumped(cs, id, now) == cs
  {
  }

  /** The conversations with a new title for `id`; nothing else changes. */
  function Retitled(cs: seq<Conversation>, id: string, title: string): (r: seq<Conversation>)
    ensures |r| == |cs|
    ensures forall i :: 0 <= i < |cs| ==>
      r[i] == if cs[i].id == id then cs[i].(title := title) else cs[i]
  {
    seq(|cs|, i requires 0 <= i < |cs| => if cs[i].id == id then cs[i].(title := title) else cs[i])
  }

  /** The active id once user `u`'s conversations are cleared: cleared when it is set
      (non-empty) and the first conversation with that id belongs to `u`. */
  function ActiveAfterClear(cs: seq<Conversation>, active: Option<string>, u: string): Option<string> {
    if active.Some? && active.value != "" &&
       FindConversation(cs, active.value).Some? && FindConversation(cs, active.value).value.userId == u
    then None
    else active
  }

  /** With ids listed once, the active conversation is cleared exactly when it is one of the
      user's conversations. */
  lemma ActiveAfterClearSpec(cs: seq<Conversation>, active: string, u: string)
    requires active != ""
    requires forall i, j :: 0 <= i < j < |cs| ==> cs[i].id != cs[j].id
    ensures ActiveAfterClear(cs, Some(active), u) == None <==>
      exists i :: 0 <= i < |cs| && cs[i].id == active && cs[i].userId == u
  {
    var f := FindConversation(cs, active);
    if exists i :: 0 <= i < |cs| && cs[i].id == active && cs[i].userId == u {
      var i :| 0 <= i < |cs| && cs[i].id == active && cs[i].userId == u;
      var j :| 0 <= j < |cs| && cs[j] == f.value;
      assert i == j;
    }
  }

  /** The sort key of a conversation: its last update. */
  function UpdatedAt(c: Conversation): int { c.updatedAt }

  /** `getUserConversations(userId)`: the user's conversations, most recently updated first. */
  function UserConversations(cs: seq<Conversation>, u: string): seq<Conversation> {
    SortDesc(Filter(cs, (c: Conversation) => c.userId == u), UpdatedAt)
  }

  /** `searchConversations(userId, query)`: those of them whose title contains the query,
      ignoring case. */
  function SearchConversations(cs: seq<Conversation>, u: string, query: string): seq<Conversation> {
    SortDesc(Filter(cs, (c: Conversation) => c.userId == u && Contains(Lower(c.title), Lower(query))), UpdatedAt)
  }

  /** The listed conversations are exactly the user's, each as often as stored, most recently
      updated first, with equally recent ones in their stored order. */
  lemma UserConversationsSpec(cs: seq<Conversation>, u: string)
    ensures var r := UserConversations(cs, u);
      (forall c :: c in r <==> c in cs && c.userId == u) &&
      multiset(r) == multiset(Filter(cs, (c: Conversation) => c.userId == u)) &&
      SortedDesc(r, UpdatedAt) &&
      forall k :: WithKey(r, UpdatedAt, k) == WithKey(Filter(cs, (c: Conversation) => c.userId == u), UpdatedAt, k)
  {
    var p := (c: Conversation) => c.userId == u;
    var f := Filter(cs, p);
    FilterSpec(cs, p);
    SortDescSpec(f, UpdatedAt);
    forall c ensures c in UserConversations(cs, u) <==> c in cs && c.userId == u {
      calc {
        c in UserConversations(cs, u);
        c in multiset(UserConversations(cs, u));
        c in multiset(f);
        c in f;
      }
      if c in cs && c.userId == u {
        var i :| 0 <= i < |cs| && cs[i] == c;
      }
    }
  }

  /** A search lists exactly the user's conversations whose lower-cased title contains the
      lower-cased query, most recently updated first. */
  lemma SearchConversationsSpec(cs: seq<Conversation>, u: string, query: string)
    ensures var r := SearchConversations(cs, u, query);
      (forall c :: c in r <==> c in cs && c.userId == u && Contains(Lower(c.title), Lower(query))) &&
      SortedDesc(r, UpdatedAt)
  {
    var p := (c: Conversation) => c.userId == u && Contains(Lower(c.title), Lower(query));
    var f := Filter(cs, p);
    FilterSpec(cs, p);
    SortDescSpec(f, UpdatedAt);
    forall c ensures c in SearchConversations(cs, u, query) <==> c in cs && p(c) {
      assert c in SearchConversations(cs, u, query) <==> c in multiset(f);
      if c in cs && p(c) {
        var i :| 0 <= i < |cs| && cs[i] == c;
      }
    }
  }

  class ChatStore {
    var messages: seq<ChatMessage>
    var conversations: seq<Conversation>
    var activeConversationId: Option<string>

    constructor ()
      ensures messages == [] && conversations == [] && activeConversationId == None
    {
      messages := [];
      conversations := [];
      activeConversationId := None;
    }

    /** `addMessage(message)` at time `now`. */
    method AddMessage(message: ChatMessage, now: int)
      modifies this
      ensures messages == old(messages) + [message]
      ensures conversations == Bumped(old(conversations), message.conversationId, now)
      ensures activeConversationId == old(activeConversationId)
    {
      messages := messages + [message];
      if FindConversation(conversations, message.conversationId).Some? {
        conversations := Bumped(conversations, message.conversationId, now);
      } else {
        BumpedUnknown(conversations, message.conversationId, now);
      }
    }

    /** `clearMessages()`. */
    method ClearMessages()
      modifies this
      ensures messages == [] && conversations == old(conversations)
      ensures activeConversationId == old(activeConversationId)
    {
      messages := [];
    }

    /** `getUserMessages(userId)`. */
    function UserMessages(u: string): seq<ChatMessage>
      reads this
    {
      Filter(messages, (m: ChatMessage) => m.userId == u)
    }

    /** `getConversationMessages(conversationId)`. */
    function ConversationMessages(c: string): seq<ChatMessage>
      reads this
    {
      Filter(messages, (m: ChatMessage) => m.conversationId == c)
    }

    /** `clearUserMessages(userId)`: the user's messages and conversations go. */
    method ClearUserMessages(u: string)
      modifies this
      ensures messages == Filter(old(messages), (m: ChatMessage) => m.userId != u)
      ensures conversations == Filter(old(conversations), (c: Conversation) => c.userId != u)
      ensures activeConversationId == ActiveAfterClear(old(conversations), old(activeConversationId), u)
    {
      activeConversationId := ActiveAfterClear(conversations, activeConversationId, u);
      messages := Filter(messages, (m: ChatMessage) => m.userId != u);
      conversations := Filter(conversations, (c: Conversation) => c.userId != u);
    }

    /** `createConversation(userId, title)` with `id` as the generated id and `now` as the time;
        an absent title is "New Chat". */
    method CreateConversation(u: string, title: Option<string>, id: string, now: int) returns (r: string)
      modifies this
      ensures r == id && activeConversationId == Some(id)
      ensures conversations == [Conversation(id, title.GetOr(DefaultTitle), u, now, now, 0)] + old(conversations)
      ensures messages == old(messages)
    {
      var c := Conversation(id, title.GetOr(DefaultTitle), u, now, now, 0);
      conversations := [c] + conversations;
      activeConversationId := Some(id);
      r := id;
    }

    /** `setActiveConversation(conversationId)`. */
    method SetActiveConversation(c: Option<string>)
      modifies this
      ensures activeConversationId == c
      ensures messages == old(messages) && conversations == old(conversations)
    {
      activeConversationId := c;
    }

    /** `updateConversationTitle(conversationId, title)`. */
    method UpdateConversationTitle(c: string, title: string)
      modifies this
      ensures conversations == Retitled(old(conversations), c, title)
      ensures messages == old(messages) && activeConversationId == old(activeConversationId)
    {
      conversations := Retitled(conversations, c, title);
    }

    /** `deleteConversation(conversationId)`: the conversation and its messages go. */
    method DeleteConversation(c: string)
      modifies this
      ensures conversations == Filter(old(conversations), (x: Conversation) => x.id != c)
      ensures messages == Filter(old(messages), (m: ChatMessage) => m.conversationId != c)
      ensures activeConversationId == if old(activeConversationId) == Some(c) then None else old(activeConversationId)
    {
      conversations := Filter(conversations, (x: Conversation) => x.id != c);
      messages := Filter(messages, (m: ChatMessage) => m.conversationId != c);
      if activeConversationId == Some(c) {
        activeConversationId := None;
      }
    }
  }

  /** After deleting a conversation neither it nor any of its messages is left, and every
      other conversation and message is kept. */
  lemma DeletedConversation(cs: seq<Conversation>, ms: seq<ChatMessage>, c: string)
    ensures var cs' := Filter(cs, (x: Conversation) => x.id != c);
      var ms' := Filter(ms, (m: ChatMessage) => m.conversationId != c);
      (forall x :: x in cs' <==> x in cs && x.id != c) &&
      (forall m :: m in ms' <==> m in ms && m.conversationId != c)
  {
    FilterSpec(cs, (x: Conversation) => x.id != c);
    FilterSpec(ms, (m: ChatMessage) => m.conversationId != c);
    forall x | x in cs && x.id != c ensures x in Filter(cs, (x: Conversation) => x.id != c) {
      var i :| 0 <= i < |cs| && cs[i] == x;
    }
    forall m | m in ms && m.conversationId != c ensures m in Filter(ms, (m: ChatMessage) => m.conversationId != c) {
      var i :| 0 <= i < |ms| && ms[i] == m;
    }
  }

  /** The messages of a user (of a conversation) are exactly the stored messages with that
      user (conversation) id, in their stored order. */
  lemma MessageQueries(ms: seq<ChatMessage>, u: string, c: string)
    ensures var byUser := Filter(ms, (m: ChatMessage) => m.userId == u);
      (forall m :: m in byUser <==> m in ms && m.userId == u) && IsSubsequence(byUser, ms)
    ensures var byConversation := Filter(ms, (m: ChatMessage) => m.conversationId == c);
      (forall m :: m in byConversation <==> m in ms && m.conversationId == c) &&
      IsSubsequence(byConversation, ms)
  {
    FilterSpec(ms, (m: ChatMessage) => m.userId == u);
    FilterSpec(ms, (m: ChatMessage) => m.conversationId == c);
    FilterSubsequence(ms, (m: ChatMessage) => m.userId == u);
    FilterSubsequence(ms, (m: ChatMessage) => m.conversationId == c);
    forall m | m in ms && m.userId == u ensures m in Filter(ms, (m: ChatMessage) => m.userId == u) {
      var i :| 0 <= i < |ms| && ms[i] == m;
    }
    forall m | m in ms && m.conversationId == c ensures m in Filter(ms, (m: ChatMessage) => m.conversationId == c) {
      var i :| 0 <= i < |ms| && ms[i] == m;
    }
  }

  // ---------------------------------------------------------------------------
  // Audit log

  datatype AuditLog = AuditLog(id: string, timestamp: int, user: string, action: string,
                               details: string, response: Option<string>)

  class AuditStore {
    var logs: seq<AuditLog>

    constructor ()
      ensures logs == []
    {
      logs := [];
    }

    /** `addLog(log)`: the newest entry comes first. */
    method AddLog(log: AuditLog)
      modifies this
      ensures logs == [log] + old(logs)
    {
      logs := [log] + logs;
    }
  }
}
