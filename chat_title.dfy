/** The chat page's conversation titles (frontend/app/chat/page.tsx): the title made from a
    conversation's first message, and the part of `handleSubmit` that stores the user's
    message and names the conversation after it. The request to the assistant that follows
    is outside the model. */
module ChatTitle {
  import opened Wrappers
  import opened Text
  import opened Sequences
  import opened Stores

  const MaxTitle: nat := 30
  const MinCut: nat := 15

  /** `s.lastIndexOf(c)`: the last position holding `c`, or -1. */
  function LastIndexOf(s: string, c: char): (r: int)
    ensures -1 <= r < |s|
    ensures r >= 0 ==> s[r] == c
    ensures forall j :: r < j < |s| ==> s[j] != c
  {
    if s == [] then -1
    else if s[|s| - 1] == c then |s| - 1
    else LastIndexOf(s[..|s| - 1], c)
  }

  /** The title of a trimmed message longer than 30 characters. */
  function LongTitle(clean: string): string
    requires |clean| > MaxTitle
  {
    var truncated := clean[..MaxTitle];
    var lastSpace := LastIndexOf(truncated, ' ');
    if lastSpace > MinCut then truncated[..lastSpace] + "..." else truncated + "..."
  }

  /** `generateConversationTitle(firstMessage)`: the trimmed message when it is at most 30
      characters long; otherwise its first 30 characters, cut back to the last space when
      that space comes after position 15, followed by "...". */
  function GenerateTitle(firstMessage: string): string {
    var clean := Trim(firstMessage);
    if |clean| <= MaxTitle then clean else LongTitle(clean)
  }

  /** A long message gives at most 33 characters ending in "...", whose text before the dots
      is a prefix of the message: cut at a space exactly when the first 30 characters hold a
      space after position 15, and then at the last such space; otherwise all 30 characters
      are kept. */
  lemma LongTitleSpec(clean: string)
    requires |clean| > MaxTitle
    ensures var r := LongTitle(clean); var n := |r| - 3;
      |r| <= MaxTitle + 3 && n >= 0 && r[n..] == "..." && r[..n] == clean[..n] &&
      ((MinCut < n < MaxTitle) <==> exists j :: MinCut < j < MaxTitle && clean[j] == ' ') &&
      (MinCut < n < MaxTitle ==> clean[n] == ' ' && forall j :: n < j < MaxTitle ==> clean[j] != ' ') &&
      (n == MaxTitle || MinCut < n < MaxTitle)
  {
    var truncated := clean[..MaxTitle];
    var lastSpace := LastIndexOf(truncated, ' ');
    var r := LongTitle(clean);
    if lastSpace > MinCut {
      assert r == truncated[..lastSpace] + "...";
      assert truncated[lastSpace] == ' ';
    } else {
      assert r == truncated + "...";
      forall j | MinCut < j < MaxTitle ensures clean[j] != ' ' {
        assert truncated[j] == clean[j];
      }
    }
  }

  /** A message of at most 30 characters, once trimmed, is its own title; a longer one gets
      the title of its trimmed text. */
  lemma GenerateTitleSpec(firstMessage: string)
    ensures |Trim(firstMessage)| <= MaxTitle ==> GenerateTitle(firstMessage) == Trim(firstMessage)
    ensures |Trim(firstMessage)| > MaxTitle ==>
      var r := GenerateTitle(firstMessage);
      |r| <= MaxTitle + 3 && r[|r| - 3..] == "..." && r[..|r| - 3] == Trim(firstMessage)[..|r| - 3]
  {
    if |Trim(firstMessage)| > MaxTitle {
      LongTitleSpec(Trim(firstMessage));
    }
  }

  /** A title is never longer than 33 characters, and making a title from a title changes
      nothing when the first is short. */
  lemma TitleShort(firstMessage: string)
    ensures |GenerateTitle(firstMessage)| <= MaxTitle + 3
    ensures |Trim(firstMessage)| <= MaxTitle ==> GenerateTitle(GenerateTitle(firstMessage)) == GenerateTitle(firstMessage)
  {
    if |Trim(firstMessage)| <= MaxTitle {
      TrimIdempotent(firstMessage);
    }
  }

  /** The messages a store holds for a conversation. */
  function MessagesOf(messages: seq<ChatMessage>, c: string): seq<ChatMessage> {
    Filter(messages, (m: ChatMessage) => m.conversationId == c)
  }

  /** The user's part of `handleSubmit`: a blank input or a pending reply sends nothing;
      otherwise the active conversation (a new one with id `newId` when none is active)
      gets the message `messageId` at time `now`, and the conversation is named after the
      message when that message is its first. */
  method Submit(store: ChatStore, input: string, isLoading: bool, userId: string,
                newId: string, messageId: string, now: int) returns (sent: bool, conversationId: string)
    modifies store
    ensures sent <==> Trim(input) != [] && !isLoading
    ensures !sent ==> store.messages == old(store.messages) && store.conversations == old(store.conversations) &&
                      store.activeConversationId == old(store.activeConversationId)
    ensures sent ==> conversationId == (if Truthy(old(store.activeConversationId)) then old(store.activeConversationId).value else newId)
    ensures sent ==> store.activeConversationId == Some(conversationId)
    ensures sent ==> store.messages == old(store.messages) + [ChatMessage(messageId, User, input, now, userId, conversationId)]
    ensures sent ==>
      var created := if Truthy(old(store.activeConversationId)) then old(store.conversations)
                     else [Conversation(newId, DefaultTitle, userId, now, now, 0)] + old(store.conversations);
      var bumped := Bumped(created, conversationId, now);
      store.conversations == if MessagesOf(old(store.messages), conversationId) == [] then Retitled(bumped, conversationId, GenerateTitle(input)) else bumped
  {
    sent := false;
    conversationId := "";
    if Trim(input) == [] || isLoading {
      return;
    }
    ghost var before := store.messages;
    var active := store.activeConversationId;
    if Truthy(active) {
      conversationId := active.value;
    } else {
      conversationId := store.CreateConversation(userId, None, newId, now);
      store.SetActiveConversation(Some(conversationId));
    }
    var message := ChatMessage(messageId, User, input, now, userId, conversationId);
    store.AddMessage(message, now);
    FilterAppend(before, [message], (m: ChatMessage) => m.conversationId == conversationId);
    var current := store.ConversationMessages(conversationId);
    assert current == MessagesOf(before, conversationId) + [message];
    if |current| == 1 {
      store.UpdateConversationTitle(conversationId, GenerateTitle(input));
    }
    sent := true;
  }
}
