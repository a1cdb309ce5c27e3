/**
 * The conversation pane (`components/messages/ChatWindow.tsx`): the message input, the send
 * and key rules, the mark-as-read pass over the loaded messages and the endpoint that loads
 * the other user. The mutations are not run: the pane records what it asks the server for,
 * the contents it sends and the ids it marks read, in the order it asks.
 */
module ChatWindow {
  import opened Wrappers
  import opened Seqs
  import opened Strings
  import opened Numbers
  import opened MessagesList

  /** `otherUserId ? \`/api/${...}/${otherUserId}\` : ''`: a lower id is an influencer, any other a business. */
  function OtherUserEndpoint(otherUserId: int, currentUserId: int): string {
    if otherUserId == 0 then ""
    else if otherUserId < currentUserId then "/api/influencers/" + IntToString(otherUserId)
    else "/api/businesses/" + IntToString(otherUserId)
  }

  /** The other user is queried only for a non-zero id (`enabled: !!otherUserId`). */
  predicate LoadsOtherUser(otherUserId: int) {
    otherUserId != 0
  }

  /** A message the mark-read effect asks for: sent to the current user and not yet read. */
  function ToMark(currentUserId: int): Message -> bool {
    (m: Message) => m.receiverId == currentUserId && !m.read
  }

  function MessageId(m: Message): int {
    m.id
  }

  /** The ids the effect passes to `markAsReadMutation.mutate`, in message order. */
  function MarkedIds(messages: seq<Message>, currentUserId: int): seq<int> {
    Map(Keep(messages, ToMark(currentUserId)), MessageId)
  }

  /** `handleKeyDown`: Enter without Shift sends. */
  predicate IsSendKey(key: string, shiftKey: bool) {
    key == "Enter" && !shiftKey
  }

  /** The send button's `disabled`. */
  predicate SendDisabled(messageInput: string, sendPending: bool) {
    Trim(messageInput) == "" || sendPending
  }

  /** The pane's state and the requests it has issued. */
  class ChatPane {
    const currentUserId: int
    const otherUserId: int
    var messageInput: string
    /** Contents passed to `sendMessageMutation.mutate`, oldest first. */
    var sent: seq<string>
    /** Ids passed to `markAsReadMutation.mutate`, oldest first. */
    var markRequests: seq<int>

    constructor (current: int, other: int)
      ensures currentUserId == current && otherUserId == other
      ensures messageInput == "" && sent == [] && markRequests == []
    {
      currentUserId := current;
      otherUserId := other;
      messageInput := "";
      sent := [];
      markRequests := [];
    }

    /** The textarea's `onChange`. */
    method SetInput(text: string)
      modifies this
      ensures messageInput == text && sent == old(sent) && markRequests == old(markRequests)
    {
      messageInput := text;
    }

    /** `handleSendMessage`: sends the trimmed input when it is not blank; the input stays until the send succeeds. */
    method HandleSendMessage()
      modifies this
      ensures Trim(old(messageInput)) != "" ==> sent == old(sent) + [Trim(old(messageInput))]
      ensures Trim(old(messageInput)) == "" ==> sent == old(sent)
      ensures messageInput == old(messageInput) && markRequests == old(markRequests)
    {
      var content := Trim(messageInput);
      if content != "" {
        sent := sent + [content];
      }
    }

    /** The send mutation's `onSuccess`: the input is cleared. */
    method OnSendSuccess()
      modifies this
      ensures messageInput == "" && sent == old(sent) && markRequests == old(markRequests)
    {
      messageInput := "";
    }

    /** `handleKeyDown`: Enter without Shift attempts a send; the result says whether the default was prevented. */
    method HandleKeyDown(key: string, shiftKey: bool) returns (preventDefault: bool)
      modifies this
      ensures preventDefault == IsSendKey(key, shiftKey)
      ensures IsSendKey(key, shiftKey) && Trim(old(messageInput)) != "" ==> sent == old(sent) + [Trim(old(messageInput))]
      ensures !IsSendKey(key, shiftKey) || Trim(old(messageInput)) == "" ==> sent == old(sent)
      ensures messageInput == old(messageInput) && markRequests == old(markRequests)
    {
      preventDefault := false;
      if key == "Enter" && !shiftKey {
        preventDefault := true;
        HandleSendMessage();
      }
    }

    /** The mark-read effect: one request for each loaded message sent to the current user and unread. */
    method MarkUnreadAsRead(messages: Option<seq<Message>>)
      modifies this
      ensures messages.None? ==> markRequests == old(markRequests)
      ensures messages.Some? ==> markRequests == old(markRequests) + MarkedIds(messages.value, currentUserId)
      ensures messageInput == old(messageInput) && sent == old(sent)
    {
      if messages.None? {
        return;
      }
      var ms := messages.value;
      var i := 0;
      while i < |ms|
        invariant 0 <= i <= |ms|
        invariant markRequests == old(markRequests) + MarkedIds(ms[..i], currentUserId)
        invariant messageInput == old(messageInput) && sent == old(sent)
      {
        assert ms[..i + 1][..i] == ms[..i];
        MapConcat(Keep(ms[..i], ToMark(currentUserId)), if ToMark(currentUserId)(ms[i]) then [ms[i]] else [], MessageId);
        if ms[i].receiverId == currentUserId && !ms[i].read {
          markRequests := markRequests + [ms[i].id];
        }
        i := i + 1;
      }
      assert ms[..i] == ms;
    }
  }
}

/** What the conversation pane's rules promise. */
module ChatWindowFacts {
  import opened Wrappers
  import opened Seqs
  import opened Strings
  import opened Numbers
  import opened MessagesList
  import opened ChatWindow

  /** No endpoint for id 0; otherwise influencers for a lower id than the current user's, businesses for the rest, each ending in the id. */
  lemma EndpointFacts(otherUserId: int, currentUserId: int)
    ensures OtherUserEndpoint(otherUserId, currentUserId) == "" <==> !LoadsOtherUser(otherUserId)
    ensures otherUserId != 0 && otherUserId < currentUserId ==>
      StartsWith(OtherUserEndpoint(otherUserId, currentUserId), "/api/influencers/")
    ensures otherUserId != 0 && otherUserId >= currentUserId ==>
      StartsWith(OtherUserEndpoint(otherUserId, currentUserId), "/api/businesses/")
    ensures otherUserId != 0 ==> EndsWith(OtherUserEndpoint(otherUserId, currentUserId), IntToString(otherUserId))
  {
    var id := IntToString(otherUserId);
    if otherUserId != 0 {
      var e := OtherUserEndpoint(otherUserId, currentUserId);
      var prefix := if otherUserId < currentUserId then "/api/influencers/" else "/api/businesses/";
      assert e == prefix + id;
      assert e[..|prefix|] == prefix;
      assert e[|e| - |id|..] == id;
    }
  }

  /** The id at the end of the endpoint reads back as the other user's id. */
  lemma EndpointReadsBack(otherUserId: int, currentUserId: int)
    requires otherUserId != 0
    ensures var e := OtherUserEndpoint(otherUserId, currentUserId);
      var prefix := if otherUserId < currentUserId then "/api/influencers/" else "/api/businesses/";
      |prefix| <= |e| && ParseInt(e[|prefix|..]) == Some(otherUserId)
  {
    var e := OtherUserEndpoint(otherUserId, currentUserId);
    var prefix := if otherUserId < currentUserId then "/api/influencers/" else "/api/businesses/";
    assert e == prefix + IntToString(otherUserId);
    assert e[|prefix|..] == IntToString(otherUserId);
    ParseIntOfIntToString(otherUserId);
  }

  /** The `k`-th requested id belongs to an unread message sent to the current user. */
  lemma MarkedIdSource(messages: seq<Message>, currentUserId: int, k: int)
    requires 0 <= k < |MarkedIds(messages, currentUserId)|
    ensures exists i :: (0 <= i < |messages| && messages[i].receiverId == currentUserId && !messages[i].read
                         && messages[i].id == MarkedIds(messages, currentUserId)[k])
  {
    var kept := Keep(messages, ToMark(currentUserId));
    KeepMembers(messages, ToMark(currentUserId));
    assert kept[k] in messages;
    var i :| 0 <= i < |messages| && messages[i] == kept[k];
    assert ToMark(currentUserId)(kept[k]);
  }

  /** The effect asks for the ids of the unread messages sent to the current user, and for no other ids. */
  lemma MarkedIdsFacts(messages: seq<Message>, currentUserId: int)
    ensures |MarkedIds(messages, currentUserId)| <= |messages|
    ensures forall id :: id in MarkedIds(messages, currentUserId) ==>
      exists i :: (0 <= i < |messages| && messages[i].receiverId == currentUserId && !messages[i].read
                   && messages[i].id == id)
    ensures forall i :: 0 <= i < |messages| && messages[i].receiverId == currentUserId && !messages[i].read ==>
      messages[i].id in MarkedIds(messages, currentUserId)
  {
    var kept := Keep(messages, ToMark(currentUserId));
    KeepMembers(messages, ToMark(currentUserId));
    forall id | id in MarkedIds(messages, currentUserId)
      ensures exists i :: (0 <= i < |messages| && messages[i].receiverId == currentUserId && !messages[i].read
                           && messages[i].id == id)
    {
      var k :| 0 <= k < |MarkedIds(messages, currentUserId)| && MarkedIds(messages, currentUserId)[k] == id;
      MarkedIdSource(messages, currentUserId, k);
    }
    forall i | 0 <= i < |messages| && messages[i].receiverId == currentUserId && !messages[i].read
      ensures messages[i].id in MarkedIds(messages, currentUserId)
    {
      assert messages[i] in kept;
      var j :| 0 <= j < |kept| && kept[j] == messages[i];
      assert MarkedIds(messages, currentUserId)[j] == messages[i].id;
    }
  }

  /** Messages the current user sent, and messages already read, are never marked. */
  lemma NothingElseMarked(messages: seq<Message>, currentUserId: int)
    requires forall i :: 0 <= i < |messages| ==> messages[i].receiverId != currentUserId || messages[i].read
    ensures MarkedIds(messages, currentUserId) == []
  {
    KeepNone(messages, ToMark(currentUserId));
  }

  /** The button is enabled exactly when no send is pending and a click would send something. */
  lemma ButtonMatchesGuard(messageInput: string, sendPending: bool)
    ensures !SendDisabled(messageInput, sendPending) <==> !sendPending && Trim(messageInput) != ""
  {
  }
}
