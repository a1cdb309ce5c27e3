/**
 * The contact list of the messages page (`components/messages/MessagesList.tsx`): the search
 * over the contacts, the unread count and the last message shown under each contact.
 * The messages query arrives as a value, `None` while absent; `createdAt` is the timestamp
 * `new Date(createdAt).getTime()` reads.
 */
module MessagesList {
  import opened Wrappers
  import opened Seqs
  import opened Strings

  /** A contact as the list reads it. */
  datatype User = User(id: int, name: string, username: string)

  /** A message as the messages endpoints return it. */
  datatype Message = Message(id: int, senderId: int, receiverId: int, content: string, read: bool, createdAt: int)

  /** The search test: the lower-cased name or username contains the lower-cased term. */
  function MatchesTerm(term: string): User -> bool {
    (user: User) => Contains(ToLower(user.name), ToLower(term)) || Contains(ToLower(user.username), ToLower(term))
  }

  /** The search effect: a blank term shows every contact, any other term, untrimmed, filters them. */
  function SearchUsers(users: seq<User>, term: string): seq<User> {
    if Trim(term) == "" then users else Keep(users, MatchesTerm(term))
  }

  function IsUnreadFrom(userId: int): Message -> bool {
    (m: Message) => m.senderId == userId && !m.read
  }

  /** `getUnreadCount`: messages from the contact not yet read, 0 while there are no messages. */
  function UnreadCount(messages: Option<seq<Message>>, userId: int): nat {
    match messages
    case None => 0
    case Some(ms) => Count(ms, IsUnreadFrom(userId))
  }

  function Involves(userId: int): Message -> bool {
    (m: Message) => m.senderId == userId || m.receiverId == userId
  }

  /**
   * The position a stable sort by descending `createdAt` brings to the front: the latest
   * message, the earliest of them on a tie.
   */
  function LatestAt(ms: seq<Message>): (r: nat)
    requires |ms| > 0
    ensures r < |ms|
    ensures forall j :: 0 <= j < |ms| ==> ms[j].createdAt <= ms[r].createdAt
    ensures forall j :: 0 <= j < r ==> ms[j].createdAt < ms[r].createdAt
    decreases |ms|
  {
    if |ms| == 1 then 0
    else
      var k := LatestAt(ms[..|ms| - 1]);
      if ms[|ms| - 1].createdAt > ms[k].createdAt then |ms| - 1 else k
  }

  /** `getLastMessage`: the contact's messages sorted latest first, then the first of them. */
  function LastMessage(messages: Option<seq<Message>>, userId: int): Option<Message> {
    match messages
    case None => None
    case Some(ms) =>
      var userMessages := Keep(ms, Involves(userId));
      if |userMessages| == 0 then None else Some(userMessages[LatestAt(userMessages)])
  }

  /** The line under a contact: the last message cut to 25 characters, or "No messages yet". */
  function LastMessagePreview(last: Option<Message>): string {
    match last
    case None => "No messages yet"
    case Some(m) => Truncate(m.content, 25)
  }

  /** The list's state: the contacts it is given, the search term and the contacts it shows. */
  class ContactList {
    var users: seq<User>
    var searchTerm: string
    var filteredUsers: seq<User>

    /** The shown contacts are the search result for the current term and contacts. */
    predicate Synced()
      reads this
    {
      filteredUsers == SearchUsers(users, searchTerm)
    }

    /** `useState("")` and `useState(users)`. */
    constructor (initialUsers: seq<User>)
      ensures users == initialUsers && searchTerm == "" && filteredUsers == initialUsers
      ensures Synced()
    {
      users := initialUsers;
      searchTerm := "";
      filteredUsers := initialUsers;
    }

    /** Typing in the search box; the effect then stores the new search result. */
    method SetSearchTerm(term: string)
      modifies this
      ensures searchTerm == term && users == old(users)
      ensures filteredUsers == SearchUsers(users, term)
      ensures Synced()
    {
      searchTerm := term;
      if Trim(term) == "" {
        filteredUsers := users;
      } else {
        filteredUsers := Keep(users, MatchesTerm(term));
      }
    }

    /** New contacts from the parent; the effect reruns the search on them. */
    method SetUsers(newUsers: seq<User>)
      modifies this
      ensures users == newUsers && searchTerm == old(searchTerm)
      ensures filteredUsers == SearchUsers(newUsers, searchTerm)
      ensures Synced()
    {
      users := newUsers;
      if Trim(searchTerm) == "" {
        filteredUsers := newUsers;
      } else {
        filteredUsers := Keep(newUsers, MatchesTerm(searchTerm));
      }
    }
  }
}

/** What the contact list promises. */
module MessagesListFacts {
  import opened Wrappers
  import opened Seqs
  import opened Strings
  import opened MessagesList

  /** A blank term shows every contact, in order. */
  lemma BlankSearchShowsAll(users: seq<User>, term: string)
    requires Trim(term) == ""
    ensures SearchUsers(users, term) == users
  {
  }

  /**
   * Any other term shows, in order, exactly the contacts whose name or username contains
   * the term, untrimmed, ignoring case.
   */
  lemma SearchFacts(users: seq<User>, term: string)
    requires Trim(term) != ""
    ensures IsSubsequence(SearchUsers(users, term), users)
    ensures forall u :: u in SearchUsers(users, term) <==>
      u in users && (Contains(ToLower(u.name), ToLower(term)) || Contains(ToLower(u.username), ToLower(term)))
  {
    KeepIsSubsequence(users, MatchesTerm(term));
    KeepMembers(users, MatchesTerm(term));
  }

  /** The search does not depend on the case of the term. */
  lemma SearchIgnoresCase(users: seq<User>, term: string)
    ensures SearchUsers(users, ToLower(term)) == SearchUsers(users, term)
  {
    TrimOfLower(term);
    ToLowerIdempotent(term);
    assert MatchesTerm(ToLower(term)) == MatchesTerm(term);
  }

  /** The unread count is 0 without messages and never more than the messages. */
  lemma UnreadBounded(messages: Option<seq<Message>>, userId: int)
    ensures messages.None? ==> UnreadCount(messages, userId) == 0
    ensures messages.Some? ==> UnreadCount(messages, userId) <= |messages.value|
  {
  }

  /** Unread messages from a contact are counted exactly when there is one. */
  lemma UnreadPositiveIff(messages: seq<Message>, userId: int)
    ensures UnreadCount(Some(messages), userId) > 0 <==>
      exists i :: 0 <= i < |messages| && messages[i].senderId == userId && !messages[i].read
  {
    KeepMembers(messages, IsUnreadFrom(userId));
    if UnreadCount(Some(messages), userId) > 0 {
      assert Keep(messages, IsUnreadFrom(userId))[0] in messages;
    }
    if i :| 0 <= i < |messages| && messages[i].senderId == userId && !messages[i].read {
      assert messages[i] in Keep(messages, IsUnreadFrom(userId));
    }
  }

  /** There is no last message exactly when no message was sent by or to the contact. */
  lemma LastMessageNoneIff(messages: seq<Message>, userId: int)
    ensures LastMessage(Some(messages), userId).None? <==>
      forall i :: 0 <= i < |messages| ==> messages[i].senderId != userId && messages[i].receiverId != userId
  {
    var userMessages := Keep(messages, Involves(userId));
    KeepMembers(messages, Involves(userId));
    if |userMessages| > 0 {
      assert userMessages[0] in messages;
    }
    if i :| 0 <= i < |messages| && (messages[i].senderId == userId || messages[i].receiverId == userId) {
      assert messages[i] in userMessages;
    }
  }

  /** The last message is one of the contact's messages, and none of theirs is later. */
  lemma LastMessageFacts(messages: seq<Message>, userId: int)
    ensures match LastMessage(Some(messages), userId)
      case None => true
      case Some(m) =>
        m in messages && (m.senderId == userId || m.receiverId == userId)
        && forall i :: 0 <= i < |messages| && (messages[i].senderId == userId || messages[i].receiverId == userId) ==>
             messages[i].createdAt <= m.createdAt
  {
    var userMessages := Keep(messages, Involves(userId));
    KeepMembers(messages, Involves(userId));
    if |userMessages| > 0 {
      var k := LatestAt(userMessages);
      assert userMessages[k] in messages;
      forall i | 0 <= i < |messages| && (messages[i].senderId == userId || messages[i].receiverId == userId)
        ensures messages[i].createdAt <= userMessages[k].createdAt
      {
        assert messages[i] in userMessages;
      }
    }
  }

  /** A contact with unread messages always has a last message to show. */
  lemma UnreadImpliesLastMessage(messages: Option<seq<Message>>, userId: int)
    ensures UnreadCount(messages, userId) > 0 ==> LastMessage(messages, userId).Some?
  {
    if messages.Some? && UnreadCount(messages, userId) > 0 {
      var ms := messages.value;
      UnreadPositiveIff(ms, userId);
      LastMessageNoneIff(ms, userId);
    }
  }

  /** The preview shows a message of at most 25 characters whole, a longer one cut to 25 and "...". */
  lemma PreviewFacts(m: Message)
    ensures |m.content| <= 25 ==> LastMessagePreview(Some(m)) == m.content
    ensures |m.content| > 25 ==> LastMessagePreview(Some(m)) == m.content[..25] + "..."
    ensures LastMessagePreview(None) == "No messages yet"
  {
  }
}
