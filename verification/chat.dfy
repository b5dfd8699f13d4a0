/**
 * The group chat (components/ChatPage.tsx): a list of messages seeded with
 * the initial conversation, to which the shopper appends text and images.
 * The clock is a parameter: `now` stands for `Date.now()` and `time` for the
 * formatted `toLocaleTimeString` text.
 */
module Chat {
  import opened Types
  import opened Seqs
  import opened Ascii
  import opened Constants

  /** `currentUser.id`: the shopper's own chat identity. */
  const MeId: Id := "user-me"

  /** `otherUsers`: every chat user but the shopper, in the record's order. */
  function OtherUsers(users: seq<ChatUser>): (r: seq<ChatUser>)
    ensures forall u :: u in r <==> u in users && u.id != MeId
    ensures IsSubsequence(r, users)
  {
    Filter((u: ChatUser) => u.id != MeId, users)
  }

  /** `` `msg-${Date.now()}` ``. */
  function MessageId(now: int): (id: Id)
    ensures StartsWith(id, "msg-")
  {
    StartsWithConcat("msg-", IntToString(now));
    "msg-" + IntToString(now)
  }

  /** The timestamp in a message id reads back as the time it was built from. */
  lemma MessageIdRoundTrip(now: int)
    ensures ParseInt(MessageId(now)[4..]) == Some(now)
  {
    StartsWithConcat("msg-", IntToString(now));
    ParseIntOfIntToString(now, []);
    assert IntToString(now) + [] == IntToString(now);
  }

  /** Messages sent a millisecond apart get different ids. */
  lemma MessageIdInjective(a: int, b: int)
    requires MessageId(a) == MessageId(b)
    ensures a == b
  {
    MessageIdRoundTrip(a);
    MessageIdRoundTrip(b);
  }

  class ChatPage {
    var messages: seq<ChatMessage>
    var newMessage: string

    constructor()
      ensures messages == INITIAL_MESSAGES && newMessage == ""
    {
      messages := INITIAL_MESSAGES;
      newMessage := "";
    }

    method Type(text: string)
      modifies this
      ensures newMessage == text && messages == old(messages)
    {
      newMessage := text;
    }

    /** The send button is disabled while the draft trims to nothing. */
    predicate SendDisabled()
      reads this
    {
      Trim(newMessage) == []
    }

    /**
     * `handleSendMessage`: a draft that trims to nothing sends nothing;
     * otherwise the draft, untrimmed, is appended as the shopper's message
     * and the field is cleared.
     */
    method SendMessage(now: int, time: string)
      modifies this
      ensures Trim(old(newMessage)) == [] ==> messages == old(messages) && newMessage == old(newMessage)
      ensures Trim(old(newMessage)) != [] ==>
        messages == old(messages) + [ChatMessage(MessageId(now), MeId, Some(old(newMessage)), None, time)] &&
        newMessage == ""
    {
      if Trim(newMessage) == [] {
        return;
      }
      var message := ChatMessage(MessageId(now), MeId, Some(newMessage), None, time);
      messages := messages + [message];
      newMessage := "";
    }

    /**
     * The reader's `onload` for the chosen image (`handleImageUpload` with a
     * file): the data URL is appended as an image message without text. With
     * no file chosen nothing is read and nothing changes.
     */
    method ImageLoaded(dataUrl: Option<string>, now: int, time: string)
      modifies this
      ensures dataUrl.None? ==> messages == old(messages)
      ensures dataUrl.Some? ==>
        messages == old(messages) + [ChatMessage(MessageId(now), MeId, None, dataUrl, time)]
      ensures newMessage == old(newMessage)
    {
      if dataUrl.Some? {
        var message := ChatMessage(MessageId(now), MeId, None, dataUrl, time);
        messages := messages + [message];
      }
    }
  }

  /** With the shipped users, the others are everyone after the shopper. */
  lemma ShippedOtherUsers()
    ensures OtherUsers(CHAT_USERS) == CHAT_USERS[1..]
    ensures |OtherUsers(CHAT_USERS)| == 2
  {
    var others := (u: ChatUser) => u.id != MeId;
    assert CHAT_USERS == [CHAT_USERS[0]] + CHAT_USERS[1..];
    FilterAppend(others, [CHAT_USERS[0]], CHAT_USERS[1..]);
    assert CHAT_USERS[1].id == "user-friend1" && CHAT_USERS[2].id == "user-friend2";
    FilterAll(others, CHAT_USERS[1..]);
  }
}
