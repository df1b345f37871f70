/**
 * The state-changing handlers of src/controllers/message.controller.js,
 * `sendMessage` and `markMessagesAsSeen`, over a Message collection held in
 * memory. The image upload is an outcome handed in, the live-push registry a
 * map from user to socket, and a push is returned as an optional event.
 */
module MessageController {
  import opened Wrappers
  import opened MessageModel
  import opened MessageStore

  /** A live-channel address; the registry holds one per connected user. */
  type SocketId = string

  /** `if (receiverSocketId)`: the user has a registered socket id and it is not empty. */
  predicate Online(sockets: map<UserId, SocketId>, u: UserId)
  {
    u in sockets && sockets[u] != ""
  }

  /** A push to one socket: the new record, or the id of the user who read the messages. */
  datatype Event =
    | NewMessage(socket: SocketId, message: Message)
    | MessagesSeen(socket: SocketId, userId: UserId)

  /** What the image service answered: the durable URL, or a failure. */
  datatype UploadOutcome = Uploaded(secureUrl: string) | UploadFailed

  /** Why a send stored nothing. */
  datatype SendError = UploadError

  /** `if (image)`: an absent or empty image payload skips the upload. */
  predicate ImageSupplied(image: Option<string>)
  {
    image.Some? && image.value != ""
  }

  /** The stored image reference: the uploaded URL when an image was supplied, else none. */
  function ImageUrl(image: Option<string>, upload: UploadOutcome): Option<string>
  {
    if ImageSupplied(image) && upload.Uploaded? then Some(upload.secureUrl) else None
  }

  /** The Message collection. */
  class MessageCollection {
    var messages: seq<Message>

    constructor ()
      ensures messages == []
    {
      messages := [];
    }

    /**
     * Sends `text` and optionally `image` from `senderId` to `receiverId` at
     * time `now`. When an image was supplied and its upload failed, nothing is
     * stored and nothing is pushed. Otherwise exactly one record is appended,
     * from the caller to the route's user, `sent`, stamped `now`, every earlier
     * record is kept as it was, and the record is pushed to the receiver's
     * socket when the receiver has one.
     */
    method SendMessage(senderId: UserId, receiverId: UserId, text: Option<string>, image: Option<string>,
                       upload: UploadOutcome, now: Timestamp, sockets: map<UserId, SocketId>)
      returns (r: Result<Message, SendError>, ev: Option<Event>)
      modifies this
      ensures ImageSupplied(image) && upload.UploadFailed? ==> r == Err(UploadError) && messages == old(messages)
      ensures !(ImageSupplied(image) && upload.UploadFailed?) ==> r.Ok? && messages == old(messages) + [r.value]
      ensures r.Ok? ==> r.value == Message(senderId, receiverId, text, ImageUrl(image, upload), Sent, now, now)
      ensures StatusOnlyAdvances(old(messages), messages)
      ensures ev == if r.Ok? && Online(sockets, receiverId) then Some(NewMessage(sockets[receiverId], r.value)) else None
    {
      ev := None;
      var imageUrl: Option<string> := None;
      if ImageSupplied(image) {
        match upload
        case UploadFailed =>
          r := Err(UploadError);
          return;
        case Uploaded(url) =>
          imageUrl := Some(url);
      }
      var built := Create(Draft(Some(senderId), Some(receiverId), text, imageUrl, Some("sent")), now);
      assert built.Ok?;
      var m := built.value;
      messages := messages + [m];
      r := Ok(m);
      if Online(sockets, receiverId) {
        ev := Some(NewMessage(sockets[receiverId], m));
      }
    }

    /**
     * `myId` acknowledges the messages `senderId` sent them: every record from
     * `senderId` to `myId` still `sent` becomes `seen` (stamped `now`) and every
     * other record is left alone, the number of records changed is returned,
     * and the sender's socket, when there is one, is told who read them.
     */
    method MarkMessagesAsSeen(senderId: UserId, myId: UserId, now: Timestamp, sockets: map<UserId, SocketId>)
      returns (updatedCount: nat, ev: Option<Event>)
      modifies this
      ensures messages == MarkSeenAll(old(messages), senderId, myId, now)
      ensures updatedCount == PendingCount(old(messages), senderId, myId)
      ensures UnreadCount(messages, myId) == UnreadCount(old(messages), myId) - updatedCount
      ensures StatusOnlyAdvances(old(messages), messages)
      ensures ev == if Online(sockets, senderId) then Some(MessagesSeen(sockets[senderId], myId)) else None
    {
      ghost var s := messages;
      updatedCount := 0;
      var i := 0;
      while i < |messages|
        invariant 0 <= i <= |messages| == |s|
        invariant forall k :: 0 <= k < i ==> messages[k] == MarkOne(s[k], senderId, myId, now)
        invariant forall k :: i <= k < |s| ==> messages[k] == s[k]
        invariant updatedCount == PendingCount(s[..i], senderId, myId)
      {
        assert s[..i + 1] == s[..i] + [s[i]];
        PendingAfterAppend(s[..i], s[i], senderId, myId);
        assert messages[i] == s[i];
        if IsPendingFrom(messages[i], senderId, myId) {
          messages := messages[i := messages[i].(status := Seen, updatedAt := now)];
          updatedCount := updatedCount + 1;
        }
        assert messages[i] == MarkOne(s[i], senderId, myId, now);
        i := i + 1;
      }
      assert updatedCount == PendingCount(s, senderId, myId) by {
        assert s[..i] == s;
      }
      assert messages == MarkSeenAll(s, senderId, myId, now) by {
        MarkSeenAllOfPointwise(s, messages, senderId, myId, now);
      }
      UnreadAfterMarkSeen(s, senderId, myId, now, myId);
      MarkSeenAdvances(s, senderId, myId, now);
      ev := if Online(sockets, senderId) then Some(MessagesSeen(sockets[senderId], myId)) else None;
    }
  }

  /**
   * The read-receipt round trip between two users, from the contracts alone:
   * `a` sends `b` a text, `b` sees it in the history as `sent` and unread, `b`
   * marks it seen (one record changed), and a second mark changes nothing.
   */
  method ReadReceiptScenario(a: UserId, b: UserId, now: Timestamp)
    requires a != b
  {
    var store := new MessageCollection();
    var r, ev := store.SendMessage(a, b, Some("hi"), None, UploadFailed, now, map[]);
    assert r.Ok? && r.value.status == Sent && ev == None;
    assert store.messages == [r.value];
    ghost var history := GetMessages(store.messages, b, a);
    assert history == [r.value] by { HistoryOfOne(r.value); }
    UnreadAfterAppend([], r.value, b);
    UnreadAfterAppend([], r.value, a);
    assert UnreadCount(store.messages, b) == 1 && UnreadCount(store.messages, a) == 0;
    PendingAfterAppend([], r.value, a, b);
    var n, seen := store.MarkMessagesAsSeen(a, b, now + 1, map[a := "socket-a"]);
    assert n == 1 && seen == Some(MessagesSeen("socket-a", b));
    assert UnreadCount(store.messages, b) == 0;
    MarkSeenIdempotent([r.value], a, b, now + 1, now + 2);
    var again, _ := store.MarkMessagesAsSeen(a, b, now + 2, map[]);
    assert again == 0;
  }
}
