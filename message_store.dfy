/**
 * The Message collection as the controller handlers query and update it
 * (src/controllers/message.controller.js): the conversation query with its
 * creation-time order, the unread count, and the bulk `sent` to `seen` update,
 * each stated over the sequence of stored records.
 */
module MessageStore {
  import opened MessageModel

  // ---------------------------------------------------------------------------
  // Conversation history (`getMessages`)

  /** The query filter: the record goes from one of the two users to the other. */
  predicate InConversation(m: Message, a: UserId, b: UserId)
  {
    (m.senderId == a && m.receiverId == b) || (m.senderId == b && m.receiverId == a)
  }

  /** The records the filter selects: each conversation record as often as it is stored, nothing else. */
  function ConversationRecords(s: seq<Message>, a: UserId, b: UserId): (f: seq<Message>)
    ensures forall m :: multiset(f)[m] == if InConversation(m, a, b) then multiset(s)[m] else 0
  {
    if s == [] then []
    else
      assert s == [s[0]] + s[1..];
      (if InConversation(s[0], a, b) then [s[0]] else []) + ConversationRecords(s[1..], a, b)
  }

  /** Ascending creation time. */
  predicate SortedByCreation(s: seq<Message>)
  {
    forall i, j :: 0 <= i < j < |s| ==> s[i].createdAt <= s[j].createdAt
  }

  /** A record no later than every record of a sorted list can head it. */
  lemma SortedAfterHead(h: Message, t: seq<Message>)
    requires SortedByCreation(t)
    requires forall k :: 0 <= k < |t| ==> h.createdAt <= t[k].createdAt
    ensures SortedByCreation([h] + t)
  {
  }

  /** Places `m` into a list already in creation order. */
  function InsertByCreation(m: Message, s: seq<Message>): (r: seq<Message>)
    requires SortedByCreation(s)
    ensures SortedByCreation(r)
    ensures multiset(r) == multiset(s) + multiset{m}
  {
    if s == [] then [m]
    else if m.createdAt <= s[0].createdAt then [m] + s
    else
      assert s == [s[0]] + s[1..];
      var rest := InsertByCreation(m, s[1..]);
      assert forall k :: 0 <= k < |rest| ==> s[0].createdAt <= rest[k].createdAt by {
        forall k | 0 <= k < |rest| ensures s[0].createdAt <= rest[k].createdAt {
          var x := rest[k];
          assert x in multiset(rest);
          if x != m {
            assert x in multiset(s[1..]);
            var j :| 0 <= j < |s[1..]| && s[1..][j] == x;
            assert s[j + 1] == x;
          }
        }
      }
      SortedAfterHead(s[0], rest);
      [s[0]] + rest
  }

  /** `sort({ createdAt: 1 })`: the records in ascending creation order, none added or lost. */
  function SortByCreation(s: seq<Message>): (r: seq<Message>)
    ensures SortedByCreation(r)
    ensures multiset(r) == multiset(s)
  {
    if s == [] then []
    else
      assert s == [s[0]] + s[1..];
      InsertByCreation(s[0], SortByCreation(s[1..]))
  }

  /**
   * The conversation between `me` and `other`: ascending by creation time, and
   * holding every record between the two (in either direction) as often as it
   * is stored, and no other record.
   */
  function GetMessages(s: seq<Message>, me: UserId, other: UserId): (r: seq<Message>)
    ensures SortedByCreation(r)
    ensures forall m :: multiset(r)[m] == if InConversation(m, me, other) then multiset(s)[m] else 0
  {
    SortByCreation(ConversationRecords(s, me, other))
  }

  /** The filter is on the unordered pair: both users see the same history. */
  lemma {:induction false} ConversationIsSymmetric(s: seq<Message>, a: UserId, b: UserId)
    ensures ConversationRecords(s, a, b) == ConversationRecords(s, b, a)
    ensures GetMessages(s, a, b) == GetMessages(s, b, a)
  {
    if s != [] {
      ConversationIsSymmetric(s[1..], a, b);
    }
  }

  /** A stored message appears in the history of its sender and of its receiver, seen from either side. */
  lemma SentMessageIsListed(s: seq<Message>, m: Message)
    ensures m in GetMessages(s + [m], m.senderId, m.receiverId)
    ensures m in GetMessages(s + [m], m.receiverId, m.senderId)
  {
    assert multiset(s + [m])[m] > 0;
    assert multiset(GetMessages(s + [m], m.senderId, m.receiverId))[m] > 0;
    assert multiset(GetMessages(s + [m], m.receiverId, m.senderId))[m] > 0;
  }

  /** A collection holding one message shows exactly that message to either party. */
  lemma HistoryOfOne(m: Message)
    ensures GetMessages([m], m.senderId, m.receiverId) == [m]
    ensures GetMessages([m], m.receiverId, m.senderId) == [m]
  {
    assert [m][1..] == [];
    assert ConversationRecords([m], m.senderId, m.receiverId) == [m];
    assert SortByCreation([m]) == InsertByCreation(m, []);
    ConversationIsSymmetric([m], m.senderId, m.receiverId);
  }

  // ---------------------------------------------------------------------------
  // Unread count (`getUnreadCount`) and the mark-seen filter

  /** Addressed to `me` and still `sent`, whoever sent it. */
  predicate IsUnreadFor(m: Message, me: UserId)
  {
    m.receiverId == me && m.status == Sent
  }

  /** `countDocuments({ receiverId: me, status: 'sent' })`. */
  function UnreadCount(s: seq<Message>, me: UserId): (n: nat)
    ensures n <= |s|
  {
    if s == [] then 0
    else UnreadCount(s[..|s| - 1], me) + (if IsUnreadFor(s[|s| - 1], me) then 1 else 0)
  }

  /** The mark-seen filter `{ senderId: sender, receiverId: me, status: 'sent' }`. */
  predicate IsPendingFrom(m: Message, sender: UserId, me: UserId)
  {
    m.senderId == sender && IsUnreadFor(m, me)
  }

  /** The number of records the mark-seen filter matches; never more than the unread count. */
  function PendingCount(s: seq<Message>, sender: UserId, me: UserId): (n: nat)
    ensures n <= UnreadCount(s, me)
  {
    if s == [] then 0
    else PendingCount(s[..|s| - 1], sender, me) + (if IsPendingFrom(s[|s| - 1], sender, me) then 1 else 0)
  }

  /** Appending a record raises the unread count of its receiver by one when it is `sent`, and no other. */
  lemma {:induction false} UnreadAfterAppend(s: seq<Message>, m: Message, who: UserId)
    ensures UnreadCount(s + [m], who) == UnreadCount(s, who) + (if IsUnreadFor(m, who) then 1 else 0)
  {
    assert (s + [m])[..|s|] == s;
  }

  lemma {:induction false} PendingAfterAppend(s: seq<Message>, m: Message, sender: UserId, me: UserId)
    ensures PendingCount(s + [m], sender, me) == PendingCount(s, sender, me) + (if IsPendingFrom(m, sender, me) then 1 else 0)
  {
    assert (s + [m])[..|s|] == s;
  }

  /** The per-sender counts of `senders`, added up. */
  function PendingTotal(s: seq<Message>, senders: seq<UserId>, me: UserId): nat
  {
    if senders == [] then 0
    else PendingCount(s, senders[0], me) + PendingTotal(s, senders[1..], me)
  }

  predicate Distinct(xs: seq<UserId>)
  {
    forall i, j :: 0 <= i < j < |xs| ==> xs[i] != xs[j]
  }

  lemma {:induction false} PendingTotalAfterAppend(s: seq<Message>, m: Message, senders: seq<UserId>, me: UserId)
    requires Distinct(senders)
    ensures PendingTotal(s + [m], senders, me)
         == PendingTotal(s, senders, me) + (if IsUnreadFor(m, me) && m.senderId in senders then 1 else 0)
  {
    if senders != [] {
      PendingAfterAppend(s, m, senders[0], me);
      PendingTotalAfterAppend(s, m, senders[1..], me);
      assert senders == [senders[0]] + senders[1..];
      assert m.senderId == senders[0] ==> m.senderId !in senders[1..];
    }
  }

  /**
   * The unread count is global: given every sender once, it is the sum of the
   * per-sender counts the mark-seen filter would match.
   */
  lemma {:induction false} UnreadCountSumsOverSenders(s: seq<Message>, me: UserId, senders: seq<UserId>)
    requires Distinct(senders)
    requires forall i :: 0 <= i < |s| && IsUnreadFor(s[i], me) ==> s[i].senderId in senders
    ensures UnreadCount(s, me) == PendingTotal(s, senders, me)
  {
    if s == [] {
      PendingTotalOfNothing(senders, me);
    } else {
      var init, m := s[..|s| - 1], s[|s| - 1];
      assert s == init + [m];
      UnreadCountSumsOverSenders(init, me, senders);
      PendingTotalAfterAppend(init, m, senders, me);
    }
  }

  lemma {:induction false} PendingTotalOfNothing(senders: seq<UserId>, me: UserId)
    ensures PendingTotal([], senders, me) == 0
  {
    if senders != [] {
      PendingTotalOfNothing(senders[1..], me);
    }
  }

  // ---------------------------------------------------------------------------
  // Mark seen (`markMessagesAsSeen`)

  /**
   * The update applied to one record: a record matching the filter becomes
   * `seen` and gets the update time (the schema's timestamps option stamps
   * `updatedAt` on updates); any other record is left as it is.
   */
  function MarkOne(m: Message, sender: UserId, me: UserId, now: Timestamp): (r: Message)
    ensures SameRecord(m, r) && !IsPendingFrom(r, sender, me)
    ensures IsPendingFrom(m, sender, me) ==> r.status == Seen && r.updatedAt == now
    ensures !IsPendingFrom(m, sender, me) ==> r == m
  {
    if IsPendingFrom(m, sender, me) then m.(status := Seen, updatedAt := now) else m
  }

  /** `updateMany` over the whole collection; it neither inserts nor deletes records. */
  function MarkSeenAll(s: seq<Message>, sender: UserId, me: UserId, now: Timestamp): (r: seq<Message>)
    ensures |r| == |s|
  {
    if s == [] then []
    else MarkSeenAll(s[..|s| - 1], sender, me, now) + [MarkOne(s[|s| - 1], sender, me, now)]
  }

  lemma {:induction false} MarkSeenAllPointwise(s: seq<Message>, sender: UserId, me: UserId, now: Timestamp)
    ensures |MarkSeenAll(s, sender, me, now)| == |s|
    ensures forall i :: 0 <= i < |s| ==> MarkSeenAll(s, sender, me, now)[i] == MarkOne(s[i], sender, me, now)
  {
    if s != [] {
      MarkSeenAllPointwise(s[..|s| - 1], sender, me, now);
    }
  }

  /** A sequence that applies the one-record update at every position is the bulk update. */
  lemma MarkSeenAllOfPointwise(s: seq<Message>, t: seq<Message>, sender: UserId, me: UserId, now: Timestamp)
    requires |t| == |s|
    requires forall k :: 0 <= k < |s| ==> t[k] == MarkOne(s[k], sender, me, now)
    ensures t == MarkSeenAll(s, sender, me, now)
  {
    MarkSeenAllPointwise(s, sender, me, now);
  }

  /**
   * The effect of marking seen: every record that matched is now `seen` (its
   * other fields but `updatedAt` kept), every other record, including those
   * from `me` to `sender`, is unchanged, and no match is left.
   */
  lemma {:induction false} MarkSeenEffect(s: seq<Message>, sender: UserId, me: UserId, now: Timestamp)
    ensures |MarkSeenAll(s, sender, me, now)| == |s|
    ensures forall i :: 0 <= i < |s| && IsPendingFrom(s[i], sender, me) ==>
      MarkSeenAll(s, sender, me, now)[i] == s[i].(status := Seen, updatedAt := now)
    ensures forall i :: 0 <= i < |s| && !IsPendingFrom(s[i], sender, me) ==>
      MarkSeenAll(s, sender, me, now)[i] == s[i]
    ensures forall i :: 0 <= i < |s| ==> !IsPendingFrom(MarkSeenAll(s, sender, me, now)[i], sender, me)
  {
    MarkSeenAllPointwise(s, sender, me, now);
  }

  /** A collection with no record matching the filter has a zero count. */
  lemma {:induction false} NoPendingMeansZero(s: seq<Message>, sender: UserId, me: UserId)
    requires forall i :: 0 <= i < |s| ==> !IsPendingFrom(s[i], sender, me)
    ensures PendingCount(s, sender, me) == 0
  {
    if s != [] {
      NoPendingMeansZero(s[..|s| - 1], sender, me);
    }
  }

  /**
   * Marking seen is idempotent: a second call with the same pair matches no
   * record (its count is 0) and leaves the collection as the first call left it.
   */
  lemma {:induction false} MarkSeenIdempotent(s: seq<Message>, sender: UserId, me: UserId, t1: Timestamp, t2: Timestamp)
    ensures PendingCount(MarkSeenAll(s, sender, me, t1), sender, me) == 0
    ensures MarkSeenAll(MarkSeenAll(s, sender, me, t1), sender, me, t2) == MarkSeenAll(s, sender, me, t1)
  {
    var once := MarkSeenAll(s, sender, me, t1);
    MarkSeenEffect(s, sender, me, t1);
    NoPendingMeansZero(once, sender, me);
    MarkSeenEffect(once, sender, me, t2);
  }

  /** Marking seen for two different (sender, receiver) pairs gives the same collection in either order. */
  lemma {:induction false} MarkSeenCommutes(s: seq<Message>, a: UserId, b: UserId, c: UserId, d: UserId, t1: Timestamp, t2: Timestamp)
    requires a != c || b != d
    ensures MarkSeenAll(MarkSeenAll(s, a, b, t1), c, d, t2) == MarkSeenAll(MarkSeenAll(s, c, d, t2), a, b, t1)
  {
    MarkSeenAllPointwise(s, a, b, t1);
    MarkSeenAllPointwise(s, c, d, t2);
    MarkSeenAllPointwise(MarkSeenAll(s, a, b, t1), c, d, t2);
    MarkSeenAllPointwise(MarkSeenAll(s, c, d, t2), a, b, t1);
  }

  /**
   * Marking seen lowers the unread count of `me` by exactly the number of
   * records it matched, and leaves every other user's unread count alone.
   */
  lemma {:induction false} UnreadAfterMarkSeen(s: seq<Message>, sender: UserId, me: UserId, now: Timestamp, who: UserId)
    ensures UnreadCount(MarkSeenAll(s, sender, me, now), who)
         == if who == me then UnreadCount(s, me) - PendingCount(s, sender, me) else UnreadCount(s, who)
  {
    if s != [] {
      var init, m := s[..|s| - 1], s[|s| - 1];
      UnreadAfterMarkSeen(init, sender, me, now, who);
      UnreadAfterAppend(MarkSeenAll(init, sender, me, now), MarkOne(m, sender, me, now), who);
    }
  }

  // ---------------------------------------------------------------------------
  // The status only moves forward

  /** The fields no handler ever changes once a record is stored. */
  predicate SameRecord(m: Message, n: Message)
  {
    m.senderId == n.senderId && m.receiverId == n.receiverId && m.text == n.text
    && m.image == n.image && m.createdAt == n.createdAt
  }

  /**
   * `after` is a later state of `before`: no record was removed or reordered,
   * none changed what it says, and none went from `seen` back to `sent`.
   */
  predicate StatusOnlyAdvances(before: seq<Message>, after: seq<Message>)
  {
    |before| <= |after|
    && forall i :: 0 <= i < |before| ==>
         SameRecord(before[i], after[i]) && (before[i].status == Seen ==> after[i].status == Seen)
  }

  /** Successive states compose: over any run of handlers no `seen` record returns to `sent`. */
  lemma AdvancesCompose(s1: seq<Message>, s2: seq<Message>, s3: seq<Message>)
    requires StatusOnlyAdvances(s1, s2) && StatusOnlyAdvances(s2, s3)
    ensures StatusOnlyAdvances(s1, s3)
  {
  }

  /** Marking seen is a forward step. */
  lemma {:induction false} MarkSeenAdvances(s: seq<Message>, sender: UserId, me: UserId, now: Timestamp)
    ensures StatusOnlyAdvances(s, MarkSeenAll(s, sender, me, now))
  {
    MarkSeenAllPointwise(s, sender, me, now);
  }
}
