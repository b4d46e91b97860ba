/**
 The per-chat message tracker: for every chat, the ordered list of the ids of
 the messages the bot has sent or edited there, and the cleanup pass that tries
 to delete all of them and then forgets the chat.
 */
module Tracker {

  type ChatId = int
  type MsgId = int

  /** The list recorded for `chat`, or the empty list for a chat without an entry. */
  function Tracked(m: map<ChatId, seq<MsgId>>, chat: ChatId): seq<MsgId>
  {
    if chat in m then m[chat] else []
  }

  /** The store after one message id has been recorded for `chat`. */
  function Record(m: map<ChatId, seq<MsgId>>, chat: ChatId, id: MsgId): (r: map<ChatId, seq<MsgId>>)
    ensures r.Keys == m.Keys + {chat}
    ensures Tracked(r, chat) == Tracked(m, chat) + [id]
    ensures |Tracked(r, chat)| == |Tracked(m, chat)| + 1
  {
    m[chat := Tracked(m, chat) + [id]]
  }

  /** Recording for one chat leaves every other chat's list as it was. */
  lemma RecordLeavesOthers(m: map<ChatId, seq<MsgId>>, chat: ChatId, id: MsgId, other: ChatId)
    requires other != chat
    ensures Tracked(Record(m, chat, id), other) == Tracked(m, other)
  {
  }

  /** No deduplication: recording an id, even one already in the list, adds one more occurrence of it. */
  lemma RecordKeepsDuplicates(m: map<ChatId, seq<MsgId>>, chat: ChatId, id: MsgId)
    ensures multiset(Tracked(Record(m, chat, id), chat))[id] == multiset(Tracked(m, chat))[id] + 1
    ensures id in Tracked(m, chat) ==> multiset(Tracked(Record(m, chat, id), chat))[id] >= 2
  {
  }

  /** The store after the ids `ids` have been recorded for `chat`, one at a time, in order. */
  function RecordEach(m: map<ChatId, seq<MsgId>>, chat: ChatId, ids: seq<MsgId>): map<ChatId, seq<MsgId>>
    decreases |ids|
  {
    if ids == [] then m else Record(RecordEach(m, chat, ids[..|ids| - 1]), chat, ids[|ids| - 1])
  }

  /** Recording one more id extends a run of recordings by one step. */
  lemma RecordEachSnoc(m: map<ChatId, seq<MsgId>>, chat: ChatId, ids: seq<MsgId>, id: MsgId)
    ensures RecordEach(m, chat, ids + [id]) == Record(RecordEach(m, chat, ids), chat, id)
  {
    assert (ids + [id])[..|ids|] == ids;
  }

  /** Two recordings in a row, as one run. */
  lemma RecordEachTwo(m: map<ChatId, seq<MsgId>>, chat: ChatId, a: MsgId, b: MsgId)
    ensures RecordEach(m, chat, [a, b]) == Record(Record(m, chat, a), chat, b)
  {
    RecordEachSnoc(m, chat, [], a);
    RecordEachSnoc(m, chat, [a], b);
    assert [] + [a] == [a] && [a] + [b] == [a, b];
  }

  /** Three recordings in a row, as one run. */
  lemma RecordEachThree(m: map<ChatId, seq<MsgId>>, chat: ChatId, a: MsgId, b: MsgId, c: MsgId)
    ensures RecordEach(m, chat, [a, b, c]) == Record(Record(Record(m, chat, a), chat, b), chat, c)
  {
    RecordEachTwo(m, chat, a, b);
    RecordEachSnoc(m, chat, [a, b], c);
    assert [a, b] + [c] == [a, b, c];
  }

  /** Recording several ids in turn leaves exactly those ids, in send order, at the end of the chat's list. */
  lemma {:induction false} RecordEachAppends(m: map<ChatId, seq<MsgId>>, chat: ChatId, ids: seq<MsgId>)
    ensures Tracked(RecordEach(m, chat, ids), chat) == Tracked(m, chat) + ids
    decreases |ids|
  {
    if ids == [] {
      assert Tracked(m, chat) + ids == Tracked(m, chat);
    } else {
      var front, last := ids[..|ids| - 1], ids[|ids| - 1];
      RecordEachAppends(m, chat, front);
      assert front + [last] == ids;
    }
  }

  /** Recording ids for one chat leaves every other chat's list as it was. */
  lemma {:induction false} RecordEachOthers(m: map<ChatId, seq<MsgId>>, chat: ChatId, ids: seq<MsgId>, other: ChatId)
    requires other != chat
    ensures Tracked(RecordEach(m, chat, ids), other) == Tracked(m, other)
    decreases |ids|
  {
    if ids != [] {
      RecordEachOthers(m, chat, ids[..|ids| - 1], other);
      RecordLeavesOthers(RecordEach(m, chat, ids[..|ids| - 1]), chat, ids[|ids| - 1], other);
    }
  }

  /** A conversation's list, started from an absent chat, is exactly the ids sent, in order. */
  lemma RecordEachFromEmpty(m: map<ChatId, seq<MsgId>>, chat: ChatId, ids: seq<MsgId>)
    requires chat !in m
    ensures Tracked(RecordEach(m, chat, ids), chat) == ids
  {
    RecordEachAppends(m, chat, ids);
  }

  /** The store once the chat's entry has been popped. */
  function Drained(m: map<ChatId, seq<MsgId>>, chat: ChatId): (r: map<ChatId, seq<MsgId>>)
    ensures chat !in r && r.Keys == m.Keys - {chat}
    ensures Tracked(r, chat) == []
    ensures forall c :: c != chat ==> Tracked(r, c) == Tracked(m, c)
  {
    m - {chat}
  }

  /**
   The ids among `attempts` whose deletion failed, in attempt order, when the
   deletion attempted k-th succeeds exactly when `succeeds(k)`.
   */
  function FailedIds(attempts: seq<MsgId>, succeeds: nat -> bool): (failed: seq<MsgId>)
    ensures |failed| <= |attempts|
    ensures forall x :: x in failed ==> x in attempts
    decreases |attempts|
  {
    if attempts == [] then []
    else
      var k := |attempts| - 1;
      FailedIds(attempts[..k], succeeds) + (if succeeds(k) then [] else [attempts[k]])
  }

  /** The failed deletions are some of the attempted ones, never more. */
  lemma {:induction false} FailedIdsAreAttempted(attempts: seq<MsgId>, succeeds: nat -> bool)
    ensures |FailedIds(attempts, succeeds)| <= |attempts|
    ensures multiset(FailedIds(attempts, succeeds)) <= multiset(attempts)
    decreases |attempts|
  {
    if attempts != [] {
      var k := |attempts| - 1;
      FailedIdsAreAttempted(attempts[..k], succeeds);
      assert attempts[..k] + [attempts[k]] == attempts;
    }
  }

  /** An id is logged as failed exactly when some attempt at it failed, whatever the other attempts did. */
  lemma {:induction false} FailedIdsExact(attempts: seq<MsgId>, succeeds: nat -> bool, x: MsgId)
    ensures x in FailedIds(attempts, succeeds) <==> exists k: nat :: k < |attempts| && attempts[k] == x && !succeeds(k)
    decreases |attempts|
  {
    if attempts != [] {
      var n := |attempts| - 1;
      var front := attempts[..n];
      FailedIdsExact(front, succeeds, x);
      if x in FailedIds(attempts, succeeds) {
        if x in FailedIds(front, succeeds) {
          var k: nat :| k < |front| && front[k] == x && !succeeds(k);
          assert attempts[k] == x;
        } else {
          assert attempts[n] == x && !succeeds(n);
        }
      } else {
        forall k: nat | k < |attempts| && attempts[k] == x
          ensures succeeds(k)
        {
          if k < n {
            assert front[k] == x;
          }
        }
      }
    }
  }

  /** When every deletion succeeds nothing is logged as failed. */
  lemma {:induction false} AllSucceedNoneFailed(attempts: seq<MsgId>, succeeds: nat -> bool)
    requires forall k: nat :: k < |attempts| ==> succeeds(k)
    ensures FailedIds(attempts, succeeds) == []
    decreases |attempts|
  {
    if attempts != [] {
      AllSucceedNoneFailed(attempts[..|attempts| - 1], succeeds);
    }
  }

  /** When every deletion fails, every attempted id is logged as failed, in order. */
  lemma {:induction false} AllFailAllLogged(attempts: seq<MsgId>, succeeds: nat -> bool)
    requires forall k: nat :: k < |attempts| ==> !succeeds(k)
    ensures FailedIds(attempts, succeeds) == attempts
    decreases |attempts|
  {
    if attempts != [] {
      var k := |attempts| - 1;
      AllFailAllLogged(attempts[..k], succeeds);
      assert attempts[..k] + [attempts[k]] == attempts;
    }
  }

  /** The process-wide store `chat_messages`. */
  class MessageTracker {
    var chatMessages: map<ChatId, seq<MsgId>>

    constructor ()
      ensures chatMessages == map[]
    {
      chatMessages := map[];
    }

    /** Appends `id` to the chat's list, creating the list first when the chat has none; no deduplication. */
    method Track(chat: ChatId, id: MsgId)
      modifies this
      ensures chatMessages == Record(old(chatMessages), chat, id)
    {
      if chat !in chatMessages {
        chatMessages := chatMessages[chat := []];
      }
      chatMessages := chatMessages[chat := chatMessages[chat] + [id]];
    }

    /**
     One completed cleanup pass for `chat` (the delay before it is not modelled).
     Every tracked id is attempted in stored order; the k-th attempt fails exactly
     when `!succeeds(k)`, is logged in `failed`, and does not stop the loop. The
     chat's entry is removed afterwards whatever failed.
     */
    method DeleteAll(chat: ChatId, succeeds: nat -> bool) returns (attempted: seq<MsgId>, failed: seq<MsgId>)
      modifies this
      ensures attempted == Tracked(old(chatMessages), chat)
      ensures failed == FailedIds(attempted, succeeds)
      ensures chatMessages == Drained(old(chatMessages), chat)
    {
      var ids := if chat in chatMessages then chatMessages[chat] else [];
      attempted, failed := [], [];
      for i := 0 to |ids|
        invariant attempted == ids[..i]
        invariant failed == FailedIds(attempted, succeeds)
      {
        attempted := attempted + [ids[i]];
        assert attempted[..i] == ids[..i];
        if !succeeds(i) {
          failed := failed + [ids[i]];
        }
      }
      assert attempted == ids;
      chatMessages := chatMessages - {chat};
    }
  }
}
