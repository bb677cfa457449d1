/** The in-memory chat store (data/chat/impl/InMemoryChatDataSource.kt).

    A map from chat id to chat, plus the notifications emitted so far on the
    "chats changed" stream. Every notification carries the payload 0, so a
    listener learns that something changed but not what.
 */
module ChatCache {
  import opened Wrappers
  import opened Domain

  /** The payload of every change notification. */
  const ChangedPayload: int := 0

  datatype Cache = Cache(chats: map<string, Chat>, notifications: seq<int>)

  /** Every entry is stored under its own id. */
  predicate Wf(c: Cache) {
    forall id :: id in c.chats ==> c.chats[id].id == id
  }

  /** A fresh store: nothing cached, nothing emitted. */
  function Empty(): (c: Cache)
    ensures c.chats == map[] && c.notifications == []
    ensures Wf(c)
  {
    Cache(map[], [])
  }

  /** The ids occurring in a list of chats. */
  function Ids(chats: seq<Chat>): set<string> {
    set c | c in chats :: c.id
  }

  /** `chats[i]` is the last chat of the list with its id. */
  predicate LastWithId(chats: seq<Chat>, i: int)
    requires 0 <= i < |chats|
  {
    forall j :: i < j < |chats| ==> chats[j].id != chats[i].id
  }

  /** The map the loop of `setList` builds: entries in list order, so a later
      chat with the same id overwrites an earlier one. */
  function FromList(chats: seq<Chat>): (m: map<string, Chat>)
    ensures m.Keys == Ids(chats)
    ensures forall id :: id in m ==> m[id].id == id
    decreases |chats|
  {
    if |chats| == 0 then map[]
    else
      var init := chats[..|chats| - 1];
      var last := chats[|chats| - 1];
      assert chats == init + [last];
      assert Ids(chats) == Ids(init) + {last.id};
      FromList(init)[last.id := last]
  }

  /** The last chat of the list with a given id is the one stored under it. */
  lemma {:induction false} FromListLastWins(chats: seq<Chat>, i: int)
    requires 0 <= i < |chats| && LastWithId(chats, i)
    ensures chats[i].id in FromList(chats) && FromList(chats)[chats[i].id] == chats[i]
    decreases |chats|
  {
    var init := chats[..|chats| - 1];
    var last := chats[|chats| - 1];
    assert chats == init + [last];
    if i < |chats| - 1 {
      assert last.id != chats[i].id;
      assert LastWithId(init, i) by {
        forall j | i < j < |init| ensures init[j].id != init[i].id {
          assert init[j] == chats[j];
        }
      }
      FromListLastWins(init, i);
    }
  }

  /** `setList`: replace the whole content, then notify once. */
  function SetList(c: Cache, chats: seq<Chat>): (r: Cache)
    ensures r.chats.Keys == Ids(chats)
    ensures forall i :: 0 <= i < |chats| && LastWithId(chats, i) ==> r.chats[chats[i].id] == chats[i]
    ensures r.notifications == c.notifications + [ChangedPayload]
    ensures Wf(r)
  {
    forall i | 0 <= i < |chats| && LastWithId(chats, i)
      ensures FromList(chats)[chats[i].id] == chats[i]
    {
      FromListLastWins(chats, i);
    }
    Cache(FromList(chats), c.notifications + [ChangedPayload])
  }

  /** `updateOne`: insert or replace the chat under its id, then notify once. */
  function UpdateOne(c: Cache, chat: Chat): (r: Cache)
    ensures r.chats.Keys == c.chats.Keys + {chat.id}
    ensures r.chats[chat.id] == chat
    ensures forall id :: id in c.chats && id != chat.id ==> r.chats[id] == c.chats[id]
    ensures r.notifications == c.notifications + [ChangedPayload]
    ensures Wf(c) ==> Wf(r)
  {
    Cache(c.chats[chat.id := chat], c.notifications + [ChangedPayload])
  }

  /** `remove`: delete the entry and notify, but only when there is one. */
  function Remove(c: Cache, id: string): (r: Cache)
    ensures id !in c.chats ==> r == c
    ensures id in c.chats ==> r.chats.Keys == c.chats.Keys - {id}
    ensures id in c.chats ==> r.notifications == c.notifications + [ChangedPayload]
    ensures forall k :: k in r.chats ==> k in c.chats && r.chats[k] == c.chats[k]
    ensures Wf(c) ==> Wf(r)
  {
    if id in c.chats then Cache(c.chats - {id}, c.notifications + [ChangedPayload]) else c
  }

  /** `findById`: the entry under `id`, or null. */
  function FindById(c: Cache, id: string): (r: Option<Chat>)
    ensures r.Some? <==> id in c.chats
    ensures r.Some? ==> r.value == c.chats[id]
  {
    if id in c.chats then Some(c.chats[id]) else None
  }

  /** No chat occurs twice in the list. */
  predicate Distinct(xs: seq<Chat>) {
    forall i, j :: 0 <= i < j < |xs| ==> xs[i] != xs[j]
  }

  /** `getList`: the values of the map, one per key. The map is a
      `LinkedHashMap`, so the code lists them in first-insertion order; the
      model leaves the order open. In a store whose entries sit under their own
      ids (every operation keeps it so), each cached chat occurs exactly once. */
  method GetList(c: Cache) returns (r: seq<Chat>)
    ensures |r| == |c.chats|
    ensures forall id :: id in c.chats ==> c.chats[id] in r
    ensures forall x :: x in r ==> x in c.chats.Values
    ensures Wf(c) ==> Distinct(r)
  {
    r := [];
    var rest := c.chats.Keys;
    while rest != {}
      invariant rest <= c.chats.Keys
      invariant |r| + |rest| == |c.chats|
      invariant forall id :: id in c.chats && id !in rest ==> c.chats[id] in r
      invariant forall x :: x in r ==> x in c.chats.Values
      invariant Wf(c) ==> forall x :: x in r ==> x.id in c.chats && x.id !in rest
      invariant Wf(c) ==> Distinct(r)
      decreases |rest|
    {
      var id :| id in rest;
      assert Wf(c) ==> c.chats[id].id == id;
      r := r + [c.chats[id]];
      rest := rest - {id};
    }
  }

  /** What `updateOne` stores is what `findById` returns; nothing else moves. */
  lemma FindAfterUpdate(c: Cache, chat: Chat, id: string)
    ensures FindById(UpdateOne(c, chat), chat.id) == Some(chat)
    ensures id != chat.id ==> FindById(UpdateOne(c, chat), id) == FindById(c, id)
  {
  }

  /** A removed chat is gone and every other entry is as before. */
  lemma FindAfterRemove(c: Cache, removed: string, id: string)
    ensures FindById(Remove(c, removed), removed) == None
    ensures id != removed ==> FindById(Remove(c, removed), id) == FindById(c, id)
  {
  }

  /** Upserting the same chat twice leaves the same map as once; only the
      notification count differs. */
  lemma UpdateOneIdempotent(c: Cache, chat: Chat)
    ensures UpdateOne(UpdateOne(c, chat), chat).chats == UpdateOne(c, chat).chats
    ensures |UpdateOne(UpdateOne(c, chat), chat).notifications| == |c.notifications| + 2
  {
  }

  /** Replacing the content with a list of chats with distinct ids stores each of
      them under its id. */
  lemma SetListDistinct(c: Cache, chats: seq<Chat>)
    requires forall i, j :: 0 <= i < j < |chats| ==> chats[i].id != chats[j].id
    ensures forall i :: 0 <= i < |chats| ==> FindById(SetList(c, chats), chats[i].id) == Some(chats[i])
    ensures |SetList(c, chats).chats| == |chats|
  {
    assert forall i :: 0 <= i < |chats| ==> LastWithId(chats, i);
    DistinctIdsCount(chats);
  }

  lemma {:induction false} DistinctIdsCount(chats: seq<Chat>)
    requires forall i, j :: 0 <= i < j < |chats| ==> chats[i].id != chats[j].id
    ensures |Ids(chats)| == |chats|
    decreases |chats|
  {
    if |chats| > 0 {
      var init := chats[..|chats| - 1];
      var last := chats[|chats| - 1];
      assert chats == init + [last];
      DistinctIdsCount(init);
      assert Ids(chats) == Ids(init) + {last.id};
      assert last.id !in Ids(init);
    }
  }
}
