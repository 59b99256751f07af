/** The chat mutations of the backend store: creating a chat for the signed-in
    user, and deleting one of their chats together with all of its messages.
    The store is two tables keyed by document id. */
module Chats {
  import opened Values

  /** The signed-in user, as `ctx.auth.getUserIdentity()` returns it. */
  datatype Identity = Identity(subject: string)

  /** A row of the `chats` table. */
  datatype Chat = Chat(title: string, userId: string, createdAt: int)

  /** A row of the `messages` table; `chatId` refers to a row of `chats`. */
  datatype StoredMessage = StoredMessage(chatId: nat, content: string, role: string)

  /** Both tables at one moment. */
  datatype Tables = Tables(chats: map<nat, Chat>, messages: map<nat, StoredMessage>)

  const CREATE_UNAUTHENTICATED: string := "Called storeChat without authentication present"
  const DELETE_UNAUTHENTICATED: string := "Called deleteChat without authentication present"
  const DELETE_INVALID_ID: string := "Called deleteChat with invalid id"

  /** The messages that do not belong to chat `chatId`. */
  function WithoutChat(messages: map<nat, StoredMessage>, chatId: nat): (r: map<nat, StoredMessage>)
    ensures forall k :: k in r ==> k in messages && r[k] == messages[k] && r[k].chatId != chatId
    ensures forall k :: k in messages && messages[k].chatId != chatId ==> k in r
  {
    map k | k in messages && messages[k].chatId != chatId :: messages[k]
  }

  /** `createChat`: without an identity it throws and nothing is written;
      otherwise it inserts a chat titled `title`, owned by the identity's
      subject and stamped `now`, under the id the store picks (`newId`). */
  function CreateChatSpec(t: Tables, identity: Option<Identity>, title: string, now: int, newId: nat): (r: (Result<nat, string>, Tables))
    ensures r.0.Err? <==> identity.None?
    ensures r.0.Err? ==> r.0.error == CREATE_UNAUTHENTICATED && r.1 == t
    ensures r.0.Ok? ==> r.0.value == newId && newId in r.1.chats && r.1.chats[newId].userId == identity.value.subject
    ensures r.0.Ok? ==> forall k :: k in t.chats && k != newId ==> k in r.1.chats && r.1.chats[k] == t.chats[k]
    ensures r.0.Ok? ==> r.1.chats == t.chats[newId := Chat(title, identity.value.subject, now)]
    ensures r.1.messages == t.messages
  {
    if identity.None? then (Err(CREATE_UNAUTHENTICATED), t)
    else (Ok(newId), t.(chats := t.chats[newId := Chat(title, identity.value.subject, now)]))
  }

  /** `deleteChat`: it throws, before anything is written, without an identity
      or when the chat is missing or owned by someone else; otherwise the
      chat and every message of it are gone and nothing else changed. */
  function DeleteChatSpec(t: Tables, identity: Option<Identity>, id: nat): (r: (Result<(), string>, Tables))
    ensures r.0.Ok? <==> identity.Some? && id in t.chats && t.chats[id].userId == identity.value.subject
    ensures identity.None? ==> r.0 == Err(DELETE_UNAUTHENTICATED)
    ensures identity.Some? && r.0.Err? ==> r.0 == Err(DELETE_INVALID_ID)
    ensures r.0.Err? ==> r.1 == t
    ensures r.0.Ok? ==> id !in r.1.chats && forall k :: k in r.1.messages ==> r.1.messages[k].chatId != id
    ensures forall k :: k in t.chats && k != id ==> k in r.1.chats && r.1.chats[k] == t.chats[k]
    ensures forall k :: k in t.messages && t.messages[k].chatId != id ==> k in r.1.messages && r.1.messages[k] == t.messages[k]
    ensures r.1.chats.Keys <= t.chats.Keys && r.1.messages.Keys <= t.messages.Keys
  {
    if identity.None? then (Err(DELETE_UNAUTHENTICATED), t)
    else if id !in t.chats || t.chats[id].userId != identity.value.subject then (Err(DELETE_INVALID_ID), t)
    else (Ok(()), Tables(t.chats - {id}, WithoutChat(t.messages, id)))
  }

  /** Deleting a chat one has just created, before any message was added to
      it, gives back the tables as they were. */
  lemma CreateThenDelete(t: Tables, identity: Identity, title: string, now: int, newId: nat)
    requires newId !in t.chats
    requires forall k :: k in t.messages ==> t.messages[k].chatId != newId
    ensures var (created, t1) := CreateChatSpec(t, Some(identity), title, now, newId);
      var (deleted, t2) := DeleteChatSpec(t1, Some(identity), newId);
      created == Ok(newId) && deleted == Ok(()) && t2 == t
  {
    var t1 := CreateChatSpec(t, Some(identity), title, now, newId).1;
    var t2 := DeleteChatSpec(t1, Some(identity), newId).1;
    assert t2.chats == t.chats;
    assert t2.messages == t.messages;
  }

  /** A user can delete only their own chats: for any two subjects, at most
      one of them may delete a given chat. */
  lemma OnlyOwnerDeletes(t: Tables, a: Identity, b: Identity, id: nat)
    requires a.subject != b.subject
    ensures !(DeleteChatSpec(t, Some(a), id).0.Ok? && DeleteChatSpec(t, Some(b), id).0.Ok?)
  {
  }

  /** The store, updated in place by the mutations. */
  class ChatStore {
    var chats: map<nat, Chat>
    var messages: map<nat, StoredMessage>
    /** Every id handed out so far is below this. */
    var nextId: nat

    ghost predicate Valid()
      reads this
    {
      (forall k :: k in chats ==> k < nextId) && (forall k :: k in messages ==> k < nextId)
    }

    function Snapshot(): Tables
      reads this
    {
      Tables(chats, messages)
    }

    constructor ()
      ensures Valid() && chats == map[] && messages == map[]
    {
      chats := map[];
      messages := map[];
      nextId := 0;
    }

    /** `createChat`. */
    method CreateChat(identity: Option<Identity>, title: string, now: int) returns (r: Result<nat, string>)
      requires Valid()
      modifies this
      ensures Valid()
      ensures r.Ok? ==> r.value !in old(chats)
      ensures (r, Snapshot()) == CreateChatSpec(old(Snapshot()), identity, title, now, if r.Ok? then r.value else 0)
    {
      if identity.None? {
        return Err(CREATE_UNAUTHENTICATED);
      }
      var id := nextId;
      chats := chats[id := Chat(title, identity.value.subject, now)];
      nextId := nextId + 1;
      r := Ok(id);
    }

    /** `deleteChat`: the checks, then each queried message of the chat, then the chat. */
    method DeleteChat(identity: Option<Identity>, id: nat) returns (r: Result<(), string>)
      requires Valid()
      modifies this
      ensures Valid()
      ensures (r, Snapshot()) == DeleteChatSpec(old(Snapshot()), identity, id)
    {
      if identity.None? {
        return Err(DELETE_UNAUTHENTICATED);
      }
      if id !in chats || chats[id].userId != identity.value.subject {
        return Err(DELETE_INVALID_ID);
      }
      var pending := set k | k in messages && messages[k].chatId == id;
      while pending != {}
        invariant pending <= old(messages).Keys
        invariant forall k :: k in pending ==> old(messages)[k].chatId == id
        invariant forall k :: k in messages <==> k in old(messages) && (old(messages)[k].chatId != id || k in pending)
        invariant forall k :: k in messages ==> messages[k] == old(messages)[k]
        invariant chats == old(chats) && nextId == old(nextId)
        decreases pending
      {
        var k :| k in pending;
        messages := messages - {k};
        pending := pending - {k};
      }
      assert messages == WithoutChat(old(messages), id);
      chats := chats - {id};
      r := Ok(());
    }
  }
}
