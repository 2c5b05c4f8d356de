/**
 * The conversation controller: a seller's conversations (all of them, or those about
 * one product), finding or starting the caller's conversation about a product, and
 * sending a message into a conversation.
 */
module ConversationController {
  import opened Common
  import opened Tables

  /** A conversation together with its messages, keyed by id. */
  datatype Thread = Thread(id: Id, conversation: Conversation, messages: map<Id, Message>)

  /** The messages of one conversation. */
  function MessagesOf(messages: map<Id, Message>, conversationId: Id): (r: map<Id, Message>)
    ensures forall id :: id in r <==> id in messages && messages[id].conversationId == conversationId
    ensures forall id :: id in r ==> r[id] == messages[id]
  {
    map id | id in messages && messages[id].conversationId == conversationId :: messages[id]
  }

  /** The conversation of (buyer, seller, product), if there is one (unique when the table is consistent). */
  ghost function ConversationFor(conversations: map<Id, Conversation>, c: Conversation): (r: Option<Id>)
    ensures r.Some? ==> r.value in conversations && conversations[r.value] == c
    ensures r.None? ==> forall id :: id in conversations ==> conversations[id] != c
  {
    if exists id :: id in conversations && conversations[id] == c
    then Some(var id :| id in conversations && conversations[id] == c; id)
    else None
  }

  /** The conversations in which the caller is the seller, keyed by id. */
  method ListAllConversations(db: Db, caller: Option<Id>) returns (r: Reply<map<Id, Conversation>>)
    requires db.Valid()
    ensures caller.None? ==> r == Failure(401)
    ensures caller.Some? ==> r.Success? && r.status == 200
    ensures caller.Some? && r.Success? ==>
      && (forall id :: id in r.data <==> id in db.conversations && db.conversations[id].sellerId == caller.value)
      && (forall id :: id in r.data ==> r.data[id] == db.conversations[id])
  {
    if caller.None? {
      return Failure(401);
    }
    var conversations := db.conversations;
    r := Success(200, map id | id in conversations && conversations[id].sellerId == caller.value :: conversations[id]);
  }

  /** The conversations about one product in which the caller is the seller, keyed by id. */
  method ListAllConversationsByProduct(db: Db, caller: Option<Id>, productId: Option<Id>)
    returns (r: Reply<map<Id, Conversation>>)
    requires db.Valid()
    ensures caller.None? ==> r == Failure(401)
    ensures caller.Some? && Present(productId).None? ==> r == Failure(400)
    ensures caller.Some? && Present(productId).Some? ==> r.Success? && r.status == 200
    ensures caller.Some? && Present(productId).Some? && r.Success? ==>
      && (forall id :: id in r.data <==>
            id in db.conversations && db.conversations[id].sellerId == caller.value
            && db.conversations[id].productId == productId.value)
      && (forall id :: id in r.data ==> r.data[id] == db.conversations[id])
  {
    if caller.None? {
      return Failure(401);
    }
    if Present(productId).None? {
      return Failure(400);
    }
    var conversations := db.conversations;
    var seller, product := caller.value, productId.value;
    r := Success(200, map id | id in conversations && conversations[id].sellerId == seller
                                 && conversations[id].productId == product :: conversations[id]);
  }

  /**
   * The caller's conversation with the seller of a product, about that product: the
   * existing one, or else a new one (with no messages). Either way the reply is 200.
   */
  method StartOrGetConversation(db: Db, caller: Option<Id>, productId: Option<Id>, newId: Id) returns (r: Reply<Thread>)
    requires db.Valid() && newId !in db.conversations
    modifies db`conversations
    ensures db.Valid()
    ensures caller.None? ==> r == Failure(401) && db.conversations == old(db.conversations)
    ensures caller.Some? && Present(productId).None? ==> r == Failure(400) && db.conversations == old(db.conversations)
    ensures caller.Some? && Present(productId).Some? && productId.value !in db.products ==>
      r == Failure(404) && db.conversations == old(db.conversations)
    ensures caller.Some? && Present(productId).Some? && productId.value in db.products ==>
      var c := Conversation(caller.value, db.products[productId.value].sellerId, productId.value);
      var found := ConversationFor(old(db.conversations), c);
      && r.Success? && r.status == 200 && r.data.conversation == c
      && r.data.messages == MessagesOf(db.messages, r.data.id)
      && (found.Some? ==> r.data.id == found.value && db.conversations == old(db.conversations))
      && (found.None? ==> r.data.id == newId && db.conversations == old(db.conversations)[newId := c])
  {
    if caller.None? {
      return Failure(401);
    }
    if Present(productId).None? {
      return Failure(400);
    }
    var product := productId.value;
    if product !in db.products {
      return Failure(404);
    }
    var c := Conversation(caller.value, db.products[product].sellerId, product);
    var id: Id;
    if exists k :: k in db.conversations && db.conversations[k] == c {
      id :| id in db.conversations && db.conversations[id] == c;
      assert ConversationFor(db.conversations, c) == Some(id);
    } else {
      id := newId;
      db.conversations := db.conversations[newId := c];
      assert forall m :: m in db.messages ==> db.messages[m].conversationId != newId;
    }
    r := Success(200, Thread(id, c, MessagesOf(db.messages, id)));
  }

  /**
   * Append a message to a conversation, sent by the caller. Whether the caller takes
   * part in the conversation is not checked.
   */
  method SendMessage(db: Db, caller: Option<Id>, conversationId: Option<Id>, content: Option<string>, newId: Id)
    returns (r: Reply<Message>)
    requires db.Valid() && newId !in db.messages
    modifies db`messages
    ensures db.Valid()
    ensures caller.None? ==> r == Failure(401) && db.messages == old(db.messages)
    ensures caller.Some? && (Present(conversationId).None? || Present(content).None?) ==>
      r == Failure(400) && db.messages == old(db.messages)
    ensures caller.Some? && Present(conversationId).Some? && Present(content).Some? ==>
      && (conversationId.value !in db.conversations ==> r == Failure(404) && db.messages == old(db.messages))
      && (conversationId.value in db.conversations ==>
            var m := Message(conversationId.value, caller.value, content.value);
            r == Success(201, m) && db.messages == old(db.messages)[newId := m])
  {
    if caller.None? {
      return Failure(401);
    }
    if Present(conversationId).None? || Present(content).None? {
      return Failure(400);
    }
    if conversationId.value !in db.conversations {
      return Failure(404);
    }
    var m := Message(conversationId.value, caller.value, content.value);
    db.messages := db.messages[newId := m];
    r := Success(201, m);
  }

  /** Starting the same conversation twice returns the same conversation and creates it at most once. */
  method StartTwice(db: Db, caller: Id, productId: Id, id1: Id, id2: Id) returns (first: Reply<Thread>, second: Reply<Thread>)
    requires db.Valid() && id1 !in db.conversations && id2 !in db.conversations && id1 != id2
    requires caller != "" && productId != "" && productId in db.products
    modifies db`conversations
    ensures first.Success? && second.Success? && first.data.id == second.data.id
    ensures first.data.conversation == second.data.conversation
    ensures |db.conversations.Keys - old(db.conversations).Keys| <= 1
  {
    first := StartOrGetConversation(db, Some(caller), Some(productId), id1);
    ghost var afterFirst := db.conversations;
    assert afterFirst.Keys - old(db.conversations).Keys <= {id1};
    assert first.data.id in afterFirst && afterFirst[first.data.id] == first.data.conversation;
    second := StartOrGetConversation(db, Some(caller), Some(productId), id2);
    assert db.conversations == afterFirst;
  }
}
