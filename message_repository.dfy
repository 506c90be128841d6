/**
 * `MessageRepositoryImpl` (MessageRepository.kt): chat messages stored in the
 * message table under a conversation id, the role kept by its enum name.
 */
module MessageRepositories {
  import opened Nullable
  import opened Seqs
  import opened Tables
  import opened Domain
  import opened Entities
  import opened Daos

  /** `ChatMessage.toEntity(conversationId)`. */
  function ToEntity(m: ChatMessage, conversationId: string): MessageEntity {
    MessageEntity(m.id, conversationId, RoleName(m.role), m.content, m.timestamp)
  }

  /**
   * `MessageEntity.toDomain()`; `None` stands for the exception `MessageRole.valueOf`
   * throws on a role column that names no role.
   */
  function ToDomain(e: MessageEntity): (r: Option<ChatMessage>)
    ensures r.Some? <==> exists role :: RoleName(role) == e.role
    ensures r.Some? ==> ToEntity(r.value, e.conversationId) == e
  {
    match RoleValueOf(e.role)
    case None => None
    case Some(role) => Some(ChatMessage(e.id, role, e.content, e.timestamp))
  }

  /** Every message survives the trip to the table and back unchanged. */
  lemma MessageRoundTrip(m: ChatMessage, conversationId: string)
    ensures ToDomain(ToEntity(m, conversationId)) == Some(m)
  {
  }

  /** `entities.map { it.toDomain() }`: fails as soon as one row fails to convert. */
  function MapToDomain(es: seq<MessageEntity>): (r: Option<seq<ChatMessage>>)
    ensures r.Some? <==> forall i :: 0 <= i < |es| ==> ToDomain(es[i]).Some?
    ensures r.Some? ==> |r.value| == |es| && forall i :: 0 <= i < |es| ==> ToDomain(es[i]) == Some(r.value[i])
  {
    MapAll(es, ToDomain)
  }

  /** Every row of a converted list is in the result. */
  lemma MapToDomainMembers(es: seq<MessageEntity>, ms: seq<ChatMessage>)
    requires MapToDomain(es) == Some(ms)
    ensures forall e :: e in es ==> ToDomain(e).Some? && ToDomain(e).value in ms
  {
    forall e | e in es ensures ToDomain(e).value in ms {
      var i :| 0 <= i < |es| && es[i] == e;
      assert ToDomain(es[i]) == Some(ms[i]);
    }
  }

  /** Conversion keeps the order of a list sorted by timestamp. */
  lemma MapToDomainSorted(es: seq<MessageEntity>, ms: seq<ChatMessage>)
    requires MapToDomain(es) == Some(ms)
    requires SortedBy(es, MessageOldestFirst)
    ensures forall i, j :: 0 <= i < j < |ms| ==> ms[i].timestamp <= ms[j].timestamp
  {
    forall i, j | 0 <= i < j < |ms| ensures ms[i].timestamp <= ms[j].timestamp {
      assert ToDomain(es[i]) == Some(ms[i]) && ToDomain(es[j]) == Some(ms[j]);
      assert MessageOldestFirst(es[i]) <= MessageOldestFirst(es[j]);
    }
  }

  /** Every stored role column names a role, as it does for rows this repository wrote. */
  ghost predicate Readable(rows: seq<MessageEntity>) {
    forall e :: e in rows ==> RoleValueOf(e.role).Some?
  }

  /** What `getMessages(conversationId)` emits for the table `rows`. */
  function MessagesOf(rows: seq<MessageEntity>, conversationId: string): (r: Option<seq<ChatMessage>>)
    ensures Readable(rows) ==> r.Some?
    ensures r.Some? ==> forall i, j :: 0 <= i < j < |r.value| ==> r.value[i].timestamp <= r.value[j].timestamp
    ensures r.Some? ==> forall e :: e in rows && e.conversationId == conversationId ==> ToDomain(e).Some? && ToDomain(e).value in r.value
    ensures r.Some? ==> |r.value| == |OfConversation(rows, conversationId)|
  {
    var es := ConversationMessages(rows, conversationId);
    var r := MapToDomain(es);
    assert Readable(rows) ==> r.Some? by {
      if Readable(rows) {
        forall i | 0 <= i < |es| ensures ToDomain(es[i]).Some? {
          assert es[i] in rows;
          assert RoleValueOf(es[i].role).Some?;
        }
      }
    }
    if r.Some? then
      MapToDomainMembers(es, r.value);
      MapToDomainSorted(es, r.value);
      r
    else r
  }

  /**
   * After `saveMessage(c, m)` the conversation `c` shows `m`, as long as the table was
   * readable before (the save itself writes a readable row).
   */
  lemma SavedMessageIsListed(rows: seq<MessageEntity>, conversationId: string, m: ChatMessage)
    requires Readable(rows)
    ensures Readable(Upsert(rows, MessageId, ToEntity(m, conversationId)))
    ensures MessagesOf(Upsert(rows, MessageId, ToEntity(m, conversationId)), conversationId).Some?
    ensures m in MessagesOf(Upsert(rows, MessageId, ToEntity(m, conversationId)), conversationId).value
  {
    var e := ToEntity(m, conversationId);
    var after := Upsert(rows, MessageId, e);
    assert e in after;
    MessageRoundTrip(m, conversationId);
  }

  /**
   * Saving into conversation `c` leaves what another conversation lists unchanged,
   * unless the saved id was one of that conversation's messages.
   */
  lemma SaveKeepsOtherConversations(rows: seq<MessageEntity>, conversationId: string, m: ChatMessage, other: string)
    requires other != conversationId
    requires forall x :: x in rows && x.conversationId == other ==> x.id != m.id
    ensures MessagesOf(Upsert(rows, MessageId, ToEntity(m, conversationId)), other) == MessagesOf(rows, other)
  {
    UpsertKeepsOtherConversations(rows, ToEntity(m, conversationId), other);
  }

  /** Saving a message with a new id adds one to the total count; saving an existing id adds none. */
  lemma SaveCount(rows: seq<MessageEntity>, conversationId: string, m: ChatMessage)
    requires UniqueKeys(rows, MessageId)
    ensures |Upsert(rows, MessageId, ToEntity(m, conversationId))| == |rows| + (if m.id in Keys(rows, MessageId) then 0 else 1)
  {
  }

  class MessageRepository {
    const messageDao: MessageDao

    ghost predicate Valid()
      reads this, messageDao
    {
      messageDao.Valid() && Readable(messageDao.rows)
    }

    constructor (messageDao: MessageDao)
      ensures this.messageDao == messageDao
    {
      this.messageDao := messageDao;
    }

    /** `getMessages(conversationId)`: the messages of one conversation, oldest first. */
    function GetMessages(conversationId: string): (r: Option<seq<ChatMessage>>)
      reads this, messageDao
      ensures r == MessagesOf(messageDao.rows, conversationId)
      ensures Valid() ==> r.Some?
    {
      MessagesOf(messageDao.rows, conversationId)
    }

    /** `saveMessage(conversationId, message)`: one insert-or-replace of the converted row. */
    method SaveMessage(conversationId: string, message: ChatMessage)
      requires Valid()
      modifies messageDao
      ensures Valid()
      ensures messageDao.rows == Upsert(old(messageDao.rows), MessageId, ToEntity(message, conversationId))
    {
      SavedMessageIsListed(messageDao.rows, conversationId, message);
      messageDao.Insert(ToEntity(message, conversationId));
    }

    /** `getTotalCount()`: the number of stored messages. */
    function GetTotalCount(): (r: nat)
      reads this, messageDao
      ensures Valid() ==> r == |Keys(messageDao.rows, MessageId)|
    {
      messageDao.GetTotalCount()
    }
  }
}
