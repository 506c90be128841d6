/**
 * The Room DAOs of Daos.kt, each a table held as its rows in rowid order. A query
 * that returns a `Flow` is modelled by the list it emits for the current contents;
 * `ORDER BY` is a stable sort of the rows in rowid order (ties keep insertion order).
 */
module Daos {
  import opened Nullable
  import opened Seqs
  import opened Tables
  import opened Entities

  /** The rows of conversation `conversationId`, in rowid order. */
  function OfConversation(rows: seq<MessageEntity>, conversationId: string): (r: seq<MessageEntity>)
    ensures forall x :: x in r <==> x in rows && x.conversationId == conversationId
    ensures |r| <= |rows|
  {
    if rows == [] then []
    else (if rows[0].conversationId == conversationId then [rows[0]] else []) + OfConversation(rows[1..], conversationId)
  }

  /** The rows of every other conversation, in rowid order. */
  function OutsideConversation(rows: seq<MessageEntity>, conversationId: string): (r: seq<MessageEntity>)
    ensures forall x :: x in r <==> x in rows && x.conversationId != conversationId
    ensures Keys(r, MessageId) <= Keys(rows, MessageId)
    ensures UniqueKeys(rows, MessageId) ==> UniqueKeys(r, MessageId)
  {
    if rows == [] then []
    else
      var rest := OutsideConversation(rows[1..], conversationId);
      KeysCons(rows, MessageId);
      assert UniqueKeys(rows, MessageId) ==> UniqueKeys(rows[1..], MessageId) by {
        if UniqueKeys(rows, MessageId) {
          forall i, j | 0 <= i < j < |rows[1..]| ensures rows[1..][i].id != rows[1..][j].id {
            assert rows[1..][i] == rows[i + 1] && rows[1..][j] == rows[j + 1];
          }
        }
      }
      if rows[0].conversationId != conversationId then
        var r := [rows[0]] + rest;
        assert r[1..] == rest;
        KeysCons(r, MessageId);
        r
      else rest
  }

  /** Deleting a conversation leaves every other conversation exactly as it was. */
  lemma {:induction false} DeleteKeepsOtherConversations(rows: seq<MessageEntity>, deleted: string, other: string)
    requires deleted != other
    ensures OfConversation(OutsideConversation(rows, deleted), other) == OfConversation(rows, other)
  {
    if rows != [] {
      DeleteKeepsOtherConversations(rows[1..], deleted, other);
      if rows[0].conversationId != deleted {
        var rest := OutsideConversation(rows[1..], deleted);
        assert ([rows[0]] + rest)[1..] == rest;
      }
    }
  }

  lemma {:induction false} OfConversationAppend(rows: seq<MessageEntity>, x: MessageEntity, conversationId: string)
    ensures OfConversation(rows + [x], conversationId)
         == OfConversation(rows, conversationId) + (if x.conversationId == conversationId then [x] else [])
  {
    if rows != [] {
      assert (rows + [x])[1..] == rows[1..] + [x];
      OfConversationAppend(rows[1..], x, conversationId);
    }
  }

  lemma {:induction false} OfConversationWithout(rows: seq<MessageEntity>, id: string, conversationId: string)
    requires forall x :: x in rows && x.conversationId == conversationId ==> x.id != id
    ensures OfConversation(Without(rows, MessageId, id), conversationId) == OfConversation(rows, conversationId)
  {
    if rows != [] {
      OfConversationWithout(rows[1..], id, conversationId);
      if rows[0].id != id {
        var rest := Without(rows[1..], MessageId, id);
        assert ([rows[0]] + rest)[1..] == rest;
      }
    }
  }

  /**
   * Inserting a row into one conversation leaves another conversation's messages as
   * they were, provided the row's id is not one of that conversation's ids (otherwise
   * the replace moves the message across).
   */
  lemma UpsertKeepsOtherConversations(rows: seq<MessageEntity>, e: MessageEntity, other: string)
    requires e.conversationId != other
    requires forall x :: x in rows && x.conversationId == other ==> x.id != e.id
    ensures ConversationMessages(Upsert(rows, MessageId, e), other) == ConversationMessages(rows, other)
  {
    var kept := Without(rows, MessageId, e.id);
    assert Upsert(rows, MessageId, e) == kept + [e];
    OfConversationWithout(rows, e.id, other);
    OfConversationAppend(kept, e, other);
    assert OfConversation(kept + [e], other) == OfConversation(rows, other);
  }

  /** A deleted conversation has no messages left. */
  lemma DeleteEmptiesConversation(rows: seq<MessageEntity>, conversationId: string)
    ensures OfConversation(OutsideConversation(rows, conversationId), conversationId) == []
  {
  }

  /** The result of `SELECT * FROM messages WHERE conversationId = ? ORDER BY timestamp ASC`. */
  function ConversationMessages(rows: seq<MessageEntity>, conversationId: string): (r: seq<MessageEntity>)
    ensures SortedBy(r, MessageOldestFirst)
    ensures |r| == |OfConversation(rows, conversationId)|
    ensures multiset(r) == multiset(OfConversation(rows, conversationId))
    ensures forall x :: x in r <==> x in rows && x.conversationId == conversationId
  {
    var r := SortBy(OfConversation(rows, conversationId), MessageOldestFirst);
    assert forall x :: x in r <==> x in multiset(OfConversation(rows, conversationId));
    r
  }

  /** The message table. */
  class MessageDao {
    var rows: seq<MessageEntity>

    ghost predicate Valid()
      reads this
    {
      UniqueKeys(rows, MessageId)
    }

    constructor ()
      ensures rows == [] && Valid()
    {
      rows := [];
    }

    /** `getMessages(conversationId)`: the conversation's messages, oldest first. */
    function GetMessages(conversationId: string): (r: seq<MessageEntity>)
      reads this
      ensures r == ConversationMessages(rows, conversationId)
    {
      ConversationMessages(rows, conversationId)
    }

    /** `insert(message)`, replacing the row with the same id. */
    method Insert(message: MessageEntity)
      requires Valid()
      modifies this
      ensures Valid()
      ensures rows == Upsert(old(rows), MessageId, message)
    {
      rows := Upsert(rows, MessageId, message);
    }

    /** `deleteConversation(conversationId)`. */
    method DeleteConversation(conversationId: string)
      requires Valid()
      modifies this
      ensures Valid()
      ensures rows == OutsideConversation(old(rows), conversationId)
    {
      rows := OutsideConversation(rows, conversationId);
    }

    /** `getTotalCount()`: the number of stored messages, one per distinct id. */
    function GetTotalCount(): (r: nat)
      reads this
      ensures Valid() ==> r == |Keys(rows, MessageId)|
    {
      UniqueKeysCount(rows, MessageId);
      |rows|
    }
  }

  /** The correction table. */
  class CorrectionDao {
    var rows: seq<CorrectionEntity>

    ghost predicate Valid()
      reads this
    {
      UniqueKeys(rows, CorrectionId)
    }

    constructor ()
      ensures rows == [] && Valid()
    {
      rows := [];
    }

    /** `getAllCorrections()`: every correction, newest first. */
    function GetAllCorrections(): (r: seq<CorrectionEntity>)
      reads this
      ensures SortedBy(r, CorrectionNewestFirst)
      ensures multiset(r) == multiset(rows)
    {
      SortBy(rows, CorrectionNewestFirst)
    }

    /**
     * `getRecentCorrections(limit)`: the `limit` newest corrections; SQLite reads a
     * negative `LIMIT` as no limit at all.
     */
    function GetRecentCorrections(limit: int): (r: seq<CorrectionEntity>)
      reads this
      ensures |r| == if limit < 0 || |rows| <= limit then |rows| else limit
      ensures r == GetAllCorrections()[..|r|]
    {
      if limit < 0 then GetAllCorrections() else Take(GetAllCorrections(), limit)
    }

    /** `insert(correction)`, replacing the row with the same id. */
    method Insert(correction: CorrectionEntity)
      requires Valid()
      modifies this
      ensures Valid()
      ensures rows == Upsert(old(rows), CorrectionId, correction)
    {
      rows := Upsert(rows, CorrectionId, correction);
    }

    /** `getTotalCount()`. */
    function GetTotalCount(): (r: nat)
      reads this
      ensures Valid() ==> r == |Keys(rows, CorrectionId)|
    {
      UniqueKeysCount(rows, CorrectionId);
      |rows|
    }
  }

  /** The rows of category `category`, in rowid order. */
  function OfCategory(rows: seq<PreferenceEntity>, category: string): (r: seq<PreferenceEntity>)
    ensures forall x :: x in r <==> x in rows && x.category == category
    ensures |r| <= |rows|
  {
    if rows == [] then []
    else (if rows[0].category == category then [rows[0]] else []) + OfCategory(rows[1..], category)
  }

  /** The preference table. */
  class PreferenceDao {
    var rows: seq<PreferenceEntity>

    ghost predicate Valid()
      reads this
    {
      UniqueKeys(rows, PreferenceId)
    }

    constructor ()
      ensures rows == [] && Valid()
    {
      rows := [];
    }

    /** `getAllPreferences()`: every preference, most confident first. */
    function GetAllPreferences(): (r: seq<PreferenceEntity>)
      reads this
      ensures SortedBy(r, PreferenceMostConfidentFirst)
      ensures multiset(r) == multiset(rows)
    {
      SortBy(rows, PreferenceMostConfidentFirst)
    }

    /** `getByCategory(category)`: the preferences stored under that category name. */
    function GetByCategory(category: string): (r: seq<PreferenceEntity>)
      reads this
      ensures forall x :: x in r <==> x in rows && x.category == category
    {
      OfCategory(rows, category)
    }

    /** `insert(preference)`, replacing the row with the same id. */
    method Insert(preference: PreferenceEntity)
      requires Valid()
      modifies this
      ensures Valid()
      ensures rows == Upsert(old(rows), PreferenceId, preference)
    {
      rows := Upsert(rows, PreferenceId, preference);
    }

    /** `getTotalCount()`. */
    function GetTotalCount(): (r: nat)
      reads this
      ensures Valid() ==> r == |Keys(rows, PreferenceId)|
    {
      UniqueKeysCount(rows, PreferenceId);
      |rows|
    }
  }

  function TotalMessagesOf(m: MetricsEntity): int { m.totalMessages }

  function CorrectionsOf(m: MetricsEntity): int { m.corrections }

  /** The sum of one column over the rows. */
  function SumOf(rows: seq<MetricsEntity>, column: MetricsEntity -> int): int {
    if rows == [] then 0 else column(rows[0]) + SumOf(rows[1..], column)
  }

  /** Appending a row adds its value to the column's sum. */
  lemma {:induction false} SumOfAppend(rows: seq<MetricsEntity>, column: MetricsEntity -> int, m: MetricsEntity)
    ensures SumOf(rows + [m], column) == SumOf(rows, column) + column(m)
  {
    if rows != [] {
      assert (rows + [m])[1..] == rows[1..] + [m];
      SumOfAppend(rows[1..], column, m);
    }
  }

  /** SQL `SUM`: `NULL` over an empty table. */
  function SqlSum(rows: seq<MetricsEntity>, column: MetricsEntity -> int): (r: Option<int>)
    ensures r.None? <==> rows == []
    ensures r.Some? ==> r.value == SumOf(rows, column)
  {
    if rows == [] then None else Some(SumOf(rows, column))
  }

  /** The daily metrics table, keyed by date. */
  class MetricsDao {
    var rows: seq<MetricsEntity>

    ghost predicate Valid()
      reads this
    {
      UniqueKeys(rows, MetricsDate)
    }

    constructor ()
      ensures rows == [] && Valid()
    {
      rows := [];
    }

    /** `getByDate(date)`: the row of that day, or `null`. */
    function GetByDate(date: string): (r: Option<MetricsEntity>)
      reads this
      ensures r.Some? <==> date in Keys(rows, MetricsDate)
      ensures r.Some? ==> r.value in rows && r.value.date == date
    {
      Lookup(rows, MetricsDate, date)
    }

    /** `insert(metrics)`, replacing the row of the same date. */
    method Insert(metrics: MetricsEntity)
      requires Valid()
      modifies this
      ensures Valid()
      ensures rows == Upsert(old(rows), MetricsDate, metrics)
    {
      rows := Upsert(rows, MetricsDate, metrics);
    }

    /** `getTotalMessages()`: `SUM(totalMessages)`, `null` while the table is empty. */
    function GetTotalMessages(): (r: Option<int>)
      reads this
      ensures r.None? <==> rows == []
      ensures r.Some? ==> r.value == SumOf(rows, TotalMessagesOf)
    {
      SqlSum(rows, TotalMessagesOf)
    }

    /** `getTotalCorrections()`: `SUM(corrections)`, `null` while the table is empty. */
    function GetTotalCorrections(): (r: Option<int>)
      reads this
      ensures r.None? <==> rows == []
      ensures r.Some? ==> r.value == SumOf(rows, CorrectionsOf)
    {
      SqlSum(rows, CorrectionsOf)
    }
  }

  /** Recording a new day adds that day's count to the message total. */
  lemma NewDayAddsToTotal(rows: seq<MetricsEntity>, day: MetricsEntity)
    requires day.date !in Keys(rows, MetricsDate)
    ensures SqlSum(Upsert(rows, MetricsDate, day), TotalMessagesOf) == Some(SqlSum(rows, TotalMessagesOf).GetOr(0) + day.totalMessages)
  {
    TotalAfterAppend(rows, day, Upsert(rows, MetricsDate, day));
  }

  /** The message total of a table with one more row. */
  lemma TotalAfterAppend(rows: seq<MetricsEntity>, day: MetricsEntity, after: seq<MetricsEntity>)
    requires after == rows + [day]
    ensures SqlSum(after, TotalMessagesOf) == Some(SqlSum(rows, TotalMessagesOf).GetOr(0) + day.totalMessages)
  {
    SumOfAppend(rows, TotalMessagesOf, day);
  }
}
