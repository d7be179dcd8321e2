/**
  The bot's database: a map from chat id to that chat's record, a pair of
  the subscribed queries and the result keys already delivered (`seen`).
*/
module Store {
  import opened Subscriptions

  datatype ChatRecord = ChatRecord(queries: seq<string>, seen: seq<string>)

  type Db = map<string, ChatRecord>

  /** `USER_DB_TEMPLATE()`: a chat without a record is treated as having `[[], []]`. */
  const EmptyRecord := ChatRecord([], [])

  /** `db.get(chat_id, USER_DB_TEMPLATE())`. */
  function RecordOf(db: Db, chatId: string): (rec: ChatRecord)
    ensures chatId in db ==> rec == db[chatId]
    ensures chatId !in db ==> rec.queries == [] && rec.seen == []
  {
    if chatId in db then db[chatId] else EmptyRecord
  }

  /**
    Every chat's queries and seen keys are duplicate-free, and no query holds
    a newline (queries are lines of a command argument).
  */
  ghost predicate WellFormed(db: Db) {
    forall c :: c in db ==> RecordOk(db[c])
  }

  ghost predicate RecordOk(rec: ChatRecord) {
    NoDup(rec.queries) && NoDup(rec.seen) && forall q :: q in rec.queries ==> '\n' !in q
  }

  /** A well-formed database stays so when one chat gets a well-formed record. */
  lemma UpdateKeepsWellFormed(db: Db, chatId: string, rec: ChatRecord)
    requires WellFormed(db) && RecordOk(rec)
    ensures WellFormed(db[chatId := rec])
  {
  }

  lemma RecordOfOk(db: Db, chatId: string)
    requires WellFormed(db)
    ensures RecordOk(RecordOf(db, chatId))
  {
  }
}
