/**
  The bot object: the stored database, the registered callbacks, the command
  handlers `/add`, `/rm`, `/ls`, `/fetch`, the delivery step `_send` and the
  poll loop `_poller`.
*/
module Bot {
  import opened Wrappers
  import opened Text
  import opened Commands
  import opened Subscriptions
  import opened Store
  import opened Delivery
  import opened Polling

  class Chii<R> {
    /** The content of the database file, read and written whole. */
    var db: Db
    /** The callbacks registered through the decorators. */
    const hooks: Hooks<R>

    /** A bot over the stored database (empty when the file does not exist yet). */
    constructor (hooks: Hooks<R>, stored: Db)
      ensures this.hooks == hooks && db == stored
    {
      this.hooks := hooks;
      db := stored;
    }

    /** `start` refuses to run unless the three required callbacks are registered. */
    method Start() returns (ok: bool)
      ensures ok <==> Ready(hooks)
    {
      ok := hooks.parseQuery.Some? && hooks.craftMessage.Some? && hooks.getKey.Some?;
    }

    /**
      `/add`: an empty argument leaves the database alone; otherwise every
      parsed query the chat does not hold yet is appended, the chat's record
      being created as `[[], []]` if missing, and no other chat changes.
    */
    method AddQuery(u: Update)
      modifies this
      ensures var arg := MessageData(u).1;
              var rec := RecordOf(old(db), u.chatId);
              db == if arg == [] then old(db)
                    else old(db)[u.chatId := ChatRecord(AddQueries(rec.queries, ParseQueries(arg)), rec.seen)]
      ensures old(WellFormed(db)) ==> WellFormed(db)
    {
      var (chatId, queryText) := MessageData(u);
      if queryText == [] {
        return;
      }
      var rec := RecordOf(db, chatId);
      var items := ParseQueries(queryText);
      var queries := AppendNew(rec.queries, items);
      if WellFormed(db) {
        RecordOfOk(db, chatId);
        AddKeepsNoDup(rec.queries, items);
        forall q | q in queries ensures '\n' !in q {
          if q !in rec.queries {
            var k :| 0 <= k < |items| && items[k] == q;
          }
        }
        UpdateKeepsWellFormed(db, chatId, ChatRecord(queries, rec.seen));
      }
      db := db[chatId := ChatRecord(queries, rec.seen)];
    }

    /**
      The loop of `_add_query` over the parsed queries: each one the list does
      not hold yet is appended, so the old list stays a prefix and every
      query of either list is present afterwards.
    */
    static method AppendNew(queries: seq<string>, items: seq<string>) returns (r: seq<string>)
      ensures r == AddQueries(queries, items)
      ensures |queries| <= |r| && r[..|queries|] == queries
      ensures forall x :: x in r <==> x in queries || x in items
    {
      r := queries;
      for i := 0 to |items|
        invariant r == AddQueries(queries, items[..i])
      {
        assert items[..i + 1] == items[..i] + [items[i]];
        AddQueriesSnoc(queries, items[..i], items[i]);
        if items[i] !in r {
          r := r + [items[i]];
        }
      }
      assert items[..|items|] == items;
    }

    /**
      `/rm`: an empty argument leaves the database alone; otherwise every
      parsed query the chat holds is removed and the others are ignored, the
      chat's record being created as `[[], []]` if missing, and no other chat
      changes.
    */
    method RemoveQuery(u: Update)
      modifies this
      ensures var arg := MessageData(u).1;
              var rec := RecordOf(old(db), u.chatId);
              db == if arg == [] then old(db)
                    else old(db)[u.chatId := ChatRecord(RemoveQueries(rec.queries, ParseQueries(arg)), rec.seen)]
      ensures old(WellFormed(db)) ==> WellFormed(db)
    {
      var (chatId, queryText) := MessageData(u);
      if queryText == [] {
        return;
      }
      var rec := RecordOf(db, chatId);
      var items := ParseQueries(queryText);
      var queries := RemovePresent(rec.queries, items);
      if WellFormed(db) {
        RecordOfOk(db, chatId);
        RemoveKeepsNoDup(rec.queries, items);
        forall q | q in queries ensures q in rec.queries {
          assert multiset(queries)[q] > 0;
        }
        UpdateKeepsWellFormed(db, chatId, ChatRecord(queries, rec.seen));
      }
      db := db[chatId := ChatRecord(queries, rec.seen)];
    }

    /**
      The loop of `_remove_query` over the parsed queries: each one the list
      holds is removed with `list.remove`, the others are skipped; on a
      duplicate-free list this removes exactly the named queries and keeps
      the rest in order.
    */
    static method RemovePresent(queries: seq<string>, items: seq<string>) returns (r: seq<string>)
      ensures r == RemoveQueries(queries, items)
      ensures NoDup(queries) ==> r == Without(queries, items)
    {
      r := queries;
      for i := 0 to |items|
        invariant r == RemoveQueries(queries, items[..i])
      {
        assert items[..i + 1] == items[..i] + [items[i]];
        RemoveQueriesSnoc(queries, items[..i], items[i]);
        if items[i] in r {
          r := RemoveFirst(r, items[i]);
        }
      }
      assert items[..|items|] == items;
      if NoDup(queries) {
        RemoveIsWithout(queries, items);
      }
    }

    /**
      `/ls`: the chat's queries joined by newlines (empty for an unknown chat);
      on a well-formed database the reply splits back into exactly those queries.
    */
    method ListQuery(u: Update) returns (reply: string)
      ensures reply == Join(RecordOf(db, u.chatId).queries, '\n')
      ensures u.chatId !in db ==> reply == []
      ensures WellFormed(db) && RecordOf(db, u.chatId).queries != [] ==>
                Split(reply, '\n') == RecordOf(db, u.chatId).queries
    {
      var (chatId, _) := MessageData(u);
      var queries := RecordOf(db, chatId).queries;
      reply := Join(queries, '\n');
      if WellFormed(db) && queries != [] {
        SplitJoin(queries, '\n');
      }
    }

    /**
      `_send`: no message means no send and False; an image means a photo
      with the message as caption, otherwise a text message; the result is
      whether the transport call returned rather than raised.
    */
    method Send(chatId: string, result: R, transport: Transport) returns (ok: bool, sent: Option<Outgoing>)
      requires Ready(hooks)
      ensures hooks.craftMessage.value(result).None? ==> !ok && sent.None?
      ensures hooks.craftMessage.value(result).Some? ==>
                var m := hooks.craftMessage.value(result).value;
                sent == Some(if hooks.getImage(result).Some?
                             then PhotoMessage(chatId, m, hooks.getImage(result).value)
                             else TextMessage(chatId, m)) &&
                ok == transport(sent.value)
      ensures ok == Delivered(Activated(hooks), transport, chatId, result)
    {
      var message := hooks.craftMessage.value(result);
      if message.None? {
        return false, None;
      }
      var imageUrl := hooks.getImage(result);
      var out := if imageUrl.Some? then PhotoMessage(chatId, message.value, imageUrl.value)
                 else TextMessage(chatId, message.value);
      sent := Some(out);
      ok := transport(out);
    }

    /**
      The two inner loops of `_poller` for one chat: every result of every
      query, in order, is skipped when its key is missing or seen, and sent
      otherwise; a key is appended to `queried` only after a successful send.
    */
    method PollOneChat(chatId: string, rec: ChatRecord, transport: Transport)
      returns (queried: seq<string>, attempts: seq<Attempt<R>>)
      requires Ready(hooks)
      ensures Pass(queried, attempts) == PollChat(Activated(hooks), transport, chatId, rec)
    {
      ghost var cb := Activated(hooks);
      var queries := rec.queries;
      queried, attempts := rec.seen, [];
      for qi := 0 to |queries|
        invariant Pass(queried, attempts) == RunQueries(cb, transport, chatId, Pass(rec.seen, []), queries[..qi])
      {
        assert queries[..qi + 1][..qi] == queries[..qi];
        var results := hooks.parseQuery.value(queries[qi]);
        ghost var start := Pass(queried, attempts);
        for ri := 0 to |results|
          invariant Pass(queried, attempts) == VisitAll(cb, transport, chatId, start, results[..ri])
        {
          assert results[..ri + 1][..ri] == results[..ri];
          var result := results[ri];
          var key := hooks.getKey.value(result);
          if key.None? || key.value in queried {
            continue;
          }
          var ok, _ := Send(chatId, result, transport);
          attempts := attempts + [Attempt(chatId, result, key.value, ok)];
          if ok {
            queried := queried + [key.value];
          }
        }
        assert results[..|results|] == results;
      }
      assert queries[..|queries|] == queries;
    }

    /**
      `_poller`: every chat of the database read at the start (only the target
      chat when one is given) is polled, and its new `seen` list is written
      into the database, leaving its queries and every other chat as they are.
      The attempts of each chat are exactly those its pass specifies.
    */
    method Poller(target: Option<string>, transport: Transport) returns (attempts: seq<Attempt<R>>)
      requires Ready(hooks)
      modifies this
      ensures db == Poll(Activated(hooks), transport, old(db), target)
      ensures forall c :: ForChat(attempts, c) ==
                (if c in old(db) && Selected(c, target)
                 then PollChat(Activated(hooks), transport, c, old(db)[c]).log else [])
      ensures db.Keys == old(db).Keys
      ensures forall c :: c in db && !Selected(c, target) ==> db[c] == old(db)[c]
      ensures forall c :: c in db ==> db[c].queries == old(db)[c].queries &&
                                      |old(db)[c].seen| <= |db[c].seen| &&
                                      db[c].seen[..|old(db)[c].seen|] == old(db)[c].seen
      ensures old(WellFormed(db)) ==> WellFormed(db)
    {
      var snapshot := db;
      ghost var cb := Activated(hooks);
      var pending := snapshot.Keys;
      attempts := [];
      ProgressStart(cb, transport, target, snapshot);
      while pending != {}
        invariant Progress(cb, transport, target, snapshot, pending, db, attempts)
        decreases pending
      {
        var chatId :| chatId in pending;
        if target.Some? && chatId != target.value {
          ProgressSkip(cb, transport, target, snapshot, pending, db, attempts, chatId);
          pending := pending - {chatId};
          continue;
        }
        var queried, chatAttempts := PollOneChat(chatId, snapshot[chatId], transport);
        ProgressStep(cb, transport, target, snapshot, pending, db, attempts, chatId);
        db := db[chatId := ChatRecord(db[chatId].queries, queried)];
        attempts := attempts + chatAttempts;
        pending := pending - {chatId};
      }
      ProgressDone(cb, transport, target, snapshot, db, attempts);
      PollFrame(cb, transport, snapshot, target);
    }

    /** `/fetch`: a poll restricted to the invoking chat. */
    method FetchQuery(u: Update, transport: Transport) returns (attempts: seq<Attempt<R>>)
      requires Ready(hooks)
      modifies this
      ensures db == Poll(Activated(hooks), transport, old(db), Some(u.chatId))
      ensures forall c :: c != u.chatId ==> ForChat(attempts, c) == []
      ensures ForChat(attempts, u.chatId) ==
                if u.chatId in old(db) then PollChat(Activated(hooks), transport, u.chatId, old(db)[u.chatId]).log else []
    {
      var (chatId, _) := MessageData(u);
      attempts := Poller(Some(chatId), transport);
    }
  }

  /**
    The first `/add` of a chat followed by `/ls` echoes the stripped argument
    back, whenever the argument's lines are distinct.
  */
  lemma ListAfterFirstAdd(arg: string)
    requires NoDup(ParseQueries(arg))
    ensures Join(AddQueries([], ParseQueries(arg)), '\n') == Strip(arg)
  {
    var items := ParseQueries(arg);
    AddIsDistinct([], items);
    assert [] + items == items;
    DistinctOfNoDup(items);
  }
}
