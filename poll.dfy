/**
  The poll pass of `_poller` as a specification: for each chat, each of its
  queries in order, each result of the query in order, a result whose key is
  missing or already seen is skipped, any other is sent, and its key is
  recorded as seen only when the send succeeded. The pass also yields the
  log of the `_send` calls it made, which is what the chats observe.
*/
module Polling {
  import opened Wrappers
  import opened Subscriptions
  import opened Store
  import opened Delivery

  /** One call of `_send` during a poll: for which chat, result and key, and what it returned. */
  datatype Attempt<R> = Attempt(chatId: string, result: R, key: string, ok: bool)

  /** The working state of one chat's pass: the `seen` list and the sends made so far. */
  datatype Pass<R> = Pass(seen: seq<string>, log: seq<Attempt<R>>)

  /** The keys of the successful sends of a log, in order. */
  function OkKeys<R>(log: seq<Attempt<R>>): seq<string>
    decreases |log|
  {
    if log == [] then []
    else OkKeys(log[..|log| - 1]) + (if log[|log| - 1].ok then [log[|log| - 1].key] else [])
  }

  /** The body of the innermost loop of `_poller`, for one result. */
  function Visit<R>(cb: Callbacks<R>, t: Transport, chatId: string, p: Pass<R>, r: R): Pass<R> {
    match cb.getKey(r)
    case None => p
    case Some(k) =>
      if k in p.seen then p
      else
        var ok := Delivered(cb, t, chatId, r);
        Pass(if ok then p.seen + [k] else p.seen, p.log + [Attempt(chatId, r, k, ok)])
  }

  /** The innermost loop: the results of one query, in the order the callback gave them. */
  function VisitAll<R>(cb: Callbacks<R>, t: Transport, chatId: string, p: Pass<R>, rs: seq<R>): Pass<R>
    decreases |rs|
  {
    if rs == [] then p
    else Visit(cb, t, chatId, VisitAll(cb, t, chatId, p, rs[..|rs| - 1]), rs[|rs| - 1])
  }

  /** The middle loop: the chat's queries in stored order. */
  function RunQueries<R>(cb: Callbacks<R>, t: Transport, chatId: string, p: Pass<R>, qs: seq<string>): Pass<R>
    decreases |qs|
  {
    if qs == [] then p
    else VisitAll(cb, t, chatId, RunQueries(cb, t, chatId, p, qs[..|qs| - 1]), cb.parseQuery(qs[|qs| - 1]))
  }

  /** One chat's whole pass, starting from its stored `seen` list. */
  function PollChat<R>(cb: Callbacks<R>, t: Transport, chatId: string, rec: ChatRecord): Pass<R> {
    RunQueries(cb, t, chatId, Pass(rec.seen, []), rec.queries)
  }

  /** With a target chat only that chat is polled; without one every chat is. */
  predicate Selected(chatId: string, target: Option<string>) {
    target.None? || target.value == chatId
  }

  /** The database after a poll: each polled chat's `seen` replaced, nothing else touched. */
  function Poll<R>(cb: Callbacks<R>, t: Transport, db: Db, target: Option<string>): Db {
    map c | c in db :: if Selected(c, target) then ChatRecord(db[c].queries, PollChat(cb, t, c, db[c]).seen) else db[c]
  }

  /** The attempts of a log made for chat `c`, in order. */
  function ForChat<R>(log: seq<Attempt<R>>, c: string): seq<Attempt<R>>
    decreases |log|
  {
    if log == [] then []
    else ForChat(log[..|log| - 1], c) + (if log[|log| - 1].chatId == c then [log[|log| - 1]] else [])
  }

  /** Some attempt of the log is for key `k`. */
  ghost predicate Sent<R>(log: seq<Attempt<R>>, k: string) {
    exists i :: 0 <= i < |log| && log[i].key == k
  }

  /**
    An attempt that a pass starting from `seen` may make: for this chat, with
    the result's own key, a key not seen at the start, and the outcome `_send`
    gives for the result.
  */
  ghost predicate Fresh<R>(cb: Callbacks<R>, t: Transport, chatId: string, seen: seq<string>, a: Attempt<R>) {
    a.chatId == chatId && cb.getKey(a.result) == Some(a.key) && a.key !in seen &&
    a.ok == Delivered(cb, t, chatId, a.result)
  }

  /**
    Pass `q` continues pass `p`: the log only grows, each new attempt is
    Fresh, the successful new keys are distinct, and `seen` grows by exactly
    those keys, in order.
  */
  ghost predicate Extends<R>(cb: Callbacks<R>, t: Transport, chatId: string, p: Pass<R>, q: Pass<R>) {
    |p.log| <= |q.log| && q.log[..|p.log|] == p.log &&
    q.seen == p.seen + OkKeys(q.log[|p.log|..]) &&
    NoDup(OkKeys(q.log[|p.log|..])) &&
    forall i :: |p.log| <= i < |q.log| ==> Fresh(cb, t, chatId, p.seen, q.log[i])
  }

  /**
    Each new attempt of `q` is for a key that was not in `seen` when it was
    made: neither seen at the start of `p` nor recorded by an earlier
    successful attempt of the stretch.
  */
  ghost predicate SkipsRecorded<R>(p: Pass<R>, q: Pass<R>) {
    |p.log| <= |q.log| &&
    forall j :: |p.log| <= j < |q.log| ==> q.log[j].key !in p.seen + OkKeys(q.log[|p.log|..j])
  }

  lemma {:induction false} OkKeysAppend<R>(a: seq<Attempt<R>>, b: seq<Attempt<R>>)
    ensures OkKeys(a + b) == OkKeys(a) + OkKeys(b)
    decreases |b|
  {
    if b != [] {
      OkKeysAppend(a, b[..|b| - 1]);
      assert (a + b)[..|a + b| - 1] == a + b[..|b| - 1];
    } else {
      assert a + b == a;
    }
  }

  /** A key is among the successful keys exactly when some successful attempt carries it. */
  lemma {:induction false} OkKeysMembers<R>(log: seq<Attempt<R>>, k: string)
    ensures k in OkKeys(log) <==> exists i :: 0 <= i < |log| && log[i].ok && log[i].key == k
    decreases |log|
  {
    if log != [] {
      var init := log[..|log| - 1];
      OkKeysMembers(init, k);
      if k in OkKeys(init) {
        var i :| 0 <= i < |init| && init[i].ok && init[i].key == k;
        assert log[i] == init[i];
      }
      if exists i :: 0 <= i < |log| && log[i].ok && log[i].key == k {
        var i :| 0 <= i < |log| && log[i].ok && log[i].key == k;
        if i < |init| { assert init[i] == log[i]; }
      }
    }
  }

  lemma ConcatNoDup(a: seq<string>, b: seq<string>)
    requires NoDup(a) && NoDup(b)
    requires forall i :: 0 <= i < |b| ==> b[i] !in a
    ensures NoDup(a + b)
  {
    forall i, j | 0 <= i < j < |a + b| ensures (a + b)[i] != (a + b)[j] {
      if i < |a| && j >= |a| {
        assert (a + b)[j] == b[j - |a|];
      }
    }
  }

  lemma {:induction false} VisitExtends<R>(cb: Callbacks<R>, t: Transport, chatId: string, p: Pass<R>, r: R)
    ensures Extends(cb, t, chatId, p, Visit(cb, t, chatId, p, r))
    ensures |Visit(cb, t, chatId, p, r).log| <= |p.log| + 1
  {
    var q := Visit(cb, t, chatId, p, r);
    match cb.getKey(r)
    case None =>
      assert q.log[|p.log|..] == [];
    case Some(k) =>
      if k in p.seen {
        assert q.log[|p.log|..] == [];
      } else {
        var a := Attempt(chatId, r, k, Delivered(cb, t, chatId, r));
        assert q.log[|p.log|..] == [a];
        assert [a][..0] == [];
        assert q.log[|p.log|] == a;
      }
  }

  lemma {:induction false} ExtendsTrans<R>(cb: Callbacks<R>, t: Transport, chatId: string, p: Pass<R>, q: Pass<R>, s: Pass<R>)
    requires Extends(cb, t, chatId, p, q) && Extends(cb, t, chatId, q, s)
    ensures Extends(cb, t, chatId, p, s)
  {
    TransLog(cb, t, chatId, p, q, s);
    forall k | k in OkKeys(s.log[|q.log|..]) ensures k !in q.seen {
      LaterKeysUnseen(cb, t, chatId, q, s, k);
    }
    TransKeys(p, q, s);
    TransFresh(cb, t, chatId, p, q, s);
  }

  lemma TransLog<R>(cb: Callbacks<R>, t: Transport, chatId: string, p: Pass<R>, q: Pass<R>, s: Pass<R>)
    requires Extends(cb, t, chatId, p, q) && Extends(cb, t, chatId, q, s)
    ensures |p.log| <= |s.log| && s.log[..|p.log|] == p.log
    ensures s.log[|p.log|..] == q.log[|p.log|..] + s.log[|q.log|..]
  {
    assert s.log[..|q.log|][..|p.log|] == s.log[..|p.log|];
  }

  lemma TransKeys<R>(p: Pass<R>, q: Pass<R>, s: Pass<R>)
    requires |p.log| <= |q.log| <= |s.log|
    requires s.log[|p.log|..] == q.log[|p.log|..] + s.log[|q.log|..]
    requires q.seen == p.seen + OkKeys(q.log[|p.log|..])
    requires s.seen == q.seen + OkKeys(s.log[|q.log|..])
    requires NoDup(OkKeys(q.log[|p.log|..])) && NoDup(OkKeys(s.log[|q.log|..]))
    requires forall k :: k in OkKeys(s.log[|q.log|..]) ==> k !in q.seen
    ensures s.seen == p.seen + OkKeys(s.log[|p.log|..])
    ensures NoDup(OkKeys(s.log[|p.log|..]))
  {
    var x := q.log[|p.log|..];
    var y := s.log[|q.log|..];
    OkKeysAppend(x, y);
    TransSeen(p.seen, q.seen, s.seen, OkKeys(x), OkKeys(y));
    JoinedKeysNoDup(p.seen, OkKeys(x), OkKeys(y));
  }

  lemma TransSeen(p: seq<string>, q: seq<string>, s: seq<string>, a: seq<string>, b: seq<string>)
    requires q == p + a && s == q + b
    ensures s == p + (a + b)
  {
  }

  /** Keys recorded later and kept out of the `seen` list so far extend it without repeats. */
  lemma JoinedKeysNoDup(seen: seq<string>, a: seq<string>, b: seq<string>)
    requires NoDup(a) && NoDup(b)
    requires forall k :: k in b ==> k !in seen + a
    ensures NoDup(a + b)
  {
    forall i | 0 <= i < |b| ensures b[i] !in a {
      assert b[i] in b;
    }
    ConcatNoDup(a, b);
  }

  lemma TransFresh<R>(cb: Callbacks<R>, t: Transport, chatId: string, p: Pass<R>, q: Pass<R>, s: Pass<R>)
    requires Extends(cb, t, chatId, p, q) && Extends(cb, t, chatId, q, s)
    ensures forall i :: |p.log| <= i < |s.log| ==> Fresh(cb, t, chatId, p.seen, s.log[i])
  {
    forall i | |p.log| <= i < |s.log| ensures Fresh(cb, t, chatId, p.seen, s.log[i]) {
      if i < |q.log| {
        assert s.log[i] == s.log[..|q.log|][i] == q.log[i];
      } else {
        assert Fresh(cb, t, chatId, q.seen, s.log[i]);
      }
    }
  }

  /** A key that succeeded in a later stretch of a pass was not seen before it. */
  lemma LaterKeysUnseen<R>(cb: Callbacks<R>, t: Transport, chatId: string, q: Pass<R>, s: Pass<R>, k: string)
    requires Extends(cb, t, chatId, q, s)
    requires k in OkKeys(s.log[|q.log|..])
    ensures k !in q.seen
  {
    var y := s.log[|q.log|..];
    OkKeysMembers(y, k);
    var m :| 0 <= m < |y| && y[m].ok && y[m].key == k;
    assert y[m] == s.log[|q.log| + m];
    assert Fresh(cb, t, chatId, q.seen, s.log[|q.log| + m]);
  }

  lemma {:induction false} VisitAllExtends<R>(cb: Callbacks<R>, t: Transport, chatId: string, p: Pass<R>, rs: seq<R>)
    ensures Extends(cb, t, chatId, p, VisitAll(cb, t, chatId, p, rs))
    decreases |rs|
  {
    if rs == [] {
      assert p.log[|p.log|..] == [];
    } else {
      var prev := VisitAll(cb, t, chatId, p, rs[..|rs| - 1]);
      VisitAllExtends(cb, t, chatId, p, rs[..|rs| - 1]);
      VisitExtends(cb, t, chatId, prev, rs[|rs| - 1]);
      ExtendsTrans(cb, t, chatId, p, prev, VisitAll(cb, t, chatId, p, rs));
    }
  }

  /** Every query's results are processed under the same rules: a pass of a chat keeps Extends. */
  lemma {:induction false} RunQueriesExtends<R>(cb: Callbacks<R>, t: Transport, chatId: string, p: Pass<R>, qs: seq<string>)
    ensures Extends(cb, t, chatId, p, RunQueries(cb, t, chatId, p, qs))
    decreases |qs|
  {
    if qs == [] {
      assert p.log[|p.log|..] == [];
    } else {
      var prev := RunQueries(cb, t, chatId, p, qs[..|qs| - 1]);
      RunQueriesExtends(cb, t, chatId, p, qs[..|qs| - 1]);
      VisitAllExtends(cb, t, chatId, prev, cb.parseQuery(qs[|qs| - 1]));
      ExtendsTrans(cb, t, chatId, p, prev, RunQueries(cb, t, chatId, p, qs));
    }
  }

  /** The innermost loop body attempts a key only while it is not in `seen`. */
  lemma VisitSkips<R>(cb: Callbacks<R>, t: Transport, chatId: string, p: Pass<R>, r: R)
    ensures SkipsRecorded(p, Visit(cb, t, chatId, p, r))
  {
    var q := Visit(cb, t, chatId, p, r);
    assert q.log[|p.log|..|p.log|] == [];
    assert p.seen + OkKeys(q.log[|p.log|..|p.log|]) == p.seen;
  }

  /** Two consecutive stretches that each skip recorded keys make one that does. */
  lemma TransSkips<R>(p: Pass<R>, q: Pass<R>, s: Pass<R>)
    requires SkipsRecorded(p, q) && SkipsRecorded(q, s)
    requires s.log[..|q.log|] == q.log
    requires q.seen == p.seen + OkKeys(q.log[|p.log|..])
    ensures SkipsRecorded(p, s)
  {
    forall j | |p.log| <= j < |s.log|
      ensures s.log[j].key !in p.seen + OkKeys(s.log[|p.log|..j])
    {
      if j < |q.log| {
        SkipsEarly(p, q, s, j);
      } else {
        SkipsLate(p, q, s, j);
      }
    }
  }

  lemma SkipsEarly<R>(p: Pass<R>, q: Pass<R>, s: Pass<R>, j: int)
    requires SkipsRecorded(p, q)
    requires |q.log| <= |s.log| && s.log[..|q.log|] == q.log
    requires |p.log| <= j < |q.log|
    ensures s.log[j].key !in p.seen + OkKeys(s.log[|p.log|..j])
  {
    assert s.log[j] == s.log[..|q.log|][j] == q.log[j];
    forall k | 0 <= k < j - |p.log| ensures s.log[|p.log|..j][k] == q.log[|p.log|..j][k] {
      assert s.log[|p.log| + k] == s.log[..|q.log|][|p.log| + k];
    }
    assert s.log[|p.log|..j] == q.log[|p.log|..j];
  }

  lemma SkipsLate<R>(p: Pass<R>, q: Pass<R>, s: Pass<R>, j: int)
    requires |p.log| <= |q.log| <= j < |s.log| && s.log[..|q.log|] == q.log
    requires q.seen == p.seen + OkKeys(q.log[|p.log|..])
    requires s.log[j].key !in q.seen + OkKeys(s.log[|q.log|..j])
    ensures s.log[j].key !in p.seen + OkKeys(s.log[|p.log|..j])
  {
    var x := q.log[|p.log|..];
    var y := s.log[|q.log|..j];
    assert x == s.log[|p.log|..|q.log|];
    assert s.log[|p.log|..j] == x + y;
    OkKeysAppend(x, y);
    TransSeen(p.seen, q.seen, q.seen + OkKeys(y), OkKeys(x), OkKeys(y));
  }


  lemma {:induction false} VisitAllSkips<R>(cb: Callbacks<R>, t: Transport, chatId: string, p: Pass<R>, rs: seq<R>)
    ensures SkipsRecorded(p, VisitAll(cb, t, chatId, p, rs))
    decreases |rs|
  {
    if rs != [] {
      var prev := VisitAll(cb, t, chatId, p, rs[..|rs| - 1]);
      VisitAllSkips(cb, t, chatId, p, rs[..|rs| - 1]);
      VisitAllExtends(cb, t, chatId, p, rs[..|rs| - 1]);
      VisitSkips(cb, t, chatId, prev, rs[|rs| - 1]);
      VisitExtends(cb, t, chatId, prev, rs[|rs| - 1]);
      TransSkips(p, prev, VisitAll(cb, t, chatId, p, rs));
    }
  }

  /** A chat's whole pass attempts a key only while it is not in `seen`. */
  lemma {:induction false} RunQueriesSkips<R>(cb: Callbacks<R>, t: Transport, chatId: string, p: Pass<R>, qs: seq<string>)
    ensures SkipsRecorded(p, RunQueries(cb, t, chatId, p, qs))
    decreases |qs|
  {
    if qs != [] {
      var prev := RunQueries(cb, t, chatId, p, qs[..|qs| - 1]);
      var rs := cb.parseQuery(qs[|qs| - 1]);
      RunQueriesSkips(cb, t, chatId, p, qs[..|qs| - 1]);
      RunQueriesExtends(cb, t, chatId, p, qs[..|qs| - 1]);
      VisitAllSkips(cb, t, chatId, prev, rs);
      VisitAllExtends(cb, t, chatId, prev, rs);
      TransSkips(p, prev, RunQueries(cb, t, chatId, p, qs));
    }
  }

  /** Each attempt of the innermost loop is made for one of its results. */
  lemma {:induction false} VisitAllFrom<R>(cb: Callbacks<R>, t: Transport, chatId: string, p: Pass<R>, rs: seq<R>)
    ensures var q := VisitAll(cb, t, chatId, p, rs);
            |p.log| <= |q.log| &&
            forall i :: |p.log| <= i < |q.log| ==> q.log[i].result in rs
    decreases |rs|
  {
    if rs != [] {
      var init := rs[..|rs| - 1];
      VisitAllFrom(cb, t, chatId, p, init);
      var prev := VisitAll(cb, t, chatId, p, init);
      VisitExtends(cb, t, chatId, prev, rs[|rs| - 1]);
      var q := VisitAll(cb, t, chatId, p, rs);
      forall i | |p.log| <= i < |q.log| ensures q.log[i].result in rs {
        if i < |prev.log| {
          assert q.log[..|prev.log|] == prev.log;
          assert q.log[i] == prev.log[i];
          assert prev.log[i].result in init;
        } else {
          assert q.log[i].result == rs[|rs| - 1];
        }
      }
    }
  }

  /** Each attempt of a chat's pass is made for a result of one of its queries. */
  lemma {:induction false} RunQueriesFrom<R>(cb: Callbacks<R>, t: Transport, chatId: string, p: Pass<R>, qs: seq<string>)
    ensures var q := RunQueries(cb, t, chatId, p, qs);
            |p.log| <= |q.log| &&
            forall i :: |p.log| <= i < |q.log| ==>
              exists j :: 0 <= j < |qs| && q.log[i].result in cb.parseQuery(qs[j])
    decreases |qs|
  {
    if qs != [] {
      var init := qs[..|qs| - 1];
      RunQueriesFrom(cb, t, chatId, p, init);
      var prev := RunQueries(cb, t, chatId, p, init);
      var rs := cb.parseQuery(qs[|qs| - 1]);
      VisitAllFrom(cb, t, chatId, prev, rs);
      VisitAllExtends(cb, t, chatId, prev, rs);
      var q := RunQueries(cb, t, chatId, p, qs);
      forall i | |p.log| <= i < |q.log|
        ensures exists j :: 0 <= j < |qs| && q.log[i].result in cb.parseQuery(qs[j])
      {
        if i < |prev.log| {
          assert q.log[..|prev.log|] == prev.log;
          assert q.log[i] == prev.log[i];
          var j :| 0 <= j < |init| && prev.log[i].result in cb.parseQuery(init[j]);
          assert init[j] == qs[j];
        } else {
          assert q.log[i].result in cb.parseQuery(qs[|qs| - 1]);
        }
      }
    }
  }

  /**
    A result whose key is present and was not seen at the start of the pass
    is not lost: some send for that key is attempted (by it, or by an earlier
    result with the same key).
  */
  lemma {:induction false} VisitAllCovers<R>(cb: Callbacks<R>, t: Transport, chatId: string, p: Pass<R>, rs: seq<R>, r: R)
    requires r in rs && cb.getKey(r).Some? && cb.getKey(r).value !in p.seen
    ensures var q := VisitAll(cb, t, chatId, p, rs);
            |p.log| <= |q.log| && Sent(q.log[|p.log|..], cb.getKey(r).value)
    decreases |rs|
  {
    var k := cb.getKey(r).value;
    var init := rs[..|rs| - 1];
    var prev := VisitAll(cb, t, chatId, p, init);
    var q := VisitAll(cb, t, chatId, p, rs);
    VisitAllExtends(cb, t, chatId, p, init);
    VisitExtends(cb, t, chatId, prev, rs[|rs| - 1]);
    CoversStep(cb, t, chatId, p, prev, q, k);
    if r in init {
      VisitAllCovers(cb, t, chatId, p, init, r);
    } else if k !in prev.seen {
      assert r == rs[|rs| - 1];
      assert q.log[|p.log|..][|prev.log| - |p.log|].key == k;
    }
  }

  /**
    The step shared by both coverage proofs: a key sent in the earlier part of
    a pass, or recorded by it, is among the keys sent by the whole pass.
  */
  lemma CoversStep<R>(cb: Callbacks<R>, t: Transport, chatId: string, p: Pass<R>, prev: Pass<R>, q: Pass<R>,
                      k: string)
    requires Extends(cb, t, chatId, p, prev) && Extends(cb, t, chatId, prev, q)
    requires k !in p.seen
    ensures Sent(prev.log[|p.log|..], k) ==> Sent(q.log[|p.log|..], k)
    ensures k in prev.seen ==> Sent(q.log[|p.log|..], k)
  {
    var front := prev.log[|p.log|..];
    assert q.log[..|prev.log|] == prev.log;
    if Sent(front, k) {
      var i :| 0 <= i < |front| && front[i].key == k;
      assert q.log[|p.log|..][i] == q.log[|p.log| + i] == prev.log[|p.log| + i] == front[i];
    }
    if k in prev.seen {
      assert k in OkKeys(front);
      OkKeysMembers(front, k);
      var i :| 0 <= i < |front| && front[i].ok && front[i].key == k;
      assert q.log[|p.log|..][i] == q.log[|p.log| + i] == prev.log[|p.log| + i] == front[i];
    }
  }

  /** The same for a chat's whole pass: no query's unseen keyed result goes unattempted. */
  lemma {:induction false} RunQueriesCovers<R>(cb: Callbacks<R>, t: Transport, chatId: string, p: Pass<R>, qs: seq<string>, j: nat, r: R)
    requires j < |qs| && r in cb.parseQuery(qs[j])
    requires cb.getKey(r).Some? && cb.getKey(r).value !in p.seen
    ensures var q := RunQueries(cb, t, chatId, p, qs);
            |p.log| <= |q.log| && Sent(q.log[|p.log|..], cb.getKey(r).value)
    decreases |qs|
  {
    var k := cb.getKey(r).value;
    var init := qs[..|qs| - 1];
    var prev := RunQueries(cb, t, chatId, p, init);
    var rs := cb.parseQuery(qs[|qs| - 1]);
    var q := RunQueries(cb, t, chatId, p, qs);
    RunQueriesExtends(cb, t, chatId, p, init);
    VisitAllExtends(cb, t, chatId, prev, rs);
    CoversStep(cb, t, chatId, p, prev, q, k);
    if j < |init| {
      assert init[j] == qs[j];
      RunQueriesCovers(cb, t, chatId, p, init, j, r);
    } else if k !in prev.seen {
      VisitAllCovers(cb, t, chatId, prev, rs, r);
      var back := q.log[|prev.log|..];
      var i :| 0 <= i < |back| && back[i].key == k;
      assert q.log[|p.log|..][|prev.log| - |p.log| + i] == back[i];
    }
  }

  /**
    Within one pass every attempt carries a key not seen before the pass, and
    `seen` grows by exactly the keys of the successful attempts, in order, so
    the old list stays a prefix and stays duplicate-free.
  */
  lemma PollChatRecords<R>(cb: Callbacks<R>, t: Transport, chatId: string, rec: ChatRecord)
    ensures var q := PollChat(cb, t, chatId, rec);
            q.seen == rec.seen + OkKeys(q.log) &&
            (NoDup(rec.seen) ==> NoDup(q.seen)) &&
            forall i :: 0 <= i < |q.log| ==>
              q.log[i].chatId == chatId && cb.getKey(q.log[i].result) == Some(q.log[i].key) &&
              q.log[i].key !in rec.seen && q.log[i].ok == Delivered(cb, t, chatId, q.log[i].result)
  {
    var p := Pass(rec.seen, []);
    var q := PollChat(cb, t, chatId, rec);
    RunQueriesExtends(cb, t, chatId, p, rec.queries);
    assert q.log[0..] == q.log;
    forall i | 0 <= i < |OkKeys(q.log)| ensures OkKeys(q.log)[i] !in rec.seen {
      OkKeysMembers(q.log, OkKeys(q.log)[i]);
    }
    if NoDup(rec.seen) {
      ConcatNoDup(rec.seen, OkKeys(q.log));
    }
  }

  /**
    Within one pass a key is never sent again once a send for it succeeded:
    the later result is skipped as already seen.
  */
  lemma DeliveredOnce<R>(cb: Callbacks<R>, t: Transport, chatId: string, rec: ChatRecord, i: nat, j: nat)
    requires var q := PollChat(cb, t, chatId, rec); i < j < |q.log| && q.log[i].ok
    ensures PollChat(cb, t, chatId, rec).log[j].key != PollChat(cb, t, chatId, rec).log[i].key
  {
    var q := PollChat(cb, t, chatId, rec);
    RunQueriesSkips(cb, t, chatId, Pass(rec.seen, []), rec.queries);
    assert q.log[j].key !in rec.seen + OkKeys(q.log[0..j]);
    OkKeysMembers(q.log[0..j], q.log[i].key);
    assert q.log[0..j][i] == q.log[i];
  }

  /**
    A key delivered in one pass is never sent again to that chat by the next
    pass, whatever its queries, callbacks and transport outcomes.
  */
  lemma NoRedelivery<R>(cb: Callbacks<R>, t: Transport, chatId: string, rec: ChatRecord,
                        cb2: Callbacks<R>, t2: Transport, queries2: seq<string>, i: nat)
    requires var q := PollChat(cb, t, chatId, rec); i < |q.log| && q.log[i].ok
    ensures var q := PollChat(cb, t, chatId, rec);
            var next := PollChat(cb2, t2, chatId, ChatRecord(queries2, q.seen));
            forall b :: 0 <= b < |next.log| ==> next.log[b].key != q.log[i].key
  {
    var q := PollChat(cb, t, chatId, rec);
    PollChatRecords(cb, t, chatId, rec);
    OkKeysMembers(q.log, q.log[i].key);
    PollChatRecords(cb2, t2, chatId, ChatRecord(queries2, q.seen));
  }

  /**
    A key whose every send failed in one pass is not recorded, and the next
    pass over the same queries and callbacks sends for it again.
  */
  lemma RetryAfterFailure<R>(cb: Callbacks<R>, t: Transport, chatId: string, rec: ChatRecord, t2: Transport, i: nat)
    requires var q := PollChat(cb, t, chatId, rec);
             i < |q.log| &&
             forall j :: 0 <= j < |q.log| && q.log[j].key == q.log[i].key ==> !q.log[j].ok
    ensures var q := PollChat(cb, t, chatId, rec);
            var next := PollChat(cb, t2, chatId, ChatRecord(rec.queries, q.seen));
            q.log[i].key !in q.seen && Sent(next.log, q.log[i].key)
  {
    var q := PollChat(cb, t, chatId, rec);
    var a := q.log[i];
    PollChatRecords(cb, t, chatId, rec);
    OkKeysMembers(q.log, a.key);
    assert a.key !in OkKeys(q.log);
    assert a.key !in q.seen;
    RunQueriesFrom(cb, t, chatId, Pass(rec.seen, []), rec.queries);
    var j :| 0 <= j < |rec.queries| && a.result in cb.parseQuery(rec.queries[j]);
    RunQueriesCovers(cb, t2, chatId, Pass(q.seen, []), rec.queries, j, a.result);
    var next := PollChat(cb, t2, chatId, ChatRecord(rec.queries, q.seen));
    assert next.log[0..] == next.log;
  }

  lemma {:induction false} ForChatAppend<R>(a: seq<Attempt<R>>, b: seq<Attempt<R>>, c: string)
    ensures ForChat(a + b, c) == ForChat(a, c) + ForChat(b, c)
    decreases |b|
  {
    if b == [] {
      assert a + b == a;
    } else {
      ForChatAppend(a, b[..|b| - 1], c);
      assert (a + b)[..|a + b| - 1] == a + b[..|b| - 1];
    }
  }

  /** A log made for one chat is all of that chat's attempts and none of any other's. */
  lemma {:induction false} ForChatOwn<R>(log: seq<Attempt<R>>, chatId: string, c: string)
    requires forall i :: 0 <= i < |log| ==> log[i].chatId == chatId
    ensures ForChat(log, c) == if c == chatId then log else []
    decreases |log|
  {
    if log != [] {
      ForChatOwn(log[..|log| - 1], chatId, c);
      assert log[..|log| - 1] + [log[|log| - 1]] == log;
    }
  }

  /**
    A poll changes only the `seen` list of the polled chats; each such list
    keeps its old value as a prefix, and a well-formed database stays so.
  */
  lemma PollFrame<R>(cb: Callbacks<R>, t: Transport, db: Db, target: Option<string>)
    ensures var db' := Poll(cb, t, db, target);
            db'.Keys == db.Keys &&
            (forall c :: c in db && !Selected(c, target) ==> db'[c] == db[c]) &&
            (forall c :: c in db ==> db'[c].queries == db[c].queries &&
                                     |db[c].seen| <= |db'[c].seen| &&
                                     db'[c].seen[..|db[c].seen|] == db[c].seen) &&
            (WellFormed(db) ==> WellFormed(db'))
  {
    var db' := Poll(cb, t, db, target);
    forall c | c in db
      ensures |db[c].seen| <= |db'[c].seen| && db'[c].seen[..|db[c].seen|] == db[c].seen
      ensures NoDup(db[c].seen) ==> NoDup(db'[c].seen)
    {
      PollChatRecords(cb, t, c, db[c]);
    }
  }

  /**
    The invariant of the outer loop of `_poller`: the chats still `pending`
    are as read at the start, every other chat already holds its polled
    record, and the log holds exactly the attempts of the chats done.
  */
  ghost predicate Progress<R>(cb: Callbacks<R>, t: Transport, target: Option<string>, snapshot: Db,
                              pending: set<string>, db: Db, log: seq<Attempt<R>>) {
    pending <= snapshot.Keys &&
    DbProgress(cb, t, target, snapshot, pending, db) &&
    LogProgress(cb, t, target, snapshot, pending, log)
  }

  /** The database half of `Progress`. */
  ghost predicate DbProgress<R>(cb: Callbacks<R>, t: Transport, target: Option<string>, snapshot: Db,
                                pending: set<string>, db: Db) {
    db.Keys == snapshot.Keys &&
    forall c :: c in snapshot ==> db[c] == if c in pending then snapshot[c] else Poll(cb, t, snapshot, target)[c]
  }

  /** The log half of `Progress`. */
  ghost predicate LogProgress<R>(cb: Callbacks<R>, t: Transport, target: Option<string>, snapshot: Db,
                                 pending: set<string>, log: seq<Attempt<R>>) {
    forall c :: ForChat(log, c) ==
      if c in snapshot && c !in pending && Selected(c, target) then PollChat(cb, t, c, snapshot[c]).log else []
  }

  lemma ProgressStart<R>(cb: Callbacks<R>, t: Transport, target: Option<string>, snapshot: Db)
    ensures Progress(cb, t, target, snapshot, snapshot.Keys, snapshot, [])
  {
  }

  /** A chat the target excludes is passed over without any effect. */
  lemma ProgressSkip<R>(cb: Callbacks<R>, t: Transport, target: Option<string>, snapshot: Db,
                        pending: set<string>, db: Db, log: seq<Attempt<R>>, chatId: string)
    requires Progress(cb, t, target, snapshot, pending, db, log)
    requires chatId in pending && !Selected(chatId, target)
    ensures Progress(cb, t, target, snapshot, pending - {chatId}, db, log)
  {
  }

  /** Polling one more chat and writing back its `seen` list keeps the invariant. */
  lemma ProgressStep<R>(cb: Callbacks<R>, t: Transport, target: Option<string>, snapshot: Db,
                        pending: set<string>, db: Db, log: seq<Attempt<R>>, chatId: string)
    requires Progress(cb, t, target, snapshot, pending, db, log)
    requires chatId in pending && Selected(chatId, target)
    ensures var q := PollChat(cb, t, chatId, snapshot[chatId]);
            Progress(cb, t, target, snapshot, pending - {chatId},
                     db[chatId := ChatRecord(db[chatId].queries, q.seen)], log + q.log)
  {
    DbStep(cb, t, target, snapshot, pending, db, chatId);
    LogStep(cb, t, target, snapshot, pending, log, chatId);
  }

  lemma DbStep<R>(cb: Callbacks<R>, t: Transport, target: Option<string>, snapshot: Db,
                  pending: set<string>, db: Db, chatId: string)
    requires DbProgress(cb, t, target, snapshot, pending, db)
    requires chatId in pending && chatId in snapshot && Selected(chatId, target)
    ensures var q := PollChat(cb, t, chatId, snapshot[chatId]);
            DbProgress(cb, t, target, snapshot, pending - {chatId},
                       db[chatId := ChatRecord(db[chatId].queries, q.seen)])
  {
  }

  lemma LogStep<R>(cb: Callbacks<R>, t: Transport, target: Option<string>, snapshot: Db,
                   pending: set<string>, log: seq<Attempt<R>>, chatId: string)
    requires LogProgress(cb, t, target, snapshot, pending, log)
    requires chatId in pending && chatId in snapshot && Selected(chatId, target)
    ensures var q := PollChat(cb, t, chatId, snapshot[chatId]);
            LogProgress(cb, t, target, snapshot, pending - {chatId}, log + q.log)
  {
    var q := PollChat(cb, t, chatId, snapshot[chatId]);
    PollChatOwn(cb, t, chatId, snapshot[chatId]);
    forall c ensures ForChat(log + q.log, c) == ForChat(log, c) + (if c == chatId then q.log else []) {
      ForChatAppend(log, q.log, c);
      ForChatOwn(q.log, chatId, c);
    }
  }

  /** Every attempt of a chat's pass is made for that chat. */
  lemma PollChatOwn<R>(cb: Callbacks<R>, t: Transport, chatId: string, rec: ChatRecord)
    ensures var q := PollChat(cb, t, chatId, rec);
            forall i :: 0 <= i < |q.log| ==> q.log[i].chatId == chatId
  {
    PollChatRecords(cb, t, chatId, rec);
  }

  /** When no chat is pending, the database and the log are those of the whole poll. */
  lemma ProgressDone<R>(cb: Callbacks<R>, t: Transport, target: Option<string>, snapshot: Db,
                        db: Db, log: seq<Attempt<R>>)
    requires Progress(cb, t, target, snapshot, {}, db, log)
    ensures db == Poll(cb, t, snapshot, target)
    ensures forall c :: ForChat(log, c) ==
              if c in snapshot && Selected(c, target) then PollChat(cb, t, c, snapshot[c]).log else []
  {
  }
}
