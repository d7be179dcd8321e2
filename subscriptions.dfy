/**
  The subscription list of one chat: an ordered list of query strings that
  `/add` extends and `/rm` shrinks, both one parsed query at a time.
*/
module Subscriptions {

  /** No element occurs twice. */
  predicate NoDup<T(==)>(s: seq<T>) {
    forall i, j :: 0 <= i < j < |s| ==> s[i] != s[j]
  }

  /**
    The loop of `_add_query`: each item, in order, is appended unless the list
    already holds it. The old list stays a prefix and nothing but old entries
    and items ends up in it.
  */
  function AddQueries(qs: seq<string>, items: seq<string>): (r: seq<string>)
    ensures |qs| <= |r| && r[..|qs|] == qs
    ensures forall x :: x in r <==> x in qs || x in items
    decreases |items|
  {
    if items == [] then qs
    else
      var prev := AddQueries(qs, items[..|items| - 1]);
      var q := items[|items| - 1];
      if q in prev then prev else prev + [q]
  }

  lemma AddQueriesSnoc(qs: seq<string>, items: seq<string>, x: string)
    ensures var prev := AddQueries(qs, items);
            AddQueries(qs, items + [x]) == if x in prev then prev else prev + [x]
  {
    assert (items + [x])[..|items|] == items;
  }

  /** Python's `list.remove(x)` on a list holding `x`: drops its first occurrence. */
  function RemoveFirst(s: seq<string>, x: string): (r: seq<string>)
    requires x in s
    ensures multiset(r) == multiset(s) - multiset{x}
  {
    if s[0] == x then
      assert s == [s[0]] + s[1..];
      s[1..]
    else
      assert s == [s[0]] + s[1..];
      [s[0]] + RemoveFirst(s[1..], x)
  }

  /**
    The loop of `_remove_query`: each item the list holds is removed with
    `list.remove`; items it does not hold are skipped.
  */
  function RemoveQueries(qs: seq<string>, items: seq<string>): (r: seq<string>)
    ensures multiset(r) <= multiset(qs)
    decreases |items|
  {
    if items == [] then qs
    else
      var prev := RemoveQueries(qs, items[..|items| - 1]);
      var q := items[|items| - 1];
      if q in prev then RemoveFirst(prev, q) else prev
  }

  lemma RemoveQueriesSnoc(qs: seq<string>, items: seq<string>, x: string)
    ensures var prev := RemoveQueries(qs, items);
            RemoveQueries(qs, items + [x]) == if x in prev then RemoveFirst(prev, x) else prev
  {
    assert (items + [x])[..|items|] == items;
  }

  /** Reference for adding: the elements of `s` in order of first occurrence, each once. */
  function Distinct(s: seq<string>): seq<string>
    decreases |s|
  {
    if s == [] then []
    else
      var init := s[..|s| - 1];
      if s[|s| - 1] in init then Distinct(init) else Distinct(init) + [s[|s| - 1]]
  }

  /** Reference for removing: the entries of `qs` not among `items`, in their order. */
  function Without(qs: seq<string>, items: seq<string>): seq<string> {
    if qs == [] then []
    else (if qs[0] in items then [] else [qs[0]]) + Without(qs[1..], items)
  }

  lemma {:induction false} DistinctMembers(s: seq<string>)
    ensures forall x :: x in Distinct(s) <==> x in s
    decreases |s|
  {
    if s != [] {
      DistinctMembers(s[..|s| - 1]);
      assert s == s[..|s| - 1] + [s[|s| - 1]];
    }
  }

  lemma {:induction false} DistinctOfNoDup(s: seq<string>)
    requires NoDup(s)
    ensures Distinct(s) == s
    decreases |s|
  {
    if s != [] {
      var init := s[..|s| - 1];
      DistinctOfNoDup(init);
      assert s[|s| - 1] !in init;
      assert s == init + [s[|s| - 1]];
    }
  }

  /**
    Adding to a duplicate-free list keeps every distinct query once, in
    first-occurrence order over the old list followed by the new items.
  */
  lemma {:induction false} AddIsDistinct(qs: seq<string>, items: seq<string>)
    requires NoDup(qs)
    ensures AddQueries(qs, items) == Distinct(qs + items)
    decreases |items|
  {
    if items == [] {
      assert qs + items == qs;
      DistinctOfNoDup(qs);
    } else {
      var init := items[..|items| - 1];
      AddIsDistinct(qs, init);
      assert (qs + items)[..|qs + items| - 1] == qs + init;
    }
  }

  /** Adding keeps the list duplicate-free. */
  lemma {:induction false} AddKeepsNoDup(qs: seq<string>, items: seq<string>)
    requires NoDup(qs)
    ensures NoDup(AddQueries(qs, items))
    decreases |items|
  {
    if items != [] {
      AddKeepsNoDup(qs, items[..|items| - 1]);
    }
  }

  lemma {:induction false} AddPresent(s: seq<string>, items: seq<string>)
    requires forall i :: 0 <= i < |items| ==> items[i] in s
    ensures AddQueries(s, items) == s
    decreases |items|
  {
    if items != [] {
      AddPresent(s, items[..|items| - 1]);
    }
  }

  /** Repeating the same `/add` changes nothing. */
  lemma AddIdempotent(qs: seq<string>, items: seq<string>)
    ensures AddQueries(AddQueries(qs, items), items) == AddQueries(qs, items)
  {
    AddPresent(AddQueries(qs, items), items);
  }

  lemma {:induction false} WithoutMembers(qs: seq<string>, items: seq<string>)
    ensures forall x :: x in Without(qs, items) <==> x in qs && x !in items
  {
    if qs != [] {
      WithoutMembers(qs[1..], items);
      assert qs == [qs[0]] + qs[1..];
    }
  }

  lemma {:induction false} WithoutKeepsNoDup(qs: seq<string>, items: seq<string>)
    requires NoDup(qs)
    ensures NoDup(Without(qs, items))
  {
    if qs != [] {
      WithoutKeepsNoDup(qs[1..], items);
      WithoutMembers(qs[1..], items);
      assert qs[0] !in qs[1..];
    }
  }

  lemma {:induction false} WithoutSnoc(qs: seq<string>, items: seq<string>, x: string)
    ensures Without(qs, items + [x]) == Without(Without(qs, items), [x])
  {
    if qs != [] {
      WithoutSnoc(qs[1..], items, x);
      var w := Without(qs, items);
      if qs[0] !in items {
        assert w == [qs[0]] + Without(qs[1..], items);
        assert w[0] == qs[0] && w[1..] == Without(qs[1..], items);
        assert qs[0] in items + [x] <==> qs[0] == x;
      } else {
        assert qs[0] in items + [x];
        assert w == Without(qs[1..], items);
        assert Without(qs, items + [x]) == Without(qs[1..], items + [x]);
      }
    }
  }

  lemma {:induction false} RemoveFirstIsWithout(s: seq<string>, x: string)
    requires NoDup(s) && x in s
    ensures RemoveFirst(s, x) == Without(s, [x])
  {
    if s[0] == x {
      assert x !in s[1..];
      WithoutAbsent(s[1..], [x]);
    } else {
      RemoveFirstIsWithout(s[1..], x);
    }
  }

  lemma {:induction false} WithoutAbsent(qs: seq<string>, items: seq<string>)
    requires forall i :: 0 <= i < |qs| ==> qs[i] !in items
    ensures Without(qs, items) == qs
  {
    if qs != [] {
      WithoutAbsent(qs[1..], items);
    }
  }

  /**
    Removing from a duplicate-free list deletes exactly the entries named by
    the items and keeps the rest in their relative order.
  */
  lemma {:induction false} RemoveIsWithout(qs: seq<string>, items: seq<string>)
    requires NoDup(qs)
    ensures RemoveQueries(qs, items) == Without(qs, items)
    decreases |items|
  {
    if items == [] {
      WithoutAbsent(qs, items);
    } else {
      var init := items[..|items| - 1];
      var x := items[|items| - 1];
      RemoveIsWithout(qs, init);
      WithoutKeepsNoDup(qs, init);
      WithoutMembers(qs, init);
      WithoutSnoc(qs, init, x);
      assert init + [x] == items;
      var w := Without(qs, init);
      if x in w {
        RemoveFirstIsWithout(w, x);
      } else {
        WithoutAbsent(w, [x]);
      }
    }
  }

  /** Removing keeps the list duplicate-free. */
  lemma RemoveKeepsNoDup(qs: seq<string>, items: seq<string>)
    requires NoDup(qs)
    ensures NoDup(RemoveQueries(qs, items))
  {
    RemoveIsWithout(qs, items);
    WithoutKeepsNoDup(qs, items);
  }

  /** Repeating the same `/rm` changes nothing. */
  lemma RemoveIdempotent(qs: seq<string>, items: seq<string>)
    requires NoDup(qs)
    ensures RemoveQueries(RemoveQueries(qs, items), items) == RemoveQueries(qs, items)
  {
    RemoveIsWithout(qs, items);
    WithoutKeepsNoDup(qs, items);
    WithoutMembers(qs, items);
    var w := Without(qs, items);
    RemoveIsWithout(w, items);
    WithoutAbsent(w, items);
  }

  /** Removing queries the list does not hold is silently a no-op. */
  lemma {:induction false} RemoveAbsent(qs: seq<string>, items: seq<string>)
    requires forall i :: 0 <= i < |items| ==> items[i] !in qs
    ensures RemoveQueries(qs, items) == qs
    decreases |items|
  {
    if items != [] {
      RemoveAbsent(qs, items[..|items| - 1]);
    }
  }
}
