/**
 * Removal of ids from a Redis list, and how it acts on multiplicities.
 * A list is kept oldest first: index 0 is the element the next RPOP takes,
 * and LPUSH appends at the end.
 */
module Lists {
  import opened Messages

  function Elements(s: seq<Id>): set<Id> {
    set x | x in s
  }

  /** Number of occurrences of `x`. */
  ghost function Count(s: seq<Id>, x: Id): nat {
    multiset(s)[x]
  }

  ghost predicate Distinct(s: seq<Id>) {
    forall i, j :: 0 <= i < j < |s| ==> s[i] != s[j]
  }

  /** `s` with every occurrence of every id in `gone` removed; LREM key 0 id is Without(s, {id}). */
  function Without(s: seq<Id>, gone: set<Id>): seq<Id> {
    if s == [] then []
    else
      var rest := Without(s[..|s| - 1], gone);
      if s[|s| - 1] in gone then rest else rest + [s[|s| - 1]]
  }

  lemma WithoutSnoc(s: seq<Id>, x: Id, gone: set<Id>)
    ensures Without(s + [x], gone) == Without(s, gone) + (if x in gone then [] else [x])
  {
    assert (s + [x])[..|s|] == s;
  }

  lemma {:induction false} WithoutCount(s: seq<Id>, gone: set<Id>, x: Id)
    ensures Count(Without(s, gone), x) == if x in gone then 0 else Count(s, x)
  {
    if s != [] {
      var front := s[..|s| - 1];
      WithoutCount(front, gone, x);
      assert s == front + [s[|s| - 1]];
    }
  }

  lemma {:induction false} WithoutConcat(s: seq<Id>, t: seq<Id>, gone: set<Id>)
    ensures Without(s + t, gone) == Without(s, gone) + Without(t, gone)
  {
    if t == [] {
      assert s + t == s;
    } else {
      var front := t[..|t| - 1];
      WithoutConcat(s, front, gone);
      assert (s + t)[..|s + t| - 1] == s + front;
    }
  }

  lemma {:induction false} WithoutTwice(s: seq<Id>, a: set<Id>, b: set<Id>)
    ensures Without(Without(s, a), b) == Without(s, a + b)
  {
    if s != [] {
      var front := s[..|s| - 1];
      WithoutTwice(front, a, b);
      if s[|s| - 1] !in a {
        WithoutSnoc(Without(front, a), s[|s| - 1], b);
      }
    }
  }

  /** Only the listed ids matter: two sets that agree on `s` remove the same elements. */
  lemma {:induction false} WithoutAgree(s: seq<Id>, a: set<Id>, b: set<Id>)
    requires forall x :: x in s ==> (x in a <==> x in b)
    ensures Without(s, a) == Without(s, b)
  {
    if s != [] {
      var front := s[..|s| - 1];
      assert forall x :: x in front ==> x in s;
      WithoutAgree(front, a, b);
    }
  }

  lemma {:induction false} WithoutNothing(s: seq<Id>, gone: set<Id>)
    requires forall x :: x in s ==> x !in gone
    ensures Without(s, gone) == s
  {
    if s != [] {
      var front := s[..|s| - 1];
      assert forall x :: x in front ==> x in s;
      WithoutNothing(front, gone);
    }
  }

  lemma {:induction false} WithoutEverything(s: seq<Id>, gone: set<Id>)
    requires forall x :: x in s ==> x in gone
    ensures Without(s, gone) == []
  {
    if s != [] {
      var front := s[..|s| - 1];
      assert forall x :: x in front ==> x in s;
      WithoutEverything(front, gone);
    }
  }

  lemma CountSplit(s: seq<Id>, i: nat, x: Id)
    requires i <= |s|
    ensures Count(s, x) == Count(s[..i], x) + Count(s[i..], x)
  {
    assert s == s[..i] + s[i..];
  }

  lemma CountMember(s: seq<Id>, x: Id)
    ensures Count(s, x) > 0 <==> x in s
  {
  }

  lemma {:induction false} CountDistinct(s: seq<Id>, x: Id)
    requires Distinct(s)
    ensures Count(s, x) == if x in s then 1 else 0
  {
    if s != [] {
      var front := s[..|s| - 1];
      CountDistinct(front, x);
      assert s == front + [s[|s| - 1]];
      if s[|s| - 1] == x {
        assert x !in front;
      }
    }
  }

  lemma {:induction false} ElementsCount(ids: seq<Id>)
    requires Distinct(ids)
    ensures |Elements(ids)| == |ids|
  {
    if ids != [] {
      var id, front := ids[|ids| - 1], ids[..|ids| - 1];
      ElementsCount(front);
      assert ids == front + [id];
      assert Elements(ids) == Elements(front) + {id};
    }
  }

  /** Some copy of `a` stands before some copy of `b`. */
  predicate Earlier(s: seq<Id>, a: Id, b: Id) {
    exists i, j :: 0 <= i < j < |s| && s[i] == a && s[j] == b
  }

  lemma EarlierBehind(w: seq<Id>, s: seq<Id>, a: Id, b: Id)
    requires Earlier(s, a, b)
    ensures Earlier(w + s, a, b)
  {
    var i, j :| 0 <= i < j < |s| && s[i] == a && s[j] == b;
    assert (w + s)[|w| + i] == a && (w + s)[|w| + j] == b;
  }

  lemma EarlierAhead(s: seq<Id>, w: seq<Id>, a: Id, b: Id)
    requires Earlier(s, a, b)
    ensures Earlier(s + w, a, b)
  {
    var i, j :| 0 <= i < j < |s| && s[i] == a && s[j] == b;
    assert (s + w)[i] == a && (s + w)[j] == b;
  }

  /** Removing other ids keeps the order of the rest. */
  lemma {:induction false} WithoutKeepsOrder(s: seq<Id>, gone: set<Id>, a: Id, b: Id)
    requires Earlier(s, a, b) && a !in gone && b !in gone
    ensures Earlier(Without(s, gone), a, b)
  {
    var front, last := s[..|s| - 1], s[|s| - 1];
    var i, j :| 0 <= i < j < |s| && s[i] == a && s[j] == b;
    if j < |s| - 1 {
      assert front[i] == a && front[j] == b;
      WithoutKeepsOrder(front, gone, a, b);
      EarlierAhead(Without(front, gone), [last], a, b);
    } else {
      WithoutCount(front, gone, a);
      assert front[i] == a;
      CountMember(front, a);
      CountMember(Without(front, gone), a);
      var rest := Without(front, gone);
      var q :| 0 <= q < |rest| && rest[q] == a;
      assert (rest + [last])[q] == a && (rest + [last])[|rest|] == b;
    }
  }

  /** A part from the front keeps the order of what it holds. */
  lemma EarlierInFront(s: seq<Id>, n: nat, a: Id, b: Id)
    requires Distinct(s) && n <= |s| && a in s[..n] && b in s[..n]
    ensures Earlier(s[..n], a, b) <==> Earlier(s, a, b)
  {
    if Earlier(s, a, b) {
      var i, j :| 0 <= i < j < |s| && s[i] == a && s[j] == b;
      var q :| 0 <= q < n && s[..n][q] == b;
      assert s[q] == s[j];
      assert s[..n][i] == a && s[..n][j] == b;
    }
  }
}
