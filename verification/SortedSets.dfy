/**
 * Redis sorted sets as score maps, listed in Redis's own order: by score, then
 * by member bytes. ZRANGEBYSCORE key -inf now LIMIT 0 100 is FirstDue(z, now).
 */
module SortedSets {
  import opened Messages
  import opened Lists

  const BATCH := 100

  predicate LexLe(a: Id, b: Id) {
    a == [] || (b != [] && (a[0] < b[0] || (a[0] == b[0] && LexLe(a[1..], b[1..]))))
  }

  predicate RankLe(z: map<Id, int>, a: Id, b: Id)
    requires a in z && b in z
  {
    z[a] < z[b] || (z[a] == z[b] && LexLe(a, b))
  }

  lemma {:induction false} LexTotal(a: Id, b: Id)
    ensures LexLe(a, b) || LexLe(b, a)
  {
    if a != [] && b != [] && a[0] == b[0] {
      LexTotal(a[1..], b[1..]);
    }
  }

  lemma {:induction false} LexAntisymmetric(a: Id, b: Id)
    requires LexLe(a, b) && LexLe(b, a)
    ensures a == b
  {
    if a != [] && b != [] {
      LexAntisymmetric(a[1..], b[1..]);
      assert a == [a[0]] + a[1..] && b == [b[0]] + b[1..];
    }
  }

  lemma {:induction false} LexTransitive(a: Id, b: Id, c: Id)
    requires LexLe(a, b) && LexLe(b, c)
    ensures LexLe(a, c)
  {
    if a != [] && a[0] == b[0] == c[0] {
      LexTransitive(a[1..], b[1..], c[1..]);
    }
  }

  /** The ids agree up to k, and there the first one ends or has the smaller character. */
  predicate DiffersAt(a: Id, b: Id, k: nat) {
    k <= |a| && k < |b| && a[..k] == b[..k] && (k == |a| || a[k] < b[k])
  }

  /** Byte order, told by the first difference. */
  ghost predicate Lower(a: Id, b: Id) {
    exists k :: DiffersAt(a, b, k)
  }

  lemma LexFromDifference(a: Id, b: Id, k: nat)
    requires DiffersAt(a, b, k)
    ensures LexLe(a, b) && a != b
    decreases k
  {
    if k > 0 {
      assert a[0] == a[..k][0] == b[..k][0] == b[0];
      assert a[1..][..k - 1] == a[..k][1..] && b[1..][..k - 1] == b[..k][1..];
      LexFromDifference(a[1..], b[1..], k - 1);
    }
  }

  lemma {:induction false} DifferenceFromLex(a: Id, b: Id) returns (k: nat)
    requires LexLe(a, b) && a != b
    ensures DiffersAt(a, b, k)
  {
    if a == [] || a[0] != b[0] {
      k := 0;
    } else {
      assert a == [a[0]] + a[1..] && b == [b[0]] + b[1..];
      var j := DifferenceFromLex(a[1..], b[1..]);
      k := j + 1;
      assert a[..k] == [a[0]] + a[1..][..j] && b[..k] == [b[0]] + b[1..][..j];
    }
  }

  /** Redis's order of members: by score, equal scores by the bytes of the ids. */
  ghost predicate ListedBefore(z: map<Id, int>, a: Id, b: Id)
    requires a in z && b in z
  {
    z[a] < z[b] || (z[a] == z[b] && Lower(a, b))
  }

  lemma RankIsListing(z: map<Id, int>, a: Id, b: Id)
    requires a in z && b in z
    ensures a != b && RankLe(z, a, b) <==> ListedBefore(z, a, b)
  {
    if z[a] == z[b] {
      if LexLe(a, b) && a != b {
        var k := DifferenceFromLex(a, b);
      }
      if Lower(a, b) {
        var k :| DiffersAt(a, b, k);
        LexFromDifference(a, b, k);
      }
    }
  }

  predicate IsLeast(z: map<Id, int>, m: Id) {
    m in z && forall k :: k in z ==> RankLe(z, m, k)
  }

  lemma {:induction false} LeastExists(z: map<Id, int>)
    requires z != map[]
    ensures exists m :: IsLeast(z, m)
    decreases |z|
  {
    var k :| k in z;
    LexTotal(k, k);
    var rest := z - {k};
    if rest == map[] {
      assert z.Keys == rest.Keys + {k};
      assert IsLeast(z, k);
    } else {
      assert z.Keys == rest.Keys + {k};
      LeastExists(rest);
      var m :| IsLeast(rest, m);
      LexTotal(k, m);
      if RankLe(z, m, k) {
        forall x | x in z ensures RankLe(z, m, x) {
          if x != k { assert RankLe(rest, m, x); }
        }
        assert IsLeast(z, m);
      } else {
        forall x | x in z ensures RankLe(z, k, x) {
          if x != k {
            assert RankLe(rest, m, x);
            if z[k] == z[m] == z[x] { LexTransitive(k, m, x); }
          }
        }
        assert IsLeast(z, k);
      }
    }
  }

  lemma LeastUnique(z: map<Id, int>, a: Id, b: Id)
    requires IsLeast(z, a) && IsLeast(z, b)
    ensures a == b
  {
    assert RankLe(z, a, b) && RankLe(z, b, a);
    LexAntisymmetric(a, b);
  }

  /** The member Redis lists first. */
  function Least(z: map<Id, int>): (m: Id)
    requires z != map[]
    ensures IsLeast(z, m)
  {
    LeastExists(z);
    assert forall a, b :: IsLeast(z, a) && IsLeast(z, b) ==> a == b by {
      forall a, b | IsLeast(z, a) && IsLeast(z, b) ensures a == b { LeastUnique(z, a, b); }
    }
    var m :| m in z && IsLeast(z, m);
    m
  }

  /** All members in listing order. */
  function Ranked(z: map<Id, int>): seq<Id>
    decreases |z|
  {
    if z == map[] then [] else
      var m := Least(z);
      assert (z - {m}).Keys == z.Keys - {m};
      [m] + Ranked(z - {m})
  }

  /** Strictly ascending by (score, member). */
  ghost predicate Ascending(z: map<Id, int>, s: seq<Id>) {
    && (forall x :: x in s ==> x in z)
    && forall i, j :: 0 <= i < j < |s| ==> s[i] != s[j] && RankLe(z, s[i], s[j])
  }

  lemma {:induction false} RankedMembers(z: map<Id, int>)
    ensures forall x :: x in Ranked(z) <==> x in z
    ensures |Ranked(z)| == |z|
    decreases |z|
  {
    if z != map[] {
      var m := Least(z);
      var rest := z - {m};
      assert rest.Keys == z.Keys - {m};
      RankedMembers(rest);
      assert Ranked(z) == [m] + Ranked(rest);
    }
  }

  lemma AscendingCons(z: map<Id, int>, m: Id, s: seq<Id>)
    requires IsLeast(z, m) && Ascending(z - {m}, s)
    ensures Ascending(z, [m] + s)
  {
    var r := [m] + s;
    assert forall x :: x in r ==> x in z;
    forall i, j | 0 <= i < j < |r| ensures r[i] != r[j] && RankLe(z, r[i], r[j]) {
      assert r[j] == s[j - 1] && s[j - 1] in z - {m};
      if i > 0 {
        assert r[i] == s[i - 1] && RankLe(z - {m}, s[i - 1], s[j - 1]);
      }
    }
  }

  /** Listing order is strictly ascending by (score, member). */
  lemma {:induction false} RankedAscending(z: map<Id, int>)
    ensures Ascending(z, Ranked(z))
    decreases |z|
  {
    if z != map[] {
      var m := Least(z);
      assert (z - {m}).Keys == z.Keys - {m};
      RankedAscending(z - {m});
      AscendingCons(z, m, Ranked(z - {m}));
    }
  }

  /**
   * The listing, told by its members: every member is listed, of two with different scores the lower
   * score comes first, and of two with equal scores the one whose id first differs by ending or by a
   * smaller character.
   */
  lemma RankedInOrder(z: map<Id, int>, a: Id, b: Id)
    requires a in z && b in z
    ensures z[a] < z[b] ==> Earlier(Ranked(z), a, b)
    ensures forall k: nat :: z[a] == z[b] && k <= |a| && k < |b| && a[..k] == b[..k] && (k == |a| || a[k] < b[k]) ==>
              Earlier(Ranked(z), a, b)
    ensures Earlier(Ranked(z), a, b) <==> ListedBefore(z, a, b)
  {
    var s := Ranked(z);
    RankedMembers(z);
    RankedAscending(z);
    var i :| 0 <= i < |s| && s[i] == a;
    var j :| 0 <= j < |s| && s[j] == b;
    RankIsListing(z, a, b);
    forall k: nat | k <= |a| && k < |b| && a[..k] == b[..k] && (k == |a| || a[k] < b[k]) ensures Lower(a, b) {
      assert DiffersAt(a, b, k);
    }
    if ListedBefore(z, a, b) && j < i {
      LexAntisymmetric(a, b);
    }
  }

  /** Taking the first n members out leaves exactly the rest of the listing. */
  lemma {:induction false} RankedAfter(z: map<Id, int>, n: nat)
    requires n <= |Ranked(z)|
    ensures Ranked(z - Elements(Ranked(z)[..n])) == Ranked(z)[n..]
    decreases n
  {
    var s := Ranked(z);
    if n == 0 {
      assert z - Elements(s[..n]) == z;
    } else {
      var m := Least(z);
      var rest := z - {m};
      var t := Ranked(rest);
      assert s == [m] + t;
      RankedAfter(rest, n - 1);
      assert s[..n] == [m] + t[..n - 1];
      ElementsCons(m, t[..n - 1]);
      assert z - ({m} + Elements(t[..n - 1])) == rest - Elements(t[..n - 1]);
      assert s[n..] == t[n - 1..];
    }
  }

  lemma ElementsCons(m: Id, s: seq<Id>)
    ensures Elements([m] + s) == {m} + Elements(s)
  {
  }

  function UpTo(z: map<Id, int>, now: int): map<Id, int> {
    map k | k in z && z[k] <= now :: z[k]
  }

  /** Every member with score at most `now`, in listing order. */
  function Due(z: map<Id, int>, now: int): seq<Id> {
    Ranked(UpTo(z, now))
  }

  function FirstDue(z: map<Id, int>, now: int): seq<Id> {
    Take(Due(z, now))
  }

  function Take(s: seq<Id>): seq<Id> {
    if |s| <= BATCH then s else s[..BATCH]
  }

  lemma FirstDueFacts(z: map<Id, int>, now: int)
    ensures Distinct(FirstDue(z, now))
    ensures forall x :: x in FirstDue(z, now) ==> x in z && z[x] <= now
    ensures FirstDue(z, now) == [] <==> UpTo(z, now) == map[]
  {
    RankedMembers(UpTo(z, now));
    RankedAscending(UpTo(z, now));
    assert forall x :: x in FirstDue(z, now) ==> x in Due(z, now);
  }

  /** The next batch continues where the previous one stopped. */
  lemma DueAfterBatch(z: map<Id, int>, now: int)
    ensures Due(z - Elements(FirstDue(z, now)), now) == Due(z, now)[|FirstDue(z, now)|..]
  {
    var n := |FirstDue(z, now)|;
    RankedAfter(UpTo(z, now), n);
    assert FirstDue(z, now) == Due(z, now)[..n];
    assert UpTo(z - Elements(FirstDue(z, now)), now) == UpTo(z, now) - Elements(Due(z, now)[..n]);
  }

  lemma DueFacts(z: map<Id, int>, now: int)
    ensures Distinct(Due(z, now)) && Ascending(UpTo(z, now), Due(z, now))
    ensures forall x :: x in Due(z, now) <==> x in z && z[x] <= now
  {
    RankedMembers(UpTo(z, now));
    RankedAscending(UpTo(z, now));
  }

  /** Taking listed members out shortens the set by as many. */
  lemma RemovalCount(z: map<Id, int>, ids: seq<Id>)
    requires Distinct(ids) && forall x :: x in ids ==> x in z
    ensures |z - Elements(ids)| == |z| - |ids|
  {
    ElementsCount(ids);
    assert (z - Elements(ids)).Keys == z.Keys - Elements(ids);
    assert Elements(ids) <= z.Keys;
  }

  /** As long as something is due, a batch takes something out. */
  lemma BatchShrinks(z: map<Id, int>, now: int, x: Id)
    requires x in z && z[x] <= now
    ensures |z - Elements(FirstDue(z, now))| < |z|
  {
    FirstDueFacts(z, now);
    RemovalCount(z, FirstDue(z, now));
    assert x in UpTo(z, now);
  }

  /** The members listed before `x`. */
  ghost function Ahead(z: map<Id, int>, x: Id): set<Id>
    requires x in z
  {
    set y | y in z && ListedBefore(z, y, x)
  }

  /** The position of a due member in the listing is the number of members ahead of it. */
  lemma PositionIsRank(z: map<Id, int>, now: int, k: nat)
    requires k < |Due(z, now)|
    ensures Due(z, now)[k] in z && |Ahead(z, Due(z, now)[k])| == k
  {
    var due := Due(z, now);
    DueFacts(z, now);
    var x := due[k];
    forall y ensures y in due[..k] <==> y in Ahead(z, x) {
      if y in z { RankIsListing(z, y, x); }
      if y in Ahead(z, x) {
        assert y in due;
        var j :| 0 <= j < |due| && due[j] == y;
        if j > k {
          assert RankLe(UpTo(z, now), x, y);
          LexAntisymmetric(x, y);
        }
        assert y in due[..k];
      }
    }
    assert Elements(due[..k]) == Ahead(z, x);
    ElementsCount(due[..k]);
  }

  /** A member is in the first batch exactly if it is due and fewer than a hundred members are ahead of it. */
  lemma FirstDueExactly(z: map<Id, int>, now: int, x: Id)
    requires x in z
    ensures x in FirstDue(z, now) <==> z[x] <= now && |Ahead(z, x)| < 100
  {
    var due := Due(z, now);
    DueFacts(z, now);
    if x in due {
      var k :| 0 <= k < |due| && due[k] == x;
      PositionIsRank(z, now, k);
      if x in FirstDue(z, now) {
        var j :| 0 <= j < |FirstDue(z, now)| && FirstDue(z, now)[j] == x;
        assert due[j] == due[k];
      }
      assert k < BATCH ==> FirstDue(z, now)[k] == x;
    }
  }

  /** What is due is listed in order. */
  lemma DueInOrder(z: map<Id, int>, now: int, a: Id, b: Id)
    requires a in z && z[a] <= now && b in z && z[b] <= now
    ensures Earlier(Due(z, now), a, b) <==> ListedBefore(z, a, b)
  {
    RankedInOrder(UpTo(z, now), a, b);
  }

  /** A batch is in listing order. */
  lemma FirstDueInOrder(z: map<Id, int>, now: int, a: Id, b: Id)
    requires a in FirstDue(z, now) && b in FirstDue(z, now)
    ensures a in z && b in z && (Earlier(FirstDue(z, now), a, b) <==> ListedBefore(z, a, b))
  {
    var due := Due(z, now);
    DueFacts(z, now);
    FirstDueFacts(z, now);
    DueInOrder(z, now, a, b);
    var n := |FirstDue(z, now)|;
    assert FirstDue(z, now) == due[..n];
    EarlierInFront(due, n, a, b);
  }
}
