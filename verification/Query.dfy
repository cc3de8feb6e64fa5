/** WHERE, ORDER BY, SKIP and TAKE as the repositories use them. */
module Query {
  /** The row ids below n that satisfy p, ascending. */
  function Select(n: nat, p: nat -> bool): seq<nat>
    decreases n
  {
    if n == 0 then [] else Select(n - 1, p) + (if p(n - 1) then [n - 1] else [])
  }

  function Insert<T>(x: T, s: seq<T>, before: (T, T) -> bool): seq<T>
    decreases |s|
  {
    if |s| == 0 then [x]
    else if before(x, s[0]) then [x] + s
    else [s[0]] + Insert(x, s[1..], before)
  }

  function OrderBy<T>(s: seq<T>, before: (T, T) -> bool): seq<T>
    decreases |s|
  {
    if |s| == 0 then [] else Insert(s[0], OrderBy(s[1..], before), before)
  }

  function Take<T>(s: seq<T>, n: nat): seq<T> {
    if |s| <= n then s else s[..n]
  }

  function Skip<T>(s: seq<T>, n: nat): seq<T> {
    if |s| <= n then [] else s[n..]
  }

  ghost predicate NoRepeats<T>(s: seq<T>) {
    forall i, j :: 0 <= i < j < |s| ==> s[i] != s[j]
  }

  ghost predicate Ordered<T>(s: seq<T>, before: (T, T) -> bool) {
    forall i, j :: 0 <= i < j < |s| ==> before(s[i], s[j])
  }

  /** On the members of s, any two compare and comparisons chain. */
  ghost predicate Comparable<T>(s: seq<T>, before: (T, T) -> bool) {
    && (forall x, y :: x in s && y in s ==> before(x, y) || before(y, x))
    && (forall x, y, z :: x in s && y in s && z in s && before(x, y) && before(y, z) ==> before(x, z))
  }

  lemma {:induction false} SelectIsExact(n: nat, p: nat -> bool)
    ensures forall i: nat :: i in Select(n, p) <==> i < n && p(i)
    ensures NoRepeats(Select(n, p))
    decreases n
  {
    if n > 0 {
      SelectIsExact(n - 1, p);
      var front := Select(n - 1, p);
      assert forall i :: 0 <= i < |front| ==> front[i] in front;
    }
  }

  lemma {:induction false} InsertPermutes<T(!new)>(x: T, s: seq<T>, before: (T, T) -> bool)
    ensures multiset(Insert(x, s, before)) == multiset{x} + multiset(s)
    decreases |s|
  {
    if |s| > 0 {
      assert s == [s[0]] + s[1..];
      if !before(x, s[0]) { InsertPermutes(x, s[1..], before); }
    }
  }

  lemma {:induction false} OrderByPermutes<T(!new)>(s: seq<T>, before: (T, T) -> bool)
    ensures multiset(OrderBy(s, before)) == multiset(s)
    ensures |OrderBy(s, before)| == |s|
    decreases |s|
  {
    if |s| > 0 {
      assert s == [s[0]] + s[1..];
      OrderByPermutes(s[1..], before);
      InsertPermutes(s[0], OrderBy(s[1..], before), before);
      assert |multiset(OrderBy(s, before))| == |multiset(s)|;
    }
  }

  lemma {:induction false} FewerStayComparable<T(!new)>(s: seq<T>, fewer: seq<T>, before: (T, T) -> bool)
    requires Comparable(s, before) && forall x :: x in fewer ==> x in s
    ensures Comparable(fewer, before)
  {
  }

  lemma {:induction false} InsertKeepsOrder<T(!new)>(x: T, s: seq<T>, before: (T, T) -> bool)
    requires Comparable([x] + s, before) && Ordered(s, before)
    ensures Ordered(Insert(x, s, before), before)
    decreases |s|
  {
    if |s| > 0 {
      if before(x, s[0]) {
        forall i | 0 <= i < |s| ensures before(x, s[i]) {
          assert x in [x] + s && s[0] in [x] + s && s[i] in [x] + s;
        }
      } else {
        assert x in [x] + s && s[0] in [x] + s;
        var rest := Insert(x, s[1..], before);
        FewerStayComparable([x] + s, [x] + s[1..], before);
        InsertKeepsOrder(x, s[1..], before);
        InsertPermutes(x, s[1..], before);
        forall i | 0 <= i < |rest| ensures before(s[0], rest[i]) {
          assert rest[i] in multiset(rest);
          assert rest[i] == x || rest[i] in s[1..];
        }
      }
    }
  }

  lemma {:induction false} OrderBySorts<T(!new)>(s: seq<T>, before: (T, T) -> bool)
    requires Comparable(s, before)
    ensures Ordered(OrderBy(s, before), before)
    decreases |s|
  {
    if |s| > 0 {
      var rest := OrderBy(s[1..], before);
      FewerStayComparable(s, s[1..], before);
      OrderBySorts(s[1..], before);
      OrderByKeepsMembers(s[1..], before);
      forall y | y in [s[0]] + rest ensures y in s {
        assert y == s[0] || y in rest;
        assert y in rest ==> y in s[1..];
      }
      FewerStayComparable(s, [s[0]] + rest, before);
      InsertKeepsOrder(s[0], rest, before);
    }
  }

  /** A selection is ascending. */
  lemma {:induction false} SelectAscends(n: nat, p: nat -> bool)
    ensures forall i, j :: 0 <= i < j < |Select(n, p)| ==> Select(n, p)[i] < Select(n, p)[j]
    decreases n
  {
    if n > 0 {
      SelectAscends(n - 1, p);
      SelectIsExact(n - 1, p);
      var front := Select(n - 1, p);
      assert forall i :: 0 <= i < |front| ==> front[i] in front;
    }
  }

  lemma {:induction false} NoRepeatsIsMultiplicityOne<T>(s: seq<T>)
    ensures NoRepeats(s) <==> forall x :: x in s ==> multiset(s)[x] == 1
    decreases |s|
  {
    if |s| > 0 {
      var front, last := s[..|s| - 1], s[|s| - 1];
      assert s == front + [last];
      NoRepeatsIsMultiplicityOne(front);
      if NoRepeats(s) {
        assert NoRepeats(front);
        forall x | x in s ensures multiset(s)[x] == 1 {
          if x == last {
            assert x !in front;
            assert x !in multiset(front);
          }
        }
      }
      if forall x :: x in s ==> multiset(s)[x] == 1 {
        assert last in s && multiset(s)[last] == 1;
        assert last !in multiset(front);
        assert last !in front;
        forall x | x in front ensures multiset(front)[x] == 1 {
          assert x in s && x in multiset(front);
        }
      }
    }
  }

  /** Ordering keeps the members and introduces no repeats. */
  lemma {:induction false} OrderByKeepsMembers<T(!new)>(s: seq<T>, before: (T, T) -> bool)
    ensures forall x :: x in OrderBy(s, before) <==> x in s
    ensures NoRepeats(s) ==> NoRepeats(OrderBy(s, before))
  {
    OrderByPermutes(s, before);
    var o := OrderBy(s, before);
    forall x ensures x in o <==> x in s {
      assert x in o <==> x in multiset(o);
      assert x in s <==> x in multiset(s);
    }
    if NoRepeats(s) {
      NoRepeatsIsMultiplicityOne(s);
      NoRepeatsIsMultiplicityOne(o);
    }
  }
}
