/** The stable sort of a list under a comparison, as section 23.1.3.30 of ECMA-262 defines it for a
  * consistent comparator, and what makes its result canonical. */
module Sorting {

  ghost predicate TotalPreorder<T(!new)>(atMost: (T, T) -> bool) {
    && (forall a, b :: atMost(a, b) || atMost(b, a))
    && (forall a, b, c :: atMost(a, b) && atMost(b, c) ==> atMost(a, c))
  }

  ghost predicate Sorted<T>(atMost: (T, T) -> bool, s: seq<T>) {
    forall i, j :: 0 <= i < j < |s| ==> atMost(s[i], s[j])
  }

  // No two different elements of the list tie.
  ghost predicate NoTies<T(!new)>(atMost: (T, T) -> bool, s: seq<T>) {
    forall a, b :: a in s && b in s && atMost(a, b) && atMost(b, a) ==> a == b
  }

  function Insert<T>(atMost: (T, T) -> bool, x: T, s: seq<T>): seq<T> {
    if s == [] || atMost(x, s[0]) then [x] + s else [s[0]] + Insert(atMost, x, s[1..])
  }

  function Sort<T>(atMost: (T, T) -> bool, s: seq<T>): seq<T> {
    if s == [] then [] else Insert(atMost, s[0], Sort(atMost, s[1..]))
  }

  lemma {:induction false} InsertSorts<T(!new)>(atMost: (T, T) -> bool, x: T, s: seq<T>)
    requires TotalPreorder(atMost) && Sorted(atMost, s)
    ensures Sorted(atMost, Insert(atMost, x, s))
    ensures multiset(Insert(atMost, x, s)) == multiset(s) + multiset{x}
  {
    if s != [] && !atMost(x, s[0]) {
      assert s == [s[0]] + s[1..];
      InsertSorts(atMost, x, s[1..]);
      var rest := Insert(atMost, x, s[1..]);
      forall j | 0 <= j < |rest| ensures atMost(s[0], rest[j]) {
        assert rest[j] in multiset(rest);
        if rest[j] != x { assert rest[j] in s[1..]; }
      }
    }
  }

  lemma {:induction false} SortSorts<T(!new)>(atMost: (T, T) -> bool, s: seq<T>)
    requires TotalPreorder(atMost)
    ensures Sorted(atMost, Sort(atMost, s)) && multiset(Sort(atMost, s)) == multiset(s)
    ensures |Sort(atMost, s)| == |s|
  {
    if s != [] {
      assert s == [s[0]] + s[1..];
      SortSorts(atMost, s[1..]);
      InsertSorts(atMost, s[0], Sort(atMost, s[1..]));
    }
    assert |multiset(Sort(atMost, s))| == |multiset(s)|;
  }

  lemma SameElements<T>(s: seq<T>, t: seq<T>, x: T)
    requires multiset(s) == multiset(t) && x in s
    ensures x in t
  {
    assert x in multiset(s);
  }

  // The first element of a sorted list is at most every element.
  lemma FirstIsLeast<T(!new)>(atMost: (T, T) -> bool, s: seq<T>, x: T)
    requires TotalPreorder(atMost) && Sorted(atMost, s) && x in s
    ensures atMost(s[0], x)
  {
    var i :| 0 <= i < |s| && s[i] == x;
    assert atMost(s[0], s[0]);
  }

  lemma SameTails<T>(s: seq<T>, t: seq<T>)
    requires s != [] && t != [] && s[0] == t[0] && multiset(s) == multiset(t)
    ensures multiset(s[1..]) == multiset(t[1..])
    ensures s[1..] == t[1..] ==> s == t
  {
    assert s == [s[0]] + s[1..] && t == [t[0]] + t[1..];
    assert multiset(s[1..]) == multiset(s) - multiset{s[0]};
  }

  // Sorted lists of the same elements, none of them tied, are the same list.
  lemma {:induction false} SortedIsCanonical<T(!new)>(atMost: (T, T) -> bool, s: seq<T>, t: seq<T>)
    requires TotalPreorder(atMost) && NoTies(atMost, s)
    requires Sorted(atMost, s) && Sorted(atMost, t) && multiset(s) == multiset(t)
    ensures s == t
  {
    assert |multiset(t)| == |multiset(s)|;
    if s != [] {
      SameElements(s, t, s[0]);
      SameElements(t, s, t[0]);
      FirstIsLeast(atMost, s, t[0]);
      FirstIsLeast(atMost, t, s[0]);
      SameTails(s, t);
      SortedIsCanonical(atMost, s[1..], t[1..]);
    }
  }

  // Without ties, two lists sort to the same list exactly when each rearranges the other.
  lemma SortAgrees<T(!new)>(atMost: (T, T) -> bool, s: seq<T>, t: seq<T>)
    requires TotalPreorder(atMost) && NoTies(atMost, s)
    ensures Sort(atMost, s) == Sort(atMost, t) <==> multiset(s) == multiset(t)
  {
    SortSorts(atMost, s);
    SortSorts(atMost, t);
    if multiset(s) == multiset(t) {
      forall x | x in Sort(atMost, s) ensures x in s { SameElements(Sort(atMost, s), s, x); }
      SortedIsCanonical(atMost, Sort(atMost, s), Sort(atMost, t));
    }
  }

  // The elements that tie with x, in order.
  function Ties<T>(atMost: (T, T) -> bool, x: T, s: seq<T>): seq<T> {
    if s == [] then []
    else (if atMost(x, s[0]) && atMost(s[0], x) then [s[0]] else []) + Ties(atMost, x, s[1..])
  }

  lemma {:induction false} InsertIsStable<T(!new)>(atMost: (T, T) -> bool, x: T, y: T, s: seq<T>)
    requires TotalPreorder(atMost)
    ensures Ties(atMost, y, Insert(atMost, x, s)) == Ties(atMost, y, [x] + s)
  {
    assert ([x] + s)[1..] == s;
    if s != [] && !atMost(x, s[0]) {
      InsertIsStable(atMost, x, y, s[1..]);
      assert ([s[0]] + Insert(atMost, x, s[1..]))[1..] == Insert(atMost, x, s[1..]);
      assert ([x] + s[1..])[1..] == s[1..];
    }
  }

  // Tied elements keep the order they came in.
  lemma {:induction false} SortIsStable<T(!new)>(atMost: (T, T) -> bool, y: T, s: seq<T>)
    requires TotalPreorder(atMost)
    ensures Ties(atMost, y, Sort(atMost, s)) == Ties(atMost, y, s)
  {
    if s != [] {
      var rest := Sort(atMost, s[1..]);
      SortIsStable(atMost, y, s[1..]);
      InsertIsStable(atMost, s[0], y, rest);
      assert ([s[0]] + rest)[1..] == rest;
    }
  }
}
