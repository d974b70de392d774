/**
 * Sequence helpers for the server's ordered collections: a Python list of
 * connections, and the insertion order of a Python dict's keys.
 */
module Lists {

  /** No element occurs twice. */
  ghost predicate Distinct<T>(s: seq<T>)
  {
    s == [] || (s[0] !in s[1..] && Distinct(s[1..]))
  }

  /** Putting a new element in front of a list without duplicates. */
  lemma DistinctCons<T>(x: T, s: seq<T>)
    requires x !in s && Distinct(s)
    ensures Distinct([x] + s)
  {
    assert ([x] + s)[1..] == s;
  }

  /**
   * The elements of `s` that are in `live`, in their original order. This is
   * what is left of an insertion-ordered dict's key order, or of a member
   * list, once the entries outside `live` have been deleted.
   */
  function Keep<T(==,!new)>(s: seq<T>, live: set<T>): (r: seq<T>)
    ensures forall e {:trigger e in r} :: e in r <==> e in s && e in live
    ensures |r| <= |s|
  {
    if s == [] then []
    else (if s[0] in live then [s[0]] else []) + Keep(s[1..], live)
  }

  /** Python's `list.remove(x)`: drops the first occurrence of `x`. */
  function RemoveFirst<T(==,!new)>(s: seq<T>, x: T): (r: seq<T>)
    ensures x in s ==> |r| == |s| - 1
    ensures x !in s ==> r == s
    ensures forall e {:trigger e in r} :: e in r ==> e in s
  {
    if s == [] then []
    else
      assert s == [s[0]] + s[1..];
      if s[0] == x then s[1..] else [s[0]] + RemoveFirst(s[1..], x)
  }

  /** `list.remove(x)` takes away exactly one occurrence of `x` and nothing else. */
  lemma {:induction false} RemoveFirstMultiset<T(!new)>(s: seq<T>, x: T)
    ensures multiset(RemoveFirst(s, x)) == multiset(s) - multiset{x}
  {
    if s != [] {
      assert s == [s[0]] + s[1..];
      if s[0] != x {
        RemoveFirstMultiset(s[1..], x);
        assert RemoveFirst(s, x) == [s[0]] + RemoveFirst(s[1..], x);
      }
    }
  }

  lemma {:induction false} KeepAppend<T(!new)>(s: seq<T>, t: seq<T>, live: set<T>)
    ensures Keep(s + t, live) == Keep(s, live) + Keep(t, live)
  {
    if s == [] {
      assert s + t == t;
    } else {
      var head := if s[0] in live then [s[0]] else [];
      assert (s + t)[0] == s[0];
      assert (s + t)[1..] == s[1..] + t;
      KeepAppend(s[1..], t, live);
      calc {
        Keep(s + t, live);
        head + Keep(s[1..] + t, live);
        head + (Keep(s[1..], live) + Keep(t, live));
        (head + Keep(s[1..], live)) + Keep(t, live);
        Keep(s, live) + Keep(t, live);
      }
    }
  }

  /** Filtering twice is filtering once by the intersection. */
  lemma {:induction false} KeepKeep<T(!new)>(s: seq<T>, a: set<T>, b: set<T>)
    ensures Keep(Keep(s, a), b) == Keep(s, a * b)
  {
    if s != [] {
      var head := if s[0] in a then [s[0]] else [];
      KeepAppend(head, Keep(s[1..], a), b);
      KeepKeep(s[1..], a, b);
    }
  }

  /** Filtering by a set that holds every element changes nothing. */
  lemma {:induction false} KeepAll<T(!new)>(s: seq<T>, live: set<T>)
    requires forall e :: e in s ==> e in live
    ensures Keep(s, live) == s
  {
    if s != [] {
      KeepAll(s[1..], live);
    }
  }

  /** The tail of a list without duplicates has none and lacks the head. */
  lemma DistinctTail<T>(s: seq<T>)
    requires Distinct(s) && s != []
    ensures Distinct(s[1..]) && s[0] !in s[1..]
  {
  }

  /** Filtering never adds occurrences. */
  lemma {:induction false} KeepMultiset<T(!new)>(s: seq<T>, live: set<T>)
    ensures multiset(Keep(s, live)) <= multiset(s)
  {
    if s != [] {
      KeepMultiset(s[1..], live);
      assert s == [s[0]] + s[1..];
    }
  }

  lemma {:induction false} KeepDistinct<T(!new)>(s: seq<T>, live: set<T>)
    requires Distinct(s)
    ensures Distinct(Keep(s, live))
  {
    if s != [] {
      KeepDistinct(s[1..], live);
      if s[0] in live {
        DistinctCons(s[0], Keep(s[1..], live));
      } else {
        assert Keep(s, live) == Keep(s[1..], live);
      }
    }
  }

  /** `list.append(x)` of a new element keeps a list free of duplicates. */
  lemma {:induction false} DistinctAppend<T>(s: seq<T>, x: T)
    requires Distinct(s) && x !in s
    ensures Distinct(s + [x])
  {
    if s == [] {
      assert s + [x] == [x];
      DistinctCons(x, []);
      assert [x] + [] == [x];
    } else {
      DistinctAppend(s[1..], x);
      assert s + [x] == [s[0]] + (s[1..] + [x]);
      DistinctCons(s[0], s[1..] + [x]);
    }
  }

  /**
   * On a list without duplicates, `list.remove(x)` is the same as keeping
   * every other element.
   */
  lemma {:induction false} RemoveFirstIsKeep<T(!new)>(s: seq<T>, x: T, live: set<T>)
    requires Distinct(s)
    requires x !in live
    requires forall e :: e in s && e != x ==> e in live
    ensures RemoveFirst(s, x) == Keep(s, live)
  {
    if s != [] {
      DistinctTail(s);
      if s[0] == x {
        KeepAll(s[1..], live);
      } else {
        RemoveFirstIsKeep(s[1..], x, live);
      }
    }
  }

  lemma {:induction false} RemoveFirstDistinct<T(!new)>(s: seq<T>, x: T)
    requires Distinct(s)
    ensures Distinct(RemoveFirst(s, x)) && x !in RemoveFirst(s, x)
  {
    if s != [] && s[0] != x {
      RemoveFirstDistinct(s[1..], x);
      DistinctCons(s[0], RemoveFirst(s[1..], x));
    }
  }

  /** In a list without duplicates a member occurs exactly once. */
  lemma {:induction false} DistinctOnce<T>(s: seq<T>, x: T)
    requires Distinct(s) && x in s
    ensures multiset(s)[x] == 1
  {
    assert s == [s[0]] + s[1..];
    if s[0] == x {
      assert multiset(s[1..])[x] == 0;
    } else {
      DistinctOnce(s[1..], x);
    }
  }

  lemma SubsetCard<T>(a: set<T>, b: set<T>)
    requires a <= b
    ensures |a| <= |b|
  {
    assert b * a == a;
    assert |b - a| == |b| - |a|;
  }

  /** `b` is `a` followed by zero or more further elements. */
  ghost predicate Extends<T(!new)>(a: seq<T>, b: seq<T>)
  {
    exists more :: b == a + more
  }

  lemma ExtendsRefl<T(!new)>(a: seq<T>)
    ensures Extends(a, a)
  {
    assert a == a + [];
  }

  lemma ExtendsTrans<T(!new)>(a: seq<T>, b: seq<T>, c: seq<T>)
    requires Extends(a, b) && Extends(b, c)
    ensures Extends(a, c)
  {
    var m1 :| b == a + m1;
    var m2 :| c == b + m2;
    assert c == a + (m1 + m2);
  }

  lemma ExtendsPart<T(!new)>(a: seq<T>, m: seq<T>, c: seq<T>)
    requires Extends(a + m, c)
    ensures Extends(a, c)
  {
    var m2 :| c == (a + m) + m2;
    assert c == a + (m + m2);
  }

  lemma ExtendsMember<T(!new)>(a: seq<T>, c: seq<T>, x: T)
    requires Extends(a, c) && x in a
    ensures x in c
  {
    var m :| c == a + m;
  }


}
