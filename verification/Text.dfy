/** Optional values, as the source's `Option`. */
module Wrappers {
  datatype Option<+T> = None | Some(value: T)

  datatype Result<+T, +E> = Ok(value: T) | Err(error: E) {
    predicate IsFailure() {
      Err?
    }

    function PropagateFailure<U>(): Result<U, E>
      requires IsFailure()
    {
      Err(error)
    }

    function Extract(): T
      requires !IsFailure()
    {
      value
    }
  }

  /** The first of two options that holds a value. */
  function Or<T>(first: Option<T>, second: Option<T>): Option<T> {
    if first.Some? then first else second
  }
}

/**
  Text and its order. A string stands for its UTF-8 bytes, one `char` a byte, so the
  lexicographic order below is the byte order the source's ordered maps and sorts use.
*/
module Text {

  predicate Less(a: string, b: string) {
    if b == [] then false
    else if a == [] then true
    else if a[0] != b[0] then a[0] < b[0]
    else Less(a[1..], b[1..])
  }

  predicate AtMost(a: string, b: string) {
    !Less(b, a)
  }

  lemma LessIrreflexive(a: string)
    ensures !Less(a, a)
  {
  }

  lemma {:induction false} LessTransitive(a: string, b: string, c: string)
    requires Less(a, b) && Less(b, c)
    ensures Less(a, c)
  {
    if a != [] && a[0] == b[0] && b[0] == c[0] {
      LessTransitive(a[1..], b[1..], c[1..]);
    }
  }

  lemma {:induction false} LessTotal(a: string, b: string)
    ensures Less(a, b) || a == b || Less(b, a)
    ensures !(Less(a, b) && Less(b, a))
  {
    if a != [] && b != [] && a[0] == b[0] {
      LessTotal(a[1..], b[1..]);
      assert a == [a[0]] + a[1..] && b == [b[0]] + b[1..];
    }
  }

  /** `AtMost` is a total order: a chain through a non-strict step stays a chain. */
  lemma AtMostThenLess(a: string, b: string, c: string)
    requires AtMost(a, b) && Less(b, c)
    ensures Less(a, c)
  {
    LessTotal(a, b);
    if a != b {
      LessTransitive(a, b, c);
    }
  }

  lemma AtMostTransitive(a: string, b: string, c: string)
    requires AtMost(a, b) && AtMost(b, c)
    ensures AtMost(a, c)
  {
    LessTotal(b, c);
    if Less(b, c) {
      AtMostThenLess(a, b, c);
      LessTotal(a, c);
    }
  }

  // ---------- Ordered sets ----------

  ghost predicate IsLeast(x: string, s: set<string>) {
    x in s && forall y :: y in s ==> AtMost(x, y)
  }

  lemma LeastUnique(s: set<string>)
    ensures forall x, y :: IsLeast(x, s) && IsLeast(y, s) ==> x == y
  {
    forall x, y | IsLeast(x, s) && IsLeast(y, s)
      ensures x == y
    {
      LessTotal(x, y);
    }
  }

  lemma LeastExists(s: set<string>) returns (x: string)
    requires s != {}
    ensures IsLeast(x, s)
  {
    x :| x in s;
    var rest := s - {x};
    if rest == {} {
      LessIrreflexive(x);
      assert s == {x};
    } else {
      var y := LeastExists(rest);
      LessTotal(x, y);
      LessIrreflexive(x);
      if Less(y, x) {
        LessTotal(y, x);
        x := y;
      } else {
        forall z | z in s
          ensures AtMost(x, z)
        {
          if z != x {
            AtMostTransitive(x, y, z);
          }
        }
      }
    }
  }

  function Least(s: set<string>): (x: string)
    requires s != {}
    ensures IsLeast(x, s)
  {
    assert exists x :: IsLeast(x, s) by {
      var x := LeastExists(s);
    }
    LeastUnique(s);
    assert forall x :: (x in s && forall y | y in s :: AtMost(x, y)) ==> IsLeast(x, s);
    var x :| x in s && forall y | y in s :: AtMost(x, y);
    x
  }

  ghost predicate StrictlyAscending(s: seq<string>) {
    forall i, j :: 0 <= i < j < |s| ==> Less(s[i], s[j])
  }

  lemma LeastLeads(x: string, s: set<string>, rest: seq<string>)
    requires IsLeast(x, s) && StrictlyAscending(rest)
    requires forall y :: y in rest <==> y in s - {x}
    ensures StrictlyAscending([x] + rest)
    ensures forall y :: y in [x] + rest <==> y in s
  {
    forall i | 0 <= i < |rest|
      ensures Less(x, rest[i])
    {
      assert rest[i] in rest;
      LessTotal(x, rest[i]);
    }
  }

  /** The elements of an ordered set in its iteration order. */
  function Ascending(s: set<string>): (r: seq<string>)
    ensures forall x :: x in r <==> x in s
    ensures StrictlyAscending(r)
    ensures |r| == |s|
    decreases |s|
  {
    if s == {} then []
    else
      var x := Least(s);
      var rest := Ascending(s - {x});
      LeastLeads(x, s, rest);
      [x] + rest
  }

  lemma DistinctWhenAscending(s: seq<string>)
    requires StrictlyAscending(s)
    ensures forall i, j :: 0 <= i < j < |s| ==> s[i] != s[j]
  {
    forall i, j | 0 <= i < j < |s|
      ensures s[i] != s[j]
    {
      LessIrreflexive(s[i]);
    }
  }

  // ---------- Sorting by a key ----------

  function InsertBy<T(!new)>(key: T -> string, x: T, sorted: seq<T>): seq<T> {
    if sorted == [] || AtMost(key(x), key(sorted[0])) then [x] + sorted
    else [sorted[0]] + InsertBy(key, x, sorted[1..])
  }

  /** The stable sort by `key`: elements of equal key keep their order. */
  function SortBy<T(!new)>(key: T -> string, s: seq<T>): seq<T> {
    if s == [] then [] else InsertBy(key, s[0], SortBy(key, s[1..]))
  }

  /** Collapses every run of equal keys to its first element. */
  function DedupBy<T(!new)>(key: T -> string, s: seq<T>): seq<T>
    decreases |s|
  {
    if |s| < 2 then s
    else if key(s[0]) == key(s[1]) then DedupBy(key, [s[0]] + s[2..])
    else [s[0]] + DedupBy(key, s[1..])
  }

  ghost predicate SortedBy<T(!new)>(key: T -> string, s: seq<T>) {
    forall i, j :: 0 <= i < j < |s| ==> AtMost(key(s[i]), key(s[j]))
  }

  ghost predicate StrictlyBy<T(!new)>(key: T -> string, s: seq<T>) {
    forall i, j :: 0 <= i < j < |s| ==> Less(key(s[i]), key(s[j]))
  }

  ghost predicate DistinctBy<T(!new)>(key: T -> string, s: seq<T>) {
    forall i, j :: 0 <= i < j < |s| ==> key(s[i]) != key(s[j])
  }

  ghost predicate HasKey<T(!new)>(key: T -> string, s: seq<T>, k: string) {
    exists i :: 0 <= i < |s| && key(s[i]) == k
  }

  ghost predicate SameMembers<T(!new)>(a: seq<T>, b: seq<T>) {
    forall x :: x in a <==> x in b
  }

  lemma {:induction false} InsertByMembers<T(!new)>(key: T -> string, x: T, s: seq<T>)
    ensures |InsertBy(key, x, s)| == |s| + 1
    ensures forall y :: y in InsertBy(key, x, s) <==> y == x || y in s
  {
    if s != [] {
      assert s == [s[0]] + s[1..];
      InsertByMembers(key, x, s[1..]);
    }
  }

  lemma {:induction false} InsertBySorts<T(!new)>(key: T -> string, x: T, s: seq<T>)
    requires SortedBy(key, s)
    ensures SortedBy(key, InsertBy(key, x, s))
  {
    LessIrreflexive(key(x));
    if s != [] {
      var tail := s[1..];
      if AtMost(key(x), key(s[0])) {
        forall j | 0 <= j < |s|
          ensures AtMost(key(x), key(s[j]))
        {
          LessIrreflexive(key(s[0]));
          AtMostTransitive(key(x), key(s[0]), key(s[j]));
        }
      } else {
        InsertBySorts(key, x, tail);
        InsertByMembers(key, x, tail);
        var r := InsertBy(key, x, tail);
        forall j | 0 <= j < |r|
          ensures AtMost(key(s[0]), key(r[j]))
        {
          assert r[j] in r;
          LessTotal(key(x), key(s[0]));
          if r[j] != x {
            assert r[j] in tail;
            var m :| 0 <= m < |tail| && tail[m] == r[j];
            assert s[m + 1] == r[j];
          }
        }
      }
    }
  }

  lemma {:induction false} SortBySorts<T(!new)>(key: T -> string, s: seq<T>)
    ensures SortedBy(key, SortBy(key, s))
    ensures |SortBy(key, s)| == |s|
    ensures forall x :: x in SortBy(key, s) <==> x in s
  {
    if s != [] {
      assert s == [s[0]] + s[1..];
      SortBySorts(key, s[1..]);
      InsertBySorts(key, s[0], SortBy(key, s[1..]));
      InsertByMembers(key, s[0], SortBy(key, s[1..]));
    }
  }

  lemma {:induction false} InsertByDistinct<T(!new)>(key: T -> string, x: T, s: seq<T>)
    requires DistinctBy(key, s)
    requires forall y :: y in s ==> key(y) != key(x)
    ensures DistinctBy(key, InsertBy(key, x, s))
  {
    if s != [] && !AtMost(key(x), key(s[0])) {
      InsertByDistinct(key, x, s[1..]);
      InsertByMembers(key, x, s[1..]);
      var r := InsertBy(key, x, s[1..]);
      forall j | 0 <= j < |r|
        ensures key(r[j]) != key(s[0])
      {
        assert r[j] in r;
        if r[j] != x {
          assert r[j] in s[1..];
          var m :| 0 <= m < |s[1..]| && s[1..][m] == r[j];
          assert s[m + 1] == r[j];
        }
      }
    }
  }

  lemma {:induction false} SortByDistinct<T(!new)>(key: T -> string, s: seq<T>)
    requires DistinctBy(key, s)
    ensures DistinctBy(key, SortBy(key, s))
  {
    if s != [] {
      SortByDistinct(key, s[1..]);
      SortBySorts(key, s[1..]);
      forall y | y in SortBy(key, s[1..])
        ensures key(y) != key(s[0])
      {
        assert y in s[1..];
        var m :| 0 <= m < |s[1..]| && s[1..][m] == y;
        assert s[m + 1] == y;
      }
      InsertByDistinct(key, s[0], SortBy(key, s[1..]));
    }
  }

  lemma SortBySortsStrictly<T(!new)>(key: T -> string, s: seq<T>)
    requires DistinctBy(key, s)
    ensures StrictlyBy(key, SortBy(key, s))
  {
    SortBySorts(key, s);
    SortByDistinct(key, s);
    var r := SortBy(key, s);
    forall i, j | 0 <= i < j < |r|
      ensures Less(key(r[i]), key(r[j]))
    {
      LessTotal(key(r[i]), key(r[j]));
    }
  }

  /** A strictly sorted sequence is a function of the elements it holds. */
  lemma {:induction false} StrictlySortedUnique<T(!new)>(key: T -> string, a: seq<T>, b: seq<T>)
    requires StrictlyBy(key, a) && StrictlyBy(key, b)
    requires SameMembers(a, b)
    ensures a == b
  {
    assert a != [] ==> a[0] in b;
    assert b != [] ==> b[0] in a;
    if a != [] {
      var i :| 0 <= i < |b| && b[i] == a[0];
      var j :| 0 <= j < |a| && a[j] == b[0];
      LessTotal(key(a[0]), key(b[0]));
      assert a[0] == b[0];
      forall x
        ensures x in a[1..] <==> x in b[1..]
      {
        LessIrreflexive(key(a[0]));
        assert x in a <==> x == a[0] || x in a[1..];
        assert x in b <==> x == b[0] || x in b[1..];
        assert a[0] !in a[1..] && b[0] !in b[1..];
      }
      StrictlySortedUnique(key, a[1..], b[1..]);
      assert a == [a[0]] + a[1..] && b == [b[0]] + b[1..];
    }
  }

  /** Sorting forgets the order its input came in, once keys are distinct. */
  lemma SortByForgetsOrder<T(!new)>(key: T -> string, a: seq<T>, b: seq<T>)
    requires DistinctBy(key, a) && DistinctBy(key, b) && SameMembers(a, b)
    ensures SortBy(key, a) == SortBy(key, b)
  {
    SortBySortsStrictly(key, a);
    SortBySortsStrictly(key, b);
    SortBySorts(key, a);
    SortBySorts(key, b);
    StrictlySortedUnique(key, SortBy(key, a), SortBy(key, b));
  }

  lemma {:induction false} DedupByKeepsStrict<T(!new)>(key: T -> string, s: seq<T>)
    requires StrictlyBy(key, s)
    ensures DedupBy(key, s) == s
  {
    if |s| >= 2 {
      LessIrreflexive(key(s[0]));
      DedupByKeepsStrict(key, s[1..]);
      assert s == [s[0]] + s[1..];
    }
  }

  /** A sorted sequence collapses to one element for each key it holds. */
  lemma {:induction false} DedupByKeys<T(!new)>(key: T -> string, s: seq<T>)
    requires SortedBy(key, s)
    ensures s != [] ==> DedupBy(key, s) != [] && DedupBy(key, s)[0] == s[0]
    ensures StrictlyBy(key, DedupBy(key, s))
    ensures forall x :: x in DedupBy(key, s) ==> x in s
    decreases |s|
  {
    if |s| >= 2 {
      var t := if key(s[0]) == key(s[1]) then [s[0]] + s[2..] else s[1..];
      DedupByKeys(key, t);
      if key(s[0]) != key(s[1]) {
        var r := DedupBy(key, t);
        forall i | 0 <= i < |r|
          ensures Less(key(s[0]), key(r[i]))
        {
          LessTotal(key(s[0]), key(s[1]));
          if i > 0 {
            LessTransitive(key(s[0]), key(s[1]), key(r[i]));
          }
        }
      }
    }
  }

  lemma {:induction false} DedupByCovers<T(!new)>(key: T -> string, s: seq<T>, k: string)
    ensures HasKey(key, DedupBy(key, s), k) <==> HasKey(key, s, k)
    decreases |s|
  {
    if |s| >= 2 {
      var t := if key(s[0]) == key(s[1]) then [s[0]] + s[2..] else s[1..];
      DedupByCovers(key, t, k);
      if HasKey(key, s, k) {
        var i :| 0 <= i < |s| && key(s[i]) == k;
        if key(s[0]) == key(s[1]) {
          assert key(t[if i == 0 then 0 else i - 1]) == k;
        } else {
          if i > 0 {
            assert key(t[i - 1]) == k;
            var j :| 0 <= j < |DedupBy(key, t)| && key(DedupBy(key, t)[j]) == k;
            assert DedupBy(key, s)[j + 1] == DedupBy(key, t)[j];
          } else {
            assert DedupBy(key, s)[0] == s[0];
          }
        }
      }
      if HasKey(key, DedupBy(key, s), k) {
        var i :| 0 <= i < |DedupBy(key, s)| && key(DedupBy(key, s)[i]) == k;
        if key(s[0]) == key(s[1]) {
          var j :| 0 <= j < |t| && key(t[j]) == k;
          assert key(s[if j == 0 then 0 else j + 1]) == k;
        } else if i > 0 {
          assert key(DedupBy(key, t)[i - 1]) == k;
          var j :| 0 <= j < |t| && key(t[j]) == k;
          assert key(s[j + 1]) == k;
        }
      }
    }
  }

  // ---------- Filtering ----------

  function Filter<T(!new)>(p: T -> bool, s: seq<T>): (r: seq<T>)
    ensures forall x :: x in r <==> x in s && p(x)
  {
    if s == [] then []
    else if p(s[0]) then [s[0]] + Filter(p, s[1..])
    else Filter(p, s[1..])
  }
}
