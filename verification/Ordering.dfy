/** Go's order on strings, and what sorting by a string key does to a list
    whatever the algorithm: the result is in order and is a permutation. */
module Ordering {

  predicate AtMost(a: string, b: string) {
    a == "" || (b != "" && (a[0] < b[0] || (a[0] == b[0] && AtMost(a[1..], b[1..]))))
  }

  lemma Total(a: string, b: string)
    ensures AtMost(a, b) || AtMost(b, a)
  {
  }

  lemma {:induction false} Transitive(a: string, b: string, c: string)
    requires AtMost(a, b) && AtMost(b, c)
    ensures AtMost(a, c)
  {
    if a != "" && a[0] == b[0] && b[0] == c[0] {
      Transitive(a[1..], b[1..], c[1..]);
    }
  }

  lemma {:induction false} Antisymmetric(a: string, b: string)
    requires AtMost(a, b) && AtMost(b, a)
    ensures a == b
  {
    if a != "" {
      Antisymmetric(a[1..], b[1..]);
      assert a == [a[0]] + a[1..] && b == [b[0]] + b[1..];
    }
  }

  predicate SortedBy<T>(s: seq<T>, key: T -> string) {
    forall i, j | 0 <= i < j < |s| :: AtMost(key(s[i]), key(s[j]))
  }

  function Keys<T>(s: seq<T>, key: T -> string): seq<string> {
    seq(|s|, i requires 0 <= i < |s| => key(s[i]))
  }

  predicate InOrder(s: seq<string>) {
    forall i, j | 0 <= i < j < |s| :: AtMost(s[i], s[j])
  }

  function Without<T>(s: seq<T>, i: nat): seq<T>
    requires i < |s|
  {
    s[..i] + s[i + 1..]
  }

  lemma Taken<T>(s: seq<T>, i: nat)
    requires i < |s|
    ensures multiset(Without(s, i)) + multiset{s[i]} == multiset(s)
  {
    assert s == s[..i] + [s[i]] + s[i + 1..];
  }

  lemma SameRest<T>(a: seq<T>, i: nat, b: seq<T>, j: nat)
    requires i < |a| && j < |b| && a[i] == b[j] && multiset(a) == multiset(b)
    ensures multiset(Without(a, i)) == multiset(Without(b, j))
  {
    Taken(a, i);
    Taken(b, j);
    assert multiset(Without(a, i)) == multiset(a) - multiset{a[i]};
    assert multiset(Without(b, j)) == multiset(b) - multiset{b[j]};
  }

  lemma SameFirst(a: seq<string>, b: seq<string>)
    requires InOrder(a) && InOrder(b) && multiset(a) == multiset(b) && a != [] && b != []
    ensures a[0] == b[0]
  {
    assert a[0] in multiset(b) && b[0] in multiset(a);
    FirstIsLeast(a, b[0]);
    FirstIsLeast(b, a[0]);
    Antisymmetric(a[0], b[0]);
  }

  lemma SameLength<T>(a: seq<T>, b: seq<T>)
    requires multiset(a) == multiset(b)
    ensures |a| == |b|
  {
    assert |a| == |multiset(a)| && |b| == |multiset(b)|;
  }

  /** A list holds one order only: two sorted lists with the same elements are equal. */
  lemma {:induction false} OneOrder(a: seq<string>, b: seq<string>)
    requires InOrder(a) && InOrder(b) && multiset(a) == multiset(b)
    ensures a == b
    decreases |a|
  {
    SameLength(a, b);
    if a != [] {
      SameFirst(a, b);
      SameRest(a, 0, b, 0);
      OneOrder(Without(a, 0), Without(b, 0));
      assert a == [a[0]] + Without(a, 0) && b == [b[0]] + Without(b, 0);
    }
  }

  lemma FirstIsLeast(s: seq<string>, x: string)
    requires InOrder(s) && x in s
    ensures AtMost(s[0], x)
  {
    Total(x, x);
  }

  lemma KeysWithout<T>(s: seq<T>, i: nat, key: T -> string)
    requires i < |s|
    ensures multiset(Keys(Without(s, i), key)) + multiset{key(s[i])} == multiset(Keys(s, key))
  {
    var ks := Keys(s, key);
    assert Keys(Without(s, i), key) == Without(ks, i);
    Taken(ks, i);
  }

  /** Lists with the same elements have the same keys, as often. */
  lemma {:induction false} SameKeys<T>(a: seq<T>, b: seq<T>, key: T -> string)
    requires multiset(a) == multiset(b)
    ensures multiset(Keys(a, key)) == multiset(Keys(b, key))
    decreases |a|
  {
    SameLength(a, b);
    if a != [] {
      assert a[0] in multiset(b);
      var i :| 0 <= i < |b| && b[i] == a[0];
      SameRest(a, 0, b, i);
      SameKeys(Without(a, 0), Without(b, i), key);
      KeysWithout(a, 0, key);
      KeysWithout(b, i, key);
    }
  }

  /** However ties fall, sorting the same elements gives the same list of keys. */
  lemma SortsAgree<T>(a: seq<T>, b: seq<T>, key: T -> string)
    requires SortedBy(a, key) && SortedBy(b, key) && multiset(a) == multiset(b)
    ensures Keys(a, key) == Keys(b, key)
  {
    SameKeys(a, b, key);
    OneOrder(Keys(a, key), Keys(b, key));
  }

  method Insert<T>(s: seq<T>, x: T, key: T -> string) returns (r: seq<T>)
    requires SortedBy(s, key)
    ensures SortedBy(r, key) && multiset(r) == multiset(s) + multiset{x}
  {
    var i := 0;
    while i < |s| && AtMost(key(s[i]), key(x))
      invariant 0 <= i <= |s|
      invariant forall k | 0 <= k < i :: AtMost(key(s[k]), key(x))
    {
      i := i + 1;
    }
    r := s[..i] + [x] + s[i..];
    forall k | i <= k < |s| ensures AtMost(key(x), key(s[k])) {
      Total(key(x), key(s[i]));
      if k != i {
        Transitive(key(x), key(s[i]), key(s[k]));
      }
    }
    assert s == s[..i] + s[i..];
  }

  method Sort<T>(s: seq<T>, key: T -> string) returns (r: seq<T>)
    ensures SortedBy(r, key) && multiset(r) == multiset(s) && |r| == |s|
  {
    r := [];
    for i := 0 to |s|
      invariant SortedBy(r, key) && multiset(r) == multiset(s[..i])
    {
      r := Insert(r, s[i], key);
      assert s[..i + 1] == s[..i] + [s[i]];
    }
    assert s[..|s|] == s;
    assert |r| == |multiset(r)| == |multiset(s)| == |s|;
  }

  /** Every list has a sorted permutation. */
  lemma {:induction false} SortExists<T>(s: seq<T>, key: T -> string) returns (r: seq<T>)
    ensures SortedBy(r, key) && multiset(r) == multiset(s)
  {
    if s == [] {
      r := [];
    } else {
      var rest := SortExists(s[1..], key);
      r := PlaceExists(rest, s[0], key);
      assert s == [s[0]] + s[1..];
    }
  }

  lemma {:induction false} PlaceExists<T>(s: seq<T>, x: T, key: T -> string) returns (r: seq<T>)
    requires SortedBy(s, key)
    ensures SortedBy(r, key) && multiset(r) == multiset(s) + multiset{x}
    ensures r != [] && (r[0] == x || (s != [] && r[0] == s[0]))
  {
    if s == [] {
      r := [x];
    } else if AtMost(key(x), key(s[0])) {
      r := [x] + s;
      forall k | 0 <= k < |s| ensures AtMost(key(x), key(s[k])) {
        if k > 0 {
          Transitive(key(x), key(s[0]), key(s[k]));
        }
      }
    } else {
      Total(key(x), key(s[0]));
      var rest := PlaceExists(s[1..], x, key);
      r := [s[0]] + rest;
      assert s == [s[0]] + s[1..];
      forall k | 0 <= k < |rest| ensures AtMost(key(s[0]), key(rest[k])) {
        assert rest[k] in multiset(rest);
        assert rest[k] in s[1..] || rest[k] == x;
      }
    }
  }
}
