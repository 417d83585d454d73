/** Python's order of byte strings and texts, and lists sorted by it. */
module Sorting {
  /** A byte string by its bytes, or a text by its code points. */
  type Key = seq<int>

  predicate Less(a: Key, b: Key) {
    if b == [] then false
    else if a == [] then true
    else if a[0] == b[0] then Less(a[1..], b[1..])
    else a[0] < b[0]
  }

  lemma {:induction false} LessIsStrict(a: Key, b: Key)
    requires Less(a, b)
    ensures !Less(b, a)
  {
    if a != [] && b != [] && a[0] == b[0] {
      LessIsStrict(a[1..], b[1..]);
    }
  }

  lemma {:induction false} LessIsTransitive(a: Key, b: Key, c: Key)
    requires Less(a, b) && Less(b, c)
    ensures Less(a, c)
  {
    if a != [] && a[0] == b[0] == c[0] {
      LessIsTransitive(a[1..], b[1..], c[1..]);
    }
  }

  lemma {:induction false} LessIsTotal(a: Key, b: Key)
    ensures a == b || Less(a, b) || Less(b, a)
  {
    if a != [] && b != [] && a[0] == b[0] {
      LessIsTotal(a[1..], b[1..]);
      assert a == [a[0]] + a[1..] && b == [b[0]] + b[1..];
    }
  }

  /** Strictly sorted, so every key occurs once. */
  predicate Sorted(keys: seq<Key>) {
    forall i, j :: 0 <= i < j < |keys| ==> Less(keys[i], keys[j])
  }

  /** A sorted list is determined by its members. */
  lemma {:induction false} SortedIsUnique(a: seq<Key>, b: seq<Key>)
    requires Sorted(a) && Sorted(b) && forall k :: k in a <==> k in b
    ensures a == b
  {
    assert b != [] ==> b[0] in b;
    if a == [] {
    } else {
      assert a[0] in a && a[0] in b;
      assert b[0] in a;
      if a[0] != b[0] {
        assert Less(a[0], b[0]) && Less(b[0], a[0]);
        LessIsStrict(a[0], b[0]);
      }
      TailHasTheRest(a);
      TailHasTheRest(b);
      SortedIsUnique(a[1..], b[1..]);
      assert a == [a[0]] + a[1..] && b == [b[0]] + b[1..];
    }
  }

  lemma TailHasTheRest(a: seq<Key>)
    requires Sorted(a) && a != []
    ensures forall k :: k in a[1..] <==> k in a && k != a[0]
  {
    forall k | k in a[1..]
      ensures k != a[0]
    {
      var i :| 0 <= i < |a[1..]| && a[1..][i] == k;
      assert Less(a[0], a[i + 1]);
      LessIsStrict(a[0], a[i + 1]);
    }
  }

  /** Where a key belongs in a sorted list that lacks it. */
  method Place(keys: seq<Key>, key: Key) returns (n: nat)
    requires Sorted(keys) && key !in keys
    ensures n <= |keys| && Sorted(keys[..n] + [key] + keys[n..])
  {
    hide Less;
    n := 0;
    while n < |keys| && Less(keys[n], key)
      invariant n <= |keys| && forall i :: 0 <= i < n ==> Less(keys[i], key)
    {
      n := n + 1;
    }
    forall i | n <= i < |keys|
      ensures Less(key, keys[i])
    {
      LessIsTotal(keys[n], key);
      if n < i { LessIsTransitive(key, keys[n], keys[i]); }
    }
  }
}
