/** The byte string that stands for a file's extended attributes when they are compared by hash. */
module Xattrs {
  import opened Base64
  import opened Sorting

  type Bytes = seq<Byte>
  type Attributes = map<Bytes, Bytes>

  const MAX_NAMES := 32
  const MAX_NAME_BYTES := 4096
  const MAX_VALUE_BYTES := 65536
  const TAG: Bytes := [111, 114, 99, 104, 45, 112, 97, 116, 99, 104, 45, 120, 97, 116, 116, 114, 115, 45, 118, 49, 0]

  function Power(width: nat): nat {
    if width == 0 then 1 else 256 * Power(width - 1)
  }

  /** `to_bytes(width, "big")`. */
  function BigEndian(n: nat, width: nat): (b: Bytes)
    ensures |b| == width
  {
    if width == 0 then [] else BigEndian(n / 256, width - 1) + [n % 256]
  }

  lemma {:induction false} BigEndianIsInjective(n: nat, m: nat, width: nat)
    requires n < Power(width) && m < Power(width) && BigEndian(n, width) == BigEndian(m, width)
    ensures n == m
  {
    if width > 0 {
      var a, b := BigEndian(n, width), BigEndian(m, width);
      assert a[..width - 1] == BigEndian(n / 256, width - 1) && a[width - 1] == n % 256;
      assert b[..width - 1] == BigEndian(m / 256, width - 1) && b[width - 1] == m % 256;
      BigEndianIsInjective(n / 256, m / 256, width - 1);
    }
  }

  datatype Pair = Pair(name: Bytes, value: Bytes)

  predicate Bounded(p: Pair) {
    |p.name| < Power(4) && |p.value| < Power(8)
  }

  function Piece(p: Pair): Bytes {
    BigEndian(|p.name|, 4) + p.name + BigEndian(|p.value|, 8) + p.value
  }

  function Encode(pairs: seq<Pair>): Bytes {
    if pairs == [] then [] else Encode(pairs[..|pairs| - 1]) + Piece(pairs[|pairs| - 1])
  }

  // ---------------------------------------------------------------- unique decodability

  /** The same bytes cut at the same length agree on both sides. */
  lemma CutHere(a: Bytes, x: Bytes, b: Bytes, y: Bytes)
    requires a + x == b + y && |a| == |b|
    ensures a == b && x == y
  {
    assert (a + x)[..|a|] == a && (b + y)[..|b|] == b;
    assert (a + x)[|a|..] == x && (b + y)[|b|..] == y;
  }

  /** A length prefix fixes where its text ends. */
  lemma PrefixedText(a: Bytes, x: Bytes, b: Bytes, y: Bytes, width: nat)
    requires |a| < Power(width) && |b| < Power(width)
    requires BigEndian(|a|, width) + (a + x) == BigEndian(|b|, width) + (b + y)
    ensures a == b && x == y
  {
    CutHere(BigEndian(|a|, width), a + x, BigEndian(|b|, width), b + y);
    BigEndianIsInjective(|a|, |b|, width);
    CutHere(a, x, b, y);
  }

  lemma PieceIsPrefixFree(p: Pair, x: Bytes, q: Pair, y: Bytes)
    requires Bounded(p) && Bounded(q) && Piece(p) + x == Piece(q) + y
    ensures p == q && x == y
  {
    hide BigEndian, Power;
    var v, w := BigEndian(|p.value|, 8) + (p.value + x), BigEndian(|q.value|, 8) + (q.value + y);
    assert Piece(p) + x == BigEndian(|p.name|, 4) + (p.name + v);
    assert Piece(q) + y == BigEndian(|q.name|, 4) + (q.name + w);
    PrefixedText(p.name, v, q.name, w, 4);
    PrefixedText(p.value, x, q.value, y, 8);
  }

  function Forward(pairs: seq<Pair>): Bytes {
    if pairs == [] then [] else Piece(pairs[0]) + Forward(pairs[1..])
  }

  lemma Slices(pairs: seq<Pair>)
    requires |pairs| > 1
    ensures pairs[..|pairs| - 1][1..] == pairs[1..|pairs| - 1] && pairs[..|pairs| - 1][0] == pairs[0]
    ensures pairs[1..][..|pairs[1..]| - 1] == pairs[1..|pairs| - 1]
            && pairs[1..][|pairs[1..]| - 1] == pairs[|pairs| - 1]
  {
  }

  lemma FourParts(a: Bytes, b: Bytes, c: Bytes, d: Bytes, e: Bytes)
    ensures a + b + c + d + e == a + (b + c + d + e)
  {
  }

  lemma Regroup(a: Bytes, b: Bytes, c: Bytes)
    ensures (a + b) + c == a + (b + c)
  {
  }

  lemma {:induction false} EncodeIsForward(pairs: seq<Pair>)
    ensures Encode(pairs) == Forward(pairs)
  {
    if |pairs| == 1 {
      assert pairs[..0] == [] && pairs[1..] == [];
    } else if |pairs| > 1 {
      hide Piece;
      var front, last, middle := pairs[..|pairs| - 1], pairs[|pairs| - 1], pairs[1..|pairs| - 1];
      EncodeIsForward(front);
      EncodeIsForward(pairs[1..]);
      EncodeIsForward(middle);
      Slices(pairs);
      Regroup(Piece(pairs[0]), Encode(middle), Piece(last));
    }
  }

  lemma {:induction false} ForwardIsInjective(a: seq<Pair>, b: seq<Pair>)
    requires forall i :: 0 <= i < |a| ==> Bounded(a[i])
    requires forall i :: 0 <= i < |b| ==> Bounded(b[i])
    requires Forward(a) == Forward(b)
    ensures a == b
  {
    hide Piece, Bounded;
    if a == [] || b == [] {
      if a != [] { PieceIsNotEmpty(a[0]); }
      if b != [] { PieceIsNotEmpty(b[0]); }
    } else {
      PieceIsPrefixFree(a[0], Forward(a[1..]), b[0], Forward(b[1..]));
      ForwardIsInjective(a[1..], b[1..]);
      assert a == [a[0]] + a[1..] && b == [b[0]] + b[1..];
    }
  }

  lemma PieceIsNotEmpty(p: Pair)
    ensures |Piece(p)| >= 12
  {
  }

  // ---------------------------------------------------------------- sorted names

  /** `sorted(values)`. */
  predicate IsSortedKeys(names: seq<Bytes>, values: Attributes) {
    Sorted(names) && (forall n :: n in names ==> n in values) && (forall n :: n in values ==> n in names)
  }

  // ---------------------------------------------------------------- the preimage

  function PairsOf(names: seq<Bytes>, values: Attributes): seq<Pair>
    requires forall n :: n in names ==> n in values
  {
    seq(|names|, i requires 0 <= i < |names| => assert names[i] in names; Pair(names[i], values[names[i]]))
  }

  /** Attributes as the reader bounds them: names short enough for four bytes of length. */
  predicate BoundedAttributes(values: Attributes) {
    forall n :: n in values ==> Bounded(Pair(n, values[n]))
  }

  function TotalLength(names: seq<Bytes>): nat {
    if names == [] then 0 else |names[0]| + TotalLength(names[1..])
  }

  /** At most 32 distinct names, none of them empty or with a NUL, of 4096 bytes together. */
  predicate NamesFit(names: seq<Bytes>) {
    && |names| <= MAX_NAMES && Different(names)
    && (forall i :: 0 <= i < |names| ==> names[i] != [] && 0 !in names[i])
    && TotalLength(names) <= MAX_NAME_BYTES
  }

  predicate Different(names: seq<Bytes>) {
    forall i, j :: 0 <= i < j < |names| ==> names[i] != names[j]
  }

  lemma NoNameTwice(names: seq<Bytes>)
    requires |names| <= 1
    ensures Different(names)
  {
  }

  /** A set of names is as large as their list exactly when they are all different. */
  lemma OneMoreName(names: seq<Bytes>, i: nat, distinct: set<Bytes>)
    requires i < |names| && forall n :: n in distinct <==> n in names[..i]
    requires |distinct| <= i && (|distinct| == i <==> Different(names[..i]))
    ensures var more := distinct + {names[i]};
            && (forall n :: n in more <==> n in names[..i + 1])
            && |more| <= i + 1 && (|more| == i + 1 <==> Different(names[..i + 1]))
  {
    var before, after := names[..i], names[..i + 1];
    assert after == before + [names[i]];
    if names[i] in before {
      var j :| 0 <= j < i && before[j] == names[i];
      assert distinct + {names[i]} == distinct && after[j] == after[i];
    } else {
      assert forall j :: 0 <= j < i ==> after[j] == before[j] && before[j] != after[i];
      assert Different(before) ==> Different(after);
    }
    assert Different(after) ==> forall j, k :: 0 <= j < k < i ==> after[j] == before[j] && after[k] == before[k];
  }

  lemma {:induction false} TotalOfOneMore(names: seq<Bytes>, name: Bytes)
    ensures TotalLength(names + [name]) == TotalLength(names) + |name|
  {
    if names != [] {
      assert (names + [name])[1..] == names[1..] + [name];
      TotalOfOneMore(names[1..], name);
    }
  }

  /** `_bounded_names`: the four tests, each over all the names. */
  method BoundedNames(names: seq<Bytes>) returns (ok: bool)
    ensures ok <==> NamesFit(names)
  {
    hide Different;
    var distinct, malformed, total: nat := {}, false, 0;
    assert Different(names[..0]) by { NoNameTwice(names[..0]); }
    for i := 0 to |names|
      invariant forall n :: n in distinct <==> n in names[..i]
      invariant |distinct| <= i && (|distinct| == i <==> Different(names[..i]))
      invariant malformed <==> exists j :: 0 <= j < i && (names[j] == [] || 0 in names[j])
      invariant total == TotalLength(names[..i])
    {
      assert names[..i + 1] == names[..i] + [names[i]];
      TotalOfOneMore(names[..i], names[i]);
      OneMoreName(names, i, distinct);
      distinct := distinct + {names[i]};
      malformed := malformed || names[i] == [] || 0 in names[i];
      total := total + |names[i]|;
    }
    assert names[..|names|] == names;
    ok := !(|names| > MAX_NAMES || |distinct| != |names| || malformed || total > MAX_NAME_BYTES);
  }

  /** What the reader accepts: bounded names, each with a bounded value. */
  predicate Accepted(names: seq<Bytes>, values: Attributes) {
    && NamesFit(names)
    && (forall n :: n in names ==> n in values) && (forall n :: n in values ==> n in names)
    && (forall n :: n in values ==> |values[n]| <= MAX_VALUE_BYTES)
  }

  lemma {:induction false} OneIsNotLongerThanAll(names: seq<Bytes>, i: nat)
    requires i < |names|
    ensures |names[i]| <= TotalLength(names)
  {
    if i > 0 { OneIsNotLongerThanAll(names[1..], i - 1); }
  }

  /** Whatever the reader accepts fits the length fields. */
  lemma AcceptedFits(names: seq<Bytes>, values: Attributes)
    requires Accepted(names, values)
    ensures BoundedAttributes(values)
  {
    forall n | n in values
      ensures Bounded(Pair(n, values[n]))
    {
      assert n in names;
      var i :| 0 <= i < |names| && names[i] == n;
      OneIsNotLongerThanAll(names, i);
      Powers();
      hide Power;
    }
  }

  lemma Powers()
    ensures Power(4) == 4294967296 && Power(8) >= 4294967296
  {
  }

  /** The bytes `_xattrs_digest` feeds to the hash. */
  method Preimage(values: Attributes, names: seq<Bytes>) returns (bytes: Bytes)
    requires IsSortedKeys(names, values)
    ensures bytes == TAG + Encode(PairsOf(names, values))
  {
    hide BigEndian, Less;
    bytes := TAG;
    ghost var pairs := PairsOf(names, values);
    for i := 0 to |names|
      invariant bytes == TAG + Encode(pairs[..i])
    {
      var name := names[i];
      assert name in names;
      var value := values[name];
      assert pairs[i] == Pair(name, value);
      FourParts(bytes, BigEndian(|name|, 4), name, BigEndian(|value|, 8), value);
      Regroup(TAG, Encode(pairs[..i]), Piece(pairs[i]));
      bytes := bytes + BigEndian(|name|, 4) + name + BigEndian(|value|, 8) + value;
      assert pairs[..i + 1][..i] == pairs[..i];
    }
    assert pairs[..|names|] == pairs;
  }

  /** Two bounded sets of attributes have the same preimage exactly when they are the same. */
  lemma PreimageIsInjective(a: Attributes, b: Attributes, names: seq<Bytes>, names': seq<Bytes>)
    requires BoundedAttributes(a) && BoundedAttributes(b) && IsSortedKeys(names, a) && IsSortedKeys(names', b)
    ensures TAG + Encode(PairsOf(names, a)) == TAG + Encode(PairsOf(names', b)) <==> a == b
  {
    hide Encode, Forward, Less, Bounded;
    var left, right := PairsOf(names, a), PairsOf(names', b);
    if TAG + Encode(left) == TAG + Encode(right) {
      CutHere(TAG, Encode(left), TAG, Encode(right));
      EncodeIsForward(left);
      EncodeIsForward(right);
      forall i | 0 <= i < |left| ensures Bounded(left[i]) { assert names[i] in names; }
      forall i | 0 <= i < |right| ensures Bounded(right[i]) { assert names'[i] in names'; }
      ForwardIsInjective(left, right);
      SamePairsSameMap(a, b, names, names');
    }
    if a == b {
      SortedIsUnique(names, names');
    }
  }

  lemma SamePairsSameMap(a: Attributes, b: Attributes, names: seq<Bytes>, names': seq<Bytes>)
    requires IsSortedKeys(names, a) && IsSortedKeys(names', b) && PairsOf(names, a) == PairsOf(names', b)
    ensures a == b
  {
    hide Less;
    var pairs := PairsOf(names, a);
    assert |names| == |pairs| == |names'|;
    forall i | 0 <= i < |pairs|
      ensures names[i] == names'[i] && names[i] in a && names[i] in b && a[names[i]] == b[names[i]]
    {
      assert names[i] in names && names'[i] in names';
      assert PairsOf(names, a)[i] == PairsOf(names', b)[i];
    }
    assert names == names';
    forall n | n in a
      ensures n in b && a[n] == b[n]
    {
      assert n in names;
    }
    forall n | n in b
      ensures n in a
    {
      assert n in names';
    }
  }
}
