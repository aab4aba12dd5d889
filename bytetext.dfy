/** Byte strings, the byte-wise order both implementations sort by, and the
    splitting, joining and UTF-8 facts the rest of the model relies on.
    Rust `String`s and Go `string`s are both compared byte by byte, so the
    model works on bytes throughout. */
module ByteText {

  newtype byte = x: int | 0 <= x < 256

  type Bytes = seq<byte>

  const SLASH: byte := 47
  const SPACE: byte := 32
  const NEWLINE: byte := 10

  /** The bytes of an ASCII text literal. */
  function Str(s: string): (r: Bytes)
    ensures |r| == |s|
  {
    seq(|s|, i requires 0 <= i < |s| => (s[i] as int % 256) as byte)
  }

  /** The bytes of two literals written one after the other. */
  lemma StrAppend(a: string, b: string)
    ensures Str(a + b) == Str(a) + Str(b)
  {
    forall i | 0 <= i < |a + b| ensures Str(a + b)[i] == (Str(a) + Str(b))[i] {
      if i >= |a| { assert (a + b)[i] == b[i - |a|]; }
    }
  }

  predicate StartsWith(s: Bytes, prefix: Bytes) {
    |prefix| <= |s| && s[..|prefix|] == prefix
  }

  predicate EndsWith(s: Bytes, suffix: Bytes) {
    |suffix| <= |s| && s[|s| - |suffix|..] == suffix
  }

  // ---------------------------------------------------------------------------
  // Byte-wise lexicographic order

  /** `a` sorts before or equal to `b`, comparing byte by byte, a proper
      prefix first. */
  predicate Le(a: Bytes, b: Bytes) {
    if a == [] then true
    else if b == [] then false
    else if a[0] != b[0] then a[0] < b[0]
    else Le(a[1..], b[1..])
  }

  lemma {:induction false} LeReflexive(a: Bytes)
    ensures Le(a, a)
  {
    if a != [] { LeReflexive(a[1..]); }
  }

  lemma {:induction false} LeAntisymmetric(a: Bytes, b: Bytes)
    requires Le(a, b) && Le(b, a)
    ensures a == b
  {
    if a != [] && b != [] {
      LeAntisymmetric(a[1..], b[1..]);
      assert a == [a[0]] + a[1..] && b == [b[0]] + b[1..];
    }
  }

  lemma {:induction false} LeTransitive(a: Bytes, b: Bytes, c: Bytes)
    requires Le(a, b) && Le(b, c)
    ensures Le(a, c)
  {
    if a != [] && b != [] && c != [] && a[0] == b[0] && b[0] == c[0] {
      LeTransitive(a[1..], b[1..], c[1..]);
    }
  }

  lemma {:induction false} LeTotal(a: Bytes, b: Bytes)
    ensures Le(a, b) || Le(b, a)
  {
    if a != [] && b != [] && a[0] == b[0] {
      LeTotal(a[1..], b[1..]);
    }
  }

  // ---------------------------------------------------------------------------
  // Joining and splitting

  /** The pieces with `sep` between consecutive ones, as `join` does in both
      languages. */
  function Join(parts: seq<Bytes>, sep: Bytes): Bytes
    decreases |parts|
  {
    if |parts| == 0 then []
    else if |parts| == 1 then parts[0]
    else parts[0] + sep + Join(parts[1..], sep)
  }

  /** The maximal runs of `s` that do not contain `sep`, in order; there is
      always at least one, possibly empty. */
  function Split(s: Bytes, sep: byte): (parts: seq<Bytes>)
    ensures |parts| >= 1
    decreases |s|
  {
    if s == [] then [[]]
    else
      var rest := Split(s[1..], sep);
      if s[0] == sep then [[]] + rest else [[s[0]] + rest[0]] + rest[1..]
  }

  lemma {:induction false} SplitWithoutSeparator(s: Bytes, sep: byte)
    requires sep !in s
    ensures Split(s, sep) == [s]
    decreases |s|
  {
    if s != [] {
      SplitWithoutSeparator(s[1..], sep);
      assert s == [s[0]] + s[1..];
    }
  }

  /** Splitting at one separator splits the two sides independently. */
  lemma {:induction false} SplitAppend(a: Bytes, b: Bytes, sep: byte)
    ensures Split(a + [sep] + b, sep) == Split(a, sep) + Split(b, sep)
    decreases |a|
  {
    if a == [] {
      assert a + [sep] + b == [sep] + b;
      assert ([sep] + b)[1..] == b;
    } else {
      var s := a + [sep] + b;
      assert s[0] == a[0] && s[1..] == a[1..] + [sep] + b;
      SplitAppend(a[1..], b, sep);
      var left, right := Split(a[1..], sep), Split(b, sep);
      assert Split(s[1..], sep) == left + right;
      if a[0] != sep {
        assert (left + right)[0] == left[0];
        assert (left + right)[1..] == left[1..] + right;
      }
    }
  }

  /** No part of a split contains the separator. */
  lemma {:induction false} SplitPartsLackSeparator(s: Bytes, sep: byte)
    ensures forall k :: 0 <= k < |Split(s, sep)| ==> sep !in Split(s, sep)[k]
    decreases |s|
  {
    if s != [] { SplitPartsLackSeparator(s[1..], sep); }
  }

  /** Splitting a join of separator-free pieces gives the pieces back. */
  lemma {:induction false} SplitJoin(parts: seq<Bytes>, sep: byte)
    requires |parts| >= 1
    requires forall k :: 0 <= k < |parts| ==> sep !in parts[k]
    ensures Split(Join(parts, [sep]), sep) == parts
    decreases |parts|
  {
    if |parts| == 1 {
      SplitWithoutSeparator(parts[0], sep);
    } else {
      SplitJoin(parts[1..], sep);
      SplitAppend(parts[0], Join(parts[1..], [sep]), sep);
      SplitWithoutSeparator(parts[0], sep);
      assert parts == [parts[0]] + parts[1..];
    }
  }

  /** The part of `p` after its last slash (all of `p` when it has none). */
  function LastSegment(p: Bytes): (r: Bytes)
    ensures SLASH !in r
  {
    SplitPartsLackSeparator(p, SLASH);
    var parts := Split(p, SLASH);
    parts[|parts| - 1]
  }

  /** A path that ends in a slash has an empty last segment. */
  lemma LastSegmentAfterSlash(p: Bytes)
    requires p != [] && p[|p| - 1] == SLASH
    ensures LastSegment(p) == []
  {
    var q := p[..|p| - 1];
    assert p == q + [SLASH] + [];
    SplitAppend(q, [], SLASH);
  }

  /** A path that does not end in a slash has a non-empty last segment. */
  lemma {:induction false} LastSegmentNonEmpty(p: Bytes)
    requires p != [] && p[|p| - 1] != SLASH
    ensures LastSegment(p) != []
    decreases |p|
  {
    var rest := Split(p[1..], SLASH);
    var parts := Split(p, SLASH);
    if |p| == 1 {
      assert p[1..] == [];
      assert rest == [[]];
      assert parts == [[p[0]] + []] + [];
    } else {
      assert p[1..][|p[1..]| - 1] == p[|p| - 1];
      LastSegmentNonEmpty(p[1..]);
      assert rest[|rest| - 1] != [];
      if p[0] == SLASH || |rest| > 1 {
        assert parts[|parts| - 1] == rest[|rest| - 1];
      } else {
        assert parts == [[p[0]] + rest[0]];
      }
    }
  }

  /** The last segment of `dir/name` is `name` when `name` has no slash. */
  lemma LastSegmentOfJoined(dir: Bytes, name: Bytes)
    requires SLASH !in name
    ensures LastSegment(dir + [SLASH] + name) == name
  {
    SplitAppend(dir, name, SLASH);
    SplitWithoutSeparator(name, SLASH);
  }

  // ---------------------------------------------------------------------------
  // UTF-8 well-formedness, as the grammar in section 4 of RFC 3629 defines it

  predicate IsTail(b: byte) { 0x80 <= b <= 0xBF }

  /** The length of the well-formed UTF-8 encoding of one character at the
      start of `s`, or 0 when `s` does not start with one. */
  function Utf8Width(s: Bytes): (n: nat)
    requires s != []
    ensures n <= 4 && n <= |s|
  {
    var b := s[0];
    if b <= 0x7F then 1
    else if 0xC2 <= b <= 0xDF then
      (if |s| >= 2 && IsTail(s[1]) then 2 else 0)
    else if b == 0xE0 then
      (if |s| >= 3 && 0xA0 <= s[1] <= 0xBF && IsTail(s[2]) then 3 else 0)
    else if 0xE1 <= b <= 0xEC || 0xEE <= b <= 0xEF then
      (if |s| >= 3 && IsTail(s[1]) && IsTail(s[2]) then 3 else 0)
    else if b == 0xED then
      (if |s| >= 3 && 0x80 <= s[1] <= 0x9F && IsTail(s[2]) then 3 else 0)
    else if b == 0xF0 then
      (if |s| >= 4 && 0x90 <= s[1] <= 0xBF && IsTail(s[2]) && IsTail(s[3]) then 4 else 0)
    else if 0xF1 <= b <= 0xF3 then
      (if |s| >= 4 && IsTail(s[1]) && IsTail(s[2]) && IsTail(s[3]) then 4 else 0)
    else if b == 0xF4 then
      (if |s| >= 4 && 0x80 <= s[1] <= 0x8F && IsTail(s[2]) && IsTail(s[3]) then 4 else 0)
    else 0
  }

  /** `s` is a sequence of well-formed UTF-8 encoded characters. */
  predicate ValidUtf8(s: Bytes)
    decreases |s|
  {
    s == [] || (Utf8Width(s) > 0 && ValidUtf8(s[Utf8Width(s)..]))
  }

  /** Text made only of ASCII bytes is well-formed UTF-8. */
  lemma {:induction false} AsciiIsValidUtf8(s: Bytes)
    requires forall i :: 0 <= i < |s| ==> s[i] <= 0x7F
    ensures ValidUtf8(s)
    decreases |s|
  {
    if s != [] { AsciiIsValidUtf8(s[1..]); }
  }

  /** An ASCII prefix neither makes nor breaks well-formedness. */
  lemma {:induction false} AsciiPrefixKeepsValidity(p: Bytes, s: Bytes)
    requires forall i :: 0 <= i < |p| ==> p[i] <= 0x7F
    ensures ValidUtf8(p + s) <==> ValidUtf8(s)
    decreases |p|
  {
    if p != [] {
      assert (p + s)[0] == p[0] && (p + s)[1..] == p[1..] + s;
      AsciiPrefixKeepsValidity(p[1..], s);
    } else {
      assert p + s == s;
    }
  }
}
