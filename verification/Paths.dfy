/** Paths as C strings, their byte-wise order, and the hash both tables use. */
module Paths {

  datatype Option<+T> = None | Some(value: T)

  /** A path is a C string of at most 1023 bytes; a path byte is any byte but the NUL. */
  newtype PathByte = b: int | 1 <= b <= 255 witness 1
  type Path = seq<PathByte>

  /** What one `char` of a buffer may hold, NUL included. */
  newtype Byte = b: int | 0 <= b <= 255

  const MAX_PATH_LEN: nat := 1024

  /** The bytes of a path as a buffer holds them. */
  function Bytes(p: Path): (s: seq<Byte>)
    ensures |s| == |p| && forall i :: 0 <= i < |p| ==> s[i] as int == p[i] as int
  {
    seq(|p|, i requires 0 <= i < |p| => p[i] as Byte)
  }

  /** The string a buffer holds: everything before its first NUL. */
  function CString(s: seq<Byte>): (r: Path) {
    if s == [] || s[0] == 0 then [] else [s[0] as PathByte] + CString(s[1..])
  }

  lemma {:induction false} CStringOfTerminated(p: Path, s: seq<Byte>)
    requires |p| < |s| && s[..|p|] == Bytes(p) && s[|p|] == 0
    ensures CString(s) == p
  {
    if p != [] {
      assert s[0] == s[..|p|][0];
      assert s[1..][..|p| - 1] == Bytes(p[1..]);
      CStringOfTerminated(p[1..], s[1..]);
    }
  }

  // ---------- order ----------

  /** Lexicographic order on unsigned bytes, a prefix before its extensions. */
  predicate Less(a: Path, b: Path) {
    b != [] && (a == [] || a[0] < b[0] || (a[0] == b[0] && Less(a[1..], b[1..])))
  }

  lemma {:induction false} LessIrreflexive(a: Path)
    ensures !Less(a, a)
  {
    if a != [] { LessIrreflexive(a[1..]); }
  }

  lemma {:induction false} LessTransitive(a: Path, b: Path, c: Path)
    requires Less(a, b) && Less(b, c)
    ensures Less(a, c)
  {
    if a != [] && a[0] == b[0] == c[0] { LessTransitive(a[1..], b[1..], c[1..]); }
  }

  lemma {:induction false} LessTotal(a: Path, b: Path)
    ensures a == b || Less(a, b) || Less(b, a)
  {
    if a != [] && b != [] && a[0] == b[0] {
      LessTotal(a[1..], b[1..]);
      assert a == [a[0]] + a[1..] && b == [b[0]] + b[1..];
    }
  }

  /** A proper prefix comes first. */
  lemma {:induction false} LessPrefix(p: Path, x: Path)
    requires x != []
    ensures Less(p, p + x)
  {
    if p != [] {
      assert (p + x)[1..] == p[1..] + x;
      LessPrefix(p[1..], x);
    }
  }

  /** Behind a common prefix, the next byte decides. */
  lemma {:induction false} LessBranch(p: Path, a: PathByte, x: Path, b: PathByte, y: Path)
    requires a < b
    ensures Less(p + [a] + x, p + [b] + y)
  {
    if p != [] {
      assert (p + [a] + x)[1..] == p[1..] + [a] + x;
      assert (p + [b] + y)[1..] == p[1..] + [b] + y;
      LessBranch(p[1..], a, x, b, y);
    }
  }

  predicate StrictlyIncreasing(s: seq<Path>) {
    forall i, j :: 0 <= i < j < |s| ==> Less(s[i], s[j])
  }

  // ---------- hashing ----------

  const UINT_SPAN: nat := 0x1_0000_0000

  /** A `char` is signed on the platforms the program targets. */
  function CharValue(b: PathByte): (v: int)
    ensures -128 <= v <= 127 && (v == b as int || v == b as int - 256)
  {
    if b < 128 then b as int else b as int - 256
  }

  /** The 32-bit accumulator after the whole string has been read. */
  function HashWord(p: Path): (h: nat)
    ensures h < UINT_SPAN
  {
    if p == [] then 0 else (HashWord(p[..|p| - 1]) * 31 + CharValue(p[|p| - 1])) % UINT_SPAN
  }

  function HashPath(p: Path, buckets: nat): (h: nat)
    requires buckets > 0
    ensures h < buckets
  {
    HashWord(p) % buckets
  }

  /** The loop of `hash_path` and `hash_path_for_lock`. */
  method ComputeHash(path: Path, buckets: nat) returns (h: nat)
    requires buckets > 0
    ensures h == HashPath(path, buckets)
  {
    var hash := 0;
    for i := 0 to |path|
      invariant hash == HashWord(path[..i])
    {
      assert path[..i + 1][..i] == path[..i];
      hash := (hash * 31 + CharValue(path[i])) % UINT_SPAN;
    }
    assert path[..|path|] == path;
    h := hash % buckets;
  }

  // ---------- what the hash is ----------

  function PowerOf31(n: nat): nat {
    if n == 0 then 1 else 31 * PowerOf31(n - 1)
  }

  /** The sum of the characters, the last one counted once, each one before it 31 times as much as the next. */
  function HashSum(p: Path): int {
    if p == [] then 0 else CharValue(p[0]) * PowerOf31(|p| - 1) + HashSum(p[1..])
  }

  lemma {:induction false} HashSumNext(p: Path)
    requires p != []
    ensures HashSum(p) == HashSum(p[..|p| - 1]) * 31 + CharValue(p[|p| - 1])
  {
    if |p| > 1 {
      var front := p[..|p| - 1];
      HashSumNext(p[1..]);
      assert p[1..][..|p| - 2] == front[1..];
      calc {
        HashSum(p);
        CharValue(p[0]) * PowerOf31(|p| - 1) + HashSum(front[1..]) * 31 + CharValue(p[|p| - 1]);
        { Thirtyone(CharValue(p[0]), |p| - 1); }
        CharValue(p[0]) * PowerOf31(|p| - 2) * 31 + HashSum(front[1..]) * 31 + CharValue(p[|p| - 1]);
        HashSum(front) * 31 + CharValue(p[|p| - 1]);
      }
    }
  }

  lemma Thirtyone(c: int, n: nat)
    requires n > 0
    ensures c * PowerOf31(n) == c * PowerOf31(n - 1) * 31
  {
    var m := PowerOf31(n - 1);
    assert c * (31 * m) == c * m * 31;
  }

  /** Wrapping around at every character or once at the end is the same. */
  lemma WrapsOnce(x: int, c: int)
    ensures ((x % 0x1_0000_0000) * 31 + c) % 0x1_0000_0000 == (x * 31 + c) % 0x1_0000_0000
  {
    var q := x / 0x1_0000_0000 * 31;
    assert x * 31 + c == (x % 0x1_0000_0000) * 31 + c + q * 0x1_0000_0000;
    SameRemainder((x % 0x1_0000_0000) * 31 + c, q);
  }

  lemma SameRemainder(y: int, q: int)
    ensures (y + q * 0x1_0000_0000) % 0x1_0000_0000 == y % 0x1_0000_0000
  {
    var d := y / 0x1_0000_0000;
    assert y + q * 0x1_0000_0000 == (d + q) * 0x1_0000_0000 + y % 0x1_0000_0000;
  }

  /** The accumulator is the sum of the characters, signed, times powers of 31, modulo 2 to the power of 32. */
  lemma {:induction false} HashIsSum(p: Path)
    ensures HashWord(p) == HashSum(p) % 0x1_0000_0000
  {
    if p != [] {
      var front := p[..|p| - 1];
      HashIsSum(front);
      HashSumNext(p);
      WrapsOnce(HashSum(front), CharValue(p[|p| - 1]));
    }
  }
}
