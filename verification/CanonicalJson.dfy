/**
 JSON values, and the foreign codec, hash and text encoding both services use, as one
 parameter with the laws that are relied on.
 */
module CanonicalJson {
  import opened Wrappers

  type byte = b: int | 0 <= b < 256

  /** A float, or one of the values math.isfinite refuses. */
  datatype Float = Finite(value: real) | NonFinite

  datatype Json =
    | Null
    | Bool(flag: bool)
    | Int(number: int)
    | Num(float: Float)
    | Str(text: string)
    | List(items: seq<Json>)
    | Obj(fields: map<string, Json>)

  /**
   `encode` is canonical_json, `ascii` the catalog's json.dumps, `decode` json.loads, `str`
   Python's str() on a JSON value, `utf8` and `fromUtf8` the text encoding of the robot.
   A float stands for the shortest decimal that names it, the one json writes; `writable` picks
   the reals that are one.
   */
  datatype Codec = Codec(
    writable: real -> bool, encode: Json -> seq<byte>, ascii: Json -> seq<byte>, decode: seq<byte> -> Option<Json>, str: Json -> string,
    utf8: string -> seq<byte>, fromUtf8: seq<byte> -> Option<string>, sha: seq<byte> -> string)

  predicate LowerHex(c: char) {
    '0' <= c <= '9' || 'a' <= c <= 'f'
  }

  predicate Alphanumeric(c: char) {
    'A' <= c <= 'Z' || 'a' <= c <= 'z' || '0' <= c <= '9'
  }

  /** SHA256_RE. */
  predicate IsDigest(s: string) {
    |s| == 64 && forall i :: 0 <= i < |s| ==> LowerHex(s[i])
  }

  /** SAFE_ID_RE. */
  predicate SafeId(s: string) {
    && 1 <= |s| <= 128 && Alphanumeric(s[0])
    && forall i :: 0 <= i < |s| ==> Alphanumeric(s[i]) || s[i] in "._-"
  }

  /** The characters of a digest, and of a safe name: none outside these. */
  lemma CharactersMean(c: char)
    ensures LowerHex(c) <==> c in {'0', '1', '2', '3', '4', '5', '6', '7', '8', '9', 'a', 'b', 'c', 'd', 'e', 'f'}
    ensures Alphanumeric(c) <==> c in {
      '0', '1', '2', '3', '4', '5', '6', '7', '8', '9', 'a', 'b', 'c', 'd', 'e', 'f', 'g', 'h', 'i', 'j', 'k', 'l', 'm',
      'n', 'o', 'p', 'q', 'r', 's', 't', 'u', 'v', 'w', 'x', 'y', 'z', 'A', 'B', 'C', 'D', 'E', 'F', 'G', 'H', 'I', 'J',
      'K', 'L', 'M', 'N', 'O', 'P', 'Q', 'R', 'S', 'T', 'U', 'V', 'W', 'X', 'Y', 'Z'}
  {
  }

  /** A digest has 64 characters; a safe name has 1 to 128, dots, underscores and dashes only after the first. */
  lemma NamesMean(s: string)
    ensures IsDigest(s) ==> |s| == 64
    ensures |s| == 64 && (forall k :: 0 <= k < 64 ==> LowerHex(s[k])) ==> IsDigest(s)
    ensures IsDigest(s) ==> SafeId(s) && forall k :: 0 <= k < 64 ==> LowerHex(s[k])
    ensures SafeId(s) ==> s != "" && |s| < 129 && Alphanumeric(s[0])
    ensures SafeId(s) ==> forall k :: 0 <= k < |s| ==> Alphanumeric(s[k]) || s[k] == '.' || s[k] == '_' || s[k] == '-'
    ensures s != "" && |s| < 128 && SafeId(s) ==> SafeId(s + ".") && SafeId(s + "_") && SafeId(s + "-")
    ensures s != "" && |s| < 129 && (forall k :: 0 <= k < |s| ==> Alphanumeric(s[k])) ==> SafeId(s)
  {
    if IsDigest(s) {
      forall k | 0 <= k < 64 ensures Alphanumeric(s[k]) { assert LowerHex(s[k]); }
    }
  }

  const MAX_DEPTH := 16
  const INTEGER_LIMIT := 0x8000_0000_0000_0000

  /** A value nested at most so deep, of floats and of 64-bit integers. */
  ghost predicate Writable(c: Codec, j: Json, depth: nat) {
    match j
    case Int(n) => -INTEGER_LIMIT <= n < INTEGER_LIMIT
    case Num(float) => float.Finite? && c.writable(float.value)
    case List(items) => depth > 0 && forall i :: 0 <= i < |items| ==> Writable(c, items[i], depth - 1)
    case Obj(fields) => depth > 0 && forall k :: k in fields ==> Writable(c, fields[k], depth - 1)
    case _ => true
  }

  /** The two-digit decimals the tables are written in. */
  predicate IsHundredth(r: real) {
    -360.0 <= r <= 360.0 && (100.0 * r).Floor as real == 100.0 * r
  }

  /**
   What is assumed: encoding small enough values of writable numbers survives decoding, the
   two-digit constants are writable, text survives UTF-8, and hashes are lower-case hex digests.
   */
  ghost predicate Lawful(c: Codec) {
    && (forall j :: Writable(c, j, MAX_DEPTH) ==> c.decode(c.encode(j)) == Some(j))
    && (forall j :: Writable(c, j, MAX_DEPTH) ==> c.decode(c.ascii(j)) == Some(j))
    && (forall r :: IsHundredth(r) ==> c.writable(r))
    && (forall s :: c.fromUtf8(c.utf8(s)) == Some(s))
    && (forall s :: c.str(Str(s)) == s)
    && (forall b :: IsDigest(c.sha(b)))
  }

  /** Two different byte strings with one hash. */
  predicate Collision(c: Codec, a: seq<byte>, b: seq<byte>) {
    a != b && c.sha(a) == c.sha(b)
  }

  function Numeric(j: Json): Option<real> {
    match j
    case Bool(flag) => Some(if flag then 1.0 else 0.0)
    case Int(n) => Some(n as real)
    case Num(Finite(r)) => Some(r)
    case _ => None
  }

  /** Python's == on scalars: numbers compare across int, float and bool. */
  predicate ScalarSame(a: Json, b: Json) {
    a == b || (Numeric(a).Some? && Numeric(a) == Numeric(b))
  }

  /** True is one and one is 1.0, but no number is a text, and nothing else is equal to another. */
  lemma ScalarsMean(a: Json, b: Json, x: bool, n: int, r: real, s: string)
    ensures ScalarSame(a, a) && (ScalarSame(a, b) <==> ScalarSame(b, a))
    ensures ScalarSame(Bool(x), Int(n)) <==> n == if x then 1 else 0
    ensures ScalarSame(Int(n), Num(Finite(r))) <==> r == n as real
    ensures ScalarSame(Bool(x), Num(Finite(r))) <==> r == if x then 1.0 else 0.0
    ensures a.Str? || a.Null? || a.List? || a.Obj? ==> (ScalarSame(a, b) <==> a == b)
  {
  }

  /** Python's == on dictionaries of scalars. */
  predicate FieldsSame(a: map<string, Json>, b: map<string, Json>) {
    a.Keys == b.Keys && forall k :: k in a ==> ScalarSame(a[k], b[k])
  }
}
