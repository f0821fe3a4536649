/**
 * Identifier generation: `PREFIX_<unix milliseconds>_<6 hex digits>`.
 * The clock reading and the UUID are parameters of the model.
 */
module Ids {
  import opened Wrappers
  import Clock

  predicate StartsWith(s: string, p: string) { |p| <= |s| && s[..|p|] == p }

  predicate IsDigit(c: char) { '0' <= c <= '9' }

  predicate IsLowerHex(c: char) { '0' <= c <= '9' || 'a' <= c <= 'f' }

  predicate AllDigits(s: string) { forall i :: 0 <= i < |s| ==> IsDigit(s[i]) }

  predicate AllLowerHex(s: string) { forall i :: 0 <= i < |s| ==> IsLowerHex(s[i]) }

  /** The canonical 8-4-4-4-12 text form google/uuid's String produces. */
  predicate IsCanonicalUuid(u: string) {
    && |u| == 36
    && u[8] == '-' && u[13] == '-' && u[18] == '-' && u[23] == '-'
    && AllLowerHex(u[..8]) && AllLowerHex(u[9..13]) && AllLowerHex(u[14..18])
    && AllLowerHex(u[19..23]) && AllLowerHex(u[24..])
  }

  type Uuid = u: string | IsCanonicalUuid(u)
    witness NilUuid()

  function Zeros(n: nat): (z: string)
    ensures |z| == n && AllLowerHex(z)
  {
    if n == 0 then "" else "0" + Zeros(n - 1)
  }

  /** The all-zero UUID, which google/uuid calls Nil. */
  function NilUuid(): (u: string)
    ensures IsCanonicalUuid(u)
  {
    var z4, z8, z12 := Zeros(4), Zeros(8), Zeros(12);
    var t4 := z4 + "-" + z12;
    var t3 := z4 + "-" + t4;
    var t2 := z4 + "-" + t3;
    var u := z8 + "-" + t2;
    assert u[..8] == z8 && u[9..] == t2;
    assert t2[..4] == z4 && t2[5..] == t3;
    assert t3[..4] == z4 && t3[5..] == t4;
    assert t4[..4] == z4 && t4[5..] == z12;
    assert u[9..13] == z4 && u[14..18] == z4 && u[19..23] == z4 && u[24..] == z12;
    u
  }

  /** The two inputs `GenerateID` reads from its environment: the clock and a fresh UUID. */
  datatype IdStamp = IdStamp(unixNano: int, uuid: Uuid)

  // ---------------------------------------------------------------- decimals

  function DigitChar(d: nat): (c: char)
    requires d < 10
    ensures IsDigit(c)
  {
    ('0' as int + d) as char
  }

  function DigitValue(c: char): (d: nat)
    requires IsDigit(c)
    ensures d < 10
  {
    c as int - '0' as int
  }

  /** Decimal digits of `n`, most significant first, without leading zeros. */
  function NatToDecimal(n: nat): (s: string)
    ensures 1 <= |s| && AllDigits(s)
    decreases n
  {
    if n < 10 then [DigitChar(n)] else NatToDecimal(n / 10) + [DigitChar(n % 10)]
  }

  function ParseNat(s: string): nat
    requires AllDigits(s)
  {
    if |s| == 0 then 0 else ParseNat(s[..|s| - 1]) * 10 + DigitValue(s[|s| - 1])
  }

  lemma {:induction false} ParseNatToDecimal(n: nat)
    ensures ParseNat(NatToDecimal(n)) == n
    decreases n
  {
    var s := NatToDecimal(n);
    if n >= 10 {
      ParseNatToDecimal(n / 10);
      assert s[..|s| - 1] == NatToDecimal(n / 10);
    }
  }

  /** Go's `%d` rendering of an integer. */
  function IntToDecimal(i: int): (s: string)
    ensures 1 <= |s| && (IsDigit(s[0]) || s[0] == '-')
  {
    if i < 0 then "-" + NatToDecimal(-i) else NatToDecimal(i)
  }

  predicate IsDecimalInt(s: string) {
    || (1 <= |s| && AllDigits(s))
    || (2 <= |s| && s[0] == '-' && AllDigits(s[1..]))
  }

  function ParseInt(s: string): int
    requires IsDecimalInt(s)
  {
    if s[0] == '-' then -(ParseNat(s[1..]) as int) else ParseNat(s)
  }

  /** Parsing undoes decimal rendering for every integer. */
  lemma IntToDecimalRoundTrip(i: int)
    ensures IsDecimalInt(IntToDecimal(i))
    ensures ParseInt(IntToDecimal(i)) == i
  {
    if i < 0 {
      var s := IntToDecimal(i);
      assert s[1..] == NatToDecimal(-i);
      ParseNatToDecimal(-i);
    } else {
      ParseNatToDecimal(i);
    }
  }

  // ---------------------------------------------------------------- UUIDs

  /** `strings.ReplaceAll(s, "-", "")`. */
  function StripHyphens(s: string): (r: string)
    ensures '-' !in r
  {
    if |s| == 0 then ""
    else if s[0] == '-' then StripHyphens(s[1..])
    else [s[0]] + StripHyphens(s[1..])
  }

  lemma {:induction false} StripHyphensConcat(a: string, b: string)
    ensures StripHyphens(a + b) == StripHyphens(a) + StripHyphens(b)
    decreases |a|
  {
    if |a| > 0 {
      assert (a + b)[0] == a[0];
      assert (a + b)[1..] == a[1..] + b;
      StripHyphensConcat(a[1..], b);
      if a[0] != '-' {
        calc {
          StripHyphens(a + b);
          [a[0]] + StripHyphens(a[1..] + b);
          [a[0]] + (StripHyphens(a[1..]) + StripHyphens(b));
          ([a[0]] + StripHyphens(a[1..])) + StripHyphens(b);
        }
      }
    } else {
      assert a + b == b;
    }
  }

  lemma {:induction false} StripHyphensHex(s: string)
    requires AllLowerHex(s)
    ensures StripHyphens(s) == s
    decreases |s|
  {
    if |s| > 0 {
      StripHyphensHex(s[1..]);
    }
  }

  lemma StripHyphensBlock(a: string, b: string)
    requires AllLowerHex(a)
    ensures StripHyphens(a + "-" + b) == a + StripHyphens(b)
  {
    assert a + "-" + b == a + ("-" + b);
    StripHyphensConcat(a, "-" + b);
    StripHyphensHex(a);
    assert ("-" + b)[0] == '-';
    assert ("-" + b)[1..] == b;
  }

  /** Removing the four hyphens of a canonical UUID leaves its 32 hex digits in order. */
  lemma CanonicalUuidStripped(u: Uuid)
    ensures StripHyphens(u) == u[..8] + u[9..13] + u[14..18] + u[19..23] + u[24..]
    ensures |StripHyphens(u)| == 32
  {
    var p1, p2, p3, p4, p5 := u[..8], u[9..13], u[14..18], u[19..23], u[24..];
    var t4 := p4 + "-" + p5;
    var t3 := p3 + "-" + t4;
    var t2 := p2 + "-" + t3;
    assert u == p1 + "-" + t2;
    StripHyphensHex(p5);
    StripHyphensBlock(p4, p5);
    StripHyphensBlock(p3, t4);
    StripHyphensBlock(p2, t3);
    StripHyphensBlock(p1, t2);
  }

  /**
   * The random part of an ID: the first six characters of the hyphen-free
   * UUID. The slice `[:6]` is always in bounds because 32 characters remain.
   */
  function RandomSeed(u: Uuid): (r: string)
    ensures |r| == 6 && AllLowerHex(r)
    ensures r == u[..6]
  {
    CanonicalUuidStripped(u);
    StripHyphens(u)[..6]
  }

  // ---------------------------------------------------------------- IDs

  /** Go's `int64 / int64` truncates toward zero; Dafny's `/` is Euclidean. */
  function TruncDiv(a: int, b: int): (q: int)
    requires b > 0
    ensures 0 <= a ==> 0 <= q * b <= a < q * b + b
    ensures a < 0 ==> q * b - b < a <= q * b <= 0
  {
    if a >= 0 then DivBracket(a, b); a / b
    else DivBracket(-a, b); -((-a) / b)
  }

  /** Euclidean division of a non-negative number brackets it between consecutive multiples. */
  lemma DivBracket(a: int, b: int)
    requires a >= 0 && b > 0
    ensures 0 <= (a / b) * b <= a < (a / b) * b + b
  {
    var q, r := a / b, a % b;
    assert a == q * b + r && 0 <= r < b;
    assert q >= 0;
    MulNonNegative(q, b);
  }

  lemma MulNonNegative(x: int, y: int)
    requires x >= 0 && y >= 0
    ensures x * y >= 0
  {
  }

  /** Truncation is symmetric about zero, unlike Euclidean division. */
  lemma TruncDivOdd(a: int, b: int)
    requires b > 0
    ensures TruncDiv(-a, b) == -TruncDiv(a, b)
  {
  }

  /** On a negative number that is not a multiple, truncation lies one above Euclidean division. */
  lemma TruncDivAboveFloor(a: int, b: int)
    requires b > 0 && a < 0 && a % b != 0
    ensures TruncDiv(a, b) == a / b + 1
  {
    var q, r := (-a) / b, (-a) % b;
    assert -a == q * b + r && 0 <= r < b;
    assert r != 0 by {
      if r == 0 {
        DivUnique(a, b, -q, 0);
      }
    }
    DivUnique(a, b, -q - 1, b - r);
  }

  /** Euclidean division is the unique quotient with a remainder in [0, b). */
  lemma DivUnique(a: int, b: int, q: int, r: int)
    requires b > 0 && a == q * b + r && 0 <= r < b
    ensures a / b == q && a % b == r
  {
    var q', r' := a / b, a % b;
    assert a == q' * b + r' && 0 <= r' < b;
    assert (q - q') * b == r' - r;
    if q - q' >= 1 {
      MulMonotoneInt(1, q - q', b);
    } else if q - q' <= -1 {
      MulMonotoneInt(1, q' - q, b);
    }
  }

  lemma MulMonotoneInt(x: int, y: int, z: int)
    requires x <= y && z >= 0
    ensures x * z <= y * z
  {
  }

  /** `time.Now().UnixNano() / int64(time.Millisecond)`. */
  function UnixMillis(unixNano: int): int {
    TruncDiv(unixNano, Clock.Millisecond)
  }

  /** A later instant never reads as an earlier millisecond. */
  lemma UnixMillisMonotone(x: int, y: int)
    requires x <= y
    ensures UnixMillis(x) <= UnixMillis(y)
  {
    var b := Clock.Millisecond;
    var q1, q2 := TruncDiv(x, b), TruncDiv(y, b);
    assert q1 * b < (q2 + 1) * b;
    if q1 > q2 {
      MulMonotoneInt(q2 + 1, q1, b);
    }
  }

  /** `GenerateID(prefix)` with the clock and UUID it reads passed in as `stamp`. */
  function GenerateID(prefix: string, stamp: IdStamp): (id: string)
    ensures |id| >= |prefix| + 9
    ensures id[..|prefix| + 1] == prefix + "_"
    ensures id[|id| - 7] == '_' && id[|id| - 6..] == RandomSeed(stamp.uuid)
  {
    prefix + "_" + IntToDecimal(UnixMillis(stamp.unixNano)) + "_" + RandomSeed(stamp.uuid)
  }

  /** Splits an ID with the given prefix back into its millisecond stamp and random part. */
  function ParseID(prefix: string, id: string): Option<(int, string)> {
    if |id| >= |prefix| + 9 && id[..|prefix| + 1] == prefix + "_" && id[|id| - 7] == '_'
       && IsDecimalInt(id[|prefix| + 1..|id| - 7])
    then Some((ParseInt(id[|prefix| + 1..|id| - 7]), id[|id| - 6..]))
    else None
  }

  /** Every generated ID can be parsed back into the millisecond stamp and random part it encodes. */
  lemma ParseGeneratedID(prefix: string, stamp: IdStamp)
    ensures ParseID(prefix, GenerateID(prefix, stamp))
         == Some((UnixMillis(stamp.unixNano), RandomSeed(stamp.uuid)))
  {
    var id := GenerateID(prefix, stamp);
    var dec := IntToDecimal(UnixMillis(stamp.unixNano));
    assert id[|prefix| + 1..|id| - 7] == dec;
    IntToDecimalRoundTrip(UnixMillis(stamp.unixNano));
  }

  /**
   * IDs generated under a prefix `p` never collide with IDs generated under
   * `p + "_" + q` when `q` starts with a letter: the character after `p + "_"`
   * is a digit or '-' in the first and the letter in the second.
   */
  lemma PrefixesKeepIDsApart(p: string, q: string, s1: IdStamp, s2: IdStamp)
    requires |q| >= 1 && 'A' <= q[0] <= 'Z'
    ensures GenerateID(p, s1) != GenerateID(p + "_" + q, s2)
  {
    var a := GenerateID(p, s1);
    var b := GenerateID(p + "_" + q, s2);
    assert a[|p| + 1] == IntToDecimal(UnixMillis(s1.unixNano))[0];
    assert b[|p| + 1] == q[0];
  }
}
