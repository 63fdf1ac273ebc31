/**
 * Java's hash codes for the values a cgminer response holds, and the mixing
 * done by Apache Commons Lang's `HashCodeBuilder` with its default constants.
 * All arithmetic wraps around at 32 bits, as Java's `int` does.
 */
module JavaHash {
  import opened JavaLang

  const TWO_32: int := 0x1_0000_0000
  const TWO_64: int := 0x1_0000_0000_0000_0000

  /** `HashCodeBuilder`'s default initial total and multiplier. */
  const SEED: Int32 := 17
  const MULTIPLIER: int := 37

  /** The `int` that Java's arithmetic leaves for the mathematical value `x`. */
  function Wrap32(x: int): (r: Int32)
    ensures (x - r) % TWO_32 == 0
    ensures INT_MIN <= x <= INT_MAX ==> r == x
  {
    var m := x % TWO_32;
    if m > INT_MAX then m - TWO_32 else m
  }

  /** The UTF-16 code units Java stores for one character. */
  function Utf16Units(c: char): seq<int>
  {
    var v := c as int;
    if v < 0x1_0000 then [v]
    else [0xD800 + (v - 0x1_0000) / 0x400, 0xDC00 + (v - 0x1_0000) % 0x400]
  }

  function FoldUnits(h: Int32, units: seq<int>): Int32
    decreases |units|
  {
    if units == [] then h else FoldUnits(Wrap32(31 * h + units[0]), units[1..])
  }

  /** `String.hashCode`: the polynomial in 31 over the UTF-16 code units. */
  function StringHash(s: string): Int32
    decreases |s|
  {
    if s == [] then 0 else FoldUnits(StringHash(s[..|s| - 1]), Utf16Units(s[|s| - 1]))
  }

  /** `a ^ b` on two `int`s. */
  function Xor32(a: Int32, b: Int32): Int32
  {
    var ua := (if a < 0 then a + TWO_32 else a) as bv32;
    var ub := (if b < 0 then b + TWO_32 else b) as bv32;
    Wrap32((ua ^ ub) as int)
  }

  /**
   * `Map.hashCode`: the sum of the entries' hashes, an entry hashing to
   * `key.hashCode() ^ value.hashCode()`; the entries are taken in an
   * arbitrary order, as addition modulo 2^32 is commutative.
   */
  ghost function MapHash(m: map<string, string>): Int32
    decreases |m|
  {
    if |m| == 0 then 0
    else
      assert m.Keys != {};
      var k :| k in m;
      Wrap32(Xor32(StringHash(k), StringHash(m[k])) + MapHash(m - {k}))
  }

  /** `List.hashCode` of a list of maps. */
  ghost function ListHash(rows: seq<map<string, string>>): Int32
    decreases |rows|
  {
    if rows == [] then 1 else Wrap32(31 * ListHash(rows[..|rows| - 1]) + MapHash(rows[|rows| - 1]))
  }

  /** `HashCodeBuilder.append(long)`: the low 32 bits of `v ^ (v >> 32)`. */
  function LongHash(v: Long): Int32
  {
    var u := (if v < 0 then v + TWO_64 else v) as bv64;
    Wrap32((u ^ (u >> 32)) as int)
  }

  /** The total of a `HashCodeBuilder` after appending the given hashes in order. */
  function BuilderTotal(hashes: seq<Int32>): Int32
    decreases |hashes|
  {
    if hashes == [] then SEED else Append(BuilderTotal(hashes[..|hashes| - 1]), hashes[|hashes| - 1])
  }

  /** Three appends in a row leave the total `BuilderTotal` gives for the three hashes. */
  lemma BuilderTotalOfThree(a: Int32, b: Int32, c: Int32)
    ensures BuilderTotal([a, b, c]) == Append(Append(Append(SEED, a), b), c)
  {
    assert [a, b, c][..2] == [a, b] && [a, b][..1] == [a] && [a][..0] == [];
    calc {
      BuilderTotal([a, b, c]);
      Append(BuilderTotal([a, b]), c);
      Append(Append(BuilderTotal([a]), b), c);
      Append(Append(Append(BuilderTotal([]), a), b), c);
    }
  }

  /**
   * `HashCodeBuilder.append(object)` for an object whose own hash is `h`;
   * appending null is appending a hash of 0.
   */
  function Append(total: Int32, h: Int32): Int32
  {
    Wrap32(total * MULTIPLIER + h)
  }
}
