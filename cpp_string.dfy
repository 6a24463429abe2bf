/**
 * The two pieces of std::string and size_t arithmetic that the payment
 * strategies rely on: unsigned wrap-around of `length() - n`, and
 * `substr(pos, count)`, which throws std::out_of_range when `pos` is past the end.
 */
module CppString {
  import opened Wrappers

  /** 2^64: size_t is taken to be 64 bits wide, and its arithmetic is modulo this value. */
  const SizeModulus: int := 0x1_0000_0000_0000_0000

  /** std::string::npos, the largest size_t, the default count of substr. */
  const Npos: nat := SizeModulus - 1

  /**
   * A std::string: one Dafny char per C++ char, each holding that byte's
   * value (so a UTF-8 encoded character takes several chars), and a length
   * that fits in a size_t.
   */
  type Str = s: string | |s| < SizeModulus && forall i | 0 <= i < |s| :: s[i] as int < 256

  function Min(a: nat, b: nat): nat
  {
    if a <= b then a else b
  }

  /** `a - b` on size_t: the unique size_t congruent to the mathematical difference. */
  function SizeSub(a: nat, b: nat): (r: nat)
    requires a < SizeModulus && b < SizeModulus
    ensures r < SizeModulus
    ensures (a - b - r) % SizeModulus == 0
    ensures a >= b ==> r == a - b
    ensures a < b ==> r > a
  {
    if a >= b then a - b else a - b + SizeModulus
  }

  /**
   * `s.substr(pos, count)`: None stands for std::out_of_range (thrown exactly
   * when pos > s.size()); otherwise the longest prefix of s[pos..] that has at
   * most `count` characters.
   */
  function Substr(s: string, pos: nat, count: nat): (r: Option<string>)
    ensures r.Some? <==> pos <= |s|
    ensures r.Some? ==> r.value <= s[pos..]
    ensures r.Some? ==> |r.value| == count || r.value == s[pos..]
    ensures r.Some? ==> |r.value| <= count
  {
    if pos > |s| then None else Some(s[pos..pos + Min(count, |s| - pos)])
  }
}
