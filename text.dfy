/** The two JavaScript string operations the core relies on:
    `String.prototype.trim` and `String.prototype.indexOf`. */
module Text {

  /** The characters ECMAScript's `trim` removes: WhiteSpace and LineTerminator. */
  predicate IsSpace(c: char) {
    var n := c as int;
    n == 0x09 || n == 0x0A || n == 0x0B || n == 0x0C || n == 0x0D || n == 0x20 ||
    n == 0xA0 || n == 0x1680 || (0x2000 <= n <= 0x200A) ||
    n == 0x2028 || n == 0x2029 || n == 0x202F || n == 0x205F || n == 0x3000 || n == 0xFEFF
  }

  function TrimStart(s: string): (r: string)
    ensures |r| <= |s| && r == s[|s| - |r|..]
    ensures r == [] || !IsSpace(r[0])
    ensures forall k :: 0 <= k < |s| - |r| ==> IsSpace(s[k])
  {
    if s != [] && IsSpace(s[0]) then TrimStart(s[1..]) else s
  }

  function TrimEnd(s: string): (r: string)
    ensures |r| <= |s| && r == s[..|r|]
    ensures r == [] || !IsSpace(r[|r| - 1])
    ensures forall k :: |r| <= k < |s| ==> IsSpace(s[k])
  {
    if s != [] && IsSpace(s[|s| - 1]) then TrimEnd(s[..|s| - 1]) else s
  }

  /** `r` is the slice of `s` starting at `a`, and all that lies outside
      that slice is white space. */
  predicate PaddedAt(s: string, r: string, a: nat) {
    a + |r| <= |s| && r == s[a..a + |r|] &&
    (forall k :: 0 <= k < a ==> IsSpace(s[k])) &&
    (forall k :: a + |r| <= k < |s| ==> IsSpace(s[k]))
  }

  /** `s.trim()`: the longest slice of `s` that neither starts nor ends with
      white space; everything cut off on either side is white space. */
  function Trim(s: string): (r: string)
    ensures exists a :: PaddedAt(s, r, a)
    ensures r == [] || (!IsSpace(r[0]) && !IsSpace(r[|r| - 1]))
  {
    var t := TrimStart(s);
    var r := TrimEnd(t);
    var a := |s| - |t|;
    assert PaddedAt(s, r, a);
    r
  }

  /** Trimming a string that has nothing to trim returns it unchanged. */
  lemma {:induction false} TrimFixesUnpadded(s: string)
    requires s == [] || (!IsSpace(s[0]) && !IsSpace(s[|s| - 1]))
    ensures Trim(s) == s
  {
  }

  lemma TrimIdempotent(s: string)
    ensures Trim(Trim(s)) == Trim(s)
  {
    TrimFixesUnpadded(Trim(s));
  }

  /** `sub` occurs in `s` at position `k`. */
  predicate OccursAt(s: string, sub: string, k: nat) {
    k + |sub| <= |s| && s[k..k + |sub|] == sub
  }

  /** `s.indexOf(sub)`: the first position at or after `from` where `sub` occurs, or -1. */
  function IndexFrom(s: string, sub: string, from: nat): (r: int)
    requires from <= |s|
    ensures r == -1 <==> forall k: nat :: from <= k ==> !OccursAt(s, sub, k)
    ensures r != -1 ==> from <= r && OccursAt(s, sub, r) &&
                        forall k: nat :: from <= k < r ==> !OccursAt(s, sub, k)
    decreases |s| - from
  {
    if |s| - from < |sub| then -1
    else if s[from..from + |sub|] == sub then assert OccursAt(s, sub, from); from
    else IndexFrom(s, sub, from + 1)
  }

  function IndexOf(s: string, sub: string): int {
    IndexFrom(s, sub, 0)
  }

  /** `s.indexOf(sub) != -1` */
  predicate Contains(s: string, sub: string) {
    IndexOf(s, sub) != -1
  }

  lemma ContainsAt(s: string, sub: string, k: nat)
    requires OccursAt(s, sub, k)
    ensures Contains(s, sub)
  {
  }

  /** A string contains each piece it is built from. */
  lemma ContainsPiece(a: string, b: string, c: string)
    ensures Contains(a + b + c, b)
  {
    var s := a + b + c;
    assert OccursAt(s, b, |a|) by { assert s[|a|..|a| + |b|] == b; }
    ContainsAt(s, b, |a|);
  }
}
