/** Browser bitmask constants.
    Nine single-bit flags, most significant first: STD, CHROME, FIREFOX,
    SAFARI, OPERA, IE9PLUS, IE8, IE7, IE6, and the unions built from them
    with bitwise OR. A mask contains a browser when their AND is non-zero. */
module BinaryRule {

  type Mask = bv9

  const ORIGIN: Mask := 0

  const STD: Mask     := 0x100
  const CHROME: Mask  := 0x080
  const FIREFOX: Mask := 0x040
  const SAFARI: Mask  := 0x020
  const OPERA: Mask   := 0x010

  const WEBKIT: Mask := CHROME | SAFARI

  const NONEIE: Mask := CHROME | SAFARI | OPERA | FIREFOX

  const IE9PLUS: Mask := 0x008
  const IE8: Mask     := 0x004
  const IE7: Mask     := 0x002
  const IE6: Mask     := 0x001
  const ALLIE: Mask   := IE9PLUS | IE8 | IE7 | IE6

  const NOIE6: Mask   := IE9PLUS | IE8 | IE7 | NONEIE
  const NOIE67: Mask  := IE9PLUS | IE8 | NONEIE
  const NOIE678: Mask := IE9PLUS | NONEIE
  const NONE: Mask    := 0
  const ALL: Mask     := 0x1FF

  /** The nine primitive flags, in the order of the bit diagram. */
  const Primitives: seq<Mask> := [STD, CHROME, FIREFOX, SAFARI, OPERA, IE9PLUS, IE8, IE7, IE6]

  /** `flag` is one bit of a mask. */
  predicate SingleBit(flag: Mask) {
    flag != 0 && flag & (flag - 1) == 0
  }

  /** `a` is included in `b`, seen as sets of browsers. */
  predicate Within(a: Mask, b: Mask) {
    a & b == a
  }

  predicate Disjoint(a: Mask, b: Mask) {
    a & b == 0
  }

  /** OR of a sequence of masks. */
  function UnionOf(ms: seq<Mask>): Mask {
    if ms == [] then 0 else UnionOf(ms[..|ms| - 1]) | ms[|ms| - 1]
  }

  lemma PrimitivesAreDistinctSingleBits()
    ensures |Primitives| == 9
    ensures forall i :: 0 <= i < 9 ==> SingleBit(Primitives[i])
    ensures forall i, j :: 0 <= i < j < 9 ==> Primitives[i] != Primitives[j] && Disjoint(Primitives[i], Primitives[j])
  {
  }

  lemma AllIsUnionOfPrimitives()
    ensures ALL == UnionOf(Primitives)
    ensures ALL as int == 511
  {
    var p := Primitives;
    assert p[..0] == [];
    assert p[..1][..0] == p[..0];
    assert UnionOf(p[..1]) == 0x100;
    assert p[..2][..1] == p[..1];
    assert UnionOf(p[..2]) == 0x180;
    assert p[..3][..2] == p[..2];
    assert UnionOf(p[..3]) == 0x1C0;
    assert p[..4][..3] == p[..3];
    assert UnionOf(p[..4]) == 0x1E0;
    assert p[..5][..4] == p[..4];
    assert UnionOf(p[..5]) == 0x1F0;
    assert p[..6][..5] == p[..5];
    assert UnionOf(p[..6]) == 0x1F8;
    assert p[..7][..6] == p[..6];
    assert UnionOf(p[..7]) == 0x1FC;
    assert p[..8][..7] == p[..7];
    assert UnionOf(p[..8]) == 0x1FE;
    assert p[..9][..8] == p[..8];
    assert UnionOf(p[..9]) == 0x1FF;
    assert p[..9] == p;
  }

  lemma WebkitFacts()
    ensures WEBKIT == CHROME | SAFARI
    ensures Within(WEBKIT, NONEIE) && WEBKIT != NONEIE
    ensures Disjoint(FIREFOX, WEBKIT)
  {
  }

  lemma IeFamilyFacts()
    ensures ALLIE == IE9PLUS | IE8 | IE7 | IE6
    ensures Disjoint(ALLIE, NONEIE) && Disjoint(ALLIE, STD) && Disjoint(NONEIE, STD)
    ensures NONEIE | ALLIE | STD == ALL
  {
  }

  lemma NoIeTiers()
    ensures NOIE6 == NOIE67 | IE7 && NOIE67 == NOIE678 | IE8
    ensures Within(NOIE678, NOIE67) && NOIE678 != NOIE67
    ensures Within(NOIE67, NOIE6) && NOIE67 != NOIE6
    ensures Disjoint(NOIE6, IE6 | STD) && Disjoint(NOIE67, IE6 | STD) && Disjoint(NOIE678, IE6 | STD)
  {
  }

  lemma NoneAndAll(m: Mask)
    ensures NONE == ORIGIN == 0
    ensures ALL & m == m && ALL | m == ALL
    ensures NONE & m == 0
  {
  }
}
