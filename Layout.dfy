/**
 * Bitfield layout of the A10 TCON channel-1 clock register: one 32-bit
 * word holding the stage-2 gate, mux and divider and the stage-1 gate and
 * divider. A field is described the way the clock framework's descriptors
 * describe it: a mux by shift and mask, a divider by shift and width, a
 * gate by a single bit index. Each description denotes the set of bit
 * positions it occupies.
 */
module Layout {

  /** Width of the register word. */
  const REG_BITS: nat := 32

  const SCLK2_PARENTS: nat := 4

  const SCLK2_GATE_BIT: nat := 31
  const SCLK2_MUX_MASK: nat := 3
  const SCLK2_MUX_SHIFT: nat := 24
  const SCLK2_DIV_WIDTH: nat := 4
  const SCLK2_DIV_SHIFT: nat := 0

  const SCLK1_GATE_BIT: nat := 15
  const SCLK1_DIV_WIDTH: nat := 1
  const SCLK1_DIV_SHIFT: nat := 11

  function Pow2(n: nat): (r: nat)
    ensures r >= 1
  {
    if n == 0 then 1 else 2 * Pow2(n - 1)
  }

  /** The contiguous bit positions lo .. lo + width - 1. */
  function Span(lo: nat, width: nat): (s: set<nat>)
    ensures forall b :: b in s <==> lo <= b < lo + width
  {
    if width == 0 then {} else Span(lo, width - 1) + {lo + width - 1}
  }

  /** Number of significant bits of mask: the mask fits in that many bits, and no fewer. */
  function BitLength(mask: nat): (n: nat)
    ensures mask < Pow2(n)
    ensures n > 0 ==> Pow2(n - 1) <= mask
  {
    if mask == 0 then 0 else 1 + BitLength(mask / 2)
  }

  /**
   * Bits read by a mux descriptor, (word >> shift) & mask: the window from
   * shift up to the mask's highest one bit.
   */
  function MuxBits(shift: nat, mask: nat): set<nat>
  {
    Span(shift, BitLength(mask))
  }

  /** Bits read by a divider descriptor: width bits starting at shift. */
  function DividerBits(shift: nat, width: nat): set<nat>
  {
    Span(shift, width)
  }

  /** Bit toggled by a gate descriptor. */
  function GateBits(bitIdx: nat): set<nat>
  {
    {bitIdx}
  }

  /** A mask of w low one bits has bit length w, so its selectable values are 0 .. mask. */
  lemma {:induction false} LowMaskLength(w: nat)
    ensures BitLength(Pow2(w) - 1) == w
  {
    if w > 0 {
      assert (Pow2(w) - 1) / 2 == Pow2(w - 1) - 1;
      LowMaskLength(w - 1);
    }
  }

  /** Two spans of positive width are disjoint exactly when one ends before the other starts. */
  lemma SpansDisjoint(a: nat, wa: nat, b: nat, wb: nat)
    requires wa > 0 && wb > 0
    ensures Span(a, wa) * Span(b, wb) == {} <==> (a + wa <= b || b + wb <= a)
  {
    if !(a + wa <= b || b + wb <= a) {
      var c := if a <= b then b else a;
      assert c in Span(a, wa) * Span(b, wb);
    }
  }

  /** The five fields in register order, high bits first. */
  function Fields(): seq<set<nat>>
  {
    [ GateBits(SCLK2_GATE_BIT),
      MuxBits(SCLK2_MUX_SHIFT, SCLK2_MUX_MASK),
      GateBits(SCLK1_GATE_BIT),
      DividerBits(SCLK1_DIV_SHIFT, SCLK1_DIV_WIDTH),
      DividerBits(SCLK2_DIV_SHIFT, SCLK2_DIV_WIDTH) ]
  }

  /**
   * The stage-2 mux reads bits 24 and 25, so it can select exactly as many
   * values (0 .. mask) as there are stage-2 parents.
   */
  lemma MuxRangeMatchesParents()
    ensures MuxBits(SCLK2_MUX_SHIFT, SCLK2_MUX_MASK) == Span(24, 2)
    ensures SCLK2_MUX_MASK == Pow2(BitLength(SCLK2_MUX_MASK)) - 1
    ensures SCLK2_MUX_MASK + 1 == SCLK2_PARENTS
  {
    LowMaskLength(2);
  }

  /** Every field lies within the 32-bit word and no two fields share a bit. */
  lemma LayoutFitsAndIsDisjoint()
    ensures |Fields()| == 5
    ensures forall i, b :: 0 <= i < |Fields()| && b in Fields()[i] ==> b < REG_BITS
    ensures forall i, j :: 0 <= i < j < |Fields()| ==> Fields()[i] * Fields()[j] == {}
  {
    MuxRangeMatchesParents();
    var f := Fields();
    assert f[0] == Span(31, 1);
    assert f[1] == Span(24, 2);
    assert f[2] == Span(15, 1);
    assert f[3] == Span(11, 1);
    assert f[4] == Span(0, 4);
    SpansDisjoint(31, 1, 24, 2);
    SpansDisjoint(31, 1, 15, 1);
    SpansDisjoint(31, 1, 11, 1);
    SpansDisjoint(31, 1, 0, 4);
    SpansDisjoint(24, 2, 15, 1);
    SpansDisjoint(24, 2, 11, 1);
    SpansDisjoint(24, 2, 0, 4);
    SpansDisjoint(15, 1, 11, 1);
    SpansDisjoint(15, 1, 0, 4);
    SpansDisjoint(11, 1, 0, 4);
  }
}
