/** Public addresses by prefix masks (src/url_filter.rs:165-204). A base and a prefix
    length stand for an interval of addresses, as in section 3.1 of RFC 4632. */
module Addresses {

  // ---------------------------------------------------------------------- 32 bits

  datatype Block4 = Block4(base: bv32, bits: bv6)

  function Mask4(bits: bv6): bv32 {
    if bits <= 32 then 0xFFFF_FFFF << (32 - bits) else 0
  }

  predicate AtMost4(a: bv32, b: bv32) { a <= b }

  /** The program's test. */
  predicate Masked4(n: bv32, base: bv32, mask: bv32) { n & mask == base }

  /** The addresses from `base` to the one with every host bit set. */
  predicate Within4(n: bv32, base: bv32, mask: bv32) { AtMost4(base, n) && AtMost4(n, base | !mask) }

  predicate MaskedAtMost4(a: bv32, b: bv32, mask: bv32) { AtMost4(a & mask, b & mask) }

  predicate Squeezed4(n: bv32, base: bv32, mask: bv32) {
    MaskedAtMost4(base, n, mask) && MaskedAtMost4(n, base | !mask, mask) && Masked4(base, base, mask)
  }

  lemma MaskedIsWithin4(n: bv32, base: bv32, mask: bv32)
    ensures Masked4(n, base, mask) ==> Within4(n, base, mask)
  {
  }

  lemma BothEnds4(n: bv32, base: bv32, bits: bv6)
    requires 1 <= bits <= 32 && Within4(n, base, Mask4(bits)) && Masked4(base, base, Mask4(bits))
    ensures Squeezed4(n, base, Mask4(bits))
  {
  }

  lemma SqueezedIsMasked4(n: bv32, base: bv32, mask: bv32)
    requires Squeezed4(n, base, mask)
    ensures Masked4(n, base, mask)
  {
  }

  lemma InsideIsMasked4(n: bv32, base: bv32, bits: bv6)
    requires 1 <= bits <= 32 && Within4(n, base, Mask4(bits)) && Masked4(base, base, Mask4(bits))
    ensures Masked4(n, base, Mask4(bits))
  {
    BothEnds4(n, base, bits);
    SqueezedIsMasked4(n, base, Mask4(bits));
  }

  lemma WithinIsMasked4(n: bv32, base: bv32, bits: bv6)
    requires 1 <= bits <= 32 && Masked4(base, base, Mask4(bits))
    ensures Within4(n, base, Mask4(bits)) ==> Masked4(n, base, Mask4(bits))
  {
    if Within4(n, base, Mask4(bits)) {
      InsideIsMasked4(n, base, bits);
    }
  }

  /** For every prefix length and every aligned base, the mask test is the interval test. */
  lemma MaskIsInterval4(n: bv32, base: bv32, bits: bv6)
    requires 1 <= bits <= 32 && Masked4(base, base, Mask4(bits))
    ensures Masked4(n, base, Mask4(bits)) <==> Within4(n, base, Mask4(bits))
  {
    MaskedIsWithin4(n, base, Mask4(bits));
    WithinIsMasked4(n, base, bits);
  }

  /** The interval holds 2^(32 - bits) addresses. */
  lemma IntervalSize4(base: bv32, bits: bv6)
    requires 1 <= bits <= 32 && Masked4(base, base, Mask4(bits))
    ensures (base | !Mask4(bits)) - base == (1 << (32 - bits)) - 1
  {
  }

  // ---------------------------------------------------------------------- 128 bits

  datatype Block6 = Block6(base: bv128, bits: bv8)

  function Mask6(bits: bv8): bv128 {
    if bits <= 128 then 0xFFFF_FFFF_FFFF_FFFF_FFFF_FFFF_FFFF_FFFF << (128 - bits) else 0
  }

  predicate AtMost6(a: bv128, b: bv128) { a <= b }

  /** The program's test. */
  predicate Masked6(n: bv128, base: bv128, mask: bv128) { n & mask == base }

  /** The addresses from `base` to the one with every host bit set. */
  predicate Within6(n: bv128, base: bv128, mask: bv128) { AtMost6(base, n) && AtMost6(n, base | !mask) }

  predicate MaskedAtMost6(a: bv128, b: bv128, mask: bv128) { AtMost6(a & mask, b & mask) }

  predicate Squeezed6(n: bv128, base: bv128, mask: bv128) {
    MaskedAtMost6(base, n, mask) && MaskedAtMost6(n, base | !mask, mask) && Masked6(base, base, mask)
  }

  lemma PrefixIsMonotone6(a: bv128, b: bv128, bits: bv8)
    requires 1 <= bits <= 128 && AtMost6(a, b)
    ensures MaskedAtMost6(a, b, Mask6(bits))
  {
  }

  lemma PrefixIsBelow6(n: bv128, mask: bv128)
    ensures AtMost6(n & mask, n)
  {
  }

  lemma PrefixIsNear6(n: bv128, mask: bv128)
    ensures AtMost6(n, (n & mask) | !mask)
  {
  }

  lemma MaskedIsWithin6(n: bv128, base: bv128, mask: bv128)
    ensures Masked6(n, base, mask) ==> Within6(n, base, mask)
  {
    if Masked6(n, base, mask) {
      PrefixIsBelow6(n, mask);
      PrefixIsNear6(n, mask);
    }
  }

  lemma LowerEnd6(n: bv128, base: bv128, bits: bv8)
    requires 1 <= bits <= 128 && Within6(n, base, Mask6(bits))
    ensures MaskedAtMost6(base, n, Mask6(bits))
  {
    PrefixIsMonotone6(base, n, bits);
  }

  lemma UpperEnd6(n: bv128, base: bv128, bits: bv8)
    requires 1 <= bits <= 128 && Within6(n, base, Mask6(bits))
    ensures MaskedAtMost6(n, base | !Mask6(bits), Mask6(bits))
  {
    PrefixIsMonotone6(n, base | !Mask6(bits), bits);
  }

  lemma BothEnds6(n: bv128, base: bv128, bits: bv8)
    requires 1 <= bits <= 128 && Within6(n, base, Mask6(bits)) && Masked6(base, base, Mask6(bits))
    ensures Squeezed6(n, base, Mask6(bits))
  {
    LowerEnd6(n, base, bits);
    UpperEnd6(n, base, bits);
  }

  lemma SqueezedIsMasked6(n: bv128, base: bv128, mask: bv128)
    requires Squeezed6(n, base, mask)
    ensures Masked6(n, base, mask)
  {
  }

  lemma InsideIsMasked6(n: bv128, base: bv128, bits: bv8)
    requires 1 <= bits <= 128 && Within6(n, base, Mask6(bits)) && Masked6(base, base, Mask6(bits))
    ensures Masked6(n, base, Mask6(bits))
  {
    BothEnds6(n, base, bits);
    SqueezedIsMasked6(n, base, Mask6(bits));
  }

  lemma WithinIsMasked6(n: bv128, base: bv128, bits: bv8)
    requires 1 <= bits <= 128 && Masked6(base, base, Mask6(bits))
    ensures Within6(n, base, Mask6(bits)) ==> Masked6(n, base, Mask6(bits))
  {
    if Within6(n, base, Mask6(bits)) {
      InsideIsMasked6(n, base, bits);
    }
  }

  /** For every prefix length and every aligned base, the mask test is the interval test. */
  lemma MaskIsInterval6(n: bv128, base: bv128, bits: bv8)
    requires 1 <= bits <= 128 && Masked6(base, base, Mask6(bits))
    ensures Masked6(n, base, Mask6(bits)) <==> Within6(n, base, Mask6(bits))
  {
    MaskedIsWithin6(n, base, Mask6(bits));
    WithinIsMasked6(n, base, bits);
  }

  /** The interval holds 2^(128 - bits) addresses. */
  lemma IntervalSize6(base: bv128, bits: bv8)
    requires 1 <= bits <= 128 && Masked6(base, base, Mask6(bits))
    ensures (base | !Mask6(bits)) - base == (1 << (128 - bits)) - 1
  {
  }

  // ------------------------------------------------------------------- the policies

  function Quad(a: bv32, b: bv32, c: bv32, d: bv32): bv32 { (a << 24) | (b << 16) | (c << 8) | d }

  const BLOCKED4: seq<Block4> := [
    Block4(Quad(0, 0, 0, 0), 8), Block4(Quad(10, 0, 0, 0), 8), Block4(Quad(100, 64, 0, 0), 10),
    Block4(Quad(127, 0, 0, 0), 8), Block4(Quad(169, 254, 0, 0), 16), Block4(Quad(172, 16, 0, 0), 12),
    Block4(Quad(192, 0, 0, 0), 24), Block4(Quad(192, 0, 2, 0), 24), Block4(Quad(192, 88, 99, 0), 24),
    Block4(Quad(192, 168, 0, 0), 16), Block4(Quad(198, 18, 0, 0), 15), Block4(Quad(198, 51, 100, 0), 24),
    Block4(Quad(203, 0, 113, 0), 24), Block4(Quad(224, 0, 0, 0), 4), Block4(Quad(240, 0, 0, 0), 4)]

  predicate Matches4(n: bv32, b: Block4) { Masked4(n, b.base, Mask4(b.bits)) }

  predicate PublicV4(n: bv32) { !exists i :: 0 <= i < |BLOCKED4| && Matches4(n, BLOCKED4[i]) }

  datatype Range4 = Range4(first: bv32, last: bv32)

  predicate InRange4(n: bv32, r: Range4) { AtMost4(r.first, n) && AtMost4(n, r.last) }

  /** The blocked IPv4 intervals. */
  const RANGES4: seq<Range4> := [
    Range4(0x0000_0000, 0x00FF_FFFF), Range4(0x0A00_0000, 0x0AFF_FFFF), Range4(0x6440_0000, 0x647F_FFFF),
    Range4(0x7F00_0000, 0x7FFF_FFFF), Range4(0xA9FE_0000, 0xA9FE_FFFF), Range4(0xAC10_0000, 0xAC1F_FFFF),
    Range4(0xC000_0000, 0xC000_00FF), Range4(0xC000_0200, 0xC000_02FF), Range4(0xC058_6300, 0xC058_63FF),
    Range4(0xC0A8_0000, 0xC0A8_FFFF), Range4(0xC612_0000, 0xC613_FFFF), Range4(0xC633_6400, 0xC633_64FF),
    Range4(0xCB00_7100, 0xCB00_71FF), Range4(0xE000_0000, 0xEFFF_FFFF), Range4(0xF000_0000, 0xFFFF_FFFF)]

  predicate Ends4(base: bv32, mask: bv32, r: Range4) { base == r.first && base | !mask == r.last }

  predicate Describes4(b: Block4, r: Range4) {
    1 <= b.bits <= 32 && Masked4(b.base, b.base, Mask4(b.bits)) && Ends4(b.base, Mask4(b.bits), r)
  }

  lemma WithinIsRange4(n: bv32, base: bv32, mask: bv32, r: Range4)
    requires Ends4(base, mask, r)
    ensures Within4(n, base, mask) <==> InRange4(n, r)
  {
  }

  lemma MaskIsRange4(n: bv32, base: bv32, bits: bv6, r: Range4)
    requires 1 <= bits <= 32 && Masked4(base, base, Mask4(bits)) && Ends4(base, Mask4(bits), r)
    ensures Masked4(n, base, Mask4(bits)) <==> InRange4(n, r)
  {
    MaskIsInterval4(n, base, bits);
    WithinIsRange4(n, base, Mask4(bits), r);
  }

  lemma RangeOfBlock4(n: bv32, b: Block4, r: Range4)
    requires Describes4(b, r)
    ensures Matches4(n, b) <==> InRange4(n, r)
  {
    MaskIsRange4(n, b.base, b.bits, r);
  }

  lemma TableIsRight4(i: nat)
    requires i < 15
    ensures |BLOCKED4| == |RANGES4| == 15 && Describes4(BLOCKED4[i], RANGES4[i])
  {
    if i < 5 { assert i == 0 || i == 1 || i == 2 || i == 3 || i == 4; }
    else if i < 10 { assert i == 5 || i == 6 || i == 7 || i == 8 || i == 9; }
  }

  lemma TableEntry4(n: bv32, i: nat)
    requires i < 15
    ensures |BLOCKED4| == |RANGES4| == 15 && (Matches4(n, BLOCKED4[i]) <==> InRange4(n, RANGES4[i]))
  {
    TableIsRight4(i);
    RangeOfBlock4(n, BLOCKED4[i], RANGES4[i]);
  }

  /** An IPv4 address is public exactly outside the fifteen intervals. */
  lemma PublicV4IsComplement(n: bv32)
    ensures PublicV4(n) <==> !exists i :: 0 <= i < |RANGES4| && InRange4(n, RANGES4[i])
  {
    TableEntry4(n, 0);
    forall i: nat | i < 15 ensures Matches4(n, BLOCKED4[i]) <==> InRange4(n, RANGES4[i]) {
      TableEntry4(n, i);
    }
  }

  function Hextets(a: bv128, b: bv128): bv128 { (a << 112) | (b << 96) }

  const GLOBAL6 := Block6(Hextets(0x2000, 0), 3)

  const BLOCKED6: seq<Block6> := [
    Block6(Hextets(0x2001, 0), 23), Block6(Hextets(0x2001, 0xdb8), 32),
    Block6(Hextets(0x2002, 0), 16), Block6(Hextets(0x3fff, 0), 20)]

  predicate Matches6(n: bv128, b: Block6) { Masked6(n, b.base, Mask6(b.bits)) }

  predicate PublicV6(n: bv128) {
    Matches6(n, GLOBAL6) && !exists i :: 0 <= i < |BLOCKED6| && Matches6(n, BLOCKED6[i])
  }

  datatype Range6 = Range6(first: bv128, last: bv128)

  predicate InRange6(n: bv128, r: Range6) { AtMost6(r.first, n) && AtMost6(n, r.last) }

  /** The range written by its top 32 bits. */
  function Top(first: bv128, last: bv128): Range6 { Range6(first << 96,
               (last << 96) | 0xFFFF_FFFF_FFFF_FFFF_FFFF_FFFF) }

  const GLOBAL_RANGE6 := Top(0x2000_0000, 0x3FFF_FFFF)

  /** The blocked IPv6 intervals. */
  const RANGES6: seq<Range6> := [
    Top(0x2001_0000, 0x2001_01FF), Top(0x2001_0DB8, 0x2001_0DB8),
    Top(0x2002_0000, 0x2002_FFFF), Top(0x3FFF_0000, 0x3FFF_0FFF)]

  predicate Ends6(base: bv128, mask: bv128, r: Range6) { base == r.first && base | !mask == r.last }

  predicate Describes6(b: Block6, r: Range6) {
    1 <= b.bits <= 128 && Masked6(b.base, b.base, Mask6(b.bits)) && Ends6(b.base, Mask6(b.bits), r)
  }

  lemma WithinIsRange6(n: bv128, base: bv128, mask: bv128, r: Range6)
    requires Ends6(base, mask, r)
    ensures Within6(n, base, mask) <==> InRange6(n, r)
  {
  }

  lemma MaskIsRange6(n: bv128, base: bv128, bits: bv8, r: Range6)
    requires 1 <= bits <= 128 && Masked6(base, base, Mask6(bits)) && Ends6(base, Mask6(bits), r)
    ensures Masked6(n, base, Mask6(bits)) <==> InRange6(n, r)
  {
    MaskIsInterval6(n, base, bits);
    WithinIsRange6(n, base, Mask6(bits), r);
  }

  lemma RangeOfBlock6(n: bv128, b: Block6, r: Range6)
    requires Describes6(b, r)
    ensures Matches6(n, b) <==> InRange6(n, r)
  {
    MaskIsRange6(n, b.base, b.bits, r);
  }

  lemma TableIsRight6(i: nat)
    requires i < 4
    ensures |BLOCKED6| == |RANGES6| == 4 && Describes6(BLOCKED6[i], RANGES6[i])
    ensures Describes6(GLOBAL6, GLOBAL_RANGE6)
  {
    assert i == 0 || i == 1 || i == 2 || i == 3;
  }

  lemma TableEntry6(n: bv128, i: nat)
    requires i < 4
    ensures |BLOCKED6| == |RANGES6| == 4 && (Matches6(n, BLOCKED6[i]) <==> InRange6(n, RANGES6[i]))
  {
    TableIsRight6(i);
    RangeOfBlock6(n, BLOCKED6[i], RANGES6[i]);
  }

  lemma GlobalIsRange6(n: bv128)
    ensures Matches6(n, GLOBAL6) <==> InRange6(n, GLOBAL_RANGE6)
  {
  }

  /** An IPv6 address is public exactly inside 2000::/3 and outside the four intervals. */
  lemma PublicV6IsComplement(n: bv128)
    ensures PublicV6(n) <==> InRange6(n, GLOBAL_RANGE6) && !exists i :: 0 <= i < |RANGES6| && InRange6(n, RANGES6[i])
  {
    GlobalIsRange6(n);
    TableEntry6(n, 0);
    forall i: nat | i < 4 ensures Matches6(n, BLOCKED6[i]) <==> InRange6(n, RANGES6[i]) {
      TableEntry6(n, i);
    }
  }
}
