/** The 128-bit UUID layout (bit 0 is the least significant bit) and the
    pure bit builders of generators.py that turn random words into
    well-formed UUIDs.

    Version field: bits 76-79 (section 4.1.3 of RFC 4122, section 4.2 of
    RFC 9562).  Variant field: bits 62-63, value 0b10 (section 4.1.1 of
    RFC 4122, section 4.1 of RFC 9562). */
module UuidLayout {
  import opened Base

  type Uuid = bv128

  /** The word with the low k bits set: a k-bit value is one that `Fits`. */
  function LowMask(k: nat): bv128
    requires k <= 128
  {
    if k == 128 then !0 else ((1 as bv128) << k) - 1
  }

  predicate Fits(x: bv128, k: nat)
    requires k <= 128
  {
    x & !LowMask(k) == 0
  }

  const VersionMask: bv128 := 0xF << 76
  const VariantMask: bv128 := 0x3 << 62

  function VersionField(u: Uuid): bv128 { (u >> 76) & 0xF }
  function VariantField(u: Uuid): bv128 { (u >> 62) & 0x3 }

  /** RFC 4122 / RFC 9562 field views used by the v1 and v6 layouts. */
  function NodeField(u: Uuid): bv128 { u & LowMask(48) }
  function ClockSeqField(u: Uuid): bv128 { (u >> 48) & LowMask(14) }

  /** Version `v` and the RFC variant 0b10. */
  predicate WellFormed(u: Uuid, v: bv128)
  {
    VersionField(u) == v && VariantField(u) == 2
  }

  /** A Python int reduced to its low 14 bits (`x & 0x3FFF`; Python's `&`
      on a negative int agrees with the Euclidean remainder). */
  function Low14(x: int): bv128
  {
    ((x % 0x4000) as bv14) as bv128
  }

  /** An int known to lie in [0, 2^48) as a 48-bit field. */
  function NodeBits(x: int): bv128
    requires 0 <= x < 0x1_0000_0000_0000
  {
    (x as bv48) as bv128
  }

  lemma Low14Fits(x: int)
    ensures Fits(Low14(x), 14)
  {
  }

  lemma NodeBitsFits(x: int)
    requires 0 <= x < 0x1_0000_0000_0000
    ensures Fits(NodeBits(x), 48)
  {
  }

  /** generate_uuid_from_random's bit surgery on a 128-bit random word:
      version forced to 4, variant to 0b10, every other bit kept. */
  function FromRandomV4(r: bv128): (u: Uuid)
    ensures WellFormed(u, 4)
    ensures u & !(VersionMask | VariantMask) == r & !(VersionMask | VariantMask)
  {
    var withVersion := (r & !(0xF << 76)) | (4 << 76);
    (withVersion & !(0x3 << 62)) | (0x2 << 62)
  }

  /** The v1 field layout of generate_uuid1_from_random, composed the way
      `uuid.UUID(fields=...)` does. The caller has already checked that the
      node is a 48-bit value (the constructor raises otherwise). */
  function BuildV1(timeLow: bv128, timeMid: bv128, timeHi: bv128, clockSeq: bv128, node: bv128): (u: Uuid)
    requires Fits(timeLow, 32) && Fits(timeMid, 16) && Fits(timeHi, 12)
    requires Fits(clockSeq, 14) && Fits(node, 48)
    ensures WellFormed(u, 1)
    ensures NodeField(u) == node
    ensures ClockSeqField(u) == clockSeq
    ensures u >> 96 == timeLow
    ensures (u >> 80) & LowMask(16) == timeMid
    ensures (u >> 64) & LowMask(12) == timeHi
  {
    var timeHiVersion := (1 << 12) | timeHi;
    var clockSeqHi := (clockSeq >> 8) & 0x3F;
    var clockSeqHiVariant := 0x80 | clockSeqHi;
    var clockSeqLow := clockSeq & 0xFF;
    (timeLow << 96) | (timeMid << 80) | (timeHiVersion << 64)
      | (clockSeqHiVariant << 56) | (clockSeqLow << 48) | node
  }

  /** The v6 layout of generate_uuid6_from_random, section 5.6 of RFC 9562,
      for a node word that the caller supplies as 128 bits. The source ORs
      the node in without masking it. */
  function LayoutV6(timeHigh: bv128, timeMid: bv128, timeLow: bv128, clockSeq: bv128, node: bv128): Uuid
  {
    (timeHigh << 96) | (timeMid << 80) | (6 << 76) | (timeLow << 64)
      | (0x2 << 62) | (clockSeq << 48) | node
  }

  /** With a 48-bit node the v6 layout is well formed and keeps every field. */
  lemma LayoutV6Fields(timeHigh: bv128, timeMid: bv128, timeLow: bv128, clockSeq: bv128, node: bv128)
    requires Fits(timeHigh, 32) && Fits(timeMid, 16) && Fits(timeLow, 12)
    requires Fits(clockSeq, 14) && Fits(node, 48)
    ensures var u := LayoutV6(timeHigh, timeMid, timeLow, clockSeq, node);
      && WellFormed(u, 6)
      && NodeField(u) == node
      && ClockSeqField(u) == clockSeq
      && u >> 96 == timeHigh
      && (u >> 80) & LowMask(16) == timeMid
      && (u >> 64) & LowMask(12) == timeLow
  {
  }

  /** An int `uuid.UUID(int=...)` accepts: one in [0, 2^128). */
  predicate IsUuidInt(x: int)
  {
    0 <= x < 0x1_0000_0000_0000_0000_0000_0000_0000_0000
  }

  /** generate_uuid6_from_random as written: a supplied node is ORed in
      unmasked, and `uuid.UUID(int=...)` rejects only results outside
      [0, 2^128) (a negative node makes the OR negative). */
  function BuildV6AsWritten(timeHigh: bv128, timeMid: bv128, timeLow: bv128, clockSeq: bv128, node: int): (r: Result<Uuid>)
    requires Fits(timeHigh, 32) && Fits(timeMid, 16) && Fits(timeLow, 12) && Fits(clockSeq, 14)
    ensures r.Err? <==> !IsUuidInt(node)
    ensures r.Err? ==> r.error.ValueError?
    ensures 0 <= node < 0x1_0000_0000_0000 ==>
      && r.Ok?
      && WellFormed(r.value, 6)
      && NodeField(r.value) == NodeBits(node)
      && ClockSeqField(r.value) == clockSeq
  {
    if IsUuidInt(node) then
      if 0 <= node < 0x1_0000_0000_0000 then
        NodeBitsFits(node);
        assert node as bv128 == NodeBits(node);
        LayoutV6Fields(timeHigh, timeMid, timeLow, clockSeq, NodeBits(node));
        Ok(LayoutV6(timeHigh, timeMid, timeLow, clockSeq, node as bv128))
      else
        Ok(LayoutV6(timeHigh, timeMid, timeLow, clockSeq, node as bv128))
    else
      Err(ValueError("int is out of range (need a 128-bit value)"))
  }

  /** A 63-bit node reaches the variant bits: the result is not an RFC
      variant UUID although the builder promises one. */
  lemma V6NodeOverflowBreaksVariant()
    ensures BuildV6AsWritten(0, 0, 0, 0, 0x4000_0000_0000_0000).Ok?
    ensures VariantField(BuildV6AsWritten(0, 0, 0, 0, 0x4000_0000_0000_0000).value) == 3
  {
    assert (0x4000_0000_0000_0000 as int) as bv128 == 0x4000_0000_0000_0000;
  }

  /** generate_uuid6_from_random as its docstring describes it (a 48-bit
      node): a node that does not fit is a ValueError, as the v1 builder's
      `uuid.UUID(fields=...)` raises; otherwise a well-formed v6 UUID that
      carries the node and clock sequence. */
  function BuildV6(timeHigh: bv128, timeMid: bv128, timeLow: bv128, clockSeq: bv128, node: int): (r: Result<Uuid>)
    requires Fits(timeHigh, 32) && Fits(timeMid, 16) && Fits(timeLow, 12) && Fits(clockSeq, 14)
    ensures r.Ok? <==> 0 <= node < 0x1_0000_0000_0000
    ensures r.Err? ==> r.error.ValueError?
    ensures r.Ok? ==> WellFormed(r.value, 6) && NodeField(r.value) == NodeBits(node) && ClockSeqField(r.value) == clockSeq
  {
    if 0 <= node < 0x1_0000_0000_0000 then
      NodeBitsFits(node);
      LayoutV6Fields(timeHigh, timeMid, timeLow, clockSeq, NodeBits(node));
      Ok(LayoutV6(timeHigh, timeMid, timeLow, clockSeq, NodeBits(node)))
    else
      Err(ValueError("field 6 out of range (need a 48-bit value)"))
  }

  /** On a 48-bit node the builder as written and the corrected one agree. */
  lemma BuildV6AgreesOnNode48(timeHigh: bv128, timeMid: bv128, timeLow: bv128, clockSeq: bv128, node: int)
    requires Fits(timeHigh, 32) && Fits(timeMid, 16) && Fits(timeLow, 12) && Fits(clockSeq, 14)
    requires 0 <= node < 0x1_0000_0000_0000
    ensures BuildV6AsWritten(timeHigh, timeMid, timeLow, clockSeq, node) == BuildV6(timeHigh, timeMid, timeLow, clockSeq, node)
  {
    assert node as bv128 == (node as bv48) as bv128;
  }

  /** generate_uuid7_from_random, section 5.7 of RFC 9562:
      unix_ts_ms (48) | version (4) | rand_a (12) | variant (2) | rand_b (62). */
  function BuildV7(unixTsMs: bv128, randA: bv128, randB: bv128): (u: Uuid)
    requires Fits(unixTsMs, 48) && Fits(randA, 12) && Fits(randB, 62)
    ensures WellFormed(u, 7)
    ensures u >> 80 == unixTsMs
    ensures (u >> 64) & LowMask(12) == randA
    ensures u & LowMask(62) == randB
  {
    (unixTsMs << 80) | (7 << 76) | (randA << 64) | (0x2 << 62) | randB
  }

  /** generate_uuid8_from_random, section 5.8 of RFC 9562:
      custom_a (48) | version (4) | custom_b (12) | variant (2) | custom_c (62). */
  function BuildV8(customA: bv128, customB: bv128, customC: bv128): (u: Uuid)
    requires Fits(customA, 48) && Fits(customB, 12) && Fits(customC, 62)
    ensures WellFormed(u, 8)
    ensures u >> 80 == customA
    ensures (u >> 64) & LowMask(12) == customB
    ensures u & LowMask(62) == customC
  {
    (customA << 80) | (8 << 76) | (customB << 64) | (0x2 << 62) | customC
  }
}
