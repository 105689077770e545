/**
 * The constant bit layouts of the machine-independent pmap interface, in the
 * x86_64 configuration: creation flags and their known-flags mask, the
 * `PMAP_OPTIONS_*` option bits, the reference/modify bits and the
 * `pmap_query_page_info` disposition bits, with the encodings they define.
 */
module PmapConstants {
  import opened PmapTypes

  /** A word with exactly one bit set. */
  predicate IsSingleBit(b: Word) {
    b != 0 && b & (b - 1) == 0
  }

  /** Every element is a single bit, and no two elements share a bit. */
  predicate DistinctBits(s: seq<Word>) {
    && (forall i :: 0 <= i < |s| ==> IsSingleBit(s[i]))
    && (forall i, j :: 0 <= i < j < |s| ==> s[i] & s[j] == 0)
  }

  // ---------------------------------------------------------------------
  // Creation flags (x86_64)

  const PMAP_CREATE_64BIT: Word := 0x1
  const PMAP_CREATE_EPT: Word := 0x2
  const PMAP_CREATE_KNOWN_FLAGS: Word := PMAP_CREATE_64BIT | PMAP_CREATE_EPT

  /** The bits of `flags` that lie outside `PMAP_CREATE_KNOWN_FLAGS`. */
  function UnknownCreateFlags(flags: Word): (u: Word)
    ensures u & PMAP_CREATE_KNOWN_FLAGS == 0
    ensures u | (flags & PMAP_CREATE_KNOWN_FLAGS) == flags
  {
    flags & !PMAP_CREATE_KNOWN_FLAGS
  }

  /** Creation flags that a known-flags check accepts. */
  predicate CreateFlagsKnown(flags: Word) {
    UnknownCreateFlags(flags) == 0
  }

  /** The accepted creation flags are exactly the combinations of 64-bit and EPT. */
  lemma CreateFlagsKnownIff(flags: Word)
    ensures CreateFlagsKnown(flags) <==>
      (flags == 0 || flags == PMAP_CREATE_64BIT || flags == PMAP_CREATE_EPT
       || flags == PMAP_CREATE_64BIT | PMAP_CREATE_EPT)
  {
  }

  /** A rejected flag word carries at least one single bit that the mask does not contain. */
  lemma UnknownFlagHasBitOutsideMask(flags: Word) returns (bit: Word)
    requires !CreateFlagsKnown(flags)
    ensures IsSingleBit(bit)
    ensures flags & bit == bit
    ensures PMAP_CREATE_KNOWN_FLAGS & bit == 0
  {
    var u := UnknownCreateFlags(flags);
    bit := u & (0 - u);
  }

  /** The creation flags are distinct single bits. */
  lemma CreateFlagsDistinct()
    ensures DistinctBits([PMAP_CREATE_64BIT, PMAP_CREATE_EPT])
  {
  }

  // ---------------------------------------------------------------------
  // Option bits (x86_64: PMAP_OPTIONS_FF_LOCKED and PMAP_OPTIONS_FF_WIRED are ARM-only)

  const PMAP_OPTIONS_NOWAIT: Word := 0x1
  const PMAP_OPTIONS_NOENTER: Word := 0x2
  const PMAP_OPTIONS_COMPRESSOR: Word := 0x4
  const PMAP_OPTIONS_INTERNAL: Word := 0x8
  const PMAP_OPTIONS_REUSABLE: Word := 0x10
  const PMAP_OPTIONS_NOFLUSH: Word := 0x20
  const PMAP_OPTIONS_NOREFMOD: Word := 0x40
  const PMAP_OPTIONS_ALT_ACCT: Word := 0x80
  const PMAP_OPTIONS_REMOVE: Word := 0x100
  const PMAP_OPTIONS_SET_REUSABLE: Word := 0x200
  const PMAP_OPTIONS_CLEAR_REUSABLE: Word := 0x400
  const PMAP_OPTIONS_COMPRESSOR_IFF_MODIFIED: Word := 0x800
  const PMAP_OPTIONS_PROTECT_IMMEDIATE: Word := 0x1000
  const PMAP_OPTIONS_CLEAR_WRITE: Word := 0x2000
  const PMAP_OPTIONS_TRANSLATED_ALLOW_EXECUTE: Word := 0x4000
  const PMAP_OPTIONS_MAP_TPRO: Word := 0x40000

  /** Every option bit defined for this configuration, in declaration order. */
  const ALL_OPTIONS: seq<Word> := [
    PMAP_OPTIONS_NOWAIT, PMAP_OPTIONS_NOENTER, PMAP_OPTIONS_COMPRESSOR,
    PMAP_OPTIONS_INTERNAL, PMAP_OPTIONS_REUSABLE, PMAP_OPTIONS_NOFLUSH,
    PMAP_OPTIONS_NOREFMOD, PMAP_OPTIONS_ALT_ACCT, PMAP_OPTIONS_REMOVE,
    PMAP_OPTIONS_SET_REUSABLE, PMAP_OPTIONS_CLEAR_REUSABLE,
    PMAP_OPTIONS_COMPRESSOR_IFF_MODIFIED, PMAP_OPTIONS_PROTECT_IMMEDIATE,
    PMAP_OPTIONS_CLEAR_WRITE, PMAP_OPTIONS_TRANSLATED_ALLOW_EXECUTE,
    PMAP_OPTIONS_MAP_TPRO]

  /** The option values are pairwise distinct single bits. */
  lemma OptionsDistinct()
    ensures |ALL_OPTIONS| == 16
    ensures DistinctBits(ALL_OPTIONS)
  {
  }

  // ---------------------------------------------------------------------
  // Reference / modify bits

  const VM_MEM_MODIFIED: Word := 0x01
  const VM_MEM_REFERENCED: Word := 0x02
  const VM_MEM_REFMOD_MASK: Word := VM_MEM_MODIFIED | VM_MEM_REFERENCED

  /** The two-bit reference/modify state of a physical page. */
  datatype RefMod = RefMod(referenced: bool, modified: bool)

  /** The combined mask `pmap_get_refmod` reports for a state. */
  function EncodeRefMod(s: RefMod): (w: Word)
    ensures w & !VM_MEM_REFMOD_MASK == 0
    ensures (w & VM_MEM_MODIFIED != 0) <==> s.modified
    ensures (w & VM_MEM_REFERENCED != 0) <==> s.referenced
  {
    (if s.modified then VM_MEM_MODIFIED else 0) | (if s.referenced then VM_MEM_REFERENCED else 0)
  }

  /** Reads the state back from a mask; bits outside the two are ignored. */
  function DecodeRefMod(w: Word): (s: RefMod)
    ensures EncodeRefMod(s) == w & VM_MEM_REFMOD_MASK
  {
    RefMod(w & VM_MEM_REFERENCED != 0, w & VM_MEM_MODIFIED != 0)
  }

  /** The two bits are disjoint, so a state survives encoding and decoding. */
  lemma RefModRoundTrip(s: RefMod)
    ensures DistinctBits([VM_MEM_MODIFIED, VM_MEM_REFERENCED])
    ensures DecodeRefMod(EncodeRefMod(s)) == s
  {
  }

  // ---------------------------------------------------------------------
  // Query-page disposition bits

  const PMAP_QUERY_PAGE_PRESENT: Word := 0x01
  const PMAP_QUERY_PAGE_REUSABLE: Word := 0x02
  const PMAP_QUERY_PAGE_INTERNAL: Word := 0x04
  const PMAP_QUERY_PAGE_ALTACCT: Word := 0x08
  const PMAP_QUERY_PAGE_COMPRESSED: Word := 0x10
  const PMAP_QUERY_PAGE_COMPRESSED_ALTACCT: Word := 0x20

  const ALL_QUERY_PAGE: seq<Word> := [
    PMAP_QUERY_PAGE_PRESENT, PMAP_QUERY_PAGE_REUSABLE, PMAP_QUERY_PAGE_INTERNAL,
    PMAP_QUERY_PAGE_ALTACCT, PMAP_QUERY_PAGE_COMPRESSED, PMAP_QUERY_PAGE_COMPRESSED_ALTACCT]

  /** The union of the six disposition bits. */
  const PMAP_QUERY_PAGE_MASK: Word :=
    PMAP_QUERY_PAGE_PRESENT | PMAP_QUERY_PAGE_REUSABLE | PMAP_QUERY_PAGE_INTERNAL
    | PMAP_QUERY_PAGE_ALTACCT | PMAP_QUERY_PAGE_COMPRESSED | PMAP_QUERY_PAGE_COMPRESSED_ALTACCT

  /** The disposition of one page as `pmap_query_page_info` reports it. */
  datatype Disposition = Disposition(
    present: bool, reusable: bool, internal: bool,
    altAcct: bool, compressed: bool, compressedAltAcct: bool)

  function Bit(b: bool, w: Word): Word {
    if b then w else 0
  }

  /** The `disp` word for a disposition. */
  function EncodeDisposition(d: Disposition): (w: Word)
    ensures w & !PMAP_QUERY_PAGE_MASK == 0
    ensures (w & PMAP_QUERY_PAGE_PRESENT != 0) <==> d.present
    ensures (w & PMAP_QUERY_PAGE_REUSABLE != 0) <==> d.reusable
    ensures (w & PMAP_QUERY_PAGE_INTERNAL != 0) <==> d.internal
    ensures (w & PMAP_QUERY_PAGE_ALTACCT != 0) <==> d.altAcct
    ensures (w & PMAP_QUERY_PAGE_COMPRESSED != 0) <==> d.compressed
    ensures (w & PMAP_QUERY_PAGE_COMPRESSED_ALTACCT != 0) <==> d.compressedAltAcct
  {
    Bit(d.present, PMAP_QUERY_PAGE_PRESENT) | Bit(d.reusable, PMAP_QUERY_PAGE_REUSABLE)
    | Bit(d.internal, PMAP_QUERY_PAGE_INTERNAL) | Bit(d.altAcct, PMAP_QUERY_PAGE_ALTACCT)
    | Bit(d.compressed, PMAP_QUERY_PAGE_COMPRESSED)
    | Bit(d.compressedAltAcct, PMAP_QUERY_PAGE_COMPRESSED_ALTACCT)
  }

  /** Reads a disposition back from a `disp` word; bits outside the six are ignored. */
  function DecodeDisposition(w: Word): (d: Disposition)
    ensures EncodeDisposition(d) == w & PMAP_QUERY_PAGE_MASK
  {
    Disposition(
      w & PMAP_QUERY_PAGE_PRESENT != 0, w & PMAP_QUERY_PAGE_REUSABLE != 0,
      w & PMAP_QUERY_PAGE_INTERNAL != 0, w & PMAP_QUERY_PAGE_ALTACCT != 0,
      w & PMAP_QUERY_PAGE_COMPRESSED != 0, w & PMAP_QUERY_PAGE_COMPRESSED_ALTACCT != 0)
  }

  /** The disposition bits are distinct single bits filling the mask, so encoding is injective. */
  lemma DispositionRoundTrip(d: Disposition)
    ensures DistinctBits(ALL_QUERY_PAGE)
    ensures DecodeDisposition(EncodeDisposition(d)) == d
  {
  }
}
