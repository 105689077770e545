/**
 * The value types the machine-independent pmap macros work on: physical page
 * numbers, 64-bit offsets and addresses, option and flag words, and the parts
 * of a VM page and its VM object that the macros read.
 */
module PmapTypes {

  /** 2^32 and 2^64, the widths of `ppnum_t` / `unsigned int` and of 64-bit addresses. */
  const TWO_TO_32: int := 0x1_0000_0000
  const TWO_TO_64: int := 0x1_0000_0000_0000_0000

  /** A physical page number (`ppnum_t`, 32 bits). */
  type PPNum = x: int | 0 <= x < TWO_TO_32

  /** A count or index held in a C `unsigned int`. */
  type U32 = x: int | 0 <= x < TWO_TO_32

  /** A virtual offset, fault offset or physical address (`vm_map_offset_t`, `pmap_paddr_t`: 64 bits). */
  type U64 = x: int | 0 <= x < TWO_TO_64

  /** An options, flags or protection word (C `int` / `unsigned int`, taken as 32 raw bits). */
  type Word = bv32

  /** A cache attribute (`unsigned int`), e.g. one of the machine's WIMG encodings. */
  type CacheAttr = bv32

  datatype Option<T> = None | Some(value: T)

  /** The identity of an address space (`pmap_t`). */
  datatype Pmap = Pmap(id: nat)

  /**
   * A VM object. The enter macros read its `internal` and `all_reusable`
   * classification; the cache-attribute macros set its `set_cache_attr` flag.
   */
  class VmObject {
    const internal: bool
    const allReusable: bool
    var setCacheAttr: bool

    constructor (internal: bool, allReusable: bool)
      ensures this.internal == internal && this.allReusable == allReusable
      ensures !setCacheAttr
    {
      this.internal := internal;
      this.allReusable := allReusable;
      setCacheAttr := false;
    }
  }

  /**
   * The fields of a `vm_page` that the macros read: its physical page
   * (`VM_PAGE_GET_PHYS_PAGE`), `vmp_reusable`, the error bit (`VMP_ERROR_GET`)
   * and its object (`VM_PAGE_OBJECT`).
   */
  datatype Page = Page(physPage: PPNum, reusable: bool, error: bool, obj: VmObject)
}
