/**
 * The enter macros: `PMAP_ENTER`, `PMAP_ENTER_OPTIONS` and the error-page
 * guard `PMAP_ENTER_CHECK` they both run first. Each macro classifies the
 * page (internal object, reusable page, all-reusable object), turns that
 * classification into option bits, and forwards one request to the
 * machine-dependent enter routine; a page with its error bit set panics
 * before any request is made.
 */
module PmapEnter {
  import opened PmapTypes
  import opened PmapConstants

  function Pow2(n: nat): nat {
    if n == 0 then 1 else 2 * Pow2(n - 1)
  }

  /** Page geometry of the x86_64 configuration: `PAGE_SIZE` is `1 << PAGE_SHIFT` (4 KiB). */
  const PAGE_SHIFT: nat := 12
  const PAGE_SIZE: nat := Pow2(PAGE_SHIFT)

  /** The two bits the macros may add on their own. */
  const ENTER_DERIVED_OPTIONS: Word := PMAP_OPTIONS_INTERNAL | PMAP_OPTIONS_REUSABLE

  /** The request a macro forwards to the machine-dependent enter routine. */
  datatype EnterRequest =
      /** `pmap_enter_options(pmap, va, pn, prot, fault_type, flags, wired, options, NULL)` */
    | EnterOptionsCall(pmap: Pmap, va: U64, pn: PPNum, prot: Word, faultType: Word,
                       flags: Word, wired: bool, options: Word)
      /** `pmap_enter_options_addr(pmap, va, pa, prot, fault_type, flags, wired, options, NULL)` */
    | EnterOptionsAddrCall(pmap: Pmap, va: U64, pa: U64, prot: Word, faultType: Word,
                           flags: Word, wired: bool, options: Word)

  /** Either the macro panicked in the error-page guard or it forwarded a request. */
  datatype EnterOutcome = Panicked | Forwarded(req: EnterRequest)

  /**
   * The option bits derived from the page's classification: INTERNAL for a
   * page of an internal object, REUSABLE for a reusable page or a page of an
   * all-reusable object.
   */
  function DerivedOptions(page: Page): (o: Word)
    ensures (o & PMAP_OPTIONS_INTERNAL != 0) <==> page.obj.internal
    ensures (o & PMAP_OPTIONS_REUSABLE != 0) <==> (page.reusable || page.obj.allReusable)
  {
    var afterInternal: Word := if page.obj.internal then 0 | PMAP_OPTIONS_INTERNAL else 0;
    if page.reusable || page.obj.allReusable then afterInternal | PMAP_OPTIONS_REUSABLE
    else afterInternal
  }

  /** The derived options never hold a bit other than INTERNAL and REUSABLE. */
  lemma DerivedOptionsWithinMask(page: Page)
    ensures DerivedOptions(page) & !ENTER_DERIVED_OPTIONS == 0
  {
  }

  /** The internal-object test decides the INTERNAL bit and no other bit. */
  lemma InternalTestOnlyDecidesInternalBit(p: Page, q: Page)
    requires p.reusable == q.reusable && p.obj.allReusable == q.obj.allReusable
    ensures DerivedOptions(p) & !PMAP_OPTIONS_INTERNAL == DerivedOptions(q) & !PMAP_OPTIONS_INTERNAL
  {
  }

  /**
   * The physical address `((pmap_paddr_t)pn << PAGE_SHIFT) + fault_phys_offset`
   * in 64-bit arithmetic: when the sum does not wrap, the address lies
   * `faultPhysOffset / PAGE_SIZE` pages past page `pn`. Widening the 32-bit page number to 64 bits before the
   * shift loses nothing, so the shift is a multiplication by PAGE_SIZE; the
   * addition wraps modulo 2^64.
   */
  function PhysAddr(pn: PPNum, faultPhysOffset: U64): (pa: U64)
    ensures pa % PAGE_SIZE == faultPhysOffset % PAGE_SIZE
    ensures faultPhysOffset < PAGE_SIZE ==> pn * PAGE_SIZE <= pa < (pn + 1) * PAGE_SIZE
    ensures pn * PAGE_SIZE + faultPhysOffset < TWO_TO_64 ==>
      pa / PAGE_SIZE == pn + faultPhysOffset / PAGE_SIZE
  {
    var sum := pn * PAGE_SIZE + faultPhysOffset;
    var pa := sum % TWO_TO_64;
    assert pa == if sum < TWO_TO_64 then sum else sum - TWO_TO_64;
    PageArithmetic(pn + faultPhysOffset / PAGE_SIZE, faultPhysOffset % PAGE_SIZE, pa);
    pa
  }

  /**
   * An address `q` pages plus `r` bytes, possibly reduced by 2^64, keeps `r` as
   * its offset within the page, and is in page `q` when not reduced.
   */
  lemma PageArithmetic(q: int, r: int, pa: int)
    requires 0 <= r < 4096
    requires pa == q * 4096 + r || pa == q * 4096 + r - TWO_TO_64
    ensures pa % 4096 == r
    ensures pa == q * 4096 + r ==> pa / 4096 == q
  {
    if pa != q * 4096 + r {
      assert pa == (q - 0x10_0000_0000_0000) * 4096 + r;
    }
  }

  /**
   * `PMAP_ENTER`: after the guard, forwards `pmap_enter_options` with the page's
   * physical page number and options built up from 0 by the classification.
   */
  function Enter(pmap: Pmap, va: U64, page: Page, prot: Word, faultType: Word,
                 flags: Word, wired: bool): (r: EnterOutcome)
    ensures r.Panicked? <==> page.error
    ensures r.Forwarded? ==>
      && r.req.EnterOptionsCall?
      && r.req.options & !ENTER_DERIVED_OPTIONS == 0
      && r.req.options == DerivedOptions(page)
    ensures r.Forwarded? ==>
      r.req == EnterOptionsCall(pmap, va, page.physPage, prot, faultType, flags, wired, r.req.options)
  {
    if page.error then Panicked
    else
      var options: Word := 0;
      Forwarded(EnterOptionsCall(pmap, va, page.physPage, prot, faultType, flags, wired,
                                 options | DerivedOptions(page)))
  }

  /**
   * The options `PMAP_ENTER_OPTIONS` forwards, `options | __extra_options`:
   * every caller-supplied bit is kept and only INTERNAL and REUSABLE can be added.
   */
  function CombinedOptions(options: Word, page: Page): (o: Word)
    ensures o & options == options
    ensures o & !(options | ENTER_DERIVED_OPTIONS) == 0
  {
    DerivedOptionsWithinMask(page);
    options | DerivedOptions(page)
  }

  /**
   * The combined options hold INTERNAL exactly when the caller passed it or the
   * object is internal, and REUSABLE exactly when the caller passed it or the
   * page or its object is reusable.
   */
  lemma CombinedOptionsBits(options: Word, page: Page)
    ensures (CombinedOptions(options, page) & PMAP_OPTIONS_INTERNAL != 0) <==>
            (options & PMAP_OPTIONS_INTERNAL != 0 || page.obj.internal)
    ensures (CombinedOptions(options, page) & PMAP_OPTIONS_REUSABLE != 0) <==>
            (options & PMAP_OPTIONS_REUSABLE != 0 || page.reusable || page.obj.allReusable)
  {
  }

  /**
   * `PMAP_ENTER_OPTIONS`: after the guard, forwards `pmap_enter_options_addr`
   * with the page's physical address plus the fault offset and the caller's
   * options together with the derived bits.
   */
  function EnterWithOptions(pmap: Pmap, va: U64, faultPhysOffset: U64, page: Page,
                            prot: Word, faultType: Word, flags: Word, wired: bool,
                            options: Word): (r: EnterOutcome)
    ensures r.Panicked? <==> page.error
    ensures r.Forwarded? ==>
      r.req == EnterOptionsAddrCall(pmap, va, PhysAddr(page.physPage, faultPhysOffset),
                                    prot, faultType, flags, wired, CombinedOptions(options, page))
  {
    if page.error then Panicked
    else
      Forwarded(EnterOptionsAddrCall(pmap, va, PhysAddr(page.physPage, faultPhysOffset),
                                     prot, faultType, flags, wired, CombinedOptions(options, page)))
  }

  /**
   * `PMAP_ENTER_CHECK`: a page with its error bit set never reaches the
   * machine-dependent enter routine through either macro.
   */
  lemma ErrorPageNeverEntered(pmap: Pmap, va: U64, faultPhysOffset: U64, page: Page,
                              prot: Word, faultType: Word, flags: Word, wired: bool,
                              options: Word)
    requires page.error
    ensures Enter(pmap, va, page, prot, faultType, flags, wired).Panicked?
    ensures EnterWithOptions(pmap, va, faultPhysOffset, page, prot, faultType, flags, wired,
                             options).Panicked?
  {
  }

  /**
   * `PMAP_ENTER` is `PMAP_ENTER_OPTIONS` with no caller options and no fault
   * offset: both panic on the same pages, and otherwise they forward the same
   * options and the same physical page, once as a page number and once as
   * the address of its first byte.
   */
  lemma EnterAgreesWithEnterWithOptions(pmap: Pmap, va: U64, page: Page, prot: Word,
                                        faultType: Word, flags: Word, wired: bool)
    ensures var plain := Enter(pmap, va, page, prot, faultType, flags, wired);
      var general := EnterWithOptions(pmap, va, 0, page, prot, faultType, flags, wired, 0);
      && plain.Panicked? == general.Panicked?
      && (plain.Forwarded? ==>
            && plain.req.options == general.req.options
            && general.req.pa == plain.req.pn * PAGE_SIZE)
  {
  }
}
