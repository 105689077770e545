# Machine-independent pmap macro layer

This project models the part of the XNU physical-map (pmap) interface header
`osfmk/vm/pmap.h` that has behaviour of its own: the macros that sit between
the VM layer and the machine-dependent pmap, and the constant bit layouts the
interface defines. The machine-dependent routines those macros call are only
declared in the header and are treated as collaborators.

- **Enter** (`pmap_enter.dfy`). `PMAP_ENTER` and `PMAP_ENTER_OPTIONS` first run
  the error-page guard `PMAP_ENTER_CHECK`, which panics on a page whose error
  bit is set. Otherwise they classify the page (internal object, reusable page,
  all-reusable object) into the `PMAP_OPTIONS_INTERNAL` / `PMAP_OPTIONS_REUSABLE`
  bits and forward one request to `pmap_enter_options` or
  `pmap_enter_options_addr`. In the model each macro returns either `Panicked`
  or the request it forwards, with every argument. `PMAP_ENTER_OPTIONS` also
  computes the physical address `(ppn << PAGE_SHIFT) + fault_phys_offset` in
  64-bit arithmetic, with the wrap-around written out.
- **Cache attributes** (`pmap_cache_attr.dfy`). The class `PhysCache` holds the
  per-physical-page cache attributes that `pmap_set_cache_attributes`
  overrides, as a map. `VmObject` (in `pmap_types.dfy`) carries the
  `set_cache_attr` flag. `PMAP_SET_CACHE_ATTR` and the non-ARM
  `PMAP_BATCH_SET_CACHE_ATTR` are methods. The batch method keeps the source's
  `while` loop over `__page_idx`, and each method is proved against a function
  on the attribute map.
- **Activation** (`pmap_activate.dfy`). `PMAP_ACTIVATE_USER`,
  `PMAP_DEACTIVATE_USER` and their kernel counterparts return the
  `PMAP_ACTIVATE` / `PMAP_DEACTIVATE` invocation they make, if any. A
  `Platform` value records whether the machine layer defines those hooks; when
  it does not, the macros expand to nothing.
- **Constants** (`pmap_constants.dfy`). These are the creation flags and
  `PMAP_CREATE_KNOWN_FLAGS`, the `PMAP_OPTIONS_*` bits, `VM_MEM_MODIFIED` /
  `VM_MEM_REFERENCED` and the `PMAP_QUERY_PAGE_*` disposition bits. The proofs
  show that the bits are distinct, that the encodings they define round-trip,
  and that any flag word the known-flags mask rejects has a single bit outside
  the mask.

One configuration is modelled throughout: x86_64. So `PMAP_CREATE_KNOWN_FLAGS`
is `PMAP_CREATE_64BIT | PMAP_CREATE_EPT`, the batch macro is the looping
form, and the ARM-only `PMAP_OPTIONS_FF_LOCKED` / `PMAP_OPTIONS_FF_WIRED` do
not exist. `PAGE_SHIFT` is 12 and `PAGE_SIZE` is defined from it as `1 << PAGE_SHIFT` (4 KiB pages). The value 12 comes from the machine's
`vm_param.h`, which is not part of this model. Option and flag words are
`bv32` (the C `int` / `unsigned int`). Page numbers, counts and 64-bit
offsets are integer subtypes bounded by their C widths.

## Model

| member | source | states |
|---|---|---|
| `PmapEnter.DerivedOptions` | osfmk/vm/pmap.h:461-467 | the derived word has INTERNAL exactly when the page's object is internal, and REUSABLE exactly when the page is reusable or its object is all-reusable |
| `PmapEnter.DerivedOptionsWithinMask` | osfmk/vm/pmap.h:457-467 | starting from options 0, the derived word holds no bit other than INTERNAL and REUSABLE |
| `PmapEnter.InternalTestOnlyDecidesInternalBit` | osfmk/vm/pmap.h:461-463 | two pages that agree on the reusable tests get derived words that agree on every bit except INTERNAL, so no other bit depends on the internal test |
| `PmapEnter.ErrorPageNeverEntered` | osfmk/vm/pmap.h:554-560 | a page whose error bit (`VMP_ERROR_GET`) is set makes both `PMAP_ENTER` and `PMAP_ENTER_OPTIONS` panic, so it never reaches `pmap_enter_options` or `pmap_enter_options_addr` |
| `PmapEnter.Enter` | osfmk/vm/pmap.h:452-478 | `PMAP_ENTER` panics exactly when the page's error bit is set (guard at pmap.h:554-560); otherwise it forwards one `pmap_enter_options` request with the caller's pmap, address, protections, flags and wiring, the page's physical page number, and options that hold only INTERNAL/REUSABLE |
| `PmapEnter.CombinedOptions` | osfmk/vm/pmap.h:487-508 | the options `PMAP_ENTER_OPTIONS` forwards keep every caller-supplied bit and add no bit outside the caller's bits plus INTERNAL and REUSABLE |
| `PmapEnter.CombinedOptionsBits` | osfmk/vm/pmap.h:490-508 | the forwarded options hold INTERNAL exactly when the caller passed it or the object is internal, and REUSABLE exactly when the caller passed it or the page or its object is reusable |
| `PmapEnter.PhysAddr` | osfmk/vm/pmap.h:500-503 | the forwarded physical address has the fault offset's position within its page even when the 64-bit addition wraps; when it does not wrap, it lies `fault_phys_offset / PAGE_SIZE` pages past page `ppn`, and between `ppn * PAGE_SIZE` and the start of the next page when the offset is less than a page |
| `PmapEnter.EnterWithOptions` | osfmk/vm/pmap.h:481-511 | `PMAP_ENTER_OPTIONS` panics exactly when the page's error bit is set (guard at pmap.h:554-560); otherwise it forwards one `pmap_enter_options_addr` request with the computed physical address and the combined options, and passes every other argument through |
| `PmapEnter.EnterAgreesWithEnterWithOptions` | osfmk/vm/pmap.h:452-511 | with no caller options and no fault offset, the two macros panic on the same pages and forward the same options, for the same physical page given as a number and as the address of its first byte |
| `PmapCacheAttr.PhysPages` | osfmk/vm/pmap.h:542-546 | the page numbers the batch loop reads, one per list entry and in list order |
| `PmapCacheAttr.Overridden` | osfmk/vm/pmap.h:338-343 | overriding a list of pages gives every listed page the attribute and leaves every other page's entry (or its absence) as it was |
| `PmapCacheAttr.SetCacheAttrEffect` | osfmk/vm/pmap.h:514-520 | when batching, the single-page macro changes nothing; otherwise it is the override of the one page |
| `PmapCacheAttr.BatchSetCacheAttrEffect` | osfmk/vm/pmap.h:537-550 | when not batching, the batch macro changes nothing; when batching, every listed page gets the attribute and every unlisted page is unchanged |
| `PmapCacheAttr.SetAndBatchComplementary` | osfmk/vm/pmap.h:514-550 | when batching the single-page macro changes nothing, when not batching the batch macro changes nothing for any page list, and applying both with the same flag to a page leaves exactly that page overridden |
| `PmapCacheAttr.PhysCache.SetCacheAttributes` | osfmk/vm/pmap.h:338-343 | `pmap_set_cache_attributes` overrides the attribute of one physical page and no other |
| `PmapCacheAttr.PhysCache.SetCacheAttr` | osfmk/vm/pmap.h:514-520 | the new attribute map is the single-page effect of the old one, and the object is marked exactly when not batching (otherwise its flag is unchanged) |
| `PmapCacheAttr.PhysCache.BatchSetCacheAttr` | osfmk/vm/pmap.h:537-550 | the loop over indices 0 .. num_pages-1 leaves the batch effect of the listed page numbers on the old map, and the object is marked exactly when batching (otherwise its flag is unchanged) |
| `PmapCacheAttr.SetThenBatch` | osfmk/vm/pmap.h:514-550 | a caller that issues both macros with the same flag for one page ends with that page overridden and the object marked, whichever way the flag is set |
| `PmapActivate.UserSwitch` | osfmk/vm/pmap.h:406-412 | the hook is invoked exactly when it is defined and the thread's pmap is not the kernel pmap, and then with that pmap, the thread and the cpu |
| `PmapActivate.ActivateUser` | osfmk/vm/pmap.h:402-414 | `PMAP_ACTIVATE_USER` activates the thread's pmap, never the kernel pmap, and only when `PMAP_ACTIVATE` is defined |
| `PmapActivate.DeactivateUser` | osfmk/vm/pmap.h:416-428 | `PMAP_DEACTIVATE_USER` deactivates the thread's pmap, never the kernel pmap, and only when `PMAP_DEACTIVATE` is defined |
| `PmapActivate.ActivateKernel` | osfmk/vm/pmap.h:430-437 | `PMAP_ACTIVATE_KERNEL` activates the kernel pmap with no thread exactly when `PMAP_ACTIVATE` is defined |
| `PmapActivate.DeactivateKernel` | osfmk/vm/pmap.h:439-446 | `PMAP_DEACTIVATE_KERNEL` deactivates the kernel pmap with no thread exactly when `PMAP_DEACTIVATE` is defined |
| `PmapActivate.UserFormsSkipKernel` | osfmk/vm/pmap.h:406-426 | a thread whose pmap is the kernel pmap (pmap.h:674-675) is neither activated nor deactivated by the user forms; with both hooks defined, the two user forms hand over the same pmap |
| `PmapActivate.UserAndKernelFormsDisjoint` | osfmk/vm/pmap.h:406-437 | the user and kernel activation forms never hand the same pmap to `PMAP_ACTIVATE` |
| `PmapConstants.UnknownCreateFlags` | osfmk/vm/pmap.h:683-688 | the unknown part of a flag word shares no bit with `PMAP_CREATE_KNOWN_FLAGS`, and together with the known part it rebuilds the word |
| `PmapConstants.CreateFlagsKnownIff` | osfmk/vm/pmap.h:683-688 | the mask accepts a flag word exactly when it is a combination of `PMAP_CREATE_64BIT` and `PMAP_CREATE_EPT` |
| `PmapConstants.UnknownFlagHasBitOutsideMask` | osfmk/vm/pmap.h:683-688 | every rejected flag word contains a single bit that the known-flags mask lacks (its lowest unknown bit) |
| `PmapConstants.CreateFlagsDistinct` | osfmk/vm/pmap.h:683-687 | the x86_64 creation flags are distinct single bits |
| `PmapConstants.OptionsDistinct` | osfmk/vm/pmap.h:715-742 | the sixteen x86_64 `PMAP_OPTIONS_*` values are pairwise disjoint single bits |
| `PmapConstants.EncodeRefMod` | osfmk/vm/pmap.h:588-589 | the combined ref/mod mask has MODIFIED exactly when the page is modified, REFERENCED exactly when it is referenced, and no other bit |
| `PmapConstants.DecodeRefMod` | osfmk/vm/pmap.h:588-589 | reading a state from a mask and encoding it again gives the mask restricted to the two bits |
| `PmapConstants.RefModRoundTrip` | osfmk/vm/pmap.h:588-589 | `VM_MEM_MODIFIED` and `VM_MEM_REFERENCED` are disjoint single bits, so a state survives encoding then decoding |
| `PmapConstants.EncodeDisposition` | osfmk/vm/pmap.h:820-825 | each `PMAP_QUERY_PAGE_*` bit of the disposition word is set exactly when its property holds, and no bit outside the six is set |
| `PmapConstants.DecodeDisposition` | osfmk/vm/pmap.h:820-825 | decoding a disposition word and encoding it again gives the word restricted to the six bits |
| `PmapConstants.DispositionRoundTrip` | osfmk/vm/pmap.h:820-825 | the six disposition bits are pairwise disjoint single bits, so a disposition survives encoding then decoding |

## Left out

- `pmap_enter_options`, `pmap_enter_options_addr` and every other routine the
  header only declares (remove, protect, nest/unnest/trim, ref/mod getters and
  setters, flush, query, trust-cache and local-signing routines, ledgers, the
  CoreEntitlements query). Their bodies are not in the header, so the model
  only describes the request the macros forward. The macros' `result` is the
  forwarded routine's return code and is not modelled.
- The comment that `pmap_clear_refmod_range_options` changes nothing when it
  fails is a promise about an unseen body. It is not modelled.
- `PMAP_ENTER_CHECK` panics. The model returns `Panicked` instead, and nothing
  after a panic happens.
- The ARM form of `PMAP_BATCH_SET_CACHE_ATTR` forwards to the unseen
  `pmap_batch_set_cache_attributes`, so only the looping form is modelled.
- `PMAP_ACTIVATE` / `PMAP_DEACTIVATE` are machine-dependent and not shown. The
  model returns the invocation instead of performing it.
- Every modelled macro (`PMAP_ACTIVATE_USER`, `PMAP_DEACTIVATE_USER`,
  `PMAP_ACTIVATE_KERNEL`, `PMAP_DEACTIVATE_KERNEL`, `PMAP_ENTER`,
  `PMAP_ENTER_OPTIONS`, `PMAP_SET_CACHE_ATTR`, `PMAP_BATCH_SET_CACHE_ATTR`) is
  only a default under its own `#ifndef`. A machine header that defines one of
  them replaces it, and that case is not modelled.
- The model takes every macro argument as an already computed value. The
  source leaves `fault_phys_offset` (after `+`), `batch_pmap_op` (after `!`)
  and `object` (before `->`) unparenthesised, so an argument written as an
  expression such as `a & m` or `x || y` would group differently once
  expanded. Callers that pass a plain variable are unaffected. The model does
  not capture the other grouping.
- Only the x86_64 configuration is modelled. The ARM creation flags (STAGE2,
  DISABLE_JOP, FORCE_4K_PAGES, ROSETTA and their 0 fallbacks) and the ARM-only
  option bits are left out.
- `VM_MEM_SUPERPAGE`, `VM_MEM_STACK`, `PMAP_UNNEST_CLEAN`, `PMAP_FORK_NEST` and
  the `cppv*` copy flags are constants of unmodelled routines, so they are
  left out.
- Physical-page locks, flush contexts, page zero/copy, `copypv`, compressor
  mapping, early memory stealing, boot and protected MMIO writes are left out.
  They are concurrency, TLB or hardware mechanics with no body in the header.
- `patches/14.4/CodeSignature/Entitlement.h` only declares string constants,
  so it is left out.
