/**
 * The cache-attribute macros `PMAP_SET_CACHE_ATTR` and (non-ARM)
 * `PMAP_BATCH_SET_CACHE_ATTR`. Both override the cache attribute of physical
 * pages through `pmap_set_cache_attributes` and then mark the VM object; the
 * single-page form acts only when the caller is not batching, the batch form
 * only when it is.
 */
module PmapCacheAttr {
  import opened PmapTypes

  /** The fields of a `upl_page_info` entry that the batch loop reads. */
  datatype UplPageInfo = UplPageInfo(physAddr: PPNum)

  /** The physical page numbers of a page list, in order. */
  function PhysPages(upl: seq<UplPageInfo>): (pns: seq<PPNum>)
    ensures |pns| == |upl|
    ensures forall i :: 0 <= i < |upl| ==> pns[i] == upl[i].physAddr
  {
    if upl == [] then [] else PhysPages(upl[..|upl| - 1]) + [upl[|upl| - 1].physAddr]
  }

  /**
   * The attribute map after overriding the pages `pns`, in order, with `attr`:
   * every listed page now has `attr`, every other page keeps what it had, and
   * no page gains or loses an entry except the listed ones gaining one.
   */
  function Overridden(attrs: map<PPNum, CacheAttr>, pns: seq<PPNum>, attr: CacheAttr)
    : (r: map<PPNum, CacheAttr>)
    ensures forall pn :: pn in r <==> pn in attrs || pn in pns
    ensures forall pn :: pn in pns ==> r[pn] == attr
    ensures forall pn :: pn in attrs && pn !in pns ==> r[pn] == attrs[pn]
  {
    if pns == [] then attrs
    else
      var rest := pns[..|pns| - 1];
      assert forall pn :: pn in pns <==> pn in rest || pn == pns[|pns| - 1];
      Overridden(attrs, rest, attr)[pns[|pns| - 1] := attr]
  }

  /** The attributes after `PMAP_SET_CACHE_ATTR(mem, object, attr, batch)`. */
  function SetCacheAttrEffect(attrs: map<PPNum, CacheAttr>, pn: PPNum, attr: CacheAttr,
                              batchPmapOp: bool): (r: map<PPNum, CacheAttr>)
    ensures batchPmapOp ==> r == attrs
    ensures !batchPmapOp ==> r == Overridden(attrs, [pn], attr)
  {
    if !batchPmapOp then attrs[pn := attr] else attrs
  }

  /** The attributes after `PMAP_BATCH_SET_CACHE_ATTR(object, list, attr, n, batch)`. */
  function BatchSetCacheAttrEffect(attrs: map<PPNum, CacheAttr>, pns: seq<PPNum>,
                                   attr: CacheAttr, batchPmapOp: bool)
    : (r: map<PPNum, CacheAttr>)
    ensures !batchPmapOp ==> r == attrs
    ensures batchPmapOp ==> forall pn :: pn in pns ==> pn in r && r[pn] == attr
    ensures batchPmapOp ==> forall pn :: pn !in pns ==>
      (pn in r <==> pn in attrs) && (pn in r ==> r[pn] == attrs[pn])
  {
    if batchPmapOp then Overridden(attrs, pns, attr) else attrs
  }

  /**
   * The two macros are complementary on `batch_pmap_op`: when batching the
   * single-page macro changes nothing, when not batching the batch macro
   * changes nothing, whatever the page list; so a caller that passes the same
   * flag to both for one page ends with that page overridden either way.
   */
  lemma SetAndBatchComplementary(attrs: map<PPNum, CacheAttr>, pn: PPNum, pns: seq<PPNum>,
                                 attr: CacheAttr, batchPmapOp: bool)
    ensures batchPmapOp ==> SetCacheAttrEffect(attrs, pn, attr, batchPmapOp) == attrs
    ensures !batchPmapOp ==> BatchSetCacheAttrEffect(attrs, pns, attr, batchPmapOp) == attrs
    ensures BatchSetCacheAttrEffect(SetCacheAttrEffect(attrs, pn, attr, batchPmapOp),
                                    [pn], attr, batchPmapOp)
            == attrs[pn := attr]
  {
  }

  /**
   * The machine-dependent per-physical-page cache attributes that
   * `pmap_set_cache_attributes` overrides. A page absent from the map has
   * not been overridden.
   */
  class PhysCache {
    var attrs: map<PPNum, CacheAttr>

    constructor (attrs: map<PPNum, CacheAttr>)
      ensures this.attrs == attrs
    {
      this.attrs := attrs;
    }

    /** `pmap_set_cache_attributes(pn, attr)`: override the attribute of one physical page. */
    method SetCacheAttributes(pn: PPNum, attr: CacheAttr)
      modifies this
      ensures attrs == old(attrs)[pn := attr]
    {
      attrs := attrs[pn := attr];
    }

    /**
     * `PMAP_SET_CACHE_ATTR(mem, object, cache_attr, batch_pmap_op)`: when not
     * batching, override the attribute of the page's physical page and mark
     * the object; when batching, change nothing.
     */
    method SetCacheAttr(mem: Page, obj: VmObject, cacheAttr: CacheAttr, batchPmapOp: bool)
      modifies this, obj
      ensures attrs == SetCacheAttrEffect(old(attrs), mem.physPage, cacheAttr, batchPmapOp)
      ensures obj.setCacheAttr == (!batchPmapOp || old(obj.setCacheAttr))
    {
      if !batchPmapOp {
        SetCacheAttributes(mem.physPage, cacheAttr);
        obj.setCacheAttr := true;
      }
    }

    /**
     * `PMAP_BATCH_SET_CACHE_ATTR(object, user_page_list, cache_attr, num_pages,
     * batch_pmap_op)`, non-ARM form: when batching, override the attribute of
     * the pages at indices 0 .. num_pages - 1 of the list, then mark the
     * object; when not batching, change nothing.
     */
    method BatchSetCacheAttr(obj: VmObject, userPageList: array<UplPageInfo>,
                             cacheAttr: CacheAttr, numPages: U32, batchPmapOp: bool)
      requires numPages <= userPageList.Length
      modifies this, obj
      ensures attrs == BatchSetCacheAttrEffect(old(attrs), PhysPages(userPageList[..numPages]),
                                               cacheAttr, batchPmapOp)
      ensures obj.setCacheAttr == (batchPmapOp || old(obj.setCacheAttr))
    {
      if batchPmapOp {
        var pageIdx: U32 := 0;
        while pageIdx < numPages
          invariant 0 <= pageIdx <= numPages
          invariant obj.setCacheAttr == old(obj.setCacheAttr)
          invariant attrs == Overridden(old(attrs), PhysPages(userPageList[..pageIdx]), cacheAttr)
        {
          assert userPageList[..pageIdx + 1] == userPageList[..pageIdx] + [userPageList[pageIdx]];
          SetCacheAttributes(userPageList[pageIdx].physAddr, cacheAttr);
          pageIdx := pageIdx + 1;
        }
        obj.setCacheAttr := true;
      }
    }
  }

  /**
   * A caller that issues both macros with the same flag, the single-page one
   * for `mem` and the batch one for a list holding only `mem`'s page, ends
   * with that page overridden and the object marked, whichever way the flag is set.
   */
  method SetThenBatch(cache: PhysCache, mem: Page, obj: VmObject, cacheAttr: CacheAttr,
                      batchPmapOp: bool)
    modifies cache, obj
    ensures cache.attrs == old(cache.attrs)[mem.physPage := cacheAttr]
    ensures obj.setCacheAttr
  {
    cache.SetCacheAttr(mem, obj, cacheAttr, batchPmapOp);
    var list := new UplPageInfo[1](_ => UplPageInfo(mem.physPage));
    assert list[..1] == [UplPageInfo(mem.physPage)];
    cache.BatchSetCacheAttr(obj, list, cacheAttr, 1, batchPmapOp);
    SetAndBatchComplementary(old(cache.attrs), mem.physPage, [mem.physPage], cacheAttr, batchPmapOp);
  }
}
