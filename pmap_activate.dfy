/**
 * The activation macros `PMAP_ACTIVATE_USER`, `PMAP_DEACTIVATE_USER`,
 * `PMAP_ACTIVATE_KERNEL` and `PMAP_DEACTIVATE_KERNEL`. The user forms look up
 * the pmap of the thread's map and hand it to the machine-dependent
 * `PMAP_ACTIVATE` / `PMAP_DEACTIVATE` unless it is the kernel pmap; the
 * kernel forms hand over the kernel pmap with no thread. Where the machine
 * layer defines no `PMAP_ACTIVATE` (or `PMAP_DEACTIVATE`), the macros expand
 * to nothing.
 */
module PmapActivate {
  import opened PmapTypes

  /** Which of the machine-dependent hooks the platform defines. */
  datatype Platform = Platform(definesActivate: bool, definesDeactivate: bool)

  /** A VM map, reduced to the pmap it owns. */
  datatype VmMap = VmMap(pmap: Pmap)

  /** A thread, reduced to its identity and its map (`thr->map`). */
  datatype Thread = Thread(id: nat, vmMap: VmMap)

  /**
   * One `PMAP_ACTIVATE(pmap, thread, cpu)` or `PMAP_DEACTIVATE(pmap, thread, cpu)`
   * invocation; `thread` is `None` for `THREAD_NULL`.
   */
  datatype Switch = Switch(pmap: Pmap, thread: Option<Thread>, cpu: nat)

  /** The invocation a user-form macro makes, given whether the hook exists. */
  function UserSwitch(hookDefined: bool, kernel: Pmap, thr: Thread, cpu: nat): (r: Option<Switch>)
    ensures r.Some? <==> hookDefined && thr.vmMap.pmap != kernel
    ensures r.Some? ==> r.value == Switch(thr.vmMap.pmap, Some(thr), cpu)
  {
    if hookDefined then
      var pmap := thr.vmMap.pmap;
      if pmap != kernel then Some(Switch(pmap, Some(thr), cpu)) else None
    else None
  }

  /** `PMAP_ACTIVATE_USER(thr, cpu)`. */
  function ActivateUser(platform: Platform, kernel: Pmap, thr: Thread, cpu: nat): (r: Option<Switch>)
    ensures r.Some? <==> platform.definesActivate && thr.vmMap.pmap != kernel
    ensures r.Some? ==> r.value.pmap == thr.vmMap.pmap && r.value.pmap != kernel
    ensures r.Some? ==> r.value.thread == Some(thr) && r.value.cpu == cpu
  {
    UserSwitch(platform.definesActivate, kernel, thr, cpu)
  }

  /** `PMAP_DEACTIVATE_USER(thr, cpu)`. */
  function DeactivateUser(platform: Platform, kernel: Pmap, thr: Thread, cpu: nat): (r: Option<Switch>)
    ensures r.Some? <==> platform.definesDeactivate && thr.vmMap.pmap != kernel
    ensures r.Some? ==> r.value.pmap == thr.vmMap.pmap && r.value.pmap != kernel
    ensures r.Some? ==> r.value.thread == Some(thr) && r.value.cpu == cpu
  {
    UserSwitch(platform.definesDeactivate, kernel, thr, cpu)
  }

  /** `PMAP_ACTIVATE_KERNEL(cpu)`: the kernel pmap, with no thread. */
  function ActivateKernel(platform: Platform, kernel: Pmap, cpu: nat): (r: Option<Switch>)
    ensures r.Some? <==> platform.definesActivate
    ensures r.Some? ==> r.value.pmap == kernel && r.value.thread.None? && r.value.cpu == cpu
  {
    if platform.definesActivate then Some(Switch(kernel, None, cpu)) else None
  }

  /** `PMAP_DEACTIVATE_KERNEL(cpu)`: the kernel pmap, with no thread. */
  function DeactivateKernel(platform: Platform, kernel: Pmap, cpu: nat): (r: Option<Switch>)
    ensures r.Some? <==> platform.definesDeactivate
    ensures r.Some? ==> r.value.pmap == kernel && r.value.thread.None? && r.value.cpu == cpu
  {
    if platform.definesDeactivate then Some(Switch(kernel, None, cpu)) else None
  }

  /**
   * A thread running on the kernel pmap is never activated or deactivated by
   * the user forms; on a platform with both hooks, any other thread's pmap is
   * both activated and deactivated, so the pair stays balanced.
   */
  lemma UserFormsSkipKernel(platform: Platform, kernel: Pmap, thr: Thread, cpu: nat)
    ensures thr.vmMap.pmap == kernel ==>
      ActivateUser(platform, kernel, thr, cpu).None? && DeactivateUser(platform, kernel, thr, cpu).None?
    ensures platform.definesActivate && platform.definesDeactivate ==>
      ActivateUser(platform, kernel, thr, cpu) == DeactivateUser(platform, kernel, thr, cpu)
  {
  }

  /** The user and kernel forms never hand the same pmap to the hook. */
  lemma UserAndKernelFormsDisjoint(platform: Platform, kernel: Pmap, thr: Thread, cpu: nat, cpu': nat)
    requires ActivateUser(platform, kernel, thr, cpu).Some?
    requires ActivateKernel(platform, kernel, cpu').Some?
    ensures ActivateUser(platform, kernel, thr, cpu).value.pmap
            != ActivateKernel(platform, kernel, cpu').value.pmap
  {
  }
}
