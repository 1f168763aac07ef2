/** The four policy flags of `src/check_flags.rs` and their conversions
    from the command-line booleans. */
module CheckFlags {

  import opened Wrappers

  /** Discard processes whose root differs from the caller's root, which is
      captured once when the flag is built. */
  datatype CheckRoot = Yes(pidofRoot: string) | No

  /** Also match the names of running scripts. */
  datatype CheckScripts = Yes | No

  /** Also list thread entries. */
  datatype CheckThreads = Yes | No

  /** Also match kernel workers by their short name. */
  datatype CheckWorkers = Yes | No

  /** `CheckRoot::from`. `isRoot` is whether the effective uid is 0 and
      `ownRootLink` the target of the caller's own `/proc/<pid>/root`
      link, `None` when it cannot be read. */
  function CheckRootFrom(value: bool, isRoot: bool, ownRootLink: Option<string>): (r: CheckRoot)
    ensures r.Yes? <==> value && isRoot && ownRootLink.Some?
    ensures r.Yes? ==> Some(r.pidofRoot) == ownRootLink
  {
    if isRoot && value then
      match ownRootLink
      case Some(link) => CheckRoot.Yes(link)
      case None => CheckRoot.No
    else
      CheckRoot.No
  }

  function CheckScriptsFrom(value: bool): (r: CheckScripts)
    ensures r == CheckScripts.Yes <==> value
  {
    if value then CheckScripts.Yes else CheckScripts.No
  }

  function CheckThreadsFrom(value: bool): (r: CheckThreads)
    ensures r == CheckThreads.Yes <==> value
  {
    if value then CheckThreads.Yes else CheckThreads.No
  }

  function CheckWorkersFrom(value: bool): (r: CheckWorkers)
    ensures r == CheckWorkers.Yes <==> value
  {
    if value then CheckWorkers.Yes else CheckWorkers.No
  }

  /** Without the flag, root checking is off whatever the privileges. */
  lemma CheckRootOffWithoutFlag(isRoot: bool, ownRootLink: Option<string>)
    ensures CheckRootFrom(false, isRoot, ownRootLink) == CheckRoot.No
  {
  }
}
