/** `ProcessInfoTable` of `src/lib.rs`: a snapshot of the process table,
    taken once, and the flags that shape the query run over it. */
module InfoTable {

  import opened Wrappers
  import opened Iter
  import opened CheckFlags
  import opened Matcher
  import opened Procfs

  /** The table and the three flags the query needs; the thread flag is
      used up while the table is read. */
  datatype ProcessInfoTable = ProcessInfoTable(
    info: seq<ProcessInfo>,
    checkRoot: CheckRoot,
    checkScripts: CheckScripts,
    checkWorkers: CheckWorkers)
  {
    /** The filter `pid_of` applies: `matches` with the stored flags and
        the links of the entry's own directory. */
    predicate Selects(programName: string, links: ProcLinks, p: ProcessInfo)
    {
      Matches(p, programName, checkRoot, checkWorkers, checkScripts, links.RootOf(p.tid), links.ExeOf(p.tid))
    }

    /** `Selects` as the closure handed to `filter`. */
    function Selector(programName: string, links: ProcLinks): ProcessInfo -> bool
    {
      MatchesUnder(programName, checkRoot, checkWorkers, checkScripts, links)
    }

    /** `pid_of`: the ids of the matching entries, in table order. */
    function PidOf(programName: string, links: ProcLinks): (r: seq<int>)
      ensures |r| <= |info|
      ensures forall id :: id in r ==> exists p :: p in info && Selects(programName, links, p) && p.tid == id
    {
      var kept := Filter(Selector(programName, links), info);
      assert forall i :: 0 <= i < |kept| ==> kept[i] in info && Selects(programName, links, kept[i]);
      Map(Tid, kept)
    }
  }

  /** The closure of `pid_of`'s `filter`, built from the flags alone. */
  function MatchesUnder(
    programName: string, checkRoot: CheckRoot, checkWorkers: CheckWorkers, checkScripts: CheckScripts,
    links: ProcLinks): ProcessInfo -> bool
  {
    (p: ProcessInfo) => Matches(p, programName, checkRoot, checkWorkers, checkScripts, links.RootOf(p.tid), links.ExeOf(p.tid))
  }

  /** The `.map(|p| p.tid)` projection. */
  function Tid(p: ProcessInfo): int
  {
    p.tid
  }

  /** `populate`: `Procfs::new()?.read(check_threads)`, then the flags
      stored beside the entries. The environment of `/proc` is passed in:
      whether `LIBPROC_HIDE_KERNEL` is set, the `/proc` listing (`None`
      when it cannot be opened) and the task directories. */
  function Populate(
    checkRoot: CheckRoot,
    checkScripts: CheckScripts,
    checkThreads: CheckThreads,
    checkWorkers: CheckWorkers,
    hideKernelEnv: bool,
    procListing: Option<Listing>,
    dirs: TaskDirs): (r: Result<ProcessInfoTable, IoError>)
    ensures r.Err? <==> procListing.None?
    ensures r.Ok? ==> (r.value.checkRoot == checkRoot && r.value.checkScripts == checkScripts
                       && r.value.checkWorkers == checkWorkers)
    ensures r.Ok? ==> r.value.info == Procfs(hideKernelEnv, procListing.value).Read(checkThreads, dirs)
  {
    match New(hideKernelEnv, procListing)
    case Err(e) => Err(e)
    case Ok(procfs) => Ok(ProcessInfoTable(procfs.Read(checkThreads, dirs), checkRoot, checkScripts, checkWorkers))
  }

  // ----- properties ---------------------------------------------------

  /** `pid_of` returns exactly the ids of the entries that match, each
      once per entry, in table order: `idx` are the positions of the
      matching entries. */
  lemma PidOfPicks(t: ProcessInfoTable, programName: string, links: ProcLinks) returns (idx: seq<nat>)
    ensures |idx| == |t.PidOf(programName, links)|
    ensures Increasing(idx)
    ensures forall k :: 0 <= k < |idx| ==>
      && idx[k] < |t.info|
      && t.Selects(programName, links, t.info[idx[k]])
      && t.PidOf(programName, links)[k] == t.info[idx[k]].tid
    ensures forall i :: 0 <= i < |t.info| ==> (t.Selects(programName, links, t.info[i]) <==> i in idx)
  {
    var keep := t.Selector(programName, links);
    var kept := Filter(keep, t.info);
    idx := FilterPicks(keep, t.info);
    forall k | 0 <= k < |idx|
      ensures idx[k] < |t.info| && t.Selects(programName, links, t.info[idx[k]])
      ensures t.PidOf(programName, links)[k] == t.info[idx[k]].tid
    {
      assert KeepAsOption(keep)(t.info[idx[k]]) == Some(kept[k]);
    }
    forall i | 0 <= i < |t.info|
      ensures t.Selects(programName, links, t.info[i]) <==> i in idx
    {
      assert KeepAsOption(keep)(t.info[i]).Some? <==> keep(t.info[i]);
    }
  }

  /** Every id `pid_of` returns is the id of a matching entry. */
  lemma PidOfSound(t: ProcessInfoTable, programName: string, links: ProcLinks, pid: int)
    requires pid in t.PidOf(programName, links)
    ensures exists p :: p in t.info && p.tid == pid && t.Selects(programName, links, p)
  {
    var idx := PidOfPicks(t, programName, links);
    var k :| 0 <= k < |t.PidOf(programName, links)| && t.PidOf(programName, links)[k] == pid;
    assert t.info[idx[k]] in t.info;
  }

  /** Every matching entry has its id in the answer. */
  lemma PidOfComplete(t: ProcessInfoTable, programName: string, links: ProcLinks, i: nat)
    requires i < |t.info| && t.Selects(programName, links, t.info[i])
    ensures t.info[i].tid in t.PidOf(programName, links)
  {
    var idx := PidOfPicks(t, programName, links);
    var k :| 0 <= k < |idx| && idx[k] == i;
  }

  /** The answer is a subsequence of the table's ids. */
  lemma PidOfSubsequence(t: ProcessInfoTable, programName: string, links: ProcLinks)
    ensures SubsequenceOf(t.PidOf(programName, links), Map(Tid, t.info))
    ensures |t.PidOf(programName, links)| <= |t.info|
  {
    FilterSubsequence(t.Selector(programName, links), t.info);
    MapSubsequence(Tid, Filter(t.Selector(programName, links), t.info), t.info);
    SubsequenceBounds(t.PidOf(programName, links), Map(Tid, t.info));
  }

  /** A table whose ids are distinct gives an answer without repeats. */
  lemma PidOfDistinct(t: ProcessInfoTable, programName: string, links: ProcLinks)
    requires forall i, j :: 0 <= i < j < |t.info| ==> t.info[i].tid != t.info[j].tid
    ensures var r := t.PidOf(programName, links);
      forall k, l :: 0 <= k < l < |r| ==> r[k] != r[l]
  {
    var idx := PidOfPicks(t, programName, links);
  }

  /** An empty table answers nothing. */
  lemma EmptyTableAnswersNothing(t: ProcessInfoTable, programName: string, links: ProcLinks)
    requires t.info == []
    ensures t.PidOf(programName, links) == []
  {
  }

  /** With `LIBPROC_HIDE_KERNEL` set, `kthreadd` is never reported. */
  lemma HiddenKthreaddNeverReported(
    checkRoot: CheckRoot, checkScripts: CheckScripts, checkThreads: CheckThreads, checkWorkers: CheckWorkers,
    listing: Listing, dirs: TaskDirs, programName: string, links: ProcLinks)
    ensures var t := Populate(checkRoot, checkScripts, checkThreads, checkWorkers, true, Some(listing), dirs).value;
      KTHREADD_PID !in t.PidOf(programName, links)
  {
    var t := Populate(checkRoot, checkScripts, checkThreads, checkWorkers, true, Some(listing), dirs).value;
    HideKernelOnHidesKthreadd(listing, checkThreads, dirs);
    if KTHREADD_PID in t.PidOf(programName, links) {
      PidOfSound(t, programName, links, KTHREADD_PID);
    }
  }

  /** Turning on `-x` never loses an id: the answer without it is a
      subsequence of the answer with it. */
  lemma ScriptsOnlyAdd(t: ProcessInfoTable, programName: string, links: ProcLinks)
    ensures SubsequenceOf(t.(checkScripts := CheckScripts.No).PidOf(programName, links),
                          t.(checkScripts := CheckScripts.Yes).PidOf(programName, links))
  {
    var off := t.(checkScripts := CheckScripts.No);
    var on := t.(checkScripts := CheckScripts.Yes);
    forall i | 0 <= i < |t.info| && off.Selector(programName, links)(t.info[i])
      ensures on.Selector(programName, links)(t.info[i])
    {
      var p := t.info[i];
      ScriptsMonotone(p, programName, t.checkRoot, t.checkWorkers, links.RootOf(p.tid), links.ExeOf(p.tid));
    }
    FilterWeaker(off.Selector(programName, links), on.Selector(programName, links), t.info);
    MapSubsequence(Tid, Filter(off.Selector(programName, links), t.info), Filter(on.Selector(programName, links), t.info));
  }

  /** Turning on `-w` never loses an id. */
  lemma WorkersOnlyAdd(t: ProcessInfoTable, programName: string, links: ProcLinks)
    ensures SubsequenceOf(t.(checkWorkers := CheckWorkers.No).PidOf(programName, links),
                          t.(checkWorkers := CheckWorkers.Yes).PidOf(programName, links))
  {
    var off := t.(checkWorkers := CheckWorkers.No);
    var on := t.(checkWorkers := CheckWorkers.Yes);
    forall i | 0 <= i < |t.info| && off.Selector(programName, links)(t.info[i])
      ensures on.Selector(programName, links)(t.info[i])
    {
      var p := t.info[i];
      WorkersMonotone(p, programName, t.checkRoot, t.checkScripts, links.RootOf(p.tid), links.ExeOf(p.tid));
    }
    FilterWeaker(off.Selector(programName, links), on.Selector(programName, links), t.info);
    MapSubsequence(Tid, Filter(off.Selector(programName, links), t.info), Filter(on.Selector(programName, links), t.info));
  }

  /** Turning on `-t` never loses an id, provided `/proc/self/task` can be
      listed (otherwise the thread scan yields nothing at all). */
  lemma ThreadsOnlyAddIds(
    checkRoot: CheckRoot, checkScripts: CheckScripts, checkWorkers: CheckWorkers,
    hideKernelEnv: bool, listing: Listing, dirs: TaskDirs, programName: string, links: ProcLinks)
    requires dirs.selfTaskReadable
    ensures var without := Populate(checkRoot, checkScripts, CheckThreads.No, checkWorkers, hideKernelEnv, Some(listing), dirs).value;
      var with := Populate(checkRoot, checkScripts, CheckThreads.Yes, checkWorkers, hideKernelEnv, Some(listing), dirs).value;
      SubsequenceOf(without.PidOf(programName, links), with.PidOf(programName, links))
  {
    var without := Populate(checkRoot, checkScripts, CheckThreads.No, checkWorkers, hideKernelEnv, Some(listing), dirs).value;
    var with := Populate(checkRoot, checkScripts, CheckThreads.Yes, checkWorkers, hideKernelEnv, Some(listing), dirs).value;
    var pf := Procfs(hideKernelEnv, listing);
    ThreadsOnlyAdd(pf, dirs);
    assert with.Selector(programName, links) == without.Selector(programName, links);
    FilterMonotone(without.Selector(programName, links), without.info, with.info);
    MapSubsequence(Tid, Filter(without.Selector(programName, links), without.info), Filter(with.Selector(programName, links), with.info));
  }
}
