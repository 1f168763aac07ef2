/** The table builder and record readers of `src/procfs.rs`, over an
    abstract snapshot of `/proc`. A listing is the sequence of results a
    `read_dir` iterator yields (`None` is an entry it failed to read); an
    entry carries the two files the reader opens, as what `read_line` and
    the line reader would see (`None` when the file cannot be opened or
    read). */
module Procfs {

  import opened Wrappers
  import opened Iter
  import opened Decimal
  import opened Text
  import opened CheckFlags
  import opened Matcher

  const KTHREADD_PID: int := 2

  const FIELD_SEPARATOR: char := ' '
  const PROCESS_NAME_PREFIX: char := '('
  const PROCESS_NAME_SUFFIX: char := ')'

  /** The argument file as the buffered reader sees it: the text it
      delivers, and whether reading then fails (an I/O error, or bytes that
      are not UTF-8) instead of reaching the end of the file. */
  datatype CmdlineFile = CmdlineFile(text: string, failsAfterText: bool)

  /** One directory entry: its name and, under it, the `stat` text and the
      `cmdline` file. */
  datatype ProcEntry = ProcEntry(name: string, stat: Option<string>, cmdline: Option<CmdlineFile>)

  /** What a `read_dir` iterator yields, in order. */
  type Listing = seq<Option<ProcEntry>>

  /** The directories the builder lists besides `/proc` itself: the
      `task` listing under each `/proc/<name>` (a missing key is a
      directory `read_dir` cannot open), and whether `/proc/self/task` can
      be listed. */
  datatype TaskDirs = TaskDirs(taskListings: map<string, Listing>, selfTaskReadable: bool)

  /** The error `read_dir("/proc")` returns. */
  datatype IoError = IoError

  // ----- read_stat_file -----------------------------------------------

  /** `"(" + name + ")"` with both markers removed, or `None`. */
  function StripParens(field: string): (r: Option<string>)
    ensures r.Some? <==> |field| >= 2 && field[0] == PROCESS_NAME_PREFIX && field[|field| - 1] == PROCESS_NAME_SUFFIX
    ensures r.Some? ==> field == [PROCESS_NAME_PREFIX] + r.value + [PROCESS_NAME_SUFFIX]
  {
    match StripPrefix(field, PROCESS_NAME_PREFIX)
    case None => None
    case Some(inner) => StripSuffix(inner, PROCESS_NAME_SUFFIX)
  }

  /** The parse `read_stat_file` performs on the stat text, stated on the
      space-separated fields of its first line (line break included):
      field 1 must be the parenthesised short name and field 3, two fields
      further on, a whole `i32`, the parent id. */
  function ParseStat(content: string): (r: Option<(int, string)>)
    ensures r.Some? ==> InI32(r.value.0)
    ensures r.Some? ==> FIELD_SEPARATOR !in r.value.1
  {
    var fields := Split(ReadLine(content), FIELD_SEPARATOR);
    SplitPiecesClean(ReadLine(content), FIELD_SEPARATOR);
    if |fields| < 2 then None
    else
      match StripParens(fields[1])
      case None => None
      case Some(name) =>
        if |fields| < 4 then None
        else
          match ParseI32(fields[3])
          case None => None
          case Some(ppid) => Some((ppid, name))
  }

  /** The pieces a `split(' ')` iterator still has to yield: `Some(s)` is
      the text not yet split, `None` an iterator that is done. */
  function Pieces(rest: Option<string>): seq<string>
  {
    match rest
    case None => []
    case Some(s) => Split(s, FIELD_SEPARATOR)
  }

  /** `Split::next`: the text up to the next separator, or the whole rest
      when there is none, after which the iterator is done. */
  method NextField(rest: Option<string>) returns (field: Option<string>, rest': Option<string>)
    ensures field.None? <==> Pieces(rest) == []
    ensures field.Some? ==> Pieces(rest) == [field.value] + Pieces(rest')
    ensures field.None? ==> rest' == None
  {
    if rest.None? {
      return None, None;
    }
    var s := rest.value;
    var i := 0;
    while i < |s| && s[i] != FIELD_SEPARATOR
      invariant 0 <= i <= |s|
      invariant FIELD_SEPARATOR !in s[..i]
    {
      i := i + 1;
    }
    if i == |s| {
      assert s[..i] == s;
      SplitNoSeparator(s, FIELD_SEPARATOR);
      field, rest' := Some(s), None;
    } else {
      SplitAtFirst(s, FIELD_SEPARATOR, i);
      field, rest' := Some(s[..i]), Some(s[i + 1..]);
    }
  }

  /** `Split::nth(n)`: skip `n` pieces and yield the next one. */
  method NthField(rest: Option<string>, n: nat) returns (field: Option<string>, rest': Option<string>)
    ensures field == if n < |Pieces(rest)| then Some(Pieces(rest)[n]) else None
    ensures Pieces(rest') == if n < |Pieces(rest)| then Pieces(rest)[n + 1..] else []
  {
    ghost var all := Pieces(rest);
    var cur := rest;
    var k := 0;
    while k < n
      invariant k <= n
      invariant k <= |all| ==> Pieces(cur) == all[k..]
      invariant k > |all| ==> Pieces(cur) == []
    {
      var skipped, next := NextField(cur);
      if k < |all| {
        assert Pieces(next) == all[k..][1..] == all[k + 1..];
      } else {
        assert Pieces(next) == [];
      }
      cur := next;
      k := k + 1;
    }
    field, rest' := NextField(cur);
    if n < |all| {
      assert Pieces(cur)[0] == all[n];
      assert Pieces(rest') == all[n..][1..] == all[n + 1..];
    }
  }

  /** `read_stat_file`: reads the first line, then takes the name from the
      second field and the parent id from the field two places after it,
      advancing one split iterator. */
  method ReadStatFile(stat: Option<string>) returns (r: Option<(int, string)>)
    ensures stat.None? ==> r.None?
    ensures stat.Some? ==> r == ParseStat(stat.value)
  {
    if stat.None? {
      return None;
    }
    var content := ReadLine(stat.value);
    var fields := Some(content);
    var nameField;
    nameField, fields := NthField(fields, 1);
    if nameField.None? {
      return None;
    }
    var processName := StripParens(nameField.value);
    if processName.None? {
      return None;
    }
    var ppidField;
    ppidField, fields := NthField(fields, 1);
    if ppidField.None? {
      return None;
    }
    var ppid := ParseI32(ppidField.value);
    if ppid.None? {
      return None;
    }
    r := Some((ppid.value, processName.value));
  }

  // ----- read_cmdline_file --------------------------------------------

  /** The text up to and including its last line break: what a reader that
      fails after `text` still delivers as complete lines. */
  function CompleteLines(text: string): (r: string)
    ensures r <= text
    ensures r == [] || r[|r| - 1] == '\n'
    ensures '\n' !in text[|r|..]
  {
    match Utils.RSplitOnce(text, '\n')
    case None => []
    case Some((before, after)) =>
      assert text[|before + "\n"|..] == after;
      before + "\n"
  }

  /** `read_cmdline_file`: the lines of the argument file, up to the first
      read error; an argument file that cannot be opened gives none. */
  function ReadCmdlineFile(cmdline: Option<CmdlineFile>): (r: seq<string>)
    ensures cmdline.None? ==> r == []
    ensures cmdline.Some? ==> r <= Lines(cmdline.value.text)
  {
    match cmdline
    case None => []
    case Some(CmdlineFile(text, fails)) =>
      if fails then
        var complete := CompleteLines(text);
        assert text == complete + text[|complete|..];
        LinesConcat(complete, text[|complete|..]);
        Lines(complete)
      else Lines(text)
  }

  // ----- read_process -------------------------------------------------

  /** `is_ok_and_directory_name_first_letter_nonzero_number`: the entry was
      read and its name starts with `1`..`9`. */
  function FirstLetterNonzeroNumber(d: Option<ProcEntry>): (r: Option<ProcEntry>)
    ensures r.Some? <==> d.Some? && |d.value.name| > 0 && '1' <= d.value.name[0] <= '9'
    ensures r.Some? ==> r == d
  {
    match d
    case None => None
    case Some(e) => if |e.name| > 0 && '1' <= e.name[0] <= '9' then Some(e) else None
  }

  /** `read_process`: the directory name as the id (and group id), the
      stat record, and the argument vector, which must not be empty. */
  function ReadProcess(d: Option<ProcEntry>): (r: Option<ProcessInfo>)
    ensures r.Some? <==> (&& FirstLetterNonzeroNumber(d).Some?
                          && ParseI32(d.value.name).Some?
                          && d.value.stat.Some?
                          && ParseStat(d.value.stat.value).Some?
                          && ReadCmdlineFile(d.value.cmdline) != [])
    ensures r.Some? ==> d.Some? && Some(r.value.tid) == ParseI32(d.value.name)
    ensures r.Some? ==> (r.value.ppid, r.value.cmd) == ParseStat(d.value.stat.value).value
    ensures r.Some? ==> r.value.cmdlineVector == ReadCmdlineFile(d.value.cmdline)
    ensures r.Some? ==> r.value.tgid == r.value.tid > 0
    ensures r.Some? ==> r.value.cmdlineVector != []
    ensures r.Some? ==> FIELD_SEPARATOR !in r.value.cmd
  {
    match FirstLetterNonzeroNumber(d)
    case None => None
    case Some(e) =>
      match ParseI32(e.name)
      case None => None
      case Some(tid) =>
        assert tid > 0 by { ParseNonzeroLeading(e.name); }
        var tgid := tid;
        var stat: Option<(int, string)> := if e.stat.None? then None else ParseStat(e.stat.value);
        match stat
        case None => None
        case Some((ppid, cmd)) =>
          var cmdlineVector := ReadCmdlineFile(e.cmdline);
          if cmdlineVector == [] then None
          else Some(ProcessInfo(tid, ppid, tgid, cmd, cmdlineVector))
  }

  /** `read_process` applied to a whole listing with `filter_map`. */
  function ReadListing(listing: Listing): (r: seq<ProcessInfo>)
    ensures |r| <= |listing|
    ensures forall p :: p in r ==> exists d :: d in listing && ReadProcess(d) == Some(p)
  {
    FilterMapOrigins(ReadProcess, listing);
    FilterMap(ReadProcess, listing)
  }

  // ----- read_tasks and hide_kernel_thread ----------------------------

  /** `read_tasks`: the entries of `/proc/<tgid>/task`, then the owner
      itself; an unreadable task directory gives the owner alone. */
  function ReadTasks(dirs: TaskDirs, p: ProcessInfo): (r: seq<ProcessInfo>)
    ensures |r| >= 1 && r[|r| - 1] == p
    ensures IntToString(p.tgid) !in dirs.taskListings ==> r == [p]
    ensures IntToString(p.tgid) in dirs.taskListings ==> |r| <= |dirs.taskListings[IntToString(p.tgid)]| + 1
  {
    var path := IntToString(p.tgid);
    var tasks := if path in dirs.taskListings then ReadListing(dirs.taskListings[path]) else [];
    tasks + [p]
  }

  /** `read_tasks` as the function `flat_map` applies. */
  function ReadTasksIn(dirs: TaskDirs): ProcessInfo -> seq<ProcessInfo>
  {
    p => ReadTasks(dirs, p)
  }

  /** `read_tasks` as written: collect the task entries into a vector,
      then push the owner onto it. */
  method CollectTasks(dirs: TaskDirs, p: ProcessInfo) returns (tasks: seq<ProcessInfo>)
    ensures tasks == ReadTasks(dirs, p)
    ensures |tasks| >= 1 && tasks[|tasks| - 1] == p
    ensures tasks[..|tasks| - 1] == (if IntToString(p.tgid) in dirs.taskListings
                                     then ReadListing(dirs.taskListings[IntToString(p.tgid)]) else [])
  {
    var path := IntToString(p.tgid);
    if path in dirs.taskListings {
      tasks := ReadListing(dirs.taskListings[path]);
    } else {
      tasks := [];
    }
    tasks := tasks + [p];
  }

  /** `hide_kernel_thread`: whether an entry stays in the table. */
  predicate HideKernelThread(hideKernel: bool, p: ProcessInfo)
    ensures !hideKernel ==> HideKernelThread(hideKernel, p)
    ensures hideKernel ==> (HideKernelThread(hideKernel, p) <==> p.tid != KTHREADD_PID && p.ppid != KTHREADD_PID)
  {
    !hideKernel || !(p.ppid == KTHREADD_PID || p.tid == KTHREADD_PID)
  }

  /** `hide_kernel_thread` as the predicate `filter` applies. */
  function HideKernelThreadIn(hideKernel: bool): ProcessInfo -> bool
  {
    p => HideKernelThread(hideKernel, p)
  }

  // ----- Procfs -------------------------------------------------------

  /** `Procfs`: the kernel-thread toggle and the `/proc` listing. */
  datatype Procfs = Procfs(hideKernel: bool, processFilesystem: Listing)
  {
    /** `Procfs::read`. */
    function Read(checkThreads: CheckThreads, dirs: TaskDirs): (r: seq<ProcessInfo>)
      ensures forall p :: p in r ==> HideKernelThread(hideKernel, p)
      ensures checkThreads.No? ==> |r| <= |processFilesystem|
      ensures checkThreads.Yes? && !dirs.selfTaskReadable ==> r == []
    {
      match checkThreads
      case No => ReadProcesses()
      case Yes => ReadProcessesAndTasks(dirs)
    }

    /** `Procfs::read_processes`. */
    function ReadProcesses(): (r: seq<ProcessInfo>)
      ensures |r| <= |processFilesystem|
      ensures forall p :: p in r ==> HideKernelThread(hideKernel, p)
      ensures forall p :: p in r ==> p in ReadListing(processFilesystem)
    {
      Filter(HideKernelThreadIn(hideKernel), ReadListing(processFilesystem))
    }

    /** `Procfs::read_processes_and_tasks`. */
    function ReadProcessesAndTasks(dirs: TaskDirs): (r: seq<ProcessInfo>)
      ensures !dirs.selfTaskReadable ==> r == []
      ensures forall p :: p in r ==> HideKernelThread(hideKernel, p)
    {
      if !dirs.selfTaskReadable then []
      else
        Filter(HideKernelThreadIn(hideKernel), Flatten(Map(ReadTasksIn(dirs), ReadListing(processFilesystem))))
    }
  }

  /** `Procfs::new`: `hideKernelEnv` is whether `LIBPROC_HIDE_KERNEL` is
      set, `procListing` the listing of `/proc` or `None` when it cannot be
      opened. */
  function New(hideKernelEnv: bool, procListing: Option<Listing>): (r: Result<Procfs, IoError>)
    ensures r.Ok? <==> procListing.Some?
    ensures r.Ok? ==> r.value == Procfs(hideKernelEnv, procListing.value)
  {
    match procListing
    case None => Err(IoError)
    case Some(listing) => Ok(Procfs(hideKernelEnv, listing))
  }

  // ----- properties ---------------------------------------------------

  /** What every entry `read_process` builds satisfies. */
  predicate WellFormedEntry(p: ProcessInfo)
  {
    p.tgid == p.tid > 0 && p.cmdlineVector != [] && FIELD_SEPARATOR !in p.cmd
  }

  /** Every entry of a parsed listing is well formed. */
  lemma ReadListingWellFormed(listing: Listing)
    ensures forall p :: p in ReadListing(listing) ==> WellFormedEntry(p)
  {
    forall p | p in ReadListing(listing)
      ensures WellFormedEntry(p)
    {
      FilterMapMember(ReadProcess, listing, p);
    }
  }

  /** Every entry of the table is well formed, with or without threads:
      task entries are read by the same `read_process`. */
  lemma TableWellFormed(pf: Procfs, checkThreads: CheckThreads, dirs: TaskDirs)
    ensures forall p :: p in pf.Read(checkThreads, dirs) ==> WellFormedEntry(p)
  {
    var parsed := ReadListing(pf.processFilesystem);
    ReadListingWellFormed(pf.processFilesystem);
    if checkThreads.Yes? && dirs.selfTaskReadable {
      var groups := Map(ReadTasksIn(dirs), parsed);
      forall p | p in Flatten(groups)
        ensures WellFormedEntry(p)
      {
        FlattenMember(groups, p);
        var i :| 0 <= i < |groups| && p in groups[i];
        assert groups[i] == ReadTasks(dirs, parsed[i]);
        TaskWellFormed(dirs, parsed[i], p);
      }
    }
  }

  /** The entries `read_tasks` lists for a well-formed owner are well
      formed. */
  lemma TaskWellFormed(dirs: TaskDirs, owner: ProcessInfo, p: ProcessInfo)
    requires WellFormedEntry(owner) && p in ReadTasks(dirs, owner)
    ensures WellFormedEntry(p)
  {
    var path := IntToString(owner.tgid);
    if p != owner {
      ReadListingWellFormed(dirs.taskListings[path]);
    }
  }

  /** An empty stat file gives no record. */
  lemma StatEmpty()
    ensures ParseStat("") == None
  {
    assert Split(ReadLine(""), FIELD_SEPARATOR) == [[]];
  }

  /** A well-formed record: pid, parenthesised short name, state, parent
      id and further fields on the first line give the parent id and the
      short name back. */
  lemma StatWellFormed(pid: string, name: string, state: string, ppid: int, more: string, others: string)
    requires FIELD_SEPARATOR !in pid && FIELD_SEPARATOR !in name && FIELD_SEPARATOR !in state
    requires '\n' !in pid && '\n' !in name && '\n' !in state && '\n' !in more
    requires InI32(ppid)
    ensures ParseStat(pid + " (" + name + ") " + state + " " + IntToString(ppid) + " " + more + "\n" + others) == Some((ppid, name))
  {
    var ppidText := IntToString(ppid);
    PrintedPlain(ppid);
    var tail := ppidText + " " + (more + "\n");
    assert tail[..|tail| - 1] == ppidText + " " + more;
    StatLayout(pid, name, state, ppidText, more, others);
    FieldsOfFirstLine(pid, "(" + name + ")", state, tail, others);
    SplitFieldAtFront(ppidText, more + "\n");
    StripParensOf(name);
    ParsePrinted(ppid);
  }

  /** The record regrouped around its first three fields. */
  lemma StatLayout(pid: string, name: string, state: string, ppidText: string, more: string, others: string)
    ensures pid + " (" + name + ") " + state + " " + ppidText + " " + more + "\n" + others
      == pid + " " + ("(" + name + ")" + " " + (state + " " + (ppidText + " " + (more + "\n")))) + others
  {
  }

  /** The fields of a first line made of three space-free fields and a
      tail that holds the line break at its end. */
  lemma FieldsOfFirstLine(f0: string, f1: string, f2: string, tail: string, others: string)
    requires FIELD_SEPARATOR !in f0 && FIELD_SEPARATOR !in f1 && FIELD_SEPARATOR !in f2
    requires '\n' !in f0 && '\n' !in f1 && '\n' !in f2
    requires |tail| >= 1 && tail[|tail| - 1] == '\n' && '\n' !in tail[..|tail| - 1]
    ensures Split(ReadLine(f0 + " " + (f1 + " " + (f2 + " " + tail)) + others), FIELD_SEPARATOR)
      == [f0, f1, f2] + Split(tail, FIELD_SEPARATOR)
  {
    var line := f0 + " " + (f1 + " " + (f2 + " " + tail));
    assert line[..|line| - 1] == f0 + " " + (f1 + " " + (f2 + " " + tail[..|tail| - 1]));
    ReadLineFirst(line, others);
    SplitThreeFields(f0, f1, f2, tail);
  }

  /** Removing the markers from a parenthesised name gives the name. */
  lemma StripParensOf(name: string)
    ensures StripParens("(" + name + ")") == Some(name)
  {
    var field := "(" + name + ")";
    assert field[0] == PROCESS_NAME_PREFIX && field[|field| - 1] == PROCESS_NAME_SUFFIX;
    var r := StripParens(field).value;
    assert field == [PROCESS_NAME_PREFIX] + r + [PROCESS_NAME_SUFFIX];
    assert r == field[1..|field| - 1] == name;
  }

  /** A record whose parent id ends the first line does not parse:
      `read_line` keeps the `\n`, and it stays glued to the number. */
  lemma StatLineBreakAfterPpid(pid: string, name: string, state: string, ppidText: string, others: string)
    requires FIELD_SEPARATOR !in pid && FIELD_SEPARATOR !in name && FIELD_SEPARATOR !in state && FIELD_SEPARATOR !in ppidText
    requires '\n' !in pid && '\n' !in name && '\n' !in state && '\n' !in ppidText
    ensures ParseStat(pid + " (" + name + ") " + state + " " + ppidText + "\n" + others) == None
  {
    var tail := ppidText + "\n";
    StatLayoutAtEnd(pid, name, state, ppidText, others);
    assert tail[..|tail| - 1] == ppidText;
    FieldsOfFirstLine(pid, "(" + name + ")", state, tail, others);
    SplitNoSeparator(tail, FIELD_SEPARATOR);
    ParseTrailingNonDigit(ppidText, '\n');
    StripParensOf(name);
  }

  /** A record that ends right after the parent id, with no line break,
      parses: the last field is the number alone. */
  lemma StatPpidEndsText(pid: string, name: string, state: string, ppid: int)
    requires FIELD_SEPARATOR !in pid && FIELD_SEPARATOR !in name && FIELD_SEPARATOR !in state
    requires '\n' !in pid && '\n' !in name && '\n' !in state
    requires InI32(ppid)
    ensures ParseStat(pid + " (" + name + ") " + state + " " + IntToString(ppid)) == Some((ppid, name))
  {
    var ppidText := IntToString(ppid);
    PrintedPlain(ppid);
    StatLayoutNoBreak(pid, name, state, ppidText);
    var line := pid + " " + ("(" + name + ")" + " " + (state + " " + ppidText));
    ReadLineShape(line);
    SplitThreeFields(pid, "(" + name + ")", state, ppidText);
    SplitNoSeparator(ppidText, FIELD_SEPARATOR);
    StripParensOf(name);
    ParsePrinted(ppid);
  }

  /** The record regrouped around its first three fields, with the parent
      id ending the text; it holds no line break. */
  lemma StatLayoutNoBreak(pid: string, name: string, state: string, ppidText: string)
    requires '\n' !in pid && '\n' !in name && '\n' !in state && '\n' !in ppidText
    ensures pid + " (" + name + ") " + state + " " + ppidText
      == pid + " " + ("(" + name + ")" + " " + (state + " " + ppidText))
    ensures '\n' !in pid + " " + ("(" + name + ")" + " " + (state + " " + ppidText))
  {
  }

  /** The record `0 (foo) 0 0` gives parent id 0 and short name `foo`. */
  lemma StatExample()
    ensures ParseStat("0 (foo) 0 0") == Some((0, "foo"))
  {
    assert IntToString(0) == "0";
    StatPpidEndsText("0", "foo", "0", 0);
    assert "0" + " (" + "foo" + ") " + "0" + " " + "0" == "0 (foo) 0 0";
  }

  /** The record regrouped around its first three fields, with the parent
      id last on the line. */
  lemma StatLayoutAtEnd(pid: string, name: string, state: string, ppidText: string, others: string)
    ensures pid + " (" + name + ") " + state + " " + ppidText + "\n" + others
      == pid + " " + ("(" + name + ")" + " " + (state + " " + (ppidText + "\n"))) + others
  {
  }

  /** A short name of the form `a) b <n> c` shifts the fields: the record
      parses, with short name `a` and parent id `n`. */
  lemma SpacedNameShiftsFields(pid: string, a: string, b: string, n: int, c: string, rest: string, others: string)
    requires FIELD_SEPARATOR !in pid && FIELD_SEPARATOR !in a && FIELD_SEPARATOR !in b
    requires '\n' !in pid && '\n' !in a && '\n' !in b && '\n' !in c && '\n' !in rest
    requires InI32(n)
    ensures var name := a + ") " + b + " " + IntToString(n) + " " + c;
      ParseStat(pid + " (" + name + ") " + rest + "\n" + others) == Some((n, a))
  {
    StatWellFormed(pid, a, b, n, c + ") " + rest, others);
    SpacedNameLayout(pid, a, b, IntToString(n), c, rest, others);
  }

  /** The record with the spaced name, regrouped around its fields. */
  lemma SpacedNameLayout(pid: string, a: string, b: string, t: string, c: string, rest: string, others: string)
    ensures var name := a + ") " + b + " " + t + " " + c;
      pid + " (" + name + ") " + rest + "\n" + others
      == pid + " (" + a + ") " + b + " " + t + " " + (c + ") " + rest) + "\n" + others
  {
    var name := a + ") " + b + " " + t + " " + c;
    var front := pid + " (" + a + ") " + b + " " + t + " ";
    assert pid + " (" + name == front + c;
    assert front + c + ") " + rest == front + (c + ") " + rest);
  }

  /** Three fields without spaces in front of a space are the first three
      pieces. */
  lemma SplitThreeFields(f0: string, f1: string, f2: string, rest: string)
    requires FIELD_SEPARATOR !in f0 && FIELD_SEPARATOR !in f1 && FIELD_SEPARATOR !in f2
    ensures Split(f0 + " " + (f1 + " " + (f2 + " " + rest)), FIELD_SEPARATOR) == [f0, f1, f2] + Split(rest, FIELD_SEPARATOR)
  {
    var s2 := f2 + " " + rest;
    var s1 := f1 + " " + s2;
    SplitFieldAtFront(f2, rest);
    SplitFieldAtFront(f1, s2);
    SplitFieldAtFront(f0, s1);
  }

  /** A field without spaces in front of a space is the first piece. */
  lemma SplitFieldAtFront(field: string, rest: string)
    requires FIELD_SEPARATOR !in field
    ensures Split(field + " " + rest, FIELD_SEPARATOR) == [field] + Split(rest, FIELD_SEPARATOR)
  {
    var s := field + " " + rest;
    assert s[..|field|] == field;
    assert s[|field| + 1..] == rest;
    SplitAtFirst(s, FIELD_SEPARATOR, |field|);
  }

  /** The decimal text of an integer holds neither a space nor a line
      break. */
  lemma PrintedPlain(n: int)
    ensures FIELD_SEPARATOR !in IntToString(n) && '\n' !in IntToString(n)
  {
    var digits := if n < 0 then NatToString(-n) else NatToString(n);
    assert forall i :: 0 <= i < |digits| ==> IsDigit(digits[i]);
    if n < 0 {
      assert IntToString(n) == "-" + digits;
    }
  }

  /** A second field not wrapped in `(` and `)` makes the record
      unparseable. */
  lemma StatNeedsParens(content: string)
    requires var fields := Split(ReadLine(content), FIELD_SEPARATOR);
      |fields| >= 2 && StripParens(fields[1]).None?
    ensures ParseStat(content) == None
  {
  }

  /** A fourth field that is not a whole `i32` makes the record
      unparseable. */
  lemma StatNeedsNumericPpid(content: string)
    requires var fields := Split(ReadLine(content), FIELD_SEPARATOR);
      |fields| >= 4 && ParseI32(fields[3]).None?
    ensures ParseStat(content) == None
  {
  }

  /** A record has at least four fields. */
  lemma StatNeedsFourFields(content: string)
    requires |Split(ReadLine(content), FIELD_SEPARATOR)| < 4
    ensures ParseStat(content) == None
  {
  }

  /** The four ways of breaking the parentheses around the name. */
  lemma StatBrokenParensExamples()
    ensures StripParens("foo)") == None
    ensures StripParens("(foo") == None
    ensures StripParens("[foo)") == None
    ensures StripParens("(foo]") == None
  {
  }

  /** A short name holding a space is never recovered: whatever the
      record parses to, its name is a different one. */
  lemma SpacedNameNeverRecovered(content: string, name: string, ppid: int)
    requires FIELD_SEPARATOR in name
    ensures ParseStat(content) != Some((ppid, name))
  {
  }

  /** An argument file that cannot be opened gives no arguments. */
  lemma CmdlineUnopenable()
    ensures ReadCmdlineFile(None) == []
  {
  }

  /** A read error stops the reader but keeps what it had: the lines
      completed before the error are all returned, and only the unfinished
      last line, if any, is lost. */
  lemma CmdlineReadErrorTruncates(text: string)
    ensures ReadCmdlineFile(Some(CmdlineFile(text, true))) <= ReadCmdlineFile(Some(CmdlineFile(text, false)))
    ensures var partial := text[|CompleteLines(text)|..];
      ReadCmdlineFile(Some(CmdlineFile(text, false)))
        == ReadCmdlineFile(Some(CmdlineFile(text, true))) + (if partial == [] then [] else [partial])
  {
    var complete := CompleteLines(text);
    var partial := text[|complete|..];
    assert text == complete + partial;
    LinesConcat(complete, partial);
    if partial != [] {
      LinesWithoutBreak(partial);
    } else {
      assert Lines(partial) == [];
    }
  }

  /** Writing one argument per line and reading the file back gives the
      arguments, when none holds a line break or ends in `\r`. */
  lemma CmdlineRoundTrip(args: seq<string>)
    requires forall a :: a in args ==> PlainLine(a)
    ensures ReadCmdlineFile(Some(CmdlineFile(Terminated(args), false))) == args
  {
    LinesTerminated(args);
  }

  /** The kernel separates arguments with NUL bytes, not line breaks: an
      argument file without a line break is read as ONE argument, NULs
      and all. */
  lemma NulSeparatedCmdlineIsOneArgument(text: string)
    requires text != [] && '\n' !in text
    ensures ReadCmdlineFile(Some(CmdlineFile(text, false))) == [text]
  {
    LinesWithoutBreak(text);
  }

  /** Names that do not start with `1`..`9` (`self`, `0`, `+1`, `sys`) are
      not processes. */
  lemma DirectoryNameFilter(e: ProcEntry)
    requires e.name == [] || !('1' <= e.name[0] <= '9')
    ensures ReadProcess(Some(e)) == None
  {
  }

  /** An entry whose argument vector is empty is dropped. */
  lemma EmptyCmdlineDropped(e: ProcEntry)
    requires ReadCmdlineFile(e.cmdline) == []
    ensures ReadProcess(Some(e)) == None
  {
  }

  /** An entry whose name, stat record and argument file all read well
      becomes the record built from them, with group id equal to id. */
  lemma ReadProcessBuilds(e: ProcEntry, tid: int, ppid: int, cmd: string)
    requires |e.name| > 0 && '1' <= e.name[0] <= '9'
    requires ParseI32(e.name) == Some(tid)
    requires e.stat.Some? && ParseStat(e.stat.value) == Some((ppid, cmd))
    requires ReadCmdlineFile(e.cmdline) != []
    ensures ReadProcess(Some(e)) == Some(ProcessInfo(tid, ppid, tid, cmd, ReadCmdlineFile(e.cmdline)))
  {
  }

  /** The task directory `read_tasks` lists for an entry read from the
      directory `e` is `e`'s own: the group id prints back as `e`'s name. */
  lemma ReadTasksOwnDirectory(e: ProcEntry)
    requires ReadProcess(Some(e)).Some?
    ensures IntToString(ReadProcess(Some(e)).value.tgid) == e.name
  {
    ParseNonzeroLeading(e.name);
  }

  /** `read_tasks` yields the task entries in listing order, then the
      owner; an unreadable task directory yields the owner alone. */
  lemma ReadTasksShape(dirs: TaskDirs, p: ProcessInfo)
    ensures |ReadTasks(dirs, p)| >= 1 && ReadTasks(dirs, p)[|ReadTasks(dirs, p)| - 1] == p
    ensures IntToString(p.tgid) in dirs.taskListings ==>
      ReadTasks(dirs, p) == ReadListing(dirs.taskListings[IntToString(p.tgid)]) + [p]
    ensures IntToString(p.tgid) !in dirs.taskListings ==> ReadTasks(dirs, p) == [p]
  {
  }

  /** With the kernel toggle off nothing is filtered. */
  lemma HideKernelOffKeepsAll(listing: Listing)
    ensures Procfs(false, listing).ReadProcesses() == ReadListing(listing)
  {
    FilterAll(HideKernelThreadIn(false), ReadListing(listing));
  }

  /** With the kernel toggle on, no entry of the table, with or without
      threads, has `kthreadd` as parent or is `kthreadd`. */
  lemma HideKernelOnHidesKthreadd(listing: Listing, checkThreads: CheckThreads, dirs: TaskDirs)
    ensures forall p :: p in Procfs(true, listing).Read(checkThreads, dirs) ==>
      p.ppid != KTHREADD_PID && p.tid != KTHREADD_PID
  {
  }

  /** `read_processes` keeps exactly the parsed entries that pass the
      kernel filter, in listing order. */
  lemma ReadProcessesPicks(pf: Procfs) returns (idx: seq<nat>)
    ensures PicksExactly(KeepAsOption(HideKernelThreadIn(pf.hideKernel)), ReadListing(pf.processFilesystem),
                         pf.ReadProcesses(), idx)
  {
    idx := FilterPicks(HideKernelThreadIn(pf.hideKernel), ReadListing(pf.processFilesystem));
  }

  /** Without a readable `/proc/self/task` the thread scan yields
      nothing. */
  lemma NoSelfTaskNoEntries(pf: Procfs, dirs: TaskDirs)
    requires !dirs.selfTaskReadable
    ensures pf.Read(CheckThreads.Yes, dirs) == []
  {
  }

  /** With `/proc/self/task` readable, the thread table holds exactly the
      entries `read_tasks` lists for some parsed process (its task entries
      and the process itself) that pass the kernel filter. */
  lemma ThreadTableMembers(pf: Procfs, dirs: TaskDirs, p: ProcessInfo)
    requires dirs.selfTaskReadable
    ensures p in pf.Read(CheckThreads.Yes, dirs) <==>
      && HideKernelThread(pf.hideKernel, p)
      && exists owner :: owner in ReadListing(pf.processFilesystem) && p in ReadTasks(dirs, owner)
  {
    var parsed := ReadListing(pf.processFilesystem);
    var flat := Flatten(Map(ReadTasksIn(dirs), parsed));
    assert pf.Read(CheckThreads.Yes, dirs) == Filter(HideKernelThreadIn(pf.hideKernel), flat);
    if p in pf.Read(CheckThreads.Yes, dirs) {
      TaskListsSound(dirs, parsed, p);
    }
    if HideKernelThread(pf.hideKernel, p) && exists owner :: owner in parsed && p in ReadTasks(dirs, owner) {
      TaskListsComplete(dirs, parsed, p);
      FilterKeeps(HideKernelThreadIn(pf.hideKernel), flat, p);
    }
  }

  /** Every entry of the flattened task lists was listed for some owner. */
  lemma TaskListsSound(dirs: TaskDirs, parsed: seq<ProcessInfo>, p: ProcessInfo)
    requires p in Flatten(Map(ReadTasksIn(dirs), parsed))
    ensures exists owner :: owner in parsed && p in ReadTasks(dirs, owner)
  {
    var groups := Map(ReadTasksIn(dirs), parsed);
    FlattenMember(groups, p);
    var i :| 0 <= i < |groups| && p in groups[i];
    assert groups[i] == ReadTasks(dirs, parsed[i]);
    assert parsed[i] in parsed;
  }

  /** Everything listed for an owner stands in the flattened task lists. */
  lemma TaskListsComplete(dirs: TaskDirs, parsed: seq<ProcessInfo>, p: ProcessInfo)
    requires exists owner :: owner in parsed && p in ReadTasks(dirs, owner)
    ensures p in Flatten(Map(ReadTasksIn(dirs), parsed))
  {
    var owner :| owner in parsed && p in ReadTasks(dirs, owner);
    var i :| 0 <= i < |parsed| && parsed[i] == owner;
    FlattenHas(Map(ReadTasksIn(dirs), parsed), i, p);
  }

  /** Every owner stands in the flattened task lists, in order. */
  lemma {:induction false} OwnersFollowTheirTasks(dirs: TaskDirs, ps: seq<ProcessInfo>)
    ensures SubsequenceOf(ps, Flatten(Map(ReadTasksIn(dirs), ps)))
  {
    if ps != [] {
      var tasks := ReadTasks(dirs, ps[0]);
      var rest := Flatten(Map(ReadTasksIn(dirs), ps[1..]));
      FlattenTasksStep(dirs, ps);
      OwnersFollowTheirTasks(dirs, ps[1..]);
      OwnerLast(tasks[..|tasks| - 1], ps[0]);
      assert tasks == tasks[..|tasks| - 1] + [ps[0]];
      SubsequenceConcat([ps[0]], tasks, ps[1..], rest);
      assert [ps[0]] + ps[1..] == ps;
    }
  }

  /** The flattened task lists are the first owner's list, then the
      rest. */
  lemma FlattenTasksStep(dirs: TaskDirs, ps: seq<ProcessInfo>)
    requires ps != []
    ensures Flatten(Map(ReadTasksIn(dirs), ps)) == ReadTasks(dirs, ps[0]) + Flatten(Map(ReadTasksIn(dirs), ps[1..]))
  {
    assert Map(ReadTasksIn(dirs), ps)[1..] == Map(ReadTasksIn(dirs), ps[1..]);
  }

  lemma {:induction false} OwnerLast(tasks: seq<ProcessInfo>, p: ProcessInfo)
    ensures SubsequenceOf([p], tasks + [p])
    decreases |tasks|
  {
    if tasks == [] {
      assert SubsequenceOf([p][1..], []);
    } else {
      assert (tasks + [p])[1..] == tasks[1..] + [p];
      OwnerLast(tasks[1..], p);
    }
  }

  /** Listing threads only adds entries: when `/proc/self/task` is
      readable, the table without threads is a subsequence of the table
      with them. */
  lemma ThreadsOnlyAdd(pf: Procfs, dirs: TaskDirs)
    requires dirs.selfTaskReadable
    ensures SubsequenceOf(pf.Read(CheckThreads.No, dirs), pf.Read(CheckThreads.Yes, dirs))
  {
    var parsed := ReadListing(pf.processFilesystem);
    OwnersFollowTheirTasks(dirs, parsed);
    FilterMonotone(HideKernelThreadIn(pf.hideKernel), parsed, Flatten(Map(ReadTasksIn(dirs), parsed)));
  }
}
