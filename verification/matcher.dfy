/** The process record and the name-matching predicate of `src/lib.rs`
    (`ProcessInfo` and `ProcessInfo::matches`). The two symbolic links the
    matcher reads through `pid_link` are inputs: `rootLink` and `exeLink`
    are the targets of `/proc/<tid>/root` and `/proc/<tid>/exe`, `None`
    when `readlink` fails. */
module Matcher {

  import opened Wrappers
  import opened Iter
  import opened Utils
  import opened CheckFlags

  /** One process, or one thread when threads are listed. `cmd` is the
      kernel's short name, `cmdlineVector` the argument vector as read. */
  datatype ProcessInfo = ProcessInfo(
    tid: int,
    ppid: int,
    tgid: int,
    cmd: string,
    cmdlineVector: seq<string>)

  /** The targets of the `root` and `exe` links of every `/proc/<tid>`
      directory at query time; a missing key is a link `readlink` cannot
      resolve. */
  datatype ProcLinks = ProcLinks(root: map<int, string>, exe: map<int, string>)
  {
    function RootOf(tid: int): Option<string>
    {
      if tid in root then Some(root[tid]) else None
    }

    function ExeOf(tid: int): Option<string>
    {
      if tid in exe then Some(exe[tid]) else None
    }
  }

  const LOGIN_SHELL_PREFIX: char := '-'

  /** `c.starts_with('-')`: login shells record their argument zero with a
      leading `-`. */
  predicate IsLoginShellArg(c: string)
  {
    |c| > 0 && c[0] == LOGIN_SHELL_PREFIX
  }

  predicate KeepArg(c: string)
  {
    !IsLoginShellArg(c)
  }

  /** The arguments the matcher iterates over: every argument that does not
      start with `-`, in order. */
  function CmdLine(cmdlineVector: seq<string>): seq<string>
  {
    Filter(KeepArg, cmdlineVector)
  }

  /** `condition1`: the program name is argument zero, its base name, the
      short name (only with kernel workers), the base name of the program
      name is argument zero, or the program name is the executable link
      or its base name. */
  predicate PrimaryRule(programName: string, cmd: string, checkWorkers: CheckWorkers, cmdArg0: string, exeLink: string)
    ensures PrimaryRule(programName, cmd, checkWorkers, cmdArg0, exeLink) ==>
      || BaseName(programName) == BaseName(cmdArg0)
      || BaseName(programName) == BaseName(exeLink)
      || (checkWorkers == CheckWorkers.Yes && programName == cmd)
  {
    BaseNameIdempotent(programName);
    BaseNameIdempotent(cmdArg0);
    BaseNameIdempotent(exeLink);
    || programName == cmdArg0
    || programName == BaseName(cmdArg0)
    || (checkWorkers == CheckWorkers.Yes && programName == cmd)
    || BaseName(programName) == cmdArg0
    || programName == exeLink
    || programName == BaseName(exeLink)
  }

  /** `condition2`: with script checking on, the second surviving argument
      (the script an interpreter runs) names the program. */
  predicate ScriptRule(programName: string, cmd: string, checkScripts: CheckScripts, cmdArg1: Option<string>)
    ensures ScriptRule(programName, cmd, checkScripts, cmdArg1) ==> checkScripts == CheckScripts.Yes && cmdArg1.Some?
  {
    if checkScripts == CheckScripts.Yes then
      match cmdArg1
      case None => false
      case Some(arg1) =>
        || cmd == BaseName(arg1)
        || programName == BaseName(arg1)
        || BaseName(programName) == arg1
        || programName == arg1
    else
      false
  }

  /** A script match names the script: the program name and the script
      argument share their base name, or the short name is the script's
      base name. */
  lemma ScriptRuleAgreesOnBaseName(programName: string, cmd: string, arg1: string)
    requires ScriptRule(programName, cmd, CheckScripts.Yes, Some(arg1))
    ensures BaseName(programName) == BaseName(arg1) || cmd == BaseName(arg1)
  {
    BaseNameIdempotent(programName);
    BaseNameIdempotent(arg1);
  }

  /** `condition3`: a short name the kernel truncated or rewrote is still
      accepted when argument zero holds an underscore. */
  predicate TruncatedNameRule(programName: string, cmd: string, cmdArg0: string)
    ensures TruncatedNameRule(programName, cmd, cmdArg0) ==>
      programName == cmd && exists i :: 0 <= i < |cmdArg0| && cmdArg0[i] == '_'
  {
    '_' in cmdArg0 && programName == cmd
  }

  /** With kernel workers on, `condition3` adds nothing: the short name
      already satisfies `condition1`. */
  lemma TruncatedNameCoveredByWorkers(programName: string, cmd: string, cmdArg0: string, exeLink: string)
    requires TruncatedNameRule(programName, cmd, cmdArg0)
    ensures PrimaryRule(programName, cmd, CheckWorkers.Yes, cmdArg0, exeLink)
  {
  }

  /** `ProcessInfo::matches`, with its early returns: the root gate, no
      surviving argument, an unreadable executable link. */
  predicate Matches(
    p: ProcessInfo,
    programName: string,
    checkRoot: CheckRoot,
    checkWorkers: CheckWorkers,
    checkScripts: CheckScripts,
    rootLink: Option<string>,
    exeLink: Option<string>)
    ensures Matches(p, programName, checkRoot, checkWorkers, checkScripts, rootLink, exeLink) ==>
      RootGate(checkRoot, rootLink) && CmdLine(p.cmdlineVector) != [] && exeLink.Some?
  {
    if checkRoot.Yes? && (rootLink.None? || rootLink.value != checkRoot.pidofRoot) then
      false
    else
      var cmdLine := CmdLine(p.cmdlineVector);
      if cmdLine == [] then
        false
      else if exeLink.None? then
        false
      else
        AnyRule(programName, p.cmd, checkWorkers, checkScripts, cmdLine, exeLink.value)
  }

  /** Past the early returns, an entry matches exactly when one of the
      three rules holds. */
  lemma MatchesByRules(
    p: ProcessInfo, programName: string, checkRoot: CheckRoot, checkWorkers: CheckWorkers,
    checkScripts: CheckScripts, rootLink: Option<string>, exe: string)
    requires RootGate(checkRoot, rootLink)
    requires CmdLine(p.cmdlineVector) != []
    ensures Matches(p, programName, checkRoot, checkWorkers, checkScripts, rootLink, Some(exe))
      == AnyRule(programName, p.cmd, checkWorkers, checkScripts, CmdLine(p.cmdlineVector), exe)
  {
  }

  /** The three rules over the surviving arguments, once the early
      returns are passed. */
  predicate AnyRule(programName: string, cmd: string, checkWorkers: CheckWorkers, checkScripts: CheckScripts,
                    cmdLine: seq<string>, exe: string)
    requires cmdLine != []
  {
    var cmdArg1 := if |cmdLine| >= 2 then Some(cmdLine[1]) else None;
    || PrimaryRule(programName, cmd, checkWorkers, cmdLine[0], exe)
    || ScriptRule(programName, cmd, checkScripts, cmdArg1)
    || TruncatedNameRule(programName, cmd, cmdLine[0])
  }

  /** The root gate passes: root checking is off, or the entry's root link
      resolves to the caller's root. */
  predicate RootGate(checkRoot: CheckRoot, rootLink: Option<string>)
  {
    checkRoot.Yes? ==> rootLink == Some(checkRoot.pidofRoot)
  }

  /** An entry in another root, or whose root link cannot be read, never
      matches, whatever else holds. */
  lemma RootGateIsolates(
    p: ProcessInfo, programName: string, checkRoot: CheckRoot, checkWorkers: CheckWorkers,
    checkScripts: CheckScripts, rootLink: Option<string>, exeLink: Option<string>)
    requires !RootGate(checkRoot, rootLink)
    ensures !Matches(p, programName, checkRoot, checkWorkers, checkScripts, rootLink, exeLink)
  {
  }

  /** An entry whose every argument starts with `-` matches no name. */
  lemma NoSurvivingArgumentNeverMatches(
    p: ProcessInfo, programName: string, checkRoot: CheckRoot, checkWorkers: CheckWorkers,
    checkScripts: CheckScripts, rootLink: Option<string>, exeLink: Option<string>)
    requires forall c :: c in p.cmdlineVector ==> IsLoginShellArg(c)
    ensures CmdLine(p.cmdlineVector) == []
    ensures !Matches(p, programName, checkRoot, checkWorkers, checkScripts, rootLink, exeLink)
  {
    FilterNone(KeepArg, p.cmdlineVector);
  }

  /** A login shell recorded as `["-bash"]` matches no name. */
  lemma LoginShellAloneNeverMatches(
    p: ProcessInfo, programName: string, checkRoot: CheckRoot, checkWorkers: CheckWorkers,
    checkScripts: CheckScripts, rootLink: Option<string>, exeLink: Option<string>)
    requires p.cmdlineVector == ["-bash"]
    ensures !Matches(p, programName, checkRoot, checkWorkers, checkScripts, rootLink, exeLink)
  {
    NoSurvivingArgumentNeverMatches(p, programName, checkRoot, checkWorkers, checkScripts, rootLink, exeLink);
  }

  /** An unreadable executable link makes the whole entry a non-match,
      even when the name equals argument zero. */
  lemma ExeLinkRequired(
    p: ProcessInfo, programName: string, checkRoot: CheckRoot, checkWorkers: CheckWorkers,
    checkScripts: CheckScripts, rootLink: Option<string>)
    ensures !Matches(p, programName, checkRoot, checkWorkers, checkScripts, rootLink, None)
  {
  }

  /** Once the gate passes, argument zero exists and the executable link
      resolves, any one of the primary equalities is enough. */
  lemma PrimaryRuleSuffices(
    p: ProcessInfo, programName: string, checkRoot: CheckRoot, checkWorkers: CheckWorkers,
    checkScripts: CheckScripts, rootLink: Option<string>, exe: string)
    requires RootGate(checkRoot, rootLink)
    requires CmdLine(p.cmdlineVector) != []
    requires var arg0 := CmdLine(p.cmdlineVector)[0];
      || programName == arg0
      || programName == BaseName(arg0)
      || BaseName(programName) == arg0
      || programName == exe
      || programName == BaseName(exe)
    ensures Matches(p, programName, checkRoot, checkWorkers, checkScripts, rootLink, Some(exe))
  {
  }

  /** With kernel workers on, the short name alone is enough. */
  lemma WorkerShortNameMatches(
    p: ProcessInfo, checkRoot: CheckRoot, checkScripts: CheckScripts,
    rootLink: Option<string>, exe: string)
    requires RootGate(checkRoot, rootLink)
    requires CmdLine(p.cmdlineVector) != []
    ensures Matches(p, p.cmd, checkRoot, CheckWorkers.Yes, checkScripts, rootLink, Some(exe))
  {
  }

  /** With kernel workers off and no other rule applying, equality with
      the short name matches exactly when argument zero holds `_`. */
  lemma ShortNameNeedsUnderscoreWithoutWorkers(
    p: ProcessInfo, checkRoot: CheckRoot, rootLink: Option<string>, exe: string)
    requires RootGate(checkRoot, rootLink)
    requires CmdLine(p.cmdlineVector) != []
    requires var arg0 := CmdLine(p.cmdlineVector)[0];
      && p.cmd != arg0 && p.cmd != BaseName(arg0) && BaseName(p.cmd) != arg0
      && p.cmd != exe && p.cmd != BaseName(exe)
    ensures Matches(p, p.cmd, checkRoot, CheckWorkers.No, CheckScripts.No, rootLink, Some(exe))
        <==> '_' in CmdLine(p.cmdlineVector)[0]
  {
    MatchesByRules(p, p.cmd, checkRoot, CheckWorkers.No, CheckScripts.No, rootLink, exe);
  }

  /** The script rule never holds with script checking off or with fewer
      than two surviving arguments. */
  lemma ScriptRuleNeedsFlagAndTwoArguments(programName: string, cmd: string, checkScripts: CheckScripts, cmdArg1: Option<string>)
    requires checkScripts == CheckScripts.No || cmdArg1.None?
    ensures !ScriptRule(programName, cmd, checkScripts, cmdArg1)
  {
  }

  /** The script argument the matcher reads is the second argument that
      does not start with `-`: the two surviving arguments sit at positions
      `i < j`, and every other argument before `j` starts with `-`. */
  lemma ScriptArgumentPosition(v: seq<string>) returns (i: nat, j: nat)
    requires |CmdLine(v)| >= 2
    ensures i < j < |v|
    ensures v[i] == CmdLine(v)[0] && v[j] == CmdLine(v)[1]
    ensures !IsLoginShellArg(v[i]) && !IsLoginShellArg(v[j])
    ensures forall k :: 0 <= k < j && k != i ==> IsLoginShellArg(v[k])
  {
    var idx := FilterPicks(KeepArg, v);
    i, j := idx[0], idx[1];
    forall k | 0 <= k < j && k != i
      ensures IsLoginShellArg(v[k])
    {
      assert KeepAsOption(KeepArg)(v[k]).Some? <==> KeepArg(v[k]);
    }
  }

  /** Turning script checking on never loses a match. */
  lemma ScriptsMonotone(
    p: ProcessInfo, programName: string, checkRoot: CheckRoot, checkWorkers: CheckWorkers,
    rootLink: Option<string>, exeLink: Option<string>)
    requires Matches(p, programName, checkRoot, checkWorkers, CheckScripts.No, rootLink, exeLink)
    ensures Matches(p, programName, checkRoot, checkWorkers, CheckScripts.Yes, rootLink, exeLink)
  {
  }

  /** Turning kernel-worker matching on never loses a match. */
  lemma WorkersMonotone(
    p: ProcessInfo, programName: string, checkRoot: CheckRoot, checkScripts: CheckScripts,
    rootLink: Option<string>, exeLink: Option<string>)
    requires Matches(p, programName, checkRoot, CheckWorkers.No, checkScripts, rootLink, exeLink)
    ensures Matches(p, programName, checkRoot, CheckWorkers.Yes, checkScripts, rootLink, exeLink)
  {
  }

  /** Arguments starting with `-` play no part: dropping all of them from
      the argument vector leaves every match decision unchanged. */
  lemma LoginShellArgumentsIrrelevant(
    p: ProcessInfo, programName: string, checkRoot: CheckRoot, checkWorkers: CheckWorkers,
    checkScripts: CheckScripts, rootLink: Option<string>, exeLink: Option<string>)
    ensures Matches(p, programName, checkRoot, checkWorkers, checkScripts, rootLink, exeLink)
        == Matches(p.(cmdlineVector := CmdLine(p.cmdlineVector)), programName, checkRoot, checkWorkers, checkScripts, rootLink, exeLink)
  {
    FilterIdempotent(KeepArg, p.cmdlineVector);
  }

  /** An entry started as `/usr/bin/foo` matches both `foo` (base name of
      argument zero) and `/usr/bin/foo` (argument zero verbatim), whatever
      its short name and executable link. */
  lemma FullPathArgumentExample(p: ProcessInfo, exe: string)
    requires p.cmdlineVector == ["/usr/bin/foo"]
    ensures Matches(p, "foo", CheckRoot.No, CheckWorkers.No, CheckScripts.No, None, Some(exe))
    ensures Matches(p, "/usr/bin/foo", CheckRoot.No, CheckWorkers.No, CheckScripts.No, None, Some(exe))
  {
    assert CmdLine(p.cmdlineVector) == ["/usr/bin/foo"];
    BaseNameOfPath("/usr/bin", "foo");
    assert "/usr/bin" + "/" + "foo" == "/usr/bin/foo";
  }
}
