# pidof-rs in Dafny

This project models the library core of pidof-rs, a Rust rewrite of the
Linux `pidof` utility. The core reads a snapshot of `/proc` once into a
table of process entries: id, parent id, group id, short name and argument
vector. Each query then keeps the entries whose names match a program
name under four policy flags and returns their ids in table order.

Modules, one per concept:

- `Wrappers`: `Option` and `Result`.
- `Iter`: the iterator adapters the source chains (`map`, `filter`,
  `filter_map`, `flat_map` then `collect`), written as functions on
  sequences. Beside them are the facts the model uses: exactly which
  positions a filter keeps, and that its output is an order-preserving
  subsequence.
- `Utils` (`src/utils.rs`): `rsplit_once` and `base_name`.
- `CheckFlags` (`src/check_flags.rs`): the four flag enums and their
  conversions from booleans.
- `Matcher` (`src/lib.rs`): the `ProcessInfo` record and `matches` with
  its three rules.
- `Decimal`: `i32::from_str` and `to_string` for decimal integers. The
  directory names and the parent-id field go through them.
- `Text`: `split(' ')`, `read_line` (which keeps the line break) and
  `BufRead::lines` (which strips `\n`, then a `\r` before it).
- `Procfs` (`src/procfs.rs`): the record readers and the table builder,
  over an abstract listing of `/proc`.
- `InfoTable` (`src/lib.rs`): `ProcessInfoTable::populate` and `pid_of`.

The model treats these as inputs, because they are I/O:

- the `/proc` listing: a sequence of entries, each with a name, the `stat`
  text and the `cmdline` file;
- the `task` listings and whether `/proc/self/task` can be opened;
- the targets of the `root` and `exe` links, as maps from id to target
  (a missing key is a link `readlink` cannot resolve);
- whether `LIBPROC_HIDE_KERNEL` is set;
- whether the effective uid is 0.

`read_stat_file` advances a `split` iterator with `nth`. It is modelled
as a method (`ReadStatFile`) over the iterator's remaining text, and
proved equal to the function `ParseStat` on the split fields. `read_tasks`
pushes the owner onto a vector; the method `CollectTasks` does the same,
proved equal to the function `ReadTasks` that `flat_map` uses. Everything
else in the core is pure and is modelled by functions.

Behaviours of the code worth knowing, which the model keeps:

- `read_cmdline_file` splits the argument file on line breaks (`lines()`),
  not on NUL bytes. A kernel argument file without a line break is
  therefore read as one argument, NULs included
  (`NulSeparatedCmdlineIsOneArgument`).
- An executable link that cannot be read makes the whole entry a
  non-match (src/lib.rs:136-138), not only the rules that use the link
  (`ExeLinkRequired`).
- `read_process` sets the group id to the id, and `read_tasks` lists the
  owner after its task entries. Under thread inclusion an id can
  therefore appear twice (once as the main task, once as the owner). No
  uniqueness is claimed. `PidOfDistinct` shows that distinct table ids
  give a repeat-free answer.
- `read_line` keeps the final `\n`, and `split(' ')` leaves it on the last
  field. A record whose parent id ends the first line does not parse
  (`StatLineBreakAfterPpid`). One whose parent id ends the text, with no
  line break at all, does (`StatPpidEndsText`, `StatExample`). Real stat
  lines carry more fields after the parent id (`StatWellFormed`).
- A short name holding a space is never recovered
  (`SpacedNameNeverRecovered`). One of the form `a) b <n> c` shifts the
  fields and parses as name `a` with parent id `n`
  (`SpacedNameShiftsFields`).

## Model

| member | source | states |
|---|---|---|
| Utils.RSplitOnce | src/utils.rs:2 | `None` exactly when the character is absent; otherwise the text is `before + c + after` with no `c` in `after` (the split is at the last occurrence) |
| Utils.BaseName | src/utils.rs:1-6 | the result is a suffix of the name without `/`; a `/` stands right before it when the name holds one; without `/` it is the name itself |
| Utils.BaseNameLongestSuffix | src/utils.rs:2-3 | every suffix longer than the base name holds a `/`, so the base name is the text after the LAST `/` |
| Utils.BaseNameIdempotent | src/utils.rs:1-6 | `base_name(base_name(s)) == base_name(s)` |
| Utils.BaseNameTrailingSlash | src/utils.rs:3 | a name ending in `/` has an empty base name |
| Utils.BaseNameOfPath | src/utils.rs:2-3 | `prefix/base` with a `/`-free `base` has base name `base` |
| CheckFlags.CheckRootFrom | src/check_flags.rs:10-18 | `Yes` exactly when the flag is set, the effective uid is 0 and the caller's own root link resolves, and then it carries that link's target; `No` otherwise |
| CheckFlags.CheckRootOffWithoutFlag | src/check_flags.rs:12-16 | without the flag the result is `No` whatever the privileges |
| CheckFlags.CheckScriptsFrom | src/check_flags.rs:27-35 | `Yes` exactly for `true` |
| CheckFlags.CheckThreadsFrom | src/check_flags.rs:44-52 | `Yes` exactly for `true` |
| CheckFlags.CheckWorkersFrom | src/check_flags.rs:61-69 | `Yes` exactly for `true` |
| Matcher.Matches | src/lib.rs:106-164 | a match needs the root gate to pass, at least one argument not starting with `-`, and a readable executable link |
| Matcher.PrimaryRule | src/lib.rs:142-147 | when `condition1` holds, the program name shares its base name with argument zero or with the executable link, or it is the short name under `CheckWorkers::Yes` |
| Matcher.ScriptRule | src/lib.rs:149-159 | `condition2` holds only under `CheckScripts::Yes` and with a second surviving argument |
| Matcher.ScriptRuleAgreesOnBaseName | src/lib.rs:150-156 | when `condition2` holds, the program name shares its base name with the script argument, or the short name is the script's base name |
| Matcher.TruncatedNameRule | src/lib.rs:161 | `condition3` holds only when the program name is the short name and argument zero holds an underscore |
| Matcher.TruncatedNameCoveredByWorkers | src/lib.rs:142-161 | under `CheckWorkers::Yes`, `condition3` implies `condition1` |
| Matcher.RootGateIsolates | src/lib.rs:115-123 | under `CheckRoot::Yes(r)`, an entry whose root link is unreadable or differs from `r` matches no name under any other flags |
| Matcher.NoSurvivingArgumentNeverMatches | src/lib.rs:126-133 | when every argument starts with `-`, none survives the filter and the entry never matches |
| Matcher.LoginShellAloneNeverMatches | src/lib.rs:126-133 | an entry whose argument vector is `["-bash"]` matches no name |
| Matcher.LoginShellArgumentsIrrelevant | src/lib.rs:126-129 | removing the `-` arguments beforehand changes no match: only surviving arguments count, in their order |
| Matcher.ExeLinkRequired | src/lib.rs:136-138 | an unreadable executable link makes the entry a non-match, even when the name equals argument zero |
| Matcher.PrimaryRuleSuffices | src/lib.rs:142-147 | once the gate passes, argument zero exists and the executable link resolves, any one of name = arg0, name = base(arg0), base(name) = arg0, name = exe, name = base(exe) makes the entry match |
| Matcher.WorkerShortNameMatches | src/lib.rs:144 | under `CheckWorkers::Yes` the short name alone matches any entry that passes the gate, keeps an argument and whose executable link resolves (an unreadable link, as for kernel threads, still gives no match) |
| Matcher.ShortNameNeedsUnderscoreWithoutWorkers | src/lib.rs:142-163 | under `CheckWorkers::No`, with scripts off and no primary equality holding, the short name matches exactly when argument zero holds `_` |
| Matcher.ScriptRuleNeedsFlagAndTwoArguments | src/lib.rs:149-159 | the script rule is false under `CheckScripts::No` or without a second surviving argument |
| Matcher.ScriptArgumentPosition | src/lib.rs:126-129 | the script rule's argument is the second argument not starting with `-`: every other argument before it starts with `-` |
| Matcher.ScriptsMonotone | src/lib.rs:149-163 | switching `CheckScripts` from `No` to `Yes` never turns a match into a non-match |
| Matcher.WorkersMonotone | src/lib.rs:142-147 | switching `CheckWorkers` from `No` to `Yes` never turns a match into a non-match |
| Matcher.FullPathArgumentExample | src/lib.rs:142-143 | an entry started as `/usr/bin/foo` whose executable link resolves matches both `foo` and `/usr/bin/foo` |
| Decimal.ParseI32 | src/procfs.rs:60 | every value `i32::from_str` accepts lies in the `i32` range |
| Decimal.NatToString | src/procfs.rs:95 | the text of a natural number is all digits, has that value and no leading zero |
| Decimal.ParsePrinted | src/procfs.rs:95 | parsing the text `to_string` prints gives the number back, over the whole `i32` range |
| Decimal.ParseNonzeroLeading | src/procfs.rs:60 | a name starting with `1`..`9` that parses is a positive id whose printed text is the name itself |
| Decimal.ParseTrailingNonDigit | src/procfs.rs:122 | a text ending in a character that is not a digit never parses |
| Text.JoinSplit | src/procfs.rs:115 | joining the pieces of `split(' ')` with the separator gives the text back |
| Text.SplitAtFirst | src/procfs.rs:115 | the first piece of a split ends at the first separator |
| Text.ReadLineShape | src/procfs.rs:112-113 | `read_line` returns a prefix of the text that ends at, and includes, the first `\n`, or the whole text without one |
| Text.LinesTerminated | src/procfs.rs:132-134 | reading back lines written one per line gives the lines back, for lines without `\n` that do not end in `\r` |
| Text.LinesConcat | src/procfs.rs:132-134 | the lines of a text cut after a line break are the lines of the two parts |
| Procfs.StripParens | src/procfs.rs:117-121 | a value exactly when the field starts with `(` and ends with `)`; then the field is `(` + value + `)` |
| Procfs.ParseStat | src/procfs.rs:104-125 | a parsed record has an `i32` parent id and a short name without spaces |
| Procfs.NextField | src/procfs.rs:115 | one step of the `split` iterator yields the first remaining piece and leaves the rest |
| Procfs.NthField | src/procfs.rs:118 | `nth(n)` yields piece `n` of what is left and leaves the pieces after it, or yields nothing and exhausts the iterator |
| Procfs.ReadStatFile | src/procfs.rs:104-125 | the iterator-driven reader returns exactly `ParseStat` of the stat text, and nothing when the file is missing |
| Procfs.StatEmpty | src/procfs.rs:117-118 | an empty stat text gives no record |
| Procfs.StatWellFormed | src/procfs.rs:115-124 | `pid (name) state ppid …` with space-free fields gives `(ppid, name)` for every `i32` parent id |
| Procfs.StatPpidEndsText | src/procfs.rs:113-124 | `pid (name) state ppid` with nothing after the parent id, not even a line break, gives `(ppid, name)` for every `i32` parent id |
| Procfs.StatExample | src/procfs.rs:113-124 | the record `0 (foo) 0 0` gives parent id 0 and short name `foo` |
| Procfs.StatLineBreakAfterPpid | src/procfs.rs:113-122 | a parent id that ends the first line keeps the `\n` and the record does not parse |
| Procfs.StatNeedsParens | src/procfs.rs:119-120 | a second field not wrapped in `(`…`)` gives no record |
| Procfs.StatNeedsNumericPpid | src/procfs.rs:122 | a fourth field that is not a whole `i32` gives no record |
| Procfs.StatNeedsFourFields | src/procfs.rs:117-122 | a first line with fewer than four fields gives no record |
| Procfs.StatBrokenParensExamples | src/procfs.rs:119-120 | `foo)`, `(foo`, `[foo)` and `(foo]` are rejected as name fields |
| Procfs.SpacedNameNeverRecovered | src/procfs.rs:115-121 | a short name holding a space is never the name the parse returns |
| Procfs.SpacedNameShiftsFields | src/procfs.rs:115-124 | a short name `a) b <n> c` parses as name `a` with parent id `n` |
| Procfs.CompleteLines | src/procfs.rs:134 | the text a failing reader still delivers as whole lines is the longest prefix of the file ending in a line break: no `\n` follows it |
| Procfs.ReadCmdlineFile | src/procfs.rs:127-135 | an argument file that cannot be opened gives no arguments; an open one gives a prefix of the lines of its text |
| Procfs.CmdlineUnopenable | src/procfs.rs:128-130 | an argument file that cannot be opened gives no arguments |
| Procfs.CmdlineReadErrorTruncates | src/procfs.rs:134 | a read error only cuts the argument list short: every line completed before it is returned, and only the unfinished last line, if any, is lost |
| Procfs.CmdlineRoundTrip | src/procfs.rs:132-134 | arguments written one per line (none holding `\n` or ending in `\r`) are read back unchanged |
| Procfs.NulSeparatedCmdlineIsOneArgument | src/procfs.rs:134 | a non-empty argument file without a line break is read as a single argument |
| Procfs.FirstLetterNonzeroNumber | src/procfs.rs:81-92 | an entry passes exactly when it was read and its name starts with `1`..`9`; it passes unchanged |
| Procfs.DirectoryNameFilter | src/procfs.rs:88-91 | names that do not start with `1`..`9` yield no entry |
| Procfs.ReadProcess | src/procfs.rs:57-79 | an entry is built exactly when the directory entry was read, its name starts with `1`..`9` and parses as an `i32`, the stat file exists and parses, and the argument vector is non-empty; the entry then carries the parsed name as id and group id (positive), the parent id and short name `ParseStat` returns, and the arguments `ReadCmdlineFile` returns |
| Procfs.ReadListing | src/procfs.rs:34 | the `filter_map(read_process)` result is no longer than the listing, and each entry is what `read_process` built from some listing entry |
| Procfs.EmptyCmdlineDropped | src/procfs.rs:68-69 | an empty argument vector yields no entry |
| Procfs.ReadProcessBuilds | src/procfs.rs:57-79 | when name, stat record and argument file all read, the entry is exactly the record built from them |
| Procfs.ReadListingWellFormed | src/procfs.rs:34 | every parsed entry of a listing is well formed (group id = id > 0, arguments present, no space in the name) |
| Procfs.TableWellFormed | src/procfs.rs:25-49 | every entry of the table, with or without threads, is well formed |
| Procfs.CollectTasks | src/procfs.rs:94-102 | the vector holds the parsed task entries and then the owner, pushed last |
| Procfs.ReadTasksOwnDirectory | src/procfs.rs:95 | the task path of a parsed entry names the directory it was read from |
| Procfs.ReadTasks | src/procfs.rs:94-102 | the owner comes last; an unreadable task directory gives the owner alone |
| Procfs.ReadTasksShape | src/procfs.rs:94-102 | `read_tasks` gives the task entries in listing order followed by the owner; an unreadable task directory gives the owner alone |
| Procfs.HideKernelThread | src/procfs.rs:52-54 | with the toggle off every entry is kept; with it on, an entry is kept exactly when neither its id nor its parent id is 2 |
| Procfs.Procfs.Read | src/procfs.rs:25-30 | every table entry passes the kernel filter; without threads the table is no longer than the listing; with threads and an unreadable `/proc/self/task` it is empty |
| Procfs.Procfs.ReadProcesses | src/procfs.rs:32-37 | no longer than the listing; every entry passes the kernel filter and is a parsed entry of the listing |
| Procfs.Procfs.ReadProcessesAndTasks | src/procfs.rs:39-49 | empty when `/proc/self/task` cannot be listed; every entry passes the kernel filter |
| Procfs.HideKernelOffKeepsAll | src/procfs.rs:52-54 | with the kernel toggle off, `read_processes` keeps every parsed entry |
| Procfs.HideKernelOnHidesKthreadd | src/procfs.rs:52-54 | with the kernel toggle on, no table entry is `kthreadd` (id 2) or has it as parent |
| Procfs.ReadProcessesPicks | src/procfs.rs:32-37 | `read_processes` keeps exactly the parsed entries that pass the kernel filter, in listing order |
| Procfs.NoSelfTaskNoEntries | src/procfs.rs:40-42 | without a readable `/proc/self/task` the thread scan yields nothing |
| Procfs.ThreadTableMembers | src/procfs.rs:39-49 | with `/proc/self/task` readable, an entry is in the thread table exactly when it passes the kernel filter and `read_tasks` lists it for some parsed process: one of that process's task entries, or the process itself |
| Procfs.OwnersFollowTheirTasks | src/procfs.rs:44-46 | every owner stands, in order, in the flattened task lists |
| Procfs.ThreadsOnlyAdd | src/procfs.rs:25-49 | when `/proc/self/task` can be listed, the table without threads is an order-preserving subsequence of the table with threads |
| Procfs.New | src/procfs.rs:16-23 | construction fails exactly when `/proc` cannot be listed, and otherwise stores the toggle and the listing |
| InfoTable.Populate | src/lib.rs:58-72 | fails exactly when `/proc` cannot be listed; otherwise the table is what `read(check_threads)` yields, with the three query flags stored |
| InfoTable.ProcessInfoTable.PidOf | src/lib.rs:79-92 | the answer is no longer than the table, and every id in it is the id of a table entry that matches under the stored flags |
| InfoTable.PidOfPicks | src/lib.rs:79-92 | the answer is the ids of exactly the matching entries under the stored flags, in table order |
| InfoTable.PidOfSound | src/lib.rs:79-92 | every returned id is the id of a matching table entry |
| InfoTable.PidOfComplete | src/lib.rs:79-92 | the id of every matching entry is returned |
| InfoTable.PidOfSubsequence | src/lib.rs:79-92 | the answer is a subsequence of the table's ids and never longer than the table |
| InfoTable.PidOfDistinct | src/lib.rs:79-92 | a table with distinct ids gives an answer without repeats |
| InfoTable.EmptyTableAnswersNothing | src/lib.rs:79-92 | an empty table answers nothing |
| InfoTable.HiddenKthreaddNeverReported | src/lib.rs:64-69 | with `LIBPROC_HIDE_KERNEL` set, id 2 is never returned |
| InfoTable.ScriptsOnlyAdd | src/lib.rs:149-159 | turning on script matching never loses an id: the answer without it is a subsequence of the answer with it |
| InfoTable.WorkersOnlyAdd | src/lib.rs:144 | turning on worker matching never loses an id |
| InfoTable.ThreadsOnlyAddIds | src/lib.rs:64-69 | with `/proc/self/task` readable, turning on thread listing never loses an id |

## Left out

- The I/O itself is not modelled: `read_dir`, `File::open`, the buffered
  reads, `readlink` in `pid_link`, `geteuid` in `is_root` and the
  `LIBPROC_HIDE_KERNEL` lookup. Their results are inputs of the model, as
  listed above.
- Non-UTF-8 names and files: `to_str()` failing on a directory name is not
  distinguished from a name that does not parse. A file with invalid
  UTF-8 is the read-error flag of the argument file. A stat file whose
  first line is not UTF-8 makes `read_line` fail, and is the stat file
  that cannot be read (`None`).
- `to_string_lossy` in the directory-name check and on the `readlink`
  targets of `pid_link` (src/utils.rs:15-17) is the identity on the names
  and link targets modelled: the link maps hold the converted strings.
- The snapshot is taken once. Processes that appear or exit while it is
  read (races between listing and opening) are not modelled.
- The link maps are read at query time. The model does not tie them to
  the listing.
- `src/main.rs` (argument parsing, the omit-pid filter, printing and
  exit codes) is not part of this model.
- `src/process.rs` and `src/process_table.rs` are not part of this model.
  They are not declared as modules of the crate (src/lib.rs:33-35).
- Integers are unbounded. Ids come from `i32::from_str`, which bounds
  them to the `i32` range, so no wrap-around arises.
