/** String helpers from `src/utils.rs`. Only `base_name` is pure; the
    `readlink` behind `pid_link` and the `geteuid` behind `is_root` are
    inputs of the model (see `Matcher.ProcLinks` and `CheckFlags.CheckRootFrom`). */
module Utils {

  import opened Wrappers

  /** Rust's `str::rsplit_once(c)`: the text before and after the LAST
      occurrence of `c`, or `None` when `c` does not occur. */
  function RSplitOnce(s: string, c: char): (r: Option<(string, string)>)
    ensures r.None? <==> c !in s
    ensures r.Some? ==> s == r.value.0 + [c] + r.value.1 && c !in r.value.1
  {
    if s == [] then None
    else if s[|s| - 1] == c then Some((s[..|s| - 1], []))
    else match RSplitOnce(s[..|s| - 1], c)
      case None => None
      case Some((before, after)) => Some((before, after + [s[|s| - 1]]))
  }

  /** `base_name`: the text after the last `/`, or the whole string when it
      holds no `/`. */
  function BaseName(name: string): (r: string)
    ensures |r| <= |name| && r == name[|name| - |r|..]
    ensures '/' !in r
    ensures '/' in name ==> name[|name| - |r| - 1] == '/'
    ensures '/' !in name ==> r == name
  {
    match RSplitOnce(name, '/')
    case Some((_, baseName)) => baseName
    case None => name
  }

  /** The base name is the longest `/`-free suffix: every longer suffix
      holds a `/`. */
  lemma BaseNameLongestSuffix(name: string, k: nat)
    requires k < |name| - |BaseName(name)|
    ensures '/' in name[k..]
  {
    var n := |name| - |BaseName(name)| - 1;
    assert name[k..][n - k] == name[n];
  }

  lemma BaseNameIdempotent(name: string)
    ensures BaseName(BaseName(name)) == BaseName(name)
  {
  }

  /** A name ending in `/` has an empty base name. */
  lemma BaseNameTrailingSlash(name: string)
    requires |name| > 0 && name[|name| - 1] == '/'
    ensures BaseName(name) == []
  {
  }

  /** `prefix + "/" + base` has base name `base` when `base` holds no `/`. */
  lemma BaseNameOfPath(prefix: string, base: string)
    requires '/' !in base
    ensures BaseName(prefix + "/" + base) == base
  {
    var name := prefix + "/" + base;
    assert name[|prefix|] == '/';
    assert base == name[|name| - |base|..];
  }
}
