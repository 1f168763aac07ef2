/** The pieces of Rust's string and buffered-reader library that the stat
    and argument files go through: `str::split` on one character,
    `BufRead::read_line`, `BufRead::lines`, `strip_prefix` and
    `strip_suffix`. */
module Text {

  import opened Wrappers

  /** `s.split(sep)`: the pieces between occurrences of `sep`. An empty
      text is one empty piece; a separator at either end gives an empty
      piece there. */
  function Split(s: string, sep: char): (r: seq<string>)
    ensures |r| >= 1
  {
    if s == [] then [[]]
    else if s[0] == sep then [[]] + Split(s[1..], sep)
    else
      var rest := Split(s[1..], sep);
      [[s[0]] + rest[0]] + rest[1..]
  }

  /** The pieces glued back together with the separator between them. */
  function Join(pieces: seq<string>, sep: char): string
    requires |pieces| >= 1
  {
    if |pieces| == 1 then pieces[0] else pieces[0] + [sep] + Join(pieces[1..], sep)
  }

  /** No piece holds the separator. */
  lemma {:induction false} SplitPiecesClean(s: string, sep: char)
    ensures forall i :: 0 <= i < |Split(s, sep)| ==> sep !in Split(s, sep)[i]
  {
    if s != [] {
      SplitPiecesClean(s[1..], sep);
    }
  }

  /** Splitting loses nothing: joining the pieces gives the text back. */
  lemma {:induction false} JoinSplit(s: string, sep: char)
    ensures Join(Split(s, sep), sep) == s
  {
    if s != [] {
      JoinSplit(s[1..], sep);
      var rest := Split(s[1..], sep);
      if s[0] != sep {
        var r := Split(s, sep);
        assert r[1..] == rest[1..];
        if |rest| > 1 {
          assert Join(r, sep) == [s[0]] + rest[0] + [sep] + Join(rest[1..], sep);
        }
      }
    }
  }

  /** The first piece ends at the first separator. */
  lemma {:induction false} SplitAtFirst(s: string, sep: char, i: nat)
    requires i < |s| && s[i] == sep && sep !in s[..i]
    ensures Split(s, sep) == [s[..i]] + Split(s[i + 1..], sep)
  {
    if i > 0 {
      assert s[0] == s[..i][0];
      assert s[1..][..i - 1] == s[1..i];
      SplitAtFirst(s[1..], sep, i - 1);
      assert s[1..][i..] == s[i + 1..];
      assert [s[0]] + s[1..i] == s[..i];
    }
  }

  /** A text without the separator is a single piece. */
  lemma {:induction false} SplitNoSeparator(s: string, sep: char)
    requires sep !in s
    ensures Split(s, sep) == [s]
  {
    if s != [] {
      assert sep !in s[1..];
      SplitNoSeparator(s[1..], sep);
      assert [s[0]] + s[1..] == s;
    }
  }

  /** `read_line` into an empty buffer: everything up to and including
      the first line break, or the whole text when there is none. */
  function ReadLine(s: string): (r: string)
    ensures |r| <= |s|
    ensures s != [] ==> |r| >= 1
  {
    if s == [] then []
    else if s[0] == '\n' then ['\n']
    else [s[0]] + ReadLine(s[1..])
  }

  /** The line `read_line` returns is a prefix of the text holding no line
      break but possibly a final one, which is there exactly when the text
      has a line break. */
  lemma {:induction false} ReadLineShape(s: string)
    ensures ReadLine(s) <= s
    ensures ReadLine(s) == [] || '\n' !in ReadLine(s)[..|ReadLine(s)| - 1]
    ensures '\n' !in s ==> ReadLine(s) == s
    ensures '\n' in s ==> ReadLine(s)[|ReadLine(s)| - 1] == '\n'
  {
    if s != [] && s[0] != '\n' {
      ReadLineShape(s[1..]);
      assert '\n' in s ==> '\n' in s[1..];
    }
  }

  /** One item of `BufRead::lines`: the line without its `\n`, and
      without a `\r` that stood right before that `\n`. */
  function Chomp(line: string): string
  {
    if |line| > 0 && line[|line| - 1] == '\n' then
      var l := line[..|line| - 1];
      if |l| > 0 && l[|l| - 1] == '\r' then l[..|l| - 1] else l
    else
      line
  }

  /** `BufRead::lines` over a text read without error. */
  function Lines(s: string): (r: seq<string>)
    decreases |s|
  {
    if s == [] then []
    else
      var line := ReadLine(s);
      [Chomp(line)] + Lines(s[|line|..])
  }

  /** `s.strip_prefix(c)`. */
  function StripPrefix(s: string, c: char): (r: Option<string>)
    ensures r.Some? <==> |s| > 0 && s[0] == c
    ensures r.Some? ==> s == [c] + r.value
  {
    if |s| > 0 && s[0] == c then Some(s[1..]) else None
  }

  /** `s.strip_suffix(c)`. */
  function StripSuffix(s: string, c: char): (r: Option<string>)
    ensures r.Some? <==> |s| > 0 && s[|s| - 1] == c
    ensures r.Some? ==> s == r.value + [c]
  {
    if |s| > 0 && s[|s| - 1] == c then Some(s[..|s| - 1]) else None
  }

  /** Each line followed by a line break. */
  function Terminated(lines: seq<string>): string
  {
    if lines == [] then [] else lines[0] + "\n" + Terminated(lines[1..])
  }

  /** A line `lines` gives back unchanged once a line break follows it. */
  predicate PlainLine(l: string)
  {
    '\n' !in l && (l == [] || l[|l| - 1] != '\r')
  }

  /** `lines` inverts writing one line per item, for items without line
      breaks that do not end in `\r`. */
  lemma {:induction false} LinesTerminated(lines: seq<string>)
    requires forall l :: l in lines ==> PlainLine(l)
    ensures Lines(Terminated(lines)) == lines
  {
    if lines != [] {
      var first := lines[0] + "\n";
      assert PlainLine(lines[0]);
      assert first[..|first| - 1] == lines[0];
      assert Chomp(first) == lines[0];
      assert Terminated(lines) == first + Terminated(lines[1..]);
      LinesFirst(first, Terminated(lines[1..]));
      LinesTerminated(lines[1..]);
    }
  }

  /** The first item of `lines` comes from the first line. */
  lemma LinesFirst(first: string, rest: string)
    requires |first| >= 1 && first[|first| - 1] == '\n' && '\n' !in first[..|first| - 1]
    ensures Lines(first + rest) == [Chomp(first)] + Lines(rest)
  {
    ReadLineFirst(first, rest);
    assert (first + rest)[|first|..] == rest;
  }

  /** `read_line` stops at the first line break, whatever follows. */
  lemma {:induction false} ReadLineFirst(x: string, y: string)
    requires |x| >= 1 && x[|x| - 1] == '\n' && '\n' !in x[..|x| - 1]
    ensures ReadLine(x + y) == x
  {
    if |x| > 1 {
      assert (x + y)[1..] == x[1..] + y;
      assert x[1..][..|x| - 2] == x[1..|x| - 1];
      ReadLineFirst(x[1..], y);
    }
  }

  /** Lines of a text cut after a line break are the lines of the two
      parts. */
  lemma {:induction false} LinesConcat(x: string, y: string)
    requires x == [] || x[|x| - 1] == '\n'
    ensures Lines(x + y) == Lines(x) + Lines(y)
    decreases |x|
  {
    if x == [] {
      assert x + y == y;
    } else {
      var line, rest := FirstLineOf(x);
      LinesConcat(rest, y);
      LinesConcatStep(line, rest, y);
    }
  }

  lemma LinesConcatStep(line: string, rest: string, y: string)
    requires |line| >= 1 && line[|line| - 1] == '\n' && '\n' !in line[..|line| - 1]
    requires Lines(rest + y) == Lines(rest) + Lines(y)
    ensures Lines(line + rest + y) == Lines(line + rest) + Lines(y)
  {
    LinesRegrouped(line, rest, y);
    LinesFirst(line, rest);
    AppendAssoc([Chomp(line)], Lines(rest), Lines(y));
  }

  lemma AppendAssoc<T>(a: seq<T>, b: seq<T>, c: seq<T>)
    ensures a + (b + c) == (a + b) + c
  {
  }

  /** The first line of `line + rest + y` is `line`, whatever follows. */
  lemma LinesRegrouped(line: string, rest: string, y: string)
    requires |line| >= 1 && line[|line| - 1] == '\n' && '\n' !in line[..|line| - 1]
    ensures Lines(line + rest + y) == [Chomp(line)] + Lines(rest + y)
  {
    assert line + rest + y == line + (rest + y);
    LinesFirst(line, rest + y);
  }

  /** A text ending in a line break is its first line, ending in its only
      line break, followed by a rest that is empty or ends in a line break. */
  lemma FirstLineOf(x: string) returns (line: string, rest: string)
    requires x != [] && x[|x| - 1] == '\n'
    ensures line == ReadLine(x) && x == line + rest && |rest| < |x|
    ensures |line| >= 1 && line[|line| - 1] == '\n' && '\n' !in line[..|line| - 1]
    ensures rest == [] || rest[|rest| - 1] == '\n'
  {
    assert x[|x| - 1] in x;
    ReadLineShape(x);
    line := ReadLine(x);
    rest := x[|line|..];
    assert x == line + rest;
    assert rest == [] || rest[|rest| - 1] == x[|x| - 1];
  }

  /** A text without line breaks is a single line. */
  lemma LinesWithoutBreak(s: string)
    requires s != [] && '\n' !in s
    ensures Lines(s) == [s]
  {
    ReadLineShape(s);
    assert s[|s|..] == [];
  }
}
