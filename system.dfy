/**
 * System utilities: picking the machine's IPv4 address out of the text
 * `ipconfig` prints.  Running `ipconfig` is left abstract: the model is
 * given what `subprocess.run` returned, or `None` when it raised.
 */
module System {
  import opened Wrappers

  /** What `subprocess.run` returns with `text=True`. */
  datatype CompletedProcess = CompletedProcess(returncode: int, stdout: string, stderr: string)

  /** The label `ipconfig` puts on the lines that carry an IPv4 address. */
  const Ipv4Marker: string := "IPv4 Address"

  // ---------------------------------------------------------------------------
  // Python's `str.splitlines()`

  /** The characters `str.splitlines` breaks lines at; `"\r\n"` counts as one break. */
  predicate IsLineBreak(c: char)
  {
    c == '\n' || c == '\r' || c == '\U{000B}' || c == '\U{000C}' || c == '\U{001C}' || c == '\U{001D}' ||
    c == '\U{001E}' || c == '\U{0085}' || c == '\U{2028}' || c == '\U{2029}'
  }

  /** The first line break at or after `from`, or `|s|` when there is none. */
  function LineEnd(s: string, from: nat): (i: nat)
    requires from <= |s|
    ensures from <= i <= |s|
    ensures forall j :: from <= j < i ==> !IsLineBreak(s[j])
    ensures i < |s| ==> IsLineBreak(s[i])
    decreases |s| - from
  {
    if from == |s| || IsLineBreak(s[from]) then from else LineEnd(s, from + 1)
  }

  /** Where the line after the break at `i` starts: `"\r\n"` is one break. */
  function NextLine(s: string, i: nat): (j: nat)
    requires i < |s| && IsLineBreak(s[i])
    ensures i < j <= |s|
    ensures forall k :: i <= k < j ==> IsLineBreak(s[k])
  {
    if s[i] == '\r' && i + 1 < |s| && s[i + 1] == '\n' then i + 2 else i + 1
  }

  /**
   * `s.splitlines()`: the text between line breaks, without the breaks; no
   * empty line is produced for a break that ends the text.
   */
  function SplitLines(s: string): (lines: seq<string>)
    ensures forall k, j :: 0 <= k < |lines| && 0 <= j < |lines[k]| ==> !IsLineBreak(lines[k][j])
    decreases |s|
  {
    if s == [] then []
    else
      var i := LineEnd(s, 0);
      if i == |s| then [s]
      else [s[..i]] + SplitLines(s[NextLine(s, i)..])
  }

  /** Where the first line ends: a line without breaks, then a break at `|a|`. */
  lemma FirstLineEnd(a: string, s: string)
    requires |a| < |s| && s[..|a|] == a && IsLineBreak(s[|a|])
    requires forall j :: 0 <= j < |a| ==> !IsLineBreak(a[j])
    ensures LineEnd(s, 0) == |a|
  {
  }

  /** A text without breaks is one line, unless it is empty. */
  lemma SplitLinesOfLine(a: string)
    requires a != [] && forall j :: 0 <= j < |a| ==> !IsLineBreak(a[j])
    ensures SplitLines(a) == [a]
  {
  }

  /**
   * A single break ends the line before it; the next line starts right
   * after it.  A `'\r'` directly followed by `'\n'` is excluded here: that
   * pair is one break, as `SplitLinesAtCrLf` states.
   */
  lemma SplitLinesAtBreak(a: string, b: char, rest: string)
    requires forall j :: 0 <= j < |a| ==> !IsLineBreak(a[j])
    requires IsLineBreak(b) && !(b == '\r' && rest != [] && rest[0] == '\n')
    ensures SplitLines(a + [b] + rest) == [a] + SplitLines(rest)
  {
    var s := a + [b] + rest;
    assert s[..|a|] == a && s[|a|] == b;
    FirstLineEnd(a, s);
    assert NextLine(s, |a|) == |a| + 1;
    assert s[|a| + 1..] == rest;
  }

  /** `"\r\n"` is one break: it ends the line before it and starts no empty line. */
  lemma SplitLinesAtCrLf(a: string, rest: string)
    requires forall j :: 0 <= j < |a| ==> !IsLineBreak(a[j])
    ensures SplitLines(a + "\r\n" + rest) == [a] + SplitLines(rest)
  {
    var s := a + "\r\n" + rest;
    assert s[..|a|] == a && s[|a|] == '\r' && s[|a| + 1] == '\n';
    FirstLineEnd(a, s);
    assert NextLine(s, |a|) == |a| + 2;
    assert s[|a| + 2..] == rest;
  }

  /** `s` with its line-break characters taken out. */
  function WithoutBreaks(s: string): string
  {
    if s == [] then [] else (if IsLineBreak(s[0]) then [] else [s[0]]) + WithoutBreaks(s[1..])
  }

  /** The lines one after the other. */
  function Concat(lines: seq<string>): string
  {
    if lines == [] then [] else lines[0] + Concat(lines[1..])
  }

  lemma {:induction false} WithoutBreaksAppend(a: string, b: string)
    ensures WithoutBreaks(a + b) == WithoutBreaks(a) + WithoutBreaks(b)
    decreases |a|
  {
    if a == [] {
      assert a + b == b;
    } else {
      assert (a + b)[1..] == a[1..] + b;
      WithoutBreaksAppend(a[1..], b);
    }
  }

  lemma {:induction false} WithoutBreaksOfLine(s: string)
    requires forall j :: 0 <= j < |s| ==> !IsLineBreak(s[j])
    ensures WithoutBreaks(s) == s
    decreases |s|
  {
    if s != [] {
      WithoutBreaksOfLine(s[1..]);
    }
  }

  lemma {:induction false} WithoutBreaksOfBreaks(s: string)
    requires forall j :: 0 <= j < |s| ==> IsLineBreak(s[j])
    ensures WithoutBreaks(s) == []
    decreases |s|
  {
    if s != [] {
      WithoutBreaksOfBreaks(s[1..]);
    }
  }

  /**
   * Splitting into lines loses only the line breaks: the lines, put back
   * together, are the text with its break characters removed.
   */
  lemma {:induction false} SplitLinesKeepsText(s: string)
    ensures Concat(SplitLines(s)) == WithoutBreaks(s)
    decreases |s|
  {
    if s != [] {
      var i := LineEnd(s, 0);
      WithoutBreaksOfLine(s[..i]);
      if i == |s| {
        assert s[..i] == s;
        assert Concat([s]) == s by { assert [s][1..] == []; }
      } else {
        var n := NextLine(s, i);
        var line, rest := s[..i], s[n..];
        SplitLinesKeepsText(rest);
        assert SplitLines(s) == [line] + SplitLines(rest);
        assert Concat([line] + SplitLines(rest)) == line + Concat(SplitLines(rest)) by {
          assert ([line] + SplitLines(rest))[1..] == SplitLines(rest);
        }
        assert s == line + s[i..n] + rest;
        WithoutBreaksOfBreaks(s[i..n]);
        BreakDropsOut(line, s[i..n], rest);
      }
    }
  }

  /** Taking the breaks out of a line, the breaks after it and the rest keeps the line and what the rest keeps. */
  lemma BreakDropsOut(line: string, breaks: string, rest: string)
    requires WithoutBreaks(line) == line && WithoutBreaks(breaks) == []
    ensures WithoutBreaks(line + breaks + rest) == line + WithoutBreaks(rest)
  {
    assert line + breaks + rest == line + (breaks + rest);
    WithoutBreaksAppend(breaks, rest);
    WithoutBreaksAppend(line, breaks + rest);
  }

  // ---------------------------------------------------------------------------
  // `"IPv4 Address" in line`

  predicate OccursAt(s: string, m: string, p: nat)
    requires p + |m| <= |s|
  {
    s[p..p + |m|] == m
  }

  /** Python's `m in s` for strings. */
  predicate Contains(s: string, m: string)
  {
    exists p: nat :: p + |m| <= |s| && OccursAt(s, m, p)
  }

  /** `[line for line in lines if "IPv4 Address" in line]` */
  function MatchingLines(lines: seq<string>): (r: seq<string>)
    ensures |r| <= |lines|
    ensures forall x :: x in r <==> x in lines && Contains(x, Ipv4Marker)
    decreases |lines|
  {
    if lines == [] then []
    else
      var last := lines[|lines| - 1];
      var rest := MatchingLines(lines[..|lines| - 1]);
      assert lines == lines[..|lines| - 1] + [last];
      if Contains(last, Ipv4Marker) then rest + [last] else rest
  }

  // ---------------------------------------------------------------------------
  // Python's `str.strip()`

  /** The characters `str.isspace` accepts, which `str.strip()` removes. */
  predicate IsSpace(c: char)
  {
    c == ' ' || c == '\t' || c == '\n' || c == '\r' || c == '\U{000B}' || c == '\U{000C}' ||
    ('\U{001C}' <= c <= '\U{001F}') || c == '\U{0085}' || c == '\U{00A0}' || c == '\U{1680}' ||
    ('\U{2000}' <= c <= '\U{200A}') || c == '\U{2028}' || c == '\U{2029}' || c == '\U{202F}' ||
    c == '\U{205F}' || c == '\U{3000}'
  }

  /** The length of the run of whitespace `s` starts with. */
  function Lead(s: string): (i: nat)
    ensures i <= |s|
    ensures forall j :: 0 <= j < i ==> IsSpace(s[j])
    ensures i < |s| ==> !IsSpace(s[i])
    decreases |s|
  {
    if s == [] || !IsSpace(s[0]) then 0 else 1 + Lead(s[1..])
  }

  /** The length of `s` without the run of whitespace it ends with. */
  function Trail(s: string): (i: nat)
    ensures i <= |s|
    ensures forall j :: i <= j < |s| ==> IsSpace(s[j])
    ensures 0 < i ==> !IsSpace(s[i - 1])
    decreases |s|
  {
    if s == [] || !IsSpace(s[|s| - 1]) then |s| else Trail(s[..|s| - 1])
  }

  /**
   * `s.strip()`: the part of `s` between its leading and its trailing
   * whitespace.  What is kept starts and ends with a non-space character, and
   * only whitespace surrounds it.
   */
  function Strip(s: string): (r: string)
    ensures Lead(s) + |r| <= |s|
    ensures s[Lead(s)..Lead(s) + |r|] == r
    ensures forall j :: Lead(s) + |r| <= j < |s| ==> IsSpace(s[j])
    ensures r == [] || (!IsSpace(r[0]) && !IsSpace(r[|r| - 1]))
  {
    var t := s[Lead(s)..];
    t[..Trail(t)]
  }

  /**
   * Text that begins and ends with non-space characters survives stripping:
   * if it occurs in `s`, it occurs in `s.strip()`.
   */
  lemma StripKeepsInnerText(s: string, m: string, p: nat)
    requires |m| > 0 && !IsSpace(m[0]) && !IsSpace(m[|m| - 1])
    requires p + |m| <= |s| && OccursAt(s, m, p)
    ensures Contains(Strip(s), m)
  {
    var r, b := Strip(s), Lead(s);
    assert s[p] == m[0];
    assert s[p + |m| - 1] == m[|m| - 1];
    assert b <= p;
    assert p + |m| <= b + |r|;
    assert r[p - b..p - b + |m|] == s[p..p + |m|];
    assert OccursAt(r, m, p - b);
  }

  // ---------------------------------------------------------------------------
  // `get_local_ip`

  /** The lines of `ipconfig`'s output that carry an IPv4 address, in order. */
  function Ipv4Lines(result: CompletedProcess): seq<string>
  {
    MatchingLines(SplitLines(result.stdout))
  }

  /**
   * `get_local_ip`, given what running `ipconfig` produced (`None` when
   * `subprocess.run` raised): `None` when the command could not run, failed,
   * or printed no IPv4 line; otherwise the last such line, stripped.
   */
  function GetLocalIp(ipconfig: Option<CompletedProcess>): (ip: Option<string>)
    ensures ip.None? <==>
      ipconfig.None? || ipconfig.value.returncode != 0 ||
      forall line :: line in SplitLines(ipconfig.value.stdout) ==> !Contains(line, Ipv4Marker)
  {
    if ipconfig.None? then None
    else if ipconfig.value.returncode != 0 then None
    else
      var ipLines := Ipv4Lines(ipconfig.value);
      if ipLines == [] then None
      else
        assert ipLines[|ipLines| - 1] in ipLines;
        Some(Strip(ipLines[|ipLines| - 1]))
  }

  /** The last element of the filtered lines is the last line that matches. */
  lemma {:induction false} LastMatchingLine(lines: seq<string>) returns (k: nat)
    requires MatchingLines(lines) != []
    ensures k < |lines| && Contains(lines[k], Ipv4Marker)
    ensures MatchingLines(lines)[|MatchingLines(lines)| - 1] == lines[k]
    ensures forall j :: k < j < |lines| ==> !Contains(lines[j], Ipv4Marker)
    decreases |lines|
  {
    var n := |lines|;
    var init := lines[..n - 1];
    if Contains(lines[n - 1], Ipv4Marker) {
      k := n - 1;
      assert MatchingLines(lines) == MatchingLines(init) + [lines[n - 1]];
    } else {
      assert MatchingLines(lines) == MatchingLines(init);
      k := LastMatchingLine(init);
      forall j | k < j < n
        ensures !Contains(lines[j], Ipv4Marker)
      {
        if j < n - 1 {
          assert init[j] == lines[j];
        }
      }
    }
  }

  /**
   * An address found comes from the last line of the output that contains
   * "IPv4 Address": it is that line stripped, and no later line matches.
   */
  lemma FoundIsLastIpv4Line(ipconfig: Option<CompletedProcess>) returns (k: nat)
    requires GetLocalIp(ipconfig).Some?
    ensures ipconfig.Some? && ipconfig.value.returncode == 0
    ensures k < |SplitLines(ipconfig.value.stdout)|
    ensures Contains(SplitLines(ipconfig.value.stdout)[k], Ipv4Marker)
    ensures GetLocalIp(ipconfig) == Some(Strip(SplitLines(ipconfig.value.stdout)[k]))
    ensures forall j :: k < j < |SplitLines(ipconfig.value.stdout)| ==> !Contains(SplitLines(ipconfig.value.stdout)[j], Ipv4Marker)
  {
    k := LastMatchingLine(SplitLines(ipconfig.value.stdout));
  }

  /**
   * An address found still carries its "IPv4 Address" label, which stripping
   * never cuts into, and lies within a single line of the output.
   */
  lemma FoundKeepsLabel(ipconfig: Option<CompletedProcess>)
    requires GetLocalIp(ipconfig).Some?
    ensures Contains(GetLocalIp(ipconfig).value, Ipv4Marker)
    ensures forall j :: 0 <= j < |GetLocalIp(ipconfig).value| ==> !IsLineBreak(GetLocalIp(ipconfig).value[j])
  {
    var k := FoundIsLastIpv4Line(ipconfig);
    var line := SplitLines(ipconfig.value.stdout)[k];
    var p: nat :| p + |Ipv4Marker| <= |line| && OccursAt(line, Ipv4Marker, p);
    StripKeepsInnerText(line, Ipv4Marker, p);
    var r, b := Strip(line), Lead(line);
    forall j | 0 <= j < |r|
      ensures !IsLineBreak(r[j])
    {
      assert r[j] == line[b + j];
    }
  }
}
