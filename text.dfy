/** The few Python string operations the scripts rely on: `str.find`,
    `str.split(sep)`, `str.strip()`, `str.endswith`, and the way a text file
    opened with `open(path, 'r')` is cut into lines. */
module Text {
  import opened Wrappers

  /** `pat` occurs in `s` starting at index `j`. */
  predicate At(s: string, j: int, pat: string)
  {
    0 <= j && j + |pat| <= |s| && s[j..j + |pat|] == pat
  }

  lemma AtTail(s: string, pat: string)
    requires s != []
    ensures forall j {:trigger At(s, j, pat)} :: 1 <= j ==> (At(s, j, pat) <==> At(s[1..], j - 1, pat))
  {
    forall j | 1 <= j
      ensures At(s, j, pat) <==> At(s[1..], j - 1, pat)
    {
      if j + |pat| <= |s| {
        assert s[1..][j - 1..j - 1 + |pat|] == s[j..j + |pat|];
      }
    }
  }

  /** The leftmost occurrence of a non-empty `pat` in `s` (Python's `s.find(pat)`,
      with `None` for -1); FindIsLeftmost says what it finds. */
  function Find(pat: string, s: string): (r: Option<nat>)
    requires pat != []
    ensures r.Some? ==> r.value + |pat| <= |s|
    decreases |s|
  {
    if |s| < |pat| then None
    else if s[..|pat|] == pat then Some(0)
    else
      match Find(pat, s[1..])
      case None => None
      case Some(i) => Some(i + 1)
  }

  /** `Find` returns an occurrence, and no occurrence starts before it. */
  lemma {:induction false} FindIsLeftmost(pat: string, s: string)
    requires pat != []
    ensures Find(pat, s).Some? ==> At(s, Find(pat, s).value, pat)
    ensures Find(pat, s).Some? ==> forall j :: 0 <= j < Find(pat, s).value ==> !At(s, j, pat)
    ensures Find(pat, s).None? ==> forall j :: !At(s, j, pat)
    decreases |s|
  {
    if |s| < |pat| {
      assert forall j :: !At(s, j, pat);
    } else if s[..|pat|] == pat {
      assert At(s, 0, pat);
    } else {
      assert !At(s, 0, pat);
      FindIsLeftmost(pat, s[1..]);
      AtTail(s, pat);
      match Find(pat, s[1..])
      case None =>
        forall j ensures !At(s, j, pat) {
          if 1 <= j {
            assert !At(s[1..], j - 1, pat);
          }
        }
      case Some(i) =>
        assert Find(pat, s) == Some(i + 1);
        forall j | 0 <= j < i + 1 ensures !At(s, j, pat) {
          if 1 <= j {
            assert !At(s[1..], j - 1, pat);
          }
        }
    }
  }

  predicate Occurs(pat: string, s: string)
    requires pat != []
  {
    Find(pat, s).Some?
  }

  /** Python's `s.split(sep)` for a non-empty separator: the pieces between
      the non-overlapping occurrences of `sep`, scanning from the left. */
  function Split(s: string, sep: string): (parts: seq<string>)
    requires sep != []
    ensures |parts| >= 1
    decreases |s|
  {
    match Find(sep, s)
    case None => [s]
    case Some(i) => [s[..i]] + Split(s[i + |sep|..], sep)
  }

  /** `s.split(sep)` splits at the first occurrence of `sep` and goes on
      after it. */
  lemma SplitAt(s: string, sep: string, i: nat)
    requires sep != [] && Find(sep, s) == Some(i)
    ensures Split(s, sep) == [s[..i]] + Split(s[i + |sep|..], sep)
  {
  }

  /** `s.split(sep)` is `[s]` itself precisely when `sep` does not occur. */
  lemma SplitInOne(s: string, sep: string)
    requires sep != []
    ensures |Split(s, sep)| == 1 <==> !Occurs(sep, s)
  {
    if Find(sep, s).Some? {
      SplitAt(s, sep, Find(sep, s).value);
    }
  }

  /** `s.split(sep)` has exactly two pieces precisely when `sep` occurs once
      (non-overlapping). */
  lemma SplitInTwo(s: string, sep: string)
    requires sep != []
    ensures |Split(s, sep)| == 2 <==>
              Find(sep, s).Some? && !Occurs(sep, s[Find(sep, s).value + |sep|..])
  {
    if Find(sep, s).Some? {
      var i := Find(sep, s).value;
      SplitAt(s, sep, i);
      SplitInOne(s[i + |sep|..], sep);
    } else {
      SplitInOne(s, sep);
    }
  }

  /** When `s.split(sep)` has two pieces, `s` is the first, `sep` and the
      second, and `sep` occurs in the second no more. */
  lemma SplitInTwoPieces(s: string, sep: string)
    requires sep != [] && |Split(s, sep)| == 2
    ensures var parts := Split(s, sep);
      s == parts[0] + sep + parts[1] && Find(sep, s) == Some(|parts[0]|) && !Occurs(sep, parts[1])
  {
    SplitInTwo(s, sep);
    var i := Find(sep, s).value;
    FindIsLeftmost(sep, s);
    SplitAroundSeparator(s, sep, i);
    assert s == s[..i] + sep + s[i + |sep|..];
  }

  /** ... and then the pieces are what lies around that occurrence. */
  lemma SplitAroundSeparator(s: string, sep: string, i: nat)
    requires sep != [] && Find(sep, s) == Some(i) && Find(sep, s[i + |sep|..]).None?
    ensures Split(s, sep) == [s[..i], s[i + |sep|..]]
  {
      SplitAt(s, sep, i);
  }
  /** Splitting `a + sep + b` gives back `a` and `b` when `sep` first occurs
      where it was put and `b` does not contain it. */
  lemma SplitJoined(a: string, sep: string, b: string)
    requires sep != []
    requires forall j :: 0 <= j < |a| ==> !At(a + sep, j, sep)
    requires !Occurs(sep, b)
    ensures Split(a + sep + b, sep) == [a, b]
  {
    var s := a + sep + b;
    FindIsLeftmost(sep, s);
    assert At(s, |a|, sep) by {
      assert s[|a|..|a| + |sep|] == sep;
    }
    var v := Find(sep, s).value;
    if v < |a| {
      assert s[v..v + |sep|] == (a + sep)[v..v + |sep|];
      assert At(a + sep, v, sep);
      assert false;
    }
    assert v == |a|;
    assert s[..v] == a;
    assert s[v + |sep|..] == b;
    SplitAroundSeparator(s, sep, |a|);
    assert |Split(s, sep)| == 2;
  }

  function EndsWith(s: string, suffix: string): bool
  {
    |suffix| <= |s| && s[|s| - |suffix|..] == suffix
  }

  /** Python's `str.isspace()` for one character: the characters `strip()`
      removes by default. */
  predicate IsSpace(c: char)
  {
    var n := c as int;
    || (9 <= n <= 13) || (28 <= n <= 32) || n == 0x85 || n == 0xA0 || n == 0x1680
    || (0x2000 <= n <= 0x200A) || n == 0x2028 || n == 0x2029 || n == 0x202F
    || n == 0x205F || n == 0x3000
  }

  /** `s.lstrip()`: the suffix of `s` that starts at its first non-space. */
  function TrimStart(s: string): (r: string)
    ensures |r| <= |s| && r == s[|s| - |r|..]
    ensures r == [] || !IsSpace(r[0])
    ensures forall k :: 0 <= k < |s| - |r| ==> IsSpace(s[k])
  {
    if s != [] && IsSpace(s[0]) then TrimStart(s[1..]) else s
  }

  /** `s.rstrip()`: the prefix of `s` that ends at its last non-space. */
  function TrimEnd(s: string): (r: string)
    ensures |r| <= |s| && r == s[..|r|]
    ensures r == [] || !IsSpace(r[|r| - 1])
    ensures forall k :: |r| <= k < |s| ==> IsSpace(s[k])
  {
    if s != [] && IsSpace(s[|s| - 1]) then TrimEnd(s[..|s| - 1]) else s
  }

  /** `s.strip()` */
  function Strip(s: string): (r: string)
    ensures |r| <= |s|
    ensures r == [] || (!IsSpace(r[0]) && !IsSpace(r[|r| - 1]))
  {
    TrimEnd(TrimStart(s))
  }

  function Concat(parts: seq<string>): string
  {
    if parts == [] then [] else parts[0] + Concat(parts[1..])
  }

  /** Writing one more piece after the others. */
  lemma {:induction false} ConcatSnoc(parts: seq<string>, last: string)
    ensures Concat(parts + [last]) == Concat(parts) + last
  {
    if parts != [] {
      assert (parts + [last])[1..] == parts[1..] + [last];
      ConcatSnoc(parts[1..], last);
    }
  }

  /** Universal-newline reading (`open(path, 'r')`): "\r\n" and a lone "\r"
      both arrive as "\n". */
  function NormalizeNewlines(text: string): string
    decreases |text|
  {
    if text == [] then []
    else if text[0] == '\r' then
      "\n" + NormalizeNewlines(if |text| > 1 && text[1] == '\n' then text[2..] else text[1..])
    else [text[0]] + NormalizeNewlines(text[1..])
  }

  lemma NormalizeWithoutReturns(text: string)
    requires forall k :: 0 <= k < |text| ==> text[k] != '\r'
    ensures NormalizeNewlines(text) == text
  {
    if text != [] {
      NormalizeWithoutReturns(text[1..]);
    }
  }

  /** Index of the first "\n" in `text`, or `|text|` when there is none. */
  function LineEnd(text: string): (n: nat)
    ensures n <= |text|
    ensures forall k :: 0 <= k < n ==> text[k] != '\n'
    ensures n < |text| ==> text[n] == '\n'
  {
    if text == [] || text[0] == '\n' then 0 else 1 + LineEnd(text[1..])
  }

  /** The lines `for line in file` yields: each keeps its "\n"; a last line
      without one is yielded as it is; an empty text yields nothing. */
  function Lines(text: string): seq<string>
    decreases |text|
  {
    if text == [] then []
    else
      var n := LineEnd(text);
      if n == |text| then [text] else [text[..n + 1]] + Lines(text[n + 1..])
  }

  /** A line as a text file holds it: a body without "\n", terminated by one. */
  predicate IsTerminatedLine(line: string)
  {
    line != [] && line[|line| - 1] == '\n' && forall k :: 0 <= k < |line| - 1 ==> line[k] != '\n'
  }

  /** Reading back lines that were written one by one, each ending in "\n",
      yields exactly those lines. */
  lemma {:induction false} LinesOfConcat(lines: seq<string>)
    requires forall i :: 0 <= i < |lines| ==> IsTerminatedLine(lines[i])
    ensures Lines(Concat(lines)) == lines
  {
    if lines != [] {
      var text := Concat(lines);
      var first := lines[0];
      assert text == first + Concat(lines[1..]);
      LineEndOfTerminated(first, Concat(lines[1..]));
      assert text[..|first|] == first;
      assert text[|first|..] == Concat(lines[1..]);
      LinesOfConcat(lines[1..]);
    }
  }

  lemma {:induction false} LineEndOfTerminated(line: string, rest: string)
    requires IsTerminatedLine(line)
    ensures LineEnd(line + rest) == |line| - 1
    decreases |line|
  {
    if |line| > 1 {
      assert (line + rest)[1..] == line[1..] + rest;
      LineEndOfTerminated(line[1..], rest);
    }
  }

  function DigitString(n: nat): string
  {
    var d := ['0', '1', '2', '3', '4', '5', '6', '7', '8', '9'][n % 10];
    if n < 10 then [d] else DigitString(n / 10) + [d]
  }

  /** Python's `str(n)` for an integer. */
  function IntToString(n: int): string
  {
    if n < 0 then "-" + DigitString(-n) else DigitString(n)
  }
}
