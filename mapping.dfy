/** The project-id mapping file `project_mapping.log`: import.py writes one
    line `"<source> -> <target>\n"` per imported project, and check.py reads
    it back into a dict, stripping each line and splitting it on `" -> "`. */
module ProjectMapping {
  import opened Wrappers
  import opened Text

  const Separator: string := " -> "

  /** The file on disk, as the text it holds. */
  class MappingFile {
    var content: string

    constructor (content: string)
      ensures this.content == content
    {
      this.content := content;
    }

    /** `open(path, 'w')`: the file is emptied before anything is written. */
    method Truncate()
      modifies this
      ensures content == []
    {
      content := [];
    }

    /** `mapping_file.write(text)` */
    method Write(text: string)
      modifies this
      ensures content == old(content) + text
    {
      content := content + text;
    }
  }

  /** The line import.py writes for a source project and its copy. */
  function MappingLine(source: string, target: string): string
  {
    source + Separator + target + "\n"
  }

  /** What import.py writes for a sequence of (source, target) pairs. */
  function Written(pairs: seq<(string, string)>): string
  {
    Concat(seq(|pairs|, i requires 0 <= i < |pairs| => MappingLine(pairs[i].0, pairs[i].1)))
  }

  /** `key, value = line.strip().split(' -> ')`: unpacking raises ValueError
      unless the split yields exactly two pieces. */
  function ParseLine(line: string): (r: Result<(string, string)>)
    ensures r.Err? ==> r.error == ValueError
  {
    var parts := Split(Strip(line), Separator);
    if |parts| == 2 then Ok((parts[0], parts[1])) else Err(ValueError)
  }

  /** A line parses exactly when the stripped line holds one occurrence of
      the separator; the key is what precedes its first occurrence and the
      value what follows it. */
  lemma ParseLineSplits(line: string)
    ensures var s := Strip(line);
      ParseLine(line).Ok? <==> Occurs(Separator, s) && !Occurs(Separator, s[Find(Separator, s).value + |Separator|..])
    ensures var s := Strip(line);
      ParseLine(line).Ok? ==>
        var (key, value) := ParseLine(line).value;
        && s == key + Separator + value
        && Find(Separator, s) == Some(|key|)
        && !Occurs(Separator, value)
  {
    var s := Strip(line);
    SplitInTwo(s, Separator);
    if |Split(s, Separator)| == 2 {
      SplitInTwoPieces(s, Separator);
    }
  }

  /** The `for line in file` loop of `read_project_mapping`: each line is
      parsed and stored in turn, and the first bad line raises. */
  function Load(lines: seq<string>, mapping: map<string, string>): (r: Result<map<string, string>>)
    ensures r.Err? ==> r.error == ValueError
    decreases |lines|
  {
    if lines == [] then Ok(mapping)
    else match ParseLine(lines[0])
      case Err(e) => Err(e)
      case Ok(entry) => Load(lines[1..], mapping[entry.0 := entry.1])
  }

  /** `read_project_mapping()` on the file's text (`None` when it cannot be
      opened), read with universal newlines. */
  function ReadMapping(file: Option<string>): (r: Result<map<string, string>>)
    ensures file.None? ==> r == Err(OSError)
    ensures r.Err? ==> r.error == OSError || r.error == ValueError
  {
    match file
    case None => Err(OSError)
    case Some(text) => Load(Lines(NormalizeNewlines(text)), map[])
  }

  /** `read_project_mapping`, line by line into a dict. */
  method ReadProjectMapping(file: Option<string>) returns (r: Result<map<string, string>>)
    ensures r == ReadMapping(file)
  {
    if file.None? {
      return Err(OSError);
    }
    var lines := Lines(NormalizeNewlines(file.value));
    var mapping := map[];
    var n := 0;
    assert lines[0..] == lines;
    while n < |lines|
      invariant n <= |lines|
      invariant Load(lines, map[]) == Load(lines[n..], mapping)
    {
      assert lines[n..][1..] == lines[n + 1..];
      var entry := ParseLine(lines[n]);
      if entry.Err? {
        return Err(entry.error);
      }
      mapping := mapping[entry.value.0 := entry.value.1];
      n := n + 1;
    }
    r := Ok(mapping);
  }

  /** Storing parsed pairs one after the other, as `mapping[key] = value`
      does. */
  function Assign(pairs: seq<(string, string)>, mapping: map<string, string>): map<string, string>
    decreases |pairs|
  {
    if pairs == [] then mapping else Assign(pairs[1..], mapping[pairs[0].0 := pairs[0].1])
  }

  predicate AllParse(lines: seq<string>)
  {
    forall i :: 0 <= i < |lines| ==> ParseLine(lines[i]).Ok?
  }

  function Entries(lines: seq<string>): (pairs: seq<(string, string)>)
    requires AllParse(lines)
    ensures |pairs| == |lines|
    ensures forall i :: 0 <= i < |lines| ==> pairs[i] == ParseLine(lines[i]).value
  {
    if lines == [] then [] else [ParseLine(lines[0]).value] + Entries(lines[1..])
  }

  /** The load fails as a whole (no partial dict) as soon as one line does
      not parse, and otherwise stores every line's pair in order. */
  lemma {:induction false} LoadAllOrNothing(lines: seq<string>, mapping: map<string, string>)
    ensures Load(lines, mapping) ==
              if AllParse(lines) then Ok(Assign(Entries(lines), mapping)) else Err(ValueError)
    decreases |lines|
  {
    if lines != [] {
      assert AllParse(lines) <==> ParseLine(lines[0]).Ok? && AllParse(lines[1..]) by {
        if ParseLine(lines[0]).Ok? && AllParse(lines[1..]) {
          forall i | 0 <= i < |lines| ensures ParseLine(lines[i]).Ok? {
            if i > 0 { assert lines[i] == lines[1..][i - 1]; }
          }
        }
      }
      if ParseLine(lines[0]).Ok? {
        var entry := ParseLine(lines[0]).value;
        LoadAllOrNothing(lines[1..], mapping[entry.0 := entry.1]);
      }
    }
  }

  /** A key absent from the pairs keeps whatever entry the dict had. */
  lemma {:induction false} AssignKeepsOthers(pairs: seq<(string, string)>, mapping: map<string, string>, key: string)
    requires forall j :: 0 <= j < |pairs| ==> pairs[j].0 != key
    ensures key in Assign(pairs, mapping) <==> key in mapping
    ensures key in mapping ==> Assign(pairs, mapping)[key] == mapping[key]
    decreases |pairs|
  {
    if pairs != [] {
      AssignKeepsOthers(pairs[1..], mapping[pairs[0].0 := pairs[0].1], key);
    }
  }

  /** The keys of the dict are the keys it had and those of the pairs. */
  lemma {:induction false} AssignKeys(pairs: seq<(string, string)>, mapping: map<string, string>, key: string)
    ensures key in Assign(pairs, mapping) <==> key in mapping || exists j :: 0 <= j < |pairs| && pairs[j].0 == key
    decreases |pairs|
  {
    if pairs != [] {
      AssignKeys(pairs[1..], mapping[pairs[0].0 := pairs[0].1], key);
      if exists j :: 0 <= j < |pairs| && pairs[j].0 == key {
        var j :| 0 <= j < |pairs| && pairs[j].0 == key;
        if j > 0 { assert pairs[1..][j - 1].0 == key; }
      }
    }
  }

  /** When a key repeats, the value of its last pair wins. */
  lemma {:induction false} AssignLastWins(pairs: seq<(string, string)>, mapping: map<string, string>, i: nat)
    requires i < |pairs|
    requires forall j :: i < j < |pairs| ==> pairs[j].0 != pairs[i].0
    ensures pairs[i].0 in Assign(pairs, mapping) && Assign(pairs, mapping)[pairs[i].0] == pairs[i].1
    decreases |pairs|
  {
    var next := mapping[pairs[0].0 := pairs[0].1];
    if i == 0 {
      forall j | 0 <= j < |pairs[1..]| ensures pairs[1..][j].0 != pairs[0].0 {
        assert pairs[1..][j] == pairs[j + 1];
      }
      AssignKeepsOthers(pairs[1..], next, pairs[0].0);
    } else {
      forall j | i - 1 < j < |pairs[1..]| ensures pairs[1..][j].0 != pairs[1..][i - 1].0 {
        assert pairs[1..][j] == pairs[j + 1];
      }
      AssignLastWins(pairs[1..], next, i - 1);
    }
  }

  /** The ids for which a written line reads back as the same pair: both
      non-empty, no surrounding white space where `strip()` would cut it,
      on one line, the separator in neither, and a source that does not end
      in `" ->"` (which would let the separator start inside it; see
      SeparatorInsideSource). */
  predicate RoundTrips(source: string, target: string)
  {
    && source != [] && !IsSpace(source[0])
    && target != [] && !IsSpace(target[|target| - 1])
    && (forall k :: 0 <= k < |source| ==> source[k] != '\n' && source[k] != '\r')
    && (forall k :: 0 <= k < |target| ==> target[k] != '\n' && target[k] != '\r')
    && !Occurs(Separator, source) && !Occurs(Separator, target)
    && !EndsWith(source, " ->")
  }

  /** No occurrence of the separator starts inside such a source. */
  lemma NoSeparatorInSource(source: string)
    requires !Occurs(Separator, source) && !EndsWith(source, " ->")
    ensures forall j :: 0 <= j < |source| ==> !At(source + Separator, j, Separator)
  {
    FindIsLeftmost(Separator, source);
    forall j | 0 <= j < |source|
      ensures !At(source + Separator, j, Separator)
    {
      if j + 4 <= |source| {
        assert (source + Separator)[j..j + 4] == source[j..j + 4];
        assert !At(source, j, Separator);
      } else {
        NoSeparatorAcrossEnd(source, j);
      }
    }
  }

  /** An occurrence that would start in the last three characters of the
      source and run into the separator written after it. */
  lemma NoSeparatorAcrossEnd(source: string, j: nat)
    requires |source| - 3 <= j < |source| && !EndsWith(source, " ->")
    ensures !At(source + Separator, j, Separator)
  {
    var s := source + Separator;
    if j == |source| - 3 {
      assert source[j..] == s[j..j + 3] == s[j..j + 4][..3];
      assert Separator[..3] == " ->";
    } else {
      assert s[|source|] == ' ';
      assert j + 4 <= |s| ==> s[j..j + 4][|source| - j] == s[|source|];
    }
  }

  /** A written line is one terminated line without carriage returns. */
  lemma WrittenLineShape(source: string, target: string)
    requires RoundTrips(source, target)
    ensures IsTerminatedLine(MappingLine(source, target))
    ensures forall k :: 0 <= k < |MappingLine(source, target)| ==> MappingLine(source, target)[k] != '\r'
  {
    var line := MappingLine(source, target);
    var tail := Separator + target;
    assert line == source + tail + "\n";
    forall k | 0 <= k < |line| - 1
      ensures line[k] != '\n' && line[k] != '\r'
    {
      if k < |source| {
        assert line[k] == source[k];
      } else if k < |source| + 4 {
        assert line[k] == Separator[k - |source|];
      } else {
        assert line[k] == target[k - |source| - 4];
      }
    }
  }

  /** Reading back a line that was written for such a pair gives the pair. */
  lemma ParseWrittenLine(source: string, target: string)
    requires RoundTrips(source, target)
    ensures ParseLine(MappingLine(source, target)) == Ok((source, target))
  {
    StripWrittenLine(source, target);
    NoSeparatorInSource(source);
    SplitJoined(source, Separator, target);
  }

  /** `strip()` takes off just the line's "\n" when the ids do not begin or
      end with white space. */
  lemma StripWrittenLine(source: string, target: string)
    requires source != [] && !IsSpace(source[0]) && target != [] && !IsSpace(target[|target| - 1])
    ensures Strip(MappingLine(source, target)) == source + Separator + target
  {
    var body := source + Separator + target;
    var line := body + "\n";
    assert line == MappingLine(source, target);
    assert TrimStart(line) == line;
    assert line[..|line| - 1] == body;
    assert TrimEnd(body) == body;
  }

  /** The round trip the two scripts rely on: the file import.py writes for
      well-formed pairs reads back as those pairs stored in order, later
      duplicates overriding earlier ones. */
  lemma MappingRoundTrip(pairs: seq<(string, string)>)
    requires forall i :: 0 <= i < |pairs| ==> RoundTrips(pairs[i].0, pairs[i].1)
    ensures ReadMapping(Some(Written(pairs))) == Ok(Assign(pairs, map[]))
  {
    var lines := seq(|pairs|, i requires 0 <= i < |pairs| => MappingLine(pairs[i].0, pairs[i].1));
    forall i | 0 <= i < |lines|
      ensures IsTerminatedLine(lines[i])
      ensures forall k :: 0 <= k < |lines[i]| ==> lines[i][k] != '\r'
    {
      WrittenLineShape(pairs[i].0, pairs[i].1);
    }
    NoReturnsInConcat(lines);
    NormalizeWithoutReturns(Concat(lines));
    LinesOfConcat(lines);
    LoadWrittenLines(pairs, map[]);
  }

  lemma {:induction false} LoadWrittenLines(pairs: seq<(string, string)>, mapping: map<string, string>)
    requires forall i :: 0 <= i < |pairs| ==> RoundTrips(pairs[i].0, pairs[i].1)
    ensures Load(seq(|pairs|, i requires 0 <= i < |pairs| => MappingLine(pairs[i].0, pairs[i].1)), mapping)
            == Ok(Assign(pairs, mapping))
    decreases |pairs|
  {
    var lines := seq(|pairs|, i requires 0 <= i < |pairs| => MappingLine(pairs[i].0, pairs[i].1));
    if pairs != [] {
      ParseWrittenLine(pairs[0].0, pairs[0].1);
      var rest := pairs[1..];
      assert lines[1..] == seq(|rest|, i requires 0 <= i < |rest| => MappingLine(rest[i].0, rest[i].1));
      LoadWrittenLines(rest, mapping[pairs[0].0 := pairs[0].1]);
    }
  }

  lemma {:induction false} NoReturnsInConcat(parts: seq<string>)
    requires forall i, k :: 0 <= i < |parts| && 0 <= k < |parts[i]| ==> parts[i][k] != '\r'
    ensures forall k :: 0 <= k < |Concat(parts)| ==> Concat(parts)[k] != '\r'
  {
    if parts != [] {
      NoReturnsInConcat(parts[1..]);
      assert forall i, k :: 0 <= i < |parts[1..]| && 0 <= k < |parts[1..][i]| ==> parts[1..][i][k] == parts[i + 1][k];
    }
  }

  /** A source id ending in `" ->"` does not survive the round trip: the
      separator is found inside it, and the pair comes back cut in the
      wrong place. */
  lemma SeparatorInsideSource()
    ensures ParseLine(MappingLine("a ->", "b")) == Ok(("a", "-> b"))
  {
    StripWrittenLine("a ->", "b");
    assert "a ->" + Separator + "b" == "a -> -> b";
    SplitArrowLine();
  }

  lemma SplitArrowLine()
    ensures Split("a -> -> b", Separator) == ["a", "-> b"]
  {
    var s := "a -> -> b";
    assert s[..4][0] == 'a' && Separator[0] == ' ';
    assert s[1..][..4] == Separator;
    assert Find(Separator, s) == Some(1);
    var rest := s[5..];
    assert rest == "-> b";
    assert Find(Separator, rest) == None by {
      assert rest[..4] != Separator;
      assert Find(Separator, rest[1..]) == None;
    }
    assert s[..1] == "a";
    SplitAroundSeparator(s, Separator, 1);
  }
}
