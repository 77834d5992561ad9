/** `split_asvspoof.py`: parse an ASVspoof metadata listing and stage the listed
    recordings into `real/` and `fake/`, counting what was converted and what was
    skipped. The file system enters as an existence test; the conversions are
    returned in order instead of being written. */
module SplitAsvspoof {
  import opened Wrappers
  import opened Ints
  import opened Text

  // ----------------------------------------------------------- line parsing

  /** `str.lstrip()`. */
  function LStrip(s: string): (r: string)
    ensures |r| <= |s| && r == s[|s| - |r|..]
    ensures |r| > 0 ==> !IsWhitespace(r[0])
    ensures forall i :: 0 <= i < |s| - |r| ==> IsWhitespace(s[i])
  {
    if |s| == 0 || !IsWhitespace(s[0]) then s else LStrip(s[1..])
  }

  /** `str.rstrip()`. */
  function RStrip(s: string): (r: string)
    ensures |r| <= |s| && r == s[..|r|]
    ensures |r| > 0 ==> !IsWhitespace(r[|r| - 1])
  {
    if |s| == 0 || !IsWhitespace(s[|s| - 1]) then s else RStrip(s[..|s| - 1])
  }

  /** `str.strip()`. */
  function Strip(s: string): (r: string)
    ensures |r| > 0 ==> !IsWhitespace(r[0]) && !IsWhitespace(r[|r| - 1])
  {
    var l := LStrip(s);
    var r := RStrip(l);
    assert |r| > 0 ==> r[0] == l[0];
    r
  }

  /** Length of the leading run of non-whitespace characters. */
  function TokenLength(s: string): (k: nat)
    ensures k <= |s|
    ensures forall i :: 0 <= i < k ==> !IsWhitespace(s[i])
    ensures k < |s| ==> IsWhitespace(s[k])
    ensures |s| > 0 && !IsWhitespace(s[0]) ==> k > 0
  {
    if |s| == 0 || IsWhitespace(s[0]) then 0 else 1 + TokenLength(s[1..])
  }

  /** `str.split()` with no separator: the maximal whitespace-free runs. */
  function Tokens(s: string): seq<string>
    decreases |s|
  {
    var t := LStrip(s);
    if |t| == 0 then []
    else
      var k := TokenLength(t);
      [t[..k]] + Tokens(t[k..])
  }

  /** `str.split()` never yields an empty token. */
  lemma {:induction false} TokensNonEmpty(s: string)
    ensures forall j :: 0 <= j < |Tokens(s)| ==> |Tokens(s)[j]| > 0
    decreases |s|
  {
    var t := LStrip(s);
    if |t| > 0 {
      var k := TokenLength(t);
      TokensNonEmpty(t[k..]);
      var rest := Tokens(t[k..]);
      assert Tokens(s) == [t[..k]] + rest;
      forall j | 0 <= j < |Tokens(s)| ensures |Tokens(s)[j]| > 0 {
        if j > 0 {
          assert Tokens(s)[j] == rest[j - 1];
        }
      }
    }
  }

  /** A string that opens with a non-whitespace character has that leading run as
      its first token. */
  lemma TokensHead(s: string)
    requires |s| > 0 && !IsWhitespace(s[0])
    ensures |Tokens(s)| > 0 && Tokens(s)[0] == s[..TokenLength(s)]
  {
    assert LStrip(s) == s;
  }

  /** `next((token for token in parts if token.startswith("T_")), parts[0])`. */
  function UttId(parts: seq<string>): (id: string)
    requires |parts| > 0
    ensures id in parts
    ensures (exists j :: 0 <= j < |parts| && StartsWith(parts[j], "T_")) ==> StartsWith(id, "T_")
    ensures (forall j :: 0 <= j < |parts| ==> !StartsWith(parts[j], "T_")) ==> id == parts[0]
    ensures (exists j :: 0 <= j < |parts| && StartsWith(parts[j], "T_")) ==>
              exists j :: 0 <= j < |parts| && id == parts[j] && StartsWith(parts[j], "T_") &&
                forall k :: 0 <= k < j ==> !StartsWith(parts[k], "T_")
  {
    FirstWithPrefix(parts, 0, parts[0])
  }

  function FirstWithPrefix(parts: seq<string>, from: nat, fallback: string): (id: string)
    requires from <= |parts|
    ensures id in parts[from..] || id == fallback
    ensures (exists j :: from <= j < |parts| && StartsWith(parts[j], "T_")) ==>
              StartsWith(id, "T_") && id in parts[from..]
    ensures (forall j :: from <= j < |parts| ==> !StartsWith(parts[j], "T_")) ==> id == fallback
    ensures (exists j :: from <= j < |parts| && StartsWith(parts[j], "T_")) ==>
              exists j :: from <= j < |parts| && id == parts[j] && StartsWith(parts[j], "T_") &&
                forall k :: from <= k < j ==> !StartsWith(parts[k], "T_")
    decreases |parts| - from
  {
    if from == |parts| then fallback
    else if StartsWith(parts[from], "T_") then parts[from]
    else
      var id := FirstWithPrefix(parts, from + 1, fallback);
      assert parts[from + 1..] == parts[from..][1..];
      id
  }

  datatype Entry = Entry(uttId: string, tag: string)

  /** Whether `parse_metadata` keeps the line: not blank after stripping, no leading '#'. */
  predicate Kept(line: string) {
    var s := Strip(line);
    |s| > 0 && s[0] != '#'
  }

  /** The entry a kept line yields: id as above, label the last token lowercased. */
  function ParseLine(line: string): (e: Entry)
    requires Kept(line)
    ensures |e.tag| > 0 && forall i :: 0 <= i < |e.tag| ==> !IsUpperAscii(e.tag[i])
    ensures var parts := Tokens(Strip(line));
            |parts| > 0 && e.tag == Lower(parts[|parts| - 1]) && e.uttId == UttId(parts)
  {
    TokensHead(Strip(line));
    TokensNonEmpty(Strip(line));
    var parts := Tokens(Strip(line));
    Entry(UttId(parts), Lower(parts[|parts| - 1]))
  }

  /** A listing line written as its whitespace-free fields joined by spaces. */
  predicate Fields(parts: seq<string>) {
    forall j :: 0 <= j < |parts| ==>
      |parts[j]| > 0 && forall i :: 0 <= i < |parts[j]| ==> !IsWhitespace(parts[j][i])
  }

  lemma {:induction false} TokenLengthOfRun(p: string, tail: string)
    requires forall i :: 0 <= i < |p| ==> !IsWhitespace(p[i])
    requires |tail| == 0 || IsWhitespace(tail[0])
    ensures TokenLength(p + tail) == |p|
    decreases |p|
  {
    if |p| > 0 {
      assert (p + tail)[1..] == p[1..] + tail;
      TokenLengthOfRun(p[1..], tail);
    } else {
      assert p + tail == tail;
    }
  }

  lemma {:induction false} JoinEnds(parts: seq<string>)
    requires |parts| > 0 && Fields(parts)
    ensures var s := Join(parts, ' ');
            |s| >= |parts[0]| && s[..|parts[0]|] == parts[0]
            && s[0] == parts[0][0] && s[|s| - 1] == parts[|parts| - 1][|parts[|parts| - 1]| - 1]
    ensures |parts| > 1 ==> Join(parts, ' ') == parts[0] + " " + Join(parts[1..], ' ')
  {
    if |parts| > 1 {
      JoinEnds(parts[1..]);
    }
  }

  lemma LStripOfNonWhitespace(s: string)
    requires |s| > 0 && !IsWhitespace(s[0])
    ensures LStrip(s) == s
  {
  }

  lemma TokensSameStrip(a: string, b: string)
    requires LStrip(a) == LStrip(b)
    ensures Tokens(a) == Tokens(b)
  {
  }

  lemma TokensUnfold(s: string)
    requires |LStrip(s)| > 0
    ensures var t := LStrip(s); var k := TokenLength(t); Tokens(s) == [t[..k]] + Tokens(t[k..])
  {
  }

  /** A lone field is its own single token. */
  lemma TokensOfRun(p: string)
    requires |p| > 0 && forall i :: 0 <= i < |p| ==> !IsWhitespace(p[i])
    ensures Tokens(p) == [p]
  {
    LStripOfNonWhitespace(p);
    TokenLengthOfRun(p, "");
    assert p + "" == p;
    TokensUnfold(p);
    assert p[|p|..] == "";
    assert Tokens("") == [];
  }

  /** A field, a space, then text opening with a field: the field is the first token. */
  lemma TokensOfRunThenSpace(p: string, rest: string)
    requires |p| > 0 && forall i :: 0 <= i < |p| ==> !IsWhitespace(p[i])
    requires |rest| > 0 && !IsWhitespace(rest[0])
    ensures Tokens(p + " " + rest) == [p] + Tokens(rest)
  {
    var s := p + " " + rest;
    var tail := " " + rest;
    assert s == p + tail;
    LStripOfNonWhitespace(s);
    TokenLengthOfRun(p, tail);
    TokensUnfold(s);
    assert s[..|p|] == p;
    assert s[|p|..] == tail;
    assert tail[1..] == rest;
    LStripOfNonWhitespace(rest);
    assert LStrip(tail) == LStrip(rest);
    TokensSameStrip(tail, rest);
  }

  lemma FieldsTail(parts: seq<string>)
    requires |parts| > 0 && Fields(parts)
    ensures Fields(parts[1..])
  {
    var rest := parts[1..];
    forall j | 0 <= j < |rest| ensures |rest[j]| > 0 && forall i :: 0 <= i < |rest[j]| ==> !IsWhitespace(rest[j][i]) {
      assert rest[j] == parts[j + 1];
    }
  }

  /** The step of `TokensOfFields`: the first field, then the tokens of the rest. */
  lemma TokensOfFieldsStep(parts: seq<string>)
    requires |parts| > 1 && Fields(parts)
    ensures Tokens(Join(parts, ' ')) == [parts[0]] + Tokens(Join(parts[1..], ' '))
  {
    var rest := parts[1..];
    FieldsTail(parts);
    var joined := Join(rest, ' ');
    JoinEnds(parts);
    JoinEnds(rest);
    assert joined[0] == parts[1][0];
    TokensOfRunThenSpace(parts[0], joined);
  }

  /** Joining whitespace-free fields with spaces and splitting gives the fields back. */
  lemma {:induction false} TokensOfFields(parts: seq<string>)
    requires Fields(parts)
    ensures Tokens(Join(parts, ' ')) == parts
  {
    if |parts| == 0 {
      assert Tokens("") == [];
    } else if |parts| == 1 {
      TokensOfRun(parts[0]);
    } else {
      TokensOfFieldsStep(parts);
      FieldsTail(parts);
      TokensOfFields(parts[1..]);
      assert parts == [parts[0]] + parts[1..];
    }
  }

  /** A line of fields not opening with '#' is kept, and its entry is the first
      "T_" field (or the first field) with the last field lowercased. */
  lemma ParseFieldsLine(parts: seq<string>)
    requires |parts| > 0 && Fields(parts) && parts[0][0] != '#'
    ensures Kept(Join(parts, ' '))
    ensures ParseLine(Join(parts, ' ')) == Entry(UttId(parts), Lower(parts[|parts| - 1]))
  {
    var s := Join(parts, ' ');
    JoinEnds(parts);
    assert LStrip(s) == s;
    assert RStrip(s) == s;
    assert Strip(s) == s;
    TokensOfFields(parts);
  }

  /** What each line contributes, concatenated in line order. */
  function Collect<T>(lines: seq<string>, contribution: string -> seq<T>): seq<T> {
    if |lines| == 0 then [] else Collect(lines[..|lines| - 1], contribution) + contribution(lines[|lines| - 1])
  }

  /** When no line contributes more than one item there are at most as many items
      as lines. */
  lemma {:induction false} CollectLength<T>(lines: seq<string>, contribution: string -> seq<T>)
    requires forall line :: |contribution(line)| <= 1
    ensures |Collect(lines, contribution)| <= |lines|
  {
    if |lines| > 0 {
      CollectLength(lines[..|lines| - 1], contribution);
    }
  }

  /** Every collected item comes from some line's contribution. */
  lemma {:induction false} CollectSound<T>(lines: seq<string>, contribution: string -> seq<T>, k: nat)
    requires k < |Collect(lines, contribution)|
    ensures exists i :: 0 <= i < |lines| && Collect(lines, contribution)[k] in contribution(lines[i])
  {
    var n := |lines| - 1;
    var front := Collect(lines[..n], contribution);
    if k < |front| {
      CollectSound(lines[..n], contribution, k);
      var i :| 0 <= i < n && front[k] in contribution(lines[..n][i]);
      assert lines[..n][i] == lines[i];
    } else {
      assert Collect(lines, contribution)[k] == contribution(lines[n])[k - |front|];
    }
  }

  /** Collecting a prefix of the lines gives a prefix of the items. */
  lemma {:induction false} CollectPrefix<T>(lines: seq<string>, contribution: string -> seq<T>, j: nat)
    requires j <= |lines|
    ensures Collect(lines[..j], contribution) <= Collect(lines, contribution)
    decreases |lines| - j
  {
    if j < |lines| {
      CollectPrefix(lines, contribution, j + 1);
      assert lines[..j + 1][..j] == lines[..j];
    } else {
      assert lines[..j] == lines;
    }
  }

  /** What one line contributes: its entry if kept, nothing otherwise. */
  function LineEntry(line: string): (r: seq<Entry>)
    ensures Kept(line) ==> r == [ParseLine(line)]
    ensures !Kept(line) ==> r == []
  {
    if Kept(line) then [ParseLine(line)] else []
  }

  /** The entries of `lines`, one per kept line, in order. */
  function Entries(lines: seq<string>): (entries: seq<Entry>)
    ensures |entries| <= |lines|
  {
    CollectLength(lines, LineEntry);
    Collect(lines, LineEntry)
  }

  /** The line loop of `parse_metadata`. */
  method ParseMetadata(lines: seq<string>) returns (entries: seq<Entry>)
    ensures entries == Entries(lines)
  {
    entries := [];
    for i := 0 to |lines|
      invariant entries == Collect(lines[..i], LineEntry)
    {
      assert Collect(lines[..i + 1], LineEntry) == entries + LineEntry(lines[i]) by {
        assert lines[..i + 1][..i] == lines[..i];
      }
      var line := Strip(lines[i]);
      if |line| == 0 || line[0] == '#' {
        continue;
      }
      TokensHead(line);
      var parts := Tokens(line);
      var uttId := UttId(parts);
      var tag := Lower(parts[|parts| - 1]);
      assert Kept(lines[i]);
      assert ParseLine(lines[i]) == Entry(uttId, tag);
      entries := entries + [Entry(uttId, tag)];
    }
    assert lines[..|lines|] == lines;
  }

  /** Every entry comes from a kept line, parsed. */
  lemma EntriesSound(lines: seq<string>, k: nat)
    requires k < |Entries(lines)|
    ensures exists i :: 0 <= i < |lines| && Kept(lines[i]) && Entries(lines)[k] == ParseLine(lines[i])
  {
    CollectSound(lines, LineEntry, k);
    var i :| 0 <= i < |lines| && Entries(lines)[k] in LineEntry(lines[i]);
    assert Kept(lines[i]);
  }

  /** Every kept line yields its entry, and the order of the lines is kept. */
  lemma EntriesComplete(lines: seq<string>, i: nat)
    requires i < |lines| && Kept(lines[i])
    ensures Entries(lines[..i + 1]) == Entries(lines[..i]) + [ParseLine(lines[i])]
    ensures ParseLine(lines[i]) in Entries(lines)
  {
    assert lines[..i + 1][..i] == lines[..i];
    assert lines[..i + 1][i] == lines[i];
    assert Entries(lines[..i + 1]) == Entries(lines[..i]) + LineEntry(lines[i]);
    CollectPrefix(lines, LineEntry, i + 1);
    assert Entries(lines[..i + 1])[|Entries(lines[..i])|] == ParseLine(lines[i]);
  }

  /** The entries of a prefix of the file are a prefix of the file's entries. */
  lemma EntriesPrefix(lines: seq<string>, j: nat)
    requires j <= |lines|
    ensures Entries(lines[..j]) <= Entries(lines)
  {
    CollectPrefix(lines, LineEntry, j);
  }

  // ------------------------------------------------------------- label map

  datatype Label = Real | Fake

  /** `LABEL_MAP.get(token)`. */
  function LabelMap(token: string): (l: Option<Label>)
    ensures l == Some(Real) <==> token in {"bonafide", "genuine", "real"}
    ensures l == Some(Fake) <==> token in {"spoof", "fake"}
  {
    if token == "bonafide" || token == "genuine" || token == "real" then Some(Real)
    else if token == "spoof" || token == "fake" then Some(Fake)
    else None
  }

  // ---------------------------------------------------------- stage_subset

  datatype Stats = Stats(reals: nat, fakes: nat, skipped: nat)

  function Converted(s: Stats): nat { s.reals + s.fakes }

  /** `limit and stats["real"] + stats["fake"] >= limit`: `None` and 0 mean no limit. */
  predicate LimitReached(limit: Option<int>, s: Stats) {
    limit.Some? && limit.value != 0 && Converted(s) >= limit.value
  }

  function Bump(s: Stats, l: Label): Stats {
    if l == Real then s.(reals := s.reals + 1) else s.(fakes := s.fakes + 1)
  }

  /** What `stage_subset` does with the remaining `entries`, from counts `s` and the
      conversions `done` so far. */
  function Stage(entries: seq<Entry>, srcExists: string -> bool, limit: Option<int>,
                 s: Stats, done: seq<(string, Label)>): (Stats, seq<(string, Label)>)
    decreases |entries|
  {
    if |entries| == 0 then (s, done)
    else
      var e := entries[0];
      var l := LabelMap(e.tag);
      if l.None? then Stage(entries[1..], srcExists, limit, s.(skipped := s.skipped + 1), done)
      else if !srcExists(e.uttId) then
        Stage(entries[1..], srcExists, limit, s.(skipped := s.skipped + 1), done)
      else
        var s2 := Bump(s, l.value);
        var done2 := done + [(e.uttId, l.value)];
        if LimitReached(limit, s2) then (s2, done2)
        else Stage(entries[1..], srcExists, limit, s2, done2)
  }

  /** The entry loop of `stage_subset`, with its early `break`. */
  method StageSubset(entries: seq<Entry>, srcExists: string -> bool, limit: Option<int>)
    returns (stats: Stats, conversions: seq<(string, Label)>)
    ensures (stats, conversions) == Stage(entries, srcExists, limit, Stats(0, 0, 0), [])
  {
    stats := Stats(0, 0, 0);
    conversions := [];
    var i := 0;
    while i < |entries|
      invariant 0 <= i <= |entries|
      invariant Stage(entries, srcExists, limit, Stats(0, 0, 0), [])
             == Stage(entries[i..], srcExists, limit, stats, conversions)
    {
      var entry := entries[i];
      assert entries[i..][1..] == entries[i + 1..];
      var mapped := LabelMap(entry.tag);
      if mapped.None? {
        stats := stats.(skipped := stats.skipped + 1);
        i := i + 1;
        continue;
      }
      if !srcExists(entry.uttId) {
        stats := stats.(skipped := stats.skipped + 1);
        i := i + 1;
        continue;
      }
      conversions := conversions + [(entry.uttId, mapped.value)];
      stats := Bump(stats, mapped.value);
      if LimitReached(limit, stats) {
        return;
      }
      i := i + 1;
    }
  }

  /** Every entry is counted at most once, and exactly once when no limit cuts the run;
      each conversion counts exactly one of real and fake. */
  lemma {:induction false} StageCounts(entries: seq<Entry>, srcExists: string -> bool, limit: Option<int>,
                                       s: Stats, done: seq<(string, Label)>)
    ensures var (out, conv) := Stage(entries, srcExists, limit, s, done);
            && Converted(out) + out.skipped <= Converted(s) + s.skipped + |entries|
            && (limit.None? || limit.value == 0 ==>
                  Converted(out) + out.skipped == Converted(s) + s.skipped + |entries|)
            && |conv| - |done| == Converted(out) - Converted(s)
            && out.reals >= s.reals && out.fakes >= s.fakes
    decreases |entries|
  {
    if |entries| > 0 {
      var e := entries[0];
      var l := LabelMap(e.tag);
      if l.None? || !srcExists(e.uttId) {
        StageCounts(entries[1..], srcExists, limit, s.(skipped := s.skipped + 1), done);
      } else {
        var s2 := Bump(s, l.value);
        if !LimitReached(limit, s2) {
          StageCounts(entries[1..], srcExists, limit, s2, done + [(e.uttId, l.value)]);
        }
      }
    }
  }

  /** With a non-zero limit the run stops at the limit: it never converts more than
      `max(limit, 1)` files (a negative limit is truthy and stops after one). */
  lemma {:induction false} StageRespectsLimit(entries: seq<Entry>, srcExists: string -> bool, limit: Option<int>,
                                              s: Stats, done: seq<(string, Label)>)
    requires limit.Some? && limit.value != 0 && Converted(s) < Max(limit.value, 1)
    ensures Converted(Stage(entries, srcExists, limit, s, done).0) <= Max(limit.value, 1)
    decreases |entries|
  {
    if |entries| > 0 {
      var e := entries[0];
      var l := LabelMap(e.tag);
      if l.None? || !srcExists(e.uttId) {
        StageRespectsLimit(entries[1..], srcExists, limit, s.(skipped := s.skipped + 1), done);
      } else {
        var s2 := Bump(s, l.value);
        if !LimitReached(limit, s2) {
          StageRespectsLimit(entries[1..], srcExists, limit, s2, done + [(e.uttId, l.value)]);
        }
      }
    }
  }

  /** Conversion `c` stems from an entry whose source exists and whose label maps to `c`'s. */
  predicate FromEntry(entries: seq<Entry>, srcExists: string -> bool, c: (string, Label)) {
    exists j :: 0 <= j < |entries| && entries[j].uttId == c.0
                && srcExists(entries[j].uttId) && LabelMap(entries[j].tag) == Some(c.1)
  }

  /** Only entries whose label maps and whose source exists are converted, under their
      mapped label. */
  lemma {:induction false} StageConvertsOnlyKnown(entries: seq<Entry>, srcExists: string -> bool,
                                                  limit: Option<int>, s: Stats, done: seq<(string, Label)>)
    ensures var conv := Stage(entries, srcExists, limit, s, done).1;
            |done| <= |conv| && conv[..|done|] == done
            && forall k :: |done| <= k < |conv| ==> FromEntry(entries, srcExists, conv[k])
    decreases |entries|
  {
    if |entries| > 0 {
      var e := entries[0];
      var l := LabelMap(e.tag);
      if l.None? || !srcExists(e.uttId) {
        StageConvertsOnlyKnown(entries[1..], srcExists, limit, s.(skipped := s.skipped + 1), done);
        var conv := Stage(entries, srcExists, limit, s, done).1;
        forall k | |done| <= k < |conv|
          ensures FromEntry(entries, srcExists, conv[k])
        {
          var j :| 0 <= j < |entries[1..]| && entries[1..][j].uttId == conv[k].0
                   && srcExists(entries[1..][j].uttId) && LabelMap(entries[1..][j].tag) == Some(conv[k].1);
          assert entries[j + 1] == entries[1..][j];
        }
      } else {
        var s2 := Bump(s, l.value);
        var done2 := done + [(e.uttId, l.value)];
        if !LimitReached(limit, s2) {
          StageConvertsOnlyKnown(entries[1..], srcExists, limit, s2, done2);
          var conv := Stage(entries, srcExists, limit, s, done).1;
          assert conv[..|done2|] == done2;
          assert conv[..|done|] == done2[..|done|] == done;
          forall k | |done| <= k < |conv|
            ensures FromEntry(entries, srcExists, conv[k])
          {
            if k == |done| {
              assert conv[k] == done2[k];
              assert entries[0].uttId == conv[k].0;
            } else {
              var j :| 0 <= j < |entries[1..]| && entries[1..][j].uttId == conv[k].0
                       && srcExists(entries[1..][j].uttId) && LabelMap(entries[1..][j].tag) == Some(conv[k].1);
              assert entries[j + 1] == entries[1..][j];
            }
          }
        }
      }
    }
  }
}
