/** Reading and replacing the version in one table of a manifest, as text. */
module Manifest {
  import opened Basics

  const KEY: string := "version = \""

  // ---------------------------------------------------------------- lines

  /** End of the line that starts at `from`, newline included. */
  function LineEnd(text: string, from: nat): (e: nat)
    requires from < |text|
    ensures from < e <= |text| && '\n' !in text[from..e - 1]
    ensures e < |text| ==> text[e - 1] == '\n'
    decreases |text| - from
  {
    if text[from] == '\n' || from + 1 == |text| then from + 1
    else
      var e := LineEnd(text, from + 1);
      assert text[from..e - 1] == [text[from]] + text[from + 1..e - 1];
      e
  }

  function TrimEnd(line: string): string {
    if line != [] && (line[|line| - 1] == '\r' || line[|line| - 1] == '\n') then TrimEnd(line[..|line| - 1]) else line
  }

  /** Where the body of the table headed by `marker` starts, searching line by line from `offset`. */
  function BodyStartFrom(text: string, marker: string, offset: nat): (r: Option<nat>)
    requires offset <= |text|
    ensures r.Some? ==> offset < r.value <= |text|
    decreases |text| - offset
  {
    if offset == |text| then None
    else
      var e := LineEnd(text, offset);
      if TrimEnd(text[offset..e]) == marker then Some(e) else BodyStartFrom(text, marker, e)
  }

  ghost predicate LineAt(text: string, b: nat, e: nat) {
    && b < e <= |text| && (b == 0 || text[b - 1] == '\n')
    && '\n' !in text[b..e - 1] && (e < |text| ==> text[e - 1] == '\n')
  }

  lemma LineEndUnique(text: string, b: nat, e: nat)
    requires LineAt(text, b, e)
    ensures LineEnd(text, b) == e
  {
  }

  ghost predicate MarkerLine(text: string, marker: string, b: nat, e: nat) {
    LineAt(text, b, e) && TrimEnd(text[b..e]) == marker
  }

  /** The body follows a line that is the marker. */
  lemma {:induction false} BodyFollowsMarker(text: string, marker: string, offset: nat) returns (b: nat)
    requires offset <= |text| && (offset == 0 || offset == |text| || text[offset - 1] == '\n')
    requires BodyStartFrom(text, marker, offset).Some?
    ensures offset <= b && MarkerLine(text, marker, b, BodyStartFrom(text, marker, offset).value)
    decreases |text| - offset
  {
    var end := LineEnd(text, offset);
    b := offset;
    if TrimEnd(text[offset..end]) != marker {
      b := BodyFollowsMarker(text, marker, end);
    }
  }

  /** No earlier line is the marker, and without a body no line is. */
  lemma {:induction false} NoEarlierMarker(text: string, marker: string, offset: nat, b: nat, e: nat)
    requires MarkerLine(text, marker, b, e) && offset <= b && (offset == 0 || text[offset - 1] == '\n')
    ensures BodyStartFrom(text, marker, offset).Some? && BodyStartFrom(text, marker, offset).value <= e
    decreases |text| - offset
  {
    var end := LineEnd(text, offset);
    LineEndUnique(text, b, e);
    if b != offset {
      if TrimEnd(text[offset..end]) != marker {
        NoEarlierMarker(text, marker, end, b, e);
      }
    }
  }

  method TomlTableBodyStart(text: string, marker: string) returns (r: Option<nat>)
    ensures r == BodyStartFrom(text, marker, 0)
  {
    var offset := 0;
    while offset < |text|
      invariant 0 <= offset <= |text|
      invariant BodyStartFrom(text, marker, 0) == BodyStartFrom(text, marker, offset)
    {
      var end := LineEnd(text, offset);
      if TrimEnd(text[offset..end]) == marker {
        return Some(end);
      }
      offset := end;
    }
    r := None;
  }

  // ---------------------------------------------------------------- searching

  predicate OccursAt(text: string, pattern: string, i: nat) {
    i + |pattern| <= |text| && text[i..i + |pattern|] == pattern
  }

  /** First occurrence at or after `from`. */
  function Find(text: string, pattern: string, from: nat): (r: Option<nat>)
    ensures r.Some? ==> from <= r.value && OccursAt(text, pattern, r.value)
    ensures r.Some? ==> forall i :: from <= i < r.value ==> !OccursAt(text, pattern, i)
    ensures r.None? ==> forall i :: from <= i ==> !OccursAt(text, pattern, i)
    decreases |text| - from
  {
    if from + |pattern| > |text| then None
    else if OccursAt(text, pattern, from) then Some(from)
    else Find(text, pattern, from + 1)
  }

  lemma FindUnique(text: string, pattern: string, from: nat, i: nat)
    requires from <= i && OccursAt(text, pattern, i) && forall j :: from <= j < i ==> !OccursAt(text, pattern, j)
    ensures Find(text, pattern, from) == Some(i)
  {
  }

  /** First quote at or after `from`. */
  function FindQuote(text: string, from: nat): (r: Option<nat>)
    ensures r.Some? ==> from <= r.value < |text| && text[r.value] == '\"'
    ensures r.Some? ==> forall i :: from <= i < r.value ==> text[i] != '\"'
    ensures r.None? ==> forall i :: from <= i < |text| ==> text[i] != '\"'
    decreases |text| - from
  {
    if from >= |text| then None
    else if text[from] == '\"' then Some(from)
    else FindQuote(text, from + 1)
  }

  /** Where the version value starts. */
  function ValueStart(text: string, marker: string): (r: Option<nat>)
    ensures r.Some? ==> r.value <= |text|
  {
    match BodyStartFrom(text, marker, 0)
    case None => None
    case Some(start) =>
      match Find(text, KEY, start)
      case None => None
      case Some(line) => Some(line + |KEY|)
  }

  /** Where the version value starts and ends. */
  function Locate(text: string, marker: string): (r: Option<(nat, nat)>)
    ensures r.Some? ==> r.value.0 <= r.value.1 < |text| && text[r.value.1] == '\"'
  {
    match ValueStart(text, marker)
    case None => None
    case Some(start) =>
      match FindQuote(text, start)
      case None => None
      case Some(end) => Some((start, end))
  }

  function ReadVersion(text: string, marker: string): Option<string> {
    match Locate(text, marker)
    case None => None
    case Some((a, b)) => Some(text[a..b])
  }

  function ReplaceVersion(text: string, marker: string, version: string): Option<string> {
    match Locate(text, marker)
    case None => None
    case Some((a, b)) => Some(text[..a] + version + text[b..])
  }

  // ---------------------------------------------------------------- what an edit leaves alone

  lemma OccursInPrefix(s: string, t: string, n: nat, pattern: string, i: nat)
    requires n <= |s| && n <= |t| && s[..n] == t[..n] && i + |pattern| <= n
    ensures OccursAt(s, pattern, i) <==> OccursAt(t, pattern, i)
  {
    assert s[i..i + |pattern|] == s[..n][i..i + |pattern|];
    assert t[i..i + |pattern|] == t[..n][i..i + |pattern|];
  }

  lemma LineEndInPrefix(s: string, t: string, n: nat, from: nat)
    requires n <= |s| && n <= |t| && s[..n] == t[..n] && from < n && LineEnd(s, from) <= n && LineEnd(s, from) < |s|
    ensures LineEnd(t, from) == LineEnd(s, from)
    decreases n - from
  {
    assert s[from] == s[..n][from] == t[..n][from] == t[from];
    if s[from] != '\n' {
      LineEndInPrefix(s, t, n, from + 1);
    }
  }

  lemma {:induction false} BodyStartInPrefix(s: string, t: string, n: nat, marker: string, offset: nat)
    requires offset <= n <= |s| && n <= |t| && s[..n] == t[..n]
    requires BodyStartFrom(s, marker, offset).Some? && BodyStartFrom(s, marker, offset).value < n
    ensures BodyStartFrom(t, marker, offset) == BodyStartFrom(s, marker, offset)
    decreases |s| - offset
  {
    var e := LineEnd(s, offset);
    assert e <= BodyStartFrom(s, marker, offset).value;
    LineEndInPrefix(s, t, n, offset);
    assert s[offset..e] == s[..n][offset..e] == t[..n][offset..e] == t[offset..e];
    if TrimEnd(s[offset..e]) != marker {
      BodyStartInPrefix(s, t, n, marker, e);
    }
  }

  lemma KeyInPrefix(s: string, t: string, n: nat, from: nat)
    requires n <= |s| && n <= |t| && s[..n] == t[..n]
    requires Find(s, KEY, from).Some? && Find(s, KEY, from).value + |KEY| <= n
    ensures Find(t, KEY, from) == Find(s, KEY, from)
  {
    var i := Find(s, KEY, from).value;
    forall j | from <= j <= i ensures OccursAt(s, KEY, j) <==> OccursAt(t, KEY, j) {
      OccursInPrefix(s, t, n, KEY, j);
    }
    FindUnique(t, KEY, from, i);
  }

  predicate Unquoted(v: string) { '\"' !in v }

  /** An edit after the key leaves the place of the value alone. */
  lemma ValueStartKept(text: string, marker: string, next: string)
    requires ValueStart(text, marker).Some?
    requires var a := ValueStart(text, marker).value; a <= |next| && text[..a] == next[..a]
    ensures ValueStart(next, marker) == ValueStart(text, marker)
  {
    var a := ValueStart(text, marker).value;
    BodyStartInPrefix(text, next, a, marker, 0);
    KeyInPrefix(text, next, a, BodyStartFrom(text, marker, 0).value);
  }

  /** The first quote of a value followed by a quote. */
  lemma FirstQuote(before: string, version: string, after: string)
    requires after != [] && after[0] == '\"'
    ensures var end := FindQuote(before + version + after, |before|);
      end.Some? && end.value <= |before| + |version| && (end.value == |before| + |version| <==> Unquoted(version))
  {
    var next := before + version + after;
    var a, n := |before|, |before| + |version|;
    assert next[n] == '\"';
    assert forall i :: 0 <= i < |version| ==> next[a + i] == version[i];
    var end := FindQuote(next, a).value;
    assert end < n ==> next[end] == version[end - a];
  }

  /** After a replacement the value is found again at the same place, up to its first quote. */
  lemma LocateAfterReplace(text: string, marker: string, version: string)
    requires Locate(text, marker).Some?
    ensures var (a, b) := Locate(text, marker).value;
      var next := text[..a] + version + text[b..];
      && Locate(next, marker).Some? && Locate(next, marker).value.0 == a
      && a <= Locate(next, marker).value.1 <= a + |version|
      && (Locate(next, marker).value.1 == a + |version| <==> Unquoted(version))
  {
    var (a, b) := Locate(text, marker).value;
    assert text[b..][0] == '\"';
    FirstQuote(text[..a], version, text[b..]);
    ValueStartKept(text, marker, text[..a] + version + text[b..]);
  }

  /** Reading works exactly when replacing does, and a replacement changes the value alone. */
  lemma ReplaceIsLocal(text: string, marker: string, version: string)
    ensures ReadVersion(text, marker).Some? <==> ReplaceVersion(text, marker, version).Some?
    ensures ReadVersion(text, marker).Some? ==> exists before: string, after: string ::
      && text == before + ReadVersion(text, marker).value + after
      && ReplaceVersion(text, marker, version).value == before + version + after
  {
    if Locate(text, marker).Some? {
      var (a, b) := Locate(text, marker).value;
      assert text == text[..a] + text[a..b] + text[b..];
    }
  }

  /** Read after replace gives the new value, exactly for versions without a quote. */
  lemma ReadAfterReplace(text: string, marker: string, version: string)
    requires ReadVersion(text, marker).Some?
    ensures ReadVersion(ReplaceVersion(text, marker, version).value, marker) == Some(version) <==> Unquoted(version)
  {
    LocateAfterReplace(text, marker, version);
    var (a, b) := Locate(text, marker).value;
    var next := text[..a] + version + text[b..];
    var end := Locate(next, marker).value.1;
    assert |next[a..end]| == end - a;
    if Unquoted(version) { assert next[a..end] == version; }
  }

  lemma ReplaceWithCurrent(text: string, marker: string)
    requires ReadVersion(text, marker).Some?
    ensures ReplaceVersion(text, marker, ReadVersion(text, marker).value) == Some(text)
  {
    var (a, b) := Locate(text, marker).value;
    assert text == text[..a] + text[a..b] + text[b..];
  }

  /** The last of two replacements wins, exactly when the first has no quote: otherwise the rest of
      the first stays behind. */
  lemma LastReplaceWins(text: string, marker: string, first: string, second: string)
    requires ReadVersion(text, marker).Some?
    ensures ReplaceVersion(ReplaceVersion(text, marker, first).value, marker, second)
      == ReplaceVersion(text, marker, second)
      <==> Unquoted(first)
  {
    LocateAfterReplace(text, marker, first);
    var (a, b) := Locate(text, marker).value;
    var next := text[..a] + first + text[b..];
    var end := Locate(next, marker).value.1;
    assert next[..a] == text[..a];
    if Unquoted(first) {
      assert next[end..] == text[b..];
    } else {
      assert |next[..a] + second + next[end..]| > |text[..a] + second + text[b..]|;
    }
  }

  const EXAMPLE: string := "[p]\n" + KEY + "1\""

  lemma ExampleBody()
    ensures BodyStartFrom(EXAMPLE, "[p]", 0) == Some(4)
  {
    var line := "[p]\n";
    assert EXAMPLE[0..4] == line && EXAMPLE[0..3] == "[p]";
    assert LineAt(EXAMPLE, 0, 4);
    LineEndUnique(EXAMPLE, 0, 4);
    assert line[..3] == "[p]";
    assert TrimEnd(line) == "[p]";
  }

  lemma ExampleLocates()
    ensures Locate(EXAMPLE, "[p]").Some?
  {
    ExampleBody();
    assert EXAMPLE[4..15] == KEY;
    FindUnique(EXAMPLE, KEY, 4, 4);
    assert EXAMPLE[16] == '\"';
  }

  /** A quote in the new version cuts it short. */
  lemma QuotedVersionIsCut()
    ensures var next := ReplaceVersion(EXAMPLE, "[p]", "2\"3");
      next.Some? && ReadVersion(next.value, "[p]") != Some("2\"3")
  {
    ExampleLocates();
    ReadAfterReplace(EXAMPLE, "[p]", "2\"3");
    assert "2\"3"[1] == '\"';
  }

  // ---------------------------------------------------------------- which version is read

  /** Only line ends follow the marker on its line. */
  lemma {:induction false} TrimmedLine(line: string, marker: string)
    ensures TrimEnd(line) == marker <==>
      && marker <= line && (marker != [] ==> marker[|marker| - 1] != '\r' && marker[|marker| - 1] != '\n')
      && forall i :: |marker| <= i < |line| ==> line[i] == '\r' || line[i] == '\n'
  {
    if line != [] && (line[|line| - 1] == '\r' || line[|line| - 1] == '\n') {
      var front := line[..|line| - 1];
      TrimmedLine(front, marker);
      if marker <= line && !(marker <= front) {
        assert marker == line;
      }
    }
  }

  lemma FirstVersionIsRead(text: string, marker: string, version: string, i: nat)
    requires ReadsAt(text, marker, version, i)
    ensures ReadVersion(text, marker) == Some(version)
  {
    FindUnique(text, KEY, BodyStartFrom(text, marker, 0).value, i);
    var a := i + |KEY|;
    assert text[a..a + |version|] == version;
    forall j | a <= j < a + |version| ensures text[j] != '\"' {
      assert text[j] == text[a..a + |version|][j - a];
    }
    QuoteUnique(text, a, a + |version|);
  }

  lemma ReadVersionIsFirst(text: string, marker: string) returns (i: nat)
    requires ReadVersion(text, marker).Some?
    ensures ReadsAt(text, marker, ReadVersion(text, marker).value, i)
  {
    var (a, b) := Locate(text, marker).value;
    i := Find(text, KEY, BodyStartFrom(text, marker, 0).value).value;
    var version := text[a..b];
    forall j | 0 <= j < |version| ensures version[j] != '\"' { assert version[j] == text[a + j]; }
  }

  /** The version that is read is the first one behind the table's marker, up to the next quote. */
  lemma ReadsFirstVersion(text: string, marker: string, version: string)
    ensures ReadVersion(text, marker) == Some(version) <==>
      exists i: nat :: ReadsAt(text, marker, version, i)
  {
    if exists i: nat :: ReadsAt(text, marker, version, i) {
      var i: nat :| ReadsAt(text, marker, version, i);
      FirstVersionIsRead(text, marker, version, i);
    }
    if ReadVersion(text, marker) == Some(version) {
      var i := ReadVersionIsFirst(text, marker);
    }
  }

  lemma {:induction false} QuoteUnique(text: string, from: nat, end: nat)
    requires from <= end < |text| && text[end] == '\"' && forall j :: from <= j < end ==> text[j] != '\"'
    ensures FindQuote(text, from) == Some(end)
    decreases end - from
  {
    if from < end { QuoteUnique(text, from + 1, end); }
  }

  /** The key stands at `i`, first in the table's body, and is followed by the version and a quote. */
  ghost predicate ReadsAt(text: string, marker: string, version: string, i: nat) {
    && BodyStartFrom(text, marker, 0).Some? && BodyStartFrom(text, marker, 0).value <= i
    && (forall j :: BodyStartFrom(text, marker, 0).value <= j < i ==> !OccursAt(text, "version = \"", j))
    && OccursAt(text, "version = \"", i)
    && OccursAt(text, version, i + 11) && '\"' !in version
    && i + 11 + |version| < |text| && text[i + 11 + |version|] == '\"'
  }
}
