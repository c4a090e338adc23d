/** Reading an HTTP date as text (the IMF-fixdate form of section 5.6.7 of RFC 9110). */
module HttpDate {
  import opened Basics
  import opened CivilDays

  // ---------------------------------------------------------------- splitting text

  predicate Space(c: char) { c == ' ' || '\t' <= c <= '\r' }

  /** Spaces, tabs, line ends and form feeds. */
  predicate Blank(s: string) {
    forall i :: 0 <= i < |s| ==> s[i] in [' ', '\t', '\n', '\U{000B}', '\U{000C}', '\r']
  }

  predicate Solid(s: string) { s != [] && forall i :: 0 <= i < |s| ==> !Space(s[i]) }

  function Trimmed(s: string): string {
    if s == [] then s
    else if Space(s[0]) then Trimmed(s[1..])
    else if Space(s[|s| - 1]) then Trimmed(s[..|s| - 1])
    else s
  }

  /** The text after the first `c`. */
  function AfterFirst(s: string, c: char): Option<string> {
    if s == [] then None else if s[0] == c then Some(s[1..]) else AfterFirst(s[1..], c)
  }

  /** Length of the leading run of characters other than spaces. */
  function WordEnd(s: string): (n: nat)
    ensures n <= |s| && (forall i :: 0 <= i < n ==> !Space(s[i])) && (n < |s| ==> Space(s[n]))
  {
    if s == [] || Space(s[0]) then 0 else 1 + WordEnd(s[1..])
  }

  function Words(s: string): seq<string>
    decreases |s|
  {
    if s == [] then []
    else if Space(s[0]) then Words(s[1..])
    else var n := WordEnd(s); [s[..n]] + Words(s[n..])
  }

  function Split(s: string, c: char): (r: seq<string>)
    ensures r != []
  {
    if s == [] then [[]]
    else
      var rest := Split(s[1..], c);
      if s[0] == c then [[]] + rest else [[s[0]] + rest[0]] + rest[1..]
  }

  // ---------------------------------------------------------------- reading numbers

  predicate IsDigit(c: char) { '0' <= c <= '9' }

  predicate Digits(s: string) { s != [] && forall i :: 0 <= i < |s| ==> IsDigit(s[i]) }

  function Value(s: string): nat
    requires forall i :: 0 <= i < |s| ==> IsDigit(s[i])
  {
    if s == [] then 0 else assert IsDigit(s[|s| - 1]); Value(s[..|s| - 1]) * 10 + (s[|s| - 1] as int - '0' as int)
  }

  /** An unsigned 32-bit number; a leading plus sign is accepted. */
  function ReadU32(s: string): Option<nat> {
    var t := if s != [] && s[0] == '+' then s[1..] else s;
    if !Digits(t) || Value(t) > 0xFFFF_FFFF then None else Some(Value(t))
  }

  /** A signed 32-bit number. */
  function ReadI32(s: string): Option<int> {
    if s != [] && s[0] == '-' then
      if !Digits(s[1..]) || 0 - Value(s[1..]) < MIN32 then None else Some(0 - Value(s[1..]))
    else
      var t := if s != [] && s[0] == '+' then s[1..] else s;
      if !Digits(t) || Value(t) > MAX32 then None else Some(Value(t))
  }

  const MONTHS: seq<string> := ["Jan", "Feb", "Mar", "Apr", "May", "Jun", "Jul", "Aug", "Sep", "Oct", "Nov", "Dec"]

  function MonthFrom(name: string, i: nat): (r: Option<nat>)
    requires i <= 12
    ensures r.Some? ==> i < r.value <= 12 && MONTHS[r.value - 1] == name
    decreases 12 - i
  {
    if i == 12 then None else if MONTHS[i] == name then Some(i + 1) else MonthFrom(name, i + 1)
  }

  // ---------------------------------------------------------------- the parser

  function ParseHttpDate(value: string): Option<nat> {
    match AfterFirst(Trimmed(value), ',')
    case None => None
    case Some(rest) =>
      var words := Words(rest);
      if |words| != 5 || words[4] != "GMT" then None
      else
        var time := Split(words[3], ':');
        if |time| < 3 then None
        else
          match (ReadU32(words[0]), MonthFrom(words[1], 0), ReadI32(words[2]),
                 ReadU32(time[0]), ReadU32(time[1]), ReadU32(time[2]))
          case (Some(day), Some(month), Some(year), Some(hour), Some(minute), Some(second)) =>
            HttpSeconds(Date(year, month, day), hour, minute, second)
          case _ => None
  }

  // ---------------------------------------------------------------- writing a date

  function DigitChar(n: nat): (c: char)
    ensures IsDigit(c) && c as int - '0' as int == n % 10
  {
    '0' + (n % 10) as char
  }

  function Two(n: nat): string { [DigitChar(n / 10), DigitChar(n)] }

  function Four(n: nat): string { Two(n / 100) + Two(n) }

  function TimeText(hour: nat, minute: nat, second: nat): string { Two(hour) + ":" + Two(minute) + ":" + Two(second) }

  function DateWords(date: Date, hour: nat, minute: nat, second: nat): seq<string>
    requires 1 <= date.month <= 12 && 0 <= date.year
  {
    [Two(date.day), MONTHS[date.month - 1], Four(date.year), TimeText(hour, minute, second), "GMT"]
  }

  /** Words, each behind a gap of white space. */
  function Spread(words: seq<string>, gaps: seq<string>): string
    requires |gaps| == |words|
  {
    if words == [] then [] else gaps[0] + words[0] + Spread(words[1..], gaps[1..])
  }

  function Written(weekday: string, date: Date, hour: nat, minute: nat, second: nat): string
    requires 1 <= date.month <= 12 && 0 <= date.year
  {
    weekday + "," + Spread(DateWords(date, hour, minute, second), [" ", " ", " ", " ", " "])
  }

  // ---------------------------------------------------------------- reading back what was written

  lemma {:induction false} AfterComma(before: string, c: char, rest: string)
    requires c !in before
    ensures AfterFirst(before + [c] + rest, c) == Some(rest)
  {
    var s := before + [c] + rest;
    if before == [] {
      assert s[1..] == rest;
    } else {
      assert s[1..] == before[1..] + [c] + rest;
      AfterComma(before[1..], c, rest);
    }
  }

  lemma WordFirst(w: string, rest: string)
    requires Solid(w) && (rest == [] || Space(rest[0]))
    ensures Words(w + rest) == [w] + Words(rest)
  {
    var s := w + rest;
    var n := WordEnd(s);
    assert rest != [] ==> s[|w|] == rest[0];
    assert n == |w|;
    assert s[..n] == w && s[n..] == rest;
  }

  lemma SplitAt(a: string, c: char, rest: string)
    requires c !in a
    ensures Split(a + [c] + rest, c) == [a] + Split(rest, c)
    decreases |a|
  {
    var s := a + [c] + rest;
    if a == [] {
      assert s[1..] == rest;
    } else {
      assert s[1..] == a[1..] + [c] + rest;
      SplitAt(a[1..], c, rest);
      assert [s[0]] + a[1..] == a;
    }
  }

  lemma {:induction false} SplitWhole(a: string, c: char)
    requires c !in a
    ensures Split(a, c) == [a]
  {
    if a != [] {
      SplitWhole(a[1..], c);
      assert [a[0]] + a[1..] == a;
    }
  }

  lemma TwoReads(n: nat)
    requires n < 100
    ensures Digits(Two(n)) && Value(Two(n)) == n && ReadU32(Two(n)) == Some(n)
    ensures Solid(Two(n)) && ':' !in Two(n)
  {
    var t := Two(n);
    assert t[..1] == [DigitChar(n / 10)] && t[..1][..0] == [];
    assert Value(t[..1]) == n / 10;
  }

  lemma ValueOfFour(a: char, b: char, c: char, d: char)
    requires IsDigit(a) && IsDigit(b) && IsDigit(c) && IsDigit(d)
    ensures Digits([a, b, c, d])
    ensures Value([a, b, c, d]) ==
      (a as int - '0' as int) * 1000 + (b as int - '0' as int) * 100 + (c as int - '0' as int) * 10
        + (d as int - '0' as int)
  {
    var s := [a, b, c, d];
    assert s[..3] == [a, b, c] && [a, b, c][..2] == [a, b] && [a, b][..1] == [a] && [a][..0] == [];
    assert Value([a]) == a as int - '0' as int;
    assert Value([a, b]) == Value([a]) * 10 + (b as int - '0' as int);
    assert Value([a, b, c]) == Value([a, b]) * 10 + (c as int - '0' as int);
  }

  lemma FourReads(n: nat)
    requires n < 10_000
    ensures ReadI32(Four(n)) == Some(n) && Solid(Four(n))
  {
    var a, b, c, d := DigitChar(n / 100 / 10), DigitChar(n / 100), DigitChar(n / 10), DigitChar(n);
    assert Four(n) == [a, b, c, d];
    ValueOfFour(a, b, c, d);
    DecimalPlaces(n);
  }

  lemma DecimalPlaces(n: nat)
    requires n < 10_000
    ensures n == n / 100 / 10 % 10 * 1000 + n / 100 % 10 * 100 + n / 10 % 10 * 10 + n % 10
  {
    assert n / 100 / 10 == n / 10 / 10 / 10 && n / 100 == n / 10 / 10;
  }

  lemma TimeReads(hour: nat, minute: nat, second: nat)
    requires RealTime(hour, minute, second)
    ensures Split(TimeText(hour, minute, second), ':') == [Two(hour), Two(minute), Two(second)]
    ensures Solid(TimeText(hour, minute, second))
  {
    TwoReads(hour);
    TwoReads(minute);
    TwoReads(second);
    var t := TimeText(hour, minute, second);
    assert t == Two(hour) + [':'] + (Two(minute) + [':'] + Two(second));
    SplitAt(Two(hour), ':', Two(minute) + [':'] + Two(second));
    SplitAt(Two(minute), ':', Two(second));
    SplitWhole(Two(second), ':');
    assert t == [t[0], t[1], ':', t[3], t[4], ':', t[6], t[7]];
  }

  lemma MonthReads(month: nat)
    requires 1 <= month <= 12
    ensures MonthFrom(MONTHS[month - 1], 0) == Some(month) && Solid(MONTHS[month - 1])
  {
    MonthSearch(month, 0);
    assert forall i :: 0 <= i < 12 ==> |MONTHS[i]| == 3;
  }

  lemma {:induction false} MonthSearch(month: nat, i: nat)
    requires i < month <= 12
    ensures MonthFrom(MONTHS[month - 1], i) == Some(month)
    decreases month - i
  {
    if i + 1 < month {
      MonthsDiffer(i, month - 1);
      MonthSearch(month, i + 1);
    }
  }

  lemma MonthsDiffer(i: nat, j: nat)
    requires i < j < 12
    ensures MONTHS[i] != MONTHS[j]
  {
    assert MONTHS[i][0] != MONTHS[j][0] || MONTHS[i][1] != MONTHS[j][1] || MONTHS[i][2] != MONTHS[j][2];
  }

  // ---------------------------------------------------------------- exactly which texts are dates

  /** Gaps keep words apart; only the first one may be missing. */
  ghost predicate Gaps(gaps: seq<string>) {
    forall i :: 0 <= i < |gaps| ==> Blank(gaps[i]) && (i > 0 ==> gaps[i] != [])
  }

  lemma {:induction false} SkipsBlank(gap: string, rest: string)
    requires Blank(gap)
    ensures Words(gap + rest) == Words(rest)
  {
    if gap == [] {
      assert gap + rest == rest;
    } else {
      assert (gap + rest)[1..] == gap[1..] + rest;
      SkipsBlank(gap[1..], rest);
    }
  }

  lemma {:induction false} SpreadWords(words: seq<string>, gaps: seq<string>)
    requires |gaps| == |words| && Gaps(gaps) && forall i :: 0 <= i < |words| ==> Solid(words[i])
    ensures Words(Spread(words, gaps)) == words
  {
    if words != [] {
      var rest := Spread(words[1..], gaps[1..]);
      assert forall i :: 0 <= i < |gaps| - 1 ==> gaps[1..][i] == gaps[i + 1];
      SpreadWords(words[1..], gaps[1..]);
      assert rest != [] ==> Space(rest[0]) by {
        if |words| > 1 { assert gaps[1][0] == rest[0]; }
      }
      WordFirst(words[0], rest);
      assert gaps[0] + words[0] + rest == gaps[0] + (words[0] + rest);
      SkipsBlank(gaps[0], words[0] + rest);
    }
  }

  lemma {:induction false} SpreadEnds(words: seq<string>, gaps: seq<string>)
    requires |gaps| == |words| && words != [] && Solid(words[|words| - 1])
    ensures Spread(words, gaps) != [] && !Space(Spread(words, gaps)[|Spread(words, gaps)| - 1])
  {
    if |words| > 1 { SpreadEnds(words[1..], gaps[1..]); }
  }

  lemma {:induction false} TrimsPadding(pad: string, s: string, tail: string)
    requires Blank(pad) && Blank(tail) && s != [] && !Space(s[0]) && !Space(s[|s| - 1])
    ensures Trimmed(pad + s + tail) == s
    decreases |pad| + |tail|
  {
    var all := pad + s + tail;
    if pad != [] {
      assert all[1..] == pad[1..] + s + tail;
      TrimsPadding(pad[1..], s, tail);
    } else if tail != [] {
      assert all[..|all| - 1] == pad + s + tail[..|tail| - 1];
      TrimsPadding(pad, s, tail[..|tail| - 1]);
    } else {
      assert all == s;
    }
  }

  /** What makes five words a date that can be counted. */
  predicate Readable(words: seq<string>) {
    && |words| == 5 && MonthFrom(words[1], 0).Some? && words[4] == "GMT"
    && ReadU32(words[0]).Some? && ReadI32(words[2]).Some?
    && var time := Split(words[3], ':');
    |time| >= 3 && ReadU32(time[0]).Some? && ReadU32(time[1]).Some? && ReadU32(time[2]).Some?
  }

  /** Every text of words behind one comma is read by this rule: any padding and any gaps; a day, a month
      name, a year, a time of at least hours, minutes and seconds, and the zone. What precedes the comma
      and what follows the seconds is not looked at. */
  lemma ParsesExactly(pad: string, weekday: string, words: seq<string>, gaps: seq<string>, tail: string)
    requires Blank(pad) && Blank(tail) && ',' !in weekday && (weekday == [] || !Space(weekday[0]))
    requires |gaps| == |words| && Gaps(gaps) && words != [] && forall i :: 0 <= i < |words| ==> Solid(words[i])
    ensures ParseHttpDate(pad + (weekday + "," + Spread(words, gaps)) + tail) ==
      if !Readable(words) then None
      else
        var time := Split(words[3], ':');
        HttpSeconds(Date(ReadI32(words[2]).value, MonthFrom(words[1], 0).value, ReadU32(words[0]).value),
                    ReadU32(time[0]).value, ReadU32(time[1]).value, ReadU32(time[2]).value)
  {
    var text := weekday + "," + Spread(words, gaps);
    SpreadEnds(words, gaps);
    TrimsPadding(pad, text, tail);
    AfterComma(weekday, ',', Spread(words, gaps));
    SpreadWords(words, gaps);
  }

  /** The twelve month names, in order, and no other text. */
  lemma MonthNames(name: string, month: nat)
    ensures MonthFrom(name, 0) == Some(month) <==>
      && 1 <= month <= 12
      && ["Jan", "Feb", "Mar", "Apr", "May", "Jun", "Jul", "Aug", "Sep", "Oct", "Nov", "Dec"][month - 1] == name
  {
    if 1 <= month <= 12 && MONTHS[month - 1] == name { MonthSearch(month, 0); }
  }

  /** An unsigned number: digits, perhaps behind a plus sign, within 32 bits. */
  lemma UnsignedNumbers(s: string, n: nat)
    ensures ReadU32(s) == Some(n) <==>
      && n <= 0xFFFF_FFFF
      && (|| (Digits(s) && Value(s) == n)
          || (s != [] && s[0] == '+' && Digits(s[1..]) && Value(s[1..]) == n))
  {
  }

  /** A signed number: digits, perhaps behind a sign, within 32 bits. */
  lemma SignedNumbers(s: string, n: int)
    ensures ReadI32(s) == Some(n) <==>
      && -0x8000_0000 <= n <= 0x7FFF_FFFF
      && (|| (Digits(s) && Value(s) == n)
          || (s != [] && s[0] == '+' && Digits(s[1..]) && Value(s[1..]) == n)
          || (s != [] && s[0] == '-' && Digits(s[1..]) && 0 - Value(s[1..]) == n))
  {
  }

  function Joined(parts: seq<string>, c: char): string
    requires parts != []
  {
    if |parts| == 1 then parts[0] else parts[0] + [c] + Joined(parts[1..], c)
  }

  /** Splitting takes a text apart at every separator and nowhere else. */
  lemma {:induction false} SplitsEverywhere(s: string, c: char)
    ensures Joined(Split(s, c), c) == s
    ensures forall i :: 0 <= i < |Split(s, c)| ==> c !in Split(s, c)[i]
  {
    if s != [] {
      var rest := Split(s[1..], c);
      SplitsEverywhere(s[1..], c);
      if s[0] == c {
        assert ([[]] + rest)[1..] == rest;
      } else {
        assert ([[s[0]] + rest[0]] + rest[1..])[1..] == rest[1..];
        assert s == [s[0]] + Joined(rest, c);
      }
    }
  }

  /** The words of a written date, and what is read in them. */
  lemma WordsRead(date: Date, hour: nat, minute: nat, second: nat)
    requires date.Real() && 0 <= date.year <= 9999 && RealTime(hour, minute, second)
    ensures
      var words := DateWords(date, hour, minute, second);
      && (forall i :: 0 <= i < |words| ==> Solid(words[i])) && |words| == 5 && words[4] == "GMT"
      && ReadU32(words[0]) == Some(date.day) && MonthFrom(words[1], 0) == Some(date.month)
      && ReadI32(words[2]) == Some(date.year) && words[3] == TimeText(hour, minute, second)
  {
    TwoReads(date.day);
    MonthReads(date.month);
    FourReads(date.year);
    TimeReads(hour, minute, second);
  }

  /** A date written with four digits of year and any weekday is read back as the naive count of
      seconds since 1970; the weekday is not looked at. */
  lemma ReadsWhatIsWritten(weekday: string, date: Date, hour: nat, minute: nat, second: nat)
    requires Solid(weekday) && ',' !in weekday
    requires date.Real() && 0 <= date.year <= 9999 && RealTime(hour, minute, second)
    ensures var seconds := NaiveDays(date.year, date.month, date.day) * 86_400 + hour * 3_600 + minute * 60 + second;
      ParseHttpDate(Written(weekday, date, hour, minute, second)) == if date.year < 1970 then None else Some(seconds)
  {
    var words := DateWords(date, hour, minute, second);
    var gaps := [" ", " ", " ", " ", " "];
    WordsRead(date, hour, minute, second);
    TimeReads(hour, minute, second);
    TwoReads(hour);
    TwoReads(minute);
    TwoReads(second);
    ParsesExactly("", weekday, words, gaps, "");
    assert "" + Written(weekday, date, hour, minute, second) + "" == Written(weekday, date, hour, minute, second);
    HttpDateCountsSeconds(date, hour, minute, second);
  }

  lemma {:induction false} NoComma(s: string)
    requires ',' !in s
    ensures AfterFirst(s, ',').None?
  {
    if s != [] { NoComma(s[1..]); }
  }

  lemma {:induction false} TrimmedIsPart(s: string, c: char)
    requires c !in s
    ensures c !in Trimmed(s)
    decreases |s|
  {
    if s != [] {
      if Space(s[0]) { TrimmedIsPart(s[1..], c); }
      else if Space(s[|s| - 1]) { TrimmedIsPart(s[..|s| - 1], c); }
    }
  }

  /** A text without a comma is no date. */
  lemma CommaNeeded(value: string)
    requires ',' !in value
    ensures ParseHttpDate(value).None?
  {
    TrimmedIsPart(value, ',');
    NoComma(Trimmed(value));
  }
}
