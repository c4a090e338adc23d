/** The byte string hashed for a set of roots: length-prefixed fields, roots in sorted order. */
module RootDigest {
  import opened Order

  const DOMAIN: string := "starweaver.agent.materialization.root-set/v1"

  function Digit(d: nat): char
    requires d < 10
  {
    '0' + d as char
  }

  function Decimal(n: nat): (r: string)
    ensures r != [] && ':' !in r
  {
    if n < 10 then [Digit(n)] else Decimal(n / 10) + [Digit(n % 10)]
  }

  function Number(digits: string): int {
    if digits == [] then 0 else Number(digits[..|digits| - 1]) * 10 + (digits[|digits| - 1] as int - '0' as int)
  }

  lemma {:induction false} DecimalRoundTrip(n: nat)
    ensures Number(Decimal(n)) == n
  {
    var d := Decimal(n);
    if n < 10 {
      assert d[..0] == [];
    } else {
      DecimalRoundTrip(n / 10);
      assert d[..|d| - 1] == Decimal(n / 10);
    }
  }

  /** A value preceded by its decimal length and a colon. */
  function Field(value: string): (r: string)
    ensures |r| > |value|
  {
    Decimal(|value|) + ":" + value
  }

  function Fields(values: seq<string>): string {
    if values == [] then [] else Fields(values[..|values| - 1]) + Field(values[|values| - 1])
  }

  function Header(scope: string, count: nat): string {
    Field(DOMAIN) + Field(scope) + Field(Decimal(count))
  }

  /** The hashed byte string. */
  function Stream(scope: string, roots: seq<string>): string {
    var sorted := SortedSet(roots);
    Header(scope, |sorted|) + Fields(sorted)
  }

  // ---------------------------------------------------------------- feeding the hasher

  class Hasher {
    var bytes: string

    constructor ()
      ensures bytes == []
    {
      bytes := [];
    }

    method Update(chunk: string)
      modifies this
      ensures bytes == old(bytes) + chunk
    {
      bytes := bytes + chunk;
    }

    method UpdateLenPrefixed(value: string)
      modifies this
      ensures bytes == old(bytes) + Field(value)
    {
      Update(Decimal(|value|));
      Update(":");
      Update(value);
    }
  }

  method FeedHeader(hasher: Hasher, scope: string, count: nat)
    requires hasher.bytes == []
    modifies hasher
    ensures hasher.bytes == Header(scope, count)
  {
    hasher.UpdateLenPrefixed(DOMAIN);
    hasher.UpdateLenPrefixed(scope);
    hasher.UpdateLenPrefixed(Decimal(count));
  }

  lemma FieldsStep(header: string, values: seq<string>, i: nat)
    requires i < |values|
    ensures header + Fields(values[..i + 1]) == header + Fields(values[..i]) + Field(values[i])
  {
    assert values[..i + 1][..i] == values[..i];
  }

  /** `hash` stands for the digest of the collected bytes. */
  method RootSetDigest(scope: string, roots: seq<string>, hash: string -> string) returns (digest: string)
    ensures digest == "sha256:" + hash(Stream(scope, roots))
  {
    var sorted := SortedSet(roots);
    var hasher := new Hasher();
    FeedHeader(hasher, scope, |sorted|);
    ghost var header := Header(scope, |sorted|);
    var i := 0;
    while i < |sorted|
      invariant 0 <= i <= |sorted|
      invariant hasher.bytes == header + Fields(sorted[..i])
    {
      FieldsStep(header, sorted, i);
      hasher.UpdateLenPrefixed(sorted[i]);
      i := i + 1;
    }
    assert sorted[..i] == sorted;
    digest := "sha256:" + hash(hasher.bytes);
  }

  // ---------------------------------------------------------------- unique decoding

  /** A text up to its first colon is determined by the text. */
  lemma ColonSplits(a: string, x: string, b: string, y: string)
    requires ':' !in a && ':' !in b && a + ":" + x == b + ":" + y
    ensures a == b && x == y
  {
    var s, t := a + ":" + x, b + ":" + y;
    assert s[|a|] == ':' && t[|b|] == ':';
    assert a == s[..|a|] && b == t[..|b|];
    assert x == s[|a| + 1..] && y == t[|b| + 1..];
  }

  /** The first field of a text is determined by the text. */
  lemma FieldSplits(a: string, x: string, b: string, y: string)
    requires Field(a) + x == Field(b) + y
    ensures a == b && x == y
  {
    assert Field(a) + x == Decimal(|a|) + ":" + (a + x);
    assert Field(b) + y == Decimal(|b|) + ":" + (b + y);
    ColonSplits(Decimal(|a|), a + x, Decimal(|b|), b + y);
    DecimalRoundTrip(|a|);
    DecimalRoundTrip(|b|);
    assert a == (a + x)[..|a|] && x == (a + x)[|a|..];
    assert b == (b + y)[..|b|] && y == (b + y)[|b|..];
  }

  lemma Associative(a: string, b: string, c: string)
    ensures (a + b) + c == a + (b + c)
  {
  }

  lemma {:induction false} FieldsCons(values: seq<string>)
    requires values != []
    ensures Fields(values) == Field(values[0]) + Fields(values[1..])
  {
    var n := |values| - 1;
    if n == 0 {
      assert values[..0] == [] && values[1..] == [];
    } else {
      FieldsCons(values[..n]);
      var middle := values[..n][1..];
      assert middle == values[1..][..n - 1];
      Associative(Field(values[0]), Fields(middle), Field(values[n]));
    }
  }

  lemma {:induction false} FieldsInjective(xs: seq<string>, ys: seq<string>)
    requires Fields(xs) == Fields(ys)
    ensures xs == ys
  {
    if xs == [] || ys == [] {
      assert xs != [] ==> |Fields(xs)| > 0 by { if xs != [] { FieldsCons(xs); } }
      assert ys != [] ==> |Fields(ys)| > 0 by { if ys != [] { FieldsCons(ys); } }
    } else {
      FieldsCons(xs);
      FieldsCons(ys);
      FieldSplits(xs[0], Fields(xs[1..]), ys[0], Fields(ys[1..]));
      FieldsInjective(xs[1..], ys[1..]);
      assert xs == [xs[0]] + xs[1..] && ys == [ys[0]] + ys[1..];
    }
  }

  lemma HeaderReads(s: string, m: nat, x: string)
    ensures Header(s, m) + x == Field(DOMAIN) + (Field(s) + (Field(Decimal(m)) + x))
  {
    Associative(Field(DOMAIN) + Field(s), Field(Decimal(m)), x);
    Associative(Field(DOMAIN), Field(s), Field(Decimal(m)) + x);
  }

  lemma HeaderSplits(s: string, m: nat, x: string, t: string, n: nat, y: string)
    requires Header(s, m) + x == Header(t, n) + y
    ensures s == t && m == n && x == y
  {
    var restX, restY := Field(Decimal(m)) + x, Field(Decimal(n)) + y;
    HeaderReads(s, m, x);
    HeaderReads(t, n, y);
    FieldSplits(DOMAIN, Field(s) + restX, DOMAIN, Field(t) + restY);
    FieldSplits(s, restX, t, restY);
    FieldSplits(Decimal(m), x, Decimal(n), y);
    DecimalRoundTrip(m);
    DecimalRoundTrip(n);
  }

  /** The hashed bytes determine the scope and the set of roots, and nothing else: neither the order
      of the list nor repeated roots matter. */
  lemma StreamDeterminesRoots(scope: string, roots: seq<string>, scope': string, roots': seq<string>)
    ensures Stream(scope, roots) == Stream(scope', roots') <==> scope == scope' && Elements(roots) == Elements(roots')
  {
    var xs, ys := SortedSet(roots), SortedSet(roots');
    if Stream(scope, roots) == Stream(scope', roots') {
      HeaderSplits(scope, |xs|, Fields(xs), scope', |ys|, Fields(ys));
      FieldsInjective(xs, ys);
    }
    if Elements(roots) == Elements(roots') {
      SortedUnique(xs, ys);
    }
  }

  lemma TwoRoots()
    ensures SortedSet(["b", "a", "b"]) == ["a", "b"]
  {
    var xs := ["b", "a", "b"];
    assert Less("a", "b");
    assert Elements(xs) == {"a", "b"} == Elements(["a", "b"]);
    SortedUnique(SortedSet(xs), ["a", "b"]);
  }

  /** The hashed bytes of one root set, character by character. */
  lemma StreamByHand()
    ensures DOMAIN == "starweaver.agent.materialization.root-set/v1"
    ensures Stream("ws", ["b", "a", "b"]) == ("44:" + DOMAIN + "2:ws" + "1:2") + ("1:a" + "1:b")
  {
    TwoRoots();
    HandHeader();
    HandFields();
  }

  lemma HandHeader()
    ensures Header("ws", 2) == "44:" + DOMAIN + "2:ws" + "1:2"
  {
    assert Decimal(2) == "2" && Decimal(1) == "1" && Decimal(4) == "4";
    assert Decimal(44) == Decimal(4) + "4" == "44";
    assert Field("ws") == "2:ws" && Field("2") == "1:2";
    assert Field(DOMAIN) == "44:" + DOMAIN;
  }

  lemma HandFields()
    ensures Fields(["a", "b"]) == "1:a" + "1:b"
  {
    assert Decimal(1) == "1" && Field("a") == "1:a" && Field("b") == "1:b";
    assert ["a"][..0] == [] && ["a", "b"][..1] == ["a"];
    assert Fields([]) == [];
    assert Fields(["a"]) == [] + Field("a") == "1:a";
  }
}
