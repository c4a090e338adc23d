/** Byte-wise string order, and the ordered sets and maps that iterate in it. */
module Order {

  predicate Less(a: string, b: string) {
    if b == [] then false
    else if a == [] then true
    else a[0] < b[0] || (a[0] == b[0] && Less(a[1..], b[1..]))
  }

  lemma {:induction false} LessIrreflexive(a: string)
    ensures !Less(a, a)
  {
    if a != [] { LessIrreflexive(a[1..]); }
  }

  lemma {:induction false} LessTransitive(a: string, b: string, c: string)
    requires Less(a, b) && Less(b, c)
    ensures Less(a, c)
  {
    if a != [] && a[0] == b[0] && b[0] == c[0] { LessTransitive(a[1..], b[1..], c[1..]); }
  }

  lemma {:induction false} LessTotal(a: string, b: string)
    ensures a == b || Less(a, b) || Less(b, a)
  {
    if a != [] && b != [] && a[0] == b[0] {
      LessTotal(a[1..], b[1..]);
      assert a == [a[0]] + a[1..] && b == [b[0]] + b[1..];
    }
  }

  predicate Sorted(xs: seq<string>) {
    forall i, j :: 0 <= i < j < |xs| ==> Less(xs[i], xs[j])
  }

  function Elements(xs: seq<string>): set<string> { set x | x in xs }

  /** Ordered insertion; a present key stays where it is. */
  function Insert(xs: seq<string>, k: string): (r: seq<string>)
    requires Sorted(xs)
    ensures Sorted(r) && Elements(r) == Elements(xs) + {k}
  {
    if xs == [] then [k]
    else if k == xs[0] then xs
    else if Less(k, xs[0]) then
      assert forall j :: 0 < j < |xs| ==> Less(k, xs[j]) by {
        forall j | 0 < j < |xs| ensures Less(k, xs[j]) { LessTransitive(k, xs[0], xs[j]); }
      }
      [k] + xs
    else
      LessTotal(k, xs[0]);
      var rest := Insert(xs[1..], k);
      assert forall j :: 0 <= j < |rest| ==> Less(xs[0], rest[j]) by {
        forall j | 0 <= j < |rest| ensures Less(xs[0], rest[j]) {
          assert rest[j] in Elements(rest);
          assert rest[j] == k || rest[j] in xs[1..];
        }
      }
      assert Elements(xs) == {xs[0]} + Elements(xs[1..]);
      assert Elements([xs[0]] + rest) == {xs[0]} + Elements(rest);
      [xs[0]] + rest
  }

  /** A set has one sorted enumeration. */
  lemma {:induction false} SortedUnique(a: seq<string>, b: seq<string>)
    requires Sorted(a) && Sorted(b) && Elements(a) == Elements(b)
    ensures a == b
  {
    assert b != [] ==> b[0] in Elements(b);
    if a != [] {
      assert a[0] in Elements(a) && a[0] in Elements(b);
      assert b[0] in Elements(a);
      var i :| 0 <= i < |b| && b[i] == a[0];
      var j :| 0 <= j < |a| && a[j] == b[0];
      if i != 0 && j != 0 {
        LessTransitive(a[0], b[0], a[0]);
        LessIrreflexive(a[0]);
      }
      assert a[0] == b[0];
      forall x ensures x in Elements(a[1..]) <==> x in Elements(b[1..]) {
        TailElements(a, x);
        TailElements(b, x);
      }
      SortedUnique(a[1..], b[1..]);
      assert a == [a[0]] + a[1..] && b == [b[0]] + b[1..];
    }
  }

  lemma TailElements(a: seq<string>, x: string)
    requires Sorted(a) && a != []
    ensures x in Elements(a[1..]) <==> x in Elements(a) && x != a[0]
  {
    LessIrreflexive(a[0]);
    assert a == [a[0]] + a[1..];
  }

  /** The sorted enumeration of the elements of a list. */
  function SortedSet(xs: seq<string>): (r: seq<string>)
    ensures Sorted(r) && Elements(r) == Elements(xs)
  {
    if xs == [] then []
    else
      assert Elements(xs) == Elements(xs[..|xs| - 1]) + {xs[|xs| - 1]} by {
        assert xs == xs[..|xs| - 1] + [xs[|xs| - 1]];
      }
      Insert(SortedSet(xs[..|xs| - 1]), xs[|xs| - 1])
  }

  ghost predicate AllDistinct<T>(xs: seq<T>) {
    forall i, j :: 0 <= i < j < |xs| ==> xs[i] != xs[j]
  }

  /** The order is the one of dictionaries: a text comes before its own continuations, and otherwise the
      first differing character decides. */
  lemma {:induction false} DictionaryOrder(common: string, c: char, x: string, d: char, y: string)
    ensures Less(common, common + [c] + x)
    ensures c < d ==> Less(common + [c] + x, common + [d] + y)
  {
    var a, b := common + [c] + x, common + [d] + y;
    if common != [] {
      DictionaryOrder(common[1..], c, x, d, y);
      assert a[1..] == common[1..] + [c] + x && b[1..] == common[1..] + [d] + y;
    }
  }
}
