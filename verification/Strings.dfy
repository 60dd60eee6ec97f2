// The code-point order on strings and sorted lists of them.
module Strings {

  predicate Less(a: string, b: string) {
    b != "" && (a == "" || a[0] < b[0] || (a[0] == b[0] && Less(a[1..], b[1..])))
  }

  lemma {:induction false} LessTrichotomy(a: string, b: string)
    ensures a == b || Less(a, b) || Less(b, a)
    ensures !(Less(a, b) && Less(b, a))
    ensures !Less(a, a)
  {
    if a != "" && b != "" && a[0] == b[0] {
      LessTrichotomy(a[1..], b[1..]);
      assert a == [a[0]] + a[1..] && b == [b[0]] + b[1..];
    }
    if a != "" { LessTrichotomy(a[1..], a[1..]); }
  }

  lemma {:induction false} LessTransitive(a: string, b: string, c: string)
    requires Less(a, b) && Less(b, c)
    ensures Less(a, c)
  {
    if a != "" && a[0] == b[0] == c[0] {
      LessTransitive(a[1..], b[1..], c[1..]);
    }
  }

  // Strictly increasing, hence without duplicates.
  predicate Increasing(s: seq<string>) {
    forall i, j :: 0 <= i < j < |s| ==> Less(s[i], s[j])
  }

  // Insert x unless it is there.
  function Insert(s: seq<string>, x: string): (r: seq<string>)
    requires Increasing(s)
    ensures Increasing(r)
    ensures forall y :: y in r <==> y in s || y == x
  {
    if s == [] then [x]
    else if s[0] == x then s
    else if Less(x, s[0]) then
      assert forall j :: 0 <= j < |s| ==> Less(x, s[j]) by {
        forall j | 0 < j < |s| ensures Less(x, s[j]) { LessTransitive(x, s[0], s[j]); }
      }
      [x] + s
    else
      LessTrichotomy(x, s[0]);
      assert s == [s[0]] + s[1..];
      var rest := Insert(s[1..], x);
      assert forall j :: 0 <= j < |rest| ==> rest[j] in rest && Less(s[0], rest[j]);
      [s[0]] + rest
  }

  // sorted(set(s))
  function SortedSet(s: seq<string>): (r: seq<string>)
    ensures Increasing(r)
    ensures forall x :: x in r <==> x in s
  {
    if s == [] then []
    else
      assert forall x :: x in s <==> x in s[..|s| - 1] || x == s[|s| - 1];
      Insert(SortedSet(s[..|s| - 1]), s[|s| - 1])
  }
}
