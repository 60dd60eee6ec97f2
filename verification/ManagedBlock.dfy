// A generated block kept between two markers in a list of lines, inserted in front of an
// anchor line on the first splice and replaced on every later one.
module ManagedBlock {
  import opened Common

  datatype Markers<T(==)> = Markers(begin: T, end: T, anchor: T) {
    predicate Distinct() { begin != end && begin != anchor && end != anchor }
  }

  // lines.index(x), or |lines| when absent.
  function IndexOf<T(==)>(lines: seq<T>, x: T): (i: nat)
    ensures i <= |lines|
    ensures i < |lines| ==> lines[i] == x
    ensures forall j :: 0 <= j < i ==> lines[j] != x
    ensures i == |lines| <==> x !in lines
  {
    if lines == [] || lines[0] == x then 0 else 1 + IndexOf(lines[1..], x)
  }

  function CountOf<T(==)>(lines: seq<T>, x: T): nat { multiset(lines)[x] }

  datatype AnchorCheck = Accepted | PartialMarkers | MarkersOutOfOrder | AnchorMiscount(found: nat)

  predicate Marked<T(==)>(m: Markers<T>, lines: seq<T>) { m.begin in lines && m.end in lines }

  // The checks in the order they are made.
  function CheckLines<T(==)>(m: Markers<T>, lines: seq<T>): AnchorCheck {
    if (m.begin in lines) != (m.end in lines) then PartialMarkers
    else if Marked(m, lines) && IndexOf(lines, m.begin) >= IndexOf(lines, m.end) then MarkersOutOfOrder
    else if CountOf(lines, m.anchor) != 1 then AnchorMiscount(CountOf(lines, m.anchor))
    else Accepted
  }

  function Block<T>(m: Markers<T>, fragment: seq<T>): seq<T> { [m.begin] + fragment + [m.end] }

  // None stands for the ValueError of an absent anchor.
  function SpliceLines<T(==)>(m: Markers<T>, lines: seq<T>, fragment: seq<T>): Option<seq<T>> {
    var block := Block(m, fragment);
    if Marked(m, lines) then
      Some(lines[..IndexOf(lines, m.begin)] + block + lines[IndexOf(lines, m.end) + 1..])
    else if m.anchor in lines then
      var i := IndexOf(lines, m.anchor);
      Some(lines[..i] + block + lines[i..])
    else None
  }

  predicate Valid<T(==)>(m: Markers<T>, lines: seq<T>) { CheckLines(m, lines) == Accepted }

  // A fragment that cannot be mistaken for the block's own delimiters or the anchor.
  predicate Clean<T(==)>(m: Markers<T>, fragment: seq<T>) {
    m.begin !in fragment && m.end !in fragment && m.anchor !in fragment
  }

  // Everything the block does not own, in order.
  function Outside<T(==)>(m: Markers<T>, lines: seq<T>): seq<T>
    requires Valid(m, lines)
  {
    if Marked(m, lines)
    then lines[..IndexOf(lines, m.begin)] + lines[IndexOf(lines, m.end) + 1..]
    else lines
  }

  // What the block holds between its markers.
  function Managed<T(==)>(m: Markers<T>, lines: seq<T>): seq<T>
    requires Valid(m, lines) && Marked(m, lines)
  {
    lines[IndexOf(lines, m.begin) + 1..IndexOf(lines, m.end)]
  }

  predicate AnchorInside<T(==)>(m: Markers<T>, lines: seq<T>) {
    Valid(m, lines) && Marked(m, lines) && m.anchor in Managed(m, lines)
  }

  lemma {:induction false} IndexOfConcat<T>(a: seq<T>, b: seq<T>, x: T)
    ensures IndexOf(a + b, x) == if x in a then IndexOf(a, x) else |a| + IndexOf(b, x)
  {
    if a == [] {
      assert a + b == b;
    } else {
      assert (a + b)[1..] == a[1..] + b;
      if a[0] != x { IndexOfConcat(a[1..], b, x); }
    }
  }

  // The parts a valid list splits into around the block (the anchor starts the second part
  // while there is no block yet).
  function Before<T(==)>(m: Markers<T>, lines: seq<T>): seq<T> {
    lines[..IndexOf(lines, if Marked(m, lines) then m.begin else m.anchor)]
  }

  function After<T(==)>(m: Markers<T>, lines: seq<T>): seq<T>
    requires Valid(m, lines)
  {
    if Marked(m, lines) then lines[IndexOf(lines, m.end) + 1..] else lines[IndexOf(lines, m.anchor)..]
  }

  function Assembled<T>(m: Markers<T>, before: seq<T>, fragment: seq<T>, after: seq<T>): seq<T> {
    before + Block(m, fragment) + after
  }

  lemma ValidParts<T>(m: Markers<T>, lines: seq<T>)
    requires Valid(m, lines)
    ensures m.anchor in lines
    ensures m.begin !in Before(m, lines) && m.end !in Before(m, lines)
    ensures Outside(m, lines) == Before(m, lines) + After(m, lines)
    ensures Marked(m, lines) ==> lines == Assembled(m, Before(m, lines), Managed(m, lines), After(m, lines))
  {
    assert multiset(lines)[m.anchor] == 1;
    if Marked(m, lines) {
      var b, e := IndexOf(lines, m.begin), IndexOf(lines, m.end);
      assert lines == lines[..b] + ([lines[b]] + lines[b + 1..e] + [lines[e]]) + lines[e + 1..];
    }
  }

  lemma SpliceIsAssembled<T>(m: Markers<T>, lines: seq<T>, fragment: seq<T>)
    requires Valid(m, lines)
    ensures SpliceLines(m, lines, fragment) == Some(Assembled(m, Before(m, lines), fragment, After(m, lines)))
  {
    assert multiset(lines)[m.anchor] == 1;
  }

  lemma AssembledSlices<T>(m: Markers<T>, before: seq<T>, fragment: seq<T>, after: seq<T>)
    ensures var lines := Assembled(m, before, fragment, after);
            var e := |before| + 1 + |fragment|;
            && e < |lines|
            && lines[..|before|] == before && lines[|before| + 1..e] == fragment && lines[e + 1..] == after
  {
  }

  lemma AssembledAsSuffix<T>(m: Markers<T>, before: seq<T>, fragment: seq<T>, after: seq<T>)
    ensures Assembled(m, before, fragment, after) == before + ([m.begin] + (fragment + ([m.end] + after)))
  {
  }

  lemma SkipPrefix<T>(a: seq<T>, b: seq<T>, x: T)
    requires x !in a
    ensures IndexOf(a + b, x) == |a| + IndexOf(b, x)
  {
    IndexOfConcat(a, b, x);
  }

  lemma HeadIndex<T>(x: T, rest: seq<T>)
    ensures IndexOf([x] + rest, x) == 0
  {
  }

  lemma AssembledIndices<T>(m: Markers<T>, before: seq<T>, fragment: seq<T>, after: seq<T>)
    requires m.Distinct() && m.begin !in before && m.end !in before && m.end !in fragment
    ensures var lines := Assembled(m, before, fragment, after);
            && Marked(m, lines)
            && IndexOf(lines, m.begin) == |before| && IndexOf(lines, m.end) == |before| + 1 + |fragment|
  {
    AssembledAsSuffix(m, before, fragment, after);
    var fromEnd := [m.end] + after;
    var afterBegin := fragment + fromEnd;
    SkipPrefix(before, [m.begin] + afterBegin, m.begin);
    HeadIndex(m.begin, afterBegin);
    SkipPrefix(before, [m.begin] + afterBegin, m.end);
    SkipPrefix([m.begin], afterBegin, m.end);
    SkipPrefix(fragment, fromEnd, m.end);
    HeadIndex(m.end, after);
  }

  // Where the block of an assembled list sits, and what is around it.
  lemma AssembledParts<T>(m: Markers<T>, before: seq<T>, fragment: seq<T>, after: seq<T>)
    requires m.Distinct() && m.begin !in before && m.end !in before && m.end !in fragment
    ensures var lines := Assembled(m, before, fragment, after);
            && Marked(m, lines)
            && IndexOf(lines, m.begin) == |before| && IndexOf(lines, m.end) == |before| + 1 + |fragment|
            && lines[..|before|] == before && lines[|before| + 1..|before| + 1 + |fragment|] == fragment
            && lines[|before| + 1 + |fragment| + 1..] == after
  {
    AssembledSlices(m, before, fragment, after);
    AssembledIndices(m, before, fragment, after);
  }

  lemma AssembledCount<T>(m: Markers<T>, before: seq<T>, middle: seq<T>, after: seq<T>)
    requires m.Distinct()
    ensures CountOf(Assembled(m, before, middle, after), m.anchor) ==
            CountOf(before, m.anchor) + CountOf(middle, m.anchor) + CountOf(after, m.anchor)
  {
    assert multiset(Assembled(m, before, middle, after)) ==
           multiset(before) + (multiset{m.begin} + multiset(middle) + multiset{m.end}) + multiset(after);
  }

  // The check does not look where the anchor is: the result of a splice is valid exactly when
  // the anchor was not inside the block.
  lemma SpliceValidIff<T>(m: Markers<T>, lines: seq<T>, fragment: seq<T>)
    requires m.Distinct() && Valid(m, lines) && Clean(m, fragment)
    ensures SpliceLines(m, lines, fragment).Some?
    ensures Valid(m, SpliceLines(m, lines, fragment).value) <==> !AnchorInside(m, lines)
  {
    ValidParts(m, lines);
    SpliceIsAssembled(m, lines, fragment);
    var before, after := Before(m, lines), After(m, lines);
    AssembledParts(m, before, fragment, after);
    AssembledCount(m, before, fragment, after);
    if Marked(m, lines) {
      AssembledCount(m, before, Managed(m, lines), after);
    } else {
      assert lines == before + after;
    }
  }

  // One splice moves nothing outside the block and puts exactly the fragment inside it.
  lemma SpliceKeepsOutside<T>(m: Markers<T>, lines: seq<T>, fragment: seq<T>)
    requires m.Distinct() && Valid(m, lines) && Clean(m, fragment) && !AnchorInside(m, lines)
    ensures SpliceLines(m, lines, fragment).Some?
    ensures var out := SpliceLines(m, lines, fragment).value;
            Valid(m, out) && Marked(m, out) && !AnchorInside(m, out)
            && Outside(m, out) == Outside(m, lines) && Managed(m, out) == fragment
  {
    SpliceValidIff(m, lines, fragment);
    SpliceIsAssembled(m, lines, fragment);
    assert m.begin !in Before(m, lines) && m.end !in Before(m, lines)
      && Outside(m, lines) == Before(m, lines) + After(m, lines) by { ValidParts(m, lines); }
    OutsideOfAssembled(m, Before(m, lines), fragment, After(m, lines));
  }

  lemma OutsideOfAssembled<T>(m: Markers<T>, before: seq<T>, fragment: seq<T>, after: seq<T>)
    requires m.Distinct() && m.begin !in before && m.end !in before && m.end !in fragment
    requires Valid(m, Assembled(m, before, fragment, after))
    ensures Marked(m, Assembled(m, before, fragment, after))
    ensures Outside(m, Assembled(m, before, fragment, after)) == before + after
    ensures Managed(m, Assembled(m, before, fragment, after)) == fragment
  {
    AssembledParts(m, before, fragment, after);
  }

  // A later splice erases an earlier one; with equal fragments this is idempotence.
  lemma SpliceAbsorbs<T>(m: Markers<T>, lines: seq<T>, f: seq<T>, g: seq<T>)
    requires m.Distinct() && Valid(m, lines) && Clean(m, f)
    ensures SpliceLines(m, lines, f).Some?
    ensures SpliceLines(m, SpliceLines(m, lines, f).value, g) == SpliceLines(m, lines, g)
  {
    ValidParts(m, lines);
    SpliceIsAssembled(m, lines, f);
    SpliceIsAssembled(m, lines, g);
    AssembledParts(m, Before(m, lines), f, After(m, lines));
  }

  // The first splice puts the end marker right before the anchor.
  lemma FirstSpliceEndsAtAnchor<T>(m: Markers<T>, lines: seq<T>, fragment: seq<T>)
    requires m.Distinct() && Valid(m, lines) && !Marked(m, lines) && Clean(m, fragment)
    ensures SpliceLines(m, lines, fragment).Some?
    ensures var out := SpliceLines(m, lines, fragment).value;
            IndexOf(out, m.anchor) == IndexOf(out, m.end) + 1
  {
    ValidParts(m, lines);
    SpliceIsAssembled(m, lines, fragment);
    var before, after := Before(m, lines), After(m, lines);
    AssembledParts(m, before, fragment, after);
    var ahead := before + Block(m, fragment);
    assert m.anchor !in before;
    IndexOfConcat(ahead, after, m.anchor);
  }

  // A trailing element that is no marker stays where it is.
  lemma SpliceKeepsTail<T>(m: Markers<T>, lines: seq<T>, x: T, fragment: seq<T>)
    requires x != m.begin && x != m.end && x != m.anchor
    ensures CheckLines(m, lines + [x]) == CheckLines(m, lines)
    ensures SpliceLines(m, lines + [x], fragment) ==
            match SpliceLines(m, lines, fragment) { case None => None case Some(out) => Some(out + [x]) }
  {
    var more := lines + [x];
    IndexOfConcat(lines, [x], m.begin);
    IndexOfConcat(lines, [x], m.end);
    IndexOfConcat(lines, [x], m.anchor);
    assert multiset(more) == multiset(lines) + multiset{x};
    var block := Block(m, fragment);
    if Marked(m, lines) {
      TailAssoc(lines, x, IndexOf(lines, m.begin), block, IndexOf(lines, m.end) + 1);
    } else if m.anchor in lines {
      TailAssoc(lines, x, IndexOf(lines, m.anchor), block, IndexOf(lines, m.anchor));
    }
  }

  lemma TailAssoc<T>(lines: seq<T>, x: T, i: nat, block: seq<T>, j: nat)
    requires i <= |lines| && j <= |lines|
    ensures (lines + [x])[..i] + block + (lines + [x])[j..] == lines[..i] + block + lines[j..] + [x]
  {
    assert (lines + [x])[..i] == lines[..i] && (lines + [x])[j..] == lines[j..] + [x];
  }
}
