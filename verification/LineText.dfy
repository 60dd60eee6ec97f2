// Text as lines: str.splitlines() and "\n".join().
module LineText {
  // The line boundaries str.splitlines() recognises.
  predicate IsBreak(c: char) {
    var u := c as int;
    0x0A <= u <= 0x0D || 0x1C <= u <= 0x1E || u == 0x85 || u == 0x2028 || u == 0x2029
  }

  predicate BreakFree(s: string) {
    forall i :: 0 <= i < |s| ==> !IsBreak(s[i])
  }

  predicate AllBreakFree(lines: seq<string>) {
    forall i :: 0 <= i < |lines| ==> BreakFree(lines[i])
  }

  // Length of the line the text starts with.
  function FirstLine(text: string): (n: nat)
    ensures n <= |text| && BreakFree(text[..n])
    ensures n < |text| ==> IsBreak(text[n])
  {
    if text == "" || IsBreak(text[0]) then 0 else 1 + FirstLine(text[1..])
  }

  // "\r\n" is one boundary.
  function BreakWidth(text: string): (w: nat)
    requires text != ""
    ensures 1 <= w <= |text|
  {
    if |text| >= 2 && text[0] == '\r' && text[1] == '\n' then 2 else 1
  }

  function SplitLines(text: string): (lines: seq<string>)
    ensures AllBreakFree(lines)
    decreases |text|
  {
    if text == "" then []
    else
      var n := FirstLine(text);
      if n == |text| then [text]
      else [text[..n]] + SplitLines(text[n + BreakWidth(text[n..])..])
  }

  function JoinLines(lines: seq<string>): string {
    if lines == [] then ""
    else if |lines| == 1 then lines[0]
    else lines[0] + "\n" + JoinLines(lines[1..])
  }

  predicate EndsWithNewline(text: string) {
    text != "" && text[|text| - 1] == '\n'
  }

  // The lines of a text, with the empty one that a final newline opens.
  function AllLines(text: string): (lines: seq<string>)
    ensures AllBreakFree(lines)
  {
    if EndsWithNewline(text) then SplitLines(text) + [""] else SplitLines(text)
  }

  lemma {:induction false} FirstLineOf(a: string, b: string)
    requires BreakFree(a) && (b == "" || IsBreak(b[0]))
    ensures FirstLine(a + b) == |a|
  {
    if a == "" {
      assert a + b == b;
    } else {
      assert (a + b)[1..] == a[1..] + b;
      FirstLineOf(a[1..], b);
    }
  }

  // A line, a boundary, and the rest.
  lemma SplitAtBreak(head: string, tail: string)
    requires BreakFree(head) && tail != "" && IsBreak(tail[0])
    ensures SplitLines(head + tail) == [head] + SplitLines(tail[BreakWidth(tail)..])
  {
    var text := head + tail;
    FirstLineOf(head, tail);
    assert text[|head|..] == tail && text[..|head|] == head;
    assert text[|head| + BreakWidth(tail)..] == tail[BreakWidth(tail)..];
    hide IsBreak, BreakFree, BreakWidth, FirstLine;
  }

  // The same with a boundary of one character.
  lemma BreakSplit(head: string, c: char, rest: string)
    requires BreakFree(head) && IsBreak(c) && c != '\r'
    ensures SplitLines(head + [c] + rest) == [head] + SplitLines(rest)
  {
    var tail := [c] + rest;
    SplitAtBreak(head, tail);
    assert tail[1..] == rest && head + [c] + rest == head + tail;
  }

  lemma NewlineSplit(head: string, rest: string)
    requires BreakFree(head)
    ensures SplitLines(head + "\n" + rest) == [head] + SplitLines(rest)
  {
    BreakSplit(head, '\n', rest);
  }

  // A line, a newline, and the rest.
  lemma NewlineStep(head: string, rest: string)
    requires BreakFree(head)
    ensures AllLines(head + "\n" + rest) == [head] + if rest == "" then [""] else AllLines(rest)
  {
    NewlineSplit(head, rest);
    LastOfConcat(head + "\n", rest);
  }

  lemma LastOfConcat(a: string, b: string)
    requires EndsWithNewline(a)
    ensures EndsWithNewline(a + b) == (b == "" || EndsWithNewline(b))
  {
    if b == "" { assert a + b == a; }
  }

  lemma OneLine(s: string)
    requires BreakFree(s) && s != ""
    ensures AllLines(s) == [s]
  {
    FirstLineOf(s, "");
    assert s + "" == s;
    assert !IsBreak(s[|s| - 1]);
  }

  // Joining break-free lines and splitting again gives the lines back.
  lemma {:induction false} SplitOfJoin(lines: seq<string>)
    requires |lines| >= 2 && AllBreakFree(lines)
    ensures AllLines(JoinLines(lines)) == lines
  {
    var head, tail := lines[0], lines[1..];
    NewlineStep(head, JoinLines(tail));
    if |lines| == 2 {
      if lines[1] != "" { OneLine(lines[1]); }
    } else {
      SplitOfJoin(tail);
      assert JoinLines(tail) != "" by { assert JoinLines(tail) == tail[0] + "\n" + JoinLines(tail[1..]); }
    }
  }

  predicate OnlyNewlines(text: string) {
    forall i :: 0 <= i < |text| && IsBreak(text[i]) ==> text[i] == '\n'
  }

  lemma OnlyNewlinesParts(a: string, b: string)
    ensures OnlyNewlines(a + b) <==> OnlyNewlines(a) && OnlyNewlines(b)
  {
    var t := a + b;
    assert forall i :: 0 <= i < |a| ==> a[i] == t[i];
    assert forall i :: 0 <= i < |b| ==> b[i] == t[|a| + i];
  }

  // A line, any boundary, and the rest.
  lemma BreakStep(text: string, n: nat, w: nat)
    requires n == FirstLine(text) < |text| && w == BreakWidth(text[n..])
    ensures n + w <= |text| && BreakFree(text[..n])
    ensures var rest := text[n + w..];
            rest != "" ==> AllLines(text) == [text[..n]] + AllLines(rest)
    ensures n + w == |text| ==> AllLines(text) == [text[..n]] + if text[|text| - 1] == '\n' then [""] else []
  {
    var line, rest := text[..n], text[n + w..];
    var more := SplitLines(rest);
    assert SplitLines(text) == [line] + more;
    if rest != "" {
      assert EndsWithNewline(text) == EndsWithNewline(rest);
      assert [line] + more + [""] == [line] + (more + [""]);
    }
  }

  lemma NewlineFirst(text: string, n: nat, rest: string)
    requires n < |text| && BreakFree(text[..n]) && text[n] == '\n' && rest == text[n + 1..]
    ensures text == text[..n] + "\n" + rest
    ensures OnlyNewlines(text) <==> OnlyNewlines(rest)
  {
    assert text == text[..n] + "\n" + rest;
    OnlyNewlinesParts(text[..n] + "\n", rest);
    OnlyNewlinesParts(text[..n], "\n");
  }

  lemma NotOnlyNewlines(text: string, n: nat, back: string)
    requires n < |text| && IsBreak(text[n]) && text[n] != '\n'
    ensures !OnlyNewlines(text) && text[..n] + "\n" + back != text
  {
    assert (text[..n] + "\n" + back)[n] == '\n';
  }

  // Splitting and joining gives the text back exactly when '\n' is its only line boundary.
  lemma {:induction false} JoinOfSplitIff(text: string)
    ensures JoinLines(AllLines(text)) == text <==> OnlyNewlines(text)
    decreases |text|
  {
    var n := FirstLine(text);
    if text == "" {
    } else if n == |text| {
      assert text[..n] == text;
      OneLine(text);
    } else {
      var w := BreakWidth(text[n..]);
      BreakStep(text, n, w);
      if n + w == |text| {
        LastBreakIff(text, n, w);
      } else {
        JoinOfSplitIff(text[n + w..]);
        InnerBreakIff(text, n, w);
      }
    }
  }

  // The text is one line and its boundary.
  lemma LastBreakIff(text: string, n: nat, w: nat)
    requires n == FirstLine(text) < |text| && w == BreakWidth(text[n..]) && n + w == |text|
    ensures JoinLines(AllLines(text)) == text <==> OnlyNewlines(text)
  {
    if text[n] == '\n' {
      NewlineFirst(text, n, "");
      BreakStep(text, n, w);
    } else {
      LastBreakLost(text, n, w);
    }
  }

  // The text is one line, its boundary, and more text.
  lemma InnerBreakIff(text: string, n: nat, w: nat)
    requires n == FirstLine(text) < |text| && w == BreakWidth(text[n..]) && n + w < |text|
    requires JoinLines(AllLines(text[n + w..])) == text[n + w..] <==> OnlyNewlines(text[n + w..])
    ensures JoinLines(AllLines(text)) == text <==> OnlyNewlines(text)
  {
    InnerJoin(text, n, w);
    HeadAndBack(text, n, w, JoinLines(AllLines(text[n + w..])));
  }

  lemma InnerJoin(text: string, n: nat, w: nat)
    requires n == FirstLine(text) < |text| && w == BreakWidth(text[n..]) && n + w < |text|
    ensures JoinLines(AllLines(text)) == text[..n] + "\n" + JoinLines(AllLines(text[n + w..]))
  {
    BreakStep(text, n, w);
    JoinStep(text, n, text[n + w..]);
  }

  lemma HeadAndBack(text: string, n: nat, w: nat, back: string)
    requires n < |text| && BreakFree(text[..n]) && IsBreak(text[n]) && n + w <= |text| && (text[n] == '\n' ==> w == 1)
    ensures text[..n] + "\n" + back == text <==> text[n] == '\n' && back == text[n + w..]
    ensures OnlyNewlines(text) <==> text[n] == '\n' && OnlyNewlines(text[n + w..])
  {
    if text[n] == '\n' {
      NewlineFirst(text, n, text[n + w..]);
      SameTail(text[..n] + "\n", back, text[n + w..]);
    } else {
      NotOnlyNewlines(text, n, back);
    }
  }

  lemma SameTail(a: string, b: string, c: string)
    ensures a + b == a + c <==> b == c
  {
    assert (a + b)[|a|..] == b && (a + c)[|a|..] == c;
  }

  lemma JoinStep(text: string, n: nat, rest: string)
    requires n <= |text| && rest != "" && AllLines(text) == [text[..n]] + AllLines(rest)
    ensures JoinLines(AllLines(text)) == text[..n] + "\n" + JoinLines(AllLines(rest))
  {
    assert AllLines(rest) != [];
    assert AllLines(text)[1..] == AllLines(rest);
  }

  lemma LastBreakLost(text: string, n: nat, w: nat)
    requires n == FirstLine(text) < |text| && w == BreakWidth(text[n..]) && n + w == |text| && text[n] != '\n'
    ensures !OnlyNewlines(text) && JoinLines(AllLines(text)) != text
  {
    BreakStep(text, n, w);
    if w == 2 {
      NotOnlyNewlines(text, n, "");
      assert JoinLines([text[..n], ""]) == text[..n] + "\n" + "";
    }
  }

  // ---------------------------------------------------------------------------
  // Reading a text file
  // ---------------------------------------------------------------------------

  // Universal newlines: "\r\n" and "\r" are read as "\n".
  function ReadText(stored: string): string
    decreases |stored|
  {
    if stored == "" then ""
    else if stored[0] == '\r' then "\n" + ReadText(stored[BreakWidth(stored)..])
    else [stored[0]] + ReadText(stored[1..])
  }

  // The only line boundaries are "\n", "\r\n" and "\r".
  predicate OnlyUniversal(stored: string) {
    forall i :: 0 <= i < |stored| && IsBreak(stored[i]) ==> stored[i] in {'\n', '\r'}
  }

  lemma UniversalStep(stored: string, w: nat)
    requires 1 <= w <= |stored| && forall i :: 0 <= i < w ==> stored[i] in {'\n', '\r'}
    ensures OnlyUniversal(stored) <==> OnlyUniversal(stored[w..])
  {
    assert forall i :: 0 <= i < |stored| - w ==> stored[w..][i] == stored[w + i];
    assert forall i :: w <= i < |stored| ==> stored[i] == stored[w..][i - w];
  }

  lemma UniversalChar(stored: string)
    requires stored != "" && stored[0] !in {'\n', '\r'}
    ensures OnlyUniversal(stored) <==> !IsBreak(stored[0]) && OnlyUniversal(stored[1..])
  {
    assert forall i :: 0 <= i < |stored| - 1 ==> stored[1..][i] == stored[1 + i];
    assert forall i :: 1 <= i < |stored| ==> stored[i] == stored[1..][i - 1];
  }

  lemma NewlinesOfChar(c: char, rest: string)
    ensures OnlyNewlines([c] + rest) <==> (IsBreak(c) ==> c == '\n') && OnlyNewlines(rest)
  {
    OnlyNewlinesParts([c], rest);
    assert [c][0] == c;
    assert OnlyNewlines([c]) <==> (IsBreak(c) ==> c == '\n');
  }

  // What is read has newline as its only boundary exactly if the file has no other than those
  // three.
  lemma {:induction false} ReadIsOnlyNewlinesIff(stored: string)
    ensures OnlyNewlines(ReadText(stored)) <==> OnlyUniversal(stored)
    decreases |stored|
  {
    if stored != "" {
      var w := if stored[0] == '\r' then BreakWidth(stored) else 1;
      ReadIsOnlyNewlinesIff(stored[w..]);
      if stored[0] in {'\n', '\r'} {
        UniversalStep(stored, w);
        NewlinesOfChar('\n', ReadText(stored[w..]));
      } else {
        UniversalChar(stored);
        NewlinesOfChar(stored[0], ReadText(stored[1..]));
      }
    }
  }

  // A file whose only boundary is newline is read as it is.
  lemma {:induction false} ReadOfNewlines(stored: string)
    requires OnlyNewlines(stored)
    ensures ReadText(stored) == stored
    decreases |stored|
  {
    if stored != "" {
      assert stored == [stored[0]] + stored[1..];
      NewlinesOfChar(stored[0], stored[1..]);
      ReadOfNewlines(stored[1..]);
    }
  }

  lemma {:induction false} ReadHead(head: string, rest: string)
    requires BreakFree(head)
    ensures ReadText(head + rest) == head + ReadText(rest)
  {
    if head == "" {
      assert head + rest == rest;
    } else {
      assert (head + rest)[1..] == head[1..] + rest && head == [head[0]] + head[1..];
      ReadHead(head[1..], rest);
    }
  }

  lemma ReadAtBreak(tail: string)
    requires tail != "" && IsBreak(tail[0])
    ensures ReadText(tail) == [if tail[0] == '\r' then '\n' else tail[0]] + ReadText(tail[BreakWidth(tail)..])
  {
  }

  lemma ReadStepKeepsLines(head: string, tail: string)
    requires BreakFree(head) && tail != "" && IsBreak(tail[0])
    requires SplitLines(ReadText(tail[BreakWidth(tail)..])) == SplitLines(tail[BreakWidth(tail)..])
    ensures SplitLines(ReadText(head + tail)) == SplitLines(head + tail)
  {
    var c := if tail[0] == '\r' then '\n' else tail[0];
    var read := ReadText(tail[BreakWidth(tail)..]);
    ReadHead(head, tail);
    SplitAtBreak(head, tail);
    ReadAtBreak(tail);
    BreakSplit(head, c, read);
    hide *;
    assert head + [c] + read == head + ([c] + read);
  }

  // Reading changes no line.
  lemma {:induction false} ReadKeepsLines(stored: string)
    ensures SplitLines(ReadText(stored)) == SplitLines(stored)
    decreases |stored|
  {
    hide *;
    var n := FirstLine(stored);
    var head, tail := stored[..n], stored[n..];
    assert stored == head + tail;
    if tail == "" {
      ReadHead(head, "");
      assert head + "" == head;
      EmptyRead();
    } else {
      ReadKeepsLines(tail[BreakWidth(tail)..]);
      ReadStepKeepsLines(head, tail);
    }
  }

  lemma EmptyRead()
    ensures ReadText("") == ""
  {
  }

  // Lines joined have no other boundary.
  lemma {:induction false} JoinIsOnlyNewlines(lines: seq<string>)
    requires AllBreakFree(lines)
    ensures OnlyNewlines(JoinLines(lines))
  {
    if |lines| > 1 {
      JoinIsOnlyNewlines(lines[1..]);
      OnlyNewlinesParts(lines[0], "\n");
      OnlyNewlinesParts(lines[0] + "\n", JoinLines(lines[1..]));
    }
  }
}
