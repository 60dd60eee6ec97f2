// Markdown-aware truncation of dashboard one-liners.
module MarkdownTruncate {
  import opened Common

  // ---------------------------------------------------------------------------
  // The string operations the truncation uses
  // ---------------------------------------------------------------------------

  // The characters str.rstrip() removes.
  predicate IsSpace(c: char) {
    var u := c as int;
    || 0x09 <= u <= 0x0D || 0x1C <= u <= 0x20 || u == 0x85 || u == 0xA0 || u == 0x1680
    || 0x2000 <= u <= 0x200A || u == 0x2028 || u == 0x2029 || u == 0x202F || u == 0x205F || u == 0x3000
  }

  function RStrip(s: string): (r: string)
    ensures r <= s
    ensures r != "" ==> !IsSpace(r[|r| - 1])
    ensures forall i :: |r| <= i < |s| ==> IsSpace(s[i])
  {
    if s != "" && IsSpace(s[|s| - 1]) then RStrip(s[..|s| - 1]) else s
  }

  // s.rfind(c): the last position of c, or -1.
  function RFindChar(s: string, c: char): (i: int)
    ensures -1 <= i < |s|
    ensures i >= 0 ==> s[i] == c
    ensures forall j :: i < j < |s| ==> s[j] != c
  {
    if s == "" then -1
    else if s[|s| - 1] == c then |s| - 1
    else RFindChar(s[..|s| - 1], c)
  }

  // A full stop, exclamation or question mark followed by a blank, at position i.
  predicate SentenceEndAt(s: string, i: int) {
    0 <= i && i + 1 < |s| && s[i] in {'.', '!', '?'} && s[i + 1] == ' '
  }

  // max(s.rfind(". ", start), s.rfind("! ", start), s.rfind("? ", start)).
  function RFindSentenceEnd(s: string, start: nat): (i: int)
    ensures i == -1 || (start <= i && SentenceEndAt(s, i))
    ensures forall j :: Max(i + 1, start) <= j ==> !SentenceEndAt(s, j)
  {
    if |s| < start + 2 then -1
    else if SentenceEndAt(s, |s| - 2) then |s| - 2
    else
      var i := RFindSentenceEnd(s[..|s| - 1], start);
      assert forall j :: SentenceEndAt(s, j) ==> j == |s| - 2 || SentenceEndAt(s[..|s| - 1], j);
      i
  }

  // text[:k], with a negative k counted from the end.
  function PrefixSlice(s: string, k: int): (r: string)
    ensures r <= s
    ensures 0 <= k ==> |r| == Min(k, |s|)
  {
    if k >= 0 then s[..Min(k, |s|)] else s[..Max(0, |s| + k)]
  }

  // ---------------------------------------------------------------------------
  // What the result must be
  // ---------------------------------------------------------------------------

  function Occurrences(s: string, c: char): nat { multiset(s)[c] }

  predicate Balanced(s: string) {
    && Occurrences(s, '[') == Occurrences(s, ']')
    && Occurrences(s, '(') == Occurrences(s, ')')
    && Occurrences(s, '`') % 2 == 0
  }

  // The prefix that dropping everything from the blank at p leaves.
  predicate BlankAt(s: string, p: int) {
    0 < p < |s| && s[p] == ' '
  }

  // r is the longest balanced blank-delimited prefix of s (s itself if it is balanced, and
  // the empty string if there is none).
  ghost predicate LongestBalancedPrefix(s: string, r: string) {
    && Balanced(r)
    && (Balanced(s) ==> r == s)
    && (!Balanced(s) ==>
          && (r == "" || exists p :: BlankAt(s, p) && r == RStrip(s[..p]))
          && forall p :: BlankAt(s, p) && Balanced(RStrip(s[..p])) ==> |RStrip(s[..p])| <= |r|)
  }

  lemma LongestBalancedPrefixUnique(s: string, r: string, r': string)
    requires LongestBalancedPrefix(s, r) && LongestBalancedPrefix(s, r')
    ensures r == r'
  {
    assert r <= s && r' <= s;
    if !Balanced(s) {
      assert |r| <= |r'| && |r'| <= |r| by {
        if r != "" { var p :| BlankAt(s, p) && r == RStrip(s[..p]); }
        if r' != "" { var p :| BlankAt(s, p) && r' == RStrip(s[..p]); }
      }
    }
  }

  const SENTENCE_WINDOW := 50

  // The cut point: the last sentence end inside the last 50 characters, else the last blank
  // that leaves something, else none.
  ghost predicate IsCut(c: string, cut: string) {
    var from := Max(0, |c| - SENTENCE_WINDOW);
    if exists i :: i >= from && SentenceEndAt(c, i) then
      exists i :: i >= from && SentenceEndAt(c, i) && cut == c[..i + 1] && forall j :: SentenceEndAt(c, j) ==> j <= i
    else if exists p :: BlankAt(c, p) then
      exists p :: BlankAt(c, p) && cut == c[..p] && forall q :: BlankAt(c, q) ==> q <= p
    else
      cut == c
  }

  ghost predicate Truncation(text: string, maxLen: int, r: string) {
    if |text| <= maxLen then r == text
    else exists cut, kept ::
      IsCut(PrefixSlice(text, maxLen - 1), cut) && LongestBalancedPrefix(cut, kept) && r == RStrip(kept) + "\U{2026}"
  }

  lemma IsCutUnique(c: string, cut: string, cut': string)
    requires IsCut(c, cut) && IsCut(c, cut')
    ensures cut == cut'
  {
    var from := Max(0, |c| - SENTENCE_WINDOW);
    if exists i :: i >= from && SentenceEndAt(c, i) {
      var i :| i >= from && SentenceEndAt(c, i) && cut == c[..i + 1] && forall j :: SentenceEndAt(c, j) ==> j <= i;
      var i' :| i' >= from && SentenceEndAt(c, i') && cut' == c[..i' + 1] && forall j :: SentenceEndAt(c, j) ==> j <= i';
      assert i == i';
    } else if exists p :: BlankAt(c, p) {
      var p :| BlankAt(c, p) && cut == c[..p] && forall q :: BlankAt(c, q) ==> q <= p;
      var p' :| BlankAt(c, p') && cut' == c[..p'] && forall q :: BlankAt(c, q) ==> q <= p';
      assert p == p';
    }
  }

  // The specification leaves no freedom.
  lemma TruncationUnique(text: string, maxLen: int, r: string, r': string)
    requires Truncation(text, maxLen, r) && Truncation(text, maxLen, r')
    ensures r == r'
  {
    if |text| > maxLen {
      var c := PrefixSlice(text, maxLen - 1);
      var cut, kept :| IsCut(c, cut) && LongestBalancedPrefix(cut, kept) && r == RStrip(kept) + "\U{2026}";
      var cut', kept' :| IsCut(c, cut') && LongestBalancedPrefix(cut', kept') && r' == RStrip(kept') + "\U{2026}";
      IsCutUnique(c, cut, cut');
      LongestBalancedPrefixUnique(cut, kept, kept');
    }
  }

  // ---------------------------------------------------------------------------
  // Stripping
  // ---------------------------------------------------------------------------

  lemma RStripKeepsEnd(s: string, k: nat)
    requires 0 < k <= |s| && !IsSpace(s[k - 1])
    ensures |RStrip(s)| >= k
  {
  }

  lemma RStripMonotone(s: string, p: nat, q: nat)
    requires p <= q <= |s|
    ensures |RStrip(s[..p])| <= |RStrip(s[..q])|
  {
    var a := RStrip(s[..p]);
    if a != "" {
      assert s[..q][|a| - 1] == s[..p][|a| - 1] == a[|a| - 1];
      RStripKeepsEnd(s[..q], |a|);
    }
  }

  lemma OneMoreKeepsBalance(s: string, c: char)
    requires c !in {'[', ']', '(', ')', '`'}
    ensures Balanced(s + [c]) == Balanced(s)
  {
    assert multiset(s + [c]) == multiset(s) + multiset{c};
  }

  // Whitespace is never a bracket or a backtick.
  lemma {:induction false} RStripKeepsBalance(s: string)
    ensures Balanced(RStrip(s)) == Balanced(s)
  {
    if s != "" && IsSpace(s[|s| - 1]) {
      var init := s[..|s| - 1];
      assert s == init + [s[|s| - 1]];
      RStripKeepsBalance(init);
      OneMoreKeepsBalance(init, s[|s| - 1]);
    }
  }

  // Blank-delimited prefixes of text longer than r are all unbalanced.
  ghost predicate LongerOnesUnbalanced(text: string, r: string) {
    forall p :: BlankAt(text, p) && |RStrip(text[..p])| > |r| ==> !Balanced(RStrip(text[..p]))
  }

  // r is text, or what the blank at some p leaves of it.
  ghost predicate IsStage(text: string, r: string) {
    r == text || exists p :: BlankAt(text, p) && r == RStrip(text[..p])
  }

  lemma BlankInside(text: string, r: string, p: int)
    requires r <= text && BlankAt(text, p)
    ensures p < |r| ==> p <= RFindChar(r, ' ')
  {
    if p < |r| { assert r[p] == ' '; }
  }

  // A blank after the last one of an unbalanced stage cannot leave a balanced prefix.
  lemma LaterBlankUnbalanced(text: string, r: string, p: int)
    requires r != "" && !Balanced(r) && IsStage(text, r) && LongerOnesUnbalanced(text, r)
    requires BlankAt(text, p) && p > RFindChar(r, ' ')
    ensures !Balanced(RStrip(text[..p]))
  {
    assert r <= text;
    BlankInside(text, r, p);
    assert !IsSpace(r[|r| - 1]) && text[..p][|r| - 1] == r[|r| - 1];
    RStripKeepsEnd(text[..p], |r|);
    if |RStrip(text[..p])| == |r| {
      assert RStrip(text[..p]) == text[..|r|] == r;
    }
  }

  // Dropping everything from the last blank of an unbalanced stage is a stage again.
  lemma NextStage(text: string, r: string)
    requires r != "" && !Balanced(r) && IsStage(text, r) && LongerOnesUnbalanced(text, r)
    requires RFindChar(r, ' ') > 0
    ensures var lastBlank := RFindChar(r, ' ');
            IsStage(text, RStrip(r[..lastBlank])) && LongerOnesUnbalanced(text, RStrip(r[..lastBlank]))
  {
    var lastBlank := RFindChar(r, ' ');
    assert r[..lastBlank] == text[..lastBlank] && BlankAt(text, lastBlank) by { assert r <= text; }
    forall p | BlankAt(text, p) && |RStrip(text[..p])| > |RStrip(text[..lastBlank])|
      ensures !Balanced(RStrip(text[..p]))
    {
      if p <= lastBlank {
        RStripMonotone(text, p, lastBlank);
      } else {
        LaterBlankUnbalanced(text, r, p);
      }
    }
  }

  // With no blank left to drop, no blank-delimited prefix is balanced but the empty one.
  lemma NoStageLeft(text: string, r: string)
    requires r != "" && !Balanced(r) && IsStage(text, r) && LongerOnesUnbalanced(text, r)
    requires RFindChar(r, ' ') <= 0
    ensures LongerOnesUnbalanced(text, "")
  {
    forall p | BlankAt(text, p)
      ensures !Balanced(RStrip(text[..p]))
    {
      LaterBlankUnbalanced(text, r, p);
    }
  }

  method StripUnclosedMarkdown(text: string) returns (r: string)
    ensures LongestBalancedPrefix(text, r)
  {
    r := text;
    while r != "" && !Balanced(r)
      invariant IsStage(text, r) && LongerOnesUnbalanced(text, r)
      invariant Balanced(text) ==> r == text
      decreases |r|
    {
      var lastBlank := RFindChar(r, ' ');
      if lastBlank <= 0 {
        NoStageLeft(text, r);
        return "";
      }
      NextStage(text, r);
      r := RStrip(r[..lastBlank]);
    }
  }

  // ---------------------------------------------------------------------------
  // Truncating
  // ---------------------------------------------------------------------------

  method SafeTruncateMarkdown(text: string, maxLen: int) returns (r: string)
    ensures Truncation(text, maxLen, r)
  {
    if |text| <= maxLen {
      return text;
    }
    var candidate := PrefixSlice(text, maxLen - 1);
    ghost var budgeted := candidate;
    var windowStart := Max(0, |candidate| - SENTENCE_WINDOW);
    var lastSentence := RFindSentenceEnd(candidate, windowStart);
    if lastSentence >= windowStart {
      candidate := candidate[..lastSentence + 1];
    } else {
      var lastBlank := RFindChar(candidate, ' ');
      if lastBlank > 0 {
        candidate := candidate[..lastBlank];
        assert BlankAt(budgeted, lastBlank);
      }
    }
    assert IsCut(budgeted, candidate);
    var kept := StripUnclosedMarkdown(candidate);
    r := RStrip(kept) + "\U{2026}";
  }

  lemma CutIsPrefix(c: string, cut: string)
    requires IsCut(c, cut)
    ensures cut <= c
  {
  }

  // The part of an over-long text that is kept.
  lemma KeptPart(text: string, maxLen: int, r: string) returns (kept: string)
    requires |text| > maxLen && Truncation(text, maxLen, r)
    ensures r == RStrip(kept) + "\U{2026}"
    ensures Balanced(kept) && kept <= PrefixSlice(text, maxLen - 1)
  {
    var cut, k :| IsCut(PrefixSlice(text, maxLen - 1), cut) && LongestBalancedPrefix(cut, k) && r == RStrip(k) + "\U{2026}";
    CutIsPrefix(PrefixSlice(text, maxLen - 1), cut);
    assert k <= cut;
    kept := k;
  }

  // What the truncation is for: the text itself when it fits; otherwise a right-trimmed
  // prefix plus an ellipsis, with every bracket, parenthesis and code span closed.
  lemma TruncationIsSafe(text: string, maxLen: int, r: string)
    requires Truncation(text, maxLen, r)
    ensures |text| <= maxLen ==> r == text
    ensures |text| > maxLen ==>
              exists body :: r == body + "\U{2026}" && body <= text && RStrip(body) == body && Balanced(r)
  {
    if |text| > maxLen {
      var kept := KeptPart(text, maxLen, r);
      var body := RStrip(kept);
      RStripKeepsBalance(kept);
      OneMoreKeepsBalance(body, '\U{2026}');
      assert r == body + "\U{2026}" && body <= text && RStrip(body) == body;
    }
  }

  // The length bound: met by every text exactly when the limit leaves room for the ellipsis.
  lemma TruncationFitsIff(text: string, maxLen: int, r: string)
    requires Truncation(text, maxLen, r)
    ensures |r| <= maxLen <==> |text| <= maxLen || maxLen >= 1
  {
    if |text| > maxLen {
      var kept := KeptPart(text, maxLen, r);
    }
  }
}
