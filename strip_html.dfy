/**
 * The whitespace clean-up at the end of `stripHtml`, applied to the text that
 * the HTML parser extracted: strip the leading whitespace of every line,
 * collapse each newline-whitespace-newline run into one blank line, and trim.
 */
module StripHtml {
  import opened JsStrings

  /** `lines.map(line => line.replace(/^\s+/, ''))` */
  function StripEach(lines: seq<string>): (r: seq<string>)
    ensures |r| == |lines|
    ensures forall k :: 0 <= k < |r| ==> r[k] == TrimStart(lines[k])
  {
    if lines == [] then [] else [TrimStart(lines[0])] + StripEach(lines[1..])
  }

  /** `text.split('\n').map(...).join('\n')` */
  function CleanLines(text: string): string {
    Join(StripEach(Split(text, '\n')), "\n")
  }

  /** End of the maximal run of whitespace that starts at `i`. */
  function WsRunEnd(s: string, i: nat): (j: nat)
    requires i <= |s|
    ensures i <= j <= |s| && forall m :: i <= m < j ==> IsWs(s[m])
    ensures j == |s| || !IsWs(s[j])
    decreases |s| - i
  {
    if i < |s| && IsWs(s[i]) then WsRunEnd(s, i + 1) else i
  }

  /** The last index `k` with `lo <= k < hi` and `s[k] == '\n'`, or -1. */
  function LastNewline(s: string, lo: nat, hi: nat): (k: int)
    requires lo <= hi <= |s|
    ensures k == -1 || (lo <= k < hi && s[k] == '\n')
    ensures forall m :: (if k == -1 then lo else k + 1) <= m < hi ==> s[m] != '\n'
    decreases hi - lo
  {
    if hi == lo then -1 else if s[hi - 1] == '\n' then hi - 1 else LastNewline(s, lo, hi - 1)
  }

  /**
   * `s.replace(/\n\s*\n/g, '\n\n')`. A match starts at the leftmost '\n' from
   * which the greedy `\s*` can back off to another '\n': the last '\n' inside
   * the whitespace run that follows. The search resumes after the match.
   */
  function Collapse(s: string): string
    decreases |s|
  {
    if s == [] then []
    else if s[0] == '\n' then
      var k := LastNewline(s, 1, WsRunEnd(s, 1));
      if k >= 1 then "\n\n" + Collapse(s[k + 1..]) else [s[0]] + Collapse(s[1..])
    else [s[0]] + Collapse(s[1..])
  }

  /** The clean-up as a whole. */
  function CleanWhitespace(text: string): string {
    Trim(Collapse(CleanLines(text)))
  }

  // ----- the shape of the result -----

  /** Every newline is followed by another newline or by a non-space character. */
  predicate LinesStartClean(s: string) {
    forall i :: 0 <= i < |s| - 1 && s[i] == '\n' ==> s[i + 1] == '\n' || !IsWs(s[i + 1])
  }

  /** No two blank lines in a row. */
  predicate NoTripleNewline(s: string) {
    forall i :: 0 <= i < |s| - 2 && s[i] == '\n' && s[i + 1] == '\n' ==> s[i + 2] != '\n'
  }

  /** Both shapes carry over to every suffix. */
  lemma CleanSuffix(s: string, n: nat)
    requires n <= |s|
    ensures LinesStartClean(s) ==> LinesStartClean(s[n..])
    ensures NoTripleNewline(s) ==> NoTripleNewline(s[n..])
  {
    var rest := s[n..];
    if LinesStartClean(s) {
      forall m | 0 <= m < |rest| - 1 && rest[m] == '\n' ensures rest[m + 1] == '\n' || !IsWs(rest[m + 1]) {
        assert rest[m] == s[n + m] && rest[m + 1] == s[n + m + 1];
      }
    }
    if NoTripleNewline(s) {
      forall m | 0 <= m < |rest| - 2 && rest[m] == '\n' && rest[m + 1] == '\n' ensures rest[m + 2] != '\n' {
        assert rest[m] == s[n + m] && rest[m + 1] == s[n + m + 1] && rest[m + 2] == s[n + m + 2];
      }
    }
  }

  /** What the clean-up produces. */
  predicate Clean(s: string) {
    Trimmed(s) && LinesStartClean(s) && NoTripleNewline(s)
  }

  /** A line (or the text) that is empty or begins with a newline or a non-space. */
  predicate HeadClean(s: string) {
    s == [] || s[0] == '\n' || !IsWs(s[0])
  }

  lemma {:induction false} JoinStripped(lines: seq<string>)
    requires forall k :: 0 <= k < |lines| ==> '\n' !in lines[k] && (lines[k] == [] || !IsWs(lines[k][0]))
    ensures LinesStartClean(Join(lines, "\n")) && HeadClean(Join(lines, "\n"))
    decreases |lines|
  {
    if |lines| > 1 {
      var l, rest := lines[0], Join(lines[1..], "\n");
      JoinStripped(lines[1..]);
      var s := Join(lines, "\n");
      assert s == l + "\n" + rest;
      assert HeadClean(rest) && LinesStartClean(rest);
      forall i | 0 <= i < |s| - 1 && s[i] == '\n' ensures s[i + 1] == '\n' || !IsWs(s[i + 1]) {
        if i == |l| {
          assert s[i + 1] == rest[0];
          if |lines[1..]| > 1 {
            assert rest == lines[1] + "\n" + Join(lines[2..], "\n");
            if lines[1] == [] { assert rest[0] == '\n'; } else { assert rest[0] == lines[1][0]; }
          } else {
            assert rest == lines[1];
          }
        } else if i > |l| {
          assert s[i] == rest[i - |l| - 1] && s[i + 1] == rest[i - |l|];
        }
      }
      if l == [] { assert s[0] == '\n'; } else { assert s[0] == l[0]; }
    }
  }

  /** After the per-line step every line begins with a non-space. */
  lemma CleanLinesShape(text: string)
    ensures LinesStartClean(CleanLines(text)) && HeadClean(CleanLines(text))
  {
    var lines := StripEach(Split(text, '\n'));
    forall k | 0 <= k < |lines|
      ensures '\n' !in lines[k] && (lines[k] == [] || !IsWs(lines[k][0]))
    {
      var line := Split(text, '\n')[k];
      assert lines[k] == TrimStart(line);
      TrimStartShape(line);
      assert '\n' !in line;
      assert lines[k] == line[|line| - |lines[k]|..];
    }
    JoinStripped(lines);
  }

  lemma {:induction false} CollapseKeepsHead(s: string)
    requires s != [] && s[0] != '\n'
    ensures Collapse(s) != [] && Collapse(s)[0] == s[0]
  {
  }

  /** A short piece ending in a newline may go in front of clean text that starts with a non-space. */
  lemma PrependShape(p: string, cr: string)
    requires 1 <= |p| <= 2 && (|p| == 2 ==> p == "\n\n")
    requires LinesStartClean(cr) && NoTripleNewline(cr)
    requires p[|p| - 1] == '\n' && cr != [] ==> !IsWs(cr[0])
    ensures LinesStartClean(p + cr) && NoTripleNewline(p + cr)
  {
    var c := p + cr;
    var n := |p|;
    forall i | 0 <= i < |c| - 1 && c[i] == '\n' ensures c[i + 1] == '\n' || !IsWs(c[i + 1]) {
      if i >= n { assert c[i] == cr[i - n] && c[i + 1] == cr[i + 1 - n]; }
      else if i == n - 1 { assert c[i + 1] == cr[0]; }
    }
    forall i | 0 <= i < |c| - 2 && c[i] == '\n' && c[i + 1] == '\n' ensures c[i + 2] != '\n' {
      if i >= n { assert c[i] == cr[i - n] && c[i + 1] == cr[i + 1 - n] && c[i + 2] == cr[i + 2 - n]; }
      else if i < n - 1 { assert c[i + 2] == cr[0]; }
    }
  }

  /** On text whose lines start clean, collapsing leaves no double blank line. */
  lemma {:induction false} CollapseShape(s: string)
    requires LinesStartClean(s)
    ensures LinesStartClean(Collapse(s)) && NoTripleNewline(Collapse(s))
    decreases |s|
  {
    if s != [] {
      var c := Collapse(s);
      if s[0] == '\n' && LastNewline(s, 1, WsRunEnd(s, 1)) >= 1 {
        var j := WsRunEnd(s, 1);
        var k := LastNewline(s, 1, j);
        var rest := s[k + 1..];
        CleanSuffix(s, k + 1);
        CollapseShape(rest);
        var cr := Collapse(rest);
        assert c == "\n\n" + cr;
        if rest != [] {
          // s[k + 1] follows the last newline of the run, so it ends the run
          assert s[k] == '\n';
          assert rest[0] == s[k + 1];
          assert !IsWs(rest[0]);
          CollapseKeepsHead(rest);
        }
        PrependShape("\n\n", cr);
      } else {
        var rest := s[1..];
        CleanSuffix(s, 1);
        CollapseShape(rest);
        var cr := Collapse(rest);
        assert c == [s[0]] + cr;
        if s[0] == '\n' && rest != [] {
          // no second newline in the run, so the next character is not a space
          assert s[1] == '\n' || !IsWs(s[1]);
          CollapseKeepsHead(rest);
        }
        PrependShape([s[0]], cr);
      }
    }
  }

  /** The result of the clean-up has no surrounding whitespace and no double blank line. */
  lemma CleanWhitespaceIsClean(text: string)
    ensures Clean(CleanWhitespace(text))
  {
    var l := CleanLines(text);
    CleanLinesShape(text);
    var c := Collapse(l);
    CollapseShape(l);
    var a, b := TrimSlice(c);
    SliceShape(c, a, b);
  }

  lemma SliceShape(c: string, a: nat, b: nat)
    requires a <= b <= |c| && LinesStartClean(c) && NoTripleNewline(c)
    ensures LinesStartClean(c[a..b]) && NoTripleNewline(c[a..b])
  {
    var t := c[a..b];
    forall i | 0 <= i < |t| - 1 && t[i] == '\n' ensures t[i + 1] == '\n' || !IsWs(t[i + 1]) {
      assert t[i] == c[a + i] && t[i + 1] == c[a + i + 1];
    }
    forall i | 0 <= i < |t| - 2 && t[i] == '\n' && t[i + 1] == '\n' ensures t[i + 2] != '\n' {
      assert t[i] == c[a + i] && t[i + 1] == c[a + i + 1] && t[i + 2] == c[a + i + 2];
    }
  }

  /**
   * In clean text every newline is followed either by a non-space or by
   * exactly one more newline and then a non-space: at most one blank line, and
   * no line starts with whitespace.
   */
  lemma NewlineFollowers(s: string, i: nat)
    requires Clean(s) && i < |s| && s[i] == '\n'
    ensures i + 1 < |s|
    ensures !IsWs(s[i + 1]) || (s[i + 1] == '\n' && i + 2 < |s| && !IsWs(s[i + 2]))
  {
  }

  // ----- idempotence -----

  lemma {:induction false} SplitOfClean(s: string)
    requires (s == [] || !IsWs(s[0])) && LinesStartClean(s)
    ensures forall k :: 0 <= k < |Split(s, '\n')| ==> Split(s, '\n')[k] == [] || !IsWs(Split(s, '\n')[k][0])
    decreases |s|
  {
    if '\n' in s {
      var i := IndexOf(s, '\n');
      var rest := s[i + 1..];
      if rest != [] {
        assert rest[0] == s[i + 1];
        if rest[0] == '\n' {
          if |rest| > 1 { assert rest[1] == s[i + 2]; }
        }
      }
      if rest != [] && rest[0] == '\n' {
        // an empty line: its successor starts where the next newline sits
        SplitOfCleanFromNewline(rest);
      } else {
        assert LinesStartClean(rest) by {
          forall m | 0 <= m < |rest| - 1 && rest[m] == '\n' ensures rest[m + 1] == '\n' || !IsWs(rest[m + 1]) {
            assert rest[m] == s[i + 1 + m] && rest[m + 1] == s[i + 2 + m];
          }
        }
        SplitOfClean(rest);
      }
      assert Split(s, '\n') == [s[..i]] + Split(rest, '\n');
      if i > 0 { assert s[..i][0] == s[0]; }
    }
  }

  lemma {:induction false} SplitOfCleanFromNewline(s: string)
    requires s != [] && s[0] == '\n' && LinesStartClean(s)
    ensures forall k :: 0 <= k < |Split(s, '\n')| ==> Split(s, '\n')[k] == [] || !IsWs(Split(s, '\n')[k][0])
    decreases |s|
  {
    assert IndexOf(s, '\n') == 0;
    var rest := s[1..];
    assert LinesStartClean(rest) by {
      forall m | 0 <= m < |rest| - 1 && rest[m] == '\n' ensures rest[m + 1] == '\n' || !IsWs(rest[m + 1]) {
        assert rest[m] == s[1 + m] && rest[m + 1] == s[2 + m];
      }
    }
    if rest != [] && rest[0] == '\n' {
      SplitOfCleanFromNewline(rest);
    } else {
      if rest != [] { assert rest[0] == s[1]; }
      SplitOfClean(rest);
    }
    assert Split(s, '\n') == [s[..0]] + Split(rest, '\n');
  }

  lemma {:induction false} StripEachOfClean(lines: seq<string>)
    requires forall k :: 0 <= k < |lines| ==> lines[k] == [] || !IsWs(lines[k][0])
    ensures StripEach(lines) == lines
  {
  }

  lemma {:induction false} CollapseOfClean(s: string)
    requires LinesStartClean(s) && NoTripleNewline(s)
    ensures Collapse(s) == s
    decreases |s|
  {
    if s != [] {
      var j := WsRunEnd(s, 1);
      var k := LastNewline(s, 1, j);
      if s[0] == '\n' && |s| > 1 && s[1] == '\n' {
        // "\n\n" followed by a non-space: the run is the second newline alone
        if |s| > 2 {
          assert s[2] != '\n';
          assert !IsWs(s[2]);
        }
        assert j == 2;
        assert k == 1;
        var rest := s[2..];
        CleanSuffix(s, 2);
        CollapseOfClean(rest);
        assert s == "\n\n" + rest;
      } else {
        if s[0] == '\n' {
          // a newline followed by a non-space (or nothing): no match here
          assert j == 1;
          assert k == -1;
        }
        var rest := s[1..];
        CleanSuffix(s, 1);
        CollapseOfClean(rest);
        assert s == [s[0]] + rest;
      }
    }
  }

  /** Clean text passes through the clean-up unchanged. */
  lemma CleanWhitespaceOfClean(s: string)
    requires Clean(s)
    ensures CleanWhitespace(s) == s
  {
    SplitOfClean(s);
    StripEachOfClean(Split(s, '\n'));
    JoinSplit(s, '\n');
    assert CleanLines(s) == s;
    CollapseOfClean(s);
    TrimOfTrimmed(s);
  }

  /** The clean-up is idempotent. */
  lemma CleanWhitespaceIdempotent(text: string)
    ensures CleanWhitespace(CleanWhitespace(text)) == CleanWhitespace(text)
  {
    CleanWhitespaceIsClean(text);
    CleanWhitespaceOfClean(CleanWhitespace(text));
  }

  /** Every line of the result, split at newlines, begins with a non-space. */
  lemma CleanWhitespaceLines(text: string, k: nat)
    requires k < |Split(CleanWhitespace(text), '\n')|
    ensures var line := Split(CleanWhitespace(text), '\n')[k]; line == [] || !IsWs(line[0])
  {
    CleanWhitespaceIsClean(text);
    SplitOfClean(CleanWhitespace(text));
  }
}
