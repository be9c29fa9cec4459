/**
 * Greedy word wrap (`wrap_text` in src/app/utils/text.rs).
 *
 * The input is first cut into lines the way Rust's `str::lines` does, each
 * line into words the way `split_whitespace` does, and the words of each line
 * are packed greedily into output lines. Lengths are counted in characters;
 * the program counts bytes, which is the same thing for ASCII text.
 */
module TextUtils {

  // ---------------------------------------------------------------------
  // Characters, words and lines
  // ---------------------------------------------------------------------

  /** Rust's `char::is_whitespace`: the Unicode White_Space property. */
  predicate IsSpace(c: char) {
    ('\t' <= c <= '\r') || c == ' ' || c == '\U{0085}' || c == '\U{00A0}' || c == '\U{1680}'
    || ('\U{2000}' <= c <= '\U{200A}') || c == '\U{2028}' || c == '\U{2029}'
    || c == '\U{202F}' || c == '\U{205F}' || c == '\U{3000}'
  }

  /** A word: a non-empty run of non-whitespace characters. */
  predicate IsWord(w: string) {
    |w| > 0 && forall k :: 0 <= k < |w| ==> !IsSpace(w[k])
  }

  /** Every element of `g` is a word. */
  predicate AreWords(g: seq<string>) {
    forall i :: 0 <= i < |g| ==> IsWord(g[i])
  }

  /** The index of the first line feed in `s`, or `|s|` when there is none. */
  function NewlineAt(s: string): (i: nat)
    ensures i <= |s|
    ensures i < |s| ==> s[i] == '\n'
    ensures forall k :: 0 <= k < i ==> s[k] != '\n'
  {
    if s == [] || s[0] == '\n' then 0 else 1 + NewlineAt(s[1..])
  }

  predicate EndsWithCR(l: string) {
    |l| > 0 && l[|l| - 1] == '\r'
  }

  /** Drops the carriage return of a "\r\n" line ending. */
  function StripCR(l: string): string {
    if EndsWithCR(l) then l[..|l| - 1] else l
  }

  /**
   * Rust's `str::lines`: the pieces between line feeds, each without the "\r"
   * of a "\r\n" ending; a final line ending does not start an empty line, so
   * the empty string has no lines at all.
   */
  function Lines(s: string): (ls: seq<string>)
    ensures forall i :: 0 <= i < |ls| ==> '\n' !in ls[i]
    decreases |s|
  {
    if s == [] then []
    else
      var i := NewlineAt(s);
      if i == |s| then [s] else [StripCR(s[..i])] + Lines(s[i + 1..])
  }

  /** Rust's `join("\n")` over a list of lines. */
  function JoinLines(ls: seq<string>): string {
    if |ls| == 0 then "" else if |ls| == 1 then ls[0] else ls[0] + "\n" + JoinLines(ls[1..])
  }

  /**
   * Splitting lines that were joined with "\n" gives them back, as long as
   * none holds a line break of its own and the last one is not empty.
   */
  lemma {:induction false} LinesOfJoinLines(ls: seq<string>)
    requires forall i :: 0 <= i < |ls| ==> '\n' !in ls[i] && !EndsWithCR(ls[i])
    requires |ls| > 0 ==> ls[|ls| - 1] != ""
    ensures Lines(JoinLines(ls)) == ls
    decreases |ls|
  {
    if |ls| == 1 {
      var s := ls[0];
      assert forall k :: 0 <= k < |s| ==> s[k] != '\n';
    } else if |ls| > 1 {
      var l, rest := ls[0], JoinLines(ls[1..]);
      var s := l + "\n" + rest;
      assert JoinLines(ls) == s;
      assert forall k :: 0 <= k < |l| ==> s[k] == l[k] && l[k] != '\n';
      assert s[|l|] == '\n';
      assert NewlineAt(s) == |l|;
      assert s[..|l|] == l;
      assert s[|l| + 1..] == rest;
      LinesOfJoinLines(ls[1..]);
      assert ls == [l] + ls[1..];
    }
  }

  /** The length of the run of non-whitespace characters at the start of `s`. */
  function WordLen(s: string): (n: nat)
    ensures n <= |s|
    ensures n < |s| ==> IsSpace(s[n])
  {
    if s == [] || IsSpace(s[0]) then 0 else 1 + WordLen(s[1..])
  }

  /** The run `WordLen` measures holds no whitespace. */
  lemma {:induction false} WordLenRun(s: string)
    ensures forall k :: 0 <= k < WordLen(s) ==> !IsSpace(s[k])
    decreases |s|
  {
    if s != [] && !IsSpace(s[0]) {
      WordLenRun(s[1..]);
      assert forall k :: 1 <= k < WordLen(s) ==> s[k] == s[1..][k - 1];
    }
  }

  /** Rust's `split_whitespace`: the maximal runs of non-whitespace characters, in order. */
  function Words(s: string): seq<string>
    decreases |s|
  {
    if s == [] then []
    else if IsSpace(s[0]) then Words(s[1..])
    else
      var n := WordLen(s);
      [s[..n]] + Words(s[n..])
  }

  /** Every piece `Words` returns is a word. */
  lemma {:induction false} WordsAreWords(s: string)
    ensures AreWords(Words(s))
    decreases |s|
  {
    if s != [] {
      if IsSpace(s[0]) {
        WordsAreWords(s[1..]);
      } else {
        var n := WordLen(s);
        WordLenRun(s);
        WordsAreWords(s[n..]);
        var ws := Words(s[n..]);
        assert forall i :: 1 <= i < |ws| + 1 ==> ([s[..n]] + ws)[i] == ws[i - 1];
      }
    }
  }

  /** A string without whitespace is one run. */
  lemma {:induction false} WordLenAll(w: string)
    requires forall k :: 0 <= k < |w| ==> !IsSpace(w[k])
    ensures WordLen(w) == |w|
    decreases |w|
  {
    if w != [] {
      assert forall k :: 0 <= k < |w[1..]| ==> w[1..][k] == w[k + 1];
      WordLenAll(w[1..]);
    }
  }

  lemma WordLenAppend(a: string, b: string)
    requires WordLen(a) < |a| || b == [] || IsSpace(b[0])
    ensures WordLen(a + b) == WordLen(a)
  {
    var n, m := WordLen(a), WordLen(a + b);
    WordLenRun(a);
    WordLenRun(a + b);
    assert forall k :: 0 <= k < n ==> (a + b)[k] == a[k];
    if n < |a| {
      assert (a + b)[n] == a[n];
    } else if b == [] {
      assert a + b == a;
    } else {
      assert (a + b)[n] == b[0];
    }
  }

  /** `Words` on a string that starts with whitespace. */
  lemma WordsFirstSpace(s: string)
    requires s != [] && IsSpace(s[0])
    ensures Words(s) == Words(s[1..])
  {
  }

  /** One step of `WordsAppend` when `a` starts with whitespace. */
  lemma WordsAppendSpaceStep(a: string, b: string)
    requires a != [] && IsSpace(a[0])
    requires IsSpace(a[|a| - 1]) || b == [] || IsSpace(b[0])
    ensures Words(a + b) == Words(a[1..] + b) && Words(a) == Words(a[1..])
    ensures a[1..] == [] || IsSpace(a[1..][|a[1..]| - 1]) || b == [] || IsSpace(b[0])
  {
    assert (a + b)[0] == a[0];
    SliceAppend(a, b, 1);
    WordsFirstSpace(a);
    WordsFirstSpace(a + b);
    if |a| > 1 {
      assert a[1..][|a[1..]| - 1] == a[|a| - 1];
    }
  }

  /** `Words` on a string that starts with a word. */
  lemma WordsFirstWord(s: string)
    requires s != [] && !IsSpace(s[0])
    ensures Words(s) == [s[..WordLen(s)]] + Words(s[WordLen(s)..])
  {
  }

  /** Slicing `a + b` inside `a`. */
  lemma SliceAppend(a: string, b: string, n: nat)
    requires n <= |a|
    ensures (a + b)[..n] == a[..n] && (a + b)[n..] == a[n..] + b
  {
  }

  /** One step of `WordsAppend` when `a` starts with a word. */
  lemma WordsAppendWordStep(a: string, b: string)
    requires a != [] && !IsSpace(a[0])
    requires IsSpace(a[|a| - 1]) || b == [] || IsSpace(b[0])
    ensures WordLen(a) <= |a|
    ensures Words(a + b) == [a[..WordLen(a)]] + Words(a[WordLen(a)..] + b)
    ensures Words(a) == [a[..WordLen(a)]] + Words(a[WordLen(a)..])
    ensures var r := a[WordLen(a)..]; r == [] || IsSpace(r[|r| - 1]) || b == [] || IsSpace(b[0])
  {
    var n := WordLen(a);
    assert n < |a| || b == [] || IsSpace(b[0]) by {
      WordLenRun(a);
    }
    WordLenAppend(a, b);
    assert (a + b)[0] == a[0];
    WordsFirstWord(a);
    WordsFirstWord(a + b);
    SliceAppend(a, b, n);
    if n < |a| {
      assert a[n..][|a[n..]| - 1] == a[|a| - 1];
    }
  }

  /** Splitting at a whitespace boundary splits the words. */
  lemma {:induction false} WordsAppend(a: string, b: string)
    requires a == [] || IsSpace(a[|a| - 1]) || b == [] || IsSpace(b[0])
    ensures Words(a + b) == Words(a) + Words(b)
    decreases |a|, 1
  {
    if a == [] {
      assert a + b == b;
    } else if IsSpace(a[0]) {
      WordsAppendAfterSpace(a, b);
    } else {
      WordsAppendAfterWord(a, b);
    }
  }

  /** `WordsAppend` when `a` starts with whitespace. */
  lemma {:induction false} WordsAppendAfterSpace(a: string, b: string)
    requires a != [] && IsSpace(a[0])
    requires IsSpace(a[|a| - 1]) || b == [] || IsSpace(b[0])
    ensures Words(a + b) == Words(a) + Words(b)
    decreases |a|, 0
  {
    WordsAppendSpaceStep(a, b);
    WordsAppend(a[1..], b);
  }

  /** `WordsAppend` when `a` starts with a word. */
  lemma {:induction false} WordsAppendAfterWord(a: string, b: string)
    requires a != [] && !IsSpace(a[0])
    requires IsSpace(a[|a| - 1]) || b == [] || IsSpace(b[0])
    ensures Words(a + b) == Words(a) + Words(b)
    decreases |a|, 0
  {
    WordsAppendWordStep(a, b);
    var w, r := a[..WordLen(a)], a[WordLen(a)..];
    WordsAppend(r, b);
    AppendAssoc([w], Words(r), Words(b));
  }

  lemma AppendAssoc<T>(x: seq<T>, y: seq<T>, z: seq<T>)
    ensures x + (y + z) == (x + y) + z
  {
  }

  lemma WordsOfWord(w: string)
    requires IsWord(w)
    ensures Words(w) == [w]
  {
    WordLenAll(w);
    assert w[..|w|] == w;
    assert w[|w|..] == [];
  }

  // ---------------------------------------------------------------------
  // Joining words
  // ---------------------------------------------------------------------

  /** Words separated by single spaces. */
  function Join(g: seq<string>): string {
    if |g| == 0 then "" else if |g| == 1 then g[0] else Join(g[..|g| - 1]) + " " + g[|g| - 1]
  }

  /** The loop's `current_line`: every word followed by one space. */
  function Spaced(g: seq<string>): string {
    if |g| == 0 then "" else Spaced(g[..|g| - 1]) + g[|g| - 1] + " "
  }

  /** Rust's `trim_end`: drops trailing whitespace. */
  function TrimEnd(s: string): string {
    if |s| > 0 && IsSpace(s[|s| - 1]) then TrimEnd(s[..|s| - 1]) else s
  }

  lemma {:induction false} SpacedIsJoinSpace(g: seq<string>)
    requires g != []
    ensures Spaced(g) == Join(g) + " "
    decreases |g|
  {
    if |g| > 1 {
      SpacedIsJoinSpace(g[..|g| - 1]);
    }
  }

  /** A joined line of words neither starts nor ends with whitespace. */
  lemma {:induction false} JoinEnds(g: seq<string>)
    requires AreWords(g) && g != []
    ensures var s := Join(g); |s| > 0 && !IsSpace(s[0]) && !IsSpace(s[|s| - 1])
    decreases |g|
  {
    if |g| > 1 {
      var p := g[..|g| - 1];
      assert AreWords(p) by { assert forall i :: 0 <= i < |p| ==> p[i] == g[i]; }
      JoinEnds(p);
      var s := Join(g);
      assert s == Join(p) + " " + g[|g| - 1];
      assert s[0] == Join(p)[0];
      assert s[|s| - 1] == g[|g| - 1][|g[|g| - 1]| - 1];
    }
  }

  /** Trimming the trailing space of `current_line` gives the words joined by single spaces. */
  lemma TrimSpaced(g: seq<string>)
    requires AreWords(g)
    ensures TrimEnd(Spaced(g)) == Join(g)
  {
    if g != [] {
      SpacedIsJoinSpace(g);
      JoinEnds(g);
      var s := Join(g);
      assert (s + " ")[..|s|] == s;
    }
  }

  /** Joined words split back into the same words. */
  lemma {:induction false} WordsOfJoin(g: seq<string>)
    requires AreWords(g)
    ensures Words(Join(g)) == g
    decreases |g|
  {
    if |g| == 1 {
      WordsOfWord(g[0]);
    } else if |g| > 1 {
      var p, w := g[..|g| - 1], g[|g| - 1];
      assert AreWords(p) by { assert forall i :: 0 <= i < |p| ==> p[i] == g[i]; }
      var j := Join(p);
      assert Join(g) == (j + " ") + w;
      WordsOfJoin(p);
      assert Words(j + " ") == p by {
        WordsAppend(j, " ");
        assert Words(" ") == [] by { WordsFirstSpace(" "); assert " "[1..] == []; }
        assert p + [] == p;
      }
      assert (j + " ")[|j + " "| - 1] == ' ';
      WordsAppend(j + " ", w);
      WordsOfWord(w);
      assert g == p + [w];
    }
  }

  // ---------------------------------------------------------------------
  // Greedy packing
  // ---------------------------------------------------------------------

  /**
   * The groups of words the loop over one input line emits, given the words
   * still to come and the group being built (`current_line`). A word that
   * does not fit, counting the pending trailing space, closes the current
   * group, even an empty one.
   */
  function Pack(ws: seq<string>, g: seq<string>, width: nat): seq<seq<string>>
    decreases |ws|
  {
    if ws == [] then (if g == [] then [] else [g])
    else if |Spaced(g)| + |ws[0]| + 1 > width then [g] + Pack(ws[1..], [ws[0]], width)
    else Pack(ws[1..], g + [ws[0]], width)
  }

  /** All words of a sequence of groups, in order. */
  function Concat(gs: seq<seq<string>>): seq<string> {
    if gs == [] then [] else gs[0] + Concat(gs[1..])
  }

  lemma {:induction false} ConcatAppend(a: seq<seq<string>>, b: seq<seq<string>>)
    ensures Concat(a + b) == Concat(a) + Concat(b)
    decreases |a|
  {
    if a == [] {
      assert a + b == b;
    } else {
      assert (a + b)[1..] == a[1..] + b;
      ConcatAppend(a[1..], b);
    }
  }

  /** Packing loses, duplicates and reorders no word. */
  lemma {:induction false} PackKeepsWords(ws: seq<string>, g: seq<string>, width: nat)
    ensures Concat(Pack(ws, g, width)) == g + ws
    decreases |ws|
  {
    if ws == [] {
      if g != [] { assert Concat([g]) == g + Concat([g][1..]); }
    } else if |Spaced(g)| + |ws[0]| + 1 > width {
      var rest := Pack(ws[1..], [ws[0]], width);
      PackKeepsWords(ws[1..], [ws[0]], width);
      assert ([g] + rest)[1..] == rest;
      assert [ws[0]] + ws[1..] == ws;
    } else {
      PackKeepsWords(ws[1..], g + [ws[0]], width);
      assert g + [ws[0]] + ws[1..] == g + ws;
    }
  }

  /** Every group that packing emits consists of words when its input does. */
  lemma {:induction false} PackOfWords(ws: seq<string>, g: seq<string>, width: nat)
    requires AreWords(ws) && AreWords(g)
    ensures forall i :: 0 <= i < |Pack(ws, g, width)| ==> AreWords(Pack(ws, g, width)[i])
    decreases |ws|
  {
    if ws != [] {
      assert AreWords(ws[1..]) by { assert forall i :: 0 <= i < |ws| - 1 ==> ws[1..][i] == ws[i + 1]; }
      if |Spaced(g)| + |ws[0]| + 1 > width {
        PackOfWords(ws[1..], [ws[0]], width);
      } else {
        PackOfWords(ws[1..], g + [ws[0]], width);
      }
    }
  }

  /**
   * Shape of the emitted groups: only the group that was open at the start
   * can be empty, and only if it was; a group of two or more words fits the
   * width including its trailing space.
   */
  predicate ShapedGroups(r: seq<seq<string>>, g: seq<string>, width: nat) {
    forall i :: 0 <= i < |r| ==> (r[i] == [] ==> i == 0 && g == []) && (|r[i]| >= 2 ==> |Spaced(r[i])| <= width)
  }

  lemma {:induction false} PackShape(ws: seq<string>, g: seq<string>, width: nat)
    requires |g| >= 2 ==> |Spaced(g)| <= width
    ensures ShapedGroups(Pack(ws, g, width), g, width)
    decreases |ws|
  {
    if ws != [] {
      if |Spaced(g)| + |ws[0]| + 1 > width {
        var rest := Pack(ws[1..], [ws[0]], width);
        PackShape(ws[1..], [ws[0]], width);
        var r := [g] + rest;
        assert Pack(ws, g, width) == r;
        assert forall i :: 1 <= i < |r| ==> r[i] == rest[i - 1];
      } else {
        var g' := g + [ws[0]];
        assert g'[..|g'| - 1] == g;
        PackShape(ws[1..], g', width);
      }
    }
  }

  /** The first group emitted extends the group that was open at the start. */
  lemma {:induction false} PackFirstGroup(ws: seq<string>, g: seq<string>, width: nat)
    requires g != []
    ensures var r := Pack(ws, g, width); |r| > 0 && |r[0]| >= |g| && r[0][..|g|] == g
    decreases |ws|
  {
    if ws != [] && |Spaced(g)| + |ws[0]| + 1 <= width {
      var g' := g + [ws[0]];
      PackFirstGroup(ws[1..], g', width);
      var r := Pack(ws, g, width);
      assert r[0][..|g'|][..|g|] == r[0][..|g|];
    }
  }

  /** With width 0 no two words share a group, after one leading group holding the open words. */
  lemma {:induction false} PackZeroWidth(ws: seq<string>, g: seq<string>)
    requires ws != []
    ensures Pack(ws, g, 0) == [g] + seq(|ws|, i requires 0 <= i < |ws| => [ws[i]])
    decreases |ws|
  {
    var singles := seq(|ws|, i requires 0 <= i < |ws| => [ws[i]]);
    if |ws| == 1 {
      assert singles == [[ws[0]]];
    } else {
      PackZeroWidth(ws[1..], [ws[0]]);
      assert singles == [[ws[0]]] + seq(|ws| - 1, i requires 0 <= i < |ws| - 1 => [ws[1..][i]]);
    }
  }

  // ---------------------------------------------------------------------
  // The specification of wrap_text
  // ---------------------------------------------------------------------

  function JoinAll(gs: seq<seq<string>>): seq<string> {
    seq(|gs|, i requires 0 <= i < |gs| => Join(gs[i]))
  }

  /** The output lines contributed by one input line. */
  function WrapLine(line: string, width: nat): seq<string> {
    JoinAll(Pack(Words(line), [], width))
  }

  /** The output lines contributed by a sequence of input lines, in order. */
  function WrapAll(ls: seq<string>, width: nat): seq<string>
    decreases |ls|
  {
    if ls == [] then [] else WrapAll(ls[..|ls| - 1], width) + WrapLine(ls[|ls| - 1], width)
  }

  /** What `wrap_text(input, width)` returns. */
  function Wrap(input: string, width: nat): seq<string> {
    WrapAll(Lines(input), width)
  }

  /** All words of a sequence of lines, in order. */
  function WordsOfLines(ls: seq<string>): seq<string> {
    Concat(seq(|ls|, i requires 0 <= i < |ls| => Words(ls[i])))
  }

  /** One word of the greedy step, as the loop takes it: close the group, or extend it. */
  lemma PackStep(words: seq<string>, j: nat, group: seq<string>, width: nat)
    requires j < |words| && AreWords(group)
    ensures |Spaced(group)| + |words[j]| + 1 > width ==>
      TrimEnd(Spaced(group)) == Join(group) &&
      JoinAll(Pack(words[j..], group, width)) ==
        [Join(group)] + JoinAll(Pack(words[j + 1..], [words[j]], width))
    ensures |Spaced(group)| + |words[j]| + 1 <= width ==>
      Pack(words[j..], group, width) == Pack(words[j + 1..], group + [words[j]], width)
  {
    assert words[j..][1..] == words[j + 1..];
    if |Spaced(group)| + |words[j]| + 1 > width {
      TrimSpaced(group);
      var rest := Pack(words[j + 1..], [words[j]], width);
      assert JoinAll([group] + rest) == [Join(group)] + JoinAll(rest);
    }
  }

  /** The last step of the inner loop: what is left of the group is the last output line, if any. */
  lemma PackEnd(words: seq<string>, group: seq<string>, width: nat)
    requires AreWords(group)
    ensures JoinAll(Pack(words[|words|..], group, width)) ==
      (if group == [] then [] else [TrimEnd(Spaced(group))])
  {
    assert words[|words|..] == [];
    TrimSpaced(group);
  }

  /** The last step of the outer loop. */
  lemma WrapAllStep(ls: seq<string>, i: nat, width: nat)
    requires i < |ls|
    ensures WrapAll(ls[..i + 1], width) == WrapAll(ls[..i], width) + WrapLine(ls[i], width)
  {
    assert ls[..i + 1][..i] == ls[..i];
  }

  /**
   * `wrap_text` as the program runs it: for each input line, for each word,
   * close `current_line` when the word would overflow, then append the word
   * and a space; finally close a non-empty `current_line`.
   */
  method WrapText(input: string, maxWidth: nat) returns (lines: seq<string>)
    ensures lines == Wrap(input, maxWidth)
  {
    lines := [];
    var inputLines := Lines(input);
    for i := 0 to |inputLines|
      invariant lines == WrapAll(inputLines[..i], maxWidth)
    {
      var line := inputLines[i];
      var words := Words(line);
      WordsAreWords(line);
      var currentLine := "";
      ghost var group: seq<string> := [];
      ghost var before := lines;
      for j := 0 to |words|
        invariant currentLine == Spaced(group)
        invariant AreWords(group)
        invariant lines + JoinAll(Pack(words[j..], group, maxWidth)) == before + WrapLine(line, maxWidth)
      {
        var word := words[j];
        PackStep(words, j, group, maxWidth);
        if |currentLine| + |word| + 1 > maxWidth {
          lines := lines + [TrimEnd(currentLine)];
          currentLine := "";
          group := [];
        }
        assert (group + [word])[..|group|] == group;
        currentLine := currentLine + word + " ";
        group := group + [word];
      }
      PackEnd(words, group, maxWidth);
      if currentLine != "" {
        lines := lines + [TrimEnd(currentLine)];
      }
      WrapAllStep(inputLines, i, maxWidth);
    }
    assert inputLines[..|inputLines|] == inputLines;
  }

  // ---------------------------------------------------------------------
  // Properties of the specification
  // ---------------------------------------------------------------------

  /** Output for several input lines is the outputs for each, one after the other. */
  lemma {:induction false} WrapAllAppend(a: seq<string>, b: seq<string>, width: nat)
    ensures WrapAll(a + b, width) == WrapAll(a, width) + WrapAll(b, width)
    decreases |b|
  {
    if b == [] {
      assert a + b == a;
    } else {
      var b', last := b[..|b| - 1], b[|b| - 1];
      assert (a + b)[..|a + b| - 1] == a + b';
      assert (a + b)[|a + b| - 1] == last;
      assert WrapAll(a + b, width) == WrapAll(a + b', width) + WrapLine(last, width);
      assert WrapAll(b, width) == WrapAll(b', width) + WrapLine(last, width);
      WrapAllAppend(a, b', width);
    }
  }

  /** An input line produces output lines exactly when it holds a word. */
  lemma BlankLineContributesNothing(line: string, width: nat)
    ensures WrapLine(line, width) == [] <==> Words(line) == []
  {
    PackKeepsWords(Words(line), [], width);
  }

  /** Each group, joined, splits back into itself. */
  lemma WordsOfJoinAll(gs: seq<seq<string>>)
    requires forall i :: 0 <= i < |gs| ==> AreWords(gs[i])
    ensures seq(|gs|, i requires 0 <= i < |gs| => Words(JoinAll(gs)[i])) == gs
  {
    forall i | 0 <= i < |gs| ensures Words(JoinAll(gs)[i]) == gs[i] {
      WordsOfJoin(gs[i]);
    }
  }

  lemma WordsOfLinesAppend(a: seq<string>, b: seq<string>)
    ensures WordsOfLines(a + b) == WordsOfLines(a) + WordsOfLines(b)
  {
    var wa := seq(|a|, i requires 0 <= i < |a| => Words(a[i]));
    var wb := seq(|b|, i requires 0 <= i < |b| => Words(b[i]));
    assert seq(|a + b|, i requires 0 <= i < |a + b| => Words((a + b)[i])) == wa + wb;
    ConcatAppend(wa, wb);
  }

  lemma WordsOfOneLine(l: string)
    ensures WordsOfLines([l]) == Words(l)
  {
    var ws := seq(1, i requires 0 <= i < 1 => Words([l][i]));
    assert ws == [Words(l)];
    assert Concat(ws) == Words(l) + Concat(ws[1..]);
    assert ws[1..] == [];
  }

  /** The words of the output lines of one input line are the words of that line. */
  lemma WrapLineKeepsWords(line: string, width: nat)
    ensures WordsOfLines(WrapLine(line, width)) == Words(line)
  {
    var gs := Pack(Words(line), [], width);
    WordsAreWords(line);
    PackOfWords(Words(line), [], width);
    WordsOfJoinAll(gs);
    PackKeepsWords(Words(line), [], width);
  }

  /**
   * Token preservation: the words of all output lines, in order, are the
   * words of all input lines, in order.
   */
  lemma {:induction false} WrapKeepsWords(ls: seq<string>, width: nat)
    ensures WordsOfLines(WrapAll(ls, width)) == WordsOfLines(ls)
    decreases |ls|
  {
    if ls != [] {
      var p, l := ls[..|ls| - 1], ls[|ls| - 1];
      assert WrapAll(ls, width) == WrapAll(p, width) + WrapLine(l, width);
      WrapKeepsWords(p, width);
      WordsOfLinesAppend(WrapAll(p, width), WrapLine(l, width));
      WrapLineKeepsWords(l, width);
      assert ls == p + [l];
      WordsOfLinesAppend(p, [l]);
      WordsOfOneLine(l);
    }
  }

  /** Dropping the "\r" of a "\r\n" ending loses no word. */
  lemma WordsOfStripCR(l: string)
    ensures Words(StripCR(l)) == Words(l)
  {
    if EndsWithCR(l) {
      var l' := l[..|l| - 1];
      assert l == l' + "\r";
      WordsAppend(l', "\r");
      WordsFirstSpace("\r");
      assert "\r"[1..] == [];
    }
  }

  /** A line feed at `i` splits the words of `s` into those before and after it. */
  lemma WordsAtLineFeed(s: string, i: nat)
    requires i < |s| && s[i] == '\n'
    ensures Words(s) == Words(StripCR(s[..i])) + Words(s[i + 1..])
  {
    assert s == s[..i] + s[i..];
    WordsAppend(s[..i], s[i..]);
    WordsFirstSpace(s[i..]);
    assert s[i..][1..] == s[i + 1..];
    WordsOfStripCR(s[..i]);
  }

  /**
   * Splitting into lines loses no word and joins none: line feeds and
   * carriage returns are whitespace, so the words of the lines are the
   * words of the whole text.
   */
  lemma {:induction false} WordsOfLinesOfText(s: string)
    ensures WordsOfLines(Lines(s)) == Words(s)
    decreases |s|
  {
    if s == [] {
      assert WordsOfLines([]) == Concat([]);
    } else {
      var i := NewlineAt(s);
      if i == |s| {
        WordsOfOneLine(s);
      } else {
        var l, rest := StripCR(s[..i]), s[i + 1..];
        assert Lines(s) == [l] + Lines(rest);
        WordsOfLinesOfText(rest);
        WordsOfLinesAppend([l], Lines(rest));
        WordsOfOneLine(l);
        WordsAtLineFeed(s, i);
      }
    }
  }

  /** The words of `wrap_text(input, width)` are the words of `input`. */
  lemma WrapTextKeepsWords(input: string, width: nat)
    ensures WordsOfLines(Wrap(input, width)) == WordsOfLines(Lines(input))
    ensures WordsOfLines(Wrap(input, width)) == Words(input)
  {
    WrapKeepsWords(Lines(input), width);
    WordsOfLinesOfText(input);
  }

  /**
   * The shape of an output line: the empty string, or words joined by single
   * spaces with no leading or trailing whitespace; a line of two or more
   * words is shorter than the width.
   */
  predicate WellShaped(l: string, width: nat) {
    && Join(Words(l)) == l
    && (l != "" ==> !IsSpace(l[0]) && !IsSpace(l[|l| - 1]))
    && (|Words(l)| >= 2 ==> |l| < width)
  }

  lemma WrapLineWellShaped(line: string, width: nat)
    ensures forall k :: 0 <= k < |WrapLine(line, width)| ==> WellShaped(WrapLine(line, width)[k], width)
  {
    var gs := Pack(Words(line), [], width);
    WordsAreWords(line);
    PackOfWords(Words(line), [], width);
    PackShape(Words(line), [], width);
    forall k | 0 <= k < |gs| ensures WellShaped(Join(gs[k]), width) {
      var g := gs[k];
      WordsOfJoin(g);
      if g != [] {
        JoinEnds(g);
      }
      if |g| >= 2 {
        assert |Spaced(g)| <= width;
        SpacedIsJoinSpace(g);
      }
    }
  }

  /** Every line `wrap_text` emits is well shaped. */
  lemma {:induction false} WrapWellShaped(ls: seq<string>, width: nat)
    ensures forall k :: 0 <= k < |WrapAll(ls, width)| ==> WellShaped(WrapAll(ls, width)[k], width)
    decreases |ls|
  {
    if ls != [] {
      WrapWellShaped(ls[..|ls| - 1], width);
      WrapLineWellShaped(ls[|ls| - 1], width);
    }
  }

  /**
   * Within one input line, an empty output line occurs only first, exactly
   * when the line's first word with its trailing space exceeds the width, and
   * the next output line starts with that word.
   */
  lemma WrapLineEmptyLines(line: string, width: nat)
    ensures var out, ws := WrapLine(line, width), Words(line);
      && (forall i :: 0 <= i < |out| ==> (out[i] == "" <==> ws != [] && i == 0 && |ws[0]| + 1 > width))
      && (|out| > 0 && out[0] == "" ==> |out| > 1 && Words(out[1]) != [] && Words(out[1])[0] == ws[0])
  {
    var ws := Words(line);
    var gs := Pack(ws, [], width);
    PackShape(ws, [], width);
    WordsAreWords(line);
    PackOfWords(ws, [], width);
    PackKeepsWords(ws, [], width);
    forall i | 0 <= i < |gs| ensures Join(gs[i]) == "" <==> gs[i] == [] {
      if gs[i] != [] { JoinEnds(gs[i]); }
    }
    if ws != [] {
      if |ws[0]| + 1 > width {
        var rest := Pack(ws[1..], [ws[0]], width);
        PackFirstGroup(ws[1..], [ws[0]], width);
        assert gs == [[]] + rest;
        WordsOfJoin(rest[0]);
      } else {
        PackFirstGroup(ws[1..], [ws[0]], width);
      }
    }
  }

  /**
   * Across the whole output, an empty line is always followed by a line whose
   * first word is too wide to share a line.
   */
  predicate EmptyLinesBeforeWideWords(out: seq<string>, width: nat) {
    forall i :: 0 <= i < |out| && out[i] == "" ==>
      i + 1 < |out| && Words(out[i + 1]) != [] && |Words(out[i + 1])[0]| + 1 > width
  }

  lemma {:induction false} WrapEmptyLines(ls: seq<string>, width: nat)
    ensures EmptyLinesBeforeWideWords(WrapAll(ls, width), width)
    decreases |ls|
  {
    if ls != [] {
      var p, l := ls[..|ls| - 1], ls[|ls| - 1];
      var a, b := WrapAll(p, width), WrapLine(l, width);
      WrapEmptyLines(p, width);
      WrapLineEmptyLines(l, width);
      var out := WrapAll(ls, width);
      assert out == a + b;
      forall i | 0 <= i < |out| && out[i] == ""
        ensures i + 1 < |out| && Words(out[i + 1]) != [] && |Words(out[i + 1])[0]| + 1 > width
      {
        if i < |a| {
          assert a[i] == "";
          assert i + 1 < |a|;
          assert out[i + 1] == a[i + 1];
        } else {
          assert b[i - |a|] == "";
          assert i - |a| == 0;
          assert out[i + 1] == b[1];
        }
      }
    }
  }

  /** With width 0 every word is on a line of its own, after one leading empty line per input line. */
  lemma WrapLineZeroWidth(line: string)
    requires Words(line) != []
    ensures var ws := Words(line);
      WrapLine(line, 0) == [""] + seq(|ws|, i requires 0 <= i < |ws| => ws[i])
  {
    var ws := Words(line);
    PackZeroWidth(ws, []);
    forall i | 0 <= i < |ws| ensures Join([ws[i]]) == ws[i] { }
  }
}
