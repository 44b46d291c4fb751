/** White space, words and case folding of text. */
module PlainText {

  /** `str.isspace` of one character. */
  predicate IsSpace(c: char) {
    var n := c as int;
    || 0x09 <= n <= 0x0D || 0x1C <= n <= 0x20 || n == 0x85 || n == 0xA0 || n == 0x1680
    || 0x2000 <= n <= 0x200A || n == 0x2028 || n == 0x2029 || n == 0x202F || n == 0x205F || n == 0x3000
  }

  function TrimStart(s: string): string {
    if s != [] && IsSpace(s[0]) then TrimStart(s[1..]) else s
  }

  function TrimEnd(s: string): string {
    if s != [] && IsSpace(s[|s| - 1]) then TrimEnd(s[..|s| - 1]) else s
  }

  /** `strip()`. */
  function Trimmed(s: string): string {
    TrimEnd(TrimStart(s))
  }

  /** `not text.strip()`. */
  predicate Blank(text: string) {
    Trimmed(text) == ""
  }

  /** What case folding makes of each character: any table, and possibly several characters for one. */
  type Folding = char -> string

  /** `casefold()`. */
  function Fold(folding: Folding, s: string): string {
    if s == [] then [] else folding(s[0]) + Fold(folding, s[1..])
  }

  /** `split()`: the maximal runs of non-space characters, with `word` already read. */
  function Split(s: string, word: string): seq<string> {
    if s == [] then (if word == [] then [] else [word])
    else if IsSpace(s[0]) then (if word == [] then [] else [word]) + Split(s[1..], [])
    else Split(s[1..], word + [s[0]])
  }

  /** `" ".join(words)`. */
  function Join(words: seq<string>): string {
    if words == [] then [] else if |words| == 1 then words[0] else words[0] + " " + Join(words[1..])
  }

  ghost predicate IsWord(w: string) {
    w != [] && forall i :: 0 <= i < |w| ==> !IsSpace(w[i])
  }

  lemma {:induction false} SplitWords(s: string, word: string)
    requires word == [] || IsWord(word)
    ensures forall w :: w in Split(s, word) ==> IsWord(w)
  {
    if s != [] {
      SplitWords(s[1..], if IsSpace(s[0]) then [] else word + [s[0]]);
    }
  }

  lemma {:induction false} SplitRun(w: string, rest: string, word: string)
    requires forall i :: 0 <= i < |w| ==> !IsSpace(w[i])
    ensures Split(w + rest, word) == Split(rest, word + w)
    decreases |w|
  {
    if w == [] {
      assert w + rest == rest && word + w == word;
    } else {
      assert (w + rest)[1..] == w[1..] + rest;
      assert word + w == word + [w[0]] + w[1..];
      SplitRun(w[1..], rest, word + [w[0]]);
    }
  }

  /** Joining words and splitting them again gives the words. */
  lemma {:induction false} SplitJoin(words: seq<string>)
    requires forall w :: w in words ==> IsWord(w)
    ensures Split(Join(words), []) == words
  {
    if |words| == 1 {
      assert IsWord(words[0]);
      SplitRun(words[0], [], []);
      assert words[0] + [] == words[0] && [] + words[0] == words[0];
    } else if words != [] {
      assert IsWord(words[0]);
      var rest := " " + Join(words[1..]);
      assert Join(words) == words[0] + rest;
      SplitRun(words[0], rest, []);
      assert [] + words[0] == words[0];
      assert rest[1..] == Join(words[1..]);
      SplitJoin(words[1..]);
    }
  }

  // ---- Folding twice ----

  /** Folded characters fold to themselves, and so does the space that joins words. */
  ghost predicate Stable(folding: Folding) {
    folding(' ') == " " && forall c, i :: 0 <= i < |folding(c)| ==> folding(folding(c)[i]) == [folding(c)[i]]
  }

  ghost predicate Folded(folding: Folding, s: string) {
    forall i :: 0 <= i < |s| ==> folding(s[i]) == [s[i]]
  }

  lemma {:induction false} FoldOfFolded(folding: Folding, s: string)
    requires Folded(folding, s)
    ensures Fold(folding, s) == s
  {
    if s != [] {
      FoldOfFolded(folding, s[1..]);
      assert folding(s[0]) + s[1..] == s;
    }
  }

  lemma {:induction false} FoldFolds(folding: Folding, s: string)
    requires Stable(folding)
    ensures Folded(folding, Fold(folding, s))
  {
    if s != [] {
      FoldFolds(folding, s[1..]);
    }
  }

  lemma {:induction false} WordsFolded(folding: Folding, s: string, word: string)
    requires Folded(folding, s) && Folded(folding, word)
    ensures forall w :: w in Split(s, word) ==> Folded(folding, w)
  {
    if s != [] {
      WordsFolded(folding, s[1..], if IsSpace(s[0]) then [] else word + [s[0]]);
    }
  }

  lemma {:induction false} JoinFolded(folding: Folding, words: seq<string>)
    requires folding(' ') == " " && forall w :: w in words ==> Folded(folding, w)
    ensures Folded(folding, Join(words))
  {
    if |words| > 1 {
      assert Folded(folding, words[0]);
      JoinFolded(folding, words[1..]);
    } else if |words| == 1 {
      assert Folded(folding, words[0]);
    }
  }

  lemma {:induction false} JoinTrimmed(words: seq<string>)
    requires forall w :: w in words ==> IsWord(w)
    ensures Trimmed(Join(words)) == Join(words)
    ensures words != [] ==> Join(words) != [] && !IsSpace(Join(words)[0]) && !IsSpace(Join(words)[|Join(words)| - 1])
  {
    if words != [] {
      assert IsWord(words[0]);
      JoinTrimmed(words[1..]);
      if |words| > 1 {
        var rest := Join(words[1..]);
        assert Join(words)[|Join(words)| - 1] == rest[|rest| - 1];
      }
    }
  }

  // ---- What trimming and splitting mean ----

  ghost predicate AllSpace(s: string) {
    forall i :: 0 <= i < |s| ==> IsSpace(s[i])
  }

  lemma {:induction false} TrimStartExactly(s: string) returns (before: string)
    ensures s == before + TrimStart(s) && AllSpace(before)
    ensures TrimStart(s) != [] ==> !IsSpace(TrimStart(s)[0])
  {
    before := [];
    if s != [] && IsSpace(s[0]) {
      var more := TrimStartExactly(s[1..]);
      before := [s[0]] + more;
      assert s == [s[0]] + s[1..];
    }
  }

  lemma {:induction false} TrimEndExactly(s: string) returns (after: string)
    ensures s == TrimEnd(s) + after && AllSpace(after) && TrimEnd(s) <= s
    ensures TrimEnd(s) != [] ==> !IsSpace(TrimEnd(s)[|TrimEnd(s)| - 1])
  {
    after := [];
    if s != [] && IsSpace(s[|s| - 1]) {
      var more := TrimEndExactly(s[..|s| - 1]);
      after := more + [s[|s| - 1]];
      assert s == s[..|s| - 1] + [s[|s| - 1]];
    }
  }

  /** Trimming takes white space from both ends and no more: what is left begins and ends without it. */
  lemma TrimmedExactly(s: string) returns (before: string, after: string)
    ensures s == before + Trimmed(s) + after && AllSpace(before) && AllSpace(after)
    ensures Trimmed(s) != [] ==> !IsSpace(Trimmed(s)[0]) && !IsSpace(Trimmed(s)[|Trimmed(s)| - 1])
  {
    before := TrimStartExactly(s);
    after := TrimEndExactly(TrimStart(s));
  }

  /** A text is blank exactly when it is white space throughout. */
  lemma BlankExactly(s: string)
    ensures Blank(s) <==> AllSpace(s)
  {
    var before, after := TrimmedExactly(s);
    if Trimmed(s) != [] {
      assert s[|before|] == Trimmed(s)[0];
    }
  }

  /** White space is exactly these characters: controls that break lines or fields, and the blanks of any width. */
  lemma SpacesExactly(c: char)
    ensures IsSpace(c)
            <==> c in ['\t', '\n', '\U{000b}', '\U{000c}', '\r', '\U{001c}', '\U{001d}', '\U{001e}', '\U{001f}', ' ',
                       '\U{0085}', '\U{00a0}', '\U{1680}', '\U{2000}', '\U{2001}', '\U{2002}', '\U{2003}', '\U{2004}',
                       '\U{2005}', '\U{2006}', '\U{2007}', '\U{2008}', '\U{2009}', '\U{200a}', '\U{2028}', '\U{2029}',
                       '\U{202f}', '\U{205f}', '\U{3000}']
  {
  }

  /** Splitting at a white space character splits both sides; a text without any is one word. */
  lemma {:induction false} SplitAtSpace(a: string, c: char, b: string, word: string)
    requires IsSpace(c)
    ensures Split(a + [c] + b, word) == Split(a, word) + Split(b, [])
    decreases |a|
  {
    if a == [] {
      assert [] + [c] + b == [c] + b && ([c] + b)[1..] == b;
    } else {
      assert (a + [c] + b)[1..] == a[1..] + [c] + b;
      SplitAtSpace(a[1..], c, b, if IsSpace(a[0]) then [] else word + [a[0]]);
    }
  }

  lemma SplitOneWord(w: string)
    ensures Split([], []) == []
    ensures IsWord(w) ==> Split(w, []) == [w]
  {
    if IsWord(w) {
      SplitRun(w, [], []);
      assert w + [] == w && [] + w == w;
    }
  }

  /** Folding goes character by character. */
  lemma {:induction false} FoldAppend(folding: Folding, a: string, b: string)
    ensures Fold(folding, a + b) == Fold(folding, a) + Fold(folding, b)
    ensures |a| == 1 ==> Fold(folding, a) == folding(a[0])
  {
    if a == [] {
      assert a + b == b;
    } else {
      assert (a + b)[1..] == a[1..] + b;
      FoldAppend(folding, a[1..], b);
    }
  }
}
