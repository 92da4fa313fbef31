/** The helpers of the unit-test driver: splitting a command line written as
    one string into its words, and comparing the keys of a values map with
    the keys a test expects. */
module TestSupport {
  import opened Strings
  import opened ProgramOptions

  /** The characters `split` cuts at: space and tab. */
  predicate IsBlank(c: char) {
    c == ' ' || c == '\t'
  }

  predicate NoBlank(s: string) {
    forall i :: 0 <= i < |s| ==> !IsBlank(s[i])
  }

  predicate AllBlank(s: string) {
    forall i :: 0 <= i < |s| ==> IsBlank(s[i])
  }

  /** The length of the longest prefix of `s` without a blank. */
  function WordLength(s: string): (n: nat)
    ensures n <= |s| && NoBlank(s[..n])
    ensures n < |s| ==> IsBlank(s[n])
  {
    if |s| == 0 || IsBlank(s[0]) then 0
    else
      var n := 1 + WordLength(s[1..]);
      assert s[..n] == [s[0]] + s[1..][..n - 1];
      n
  }

  /** The length of the longest prefix of `s` made only of blanks. */
  function BlankLength(s: string): (n: nat)
    ensures n <= |s| && AllBlank(s[..n])
    ensures n < |s| ==> !IsBlank(s[n])
    ensures |s| > 0 && IsBlank(s[0]) ==> n >= 1
  {
    if |s| == 0 || !IsBlank(s[0]) then 0
    else
      var n := 1 + BlankLength(s[1..]);
      assert s[..n] == [s[0]] + s[1..][..n - 1];
      n
  }

  /** What a split may produce: at least one word, no word holding a blank,
      and no empty word except possibly the first and the last. */
  predicate Splittable(words: seq<string>) {
    && |words| >= 1
    && (forall i :: 0 <= i < |words| ==> NoBlank(words[i]))
    && (forall i :: 0 < i < |words| - 1 ==> words[i] != "")
  }

  /** `boost::split(args, line, is_any_of(" \t"), token_compress_on)`: the
      line is cut at every run of blanks, each run counting as one
      separator. A blank at either end therefore leaves an empty word at
      that end, and the empty line is one empty word. */
  function Split(line: string): (words: seq<string>)
    ensures Splittable(words)
    ensures words[0] == "" <==> |line| == 0 || IsBlank(line[0])
    decreases |line|
  {
    var w := WordLength(line);
    if w == |line| then [line]
    else
      var b := BlankLength(line[w..]);
      [line[..w]] + Split(line[w + b..])
  }

  /** Words written one after another. */
  function Concat(words: seq<string>): string {
    if |words| == 0 then "" else words[0] + Concat(words[1..])
  }

  /** The characters of `s` that are not blanks, in order. */
  function Unblanked(s: string): (r: string)
    ensures NoBlank(r) && |r| <= |s|
  {
    if |s| == 0 then ""
    else (if IsBlank(s[0]) then "" else [s[0]]) + Unblanked(s[1..])
  }

  lemma {:induction false} UnblankedAppend(x: string, y: string)
    ensures Unblanked(x + y) == Unblanked(x) + Unblanked(y)
    decreases |x|
  {
    if |x| > 0 {
      assert (x + y)[1..] == x[1..] + y;
      UnblankedAppend(x[1..], y);
    } else {
      assert x + y == y;
    }
  }

  lemma {:induction false} UnblankedWord(s: string)
    requires NoBlank(s)
    ensures Unblanked(s) == s
    decreases |s|
  {
    if |s| > 0 {
      UnblankedWord(s[1..]);
      assert s == [s[0]] + s[1..];
    }
  }

  lemma {:induction false} UnblankedBlanks(s: string)
    requires AllBlank(s)
    ensures Unblanked(s) == ""
    decreases |s|
  {
    if |s| > 0 {
      UnblankedBlanks(s[1..]);
    }
  }

  /** A word, then blanks, then anything: the blanks disappear and the word stays. */
  lemma UnblankedParts(word: string, blanks: string, rest: string)
    requires NoBlank(word) && AllBlank(blanks)
    ensures Unblanked(word + blanks + rest) == word + Unblanked(rest)
  {
    var tail := blanks + rest;
    assert word + blanks + rest == word + tail;
    UnblankedAppend(word, tail);
    UnblankedAppend(blanks, rest);
    UnblankedWord(word);
    UnblankedBlanks(blanks);
    assert Unblanked(tail) == Unblanked(rest);
  }

  lemma ConcatCons(word: string, words: seq<string>)
    ensures Concat([word] + words) == word + Concat(words)
  {
    assert ([word] + words)[1..] == words;
  }

  /** Splitting loses nothing but blanks: the words, written one after
      another, are the line with its blanks taken out. */
  lemma {:induction false} SplitKeepsCharacters(line: string)
    ensures Concat(Split(line)) == Unblanked(line)
    decreases |line|
  {
    var w := WordLength(line);
    if w == |line| {
      assert line[..w] == line;
      UnblankedWord(line);
      ConcatCons(line, []);
    } else {
      var b := BlankLength(line[w..]);
      var word, blanks, rest := line[..w], line[w..][..b], line[w + b..];
      assert line == word + blanks + rest;
      SplitKeepsCharacters(rest);
      ConcatCons(word, Split(rest));
      UnblankedParts(word, blanks, rest);
    }
  }

  /** A word stops at the first blank after it. */
  lemma {:induction false} WordLengthBefore(word: string, tail: string)
    requires NoBlank(word) && |tail| > 0 && IsBlank(tail[0])
    ensures WordLength(word + tail) == |word|
    decreases |word|
  {
    if |word| > 0 {
      assert (word + tail)[1..] == word[1..] + tail;
      WordLengthBefore(word[1..], tail);
    }
  }

  /** A run of blanks stops at the first character that is not one. */
  lemma {:induction false} BlankLengthBefore(blanks: string, tail: string)
    requires AllBlank(blanks) && (|tail| > 0 ==> !IsBlank(tail[0]))
    ensures BlankLength(blanks + tail) == |blanks|
    decreases |blanks|
  {
    if |blanks| > 0 {
      assert (blanks + tail)[1..] == blanks[1..] + tail;
      BlankLengthBefore(blanks[1..], tail);
    } else {
      assert blanks + tail == tail;
    }
  }

  /** A word followed by a non-empty run of blanks and then text that does
      not start with a blank: the word and the run are measured exactly. */
  lemma WordThenBlanks(word: string, sep: string, rest: string)
    requires NoBlank(word) && |sep| > 0 && AllBlank(sep)
    requires |rest| > 0 ==> !IsBlank(rest[0])
    ensures WordLength(word + sep + rest) == |word|
    ensures BlankLength((word + sep + rest)[|word|..]) == |sep|
    ensures (word + sep + rest)[..|word|] == word
    ensures (word + sep + rest)[|word| + |sep|..] == rest
  {
    assert word + sep + rest == word + (sep + rest);
    WordLengthBefore(word, sep + rest);
    assert (word + sep + rest)[|word|..] == sep + rest;
    BlankLengthBefore(sep, rest);
  }

  /** One step of splitting: a word, a run of blanks, and the rest. */
  lemma SplitStep(word: string, sep: string, rest: string)
    requires NoBlank(word) && |sep| > 0 && AllBlank(sep)
    requires |rest| > 0 ==> !IsBlank(rest[0])
    ensures Split(word + sep + rest) == [word] + Split(rest)
  {
    WordThenBlanks(word, sep, rest);
  }

  /** A word alone splits into itself. */
  lemma SplitWord(word: string)
    requires NoBlank(word)
    ensures Split(word) == [word]
  {
  }

  /** Splitting undoes joining: words that a split could have produced,
      joined with any non-empty run of blanks, split back into themselves. */
  lemma {:induction false} SplitJoin(words: seq<string>, sep: string)
    requires Splittable(words)
    requires |sep| > 0 && AllBlank(sep)
    ensures Split(JoinWith(words, sep)) == words
    decreases |words|
  {
    if |words| == 1 {
      assert JoinWith(words, sep) == words[0];
      SplitWord(words[0]);
    } else {
      JoinWithCons(words, sep);
      var rest := JoinWith(words[1..], sep);
      assert Splittable(words[1..]) by {
        forall i | 0 < i < |words[1..]| - 1 ensures words[1..][i] != "" {
          assert words[1..][i] == words[i + 1];
        }
      }
      if |words[1..]| >= 2 {
        JoinWithEnds(words[1..], sep);
        assert rest[..|words[1]|][0] == words[1][0];
      } else {
        assert rest == words[1];
      }
      SplitStep(words[0], sep, rest);
      SplitJoin(words[1..], sep);
      assert [words[0]] + words[1..] == words;
    }
  }

  /** Words with a run of blanks between each two split into those words:
      two, three and four of them. */
  lemma SplitTwoWords(c: string, s3: string, d: string)
    requires NoBlank(c) && NoBlank(d) && |d| > 0 && AllBlank(s3) && |s3| > 0
    ensures Split(c + s3 + d) == [c, d]
  {
    SplitWord(d);
    SplitStep(c, s3, d);
  }

  lemma SplitThreeWords(b: string, s2: string, c: string, s3: string, d: string)
    requires NoBlank(b) && NoBlank(c) && NoBlank(d) && |c| > 0 && |d| > 0
    requires AllBlank(s2) && AllBlank(s3) && |s2| > 0 && |s3| > 0
    ensures Split(b + s2 + (c + s3 + d)) == [b, c, d]
  {
    var r3 := c + s3 + d;
    SplitTwoWords(c, s3, d);
    assert r3[0] == c[0];
    SplitStep(b, s2, r3);
  }

  lemma SplitFourWords(a: string, s1: string, b: string, s2: string, c: string, s3: string, d: string)
    requires NoBlank(a) && NoBlank(b) && NoBlank(c) && NoBlank(d) && |b| > 0 && |c| > 0 && |d| > 0
    requires AllBlank(s1) && AllBlank(s2) && AllBlank(s3) && |s1| > 0 && |s2| > 0 && |s3| > 0
    ensures Split(a + s1 + (b + s2 + (c + s3 + d))) == [a, b, c, d]
  {
    var r2 := b + s2 + (c + s3 + d);
    SplitThreeWords(b, s2, c, s3, d);
    assert r2[0] == b[0];
    SplitStep(a, s1, r2);
  }

  lemma ExampleWords()
    ensures Split("alpha" + " " + ("beta" + "   " + ("gamma" + " \t \t " + "delta")))
         == ["alpha", "beta", "gamma", "delta"]
  {
    SplitFourWords("alpha", " ", "beta", "   ", "gamma", " \t \t ", "delta");
  }

  lemma ExampleLine()
    ensures "alpha" + " " + ("beta" + "   " + ("gamma" + " \t \t " + "delta"))
         == "alpha beta   gamma \t \t delta"
  {
  }

  /** The splitting test case: runs of spaces and tabs between words are
      single separators. */
  lemma SplitExample()
    ensures Split("alpha beta   gamma \t \t delta") == ["alpha", "beta", "gamma", "delta"]
  {
    ExampleWords();
    ExampleLine();
  }

  /** `check_vm_keys(vm, expected)`: collect the keys of the values map one
      by one and compare the collection with the expected set. */
  method CheckVmKeys(vm: VarMap, expected: set<string>) returns (observed: set<string>, ok: bool)
    ensures observed == vm.Keys
    ensures ok <==> vm.Keys == expected
  {
    observed := {};
    var pending := vm.Keys;
    while pending != {}
      invariant observed + pending == vm.Keys
      invariant observed !! pending
      decreases pending
    {
      var key :| key in pending;
      observed := observed + {key};
      pending := pending - {key};
    }
    ok := observed == expected;
  }
}
