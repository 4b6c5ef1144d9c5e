/**
 The name key of src/common/utils/normalize-name.ts, behind table-name and zone-code uniqueness.
 Case mapping is modelled for the ASCII letters.
 */
module Names {

  /** The characters JavaScript's `\s` and `trim` treat as white space. */
  predicate IsSpace(c: char) {
    var n := c as int;
    || 9 <= n <= 13 || n == 32 || n == 0xA0 || n == 0x1680 || 0x2000 <= n <= 0x200A
    || n == 0x2028 || n == 0x2029 || n == 0x202F || n == 0x205F || n == 0x3000 || n == 0xFEFF
  }

  function LowerChar(c: char): char {
    if 'A' <= c <= 'Z' then c - 'A' + 'a' else c
  }

  function Lower(s: string): (t: string)
    ensures |t| == |s| && forall i :: 0 <= i < |s| ==> t[i] == LowerChar(s[i])
  {
    seq(|s|, i requires 0 <= i < |s| => LowerChar(s[i]))
  }

  function TrimStart(s: string): (t: string)
    ensures |t| <= |s|
    ensures t != "" ==> !IsSpace(t[0])
    ensures t != "" ==> t[|t| - 1] == s[|s| - 1]
  {
    if s != "" && IsSpace(s[0]) then TrimStart(s[1..]) else s
  }

  function TrimEnd(s: string): (t: string)
    ensures t <= s
    ensures t != "" ==> !IsSpace(t[|t| - 1])
  {
    if s != "" && IsSpace(s[|s| - 1]) then TrimEnd(s[..|s| - 1]) else s
  }

  function Trim(s: string): string {
    TrimEnd(TrimStart(s))
  }

  /** Replaces every run of white space by one space. */
  function Collapse(s: string): string
    decreases |s|
  {
    if s == "" then ""
    else if IsSpace(s[0]) then " " + Collapse(TrimStart(s[1..]))
    else [s[0]] + Collapse(s[1..])
  }

  function NormalizeName(name: string): string {
    Lower(Collapse(Trim(name)))
  }

  // ---------- The independent reading: a name is its list of words ----------

  /** The maximal white-space-free pieces of a string, left to right. */
  function Words(s: string): (words: seq<string>)
    ensures s != "" && !IsSpace(s[0]) ==> words != []
  {
    if s == "" then []
    else if IsSpace(s[0]) then Words(s[1..])
    else if |s| == 1 || IsSpace(s[1]) then [[s[0]]] + Words(s[1..])
    else [[s[0]] + Words(s[1..])[0]] + Words(s[1..])[1..]
  }

  function LowerAll(words: seq<string>): (lowered: seq<string>)
    ensures |lowered| == |words| && forall i :: 0 <= i < |words| ==> lowered[i] == Lower(words[i])
  {
    seq(|words|, i requires 0 <= i < |words| => Lower(words[i]))
  }

  function JoinWords(words: seq<string>): string {
    if words == [] then ""
    else if |words| == 1 then words[0]
    else words[0] + " " + JoinWords(words[1..])
  }

  predicate IsWord(w: string) {
    w != "" && NoSpace(w)
  }

  predicate NoSpace(s: string) {
    forall i :: 0 <= i < |s| ==> !IsSpace(s[i])
  }

  predicate AreWords(words: seq<string>) {
    forall i :: 0 <= i < |words| ==> IsWord(words[i])
  }

  /** The words of a name, ignoring case. */
  function Key(name: string): seq<string> {
    LowerAll(Words(name))
  }

  // ---------- Words and trimming ----------

  lemma {:induction false} WordsAreWords(s: string)
    ensures AreWords(Words(s))
  {
    if s != "" {
      WordsAreWords(s[1..]);
    }
  }

  lemma {:induction false} WordsOfTrimStart(s: string)
    ensures Words(TrimStart(s)) == Words(s)
  {
    if s != "" && IsSpace(s[0]) {
      WordsOfTrimStart(s[1..]);
    }
  }

  lemma {:induction false} WordsIgnoreLastSpace(s: string)
    requires s != "" && IsSpace(s[|s| - 1])
    ensures Words(s) == Words(s[..|s| - 1])
  {
    if |s| == 1 {
      assert Words(s) == Words(s[1..]) == [];
    } else {
      var t := s[..|s| - 1];
      assert t[1..] == s[1..][..|s[1..]| - 1];
      WordsIgnoreLastSpace(s[1..]);
    }
  }

  lemma {:induction false} WordsOfTrimEnd(s: string)
    ensures Words(TrimEnd(s)) == Words(s)
  {
    if s != "" && IsSpace(s[|s| - 1]) {
      WordsIgnoreLastSpace(s);
      WordsOfTrimEnd(s[..|s| - 1]);
    }
  }

  lemma TrimStartKeepsNonSpace(s: string)
    requires s != "" && !IsSpace(s[|s| - 1])
    ensures TrimStart(s) != ""
  {
  }

  /** A one-letter word followed by white space. */
  lemma WordsAfterSpace(c: char, rest: string)
    requires !IsSpace(c) && rest != "" && IsSpace(rest[0]) && !IsSpace(rest[|rest| - 1])
    ensures TrimStart(rest[1..]) != "" && Words([c] + rest) == [[c]] + Words(TrimStart(rest[1..]))
  {
    assert ([c] + rest)[1..] == rest;
    TrimStartKeepsNonSpace(rest[1..]);
    WordsOfTrimStart(rest[1..]);
  }

  lemma JoinAfterFirst(first: string, words: seq<string>)
    requires words != []
    ensures JoinWords([first] + words) == first + " " + JoinWords(words)
  {
    assert ([first] + words)[1..] == words;
  }

  lemma JoinLongerFirst(c: char, words: seq<string>)
    requires words != []
    ensures JoinWords([[c] + words[0]] + words[1..]) == [c] + JoinWords(words)
  {
    if |words| > 1 {
      JoinAfterFirst([c] + words[0], words[1..]);
    }
  }

  lemma {:induction false} CollapseJoins(s: string)
    requires s != "" ==> !IsSpace(s[0]) && !IsSpace(s[|s| - 1])
    ensures Collapse(s) == JoinWords(Words(s))
    decreases |s|
  {
    if |s| == 1 {
      assert Collapse(s[1..]) == "" && Words(s) == [[s[0]]];
    } else if |s| > 1 {
      var rest := s[1..];
      assert s == [s[0]] + rest;
      if IsSpace(rest[0]) {
        var tail := TrimStart(rest[1..]);
        WordsAfterSpace(s[0], rest);
        CollapseJoins(tail);
        JoinAfterFirst([s[0]], Words(tail));
        assert Collapse(s) == [s[0]] + (" " + Collapse(tail));
      } else {
        CollapseJoins(rest);
        JoinLongerFirst(s[0], Words(rest));
        assert Collapse(s) == [s[0]] + Collapse(rest);
      }
    }
  }

  lemma {:induction false} LowerJoins(words: seq<string>)
    ensures Lower(JoinWords(words)) == JoinWords(LowerAll(words))
  {
    if |words| > 1 {
      LowerJoins(words[1..]);
      assert LowerAll(words)[1..] == LowerAll(words[1..]);
      assert Lower(JoinWords(words)) == Lower(words[0]) + " " + Lower(JoinWords(words[1..]));
    } else if |words| == 1 {
      assert LowerAll(words) == [Lower(words[0])];
    }
  }

  lemma LowerKeepsWords(words: seq<string>)
    requires AreWords(words)
    ensures AreWords(LowerAll(words))
  {
    forall i | 0 <= i < |words|
      ensures IsWord(LowerAll(words)[i])
    {
      assert IsWord(words[i]);
    }
  }

  lemma {:induction false} WordsOfWordThenSpace(word: string, rest: string)
    requires IsWord(word)
    requires rest == "" || IsSpace(rest[0])
    ensures Words(word + rest) == [word] + Words(rest)
  {
    var s := word + rest;
    if |word| == 1 {
      assert s[1..] == rest;
      assert [s[0]] == word;
    } else {
      assert s[1..] == word[1..] + rest;
      WordsOfWordThenSpace(word[1..], rest);
      assert [s[0]] + word[1..] == word;
    }
  }

  lemma {:induction false} WordsOfJoin(words: seq<string>)
    requires AreWords(words)
    ensures Words(JoinWords(words)) == words
  {
    if |words| > 1 {
      var rest := " " + JoinWords(words[1..]);
      WordsOfWordThenSpace(words[0], rest);
      assert JoinWords(words) == words[0] + rest;
      assert rest[1..] == JoinWords(words[1..]);
      WordsOfJoin(words[1..]);
    } else if |words| == 1 {
      WordsOfWordThenSpace(words[0], "");
      assert words[0] + "" == words[0];
    }
  }

  // ---------- What the key means ----------

  /** The normalized name is its lower-cased words joined by single spaces. */
  lemma NormalizeJoinsWords(name: string)
    ensures NormalizeName(name) == JoinWords(Key(name))
  {
    var start := TrimStart(name);
    var t := Trim(name);
    WordsOfTrimStart(name);
    WordsOfTrimEnd(start);
    CollapseJoins(t);
    LowerJoins(Words(t));
  }

  lemma WordsOfNormalized(name: string)
    ensures Words(NormalizeName(name)) == Key(name)
  {
    NormalizeJoinsWords(name);
    WordsAreWords(name);
    LowerKeepsWords(Words(name));
    WordsOfJoin(Key(name));
  }

  /** Two names collide exactly when they have the same words up to case. */
  lemma SameKey(a: string, b: string)
    ensures NormalizeName(a) == NormalizeName(b) <==> Key(a) == Key(b)
  {
    NormalizeJoinsWords(a);
    NormalizeJoinsWords(b);
    WordsOfNormalized(a);
    WordsOfNormalized(b);
  }

  lemma LowerAllTwice(words: seq<string>)
    ensures LowerAll(LowerAll(words)) == LowerAll(words)
  {
    forall i | 0 <= i < |words|
      ensures LowerAll(LowerAll(words))[i] == LowerAll(words)[i]
    {
      assert Lower(Lower(words[i])) == Lower(words[i]);
    }
  }

  /** Normalizing twice is normalizing once. */
  lemma Idempotent(name: string)
    ensures NormalizeName(NormalizeName(name)) == NormalizeName(name)
  {
    WordsOfNormalized(name);
    NormalizeJoinsWords(name);
    NormalizeJoinsWords(NormalizeName(name));
    LowerAllTwice(Words(name));
  }

  /** A white-space-free name only has its case folded. */
  lemma NormalizeWithoutSpaces(name: string)
    requires NoSpace(name)
    ensures NormalizeName(name) == Lower(name)
  {
    NormalizeJoinsWords(name);
    if name != "" {
      KeyOfWord(name);
    }
  }

  lemma KeyOfWord(word: string)
    requires IsWord(word)
    ensures Key(word) == [Lower(word)]
  {
    WordsOfWordThenSpace(word, "");
    assert word + "" == word;
  }
}
