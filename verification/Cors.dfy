/**
 The wildcard-origin matcher of src/common/cors.ts: patterns are turned into regular expressions by
 string replacement. Reading the produced text back as a regular expression gives the pattern's
 characters with each star as a run of non-dots, and what it accepts is characterised by substitution.
 */
module Cors {
  import opened Basics

  // ---------- The compiler: two global string replacements ----------

  /** Characters the first replacement puts a backslash before. */
  predicate IsMeta(c: char) {
    c in {'.', '+', '?', '^', '$', '{', '}', '(', ')', '|', '[', ']', '\\'}
  }

  const WILDCARD: string := "[^.]+"

  function EscapeMeta(pattern: string): string {
    if pattern == "" then "" else
    (if IsMeta(pattern[0]) then ['\\', pattern[0]] else [pattern[0]]) + EscapeMeta(pattern[1..])
  }

  function ReplaceStars(text: string): string {
    if text == "" then "" else
    (if text[0] == '*' then WILDCARD else [text[0]]) + ReplaceStars(text[1..])
  }

  function Compile(pattern: string): string {
    "^" + ReplaceStars(EscapeMeta(pattern)) + "$"
  }

  // ---------- Reading a regular expression ----------

  /** The constructs the compiled text uses: a literal character, or one or more non-dots. */
  datatype Atom = Literal(c: char) | Run

  /** The characters with a meaning of their own in an expression. */
  predicate IsSyntax(c: char) {
    c in {'^', '$', '\\', '.', '*', '+', '?', '(', ')', '[', ']', '{', '}', '|'}
  }

  /** Reads an unanchored expression; anything outside the used constructs is not understood. */
  function ReadAtoms(text: string): Option<seq<Atom>>
    decreases |text|
  {
    if text == "" then Some([])
    else if WILDCARD <= text then Prepend(Run, ReadAtoms(text[|WILDCARD|..]))
    else if text[0] == '\\' then
      if |text| > 1 && IsSyntax(text[1]) then Prepend(Literal(text[1]), ReadAtoms(text[2..])) else None
    else if IsSyntax(text[0]) then None
    else Prepend(Literal(text[0]), ReadAtoms(text[1..]))
  }

  function Prepend(atom: Atom, rest: Option<seq<Atom>>): Option<seq<Atom>> {
    if rest.None? then None else Some([atom] + rest.value)
  }

  /** Reads an expression anchored at both ends. */
  function ReadRegex(text: string): Option<seq<Atom>> {
    if |text| >= 2 && text[0] == '^' && text[|text| - 1] == '$' then ReadAtoms(text[1..|text| - 1]) else None
  }

  /** Backtracking search for a match of the whole text. */
  predicate Matches(atoms: seq<Atom>, text: string)
    decreases |text| + |atoms|
  {
    if atoms == [] then text == ""
    else if text == "" then false
    else match atoms[0]
      case Literal(c) => text[0] == c && Matches(atoms[1..], text[1..])
      case Run => text[0] != '.' && (Matches(atoms[1..], text[1..]) || Matches(atoms, text[1..]))
  }

  // ---------- What a pattern means ----------

  /** A single label part: at least one character, none of them a dot. */
  predicate IsRun(run: string) {
    run != "" && '.' !in run
  }

  function Stars(pattern: string): nat {
    if pattern == "" then 0 else (if pattern[0] == '*' then 1 else 0) + Stars(pattern[1..])
  }

  function Dots(text: string): nat {
    if text == "" then 0 else (if text[0] == '.' then 1 else 0) + Dots(text[1..])
  }

  /** The pattern with its stars replaced, in order, by the given texts. */
  function Substitute(pattern: string, runs: seq<string>): string
    requires |runs| == Stars(pattern)
  {
    if pattern == "" then ""
    else if pattern[0] == '*' then runs[0] + Substitute(pattern[1..], runs[1..])
    else [pattern[0]] + Substitute(pattern[1..], runs)
  }

  /** `runs` witnesses that `origin` is an instance of `pattern`. */
  predicate Fills(pattern: string, runs: seq<string>, origin: string) {
    && |runs| == Stars(pattern)
    && (forall i :: 0 <= i < |runs| ==> IsRun(runs[i]))
    && origin == Substitute(pattern, runs)
  }

  ghost predicate IsInstance(pattern: string, origin: string) {
    exists runs :: Fills(pattern, runs, origin)
  }

  function Atoms(pattern: string): (atoms: seq<Atom>)
    ensures |atoms| == |pattern|
  {
    if pattern == "" then [] else
    [if pattern[0] == '*' then Run else Literal(pattern[0])] + Atoms(pattern[1..])
  }

  // ---------- Compiling and reading back ----------

  lemma ReadsHead(head: string, rest: string, atom: Atom)
    requires
      || (head == WILDCARD && atom == Run)
      || (exists c :: IsSyntax(c) && head == ['\\', c] && atom == Literal(c))
      || (|head| == 1 && !IsSyntax(head[0]) && atom == Literal(head[0]))
    ensures ReadAtoms(head + rest) == Prepend(atom, ReadAtoms(rest))
  {
    var text := head + rest;
    assert text[|head|..] == rest;
    if head == WILDCARD {
      assert WILDCARD <= text;
    } else {
      assert text[0] == head[0] != WILDCARD[0];
    }
  }

  lemma ReplaceStarsConcat(a: string, b: string)
    ensures ReplaceStars(a + b) == ReplaceStars(a) + ReplaceStars(b)
  {
    if a == "" {
      assert a + b == b;
    } else {
      assert (a + b)[1..] == a[1..] + b;
      ReplaceStarsConcat(a[1..], b);
    }
  }

  lemma {:induction false} ReadsBack(pattern: string)
    ensures ReadAtoms(ReplaceStars(EscapeMeta(pattern))) == Some(Atoms(pattern))
  {
    if pattern != "" {
      var c := pattern[0];
      var escaped := if IsMeta(c) then ['\\', c] else [c];
      ReplaceStarsConcat(escaped, EscapeMeta(pattern[1..]));
      var head := ReplaceStars(escaped);
      var rest := ReplaceStars(EscapeMeta(pattern[1..]));
      assert head == if c == '*' then WILDCARD else escaped by {
        assert ReplaceStars("") == "";
        if IsMeta(c) {
          assert escaped[1..] == [c] && [c][1..] == [];
        } else {
          assert escaped[1..] == [];
        }
      }
      ReadsHead(head, rest, if c == '*' then Run else Literal(c));
      ReadsBack(pattern[1..]);
    }
  }

  /** The compiled text is a well-formed anchored expression for the pattern's own atoms. */
  lemma CompileReadsBack(pattern: string)
    ensures ReadRegex(Compile(pattern)) == Some(Atoms(pattern))
  {
    var body := ReplaceStars(EscapeMeta(pattern));
    assert Compile(pattern)[1..|Compile(pattern)| - 1] == body;
    ReadsBack(pattern);
  }

  // ---------- Matching is substitution ----------

  lemma {:induction false} MatchGivesRuns(pattern: string, origin: string) returns (runs: seq<string>)
    requires Matches(Atoms(pattern), origin)
    ensures Fills(pattern, runs, origin)
    decreases |pattern| + |origin|
  {
    if pattern == "" {
      runs := [];
    } else if pattern[0] != '*' {
      runs := MatchGivesRuns(pattern[1..], origin[1..]);
      assert origin == [origin[0]] + origin[1..];
    } else if Matches(Atoms(pattern[1..]), origin[1..]) {
      assert Atoms(pattern)[1..] == Atoms(pattern[1..]);
      var tail := MatchGivesRuns(pattern[1..], origin[1..]);
      runs := [[origin[0]]] + tail;
      assert runs[1..] == tail;
    } else {
      assert Atoms(pattern)[1..] == Atoms(pattern[1..]);
      var longer := MatchGivesRuns(pattern, origin[1..]);
      runs := [[origin[0]] + longer[0]] + longer[1..];
      assert runs[1..] == longer[1..];
    }
  }

  lemma {:induction false} RunsGiveMatch(pattern: string, runs: seq<string>, origin: string)
    requires Fills(pattern, runs, origin)
    ensures Matches(Atoms(pattern), origin)
    decreases |pattern| + |origin|
  {
    if pattern == "" {
    } else if pattern[0] != '*' {
      assert origin[1..] == Substitute(pattern[1..], runs);
      RunsGiveMatch(pattern[1..], runs, origin[1..]);
    } else {
      var first, rest := runs[0], Substitute(pattern[1..], runs[1..]);
      assert origin == first + rest && origin[0] == first[0];
      assert Atoms(pattern)[1..] == Atoms(pattern[1..]);
      if |first| == 1 {
        assert origin[1..] == rest;
        RunsGiveMatch(pattern[1..], runs[1..], origin[1..]);
      } else {
        var shorter := [first[1..]] + runs[1..];
        assert shorter[1..] == runs[1..];
        assert origin[1..] == first[1..] + rest;
        RunsGiveMatch(pattern, shorter, origin[1..]);
      }
    }
  }

  /** A compiled wildcard pattern accepts an origin exactly when some substitution produces it. */
  lemma AcceptsExactlyInstances(pattern: string, origin: string)
    ensures ReadRegex(Compile(pattern)).Some?
    ensures Matches(ReadRegex(Compile(pattern)).value, origin) <==> IsInstance(pattern, origin)
  {
    CompileReadsBack(pattern);
    if Matches(Atoms(pattern), origin) {
      var runs := MatchGivesRuns(pattern, origin);
    }
    if IsInstance(pattern, origin) {
      var runs :| Fills(pattern, runs, origin);
      RunsGiveMatch(pattern, runs, origin);
    }
  }

  lemma DotsConcat(a: string, b: string)
    ensures Dots(a + b) == Dots(a) + Dots(b)
  {
    if a == "" {
      assert a + b == b;
    } else {
      assert (a + b)[1..] == a[1..] + b;
      DotsConcat(a[1..], b);
    }
  }

  lemma {:induction run} NoDots(run: string)
    requires '.' !in run
    ensures Dots(run) == 0
  {
  }

  lemma {:induction false} SubstituteKeepsDots(pattern: string, runs: seq<string>)
    requires |runs| == Stars(pattern)
    requires forall i :: 0 <= i < |runs| ==> IsRun(runs[i])
    ensures Dots(Substitute(pattern, runs)) == Dots(pattern)
  {
    if pattern == "" {
    } else if pattern[0] == '*' {
      SubstituteKeepsDots(pattern[1..], runs[1..]);
      DotsConcat(runs[0], Substitute(pattern[1..], runs[1..]));
      NoDots(runs[0]);
    } else {
      SubstituteKeepsDots(pattern[1..], runs);
    }
  }

  // ---------- The policy ----------

  /** One matcher: exact comparison without a star, the compiled expression with one. */
  predicate Accepts(pattern: string, origin: string) {
    if '*' !in pattern then origin == pattern
    else
      CompileReadsBack(pattern);
      Matches(ReadRegex(Compile(pattern)).value, origin)
  }

  /**
   The policy: an absent or empty origin passes. Without an allow-list every other one passes outside production
   and none in it; with one, an accepted one passes.
   */
  predicate Allows(patterns: seq<string>, production: bool, origin: Option<string>) {
    || origin.None? || origin.value == ""
    || if patterns == [] then !production else exists i :: 0 <= i < |patterns| && Accepts(patterns[i], origin.value)
  }

  lemma {:induction false} WithoutStars(pattern: string)
    requires '*' !in pattern
    ensures Stars(pattern) == 0 && Substitute(pattern, []) == pattern
  {
    if pattern != "" {
      WithoutStars(pattern[1..]);
    }
  }

  /** Both kinds of matcher agree with substitution, and never change the number of dots. */
  lemma AcceptsIsInstance(pattern: string, origin: string)
    ensures Accepts(pattern, origin) <==> IsInstance(pattern, origin)
    ensures Accepts(pattern, origin) ==> Dots(origin) == Dots(pattern)
  {
    if '*' !in pattern {
      WithoutStars(pattern);
      if origin == pattern {
        assert Fills(pattern, [], origin);
      }
      if runs :| Fills(pattern, runs, origin) {
        assert runs == [];
      }
    } else {
      AcceptsExactlyInstances(pattern, origin);
      if runs :| Fills(pattern, runs, origin) {
        SubstituteKeepsDots(pattern, runs);
      }
    }
  }

  /** With an allow-list, a browser's origin passes exactly when it is an instance of a listed pattern. */
  lemma AllowsExactlyInstances(patterns: seq<string>, production: bool, origin: Option<string>)
    ensures Allows(patterns, production, origin) <==>
              || origin.None? || origin.value == ""
              || if patterns == [] then !production
                 else exists i :: 0 <= i < |patterns| && IsInstance(patterns[i], origin.value)
  {
    if origin.Some? {
      forall i | 0 <= i < |patterns|
        ensures Accepts(patterns[i], origin.value) <==> IsInstance(patterns[i], origin.value)
      {
        AcceptsIsInstance(patterns[i], origin.value);
      }
    }
  }
}
