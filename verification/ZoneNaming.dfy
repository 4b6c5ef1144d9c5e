/**
 The two smallest-unused-number searches of src/zones/zones.service.ts: the code of a new zone and the
 suggested name of a zone's next table.
 */
module ZoneNaming {
  import opened Names
  import Decimal

  /** The columns of a zone row the code computation reads. */
  datatype NamedCode = NamedCode(name: string, code: string)

  function UpperChar(c: char): char {
    if 'a' <= c <= 'z' then c - 'a' + 'A' else c
  }

  function Upper(s: string): (t: string)
    ensures |t| == |s| && forall i :: 0 <= i < |s| ==> t[i] == UpperChar(s[i])
  {
    seq(|s|, i requires 0 <= i < |s| => UpperChar(s[i]))
  }

  /** The part of a string before its first white space. */
  function FirstPiece(s: string): (piece: string)
    ensures NoSpace(piece)
  {
    if s == "" || IsSpace(s[0]) then "" else [s[0]] + FirstPiece(s[1..])
  }

  /** `name.trim().split(/\s+/)[0]`. */
  function LeadingWord(name: string): (word: string)
    ensures NoSpace(word)
  {
    FirstPiece(Trim(name))
  }

  predicate IsPiso(name: string) {
    Lower(LeadingWord(name)) == "piso"
  }

  /** Nothing for a "Piso" zone, otherwise up to three letters of the leading word. */
  function Prefix(name: string): (prefix: string)
    ensures NoSpace(prefix)
  {
    if IsPiso(name) then "" else
    var upper := Upper(LeadingWord(name));
    if |upper| <= 3 then upper else upper[..3]
  }

  lemma {:induction false} FirstPieceIsWord(s: string)
    requires s != "" && !IsSpace(s[0])
    ensures Words(s) != [] && FirstPiece(s) == Words(s)[0]
  {
    if |s| > 1 && !IsSpace(s[1]) {
      FirstPieceIsWord(s[1..]);
    }
  }

  lemma LeadingIsFirstWord(name: string)
    ensures LeadingWord(name) == if Words(name) == [] then "" else Words(name)[0]
  {
    WordsOfTrimStart(name);
    WordsOfTrimEnd(TrimStart(name));
    if Trim(name) != "" {
      FirstPieceIsWord(Trim(name));
    }
  }

  /** Codes of zones so named start like this: with nothing for "Piso", else with three capitals of the first word. */
  predicate StartsCode(name: string, prefix: string) {
    var words := Words(name);
    if words == [] || Lower(words[0]) == "piso" then prefix == ""
    else
      && |prefix| == (if |words[0]| < 3 then |words[0]| else 3)
      && forall i :: 0 <= i < |prefix| ==>
           prefix[i] == if 'a' <= words[0][i] <= 'z' then words[0][i] - 'a' + 'A' else words[0][i]
  }

  lemma PrefixStartsCode(name: string)
    ensures StartsCode(name, Prefix(name))
  {
    LeadingIsFirstWord(name);
  }

  function UsedCodes(name: string, existing: set<NamedCode>): set<string> {
    set z | z in existing && (IsPiso(name) ==> IsPiso(z.name)) :: NormalizeName(z.code)
  }

  /** The n-th candidate collides with a code in use. */
  predicate Taken(prefix: string, used: set<string>, n: nat) {
    NormalizeName(prefix + Decimal.Print(n)) in used
  }

  predicate AllTakenBelow(prefix: string, used: set<string>, n: nat) {
    forall k :: 1 <= k < n ==> Taken(prefix, used, k)
  }

  // ---------- Candidates differ, so the search ends ----------

  lemma DigitsLower(s: string)
    requires Decimal.IsDigits(s)
    ensures NoSpace(s) && Lower(s) == s
  {
  }

  lemma LowerParts(a: string, b: string)
    ensures Lower(a + b) == Lower(a) + Lower(b)
  {
  }

  lemma CandidateKey(prefix: string, n: nat)
    requires NoSpace(prefix)
    ensures NormalizeName(prefix + Decimal.Print(n)) == Lower(prefix) + Decimal.Print(n)
  {
    DigitsLower(Decimal.Print(n));
    NormalizeWithoutSpaces(prefix + Decimal.Print(n));
    LowerParts(prefix, Decimal.Print(n));
  }

  lemma CandidatesDiffer(prefix: string, m: nat, n: nat)
    requires NoSpace(prefix) && NormalizeName(prefix + Decimal.Print(m)) == NormalizeName(prefix + Decimal.Print(n))
    ensures m == n
  {
    CandidateKey(prefix, m);
    CandidateKey(prefix, n);
    var p := |Lower(prefix)|;
    assert (Lower(prefix) + Decimal.Print(m))[p..] == Decimal.Print(m);
    assert (Lower(prefix) + Decimal.Print(n))[p..] == Decimal.Print(n);
    Decimal.PrintIsInjective(m, n);
  }

  lemma {:induction false} Pigeonhole(prefix: string, used: set<string>, n: nat)
    requires NoSpace(prefix) && n >= 1 && AllTakenBelow(prefix, used, n)
    ensures n - 1 <= |used|
    decreases n
  {
    if n > 1 {
      var key := NormalizeName(prefix + Decimal.Print(n - 1));
      assert Taken(prefix, used, n - 1);
      forall k | 1 <= k < n - 1
        ensures Taken(prefix, used - {key}, k)
      {
        assert Taken(prefix, used, k);
        if NormalizeName(prefix + Decimal.Print(k)) == key {
          CandidatesDiffer(prefix, k, n - 1);
        }
      }
      Pigeonhole(prefix, used - {key}, n - 1);
    }
  }

  /** The least number from `n` on whose candidate is free. */
  function FirstFree(prefix: string, used: set<string>, n: nat): (m: nat)
    requires NoSpace(prefix) && n >= 1 && AllTakenBelow(prefix, used, n)
    ensures n <= m <= |used| + 1
    ensures !Taken(prefix, used, m) && AllTakenBelow(prefix, used, m)
    decreases |used| + 1 - n
  {
    Pigeonhole(prefix, used, n);
    if Taken(prefix, used, n) then
      assert AllTakenBelow(prefix, used, n + 1);
      Pigeonhole(prefix, used, n + 1);
      FirstFree(prefix, used, n + 1)
    else n
  }

  function ZoneCode(name: string, existing: set<NamedCode>): string {
    Prefix(name) + Decimal.Print(FirstFree(Prefix(name), UsedCodes(name, existing), 1))
  }

  /** The normalized codes a new zone of this name must avoid. */
  method CollectUsed(name: string, existing: seq<NamedCode>) returns (used: set<string>)
    ensures used == UsedCodes(name, set z | z in existing)
  {
    var isPiso := IsPiso(name);
    used := {};
    for i := 0 to |existing|
      invariant used == UsedCodes(name, set z | z in existing[..i])
    {
      var zone := existing[i];
      assert existing[..i + 1] == existing[..i] + [zone];
      if isPiso && !IsPiso(zone.name) {
        continue;
      }
      used := used + {NormalizeName(zone.code)};
    }
    assert existing[..|existing|] == existing;
  }

  /**
   computeZoneCode: collects the used codes, then counts up from 1. The loop makes at most |used| + 1
   tries; the number found is the least whose candidate is free.
   */
  method ComputeZoneCode(name: string, existing: seq<NamedCode>) returns (code: string)
    ensures var prefix, used := Prefix(name), UsedCodes(name, set z | z in existing);
            exists n :: 1 <= n <= |used| + 1 && code == prefix + Decimal.Print(n)
              && !Taken(prefix, used, n) && AllTakenBelow(prefix, used, n)
    ensures code == ZoneCode(name, set z | z in existing)
  {
    var prefix := Prefix(name);
    var used := CollectUsed(name, existing);
    var n := 1;
    while NormalizeName(prefix + Decimal.Print(n)) in used
      invariant n >= 1 && AllTakenBelow(prefix, used, n)
      decreases |used| + 1 - n
    {
      assert Taken(prefix, used, n);
      assert AllTakenBelow(prefix, used, n + 1);
      Pigeonhole(prefix, used, n + 1);
      n := n + 1;
    }
    Pigeonhole(prefix, used, n);
    LeastIsUnique(prefix, used, n, FirstFree(prefix, used, 1));
    return prefix + Decimal.Print(n);
  }

  lemma LeastIsUnique(prefix: string, used: set<string>, m: nat, n: nat)
    requires 1 <= m && !Taken(prefix, used, m) && AllTakenBelow(prefix, used, m)
    requires 1 <= n && !Taken(prefix, used, n) && AllTakenBelow(prefix, used, n)
    ensures m == n
  {
    assert m < n ==> Taken(prefix, used, m);
    assert n < m ==> Taken(prefix, used, n);
  }

  /**
   A fresh code clashes, up to case, with no existing code. For a "Piso" zone only other "Piso" codes are
   searched, so there the database's own uniqueness of the raw code has to be assumed as well.
   */
  lemma FreshCodeIsNew(name: string, existing: set<NamedCode>, other: NamedCode)
    requires other in existing && NoSpace(other.code)
    requires IsPiso(name) ==> other.code != ZoneCode(name, existing)
    ensures NormalizeName(other.code) != NormalizeName(ZoneCode(name, existing))
    ensures NoSpace(ZoneCode(name, existing))
  {
    var used := UsedCodes(name, existing);
    var code := ZoneCode(name, existing);
    DigitsLower(Decimal.Print(FirstFree(Prefix(name), used, 1)));
    if IsPiso(name) {
      DigitsLower(code);
      NormalizeWithoutSpaces(code);
      NormalizeWithoutSpaces(other.code);
      if Lower(other.code) == code {
        DigitsAreTheirOwnLower(other.code);
      }
    } else {
      assert NormalizeName(other.code) in used;
    }
  }

  lemma DigitsAreTheirOwnLower(s: string)
    requires Decimal.IsDigits(Lower(s))
    ensures s == Lower(s)
  {
    forall i | 0 <= i < |s|
      ensures s[i] == Lower(s)[i]
    {
      assert Decimal.IsDigit(Lower(s)[i]);
    }
  }

  // ---------- The next table name ----------

  /** The number a two-digit suffix after the code denotes, as the name scan collects it. */
  predicate HasSuffix(code: string, name: string, k: nat) {
    && code <= name
    && |name| == |code| + 2
    && Decimal.IsDigits(name[|code|..])
    && Decimal.Parse(name[|code|..]) == k
  }

  /** The scan sees number k exactly when the name is the code followed by k in two digits. */
  lemma SuffixIsPadded(code: string, name: string, k: nat)
    ensures HasSuffix(code, name, k) <==> k < 100 && name == code + Decimal.Pad2(k)
  {
    if HasSuffix(code, name, k) {
      Decimal.ParsePad2(name[|code|..]);
      assert name == code + name[|code|..];
    }
    if k < 100 && name == code + Decimal.Pad2(k) {
      Decimal.Pad2Parse(k);
      assert name[|code|..] == Decimal.Pad2(k);
    }
  }

  /** n is the least number from 1 on whose two-digit name is not taken, or 100 when all are. */
  predicate IsNextSuffix(code: string, names: set<string>, n: nat) {
    && 1 <= n <= 100
    && (n < 100 ==> code + Decimal.Pad2(n) !in names)
    && forall k :: 1 <= k < n ==> code + Decimal.Pad2(k) in names
  }

  /** The numbers the names use. */
  ghost predicate AreSuffixes(used: set<nat>, code: string, names: seq<string>) {
    forall k :: k in used <==> k < 100 && code + Decimal.Pad2(k) in names
  }

  /** The number one name uses, if it is the code with two digits after it. */
  method SuffixOf(code: string, name: string) returns (found: set<nat>)
    ensures forall k :: k in found <==> HasSuffix(code, name, k)
  {
    found := {};
    if code <= name {
      var suffix := name[|code|..];
      if |suffix| == 2 && Decimal.IsDigits(suffix) {
        found := {Decimal.Parse(suffix)};
      }
    }
  }

  lemma OneMoreName(used: set<nat>, code: string, names: seq<string>, name: string, found: set<nat>)
    requires AreSuffixes(used, code, names) && forall k :: k in found <==> HasSuffix(code, name, k)
    ensures AreSuffixes(used + found, code, names + [name])
  {
    forall k
      ensures k in used + found <==> k < 100 && code + Decimal.Pad2(k) in names + [name]
    {
      SuffixIsPadded(code, name, k);
    }
  }

  method CollectSuffixes(code: string, names: seq<string>) returns (used: set<nat>)
    ensures AreSuffixes(used, code, names)
  {
    used := {};
    for i := 0 to |names|
      invariant AreSuffixes(used, code, names[..i])
    {
      var found := SuffixOf(code, names[i]);
      OneMoreName(used, code, names[..i], names[i], found);
      assert names[..i + 1] == names[..i] + [names[i]];
      used := used + found;
    }
    assert names[..|names|] == names;
  }

  /** getNextTableName: collects the two-digit suffixes in use, then counts up from 1. */
  method GetNextTableName(code: string, names: seq<string>) returns (suggestedName: string, next: nat)
    ensures IsNextSuffix(code, (set name | name in names), next)
    ensures suggestedName == code + Decimal.Pad2(next)
  {
    var used := CollectSuffixes(code, names);
    next := 1;
    while next in used
      invariant 1 <= next <= 100 && forall k :: 1 <= k < next ==> k in used
      decreases 100 - next
    {
      next := next + 1;
    }
    suggestedName := code + Decimal.Pad2(next);
  }

  /** The suggestion is an existing table's name exactly when the numbers ran out and code100 exists. */
  lemma SuggestionIsFree(code: string, names: set<string>, n: nat)
    requires IsNextSuffix(code, names, n)
    ensures code + Decimal.Pad2(n) in names <==>
              (forall k :: 1 <= k < 100 ==> code + Decimal.Pad2(k) in names) && code + "100" in names
  {
    assert Decimal.Pad2(100) == "100" by {
      assert Decimal.Print(100) == Decimal.Print(10) + ['0'] == "10" + "0";
    }
    if forall k :: 1 <= k < 100 ==> code + Decimal.Pad2(k) in names {
      assert n < 100 ==> code + Decimal.Pad2(n) in names;
    }
  }

  /**
   The scan is case-sensitive but table creation is not: for any code with a capital letter, a table spelling
   the first name in small letters leaves that name suggested, and makes its creation clash.
   */
  lemma SuggestionCanClash(code: string)
    requires NoSpace(code) && Lower(code) != code
    ensures IsNextSuffix(code, {Lower(code) + Decimal.Pad2(1)}, 1)
    ensures NormalizeName(code + Decimal.Pad2(1)) == NormalizeName(Lower(code) + Decimal.Pad2(1))
  {
    CaseIsIgnored(code, Decimal.Pad2(1));
    DifferInCase(code, Decimal.Pad2(1));
  }

  lemma CaseIsIgnored(code: string, number: string)
    requires NoSpace(code) && Decimal.IsDigits(number) && number != ""
    ensures NormalizeName(code + number) == NormalizeName(Lower(code) + number)
  {
    KeyOfNumbered(code, number);
    KeyOfNumbered(Lower(code), number);
    assert Lower(Lower(code)) == Lower(code);
    SameKey(code + number, Lower(code) + number);
  }

  lemma DifferInCase(code: string, number: string)
    requires Lower(code) != code
    ensures code + number != Lower(code) + number
  {
    assert (code + number)[..|code|] == code && (Lower(code) + number)[..|code|] == Lower(code);
  }

  /** Exactly the one-word names spelling the suggestion in other case make table creation refuse it. */
  lemma SuggestionClash(code: string, n: nat, name: string)
    requires NoSpace(code)
    ensures NormalizeName(name) == NormalizeName(code + Decimal.Pad2(n))
       <==> Key(name) == [Lower(code) + Decimal.Pad2(n)]
  {
    SameKey(name, code + Decimal.Pad2(n));
    KeyOfNumbered(code, Decimal.Pad2(n));
  }

  lemma KeyOfNumbered(code: string, number: string)
    requires NoSpace(code) && Decimal.IsDigits(number) && number != ""
    ensures Key(code + number) == [Lower(code) + number]
  {
    DigitsLower(number);
    var word := code + number;
    assert Lower(word) == Lower(code) + number;
    KeyOfWord(word);
  }
}
