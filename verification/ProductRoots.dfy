/** Which listed contracts belong to a product root. */
module ProductRoots {

  predicate IsSpace(c: char) {
    c == ' ' || '\t' <= c <= '\r'
  }

  predicate IsDigit(c: char) {
    '0' <= c <= '9'
  }

  predicate IsUpper(c: char) {
    'A' <= c <= 'Z'
  }

  predicate IsMonth(c: char) {
    c in "FGHJKMNQUVXZ"
  }

  function Upper(c: char): char {
    if 'a' <= c <= 'z' then (c as int - 32) as char else c
  }

  function TrimStart(s: string): string {
    if s != "" && IsSpace(s[0]) then TrimStart(s[1..]) else s
  }

  function TrimEnd(s: string): string {
    if s != "" && IsSpace(s[|s| - 1]) then TrimEnd(s[..|s| - 1]) else s
  }

  function Trim(s: string): string {
    TrimEnd(TrimStart(s))
  }

  function Normalised(s: string): string {
    var t := Trim(s);
    seq(|t|, i requires 0 <= i < |t| => Upper(t[i]))
  }

  /** How many digits end the text. */
  function TrailingDigits(s: string): (n: nat)
    ensures n <= |s|
  {
    if s != "" && IsDigit(s[|s| - 1]) then 1 + TrailingDigits(s[..|s| - 1]) else 0
  }

  predicate IsRootText(s: string) {
    forall i :: 0 <= i < |s| ==> IsUpper(s[i]) || IsDigit(s[i])
  }

  /** The root of an already normalised symbol. */
  function RootOf(sym: string): string {
    var digits := TrailingDigits(sym);
    if 1 <= digits <= 2 && |sym| >= digits + 2 && IsMonth(sym[|sym| - digits - 1])
        && IsRootText(sym[..|sym| - digits - 1])
    then sym[..|sym| - digits - 1]
    else sym
  }

  function ProductRoot(symbol: string): string {
    RootOf(Normalised(symbol))
  }

  predicate MatchesRoot(symbol: string, root: string) {
    Normalised(root) != "" && ProductRoot(symbol) == Normalised(root)
  }

  /** `sym` is the root, a month letter and one or two digits of year. */
  ghost predicate IsContractOf(sym: string, root: string) {
    && |root| >= 1 && (forall c :: c in root ==> c in "ABCDEFGHIJKLMNOPQRSTUVWXYZ0123456789")
    && |root| + 2 <= |sym| <= |root| + 3
    && sym[..|root|] == root
    && sym[|root|] in "FGHJKMNQUVXZ"
    && forall i :: |root| < i < |sym| ==> sym[i] in "0123456789"
  }

  lemma {:induction false} CharTable(c: char)
    ensures IsDigit(c) <==> c in "0123456789"
    ensures IsUpper(c) <==> c in "ABCDEFGHIJKLMNOPQRSTUVWXYZ"
    ensures IsMonth(c) <==> c in "FGHJKMNQUVXZ"
    ensures IsSpace(c) <==> c == ' ' || (9 <= c as int <= 13)
  {
    CharOfCode("0123456789", 48, c);
    CharOfCode("ABCDEFGHIJKLMNOPQRSTUVWXYZ", 65, c);
  }

  /** A text of consecutive codes holds exactly the characters of those codes. */
  lemma {:induction false} CharOfCode(text: string, first: nat, c: char)
    requires forall i :: 0 <= i < |text| ==> text[i] as int == first + i
    ensures c in text <==> first <= c as int < first + |text|
  {
    if first <= c as int < first + |text| {
      assert text[c as int - first] == c;
    }
  }

  /** Small letters become the capitals of their place; every other character stays. */
  lemma {:induction false} UpperTable(c: char)
    ensures c in "abcdefghijklmnopqrstuvwxyz" ==>
              'a' <= c && 0 <= c as int - 97 < 26 && Upper(c) == "ABCDEFGHIJKLMNOPQRSTUVWXYZ"[c as int - 97]
    ensures c !in "abcdefghijklmnopqrstuvwxyz" ==> Upper(c) == c
  {
    CharOfCode("abcdefghijklmnopqrstuvwxyz", 97, c);
    var capitals := "ABCDEFGHIJKLMNOPQRSTUVWXYZ";
    assert forall i :: 0 <= i < 26 ==> capitals[i] as int == 65 + i;
  }

  /** Trimming takes off spaces at both ends, all of them, and nothing else. */
  lemma {:induction false} TrimTable(s: string) returns (head: string, tail: string)
    ensures s == head + Trim(s) + tail
    ensures (forall c :: c in head ==> IsSpace(c)) && (forall c :: c in tail ==> IsSpace(c))
    ensures Trim(s) != "" ==> !IsSpace(Trim(s)[0]) && !IsSpace(Trim(s)[|Trim(s)| - 1])
  {
    head := StartTable(s);
    tail := EndTable(TrimStart(s));
  }

  lemma {:induction false} StartTable(s: string) returns (head: string)
    ensures s == head + TrimStart(s) && (forall c :: c in head ==> IsSpace(c))
    ensures TrimStart(s) != "" ==> !IsSpace(TrimStart(s)[0])
  {
    head := "";
    if s != "" && IsSpace(s[0]) {
      head := StartTable(s[1..]);
      head := [s[0]] + head;
    }
  }

  lemma {:induction false} EndTable(s: string) returns (tail: string)
    ensures s == TrimEnd(s) + tail && (forall c :: c in tail ==> IsSpace(c))
    ensures TrimEnd(s) != "" ==> TrimEnd(s)[0] == s[0] && !IsSpace(TrimEnd(s)[|TrimEnd(s)| - 1])
  {
    tail := "";
    if s != "" && IsSpace(s[|s| - 1]) {
      tail := EndTable(s[..|s| - 1]);
      tail := tail + [s[|s| - 1]];
    }
  }

  /** Both sides of a match are trimmed and capitalised character by character. */
  lemma {:induction false} NormalisedTable(s: string, i: nat)
    requires i < |Trim(s)|
    ensures |Normalised(s)| == |Trim(s)| && Normalised(s)[i] == Upper(Trim(s)[i])
  {
  }

  lemma {:induction false} RootTextTable(s: string)
    ensures IsRootText(s) <==> forall c :: c in s ==> c in "ABCDEFGHIJKLMNOPQRSTUVWXYZ0123456789"
  {
    forall c: char
      ensures c in "ABCDEFGHIJKLMNOPQRSTUVWXYZ0123456789" <==> IsUpper(c) || IsDigit(c)
    {
      CharTable(c);
      assert "ABCDEFGHIJKLMNOPQRSTUVWXYZ0123456789" == "ABCDEFGHIJKLMNOPQRSTUVWXYZ" + "0123456789";
    }
    if forall c :: c in s ==> c in "ABCDEFGHIJKLMNOPQRSTUVWXYZ0123456789" {
      assert forall i :: 0 <= i < |s| ==> s[i] in s;
    }
  }

  lemma {:induction false} DigitsAre(s: string, n: nat)
    requires n <= |s| && (forall i :: |s| - n <= i < |s| ==> IsDigit(s[i]))
    requires n == |s| || !IsDigit(s[|s| - n - 1])
    ensures TrailingDigits(s) == n
  {
    if n > 0 {
      DigitsAre(s[..|s| - 1], n - 1);
    }
  }

  lemma {:induction false} DigitsRun(s: string)
    ensures forall i :: |s| - TrailingDigits(s) <= i < |s| ==> IsDigit(s[i])
  {
    if s != "" && IsDigit(s[|s| - 1]) {
      DigitsRun(s[..|s| - 1]);
      assert forall i :: 0 <= i < |s| - 1 ==> s[i] == s[..|s| - 1][i];
    }
  }

  lemma {:induction false} ContractReads(sym: string, root: string)
    requires |root| < |sym|
    ensures IsContractOf(sym, root) <==>
            && |root| >= 1 && IsRootText(root)
            && |root| + 2 <= |sym| <= |root| + 3 && sym[..|root|] == root
            && IsMonth(sym[|root|]) && forall i :: |root| < i < |sym| ==> IsDigit(sym[i])
  {
    RootTextTable(root);
    CharTable(sym[|root|]);
    forall i | |root| < i < |sym|
      ensures IsDigit(sym[i]) <==> sym[i] in "0123456789"
    {
      CharTable(sym[i]);
    }
  }

  /** A contract has exactly one root, and it is the one computed. */
  lemma {:induction false} RootOfContract(sym: string, root: string)
    requires IsContractOf(sym, root)
    ensures RootOf(sym) == root
  {
    ContractReads(sym, root);
    DigitsAre(sym, |sym| - |root| - 1);
  }

  lemma {:induction false} RootExactlyWhen(sym: string, root: string)
    ensures RootOf(sym) == root <==> IsContractOf(sym, root) || (sym == root && forall r :: !IsContractOf(sym, r))
  {
    DigitsRun(sym);
    var cut := RootOf(sym);
    if cut != sym {
      ContractReads(sym, cut);
      assert IsContractOf(sym, cut);
    }
    forall r | IsContractOf(sym, r)
      ensures RootOf(sym) == r
    {
      RootOfContract(sym, r);
    }
    if RootOf(sym) == root && sym != root {
      assert IsContractOf(sym, root);
    }
  }

  /**
   A symbol matches a root exactly when it is one of the root's contracts, or is the root
   itself and no contract of another root; a longer symbol with the root as prefix is not enough.
   */
  lemma {:induction false} MatchExactlyWhen(symbol: string, root: string)
    ensures MatchesRoot(symbol, root) <==>
            && Normalised(root) != ""
            && (IsContractOf(Normalised(symbol), Normalised(root))
                || (Normalised(symbol) == Normalised(root) && forall r :: !IsContractOf(Normalised(symbol), r)))
  {
    RootExactlyWhen(Normalised(symbol), Normalised(root));
  }
}
