/** The character classes of the random string generator and the alphabet
    (the "charset") built from the enabled ones. */
module CharacterSets {

  const Uppercase: string := "ABCDEFGHIJKLMNOPQRSTUVWXYZ"
  const Lowercase: string := "abcdefghijklmnopqrstuvwxyz"
  const Digits: string := "0123456789"
  const Symbols: string := "!@#$%^&*()_+-=[]{}|;:,.<>?"

  predicate IsUpper(c: char) { 'A' <= c <= 'Z' }
  predicate IsLower(c: char) { 'a' <= c <= 'z' }
  predicate IsDigit(c: char) { '0' <= c <= '9' }

  /** No character occurs twice in `s`. */
  ghost predicate NoDuplicates(s: string) {
    forall i, j | 0 <= i < j < |s| :: s[i] != s[j]
  }

  /** No character of `a` occurs in `b`. */
  ghost predicate Disjoint(a: string, b: string) {
    forall i, j | 0 <= i < |a| && 0 <= j < |b| :: a[i] != b[j]
  }

  /** The alphabet for the four switches: the enabled class strings appended
      in the fixed order uppercase, lowercase, digits, symbols. */
  function Alphabet(upper: bool, lower: bool, numbers: bool, symbols: bool): (charset: string)
    ensures |charset| == (if upper then 26 else 0) + (if lower then 26 else 0)
                       + (if numbers then 10 else 0) + (if symbols then 26 else 0)
    ensures |charset| <= 88
    ensures charset == [] <==> !upper && !lower && !numbers && !symbols
  {
    (if upper then Uppercase else "") + (if lower then Lowercase else "")
    + (if numbers then Digits else "") + (if symbols then Symbols else "")
  }

  /** Builds the charset step by step, appending each enabled class. */
  method BuildCharset(upper: bool, lower: bool, numbers: bool, symbols: bool) returns (charset: string)
    ensures charset == Alphabet(upper, lower, numbers, symbols)
  {
    charset := "";
    if upper { charset := charset + Uppercase; }
    assert charset == (if upper then Uppercase else "");
    if lower { charset := charset + Lowercase; }
    assert charset == (if upper then Uppercase else "") + (if lower then Lowercase else "");
    if numbers { charset := charset + Digits; }
    assert charset == (if upper then Uppercase else "") + (if lower then Lowercase else "")
                      + (if numbers then Digits else "");
    if symbols { charset := charset + Symbols; }
  }

  /** Each letter and digit class is a contiguous run of code points. */
  lemma ClassShapes()
    ensures forall i | 0 <= i < |Uppercase| :: Uppercase[i] == ('A' as int + i) as char
    ensures forall i | 0 <= i < |Lowercase| :: Lowercase[i] == ('a' as int + i) as char
    ensures forall i | 0 <= i < |Digits| :: Digits[i] == ('0' as int + i) as char
  {
  }

  /** The symbol class has no repeated character and no letter or digit. */
  lemma SymbolsShape()
    ensures NoDuplicates(Symbols)
    ensures forall i | 0 <= i < |Symbols| :: !IsUpper(Symbols[i]) && !IsLower(Symbols[i]) && !IsDigit(Symbols[i])
  {
  }

  /** Membership in each class string, stated as the characters it holds. */
  lemma ClassMembers(c: char)
    ensures c in Uppercase <==> IsUpper(c)
    ensures c in Lowercase <==> IsLower(c)
    ensures c in Digits <==> IsDigit(c)
  {
    ClassShapes();
    if IsUpper(c) { assert Uppercase[c as int - 'A' as int] == c; }
    if IsLower(c) { assert Lowercase[c as int - 'a' as int] == c; }
    if IsDigit(c) { assert Digits[c as int - '0' as int] == c; }
  }

  /** The four class strings have no repeated characters and share none. */
  lemma ClassesDistinct()
    ensures NoDuplicates(Uppercase) && NoDuplicates(Lowercase)
    ensures NoDuplicates(Digits) && NoDuplicates(Symbols)
    ensures Disjoint(Uppercase, Lowercase) && Disjoint(Uppercase, Digits) && Disjoint(Uppercase, Symbols)
    ensures Disjoint(Lowercase, Digits) && Disjoint(Lowercase, Symbols)
    ensures Disjoint(Digits, Symbols)
  {
    ClassShapes();
    SymbolsShape();
  }

  lemma {:induction false} ConcatNoDuplicates(a: string, b: string)
    requires NoDuplicates(a) && NoDuplicates(b) && Disjoint(a, b)
    ensures NoDuplicates(a + b)
  {
    forall i, j | 0 <= i < j < |a + b| ensures (a + b)[i] != (a + b)[j] {
      if j < |a| {
      } else if i < |a| {
        assert (a + b)[i] == a[i] && (a + b)[j] == b[j - |a|];
      } else {
        assert (a + b)[i] == b[i - |a|] && (a + b)[j] == b[j - |a|];
      }
    }
  }

  lemma DisjointConcat(a: string, b: string, c: string)
    requires Disjoint(a, c) && Disjoint(b, c)
    ensures Disjoint(a + b, c)
  {
    forall i, j | 0 <= i < |a + b| && 0 <= j < |c| ensures (a + b)[i] != c[j] {
      if i >= |a| { assert (a + b)[i] == b[i - |a|]; }
    }
  }

  /** Whatever switches are on, the alphabet never lists a character twice. */
  lemma AlphabetNoDuplicates(upper: bool, lower: bool, numbers: bool, symbols: bool)
    ensures NoDuplicates(Alphabet(upper, lower, numbers, symbols))
  {
    ClassesDistinct();
    var u := if upper then Uppercase else "";
    var l := if lower then Lowercase else "";
    var n := if numbers then Digits else "";
    var s := if symbols then Symbols else "";
    ConcatNoDuplicates(u, l);
    DisjointConcat(u, l, n);
    ConcatNoDuplicates(u + l, n);
    DisjointConcat(u, l, s);
    DisjointConcat(u + l, n, s);
    ConcatNoDuplicates(u + l + n, s);
  }

  /** A character is in the alphabet exactly when its class is switched on. */
  lemma AlphabetMembers(upper: bool, lower: bool, numbers: bool, symbols: bool, c: char)
    ensures c in Alphabet(upper, lower, numbers, symbols) <==>
      (upper && IsUpper(c)) || (lower && IsLower(c)) || (numbers && IsDigit(c)) || (symbols && c in Symbols)
  {
    ClassMembers(c);
  }
}
