/** `String.isNumber` from Extensions.swift: a string is a number when the
    set of its characters is a subset of the decimal digits. The digit set is
    restricted to the ASCII digits '0'..'9'. */
module Extensions {

  const DecimalDigits: set<char> := {'0', '1', '2', '3', '4', '5', '6', '7', '8', '9'}

  predicate IsDecimalDigit(c: char) {
    '0' <= c <= '9'
  }

  /** The character set of a string, as `CharacterSet(charactersIn:)` builds it. */
  function CharacterSetOf(s: string): (cs: set<char>)
    ensures forall c :: c in cs <==> c in s
  {
    set c | c in s
  }

  /** True iff every character of `s` is a decimal digit. */
  function IsNumber(s: string): (r: bool)
    ensures r <==> forall i | 0 <= i < |s| :: IsDecimalDigit(s[i])
  {
    assert forall c :: c in DecimalDigits <==> IsDecimalDigit(c);
    assert CharacterSetOf(s) <= DecimalDigits <==> forall i | 0 <= i < |s| :: s[i] in DecimalDigits;
    CharacterSetOf(s) <= DecimalDigits
  }

  /** The empty string is a number: the empty set is a subset of the digits. */
  lemma EmptyIsNumber()
    ensures IsNumber("")
  {
  }

  /** One non-digit anywhere ('-', '.', ' ', ...) makes the string not a number. */
  lemma NonDigitIsNotNumber(s: string, i: nat)
    requires i < |s| && !IsDecimalDigit(s[i])
    ensures !IsNumber(s)
  {
  }

  /** The concatenation of two numbers is a number, and each part of a number is one. */
  lemma {:induction false} ConcatenationIsNumber(a: string, b: string)
    ensures IsNumber(a + b) <==> IsNumber(a) && IsNumber(b)
  {
    if IsNumber(a + b) {
      forall i | 0 <= i < |a| ensures IsDecimalDigit(a[i]) {
        assert (a + b)[i] == a[i];
      }
      forall i | 0 <= i < |b| ensures IsDecimalDigit(b[i]) {
        assert (a + b)[|a| + i] == b[i];
      }
    }
  }

  /** The result depends only on which characters occur, so reordering the
      characters of a string never changes it. */
  lemma {:induction false} PermutationKeepsIsNumber(s: string, t: string)
    requires multiset(s) == multiset(t)
    ensures IsNumber(s) == IsNumber(t)
  {
    assert CharacterSetOf(s) == CharacterSetOf(t) by {
      forall c ensures c in s <==> c in t {
        assert c in s <==> c in multiset(s);
        assert c in t <==> c in multiset(t);
      }
    }
  }
}
