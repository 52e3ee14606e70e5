/**
 * Spreadsheet column names: bijective base 26 over the letters A..Z
 * (0 -> "A", 25 -> "Z", 26 -> "AA", 701 -> "ZZ", 702 -> "AAA", 18277 -> "ZZZ"),
 * and the ordering JavaScript's `<` puts on strings.
 */
module Columns {
  import opened Wrappers

  /** The upper-case alphabet, in code-point order. */
  const ALPHABET: string := "ABCDEFGHIJKLMNOPQRSTUVWXYZ"

  /** Number of names with one letter, with at most two letters, with at most three letters. */
  const ALPHA1_COUNT: nat := 26
  const ALPHA2_COUNT: nat := ALPHA1_COUNT + 26 * 26
  const ALPHA3_COUNT: nat := ALPHA2_COUNT + 26 * 26 * 26

  /** The letter at position i of the alphabet is the i-th code point after 'A'. */
  lemma AlphabetCodes()
    ensures |ALPHABET| == 26
    ensures forall i :: 0 <= i < 26 ==> ALPHABET[i] as int == 65 + i
    ensures ALPHA2_COUNT == 702 && ALPHA3_COUNT == 18278
  {
  }

  predicate IsUpper(c: char) { 'A' <= c <= 'Z' }

  predicate IsLetter(c: char) { 'A' <= c <= 'Z' || 'a' <= c <= 'z' }

  predicate AllUpper(s: string) { forall k :: 0 <= k < |s| ==> IsUpper(s[k]) }

  /** The name of the 0-based column `i`. */
  function ColumnName(i: nat): (s: string)
    ensures |s| >= 1 && AllUpper(s)
  {
    AlphabetCodes();
    if i < 26 then [ALPHABET[i]] else ColumnName(i / 26 - 1) + [ALPHABET[i % 26]]
  }

  /** The bijective base-26 value of a string of upper-case letters ("A" = 1, "AA" = 27). */
  function LettersValue(s: string): (v: nat)
    requires AllUpper(s)
    ensures s != [] ==> v >= 1
  {
    if s == [] then 0 else LettersValue(s[..|s| - 1]) * 26 + (s[|s| - 1] as int - 64)
  }

  /** The 0-based column a name denotes; None for anything but a non-empty upper-case string. */
  function ColumnIndexOf(s: string): Option<nat>
  {
    if s != [] && AllUpper(s) then Some(LettersValue(s) - 1) else None
  }

  /** The name is one letter followed by the name of a smaller column, digit by digit. */
  lemma NameStep(q: nat, c: nat)
    requires c < 26
    ensures ColumnName(26 * (q + 1) + c) == ColumnName(q) + [ALPHABET[c]]
  {
    var i := 26 * (q + 1) + c;
    assert i / 26 == q + 1 && i % 26 == c;
  }

  /** Splits a column of two or more letters into its leading name and its last letter. */
  lemma Split(i: nat) returns (q: nat, c: nat)
    requires i >= 26
    ensures c < 26 && i == 26 * (q + 1) + c && q < i
    ensures ColumnName(i) == ColumnName(q) + [ALPHABET[c]]
  {
    q, c := i / 26 - 1, i % 26;
  }

  lemma LettersValueAppend(s: string, c: char)
    requires AllUpper(s) && IsUpper(c)
    ensures AllUpper(s + [c])
    ensures LettersValue(s + [c]) == LettersValue(s) * 26 + (c as int - 64)
  {
    assert (s + [c])[..|s|] == s;
  }

  /** Reading a column's name back gives the column. */
  lemma {:induction false} NameToIndex(i: nat)
    ensures ColumnIndexOf(ColumnName(i)) == Some(i)
  {
    AlphabetCodes();
    if i < 26 {
      assert ColumnName(i) == [] + [ALPHABET[i]];
      LettersValueAppend([], ALPHABET[i]);
    } else {
      var q, c := Split(i);
      NameToIndex(q);
      IndexOfAppend(ColumnName(q), q, c);
    }
  }

  /** Appending the letter for digit c to the name of column q names column 26 * (q + 1) + c. */
  lemma IndexOfAppend(name: string, q: nat, c: nat)
    requires c < 26 && ColumnIndexOf(name) == Some(q)
    ensures ColumnIndexOf(name + [ALPHABET[c]]) == Some(26 * (q + 1) + c)
  {
    AlphabetCodes();
    LettersValueAppend(name, ALPHABET[c]);
  }

  /** Every upper-case name is the name of the column it denotes. */
  lemma {:induction false} IndexToName(s: string)
    requires s != [] && AllUpper(s)
    ensures ColumnIndexOf(s).Some? && ColumnName(ColumnIndexOf(s).value) == s
  {
    AlphabetCodes();
    var p, c := s[..|s| - 1], s[|s| - 1];
    var d: nat := c as int - 65;
    assert s == p + [c];
    assert AllUpper(p);
    LettersValueAppend(p, c);
    assert ALPHABET[d] == c;
    if p == [] {
      assert LettersValue(s) - 1 == d;
      assert ColumnName(d) == [c];
    } else {
      IndexToName(p);
      var q: nat := LettersValue(p) - 1;
      assert ColumnName(q) == p;
      assert LettersValue(s) - 1 == 26 * (q + 1) + d;
      NameStep(q, d);
      assert ColumnName(26 * (q + 1) + d) == s;
    }
  }

  /** Two columns share a name only if they are the same column. */
  lemma NameInjective(i: nat, j: nat)
    requires ColumnName(i) == ColumnName(j)
    ensures i == j
  {
    NameToIndex(i);
    NameToIndex(j);
  }

  /** Names have one letter below 26, two below 702, three below 18278, and more above. */
  lemma {:induction false} NameLength(i: nat)
    ensures i < ALPHA1_COUNT <==> |ColumnName(i)| == 1
    ensures ALPHA1_COUNT <= i < ALPHA2_COUNT <==> |ColumnName(i)| == 2
    ensures ALPHA2_COUNT <= i < ALPHA3_COUNT <==> |ColumnName(i)| == 3
  {
    if i >= 26 {
      var q, c := Split(i);
      NameLength(q);
    }
  }

  /** A larger column never has a shorter name. */
  lemma {:induction false} NameLengthMonotone(i: nat, j: nat)
    requires i <= j
    ensures |ColumnName(i)| <= |ColumnName(j)|
  {
    if i >= 26 {
      var qi, ci := Split(i);
      var qj, cj := Split(j);
      NameLengthMonotone(qi, qj);
    }
  }

  /**
   * JavaScript's `<` on strings: code-unit by code-unit, a proper prefix
   * coming first.
   */
  predicate LexLess(a: string, b: string)
  {
    if a == [] then b != []
    else if b == [] then false
    else a[0] < b[0] || (a[0] == b[0] && LexLess(a[1..], b[1..]))
  }

  lemma {:induction false} LexIrreflexive(a: string)
    ensures !LexLess(a, a)
  {
    if a != [] {
      LexIrreflexive(a[1..]);
    }
  }

  lemma {:induction false} LexAsymmetric(a: string, b: string)
    requires LexLess(a, b)
    ensures !LexLess(b, a)
  {
    if a != [] && b != [] && a[0] == b[0] {
      LexAsymmetric(a[1..], b[1..]);
    }
  }

  /** Appending to two equally long strings keeps their order. */
  lemma {:induction false} LexAppend(a: string, b: string, x: string, y: string)
    requires |a| == |b| && LexLess(a, b)
    ensures LexLess(a + x, b + y)
  {
    assert (a + x)[0] == a[0] && (b + y)[0] == b[0];
    if a[0] == b[0] && !(a[0] < b[0]) {
      assert (a + x)[1..] == a[1..] + x;
      assert (b + y)[1..] == b[1..] + y;
      LexAppend(a[1..], b[1..], x, y);
    }
  }

  /** Equal prefixes: the last letters decide. */
  lemma {:induction false} LexLastLetter(p: string, c: char, d: char)
    requires c < d
    ensures LexLess(p + [c], p + [d])
  {
    if p != [] {
      assert (p + [c])[1..] == p[1..] + [c];
      assert (p + [d])[1..] == p[1..] + [d];
      LexLastLetter(p[1..], c, d);
    }
  }

  /** Among names of one length, the order of the columns is the order of their names. */
  lemma {:induction false} NameOrder(i: nat, j: nat)
    requires i < j && |ColumnName(i)| == |ColumnName(j)|
    ensures LexLess(ColumnName(i), ColumnName(j))
  {
    AlphabetCodes();
    if j < 26 {
      assert ColumnName(i)[0] < ColumnName(j)[0];
    } else if i < 26 {
      NameLength(i);
      NameLength(j);
    } else {
      var qi, ci := Split(i);
      var qj, cj := Split(j);
      if qi == qj {
        LexLastLetter(ColumnName(qi), ALPHABET[ci], ALPHABET[cj]);
      } else {
        NameOrder(qi, qj);
        LexAppend(ColumnName(qi), ColumnName(qj), [ALPHABET[ci]], [ALPHABET[cj]]);
      }
    }
  }

  /** A name never compares below the name of a smaller column of the same length. */
  lemma NameNotBelow(i: nat, j: nat)
    requires i <= j && |ColumnName(i)| == |ColumnName(j)|
    ensures !LexLess(ColumnName(j), ColumnName(i))
  {
    if i == j {
      LexIrreflexive(ColumnName(i));
    } else {
      NameOrder(i, j);
      LexAsymmetric(ColumnName(i), ColumnName(j));
    }
  }
}
