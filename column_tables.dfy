/**
 * The lookup tables between column indices and column names that the
 * spreadsheet module keeps in module state (`mapIndexToAlpha`,
 * `mapAlphaToIndex`). They hold A..Z from module load on and are extended
 * on demand to ZZ (`alpha2`) and to ZZZ (`alpha3`).
 */
module AlphaTables {
  import opened Wrappers
  import opened Columns

  /** The lengths the tables can have: after alpha1, after alpha2, after alpha3. */
  predicate TableLength(n: nat)
  {
    n == ALPHA1_COUNT || n == ALPHA2_COUNT || n == ALPHA3_COUNT
  }

  /** Table length after `alpha2`: extended to ZZ unless it already reaches that far. */
  function Alpha2Length(n: nat): nat
  {
    if n >= ALPHA2_COUNT then n else ALPHA2_COUNT
  }

  /** What a template literal prints for an index the table does not hold. */
  const UNDEFINED_TEXT: string := "undefined"

  /** `${mapIndexToAlpha[i]}` for a table of length n. */
  function NameAt(n: nat, i: int): (s: string)
    ensures 0 <= i < n ==> ColumnIndexOf(s) == Some(i)
    ensures !(0 <= i < n) ==> s == UNDEFINED_TEXT
  {
    if 0 <= i < n then NameToIndex(i); ColumnName(i) else UNDEFINED_TEXT
  }

  /** `mapAlphaToIndex.get(s)` for a table of length n: None stands for undefined. */
  function IndexAt(n: nat, s: string): (r: Option<nat>)
    ensures r.Some? <==> s != [] && AllUpper(s) && LettersValue(s) <= n
    ensures r.Some? ==> r.value < n && ColumnName(r.value) == s
  {
    match ColumnIndexOf(s)
    case Some(k) => if k < n then IndexToName(s); Some(k) else None
    case None => None
  }

  class ColumnTables {
    var indexToAlpha: seq<string>
    var alphaToIndex: map<string, nat>

    /** Entry i names column i, and the map sends each listed name back to its index. */
    ghost predicate Consistent()
      reads this
    {
      && (forall i :: 0 <= i < |indexToAlpha| ==> indexToAlpha[i] == ColumnName(i))
      && (forall s :: s in alphaToIndex ==>
            alphaToIndex[s] < |indexToAlpha| && ColumnIndexOf(s) == Some(alphaToIndex[s]))
      && (forall i :: 0 <= i < |indexToAlpha| ==> ColumnName(i) in alphaToIndex)
    }

    ghost predicate Valid()
      reads this
    {
      Consistent() && TableLength(|indexToAlpha|)
    }

    /** Module load: empty tables, then `alpha1()`. */
    constructor ()
      ensures Valid() && |indexToAlpha| == ALPHA1_COUNT
    {
      indexToAlpha := [];
      alphaToIndex := map[];
      new;
      Alpha1();
    }

    /** One `push` onto mapIndexToAlpha with its matching `set` on mapAlphaToIndex. */
    method Append(alpha: string)
      requires Consistent() && alpha == ColumnName(|indexToAlpha|)
      modifies this
      ensures Consistent()
      ensures indexToAlpha == old(indexToAlpha) + [alpha]
      ensures alphaToIndex == old(alphaToIndex)[alpha := old(|indexToAlpha|)]
    {
      var index := |indexToAlpha|;
      NameToIndex(index);
      indexToAlpha := indexToAlpha + [alpha];
      alphaToIndex := alphaToIndex[alpha := index];
    }

    /** `alpha1`: adds A..Z; it runs once, at module load, on empty tables. */
    method Alpha1()
      requires Consistent() && indexToAlpha == []
      modifies this
      ensures Valid() && |indexToAlpha| == ALPHA1_COUNT
    {
      AlphabetCodes();
      for i := 0 to |ALPHABET|
        invariant Consistent() && |indexToAlpha| == i
      {
        var alpha := [ALPHABET[i]];
        Append(alpha);
      }
    }

    /** `alpha2`: extends the tables to ZZ; does nothing once they reach that far. */
    method Alpha2()
      requires Valid()
      modifies this
      ensures Valid()
      ensures |indexToAlpha| == Alpha2Length(old(|indexToAlpha|))
    {
      if |indexToAlpha| >= ALPHA2_COUNT {
        return;
      }
      AlphabetCodes();
      for i := 0 to |ALPHABET|
        invariant Consistent() && |indexToAlpha| == ALPHA1_COUNT + 26 * i
      {
        var a0 := [ALPHABET[i]];
        AppendLetters(a0, i);
      }
    }

    /** `alpha3`: extends the tables to ZZZ (by way of alpha2); does nothing once they reach that far. */
    method Alpha3()
      requires Valid()
      modifies this
      ensures Valid()
      ensures |indexToAlpha| == ALPHA3_COUNT
    {
      if |indexToAlpha| >= ALPHA3_COUNT {
        return;
      }
      Alpha2();
      AlphabetCodes();
      for i := 0 to |ALPHABET|
        invariant Consistent() && |indexToAlpha| == ALPHA2_COUNT + 676 * i
      {
        var a0 := ALPHABET[i];
        for j := 0 to |ALPHABET|
          invariant Consistent() && |indexToAlpha| == ALPHA2_COUNT + 676 * i + 26 * j
        {
          var a1 := [a0] + [ALPHABET[j]];
          NameStep(i, j);
          AppendLetters(a1, 26 * (i + 1) + j);
        }
      }
    }

    /**
     * The innermost loop of alpha2 and alpha3: pushes prefix + "A" up to
     * prefix + "Z", where prefix names column q and the tables end just
     * before the first of them.
     */
    method AppendLetters(prefix: string, ghost q: nat)
      requires Consistent() && prefix == ColumnName(q) && |indexToAlpha| == 26 * (q + 1)
      modifies this
      ensures Consistent() && |indexToAlpha| == 26 * (q + 2)
    {
      AlphabetCodes();
      for k := 0 to |ALPHABET|
        invariant Consistent() && |indexToAlpha| == 26 * (q + 1) + k
      {
        var alpha := prefix + [ALPHABET[k]];
        NameStep(q, k);
        Append(alpha);
      }
    }

    /** `mapIndexToAlpha[i]`, as a template literal prints it. */
    method GetAlpha(i: int) returns (s: string)
      requires Valid()
      ensures s == NameAt(|indexToAlpha|, i)
    {
      if 0 <= i < |indexToAlpha| {
        s := indexToAlpha[i];
      } else {
        s := UNDEFINED_TEXT;
      }
    }

    /** `mapAlphaToIndex.get(s)`. */
    method GetIndex(s: string) returns (r: Option<nat>)
      requires Valid()
      ensures r == IndexAt(|indexToAlpha|, s)
    {
      if s in alphaToIndex {
        r := Some(alphaToIndex[s]);
      } else {
        r := None;
      }
    }
  }
}
