/** The mined pattern table after canonicalisation: each itemset is rewritten as its
    tokens sorted and joined by single spaces, and the table becomes a dictionary from
    that key to the itemset's support. The mining itself happens outside the model. */
module MlnPatterns {
  import opened Common
  import opened Text

  /** A row of the mined pattern table: the itemset as text and its support. */
  datatype PatternRow = PatternRow(pattern: string, support: real)

  /** The canonical key of an itemset: `' '.join(sorted(x.split()))`. */
  function Canonical(pattern: string): (key: string)
  {
    Join(" ", SortStrings(Split(pattern)))
  }

  lemma {:induction false} SortedTokens(toks: seq<string>)
    requires IsTokens(toks)
    ensures IsTokens(SortStrings(toks))
  {
    var s := SortStrings(toks);
    SortStringsPermutes(toks);
    forall i | 0 <= i < |s| ensures s[i] != [] && NoSpace(s[i]) {
      assert s[i] in multiset(s);
      assert s[i] in multiset(toks);
    }
  }

  /** The tokens of a key are the itemset's tokens, sorted. */
  lemma {:induction false} CanonicalTokens(pattern: string)
    ensures Split(Canonical(pattern)) == SortStrings(Split(pattern))
    ensures multiset(Split(Canonical(pattern))) == multiset(Split(pattern))
    ensures Sorted(Split(Canonical(pattern)))
  {
    var toks := SortStrings(Split(pattern));
    SortedTokens(Split(pattern));
    SplitJoin(toks);
    SortStringsSorted(Split(pattern));
    SortStringsPermutes(Split(pattern));
  }

  /** Canonicalising a key again changes nothing. */
  lemma {:induction false} CanonicalIdempotent(pattern: string)
    ensures Canonical(Canonical(pattern)) == Canonical(pattern)
  {
    CanonicalTokens(pattern);
    SortStringsIdempotent(Split(pattern));
  }

  /** Two itemsets listing the same tokens in any order get the same key. */
  lemma {:induction false} CanonicalOrderFree(p: string, q: string)
    requires multiset(Split(p)) == multiset(Split(q))
    ensures Canonical(p) == Canonical(q)
  {
    SortStringsSorted(Split(p));
    SortStringsSorted(Split(q));
    SortStringsPermutes(Split(p));
    SortStringsPermutes(Split(q));
    SortedUnique(SortStrings(Split(p)), SortStrings(Split(q)));
  }

  /** Two sorted lists with the same elements are equal. */
  lemma {:induction false} SortedUnique(a: seq<string>, b: seq<string>)
    requires Sorted(a) && Sorted(b) && multiset(a) == multiset(b)
    ensures a == b
  {
    if a != [] {
      assert b != [] by { assert a[0] in multiset(b); }
      SortedHeadsAgree(a, b);
      TailsSameElements(a, b);
      SortedUnique(a[1..], b[1..]);
      assert a == [a[0]] + a[1..];
      assert b == [b[0]] + b[1..];
    }
  }

  /** The first element of a sorted list is its least, so two such lists with the same
      elements start alike. */
  lemma {:induction false} SortedHeadsAgree(a: seq<string>, b: seq<string>)
    requires a != [] && b != []
    requires Sorted(a) && Sorted(b) && multiset(a) == multiset(b)
    ensures a[0] == b[0]
  {
    assert a[0] in multiset(b);
    var i :| 0 <= i < |b| && b[i] == a[0];
    assert b[0] in multiset(a);
    var j :| 0 <= j < |a| && a[j] == b[0];
    StrLeRefl(a[0]);
    assert StrLe(b[0], a[0]) by { if i > 0 { assert StrLe(b[0], b[i]); } }
    assert StrLe(a[0], b[0]) by { if j > 0 { assert StrLe(a[0], a[j]); } }
    StrLeAntisym(a[0], b[0]);
  }

  lemma {:induction false} TailsSameElements(a: seq<string>, b: seq<string>)
    requires a != [] && b != [] && a[0] == b[0]
    requires multiset(a) == multiset(b)
    ensures multiset(a[1..]) == multiset(b[1..])
  {
    assert a == [a[0]] + a[1..];
    assert b == [b[0]] + b[1..];
    assert multiset(a[1..]) == multiset(a) - multiset{a[0]};
    assert multiset(b[1..]) == multiset(b) - multiset{b[0]};
  }

  lemma {:induction false} StrLeAntisym(a: string, b: string)
    requires StrLe(a, b) && StrLe(b, a)
    ensures a == b
  {
    if a != [] && b != [] {
      StrLeAntisym(a[1..], b[1..]);
      assert a == [a[0]] + a[1..];
      assert b == [b[0]] + b[1..];
    }
  }

  /** The pattern table with every itemset replaced by its key (the `Patterns` column rewrite). */
  function CanonicalRows(rows: seq<PatternRow>): (out: seq<PatternRow>)
    ensures |out| == |rows|
    ensures forall i :: 0 <= i < |rows| ==> out[i] == PatternRow(Canonical(rows[i].pattern), rows[i].support)
  {
    seq(|rows|, i requires 0 <= i < |rows| => PatternRow(Canonical(rows[i].pattern), rows[i].support))
  }

  /** `pattern_dict`: one entry per key, a later row overwriting an earlier one with the same key. */
  function PatternDict(rows: seq<PatternRow>): map<string, real>
  {
    if rows == [] then map[]
    else PatternDict(rows[..|rows| - 1])[rows[|rows| - 1].pattern := rows[|rows| - 1].support]
  }

  /** No later row carries the same pattern as row `i`. */
  predicate LastWithKey(rows: seq<PatternRow>, i: nat)
    requires i < |rows|
  {
    forall j :: i < j < |rows| ==> rows[j].pattern != rows[i].pattern
  }

  /** The dictionary's keys are the table's patterns, and each maps to the support of the
      last row that carries it. */
  lemma {:induction false} PatternDictSpec(rows: seq<PatternRow>)
    ensures forall k :: k in PatternDict(rows) <==> exists i :: 0 <= i < |rows| && rows[i].pattern == k
    ensures forall i :: 0 <= i < |rows| && LastWithKey(rows, i) ==> PatternDict(rows)[rows[i].pattern] == rows[i].support
  {
    if rows != [] {
      var init := rows[..|rows| - 1];
      PatternDictSpec(init);
      forall k ensures k in PatternDict(rows) <==> exists i :: 0 <= i < |rows| && rows[i].pattern == k {
        if k in PatternDict(init) {
          var i :| 0 <= i < |init| && init[i].pattern == k;
          assert rows[i].pattern == k;
        }
        if exists i :: 0 <= i < |rows| && rows[i].pattern == k {
          var i :| 0 <= i < |rows| && rows[i].pattern == k;
          if i < |rows| - 1 {
            assert init[i].pattern == k;
          }
        }
      }
    }
  }

  /** Every key of the dictionary built from the canonical table is canonical. */
  lemma {:induction false} DictKeysCanonical(rows: seq<PatternRow>)
    ensures forall k :: k in PatternDict(CanonicalRows(rows)) ==> Canonical(k) == k
  {
    var c := CanonicalRows(rows);
    PatternDictSpec(c);
    forall k | k in PatternDict(c) ensures Canonical(k) == k {
      var i :| 0 <= i < |c| && c[i].pattern == k;
      CanonicalIdempotent(rows[i].pattern);
    }
  }
}
