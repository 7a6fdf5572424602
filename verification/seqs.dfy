/** Small facts about sequences used by several scripts' models. */
module Seqs {

  predicate NoDup<T(==)>(s: seq<T>) {
    forall i, j :: 0 <= i < j < |s| ==> s[i] != s[j]
  }

  /** How often `x` occurs in `s`. */
  function Occurrences<T(==)>(s: seq<T>, x: T): nat {
    if |s| == 0 then 0 else Occurrences(s[..|s| - 1], x) + (if s[|s| - 1] == x then 1 else 0)
  }

  lemma {:induction false} OccurrencesOfNoDup<T>(s: seq<T>, x: T)
    requires NoDup(s)
    ensures Occurrences(s, x) <= 1
    ensures x in s ==> Occurrences(s, x) == 1
  {
    if |s| > 0 {
      var init := s[..|s| - 1];
      assert NoDup(init);
      OccurrencesOfNoDup(init, x);
      if s[|s| - 1] == x {
        assert x !in init;
        OccurrencesAbsent(init, x);
      } else if x in s {
        assert x in init;
      }
    }
  }

  lemma {:induction false} OccurrencesAbsent<T>(s: seq<T>, x: T)
    requires x !in s
    ensures Occurrences(s, x) == 0
  {
    if |s| > 0 {
      OccurrencesAbsent(s[..|s| - 1], x);
    }
  }

  /** The concatenation of all the pieces, in order. */
  function Flatten<T>(pieces: seq<seq<T>>): seq<T> {
    if |pieces| == 0 then [] else Flatten(pieces[..|pieces| - 1]) + pieces[|pieces| - 1]
  }

  lemma FlattenAppend<T>(pieces: seq<seq<T>>, last: seq<T>)
    ensures Flatten(pieces + [last]) == Flatten(pieces) + last
  {
    assert (pieces + [last])[..|pieces|] == pieces;
  }

  lemma {:induction false} FlattenPrepend<T>(first: seq<T>, pieces: seq<seq<T>>)
    ensures Flatten([first] + pieces) == first + Flatten(pieces)
  {
    if |pieces| > 0 {
      var init := pieces[..|pieces| - 1];
      FlattenPrepend(first, init);
      assert ([first] + pieces)[..|pieces|] == [first] + init;
    } else {
      assert [first] + pieces == [first];
      assert [first][..0] == [];
    }
  }
}
