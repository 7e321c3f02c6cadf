/** Python lists used as ordered sets. */
module Lists {

  datatype Option<+T> = None | Some(value: T)

  function Elems<T>(s: seq<T>): set<T> {
    set a | a in s
  }

  lemma ElemsSnoc<T>(s: seq<T>, a: T)
    ensures Elems(s + [a]) == Elems(s) + {a}
  {
  }

  /** No value occurs twice. */
  ghost predicate NoDuplicates<T(!new)>(s: seq<T>) {
    forall i, j :: 0 <= i < j < |s| ==> s[i] != s[j]
  }
}
