/**
 * An ordered record collection and the one way the store changes records in
 * place: `prev.map(x => matches(x) ? change(x) : x)`.
 */
module RecordCollection {

  /** Applies `change` to every element that satisfies `hit`, keeping every other element and the order. */
  function UpdateWhere<T>(s: seq<T>, hit: T -> bool, change: T -> T): (r: seq<T>)
    ensures |r| == |s|
    ensures forall i :: 0 <= i < |s| && hit(s[i]) ==> r[i] == change(s[i])
    ensures forall i :: 0 <= i < |s| && !hit(s[i]) ==> r[i] == s[i]
  {
    if s == [] then []
    else [if hit(s[0]) then change(s[0]) else s[0]] + UpdateWhere(s[1..], hit, change)
  }

  /**
   * An update whose change does not alter which elements it hits, and undoes
   * itself, restores the collection when applied twice.
   */
  lemma UpdateWhereTwice<T>(s: seq<T>, hit: T -> bool, change: T -> T)
    requires forall x :: hit(change(x)) == hit(x)
    requires forall x :: hit(x) ==> change(change(x)) == x
    ensures UpdateWhere(UpdateWhere(s, hit, change), hit, change) == s
  {
  }
}
