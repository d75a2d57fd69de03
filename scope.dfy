/**
 * The family-scoped views: every screen sees only the records of the signed-in
 * user's household, `xs.filter(x => x.familyId === currentUser?.familyId)`.
 */
module ScopeProjector {
  import opened Records
  import opened RecordCollection

  /** The household to scope against: the signed-in user's, or none when nobody is signed in. */
  function ScopeOf(u: Option<User>): (scope: Option<string>) {
    if u.Some? then Some(u.value.familyId) else None
  }

  /** `x.familyId === currentUser?.familyId` on records that have a family id: without a user nothing matches. */
  predicate InScope<T>(familyOf: T -> string, scope: Option<string>, x: T) {
    scope == Some(familyOf(x))
  }

  /** The records of `s` in the given household, in their order in `s`. */
  function FamilyView<T(!new)>(s: seq<T>, familyOf: T -> string, scope: Option<string>): (r: seq<T>)
    ensures forall x :: x in r <==> x in s && InScope(familyOf, scope, x)
    ensures scope == None ==> r == []
  {
    if s == [] then []
    else if InScope(familyOf, scope, s[0]) then [s[0]] + FamilyView(s[1..], familyOf, scope)
    else FamilyView(s[1..], familyOf, scope)
  }

  /** `a` is made of elements of `b`, taken in the order they appear in `b`. */
  ghost predicate IsSubsequence<T>(a: seq<T>, b: seq<T>)
    decreases |b|
  {
    a == [] || (b != [] && ((a[0] == b[0] && IsSubsequence(a[1..], b[1..])) || IsSubsequence(a, b[1..])))
  }

  /** A view keeps the order of its collection. */
  lemma {:induction false} FamilyViewIsSubsequence<T(!new)>(s: seq<T>, familyOf: T -> string, scope: Option<string>)
    ensures IsSubsequence(FamilyView(s, familyOf, scope), s)
  {
    if s != [] {
      FamilyViewIsSubsequence(s[1..], familyOf, scope);
      var r := FamilyView(s, familyOf, scope);
      if InScope(familyOf, scope, s[0]) {
        assert r[1..] == FamilyView(s[1..], familyOf, scope);
      }
    }
  }

  /** No in-scope subsequence of a collection is longer than its view. */
  lemma {:induction false} InScopeSubsequenceBound<T(!new)>(r: seq<T>, s: seq<T>, familyOf: T -> string, scope: Option<string>)
    requires IsSubsequence(r, s)
    requires forall i :: 0 <= i < |r| ==> InScope(familyOf, scope, r[i])
    ensures |r| <= |FamilyView(s, familyOf, scope)|
  {
    if r != [] {
      if r[0] == s[0] && IsSubsequence(r[1..], s[1..]) {
        InScopeSubsequenceBound(r[1..], s[1..], familyOf, scope);
      } else {
        InScopeSubsequenceBound(r, s[1..], familyOf, scope);
      }
    }
  }

  /**
   * The view is the only longest in-scope subsequence of its collection: an
   * order-keeping selection of in-scope records that misses none is the view.
   */
  lemma {:induction false} FamilyViewUnique<T(!new)>(r: seq<T>, s: seq<T>, familyOf: T -> string, scope: Option<string>)
    requires IsSubsequence(r, s)
    requires forall i :: 0 <= i < |r| ==> InScope(familyOf, scope, r[i])
    requires |r| >= |FamilyView(s, familyOf, scope)|
    ensures r == FamilyView(s, familyOf, scope)
  {
    if s == [] {
    } else if r == [] {
    } else if InScope(familyOf, scope, s[0]) {
      if r[0] == s[0] && IsSubsequence(r[1..], s[1..]) {
        FamilyViewUnique(r[1..], s[1..], familyOf, scope);
      } else {
        InScopeSubsequenceBound(r, s[1..], familyOf, scope);
      }
    } else {
      assert !(r[0] == s[0]);
      FamilyViewUnique(r, s[1..], familyOf, scope);
    }
  }

  /** Adding a record at the end adds it at the end of the view of its own household, and nowhere else. */
  lemma {:induction false} FamilyViewOfAppend<T(!new)>(s: seq<T>, x: T, familyOf: T -> string, scope: Option<string>)
    ensures FamilyView(s + [x], familyOf, scope)
         == FamilyView(s, familyOf, scope) + (if InScope(familyOf, scope, x) then [x] else [])
  {
    if s == [] {
      assert [x][1..] == [];
    } else {
      assert (s + [x])[1..] == s[1..] + [x];
      FamilyViewOfAppend(s[1..], x, familyOf, scope);
    }
  }

  /**
   * An update that leaves family ids alone commutes with scoping: the view of
   * the updated collection is the updated view.
   */
  lemma {:induction false} FamilyViewOfUpdate<T(!new)>(s: seq<T>, familyOf: T -> string, scope: Option<string>,
                                                 hit: T -> bool, change: T -> T)
    requires forall x :: familyOf(change(x)) == familyOf(x)
    ensures FamilyView(UpdateWhere(s, hit, change), familyOf, scope)
         == UpdateWhere(FamilyView(s, familyOf, scope), hit, change)
  {
    if s != [] {
      var h := s[0];
      var h' := if hit(h) then change(h) else h;
      var u := UpdateWhere(s, hit, change);
      assert u == [h'] + UpdateWhere(s[1..], hit, change);
      assert u[0] == h' && u[1..] == UpdateWhere(s[1..], hit, change);
      assert familyOf(h') == familyOf(h);
      FamilyViewOfUpdate(s[1..], familyOf, scope, hit, change);
      var v := FamilyView(s[1..], familyOf, scope);
      if InScope(familyOf, scope, h) {
        assert ([h] + v)[0] == h && ([h] + v)[1..] == v;
      }
    }
  }
}
