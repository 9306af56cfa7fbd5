/**
 * The two array transforms of Firestore's `FieldValue` that the task board
 * uses on `membersIds` and `usersIdsWhoseBoardIsFavorite`:
 * `arrayUnion(x)` appends `x` unless it is already present, and
 * `arrayRemove(x)` removes every occurrence of `x`.
 */
module FirestoreArrays {

  /** No element occurs twice. */
  predicate NoDuplicates<T(==,!new)>(a: seq<T>) {
    forall i, j | 0 <= i < j < |a| :: a[i] != a[j]
  }

  /** `FieldValue.arrayUnion(x)` applied to the stored array `a`. */
  function ArrayUnion<T(==,!new)>(a: seq<T>, x: T): (r: seq<T>)
    ensures x in r
    ensures forall y :: y in r <==> y in a || y == x
    ensures x in a ==> r == a
    ensures x !in a ==> r == a + [x]
    ensures NoDuplicates(a) ==> NoDuplicates(r)
  {
    if x in a then a else a + [x]
  }

  /** `FieldValue.arrayRemove(x)` applied to the stored array `a`. */
  function ArrayRemove<T(==,!new)>(a: seq<T>, x: T): (r: seq<T>)
    ensures x !in r
    ensures forall y :: y != x ==> (y in r <==> y in a)
    ensures multiset(r) == multiset(a)[x := 0]
    ensures |r| <= |a|
    ensures x !in a ==> r == a
  {
    if a == [] then []
    else
      var rest := ArrayRemove(a[1..], x);
      assert a == [a[0]] + a[1..];
      if a[0] == x then rest else [a[0]] + rest
  }

  /** Adding an element twice is the same as adding it once. */
  lemma ArrayUnionIdempotent<T(!new)>(a: seq<T>, x: T)
    ensures ArrayUnion(ArrayUnion(a, x), x) == ArrayUnion(a, x)
  {
  }

  /** Removing an element twice is the same as removing it once. */
  lemma ArrayRemoveIdempotent<T(!new)>(a: seq<T>, x: T)
    ensures ArrayRemove(ArrayRemove(a, x), x) == ArrayRemove(a, x)
  {
  }

  /**
   * Removing an element undoes adding it when the element was absent, and
   * otherwise leaves exactly the array with every occurrence removed.
   */
  lemma {:induction false} ArrayRemoveUndoesUnion<T(!new)>(a: seq<T>, x: T)
    ensures x !in a ==> ArrayRemove(ArrayUnion(a, x), x) == a
    ensures ArrayRemove(ArrayUnion(a, x), x) == ArrayRemove(a, x)
  {
    if x !in a {
      ArrayRemoveAppend(a, [x], x);
    }
  }

  /** `arrayRemove` distributes over concatenation. */
  lemma {:induction false} ArrayRemoveAppend<T(!new)>(a: seq<T>, b: seq<T>, x: T)
    ensures ArrayRemove(a + b, x) == ArrayRemove(a, x) + ArrayRemove(b, x)
    decreases |a|
  {
    if a == [] {
      assert a + b == b;
    } else {
      assert (a + b)[1..] == a[1..] + b;
      ArrayRemoveAppend(a[1..], b, x);
    }
  }
}
