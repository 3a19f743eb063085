/** Tables of records keyed by a string id, as the routes see them: lookup
    by id and deletion by id. The shot and player tables both use these,
    each with its own id field. */
module Tables {

  /** Whether some record of `xs` has id `id`. */
  predicate HasId<T>(xs: seq<T>, idOf: T -> string, id: string) {
    exists i :: 0 <= i < |xs| && idOf(xs[i]) == id
  }

  /** No two records share an id (the primary key). */
  ghost predicate UniqueIds<T>(xs: seq<T>, idOf: T -> string) {
    forall i, j :: 0 <= i < j < |xs| ==> idOf(xs[i]) != idOf(xs[j])
  }

  /** Every record but the ones with `id`, in table order: a delete by id. */
  function Without<T(==,!new)>(xs: seq<T>, idOf: T -> string, id: string): (r: seq<T>)
    ensures |r| <= |xs|
    ensures forall x :: x in r <==> x in xs && idOf(x) != id
  {
    if xs == [] then []
    else if idOf(xs[|xs| - 1]) == id then Without(xs[..|xs| - 1], idOf, id)
    else Without(xs[..|xs| - 1], idOf, id) + [xs[|xs| - 1]]
  }

  /** Deleting an id no record has leaves the table as it is. */
  lemma {:induction false} WithoutAbsent<T(!new)>(xs: seq<T>, idOf: T -> string, id: string)
    requires !HasId(xs, idOf, id)
    ensures Without(xs, idOf, id) == xs
  {
    if xs != [] {
      var init := xs[..|xs| - 1];
      assert !HasId(init, idOf, id) by {
        forall i | 0 <= i < |init|
          ensures idOf(init[i]) != id
        {
          assert init[i] == xs[i];
        }
      }
      WithoutAbsent(init, idOf, id);
      assert xs == init + [xs[|xs| - 1]];
    }
  }

  /** With unique ids, deleting an id the table has removes exactly one record. */
  lemma {:induction false} WithoutRemovesOne<T(!new)>(xs: seq<T>, idOf: T -> string, id: string)
    requires UniqueIds(xs, idOf) && HasId(xs, idOf, id)
    ensures |Without(xs, idOf, id)| == |xs| - 1
  {
    var init := xs[..|xs| - 1];
    assert UniqueIds(init, idOf);
    if idOf(xs[|xs| - 1]) == id {
      assert !HasId(init, idOf, id);
      WithoutAbsent(init, idOf, id);
    } else {
      var i :| 0 <= i < |xs| && idOf(xs[i]) == id;
      assert idOf(init[i]) == id;
      WithoutRemovesOne(init, idOf, id);
    }
  }
}
