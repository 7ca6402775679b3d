/** The list updates the CRUD pages apply to their state after a successful
    request: replace-by-id after an update (`map`), append after a create
    (spread) and filter-by-id after a delete (`filter`). */
module Lists {
  import opened Js

  /** `xs.map(e => idOf(e) === id ? replacement : e)` */
  function ReplaceById<T>(xs: seq<T>, idOf: T -> string, id: string, replacement: T): (ys: seq<T>)
    ensures |ys| == |xs|
    ensures forall i :: 0 <= i < |xs| && idOf(xs[i]) != id ==> ys[i] == xs[i]
    ensures forall i :: 0 <= i < |xs| && idOf(xs[i]) == id ==> ys[i] == replacement
  {
    if xs == [] then []
    else
      var rest := ReplaceById(xs[1..], idOf, id, replacement);
      [if idOf(xs[0]) == id then replacement else xs[0]] + rest
  }

  /** `xs.filter(e => idOf(e) !== id)` */
  function RemoveById<T(!new)>(xs: seq<T>, idOf: T -> string, id: string): (ys: seq<T>)
    ensures |ys| <= |xs|
    ensures forall y :: y in ys ==> y in xs && idOf(y) != id
    ensures forall x :: x in xs && idOf(x) != id ==> x in ys
  {
    if xs == [] then []
    else
      var rest := RemoveById(xs[1..], idOf, id);
      assert forall x :: x in xs ==> x == xs[0] || x in xs[1..];
      if idOf(xs[0]) == id then rest else [xs[0]] + rest
  }

  /** Every element without the id survives as often as it occurs, and no
      element with the id survives. */
  lemma {:induction false} RemoveByIdCounts<T(!new)>(xs: seq<T>, idOf: T -> string, id: string)
    ensures forall x :: multiset(RemoveById(xs, idOf, id))[x] == if idOf(x) != id then multiset(xs)[x] else 0
  {
    if xs != [] {
      RemoveByIdCounts(xs[1..], idOf, id);
      assert xs == [xs[0]] + xs[1..];
    }
  }

  /** The filter keeps the order of the survivors: it works piece by piece. */
  lemma {:induction false} RemoveByIdConcat<T(!new)>(xs: seq<T>, zs: seq<T>, idOf: T -> string, id: string)
    ensures RemoveById(xs + zs, idOf, id) == RemoveById(xs, idOf, id) + RemoveById(zs, idOf, id)
  {
    if xs != [] {
      assert (xs + zs)[1..] == xs[1..] + zs;
      RemoveByIdConcat(xs[1..], zs, idOf, id);
    } else {
      assert xs + zs == zs;
    }
  }

  /** `xs.find(e => idOf(e) === id)`: the first element with that id. */
  function FindById<T(==)>(xs: seq<T>, idOf: T -> string, id: string): (r: Option<T>)
    ensures r.Some? <==> exists i :: 0 <= i < |xs| && idOf(xs[i]) == id
    ensures r.Some? ==> exists i :: 0 <= i < |xs| && xs[i] == r.value && idOf(xs[i]) == id
                          && forall j :: 0 <= j < i ==> idOf(xs[j]) != id
  {
    if xs == [] then None
    else if idOf(xs[0]) == id then Some(xs[0])
    else
      var rest := FindById(xs[1..], idOf, id);
      assert forall i :: 0 < i < |xs| ==> xs[i] == xs[1..][i - 1];
      if rest.Some? then
        var i :| 0 <= i < |xs[1..]| && xs[1..][i] == rest.value && idOf(xs[1..][i]) == id
                 && forall j :: 0 <= j < i ==> idOf(xs[1..][j]) != id;
        assert xs[i + 1] == rest.value;
        assert forall j :: 0 <= j < i + 1 ==> idOf(xs[j]) != id by {
          forall j | 0 <= j < i + 1 ensures idOf(xs[j]) != id {
            if j > 0 { assert xs[j] == xs[1..][j - 1]; }
          }
        }
        rest
      else
        rest
  }

  /** Replacing an id held by exactly one element changes that element and
      nothing else. */
  lemma {:induction false} ReplaceUniqueId<T>(xs: seq<T>, idOf: T -> string, k: nat, replacement: T)
    requires k < |xs|
    requires forall i :: 0 <= i < |xs| && i != k ==> idOf(xs[i]) != idOf(xs[k])
    ensures ReplaceById(xs, idOf, idOf(xs[k]), replacement) == xs[..k] + [replacement] + xs[k + 1..]
  {
    var ys := ReplaceById(xs, idOf, idOf(xs[k]), replacement);
    var zs := xs[..k] + [replacement] + xs[k + 1..];
    assert |ys| == |zs|;
    forall i | 0 <= i < |ys|
      ensures ys[i] == zs[i]
    {
      if i < k {
        assert zs[i] == xs[i];
      } else if i > k {
        assert zs[i] == xs[i];
      }
    }
  }

  /** Removing an id absent from the list keeps the list as it is. */
  lemma {:induction false} RemoveAbsentId<T(!new)>(xs: seq<T>, idOf: T -> string, id: string)
    requires forall i :: 0 <= i < |xs| ==> idOf(xs[i]) != id
    ensures RemoveById(xs, idOf, id) == xs
  {
    if xs != [] {
      RemoveAbsentId(xs[1..], idOf, id);
      assert xs == [xs[0]] + xs[1..];
    }
  }

  /** Removing an id held by exactly one element deletes exactly that element
      and keeps the others in order. */
  lemma {:induction false} RemoveUniqueId<T(!new)>(xs: seq<T>, idOf: T -> string, k: nat)
    requires k < |xs|
    requires forall i :: 0 <= i < |xs| && i != k ==> idOf(xs[i]) != idOf(xs[k])
    ensures RemoveById(xs, idOf, idOf(xs[k])) == xs[..k] + xs[k + 1..]
  {
    var id := idOf(xs[k]);
    if k == 0 {
      RemoveAbsentId(xs[1..], idOf, id);
    } else {
      RemoveUniqueId(xs[1..], idOf, k - 1);
      assert xs[1..][..k - 1] + xs[1..][k..] == xs[1..k] + xs[k + 1..];
      assert xs[..k] == [xs[0]] + xs[1..k];
    }
  }
}
