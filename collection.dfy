/** Specification functions over a product collection: the running maximum that
    every `GetNextID` computes, the first-match scan the handlers use, and the
    removal that delete performs. */
module Collection {
  import opened Models

  /** The largest ID in `ps`, or 0 when no ID is positive: GetNextID's `maxID`
      after the loop has seen all of `ps`. */
  function MaxId(ps: seq<Product>): (m: Int64)
    ensures 0 <= m
    ensures forall i :: 0 <= i < |ps| ==> ps[i].id <= m
    ensures m == 0 || exists i :: 0 <= i < |ps| && ps[i].id == m
    decreases |ps|
  {
    if ps == [] then 0
    else
      var front := ps[..|ps| - 1];
      var m := MaxId(front);
      assert forall i :: 0 <= i < |front| ==> front[i] == ps[i];
      if ps[|ps| - 1].id > m then ps[|ps| - 1].id else m
  }

  /** The value every GetNextID returns: `maxID + 1` in Go's wrapping int arithmetic. */
  function NextId(ps: seq<Product>): Int64
  {
    AddInt64(MaxId(ps), 1)
  }

  /** No product carries the largest Go int, so `maxID + 1` cannot wrap. */
  predicate NoMaxInt(ps: seq<Product>)
  {
    forall i :: 0 <= i < |ps| ==> ps[i].id < MaxInt64
  }

  lemma NextIdOfEmpty()
    ensures NextId([]) == 1
  {
  }

  /** Without wrap-around the next ID is positive and exceeds every ID in `ps`. */
  lemma NextIdExceedsAll(ps: seq<Product>)
    requires NoMaxInt(ps)
    ensures NextId(ps) == MaxId(ps) + 1 >= 1
    ensures forall i :: 0 <= i < |ps| ==> ps[i].id < NextId(ps)
  {
    if MaxId(ps) != 0 {
      var i :| 0 <= i < |ps| && ps[i].id == MaxId(ps);
      assert ps[i].id < MaxInt64;
    }
  }

  /** ... and it is the least such value: `1 + max(0, all IDs)`. */
  lemma NextIdIsLeast(ps: seq<Product>, m: int)
    requires NoMaxInt(ps)
    requires 1 <= m
    requires forall i :: 0 <= i < |ps| ==> ps[i].id < m
    ensures NextId(ps) <= m
  {
    NextIdExceedsAll(ps);
    if MaxId(ps) != 0 {
      var i :| 0 <= i < |ps| && ps[i].id == MaxId(ps);
      assert ps[i].id < m;
    }
  }

  /** When every ID is at most 0 the next ID is 1. */
  lemma NextIdOfNonPositive(ps: seq<Product>)
    requires forall i :: 0 <= i < |ps| ==> ps[i].id <= 0
    ensures NextId(ps) == 1
  {
  }

  /** A product with ID 2^63-1 makes `maxID + 1` wrap to the smallest Go int. */
  lemma NextIdWraps(ps: seq<Product>, k: nat)
    requires k < |ps| && ps[k].id == MaxInt64
    ensures NextId(ps) == MinInt64
  {
    assert MaxId(ps) == MaxInt64;
  }

  /** The running maximum extends one element at a time: the loop step of GetNextID. */
  lemma MaxIdStep(ps: seq<Product>, i: nat)
    requires i < |ps|
    ensures MaxId(ps[..i + 1]) == if ps[i].id > MaxId(ps[..i]) then ps[i].id else MaxId(ps[..i])
  {
    assert ps[..i + 1][..i] == ps[..i];
  }

  /** Position `i` holds the first product with ID `id`. */
  predicate FirstMatch(ps: seq<Product>, id: int, i: int)
  {
    0 <= i < |ps| && ps[i].id == id && forall j :: 0 <= j < i ==> ps[j].id != id
  }

  /** The early-return scan `for _, p := range ps { if p.ID == id { ... return } }`:
      the index of the first product with ID `id`, or None when there is none. */
  function FindFirst(ps: seq<Product>, id: int): (r: Option<nat>)
    ensures r.Some? ==> FirstMatch(ps, id, r.value)
    ensures r.None? <==> forall j :: 0 <= j < |ps| ==> ps[j].id != id
  {
    if ps == [] then None
    else if ps[0].id == id then Some(0)
    else
      match FindFirst(ps[1..], id)
      case None => None
      case Some(k) => Some(k + 1)
  }

  /** The first match is unique, so FindFirst finds exactly it. */
  lemma FindFirstIsFirstMatch(ps: seq<Product>, id: int, i: int)
    requires FirstMatch(ps, id, i)
    ensures FindFirst(ps, id) == Some(i)
  {
  }

  /** The collection with position `i` taken out, the rest in their order. */
  function RemoveAt(ps: seq<Product>, i: nat): (r: seq<Product>)
    requires i < |ps|
    ensures |r| == |ps| - 1
    ensures forall k :: 0 <= k < i ==> r[k] == ps[k]
    ensures forall k :: i <= k < |r| ==> r[k] == ps[k + 1]
    ensures multiset(r) + multiset{ps[i]} == multiset(ps)
  {
    assert ps == ps[..i] + [ps[i]] + ps[i + 1..];
    ps[..i] + ps[i + 1..]
  }

  /** The collection invariant that creation keeps by max-plus-one assignment. */
  predicate UniqueIds(ps: seq<Product>)
  {
    forall i, j :: 0 <= i < j < |ps| ==> ps[i].id != ps[j].id
  }

  /** IDs of a collection whose k-th product has ID k + 1, as seeded. */
  predicate DenseIds(ps: seq<Product>)
  {
    forall k :: 0 <= k < |ps| ==> ps[k].id == k + 1
  }

  /** With dense IDs, the product with ID `id` sits at position `id - 1`. */
  lemma DenseIdsPosition(ps: seq<Product>, id: int)
    requires DenseIds(ps)
    requires 1 <= id <= |ps|
    ensures FindFirst(ps, id) == Some(id - 1)
  {
    FindFirstIsFirstMatch(ps, id, id - 1);
  }

  /** The example of a three-product collection: IDs 1, 5, 3 give 6. */
  lemma NextIdExample()
    ensures NextId([Blank.(id := 1), Blank.(id := 5), Blank.(id := 3)]) == 6
  {
    var ps := [Blank.(id := 1), Blank.(id := 5), Blank.(id := 3)];
    NextIdExceedsAll(ps);
    NextIdIsLeast(ps, 6);
  }
}
