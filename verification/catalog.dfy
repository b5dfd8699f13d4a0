/**
 * Looking products up by id, the way the pages do it with `Array.prototype.find`,
 * `ids.map(find).filter(Boolean)` and `[...new Map(ps.map(p => [p.id, p])).values()]`.
 */
module Catalog {
  import opened Types
  import opened Seqs

  /** The ids of a product list, in order. */
  function Ids(ps: seq<Product>): (r: seq<Id>)
    ensures |r| == |ps|
    ensures forall i :: 0 <= i < |ps| ==> r[i] == ps[i].id
  {
    seq(|ps|, i requires 0 <= i < |ps| => ps[i].id)
  }

  /** The ids of two lists back to back. */
  lemma IdsAppend(a: seq<Product>, b: seq<Product>)
    ensures Ids(a + b) == Ids(a) + Ids(b)
  {
  }

  /** Some product in the list carries this id. */
  predicate HasId(ps: seq<Product>, id: Id) {
    exists p :: p in ps && p.id == id
  }

  /** An id is among the ids of a list exactly when some product of the list carries it. */
  lemma InIdsIffHasId(ps: seq<Product>, id: Id)
    ensures id in Ids(ps) <==> HasId(ps, id)
  {
    if id in Ids(ps) {
      var k :| 0 <= k < |ps| && Ids(ps)[k] == id;
      assert ps[k] in ps;
    }
  }

  /** `ps.find(p => p.id === id)`: the first product with that id. */
  function Find(ps: seq<Product>, id: Id): (r: Option<Product>)
    ensures r.None? <==> !HasId(ps, id)
    ensures r.Some? ==> r.value in ps && r.value.id == id
  {
    if ps == [] then None
    else if ps[0].id == id then Some(ps[0])
    else Find(ps[1..], id)
  }

  /** `Find` returns the product at the first index carrying the id. */
  lemma {:induction false} FindIsFirst(ps: seq<Product>, id: Id, k: nat)
    requires k < |ps| && ps[k].id == id
    requires forall m :: 0 <= m < k ==> ps[m].id != id
    ensures Find(ps, id) == Some(ps[k])
  {
    if k > 0 {
      FindIsFirst(ps[1..], id, k - 1);
    }
  }

  /** What one id contributes to a resolution: its product, or nothing. */
  function ResolveOne(ps: seq<Product>, id: Id): (r: seq<Product>)
    ensures |r| <= 1
    ensures r == [] <==> !HasId(ps, id)
  {
    match Find(ps, id) case Some(p) => [p] case None => []
  }

  /**
   * `ids.map(id => ps.find(p => p.id === id)).filter(Boolean)`: the products
   * for the ids, in id order; unknown ids are dropped and repeated ids repeat.
   */
  function ResolveIds(ps: seq<Product>, ids: seq<Id>): (r: seq<Product>)
    ensures |r| <= |ids|
    ensures forall p :: p in r ==> p in ps
  {
    if ids == [] then [] else ResolveOne(ps, ids[0]) + ResolveIds(ps, ids[1..])
  }

  /** Resolution keeps exactly the known ids, in order and with their repeats. */
  lemma {:induction false} ResolveIdsKeepsKnownIds(ps: seq<Product>, ids: seq<Id>)
    ensures Ids(ResolveIds(ps, ids)) == Filter((id: Id) => HasId(ps, id), ids)
  {
    if ids != [] {
      ResolveIdsKeepsKnownIds(ps, ids[1..]);
      var rest := ResolveIds(ps, ids[1..]);
      var head := ResolveOne(ps, ids[0]);
      var known := (id: Id) => HasId(ps, id);
      assert Ids(head + rest) == Ids(head) + Ids(rest);
      if known(ids[0]) {
        assert Ids(head) == [ids[0]];
        assert Filter(known, ids) == [ids[0]] + Filter(known, ids[1..]);
      } else {
        assert Filter(known, ids) == Filter(known, ids[1..]);
      }
    }
  }

  /** When every id names a product, resolution is the list of those products, one per id. */
  lemma {:induction false} ResolveIdsAllKnown(ps: seq<Product>, ids: seq<Id>, r: seq<Product>)
    requires |r| == |ids|
    requires forall i :: 0 <= i < |ids| ==> Find(ps, ids[i]) == Some(r[i])
    ensures ResolveIds(ps, ids) == r
  {
    if ids != [] {
      assert Find(ps, ids[0]) == Some(r[0]);
      ResolveIdsAllKnown(ps, ids[1..], r[1..]);
      assert [r[0]] + r[1..] == r;
    }
  }

  /** Resolution distributes over concatenated id lists. */
  lemma {:induction false} ResolveIdsAppend(ps: seq<Product>, a: seq<Id>, b: seq<Id>)
    ensures ResolveIds(ps, a + b) == ResolveIds(ps, a) + ResolveIds(ps, b)
  {
    if a == [] {
      assert a + b == b;
    } else {
      assert (a + b)[0] == a[0];
      assert (a + b)[1..] == a[1..] + b;
      ResolveIdsAppend(ps, a[1..], b);
      calc {
        ResolveIds(ps, a + b);
        ResolveOne(ps, a[0]) + ResolveIds(ps, a[1..] + b);
        ResolveOne(ps, a[0]) + (ResolveIds(ps, a[1..]) + ResolveIds(ps, b));
      }
    }
  }

  /**
   * `Map.prototype.set(p.id, p)`: an existing entry with that id keeps its
   * position and takes the new value; otherwise the entry is appended.
   */
  function Put(acc: seq<Product>, p: Product): (r: seq<Product>)
    requires NoDuplicates(Ids(acc))
    ensures Ids(r) == if p.id in Ids(acc) then Ids(acc) else Ids(acc) + [p.id]
    ensures p in r
    ensures forall q :: q in r ==> q == p || (q in acc && q.id != p.id)
  {
    if acc == [] then [p]
    else
      HeadAndTail(acc);
      if acc[0].id == p.id then
        IdsAppend([p], acc[1..]);
        [p] + acc[1..]
      else
        var rest := Put(acc[1..], p);
        IdsAppend([acc[0]], rest);
        [acc[0]] + rest
  }

  /** Splitting a list without repeated ids into its head and its tail. */
  lemma HeadAndTail(acc: seq<Product>)
    requires acc != [] && NoDuplicates(Ids(acc))
    ensures Ids(acc) == [acc[0].id] + Ids(acc[1..])
    ensures NoDuplicates(Ids(acc[1..]))
    ensures forall q :: q in acc[1..] ==> q.id != acc[0].id
  {
    assert Ids(acc)[1..] == Ids(acc[1..]);
    forall q | q in acc[1..]
      ensures q.id != acc[0].id
    {
      var k :| 1 <= k < |acc| && acc[k] == q;
      assert Ids(acc)[k] != Ids(acc)[0];
    }
  }

  /** The product a left-to-right scan of `ps` sees last under this id. */
  function LastWithId(ps: seq<Product>, id: Id): Option<Product> {
    if ps == [] then None
    else if ps[|ps| - 1].id == id then Some(ps[|ps| - 1])
    else LastWithId(ps[..|ps| - 1], id)
  }

  /**
   * `[...new Map(ps.map(p => [p.id, p])).values()]`: one product per id, ids
   * in order of first occurrence, each holding the last product with that id.
   */
  function UniqueById(ps: seq<Product>): (r: seq<Product>)
    ensures NoDuplicates(Ids(r))
    ensures forall q :: q in r ==> q in ps
  {
    if ps == [] then []
    else
      var acc := UniqueById(ps[..|ps| - 1]);
      var r := Put(acc, ps[|ps| - 1]);
      if ps[|ps| - 1].id !in Ids(acc) then
        AppendFresh(Ids(acc), ps[|ps| - 1].id);
        r
      else
        r
  }

  /** The ids of the deduplicated list are the distinct ids, in first-occurrence order. */
  lemma {:induction false} UniqueByIdIds(ps: seq<Product>)
    ensures Ids(UniqueById(ps)) == Distinct(Ids(ps))
  {
    if ps != [] {
      var init := ps[..|ps| - 1];
      UniqueByIdIds(init);
      assert Ids(ps)[..|ps| - 1] == Ids(init);
    }
  }

  /** Each entry of the deduplicated list is the last product with its id. */
  lemma {:induction false} UniqueByIdKeepsLast(ps: seq<Product>)
    ensures forall q :: q in UniqueById(ps) ==> LastWithId(ps, q.id) == Some(q)
  {
    if ps != [] {
      UniqueByIdKeepsLast(ps[..|ps| - 1]);
    }
  }

  /** Putting a product whose id is new appends it. */
  lemma {:induction false} PutFresh(acc: seq<Product>, p: Product)
    requires NoDuplicates(Ids(acc)) && p.id !in Ids(acc)
    ensures Put(acc, p) == acc + [p]
  {
    if acc != [] {
      assert Ids(acc)[0] == acc[0].id;
      assert Ids(acc[1..]) == Ids(acc)[1..];
      PutFresh(acc[1..], p);
      assert [acc[0]] + (acc[1..] + [p]) == acc + [p];
    }
  }
}
