/** Discovery reports how a store fulfils. The listing computes it from one aggregate join, the
    store page product by product; the two must agree for every catalogue. */
module Fulfilment {
  import opened Prelude
  import opened CheckoutLedger

  datatype Mode = Automatic | Merchant | Mixed

  /** A product's id is its position, as a deliverable's is. */
  datatype Product = Product(storeId: nat, active: bool)

  /** One row of products left-joined with deliverables: at least one per active product. */
  datatype JoinRow = JoinRow(product: nat, deliverable: Option<nat>)

  /** One group of the aggregate; a store without active products has no group. */
  datatype Counts = Counts(hasDefault: nat, specificProducts: nat)

  predicate Sold(products: seq<Product>, s: nat, p: nat) {
    p < |products| && products[p].storeId == s && products[p].active
  }

  function SoldBy(products: seq<Product>, s: nat): set<nat> {
    set p | 0 <= p < |products| && Sold(products, s, p)
  }

  // ------------------------------------------------------------ product by product

  function ProductMode(ds: seq<Deliverable>, s: nat, p: nat): Mode {
    if ActiveDeliverable(ds, s, Some(p)).Some? then Automatic else Merchant
  }

  function StoreMode(products: seq<Product>, ds: seq<Deliverable>, s: nat): Mode {
    var modes := set p | p in SoldBy(products, s) :: ProductMode(ds, s, p);
    if modes == {Automatic} then Automatic
    else if modes == {Merchant} || modes == {} then Merchant
    else Mixed
  }

  // ------------------------------------------------------------ from the aggregate

  predicate Joins(d: Deliverable, s: nat, p: nat) {
    ServesProduct(d, s, None) || ServesProduct(d, s, Some(p))
  }

  /** The deliverables the join finds for one product, as rows. */
  function Found(ds: seq<Deliverable>, s: nat, p: nat): seq<JoinRow> {
    if ds == [] then []
    else
      var rest := Found(ds[..|ds| - 1], s, p);
      if Joins(ds[|ds| - 1], s, p) then rest + [JoinRow(p, Some(|ds| - 1))] else rest
  }

  function Join(products: seq<Product>, ds: seq<Deliverable>, s: nat): seq<JoinRow> {
    if products == [] then []
    else
      var p := |products| - 1;
      var rest := Join(products[..p], ds, s);
      if !Sold(products, s, p) then rest
      else rest + if Found(ds, s, p) == [] then [JoinRow(p, None)] else Found(ds, s, p)
  }

  predicate IsDefault(ds: seq<Deliverable>, row: JoinRow) {
    row.deliverable.Some? && row.deliverable.value < |ds| && ds[row.deliverable.value].productId.None?
  }

  predicate IsSpecific(ds: seq<Deliverable>, row: JoinRow) {
    row.deliverable.Some? && row.deliverable.value < |ds| && ds[row.deliverable.value].productId.Some?
  }

  /** max(case when the row carries a default then 1 else 0 end) */
  function HasDefault(rows: seq<JoinRow>, ds: seq<Deliverable>): nat {
    if rows == [] then 0
    else
      var rest := HasDefault(rows[..|rows| - 1], ds);
      if IsDefault(ds, rows[|rows| - 1]) then 1 else rest
  }

  /** The products counted by count(distinct ...): those on a row with a deliverable of their own. */
  function SpecificProducts(rows: seq<JoinRow>, ds: seq<Deliverable>): set<nat> {
    set k | 0 <= k < |rows| && IsSpecific(ds, rows[k]) :: rows[k].product
  }

  function Aggregate(products: seq<Product>, ds: seq<Deliverable>, s: nat): Option<Counts> {
    var rows := Join(products, ds, s);
    if rows == [] then None else Some(Counts(HasDefault(rows, ds), |SpecificProducts(rows, ds)|))
  }

  function FromCounts(activeProducts: nat, hasDefault: bool, specificProducts: nat): Mode {
    if activeProducts < 1 then Merchant
    else if hasDefault || specificProducts >= activeProducts then Automatic
    else if specificProducts > 0 then Mixed
    else Merchant
  }

  /** What the listing publishes: a missing group counts as zero. */
  function ListedMode(products: seq<Product>, ds: seq<Deliverable>, s: nat): Mode {
    var g := Aggregate(products, ds, s);
    FromCounts(|SoldBy(products, s)|, g.Some? && g.value.hasDefault != 0, if g.Some? then g.value.specificProducts else 0)
  }

  // ------------------------------------------------------------ what the join holds

  lemma {:induction false} FoundRows(ds: seq<Deliverable>, s: nat, p: nat, d: nat)
    ensures JoinRow(p, Some(d)) in Found(ds, s, p) <==> d < |ds| && Joins(ds[d], s, p)
    ensures forall k :: 0 <= k < |Found(ds, s, p)| ==>
              Found(ds, s, p)[k].product == p && Found(ds, s, p)[k].deliverable.Some? && Found(ds, s, p)[k].deliverable.value < |ds|
    decreases |ds|
  {
    if ds != [] {
      FoundRows(ds[..|ds| - 1], s, p, d);
    }
  }

  lemma {:induction false} JoinRows(products: seq<Product>, ds: seq<Deliverable>, s: nat, p: nat, d: nat)
    ensures JoinRow(p, Some(d)) in Join(products, ds, s) <==> Sold(products, s, p) && d < |ds| && Joins(ds[d], s, p)
    decreases |products|
  {
    if products != [] {
      var q := |products| - 1;
      JoinRows(products[..q], ds, s, p, d);
      FoundRows(ds, s, q, d);
      assert Sold(products, s, p) && p != q <==> Sold(products[..q], s, p);
    }
  }

  lemma {:induction false} JoinEmptyIff(products: seq<Product>, ds: seq<Deliverable>, s: nat)
    ensures Join(products, ds, s) == [] <==> SoldBy(products, s) == {}
    decreases |products|
  {
    if products != [] {
      var q := |products| - 1;
      JoinEmptyIff(products[..q], ds, s);
      if Sold(products, s, q) {
        assert q in SoldBy(products, s);
      } else {
        assert SoldBy(products, s) == SoldBy(products[..q], s);
      }
    }
  }

  lemma {:induction false} HasDefaultIff(rows: seq<JoinRow>, ds: seq<Deliverable>)
    ensures HasDefault(rows, ds) == 1 <==> exists k :: 0 <= k < |rows| && IsDefault(ds, rows[k])
    ensures HasDefault(rows, ds) <= 1
    decreases |rows|
  {
    if rows != [] {
      var front := rows[..|rows| - 1];
      HasDefaultIff(front, ds);
      if HasDefault(front, ds) == 1 {
        var k :| 0 <= k < |front| && IsDefault(ds, front[k]);
        assert IsDefault(ds, rows[k]);
      }
    }
  }

  // ------------------------------------------------------------ what a product has

  ghost predicate Serves(ds: seq<Deliverable>, s: nat, p: Option<nat>) {
    exists d :: 0 <= d < |ds| && ServesProduct(ds[d], s, p)
  }

  lemma {:induction false} NewestIff(ds: seq<Deliverable>, s: nat, p: Option<nat>)
    ensures NewestFor(ds, s, p).Some? <==> Serves(ds, s, p)
    decreases |ds|
  {
    if ds != [] {
      var front := ds[..|ds| - 1];
      NewestIff(front, s, p);
      if Serves(front, s, p) {
        var d :| 0 <= d < |front| && ServesProduct(front[d], s, p);
        assert ServesProduct(ds[d], s, p);
      } else {
        assert forall d :: 0 <= d < |front| ==> !ServesProduct(front[d], s, p) && ds[d] == front[d];
      }
    }
  }

  lemma {:induction false} AutomaticIff(ds: seq<Deliverable>, s: nat, p: nat)
    ensures ProductMode(ds, s, p) == Automatic <==> Serves(ds, s, None) || Serves(ds, s, Some(p))
  {
    NewestIff(ds, s, None);
    NewestIff(ds, s, Some(p));
  }

  lemma {:induction false} DefaultJoined(products: seq<Product>, ds: seq<Deliverable>, s: nat)
    requires SoldBy(products, s) != {}
    ensures HasDefault(Join(products, ds, s), ds) != 0 <==> Serves(ds, s, None)
  {
    var rows := Join(products, ds, s);
    HasDefaultIff(rows, ds);
    if Serves(ds, s, None) {
      var p :| p in SoldBy(products, s);
      var d :| 0 <= d < |ds| && ServesProduct(ds[d], s, None);
      JoinRows(products, ds, s, p, d);
      var k :| 0 <= k < |rows| && rows[k] == JoinRow(p, Some(d));
      assert IsDefault(ds, rows[k]);
    } else if HasDefault(rows, ds) == 1 {
      var k :| 0 <= k < |rows| && IsDefault(ds, rows[k]);
      JoinRows(products, ds, s, rows[k].product, rows[k].deliverable.value);
    }
  }

  lemma {:induction false} SpecificJoined(products: seq<Product>, ds: seq<Deliverable>, s: nat, p: nat)
    ensures p in SpecificProducts(Join(products, ds, s), ds) <==> p in SoldBy(products, s) && Serves(ds, s, Some(p))
  {
    var rows := Join(products, ds, s);
    if p in SpecificProducts(rows, ds) {
      var k :| 0 <= k < |rows| && IsSpecific(ds, rows[k]) && rows[k].product == p;
      JoinRows(products, ds, s, p, rows[k].deliverable.value);
    }
    if p in SoldBy(products, s) && Serves(ds, s, Some(p)) {
      var d :| 0 <= d < |ds| && ServesProduct(ds[d], s, Some(p));
      JoinRows(products, ds, s, p, d);
      var k :| 0 <= k < |rows| && rows[k] == JoinRow(p, Some(d));
      assert IsSpecific(ds, rows[k]);
    }
  }

  lemma SubsetCount(a: set<nat>, b: set<nat>)
    requires a <= b
    ensures |a| <= |b| && (|a| == |b| <==> a == b) && (|a| > 0 <==> a != {})
  {
    assert b == a + (b - a) && a !! (b - a);
  }

  /** Over every set of products and deliverables — inactive products with goods, several goods
      for one product, goods of other stores — the listing says what the store page says. */
  lemma {:induction false} ListingAgrees(products: seq<Product>, ds: seq<Deliverable>, s: nat)
    ensures ListedMode(products, ds, s) == StoreMode(products, ds, s)
  {
    var sold := SoldBy(products, s);
    JoinEmptyIff(products, ds, s);
    if sold != {} {
      var specific := SpecificProducts(Join(products, ds, s), ds);
      DefaultJoined(products, ds, s);
      forall p
        ensures p in specific <==> p in sold && Serves(ds, s, Some(p))
        ensures ProductMode(ds, s, p) == Automatic <==> Serves(ds, s, None) || Serves(ds, s, Some(p))
      {
        SpecificJoined(products, ds, s, p);
        AutomaticIff(ds, s, p);
      }
      SubsetCount(specific, sold);
      ModesOf(ds, s, sold, specific);
    }
  }

  /** The set of modes, from which products are automatic. */
  lemma {:induction false} ModesOf(ds: seq<Deliverable>, s: nat, sold: set<nat>, specific: set<nat>)
    requires sold != {} && specific <= sold
    requires forall p :: p in sold ==> (ProductMode(ds, s, p) == Automatic <==> Serves(ds, s, None) || p in specific)
    ensures var modes := set p | p in sold :: ProductMode(ds, s, p);
            && (modes == {Automatic} <==> Serves(ds, s, None) || specific == sold)
            && (modes == {Merchant} <==> !Serves(ds, s, None) && specific == {})
            && modes != {}
  {
    var modes := set p | p in sold :: ProductMode(ds, s, p);
    var p0 :| p0 in sold;
    assert ProductMode(ds, s, p0) in modes;
    forall p | p in sold
      ensures ProductMode(ds, s, p) in modes && ProductMode(ds, s, p) in {Automatic, Merchant}
    {
    }
  }
}
