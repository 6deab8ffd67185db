/** Rebuilding a storefront's catalogue from its live product rows. Blurbs and photographs live
    only in the page content, so they must be carried over, and must follow the product. */
module CatalogSync {
  import opened Prelude

  const NO_BLURB := ""
  const DEFAULT_CTA := "Buy now"

  /** A name and what it is compared by: stripped of surrounding space and case-folded. */
  datatype Name = Name(text: string, key: string)

  datatype Row = Row(id: nat, name: Name, price: int)

  datatype Extra = Extra(blurb: string, cta: string)

  datatype Carry = Carry(image: Option<nat>, query: Option<string>, subject: Option<string>)

  /** An entry of the stored catalogue; content written by hand may hold anything. */
  datatype Item = NotAnObject | Item(id: Option<nat>, name: Name, price: int, extra: Extra, carry: Carry)

  /** The legacy scalar fields, which mirror the first product. */
  datatype Primary = Primary(name: Name, price: int, extra: Extra)

  const NO_EXTRA := Extra(NO_BLURB, DEFAULT_CTA)
  const NO_CARRY := Carry(None, None, None)

  /** The session reads the active rows in id order. */
  ghost predicate InIdOrder(active: seq<Row>) {
    forall i, j :: 0 <= i < j < |active| ==> active[i].id < active[j].id
  }

  // ------------------------------------------------------------ which row an item belongs to

  predicate IdLess(item: Item) {
    item.Item? && item.id.None?
  }

  function CountIdLess(items: seq<Item>, key: string): nat {
    if items == [] then 0
    else
      var item := items[|items| - 1];
      CountIdLess(items[..|items| - 1], key) + if IdLess(item) && item.name.key == key then 1 else 0
  }

  function RowsNamed(active: seq<Row>, key: string): seq<nat> {
    if active == [] then []
    else
      var row := active[|active| - 1];
      RowsNamed(active[..|active| - 1], key) + if row.name.key == key then [row.id] else []
  }

  /** An item belongs to the row with its id; without an id, the n-th item of a name belongs to
      the n-th row of that name; and a sole item and a sole row belong together. */
  function OwnerOf(active: seq<Row>, items: seq<Item>, i: nat): Option<nat>
    requires i < |items|
  {
    match items[i]
    case NotAnObject => None
    case Item(id, name, _, _, _) =>
      if id.Some? then id
      else
        var n, rows := CountIdLess(items[..i], name.key), RowsNamed(active, name.key);
        if n < |rows| then Some(rows[n])
        else if |items| == 1 && |active| == 1 then Some(active[0].id)
        else None
  }

  predicate Carries(item: Item) {
    item.Item? && item.carry != NO_CARRY
  }

  /** The last of the first n items that belongs to product p. */
  function LastFor(active: seq<Row>, items: seq<Item>, n: nat, p: nat): Option<nat>
    requires n <= |items|
  {
    if n == 0 then None
    else if OwnerOf(active, items, n - 1) == Some(p) then Some(n - 1)
    else LastFor(active, items, n - 1, p)
  }

  /** The last of them that has something to carry over. */
  function LastCarried(active: seq<Row>, items: seq<Item>, n: nat, p: nat): Option<nat>
    requires n <= |items|
  {
    if n == 0 then None
    else if OwnerOf(active, items, n - 1) == Some(p) && Carries(items[n - 1]) then Some(n - 1)
    else LastCarried(active, items, n - 1, p)
  }

  function ExtraFor(active: seq<Row>, items: seq<Item>, override: map<nat, Extra>, p: nat): Extra {
    if p in override then override[p]
    else
      var i := LastFor(active, items, |items|, p);
      if i.Some? && i.value < |items| && items[i.value].Item? then items[i.value].extra else NO_EXTRA
  }

  function CarryFor(active: seq<Row>, items: seq<Item>, p: nat): Carry {
    var i := LastCarried(active, items, |items|, p);
    if i.Some? && i.value < |items| && items[i.value].Item? then items[i.value].carry else NO_CARRY
  }

  function Shown(active: seq<Row>, items: seq<Item>, override: map<nat, Extra>, row: Row): Item {
    Item(Some(row.id), row.name, row.price, ExtraFor(active, items, override, row.id), CarryFor(active, items, row.id))
  }

  function Resynced(active: seq<Row>, items: seq<Item>, override: map<nat, Extra>): seq<Item> {
    seq(|active|, k requires 0 <= k < |active| => Shown(active, items, override, active[k]))
  }

  function PrimaryOf(items: seq<Item>): Option<Primary> {
    if items == [] || items[0].NotAnObject? then None else Some(Primary(items[0].name, items[0].price, items[0].extra))
  }

  // ------------------------------------------------------------ facts

  lemma {:induction false} LastForFacts(active: seq<Row>, items: seq<Item>, n: nat, p: nat)
    requires n <= |items|
    ensures var i := LastFor(active, items, n, p);
            match i
            case Some(i) => i < n && OwnerOf(active, items, i) == Some(p) && forall j :: i < j < n ==> OwnerOf(active, items, j) != Some(p)
            case None => forall j :: 0 <= j < n ==> OwnerOf(active, items, j) != Some(p)
    decreases n
  {
    if n > 0 {
      LastForFacts(active, items, n - 1, p);
    }
  }

  lemma {:induction false} LastCarriedFacts(active: seq<Row>, items: seq<Item>, n: nat, p: nat)
    requires n <= |items|
    ensures var i := LastCarried(active, items, n, p);
            match i
            case Some(i) => i < n && OwnerOf(active, items, i) == Some(p) && Carries(items[i])
            case None => forall j :: 0 <= j < n && OwnerOf(active, items, j) == Some(p) ==> !Carries(items[j])
    decreases n
  {
    if n > 0 {
      LastCarriedFacts(active, items, n - 1, p);
    }
  }

  lemma {:induction false} RowsNamedFacts(active: seq<Row>, key: string)
    requires InIdOrder(active)
    ensures forall k :: 0 <= k < |RowsNamed(active, key)| ==> NamedRow(active, RowsNamed(active, key)[k], key)
    ensures forall j, k :: 0 <= j < k < |RowsNamed(active, key)| ==> RowsNamed(active, key)[j] < RowsNamed(active, key)[k]
    decreases |active|
  {
    if active != [] {
      var front := active[..|active| - 1];
      RowsNamedFacts(front, key);
      forall k | 0 <= k < |RowsNamed(front, key)|
        ensures NamedRow(active, RowsNamed(front, key)[k], key) && RowsNamed(front, key)[k] < active[|front|].id
      {
        var r :| 0 <= r < |front| && front[r].id == RowsNamed(front, key)[k] && front[r].name.key == key;
        assert active[r] == front[r];
      }
    }
  }

  ghost predicate NamedRow(active: seq<Row>, id: nat, key: string) {
    exists r :: 0 <= r < |active| && active[r].id == id && active[r].name.key == key
  }

  lemma {:induction false} CountGrows(items: seq<Item>, i: nat, j: nat, key: string)
    requires i < j <= |items| && IdLess(items[i]) && items[i].name.key == key
    ensures CountIdLess(items[..i], key) < CountIdLess(items[..j], key)
    decreases j
  {
    assert items[..j][..j - 1] == items[..j - 1];
    if i + 1 < j {
      CountGrows(items, i, j - 1, key);
    }
  }

  // ------------------------------------------------------------ what it promises

  /** Text and photographs only ever come from an override, from an item with the product's own
      id, from an id-less item of the same name, or from the sole item for the sole row. */
  ghost predicate Belongs(active: seq<Row>, items: seq<Item>, i: nat, row: Row) {
    i < |items| && items[i].Item? &&
    if items[i].id.Some? then items[i].id.value == row.id
    else items[i].name.key == row.name.key || (|items| == 1 && |active| == 1)
  }

  lemma {:induction false} OwnerBelongs(active: seq<Row>, items: seq<Item>, i: nat, k: nat)
    requires InIdOrder(active) && k < |active| && i < |items| && OwnerOf(active, items, i) == Some(active[k].id)
    ensures Belongs(active, items, i, active[k])
  {
    if IdLess(items[i]) {
      var key := items[i].name.key;
      var n := CountIdLess(items[..i], key);
      RowsNamedFacts(active, key);
      if n < |RowsNamed(active, key)| {
        assert NamedRow(active, RowsNamed(active, key)[n], key);
        var r :| 0 <= r < |active| && active[r].id == active[k].id && active[r].name.key == key;
        assert r == k;
      }
    }
  }

  /** The whole result: one entry per active row, in id order, with that row's name and price, and
      every blurb and photograph accounted for. */
  lemma {:induction false} NothingIsInvented(active: seq<Row>, items: seq<Item>, override: map<nat, Extra>, k: nat)
    requires InIdOrder(active) && k < |active|
    ensures var out := Resynced(active, items, override);
            && |out| == |active|
            && out[k].Item? && out[k].id == Some(active[k].id) && out[k].name == active[k].name && out[k].price == active[k].price
            && (active[k].id in override ==> out[k].extra == override[active[k].id])
            && (active[k].id !in override && out[k].extra != NO_EXTRA ==>
                  exists i: nat :: Belongs(active, items, i, active[k]) && items[i].extra == out[k].extra)
            && (out[k].carry != NO_CARRY ==>
                  exists i: nat :: Belongs(active, items, i, active[k]) && items[i].carry == out[k].carry)
  {
    var p := active[k].id;
    LastForFacts(active, items, |items|, p);
    LastCarriedFacts(active, items, |items|, p);
    var i, c := LastFor(active, items, |items|, p), LastCarried(active, items, |items|, p);
    if i.Some? {
      OwnerBelongs(active, items, i.value, k);
    }
    if c.Some? {
      OwnerBelongs(active, items, c.value, k);
    }
  }

  /** Two id-less items never describe the same product. */
  lemma {:induction false} OneItemPerRow(active: seq<Row>, items: seq<Item>, i: nat, j: nat)
    requires InIdOrder(active) && i < j < |items| && IdLess(items[i]) && IdLess(items[j])
    requires OwnerOf(active, items, i).Some?
    ensures OwnerOf(active, items, i) != OwnerOf(active, items, j)
  {
    var a, b := items[i].name.key, items[j].name.key;
    RowsNamedFacts(active, a);
    RowsNamedFacts(active, b);
    var m, n := CountIdLess(items[..i], a), CountIdLess(items[..j], b);
    if a == b {
      CountGrows(items, i, j, a);
    } else if n < |RowsNamed(active, b)| {
      NamesDiffer(active, RowsNamed(active, a)[m], a, RowsNamed(active, b)[n], b);
    }
  }

  lemma NamesDiffer(active: seq<Row>, p: nat, a: string, q: nat, b: string)
    requires InIdOrder(active) && NamedRow(active, p, a) && NamedRow(active, q, b) && a != b
    ensures p != q
  {
    var r :| 0 <= r < |active| && active[r].id == p && active[r].name.key == a;
    var s :| 0 <= s < |active| && active[s].id == q && active[s].name.key == b;
  }

  /** What a resync wrote is owned by id alone. */
  lemma {:induction false} OwnersOfOutput(active: seq<Row>, items: seq<Item>, override: map<nat, Extra>, later: seq<Row>, k: nat)
    requires InIdOrder(active) && k < |active|
    ensures var out := Resynced(active, items, override);
            && OwnerOf(later, out, k) == Some(active[k].id)
            && LastFor(later, out, |out|, active[k].id) == Some(k)
            && LastCarried(later, out, |out|, active[k].id) == (if Carries(out[k]) then Some(k) else None)
  {
    var out := Resynced(active, items, override);
    forall j | 0 <= j < |out|
      ensures OwnerOf(later, out, j) == Some(active[j].id)
    {
    }
    LastForFacts(later, out, |out|, active[k].id);
    LastCarriedFacts(later, out, |out|, active[k].id);
  }

  /** After any later edit of the catalogue — products added, removed, renamed, repriced — every
      product that was shown before keeps its own text and photograph, wherever it now stands. */
  lemma {:induction false} ExtrasFollowTheProduct(active: seq<Row>, items: seq<Item>, override: map<nat, Extra>, later: seq<Row>, j: nat, k: nat)
    requires InIdOrder(active) && InIdOrder(later) && j < |later| && k < |active| && later[j].id == active[k].id
    ensures var out := Resynced(active, items, override);
            var again := Resynced(later, out, map[]);
            again[j].extra == out[k].extra && again[j].carry == out[k].carry
  {
    OwnersOfOutput(active, items, override, later, k);
  }

  /** And a product that was not shown before starts with none: nothing slides over by position. */
  lemma {:induction false} NewProductsStartEmpty(active: seq<Row>, items: seq<Item>, override: map<nat, Extra>, later: seq<Row>, j: nat)
    requires InIdOrder(active) && InIdOrder(later) && j < |later|
    requires forall k :: 0 <= k < |active| ==> active[k].id != later[j].id
    ensures var again := Resynced(later, Resynced(active, items, override), map[]);
            again[j].extra == NO_EXTRA && again[j].carry == NO_CARRY
  {
    var out := Resynced(active, items, override);
    forall i | 0 <= i < |out|
      ensures OwnerOf(later, out, i) != Some(later[j].id)
    {
    }
    LastForFacts(later, out, |out|, later[j].id);
    LastCarriedFacts(later, out, |out|, later[j].id);
  }

  /** Resyncing an unchanged catalogue changes nothing. */
  lemma {:induction false} ResyncIsIdempotent(active: seq<Row>, items: seq<Item>, override: map<nat, Extra>)
    requires InIdOrder(active)
    ensures var out := Resynced(active, items, override); Resynced(active, out, map[]) == out
  {
    var out := Resynced(active, items, override);
    var again := Resynced(active, out, map[]);
    forall k | 0 <= k < |active|
      ensures again[k] == out[k]
    {
      ExtrasFollowTheProduct(active, items, override, active, k, k);
    }
  }

  // ------------------------------------------------------------ the program

  lemma {:induction false} RowsNamedSnoc(active: seq<Row>, i: nat, key: string)
    requires i < |active|
    ensures RowsNamed(active[..i + 1], key) == RowsNamed(active[..i], key) + if active[i].name.key == key then [active[i].id] else []
  {
    assert active[..i + 1][..i] == active[..i];
  }

  lemma {:induction false} CountSnoc(items: seq<Item>, i: nat, key: string)
    requires i < |items|
    ensures CountIdLess(items[..i + 1], key) == CountIdLess(items[..i], key) + if IdLess(items[i]) && items[i].name.key == key then 1 else 0
  {
    assert items[..i + 1][..i] == items[..i];
  }

  /** The queue of unclaimed rows of a name; an absent name has none. */
  function Queue(byName: map<string, seq<nat>>, key: string): seq<nat> {
    if key in byName then byName[key] else []
  }

  ghost predicate QueuesHold(byName: map<string, seq<nat>>, active: seq<Row>, items: seq<Item>, i: nat)
    requires i <= |items|
  {
    forall key :: Queue(byName, key) == Unclaimed(RowsNamed(active, key), CountIdLess(items[..i], key))
  }

  /** An item that names a product itself, or is none, leaves every queue. */
  lemma {:induction false} QueueUntouched(byName: map<string, seq<nat>>, active: seq<Row>, items: seq<Item>, i: nat)
    requires i < |items| && !IdLess(items[i]) && QueuesHold(byName, active, items, i)
    ensures QueuesHold(byName, active, items, i + 1)
  {
    forall key
      ensures Queue(byName, key) == Unclaimed(RowsNamed(active, key), CountIdLess(items[..i + 1], key))
    {
      CountSnoc(items, i, key);
    }
  }

  /** An id-less item takes the head off the queue of its name. */
  lemma {:induction false} QueueClaimed(byName: map<string, seq<nat>>, active: seq<Row>, items: seq<Item>, i: nat)
    requires i < |items| && IdLess(items[i]) && QueuesHold(byName, active, items, i)
    ensures var same := Queue(byName, items[i].name.key);
            && QueuesHold(if same == [] then byName else byName[items[i].name.key := same[1..]], active, items, i + 1)
            && same == Unclaimed(RowsNamed(active, items[i].name.key), CountIdLess(items[..i], items[i].name.key))
  {
    var mine := items[i].name.key;
    var same := Queue(byName, mine);
    var rest := if same == [] then byName else byName[mine := same[1..]];
    forall key
      ensures Queue(rest, key) == Unclaimed(RowsNamed(active, key), CountIdLess(items[..i + 1], key))
    {
      CountSnoc(items, i, key);
      assert Queue(byName, key) == Unclaimed(RowsNamed(active, key), CountIdLess(items[..i], key));
    }
  }

  function Unclaimed(rows: seq<nat>, n: nat): seq<nat> {
    if n <= |rows| then rows[n..] else []
  }

  class StoreContent {
    var products: seq<Item>
    var primary: Option<Primary>

    constructor (items: seq<Item>)
      ensures products == items && primary == PrimaryOf(items)
    {
      products := items;
      primary := PrimaryOf(items);
    }

    /** The rows of each name, in id order. */
    static method IndexByName(active: seq<Row>) returns (byName: map<string, seq<nat>>)
      ensures Indexed(byName, active)
    {
      byName := map[];
      for i := 0 to |active|
        invariant Indexed(byName, active[..i])
      {
        var key := active[i].name.key;
        IndexSnoc(byName, active, i);
        byName := byName[key := Queue(byName, key) + [active[i].id]];
      }
      assert active[..|active|] == active;
    }

    /** The row item i belongs to; claiming a row by name takes it off its queue. */
    method Claim(active: seq<Row>, i: nat, byName: map<string, seq<nat>>) returns (owner: Option<nat>, rest: map<string, seq<nat>>)
      requires i < |products| && QueuesHold(byName, active, products, i)
      ensures owner == OwnerOf(active, products, i) && QueuesHold(rest, active, products, i + 1)
    {
      var item := products[i];
      rest := byName;
      if item.NotAnObject? {
        QueueUntouched(byName, active, products, i);
        return None, rest;
      }
      owner := item.id;
      if owner.None? {
        var same := Queue(byName, item.name.key);
        QueueClaimed(byName, active, products, i);
        if same != [] {
          owner := Some(same[0]);
          rest := byName[item.name.key := same[1..]];
        } else if |products| == 1 && |active| == 1 {
          owner := Some(active[0].id);
        }
      } else {
        QueueUntouched(byName, active, products, i);
      }
    }

    /** The text and the photographs of each product, later items overwriting earlier ones. */
    method Collect(active: seq<Row>) returns (extras: map<nat, Extra>, carried: map<nat, Carry>)
      ensures Extracted(extras, active, products, |products|) && CarriedOver(carried, active, products, |products|)
    {
      var byName := IndexByName(active);
      StartQueues(byName, active, products);
      extras, carried := map[], map[];
      for i := 0 to |products|
        invariant QueuesHold(byName, active, products, i)
        invariant Extracted(extras, active, products, i) && CarriedOver(carried, active, products, i)
      {
        var owner;
        owner, byName := Claim(active, i, byName);
        ItemExtracted(extras, active, products, i);
        ItemCarriedOver(carried, active, products, i);
        if owner.Some? {
          extras := extras[owner.value := products[i].extra];
          if products[i].carry != NO_CARRY {
            carried := carried[owner.value := products[i].carry];
          }
        }
      }
    }

    method ResyncCatalog(active: seq<Row>, override: map<nat, Extra>)
      modifies this
      ensures products == Resynced(active, old(products), override)
      ensures primary == PrimaryOf(products)
      ensures primary.None? <==> active == []
    {
      var extras, carried := Collect(active);
      extras := extras + override;
      var rebuilt := [];
      for k := 0 to |active|
        invariant products == old(products) && rebuilt == Resynced(active, products, override)[..k]
      {
        var p := active[k].id;
        rebuilt := rebuilt + [Item(Some(p), active[k].name, active[k].price,
                                   if p in extras then extras[p] else NO_EXTRA,
                                   if p in carried then carried[p] else NO_CARRY)];
      }
      products := rebuilt;
      primary := if rebuilt != [] then Some(Primary(rebuilt[0].name, rebuilt[0].price, rebuilt[0].extra)) else None;
    }
  }

  ghost predicate Indexed(byName: map<string, seq<nat>>, active: seq<Row>) {
    forall key :: Queue(byName, key) == RowsNamed(active, key)
  }

  lemma {:induction false} IndexSnoc(byName: map<string, seq<nat>>, active: seq<Row>, i: nat)
    requires i < |active| && Indexed(byName, active[..i])
    ensures var key := active[i].name.key; Indexed(byName[key := Queue(byName, key) + [active[i].id]], active[..i + 1])
  {
    var key := active[i].name.key;
    var grown := byName[key := Queue(byName, key) + [active[i].id]];
    forall other: string
      ensures Queue(grown, other) == RowsNamed(active[..i + 1], other)
    {
      RowsNamedSnoc(active, i, other);
      assert Queue(byName, other) == RowsNamed(active[..i], other);
    }
  }

  lemma {:induction false} StartQueues(byName: map<string, seq<nat>>, active: seq<Row>, items: seq<Item>)
    requires Indexed(byName, active)
    ensures QueuesHold(byName, active, items, 0)
  {
    forall key
      ensures Queue(byName, key) == Unclaimed(RowsNamed(active, key), CountIdLess(items[..0], key))
    {
      assert items[..0] == [];
    }
  }

  /** extras holds, for each product with an item among the first n, the text of its last one. */
  ghost predicate Extracted(extras: map<nat, Extra>, active: seq<Row>, items: seq<Item>, n: nat)
    requires n <= |items|
  {
    forall p: nat ::
      var i := LastFor(active, items, n, p);
      (p in extras <==> i.Some?) && (i.Some? ==> i.value < |items| && items[i.value].Item? && extras[p] == items[i.value].extra)
  }

  ghost predicate CarriedOver(carried: map<nat, Carry>, active: seq<Row>, items: seq<Item>, n: nat)
    requires n <= |items|
  {
    forall p: nat ::
      var i := LastCarried(active, items, n, p);
      (p in carried <==> i.Some?) && (i.Some? ==> i.value < |items| && items[i.value].Item? && carried[p] == items[i.value].carry)
  }

  lemma {:induction false} ItemExtracted(extras: map<nat, Extra>, active: seq<Row>, items: seq<Item>, i: nat)
    requires i < |items| && Extracted(extras, active, items, i)
    ensures var owner := OwnerOf(active, items, i);
            Extracted(if owner.Some? then extras[owner.value := items[i].extra] else extras, active, items, i + 1)
  {
  }

  lemma {:induction false} ItemCarriedOver(carried: map<nat, Carry>, active: seq<Row>, items: seq<Item>, i: nat)
    requires i < |items| && CarriedOver(carried, active, items, i)
    ensures var owner := OwnerOf(active, items, i);
            CarriedOver(if owner.Some? && items[i].carry != NO_CARRY then carried[owner.value := items[i].carry] else carried, active, items, i + 1)
  {
  }
}
