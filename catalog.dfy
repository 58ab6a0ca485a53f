/**
 * The product catalog of the point-of-sale system: an insertion-ordered list of
 * products that may hold duplicate ids, where every lookup resolves to the FIRST
 * entry with the id, and where every successful mutation rewrites the whole list
 * to persistent storage.
 */
module Catalog {
  import opened Wrappers

  /** One catalog entry. The price is a real number; floating-point rounding is not modelled. */
  datatype Product = Product(id: string, name: string, quantity: int, price: real)

  /** `i` is the position of the first entry of `s` whose id is `id`. */
  ghost predicate IsFirst(s: seq<Product>, id: string, i: int)
  {
    0 <= i < |s| && s[i].id == id && forall k :: 0 <= k < i ==> s[k].id != id
  }

  /** The stock invariant: no entry has a negative quantity. */
  ghost predicate AllStocked(s: seq<Product>)
  {
    forall k :: 0 <= k < |s| ==> s[k].quantity >= 0
  }

  /** Position of the first entry with the given id, or None when no entry has it. */
  function Lookup(s: seq<Product>, id: string): (r: Option<nat>)
    ensures r.Some? ==> IsFirst(s, id, r.value)
    ensures r.None? <==> forall k :: 0 <= k < |s| ==> s[k].id != id
  {
    if s == [] then None
    else if s[0].id == id then Some(0)
    else match Lookup(s[1..], id)
      case None => None
      case Some(i) => Some(i + 1)
  }

  /** The list with every entry whose id is `id` taken out (what `removeIf` leaves). */
  function Removed(s: seq<Product>, id: string): (r: seq<Product>)
    ensures |r| <= |s|
    ensures forall k :: 0 <= k < |r| ==> r[k].id != id && r[k] in s
  {
    if s == [] then []
    else (if s[0].id == id then [] else [s[0]]) + Removed(s[1..], id)
  }

  /** The list after the quantity of the first entry with `id` is overwritten with `qty`. */
  function Updated(s: seq<Product>, id: string, qty: int): (r: seq<Product>)
    ensures |r| == |s|
    ensures forall k :: 0 <= k < |s| ==>
      r[k].id == s[k].id && r[k].name == s[k].name && r[k].price == s[k].price
    ensures forall k :: 0 <= k < |s| && Lookup(s, id) != Some(k) ==> r[k] == s[k]
    ensures Lookup(s, id).Some? ==> r[Lookup(s, id).value].quantity == qty
    ensures Lookup(s, id).None? ==> r == s
  {
    match Lookup(s, id)
    case None => s
    case Some(i) => s[i := s[i].(quantity := qty)]
  }

  /**
   * The guarded decrement: None when no entry has the id or the first one holds
   * fewer than `qty` units; otherwise the list with `qty` taken off that entry.
   */
  function Reduced(s: seq<Product>, id: string, qty: int): (r: Option<seq<Product>>)
    ensures Lookup(s, id).None? ==> r.None?
    ensures Lookup(s, id).Some? ==>
      var i := Lookup(s, id).value;
      && (r.Some? <==> s[i].quantity >= qty)
      && (r.Some? ==> |r.value| == |s|
                      && r.value[i] == s[i].(quantity := s[i].quantity - qty)
                      && r.value[i].quantity >= 0
                      && forall k :: 0 <= k < |s| && k != i ==> r.value[k] == s[k])
  {
    match Lookup(s, id)
    case None => None
    case Some(i) => if s[i].quantity >= qty then Some(Updated(s, id, s[i].quantity - qty)) else None
  }

  /** The catalog a load yields: the stored list when it could be read, otherwise empty. */
  function Loaded(read: Option<seq<Product>>): (r: seq<Product>)
  {
    match read
    case Some(s) => s
    case None => []
  }

  /** The linear scan every operation uses: stops at the first entry whose id matches. */
  method FirstMatch(s: seq<Product>, id: string) returns (r: Option<nat>)
    ensures r == Lookup(s, id)
  {
    var i := 0;
    while i < |s|
      invariant 0 <= i <= |s|
      invariant forall k :: 0 <= k < i ==> s[k].id != id
    {
      if s[i].id == id {
        LookupIsFirst(s, id, i);
        return Some(i);
      }
      i := i + 1;
    }
    return None;
  }

  /** The position `IsFirst` names is the one `Lookup` returns. */
  lemma LookupIsFirst(s: seq<Product>, id: string, i: int)
    requires IsFirst(s, id, i)
    ensures Lookup(s, id) == Some(i)
  {
  }

  /** Lookup only looks at ids: lists with the same ids, position by position, agree on it. */
  lemma {:induction false} LookupDependsOnIds(s: seq<Product>, t: seq<Product>, id: string)
    requires |s| == |t|
    requires forall k :: 0 <= k < |s| ==> s[k].id == t[k].id
    ensures Lookup(s, id) == Lookup(t, id)
  {
    if s != [] && s[0].id != id {
      LookupDependsOnIds(s[1..], t[1..], id);
    }
  }

  /** Removing distributes over concatenation, so the entries kept stay in their relative order. */
  lemma {:induction false} RemovedConcat(a: seq<Product>, b: seq<Product>, id: string)
    ensures Removed(a + b, id) == Removed(a, id) + Removed(b, id)
  {
    if a == [] {
      assert a + b == b;
    } else {
      assert (a + b)[1..] == a[1..] + b;
      RemovedConcat(a[1..], b, id);
    }
  }

  /** Every entry with another id keeps its number of occurrences; entries with the id are all gone. */
  lemma {:induction false} RemovedCount(s: seq<Product>, id: string, p: Product)
    ensures multiset(Removed(s, id))[p] == if p.id == id then 0 else multiset(s)[p]
  {
    if s != [] {
      RemovedCount(s[1..], id, p);
      assert s == [s[0]] + s[1..];
    }
  }

  /** Deleting an id that no entry has leaves the list as it was. */
  lemma {:induction false} RemovedNoMatch(s: seq<Product>, id: string)
    requires forall k :: 0 <= k < |s| ==> s[k].id != id
    ensures Removed(s, id) == s
  {
    if s != [] {
      RemovedNoMatch(s[1..], id);
      assert s == [s[0]] + s[1..];
    }
  }

  /** Deleting the id of a product just added to a list without that id restores the list. */
  lemma DeleteUndoesAdd(s: seq<Product>, p: Product)
    requires forall k :: 0 <= k < |s| ==> s[k].id != p.id
    ensures Removed(s + [p], p.id) == s
  {
    RemovedConcat(s, [p], p.id);
    RemovedNoMatch(s, p.id);
    assert Removed([p], p.id) == [];
  }

  /** Setting a quantity overwrites it: of two updates of the same id, the last one wins. */
  lemma UpdatedLastWins(s: seq<Product>, id: string, a: int, b: int)
    ensures Updated(Updated(s, id, a), id, b) == Updated(s, id, b)
  {
    var t := Updated(s, id, a);
    LookupDependsOnIds(s, t, id);
  }

  /** Two successful reductions by `a` and then `b` are one successful reduction by `a + b`. */
  lemma ReducedTwice(s: seq<Product>, id: string, a: int, b: int)
    requires Reduced(s, id, a).Some?
    requires Reduced(Reduced(s, id, a).value, id, b).Some?
    ensures Reduced(s, id, a + b) == Reduced(Reduced(s, id, a).value, id, b)
  {
    var i := Lookup(s, id).value;
    var q := s[i].quantity;
    var t := Updated(s, id, q - a);
    ReducedAt(s, id, a, i);
    assert Reduced(s, id, a).value == t;
    LookupDependsOnIds(s, t, id);
    assert t[i].quantity == q - a;
    ReducedAt(t, id, b, i);
    assert Reduced(t, id, b) == Some(Updated(t, id, q - a - b));
    UpdatedLastWins(s, id, q - a, q - a - b);
    assert q - a >= b;
    ReducedAt(s, id, a + b, i);
    assert q - (a + b) == q - a - b;
    assert Reduced(s, id, a + b) == Some(Updated(s, id, q - (a + b)));
  }

  /** `Reduced` at a known first-match position, unfolded. */
  lemma ReducedAt(s: seq<Product>, id: string, qty: int, i: nat)
    requires Lookup(s, id) == Some(i) && i < |s|
    ensures s[i].quantity >= qty ==> Reduced(s, id, qty) == Some(Updated(s, id, s[i].quantity - qty))
    ensures s[i].quantity < qty ==> Reduced(s, id, qty) == None
  {
  }

  /** Adding keeps the stock invariant exactly when the new product's quantity is not negative. */
  lemma AddKeepsStocked(s: seq<Product>, p: Product)
    requires AllStocked(s)
    ensures AllStocked(s + [p]) <==> p.quantity >= 0
  {
    assert (s + [p])[|s|] == p;
  }

  /** Deleting keeps the stock invariant. */
  lemma DeleteKeepsStocked(s: seq<Product>, id: string)
    requires AllStocked(s)
    ensures AllStocked(Removed(s, id))
  {
  }

  /**
   * Updating keeps the stock invariant exactly when no entry has the id or the new
   * quantity is not negative: the update itself does not check the sign.
   */
  lemma UpdateKeepsStocked(s: seq<Product>, id: string, qty: int)
    requires AllStocked(s)
    ensures AllStocked(Updated(s, id, qty)) <==> Lookup(s, id).None? || qty >= 0
  {
    if Lookup(s, id).Some? {
      var i := Lookup(s, id).value;
      assert Updated(s, id, qty)[i].quantity == qty;
    }
  }

  /** A successful reduction keeps the stock invariant, whatever the sign of `qty`. */
  lemma ReduceKeepsStocked(s: seq<Product>, id: string, qty: int)
    requires AllStocked(s)
    requires Reduced(s, id, qty).Some?
    ensures AllStocked(Reduced(s, id, qty).value)
  {
  }

  /**
   * The inventory. `products` is the live list; `persisted` is what the storage file
   * holds, None when it holds nothing readable. Each successful mutation ends with a
   * whole-list save.
   */
  class Inventory {
    var products: seq<Product>
    ghost var persisted: Option<seq<Product>>

    /** Reloading from storage now would give exactly the list in memory. */
    ghost predicate Synced()
      reads this
    {
      Loaded(persisted) == products
    }

    /**
     * Construction loads the catalog: `read` is the outcome of deserializing the
     * storage file, None for a missing, unreadable or corrupt file.
     */
    constructor (read: Option<seq<Product>>)
      ensures read.Some? ==> products == read.value
      ensures read.None? ==> products == []
      ensures persisted == read
      ensures Synced()
    {
      products := Loaded(read);
      persisted := read;
    }

    /** Writes the whole list to storage. */
    method Save()
      modifies this`persisted
      ensures persisted == Some(products)
    {
      persisted := Some(products);
    }

    method Add(p: Product)
      modifies this
      ensures products == old(products) + [p]
      ensures persisted == Some(products) && Synced()
    {
      products := products + [p];
      Save();
    }

    method Delete(id: string)
      modifies this
      ensures products == Removed(old(products), id)
      ensures persisted == Some(products) && Synced()
    {
      products := Removed(products, id);
      Save();
    }

    method UpdateQuantity(id: string, qty: int)
      modifies this
      ensures products == Updated(old(products), id, qty)
      ensures persisted == Some(products) && Synced()
    {
      var found := FirstMatch(products, id);
      if found.Some? {
        var i := found.value;
        products := products[i := products[i].(quantity := qty)];
      }
      Save();
    }

    method ReduceStock(id: string, qty: int) returns (ok: bool)
      modifies this
      ensures ok <==> Reduced(old(products), id, qty).Some?
      ensures ok ==> products == Reduced(old(products), id, qty).value && persisted == Some(products)
      ensures !ok ==> products == old(products) && persisted == old(persisted)
      ensures ok ==> Synced()
    {
      var found := FirstMatch(products, id);
      if found.Some? {
        var i := found.value;
        if products[i].quantity >= qty {
          products := products[i := products[i].(quantity := products[i].quantity - qty)];
          Save();
          return true;
        } else {
          return false;
        }
      }
      return false;
    }

    /** The live list, in insertion order. */
    method GetAll() returns (all: seq<Product>)
      ensures all == products
    {
      all := products;
    }
  }
}
