/** The inventory ledger: supply records keyed by id, the on-sale toggle
    that keeps at most one supply of a plant in sale, single-field
    updates, deletion, batch saving, and the pricing of a cart. */
module Supplies {
  import opened Common
  import opened CreateSupplyRules
  import opened UpdateSupplierRules

  /** One delivery of a plant. `count` is the quantity received,
      `currentCount` what is left; `price` is a unit price. */
  datatype Supply = Supply(
    count: int,
    currentCount: int,
    price: real,
    supplierName: string,
    supplierPhone: string,
    supplierAddress: string,
    supplierEmail: string,
    expirationDate: string,
    inSale: bool,
    plant: PlantId)

  type Store = map<SupplyId, Supply>

  /** A record with its key, as a repository query returns it. */
  type Row = (SupplyId, Supply)

  /** One entry of a cart request. */
  datatype CartItem = CartItem(supplyId: SupplyId, count: int)

  /** A priced cart line: the supply without its supplier fields and with
      `count` replaced by the cart's count, plus its plant and subtotal. */
  datatype CartEntry = CartEntry(
    plant: PlantId,
    id: SupplyId,
    currentCount: int,
    price: real,
    expirationDate: string,
    inSale: bool,
    count: int,
    subtotal: real)

  /** A lookup by a list of ids (`findByIds`, `findBy` with `In`): the
      requested ids that exist, each once, in the order of their first
      request. */
  function ResolveIds(keys: set<SupplyId>, ids: seq<SupplyId>): (r: seq<SupplyId>)
    ensures forall i :: 0 <= i < |r| ==> r[i] in keys && r[i] in ids
    ensures forall k :: k in keys && k in ids ==> k in r
    ensures forall i, j :: 0 <= i < j < |r| ==> r[i] != r[j]
  {
    if ids == [] then []
    else
      var front := ResolveIds(keys, ids[..|ids| - 1]);
      var last := ids[|ids| - 1];
      assert ids == ids[..|ids| - 1] + [last];
      if last in keys && last !in front then front + [last] else front
  }

  /** When the requested ids are distinct and all exist, the lookup
      returns every one of them, in order. */
  lemma {:induction false} ResolveDistinctPresent(keys: set<SupplyId>, ids: seq<SupplyId>)
    requires forall i :: 0 <= i < |ids| ==> ids[i] in keys
    requires forall i, j :: 0 <= i < j < |ids| ==> ids[i] != ids[j]
    ensures ResolveIds(keys, ids) == ids
  {
    if ids != [] {
      var front := ids[..|ids| - 1];
      ResolveDistinctPresent(keys, front);
      assert ids[|ids| - 1] !in front;
      assert ids == front + [ids[|ids| - 1]];
    }
  }

  /** The supplies in sale, the only ones a cart prices. */
  function InSale(db: Store): (r: Store)
    ensures forall k :: k in r <==> k in db && db[k].inSale
  {
    map k | k in db && db[k].inSale :: db[k]
  }

  /** The in-sale supplies of one plant. */
  function InSaleOfPlant(db: Store, p: PlantId): set<SupplyId> {
    set k | k in db && db[k].inSale && db[k].plant == p
  }

  /** The inventory rule that enabling sale enforces. */
  predicate OneInSalePerPlant(db: Store) {
    forall a, b :: a in db && b in db && db[a].inSale && db[b].inSale && db[a].plant == db[b].plant ==> a == b
  }

  /** Putting a supply in sale when no supply of its plant is in sale keeps
      the rule, and leaves the target the plant's only supply in sale. */
  lemma PutToStockKeepsOneInSale(db: Store, id: SupplyId)
    requires OneInSalePerPlant(db)
    requires id in db && InSaleOfPlant(db, db[id].plant) == {}
    ensures OneInSalePerPlant(db[id := db[id].(inSale := true)])
    ensures InSaleOfPlant(db[id := db[id].(inSale := true)], db[id].plant) == {id}
  {
    var p := db[id].plant;
    forall k | k in db && db[k].inSale
      ensures db[k].plant == p ==> k in InSaleOfPlant(db, p)
    {
    }
  }

  /** A record built from a creation request: stock starts full, the
      supply is not in sale. */
  function FromRequest(dto: CreateSupplyDto): (s: Supply)
    ensures s.currentCount == s.count == dto.count && !s.inSale && s.plant == dto.plantId
  {
    Supply(dto.count, dto.count, dto.price, dto.supplierName, dto.supplierPhone,
      dto.supplierAddress, dto.supplierEmail, dto.expirationDate, false, dto.plantId)
  }

  function Override(current: string, update: Option<string>): string {
    if update.Some? then update.value else current
  }

  /** `repository.merge` with a supplier-data update: present fields
      overwrite, absent ones keep their value, nothing else changes. */
  function Merge(s: Supply, dto: UpdateSupplierDto): (r: Supply)
    ensures r.(supplierName := s.supplierName, supplierEmail := s.supplierEmail,
               supplierPhone := s.supplierPhone, supplierAddress := s.supplierAddress) == s
    ensures dto.supplierName.Some? ==> r.supplierName == dto.supplierName.value
    ensures dto.supplierName.None? ==> r.supplierName == s.supplierName
    ensures dto.supplierEmail.Some? ==> r.supplierEmail == dto.supplierEmail.value
    ensures dto.supplierEmail.None? ==> r.supplierEmail == s.supplierEmail
    ensures dto.supplierPhone.Some? ==> r.supplierPhone == dto.supplierPhone.value
    ensures dto.supplierPhone.None? ==> r.supplierPhone == s.supplierPhone
    ensures dto.supplierAddress.Some? ==> r.supplierAddress == dto.supplierAddress.value
    ensures dto.supplierAddress.None? ==> r.supplierAddress == s.supplierAddress
  {
    s.(supplierName := Override(s.supplierName, dto.supplierName),
       supplierEmail := Override(s.supplierEmail, dto.supplierEmail),
       supplierPhone := Override(s.supplierPhone, dto.supplierPhone),
       supplierAddress := Override(s.supplierAddress, dto.supplierAddress))
  }

  /** An empty update leaves the record as it was, and merging never
      touches stock, price, sale state or plant. */
  lemma MergeIsConservative(s: Supply, dto: UpdateSupplierDto)
    ensures Merge(s, UpdateSupplierDto(None, None, None, None)) == s
    ensures var r := Merge(s, dto);
      r.count == s.count && r.currentCount == s.currentCount && r.price == s.price
      && r.inSale == s.inSale && r.plant == s.plant && r.expirationDate == s.expirationDate
  {
  }

  /** A supply created from a request that passes every creation rule can
      be updated, by a request that passes the update rules, to an e-mail
      the creation rule rejects. */
  lemma UpdateCanLeaveCreationRules(dto: CreateSupplyDto)
    requires ValidCreateSupply(dto)
    ensures var u := UpdateSupplierDto(None, Some("a@b.c.d"), None, None);
      ValidUpdateSupplier(u) && !IsEmail(Merge(FromRequest(dto), u).supplierEmail)
  {
    DottedDomainIsRejected();
  }

  /** The store after `repository.save` of a batch of rows, in order; a
      later row of the same id wins. */
  function Saved(db: Store, batch: seq<Row>): Store
  {
    if batch == [] then db
    else Saved(db, batch[..|batch| - 1])[batch[|batch| - 1].0 := batch[|batch| - 1].1]
  }

  /** Saving a batch whose ids all exist keeps the key set. */
  lemma {:induction false} SavedKeys(db: Store, batch: seq<Row>)
    requires forall i :: 0 <= i < |batch| ==> batch[i].0 in db
    ensures Saved(db, batch).Keys == db.Keys
  {
    if batch != [] {
      SavedKeys(db, batch[..|batch| - 1]);
    }
  }

  /** With distinct ids, each row of the batch is what the store holds
      for its id afterwards. */
  lemma {:induction false} SavedHit(db: Store, batch: seq<Row>, j: nat)
    requires j < |batch|
    requires forall a, b :: 0 <= a < b < |batch| ==> batch[a].0 != batch[b].0
    ensures batch[j].0 in Saved(db, batch) && Saved(db, batch)[batch[j].0] == batch[j].1
  {
    if j < |batch| - 1 {
      SavedHit(db, batch[..|batch| - 1], j);
    }
  }

  /** An id the batch does not name keeps its record. */
  lemma {:induction false} SavedMiss(db: Store, batch: seq<Row>, k: SupplyId)
    requires forall i :: 0 <= i < |batch| ==> batch[i].0 != k
    ensures k in Saved(db, batch) <==> k in db
    ensures k in db ==> Saved(db, batch)[k] == db[k]
  {
    if batch != [] {
      SavedMiss(db, batch[..|batch| - 1], k);
    }
  }

  function CartIds(cart: seq<CartItem>): (ids: seq<SupplyId>)
    ensures |ids| == |cart| && forall i :: 0 <= i < |cart| ==> ids[i] == cart[i].supplyId
  {
    seq(|cart|, i requires 0 <= i < |cart| => cart[i].supplyId)
  }

  /** The count of the first cart item naming `k`. */
  function CartCount(cart: seq<CartItem>, k: SupplyId): int
    requires k in CartIds(cart)
  {
    cart[FirstIndex(CartIds(cart), k)].count
  }

  /** The cart line of supply `k`, priced at its unit price times the
      cart count. */
  function EntryFor(k: SupplyId, s: Supply, cart: seq<CartItem>): (e: CartEntry)
    requires k in CartIds(cart)
    ensures e.id == k && e.plant == s.plant && e.price == s.price && e.count == CartCount(cart, k)
    ensures e.subtotal == s.price * (CartCount(cart, k) as real)
  {
    var n := CartCount(cart, k);
    CartEntry(s.plant, k, s.currentCount, s.price, s.expirationDate, s.inSale, n, s.price * (n as real))
  }

  function SubtotalsSum(entries: seq<CartEntry>): real
  {
    if entries == [] then 0.0
    else SubtotalsSum(entries[..|entries| - 1]) + entries[|entries| - 1].subtotal
  }

  /** The priced lines of a cart: one per requested supply that exists
      and is in sale, in the order of the lookup. */
  ghost predicate PricedCart(db: Store, cart: seq<CartItem>, entries: seq<CartEntry>) {
    var found := ResolveIds(InSale(db).Keys, CartIds(cart));
    |entries| == |found| && forall i :: 0 <= i < |found| ==> entries[i] == EntryFor(found[i], db[found[i]], cart)
  }

  /** What the priced lines promise a client: only existing, in-sale
      supplies, every requested one of them exactly once, each line at
      unit price times cart count. */
  lemma PricedCartFacts(db: Store, cart: seq<CartItem>, entries: seq<CartEntry>)
    requires PricedCart(db, cart, entries)
    ensures forall i :: 0 <= i < |entries| ==> entries[i].id in db && db[entries[i].id].inSale
    ensures forall k :: k in CartIds(cart) && k in db && db[k].inSale ==>
      exists i :: 0 <= i < |entries| && entries[i].id == k
    ensures forall i, j :: 0 <= i < j < |entries| ==> entries[i].id != entries[j].id
    ensures forall i :: 0 <= i < |entries| ==>
      && entries[i].id in CartIds(cart)
      && entries[i].price == db[entries[i].id].price
      && entries[i].count == CartCount(cart, entries[i].id)
      && entries[i].subtotal == entries[i].price * (entries[i].count as real)
  {
    var found := ResolveIds(InSale(db).Keys, CartIds(cart));
    assert forall j :: 0 <= j < |entries| ==> entries[j].id == found[j];
    forall k | k in CartIds(cart) && k in db && db[k].inSale
      ensures exists i :: 0 <= i < |entries| && entries[i].id == k
    {
      assert k in InSale(db).Keys;
      var j :| 0 <= j < |found| && found[j] == k;
      assert entries[j].id == k;
    }
  }

  class SupplyService {
    var supplies: Store

    ghost predicate Valid()
      reads this
    {
      OneInSalePerPlant(supplies)
    }

    constructor ()
      ensures supplies == map[] && Valid()
    {
      supplies := map[];
    }

    /** `getByIds`: the records of the requested ids that exist. */
    function GetByIds(ids: seq<SupplyId>): (rows: seq<Row>)
      reads this
      ensures var found := ResolveIds(supplies.Keys, ids);
        |rows| == |found| && forall i :: 0 <= i < |rows| ==> rows[i] == (found[i], supplies[found[i]])
    {
      var db := supplies;
      var found := ResolveIds(db.Keys, ids);
      seq(|found|, i requires 0 <= i < |found| => (found[i], db[found[i]]))
    }

    /** `createSupply`. `plants` is the plant catalogue the lookup
        consults; `newId` is the fresh key the database generates. */
    method CreateSupply(dto: CreateSupplyDto, plants: set<PlantId>, newId: SupplyId) returns (r: Result<Supply>)
      requires newId !in supplies
      modifies this
      ensures dto.plantId !in plants ==> r == Err(NotFound) && supplies == old(supplies)
      ensures dto.plantId in plants ==> r == Ok(FromRequest(dto)) && supplies == old(supplies)[newId := r.value]
      ensures old(Valid()) ==> Valid()
    {
      if dto.plantId !in plants {
        return Err(NotFound);
      }
      var s := FromRequest(dto);
      supplies := supplies[newId := s];
      r := Ok(s);
    }

    /** `putToStock`: enable sale unless some supply of the same plant,
        the target included, is already in sale. */
    method PutToStock(id: SupplyId) returns (r: Result<Supply>)
      modifies this
      ensures id !in old(supplies) ==> r == Err(NotFound) && supplies == old(supplies)
      ensures id in old(supplies) && InSaleOfPlant(old(supplies), old(supplies)[id].plant) != {} ==>
        r == Err(BadRequest) && supplies == old(supplies)
      ensures id in old(supplies) && InSaleOfPlant(old(supplies), old(supplies)[id].plant) == {} ==>
        r == Ok(old(supplies)[id].(inSale := true)) && supplies == old(supplies)[id := r.value]
      ensures r.Ok? ==> InSaleOfPlant(supplies, supplies[id].plant) == {id}
      ensures old(Valid()) ==> Valid()
    {
      if id !in supplies {
        return Err(NotFound);
      }
      var s := supplies[id];
      var others := InSaleOfPlant(supplies, s.plant);
      if |others| > 0 {
        return Err(BadRequest);
      }
      ghost var before := supplies;
      if OneInSalePerPlant(before) {
        PutToStockKeepsOneInSale(before, id);
      }
      s := s.(inSale := true);
      supplies := supplies[id := s];
      assert InSaleOfPlant(supplies, s.plant) == {id} by {
        assert id in InSaleOfPlant(supplies, s.plant);
      }
      r := Ok(s);
    }

    /** `removeFromStock`: disable sale of a supply that is in sale. */
    method RemoveFromStock(id: SupplyId) returns (r: Result<Supply>)
      modifies this
      ensures !(id in old(supplies) && old(supplies)[id].inSale) ==> r == Err(BadRequest) && supplies == old(supplies)
      ensures id in old(supplies) && old(supplies)[id].inSale ==>
        r == Ok(old(supplies)[id].(inSale := false)) && supplies == old(supplies)[id := r.value]
      ensures old(Valid()) ==> Valid()
    {
      if id !in supplies || !supplies[id].inSale {
        return Err(BadRequest);
      }
      var s := supplies[id].(inSale := false);
      supplies := supplies[id := s];
      r := Ok(s);
    }

    /** Removing twice in a row: the second removal always fails and
        changes nothing. */
    method RemoveFromStockTwice(id: SupplyId) returns (first: Result<Supply>, second: Result<Supply>)
      modifies this
      ensures second == Err(BadRequest)
      ensures first.Ok? ==> supplies == old(supplies)[id := first.value] && !supplies[id].inSale
      ensures first.Err? ==> supplies == old(supplies)
    {
      first := RemoveFromStock(id);
      second := RemoveFromStock(id);
    }

    /** `updateSupplierData`. */
    method UpdateSupplierData(id: SupplyId, dto: UpdateSupplierDto) returns (r: Result<Supply>)
      modifies this
      ensures id !in old(supplies) ==> r == Err(BadRequest) && supplies == old(supplies)
      ensures id in old(supplies) ==> r == Ok(Merge(old(supplies)[id], dto)) && supplies == old(supplies)[id := r.value]
      ensures old(Valid()) ==> Valid()
    {
      if id !in supplies {
        return Err(BadRequest);
      }
      var s := Merge(supplies[id], dto);
      supplies := supplies[id := s];
      r := Ok(supplies[id]);
    }

    /** `updateCount`: sets the stock left to any number, with no bound
        against the received count or zero. */
    method UpdateCount(id: SupplyId, count: int) returns (r: Result<Supply>)
      modifies this
      ensures id !in old(supplies) ==> r == Err(BadRequest) && supplies == old(supplies)
      ensures id in old(supplies) ==> r == Ok(old(supplies)[id].(currentCount := count)) && supplies == old(supplies)[id := r.value]
      ensures old(Valid()) ==> Valid()
    {
      if id !in supplies {
        return Err(BadRequest);
      }
      var s := supplies[id].(currentCount := count);
      supplies := supplies[id := s];
      r := Ok(supplies[id]);
    }

    /** `updatePrice`. */
    method UpdatePrice(id: SupplyId, price: real) returns (r: Result<Supply>)
      modifies this
      ensures id !in old(supplies) ==> r == Err(BadRequest) && supplies == old(supplies)
      ensures id in old(supplies) ==> r == Ok(old(supplies)[id].(price := price)) && supplies == old(supplies)[id := r.value]
      ensures old(Valid()) ==> Valid()
    {
      if id !in supplies {
        return Err(BadRequest);
      }
      var s := supplies[id].(price := price);
      supplies := supplies[id := s];
      r := Ok(supplies[id]);
    }

    /** `updateExpiryDate`. */
    method UpdateExpiryDate(id: SupplyId, expiryDate: string) returns (r: Result<Supply>)
      modifies this
      ensures id !in old(supplies) ==> r == Err(BadRequest) && supplies == old(supplies)
      ensures id in old(supplies) ==> r == Ok(old(supplies)[id].(expirationDate := expiryDate)) && supplies == old(supplies)[id := r.value]
      ensures old(Valid()) ==> Valid()
    {
      if id !in supplies {
        return Err(BadRequest);
      }
      var s := supplies[id].(expirationDate := expiryDate);
      supplies := supplies[id := s];
      r := Ok(supplies[id]);
    }

    /** `delete`: removing nothing is reported as NotFound. */
    method Delete(id: SupplyId) returns (r: Result<()>)
      modifies this
      ensures id !in old(supplies) ==> r == Err(NotFound) && supplies == old(supplies)
      ensures id in old(supplies) ==> r == Ok(()) && supplies == old(supplies) - {id}
      ensures old(Valid()) ==> Valid()
    {
      if id !in supplies {
        return Err(NotFound);
      }
      supplies := supplies - {id};
      r := Ok(());
    }

    /** `updateMany`: save each row of the batch in turn. */
    method UpdateMany(batch: seq<Row>)
      modifies this
      ensures supplies == Saved(old(supplies), batch)
    {
      var i := 0;
      while i < |batch|
        invariant 0 <= i <= |batch|
        invariant supplies == Saved(old(supplies), batch[..i])
      {
        assert batch[..i + 1][..i] == batch[..i];
        supplies := supplies[batch[i].0 := batch[i].1];
        i := i + 1;
      }
      assert batch[..i] == batch;
    }

    /** `getCartData`: price the requested supplies that exist and are in
        sale, one line each, and accumulate the total. */
    method GetCartData(cart: seq<CartItem>) returns (entries: seq<CartEntry>, total: real)
      ensures PricedCart(supplies, cart, entries)
      ensures total == SubtotalsSum(entries)
    {
      var db := supplies;
      var found := ResolveIds(InSale(db).Keys, CartIds(cart));
      entries, total := [], 0.0;
      var i := 0;
      while i < |found|
        invariant 0 <= i <= |found|
        invariant |entries| == i
        invariant forall j :: 0 <= j < i ==> entries[j] == EntryFor(found[j], db[found[j]], cart)
        invariant total == SubtotalsSum(entries)
      {
        var k := found[i];
        var e := EntryFor(k, db[k], cart);
        total := total + e.subtotal;
        assert (entries + [e])[..i] == entries;
        entries := entries + [e];
        i := i + 1;
      }
    }
  }
}
