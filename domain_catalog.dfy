/**
 * The inventory ledger and its blocked-inventory records (jetcart/domain/catalog.py).
 *
 * The ledger holds one `Inventory` per sku. `BlockInventory` reserves stock
 * by lowering the ledger and recording a `BlockedInventory` that expires five
 * minutes later. `CommitInventory` checks the expiry against the clock. The
 * current time is a parameter (epoch seconds). Stores are in-memory maps, and
 * record ids are handed out by a counter.
 *
 * Saving a document validates its fields first: `Inventory.quantity` has
 * `min_value=0` and `buyer_limit` has `min_value=1`. A save that breaks them
 * raises a validation error and writes nothing (`FieldValidation` here).
 */
module DomainCatalog {
  import opened Wrappers

  const EXPIRY_WINDOW_MINUTES: int := 5
  const DEFAULT_BUYER_LIMIT: int := 3

  /** `str(BlockedInventoryState.BLOCKED)` and `str(BlockedInventoryState.COMMITTED)`: the enum's
      qualified member names, not its values "blocked" and "committed". */
  const STATE_BLOCKED: string := "BlockedInventoryState.BLOCKED"
  const STATE_COMMITTED: string := "BlockedInventoryState.COMMITTED"

  /** One ledger entry. The product and warehouse references are not part of this model. */
  datatype Inventory = Inventory(sku: string, quantity: int, buyerLimit: int)

  datatype BlockedInventory = BlockedInventory(sku: string, quantity: int, expiry: int, state: string)

  /** The exceptions the operations raise. */
  datatype CatalogError =
    | InvalidSku               // ValueError: the sku has no inventory
    | InvalidQuantity          // ValueError: quantity outside 0 < quantity <= buyer_limit
    | NotEnoughInventory
    | UnknownBlockedInventory  // ValueError: no blocked record with this id
    | BlockedInventoryExpired
    | FieldValidation          // a saved field breaks its declared minimum
    | NoSuchInventory          // update of a sku that the lookup did not find (the source dereferences None)

  /** `_expiry_time`: the time `deltaMinutes` minutes after `now`, in epoch seconds. */
  function ExpiryTime(now: int, deltaMinutes: int): (t: int)
    ensures deltaMinutes > 0 ==> t > now
  {
    now + deltaMinutes * 60
  }

  /** What a save of this inventory document accepts. */
  predicate FieldsValid(inv: Inventory) {
    inv.quantity >= 0 && inv.buyerLimit >= 1
  }

  class Catalog {
    var inventory: map<string, Inventory>
    var blocked: map<nat, BlockedInventory>
    var nextBlockedId: nat

    /** Every stored entry passed validation and sits under its own sku; every record refers to a known
        sku and has an id below the next one to be handed out. */
    ghost predicate Valid()
      reads this
    {
      && (forall sku :: sku in inventory ==> inventory[sku].sku == sku && FieldsValid(inventory[sku]))
      && (forall id :: id in blocked ==> id < nextBlockedId && blocked[id].sku in inventory)
    }

    /** Empty stores. */
    constructor ()
      ensures Valid()
      ensures inventory == map[] && blocked == map[]
    {
      inventory := map[];
      blocked := map[];
      nextBlockedId := 0;
    }

    /** `Inventory(...).save()`: stores the entry under its sku, replacing any entry already there,
        unless a field breaks its minimum. */
    method SaveInventory(inv: Inventory) returns (r: Result<Inventory, CatalogError>)
      requires Valid()
      modifies this
      ensures Valid()
      ensures FieldsValid(inv) ==> r == Ok(inv) && inventory == old(inventory)[inv.sku := inv]
      ensures !FieldsValid(inv) ==> r == Err(FieldValidation) && inventory == old(inventory)
      ensures blocked == old(blocked) && nextBlockedId == old(nextBlockedId)
    {
      if !FieldsValid(inv) {
        return Err(FieldValidation);
      }
      inventory := inventory[inv.sku := inv];
      r := Ok(inv);
    }

    /** `create_inventory`: a new entry with the default buyer limit. */
    method CreateInventory(sku: string, quantity: int) returns (r: Result<Inventory, CatalogError>)
      requires Valid()
      modifies this
      ensures Valid()
      ensures quantity >= 0 ==>
                r == Ok(Inventory(sku, quantity, DEFAULT_BUYER_LIMIT)) && inventory == old(inventory)[sku := r.value]
      ensures quantity < 0 ==> r == Err(FieldValidation) && inventory == old(inventory)
      ensures blocked == old(blocked) && nextBlockedId == old(nextBlockedId)
    {
      r := SaveInventory(Inventory(sku, quantity, DEFAULT_BUYER_LIMIT));
    }

    /** `update_inventory`: overwrites the quantity of a known sku and nothing else. */
    method UpdateInventory(sku: string, quantity: int) returns (r: Result<Inventory, CatalogError>)
      requires Valid()
      modifies this
      ensures Valid()
      ensures sku !in old(inventory) ==> r == Err(NoSuchInventory) && inventory == old(inventory)
      ensures sku in old(inventory) && quantity < 0 ==> r == Err(FieldValidation) && inventory == old(inventory)
      ensures sku in old(inventory) && quantity >= 0 ==>
                && r == Ok(old(inventory)[sku].(quantity := quantity))
                && inventory == old(inventory)[sku := r.value]
      ensures blocked == old(blocked) && nextBlockedId == old(nextBlockedId)
    {
      if sku !in inventory {
        return Err(NoSuchInventory);
      }
      var inv := inventory[sku].(quantity := quantity);
      r := SaveInventory(inv);
    }

    /**
     * `block_inventory`: checks the sku, then the quantity against the buyer limit, then
     * the stock. The stock test is strict, so the last unit of a sku can never be
     * blocked. On success the stock drops by `quantity` and a BLOCKED record expiring
     * five minutes after `now` is added; its id is returned.
     */
    method BlockInventory(sku: string, quantity: int, now: int) returns (r: Result<nat, CatalogError>)
      requires Valid()
      modifies this
      ensures Valid()
      ensures sku !in old(inventory) ==> r == Err(InvalidSku)
      ensures sku in old(inventory) && (quantity <= 0 || quantity > old(inventory)[sku].buyerLimit) ==>
                r == Err(InvalidQuantity)
      ensures sku in old(inventory) && 0 < quantity <= old(inventory)[sku].buyerLimit
              && old(inventory)[sku].quantity <= quantity ==>
                r == Err(NotEnoughInventory)
      ensures r.Ok? <==> sku in old(inventory) && 0 < quantity <= old(inventory)[sku].buyerLimit
                         && quantity < old(inventory)[sku].quantity
      ensures r.Err? ==> inventory == old(inventory) && blocked == old(blocked) && nextBlockedId == old(nextBlockedId)
      ensures r.Ok? ==>
                && sku in old(inventory)
                && r.value !in old(blocked)
                && inventory == old(inventory)[sku := old(inventory)[sku].(quantity := old(inventory)[sku].quantity - quantity)]
                && inventory[sku].quantity >= 1
                && blocked == old(blocked)[r.value := BlockedInventory(sku, quantity, now + 300, STATE_BLOCKED)]
    {
      if sku !in inventory {
        return Err(InvalidSku);
      }
      var inv := inventory[sku];
      if quantity <= 0 || quantity > inv.buyerLimit {
        return Err(InvalidQuantity);
      }
      if inv.quantity > quantity {
        var id := nextBlockedId;
        blocked := blocked[id := BlockedInventory(sku, quantity, ExpiryTime(now, EXPIRY_WINDOW_MINUTES), STATE_BLOCKED)];
        nextBlockedId := nextBlockedId + 1;
        inventory := inventory[sku := inv.(quantity := inv.quantity - quantity)];
        return Ok(id);
      }
      r := Err(NotEnoughInventory);
    }

    /**
     * `commit_inventory`. Within the window (`now <= expiry`) it takes the blocked
     * quantity off the ledger a second time and marks the record COMMITTED, whatever
     * state the record was in. It then raises `BlockedInventoryExpired` in every case.
     * When the second deduction would take the stock below zero, the save of the
     * ledger entry is refused and nothing changes.
     */
    method CommitInventory(id: nat, now: int) returns (e: CatalogError)
      requires Valid()
      modifies this
      ensures Valid()
      ensures nextBlockedId == old(nextBlockedId)
      ensures id !in old(blocked) ==>
                e == UnknownBlockedInventory && inventory == old(inventory) && blocked == old(blocked)
      ensures id in old(blocked) && now > old(blocked)[id].expiry ==>
                e == BlockedInventoryExpired && inventory == old(inventory) && blocked == old(blocked)
      ensures id in old(blocked) && now <= old(blocked)[id].expiry ==>
                var b := old(blocked)[id];
                var inv := old(inventory)[b.sku];
                if inv.quantity - b.quantity < 0 then
                  e == FieldValidation && inventory == old(inventory) && blocked == old(blocked)
                else
                  && e == BlockedInventoryExpired
                  && inventory == old(inventory)[b.sku := inv.(quantity := inv.quantity - b.quantity)]
                  && blocked == old(blocked)[id := b.(state := STATE_COMMITTED)]
    {
      if id !in blocked {
        return UnknownBlockedInventory;
      }
      var b := blocked[id];
      if now <= b.expiry {
        var inv := inventory[b.sku];
        var saved := SaveInventory(inv.(quantity := inv.quantity - b.quantity));
        if saved.Err? {
          return saved.error;
        }
        blocked := blocked[id := b.(state := STATE_COMMITTED)];
      }
      e := BlockedInventoryExpired;
    }
  }

  /** The two blocks of the catalog tests: stock 3 with buyer limit 5, a block of 2, then a block of 1. */
  method BlockScenario() returns (first: Result<nat, CatalogError>, left: int, second: Result<nat, CatalogError>)
    ensures first.Ok? && left == 1
    ensures second == Err(NotEnoughInventory)
  {
    var c := new Catalog();
    var _ := c.SaveInventory(Inventory("abc", 3, 5));
    first := c.BlockInventory("abc", 2, 0);
    assert first.value in c.blocked && c.blocked[first.value].sku == "abc";
    left := c.inventory["abc"].quantity;
    second := c.BlockInventory("abc", 1, 0);
  }

  /** The invalid-input tests: unknown sku, a quantity above the buyer limit, and a quantity above the stock. */
  method InvalidBlockScenario() returns (unknown: Result<nat, CatalogError>, tooMany: Result<nat, CatalogError>,
                                         moreThanStock: Result<nat, CatalogError>)
    ensures unknown == Err(InvalidSku)
    ensures tooMany == Err(InvalidQuantity)
    ensures moreThanStock == Err(NotEnoughInventory)
  {
    var c := new Catalog();
    var _ := c.SaveInventory(Inventory("abc", 3, 5));
    unknown := c.BlockInventory("123", 10, 0);
    tooMany := c.BlockInventory("abc", 50, 0);
    moreThanStock := c.BlockInventory("abc", 5, 0);
  }

  /**
   * Commit deducts again on every call inside the window and always ends in
   * `BlockedInventoryExpired`: stock 10, block 2 (8 left), two commits (6, then 4 left),
   * and a commit after the expiry (still 4).
   */
  method CommitScenario() returns (errors: seq<CatalogError>, stock: seq<int>, state: string)
    ensures errors == [BlockedInventoryExpired, BlockedInventoryExpired, BlockedInventoryExpired]
    ensures stock == [8, 6, 4, 4]
    ensures state == STATE_COMMITTED
  {
    var c := new Catalog();
    var _ := c.SaveInventory(Inventory("abc", 10, 5));
    var id := c.BlockInventory("abc", 2, 1000);
    stock := [c.inventory["abc"].quantity];
    var e1 := c.CommitInventory(id.value, 1300);
    stock := stock + [c.inventory["abc"].quantity];
    var e2 := c.CommitInventory(id.value, 1300);
    stock := stock + [c.inventory["abc"].quantity];
    var e3 := c.CommitInventory(id.value, 1301);
    stock := stock + [c.inventory["abc"].quantity];
    errors := [e1, e2, e3];
    state := c.blocked[id.value].state;
  }

  /** With stock 3, blocking 2 leaves 1, and the second deduction of a commit would go below zero:
      the commit is refused by field validation and the record stays BLOCKED. */
  method CommitBelowZeroScenario() returns (e: CatalogError, left: int, state: string)
    ensures e == FieldValidation && left == 1 && state == STATE_BLOCKED
  {
    var c := new Catalog();
    var _ := c.SaveInventory(Inventory("abc", 3, 5));
    var id := c.BlockInventory("abc", 2, 0);
    e := c.CommitInventory(id.value, 0);
    left := c.inventory["abc"].quantity;
    state := c.blocked[id.value].state;
  }
}
