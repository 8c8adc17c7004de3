/** The earlier `Entity` implementation for `Product` (`from_create` /
    `Patch`): stock checking and conditional reservation. */
module ProductEntity {
  import opened Base
  import opened Format
  import opened Domain
  import Framework

  /** `id()`: the key the entity is stored under, which neither an update
      nor an action changes. */
  function Id(p: Product): (r: string)
    ensures forall patch :: OnUpdate(p, patch).0.id == r
    ensures forall action :: HandleAction(p, action).0.id == r
  {
    p.id
  }

  function FromCreate(id: string, payload: ProductCreate): (r: Result<Product, string>)
    ensures r == Ok(NewProduct(id, payload.name, payload.price, payload.quantity))
  {
    Ok(Product(id, payload.name, payload.price, payload.quantity))
  }

  /** `id()` gives back the id the product was created with. */
  lemma IdOfCreated(id: string, payload: ProductCreate)
    ensures FromCreate(id, payload).Ok? && Id(FromCreate(id, payload).value) == id
  {
  }

  /** Sets price and quantity to the patch's `Some` values; nothing else changes. */
  function OnUpdate(p: Product, patch: ProductPatch): (r: (Product, Result<(), string>))
    ensures r.1 == Ok(())
    ensures r.0.id == p.id && r.0.name == p.name
    ensures r.0.price == patch.price.UnwrapOr(p.price)
    ensures r.0.quantity == patch.quantity.UnwrapOr(p.quantity)
  {
    var p1 := if patch.price.Some? then p.(price := patch.price.value) else p;
    var p2 := if patch.quantity.Some? then p1.(quantity := patch.quantity.value) else p1;
    (p2, Ok(()))
  }

  /** The error text of a reservation that asks for more than is in stock. */
  function ShortfallMessage(quantity: U32, amount: U32): string {
    "Insufficient stock: " + Decimal(quantity as nat) + " available, " + Decimal(amount as nat) + " requested"
  }

  function HandleAction(p: Product, action: ProductAction): (r: (Product, Result<ProductActionResult, string>))
    ensures action.CheckStock? ==> r == (p, Ok(StockLevel(p.quantity)))
    ensures action.ReserveStock? ==> (r.1.Ok? <==> action.amount <= p.quantity)
    ensures action.ReserveStock? && r.1.Ok? ==>
      r.1.value == Reserved && r.0 == p.(quantity := p.quantity - action.amount)
    ensures action.ReserveStock? && r.1.Err? ==>
      r.0 == p && r.1.error == ShortfallMessage(p.quantity, action.amount)
  {
    match action
    case CheckStock => (p, Ok(StockLevel(p.quantity)))
    case ReserveStock(amount) =>
      if p.quantity >= amount then (p.(quantity := p.quantity - amount), Ok(Reserved))
      else (p, Err(ShortfallMessage(p.quantity, amount)))
  }

  /** The entity's capability set, built from this module's functions. It
      keeps the trait's default `on_create` and `on_delete`: a built entity
      is stored as built, and a delete is never vetoed. */
  function Hooks(): (h: Framework.Hooks<Product, ProductCreate, ProductPatch, ProductAction, ProductActionResult>)
    ensures forall e :: h.onCreate(e) == (e, Ok(())) && h.onDelete(e) == Ok(())
  {
    Framework.Hooks(
      (id, payload) => FromCreate(id, payload),
      p => Framework.DefaultOnCreate(p),
      (p, patch) => OnUpdate(p, patch),
      p => Framework.DefaultOnDelete(p),
      (p, action) => HandleAction(p, action))
  }

  /** Applying the same patch twice is the same as applying it once. */
  lemma OnUpdateIdempotent(p: Product, patch: ProductPatch)
    ensures OnUpdate(OnUpdate(p, patch).0, patch) == OnUpdate(p, patch)
  {
  }

  /** A reservation never lets stock go below zero: what remains plus what
      was reserved is what there was, and CheckStock then reports the rest. */
  lemma ReserveConservesStock(p: Product, amount: U32)
    requires HandleAction(p, ReserveStock(amount)).1.Ok?
    ensures var after := HandleAction(p, ReserveStock(amount)).0;
      && after.quantity as int + amount as int == p.quantity as int
      && HandleAction(after, CheckStock).1 == Ok(StockLevel(after.quantity))
  {
  }

  /** Two reservations that both succeed take as much as one for their sum. */
  lemma ReservationsCompose(p: Product, a: U32, b: U32)
    requires HandleAction(p, ReserveStock(a)).1.Ok?
    requires HandleAction(HandleAction(p, ReserveStock(a)).0, ReserveStock(b)).1.Ok?
    ensures a as int + b as int <= p.quantity as int
    ensures HandleAction(HandleAction(p, ReserveStock(a)).0, ReserveStock(b)).0
         == HandleAction(p, ReserveStock(a + b)).0
  {
  }

  /** Quantity 10: reserving 5 succeeds and leaves 5; reserving 7 then fails
      and leaves 5. */
  lemma ReserveScenario(p: Product)
    requires p.quantity == 10
    ensures var (p1, r1) := HandleAction(p, ReserveStock(5));
      && r1 == Ok(Reserved) && p1.quantity == 5
      && var (p2, r2) := HandleAction(p1, ReserveStock(7));
      && r2.Err? && p2.quantity == 5
  {
  }
}
