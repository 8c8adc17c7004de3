/** The later `Entity` implementation for `Product` (`from_create_params` /
    `UpdateParams`), the one the product actor of the running system manages. */
module ProductActorEntity {
  import opened Base
  import opened Format
  import opened Domain
  import Framework
  import ProductEntity

  /** Always succeeds, copying id, name, price and quantity verbatim. */
  function FromCreateParams(id: string, params: ProductCreate): (r: Result<Product, string>)
    ensures r.Ok?
    ensures r.value.id == id && r.value.name == params.name
    ensures r.value.price == params.price && r.value.quantity == params.quantity
  {
    Ok(Product(id, params.name, params.price, params.quantity))
  }

  /** Overwrites price and/or quantity for `Some` fields only; always Ok. */
  function OnUpdate(p: Product, update: ProductUpdate): (r: (Product, Result<(), string>))
    ensures r.1.Ok?
    ensures r.0.id == p.id && r.0.name == p.name
    ensures update.price.None? ==> r.0.price == p.price
    ensures update.price.Some? ==> r.0.price == update.price.value
    ensures update.quantity.None? ==> r.0.quantity == p.quantity
    ensures update.quantity.Some? ==> r.0.quantity == update.quantity.value
  {
    var p1 := if update.price.Some? then p.(price := update.price.value) else p;
    var p2 := if update.quantity.Some? then p1.(quantity := update.quantity.value) else p1;
    (p2, Ok(()))
  }

  /** CheckStock reports the quantity and changes nothing; ReserveStock(a)
      takes `a` when there is enough and otherwise fails with the shortfall. */
  function HandleAction(p: Product, action: ProductAction): (r: (Product, Result<ProductActionResult, string>))
    ensures action.CheckStock? ==> r.0 == p && r.1 == Ok(StockLevel(p.quantity))
    ensures action.ReserveStock? && action.amount <= p.quantity ==>
      r.1 == Ok(Reserved) && r.0 == p.(quantity := p.quantity - action.amount)
    ensures action.ReserveStock? && action.amount > p.quantity ==>
      r.0 == p && r.1 == Err(ProductEntity.ShortfallMessage(p.quantity, action.amount))
  {
    match action
    case CheckStock => (p, Ok(StockLevel(p.quantity)))
    case ReserveStock(amount) =>
      if p.quantity >= amount then (p.(quantity := p.quantity - amount), Ok(Reserved))
      else (p, Err(ProductEntity.ShortfallMessage(p.quantity, amount)))
  }

  /** The entity's capability set, built from this module's functions. It
      keeps the trait's default `on_create` and `on_delete`: a built entity
      is stored as built, and a delete is never vetoed. */
  function Hooks(): (h: Framework.Hooks<Product, ProductCreate, ProductUpdate, ProductAction, ProductActionResult>)
    ensures forall e :: h.onCreate(e) == (e, Ok(())) && h.onDelete(e) == Ok(())
  {
    Framework.Hooks(
      (id, params) => FromCreateParams(id, params),
      p => Framework.DefaultOnCreate(p),
      (p, update) => OnUpdate(p, update),
      p => Framework.DefaultOnDelete(p),
      (p, action) => HandleAction(p, action))
  }

  /** The two generations of the Product entity behave identically. */
  lemma AgreesWithEarlierGeneration(id: string, params: ProductCreate, p: Product, update: ProductUpdate, action: ProductAction)
    ensures FromCreateParams(id, params) == ProductEntity.FromCreate(id, params)
    ensures OnUpdate(p, update) == ProductEntity.OnUpdate(p, update)
    ensures HandleAction(p, action) == ProductEntity.HandleAction(p, action)
  {
  }

  /** Reserving 7 out of 5 fails with the shortfall spelled out. */
  lemma ShortfallOfSevenFromFive(p: Product)
    requires p.quantity == 5
    ensures HandleAction(p, ReserveStock(7)) == (p, Err("Insufficient stock: 5 available, 7 requested"))
  {
    assert Decimal(p.quantity as nat) == "5" by { assert DigitChar(5) == '5'; }
    assert Decimal(7) == "7" by { assert DigitChar(7) == '7'; }
    var r := HandleAction(p, ReserveStock(7));
    assert r.1 == Err("Insufficient stock: " + "5" + " available, " + "7" + " requested");
    assert "Insufficient stock: " + "5" + " available, " + "7" + " requested"
        == "Insufficient stock: 5 available, 7 requested";
  }

  /** Stock scenario through the actor: create a product with quantity 10 as
      product_1, reserve 5 (Ok, quantity 5), reserve 7 (insufficient,
      quantity still 5), and Get reports quantity 5. */
  lemma StockScenario(name: string, price: F64)
    ensures
      var h := Hooks();
      var t1 := Framework.Step(h, "product", Framework.Initial(), Framework.Create(ProductCreate(name, price, 10)));
      var t2 := Framework.Step(h, "product", t1.state, Framework.Action("product_1", ReserveStock(5)));
      var t3 := Framework.Step(h, "product", t2.state, Framework.Action("product_1", ReserveStock(7)));
      var t4 := Framework.Step(h, "product", t3.state, Framework.Get("product_1"));
      && t1.reply == Framework.Created(Ok("product_1"))
      && t2.reply == Framework.Acted(Ok(Reserved))
      && t3.reply == Framework.Acted(Err(Framework.Custom("Insufficient stock: 5 available, 7 requested")))
      && t4.reply == Framework.Got(Ok(Some(Product("product_1", name, price, 5))))
  {
    var h := Hooks();
    var id := "product_1";
    assert FormatId("product", 1) == id by {
      assert Decimal(1) == "1";
    }
    var t1 := Framework.Step(h, "product", Framework.Initial(), Framework.Create(ProductCreate(name, price, 10)));
    assert t1.state.store == map[id := Product(id, name, price, 10)];
    var t2 := Framework.Step(h, "product", t1.state, Framework.Action(id, ReserveStock(5)));
    assert t2.state.store == map[id := Product(id, name, price, 5)];
    var t3 := Framework.Step(h, "product", t2.state, Framework.Action(id, ReserveStock(7)));
    ShortfallOfSevenFromFive(Product(id, name, price, 5));
    assert t3.state == t2.state;
    var t4 := Framework.Step(h, "product", t3.state, Framework.Get(id));
    assert t1.reply == Framework.Created(Ok(id));
    assert t2.reply == Framework.Acted(Ok(Reserved));
    assert t3.reply == Framework.Acted(Err(Framework.Custom("Insufficient stock: 5 available, 7 requested")));
    assert t4.reply == Framework.Got(Ok(Some(Product(id, name, price, 5))));
  }
}
