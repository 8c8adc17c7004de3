/** The `Entity` implementation for `Order`: orders are created in status
    "Created" and support neither updates nor custom actions. */
module OrderActorEntity {
  import opened Base
  import opened Domain
  import Framework

  /** Always succeeds: the parameters are copied and the status is "Created",
      exactly as `Order::new` builds it. */
  function FromCreateParams(id: string, params: OrderCreate): (r: Result<Order, string>)
    ensures r == Ok(NewOrder(id, params.userId, params.productId, params.quantity, params.total))
    ensures r.value.status == "Created"
  {
    Ok(Order(id, params.userId, params.productId, params.quantity, params.total, "Created"))
  }

  /** The unit patch changes nothing and succeeds. */
  function OnUpdate(o: Order, patch: ()): (r: (Order, Result<(), string>))
    ensures r.0 == o && r.1.Ok?
  {
    (o, Ok(()))
  }

  /** The unit action changes nothing and succeeds. */
  function HandleAction(o: Order, action: ()): (r: (Order, Result<(), string>))
    ensures r.0 == o && r.1.Ok?
  {
    (o, Ok(()))
  }

  /** The entity's capability set, built from this module's functions. It
      keeps the trait's default `on_create` and `on_delete`: a built entity
      is stored as built, and a delete is never vetoed. */
  function Hooks(): (h: Framework.Hooks<Order, OrderCreate, (), (), ()>)
    ensures forall e :: h.onCreate(e) == (e, Ok(())) && h.onDelete(e) == Ok(())
  {
    Framework.Hooks(
      (id, params) => FromCreateParams(id, params),
      o => Framework.DefaultOnCreate(o),
      (o, patch) => OnUpdate(o, patch),
      o => Framework.DefaultOnDelete(o),
      (o, action) => HandleAction(o, action))
  }

  /** Once created, an order is immutable through the actor: Get, Update and
      Action leave the state as it was, and only Delete removes it. */
  lemma OrdersImmutable(s: Framework.ActorState<Order>, req: Framework.Request<OrderCreate, (), ()>)
    requires !req.Create? && !req.Delete?
    ensures Framework.Step(Hooks(), "order", s, req).state == s
  {
  }

  /** Every order the actor stores has status "Created": creating keeps it
      so, and no other request can change a status. */
  lemma StatusStaysCreated(s: Framework.ActorState<Order>, req: Framework.Request<OrderCreate, (), ()>)
    requires forall id :: id in s.store ==> s.store[id].status == "Created"
    ensures var t := Framework.Step(Hooks(), "order", s, req);
      forall id :: id in t.state.store ==> t.state.store[id].status == "Created"
  {
  }
}
