/** The hand-written product service of the actor recipe: a catalogue map
    and a stock map, with stock checks that default to 0 and reservations
    that fail with a typed shortfall. */
module RecipeProducts {
  import opened Base
  import opened Format
  import opened Mailbox

  datatype Product = Product(id: string, name: string, price: F64)

  /** `Product::new`. */
  function NewProduct(id: string, name: string, price: F64): (p: Product)
    ensures p.id == id && p.name == name && p.price == price
  {
    Product(id, name, price)
  }

  datatype ProductError =
    | NotFound(id: string)
    | InsufficientStock(requested: U32, available: U32)
    | InvalidQuantity(quantity: U32)
    | DatabaseError(message: string)

  /** The `Display` text of a product error. The shortfall message carries
      both numbers, and they can be read back from it. */
  function DisplayProductError(e: ProductError): (s: string)
    ensures e.NotFound? ==> s == "Product not found: " + e.id
    ensures e.InsufficientStock? ==>
      && s == InsufficientStockText(e.requested as nat, e.available as nat)
      && ParseInsufficientStock(s) == Some((e.requested as int, e.available as int))
    ensures e.InvalidQuantity? ==> s == "Invalid quantity: " + Decimal(e.quantity as nat)
    ensures e.DatabaseError? ==> s == "Product database error: " + e.message
  {
    match e
    case NotFound(id) => "Product not found: " + id
    case InsufficientStock(requested, available) =>
      InsufficientStockTextParses(requested as nat, available as nat);
      InsufficientStockText(requested as nat, available as nat)
    case InvalidQuantity(qty) => "Invalid quantity: " + Decimal(qty as nat)
    case DatabaseError(msg) => "Product database error: " + msg
  }

  datatype ProductRequest =
    | GetProduct(id: string)
    | CheckStock(id: string)
    | ReserveStock(id: string, quantity: U32)
    | Shutdown

  datatype ProductReply =
    | GotProduct(got: Result<Option<Product>, ProductError>)
    | StockLevel(level: Result<U32, ProductError>)
    | ReservedStock(reserved: Result<(), ProductError>)

  /** The service's fields: the catalogue and the stock levels. */
  datatype ProductState = ProductState(products: map<string, Product>, stock: map<string, U32>)

  /** `ProductService::new`: both maps empty. */
  function Initial(): (s: ProductState)
    ensures s.products == map[] && s.stock == map[]
  {
    ProductState(map[], map[])
  }

  /** Lookup in the catalogue: the product or `None`, never an error. */
  function GetProductStep(s: ProductState, id: string): (r: Result<Option<Product>, ProductError>)
    ensures r.Ok?
    ensures r.value.Some? <==> id in s.products
    ensures r.value.Some? ==> r.value.value == s.products[id]
  {
    Ok(if id in s.products then Some(s.products[id]) else None)
  }

  /** The stock level, 0 for an id that has none; never an error. */
  function CheckStockStep(s: ProductState, id: string): (r: Result<U32, ProductError>)
    ensures r.Ok?
    ensures id in s.stock ==> r.value == s.stock[id]
    ensures id !in s.stock ==> r.value == 0
  {
    Ok(if id in s.stock then s.stock[id] else 0)
  }

  /** A reservation takes `quantity` from the stock when there is enough,
      reports the shortfall when there is not, and reports NotFound for an
      id without stock; only a successful one changes anything. */
  function ReserveStockStep(s: ProductState, id: string, quantity: U32): (t: (ProductState, Result<(), ProductError>))
    ensures t.1.Ok? <==> id in s.stock && quantity <= s.stock[id]
    ensures t.1.Ok? ==> t.0 == s.(stock := s.stock[id := s.stock[id] - quantity])
    ensures t.1.Err? ==> t.0 == s
    ensures id !in s.stock ==> t.1 == Err(NotFound(id))
    ensures id in s.stock && quantity > s.stock[id] ==>
      t.1 == Err(InsufficientStock(quantity, s.stock[id]))
  {
    if id !in s.stock then (s, Err(NotFound(id)))
    else if s.stock[id] >= quantity then (s.(stock := s.stock[id := s.stock[id] - quantity]), Ok(()))
    else (s, Err(InsufficientStock(quantity, s.stock[id])))
  }

  /** One pass of the receive loop for a message other than Shutdown: one
      reply of the request's kind; the catalogue and the set of stocked ids
      never change, and no level ever grows. */
  function Step(s: ProductState, req: ProductRequest): (t: (ProductState, ProductReply))
    requires !req.Shutdown?
    ensures t.1.GotProduct? == req.GetProduct? && t.1.StockLevel? == req.CheckStock?
    ensures t.1.ReservedStock? == req.ReserveStock?
    ensures !req.ReserveStock? ==> t.0 == s
    ensures t.0.products == s.products && t.0.stock.Keys == s.stock.Keys
    ensures forall id :: id in s.stock ==> t.0.stock[id] <= s.stock[id]
  {
    match req
    case GetProduct(id) => (s, GotProduct(GetProductStep(s, id)))
    case CheckStock(id) => (s, StockLevel(CheckStockStep(s, id)))
    case ReserveStock(id, quantity) =>
      var t := ReserveStockStep(s, id, quantity);
      (t.0, ReservedStock(t.1))
  }

  /** The loop over messages that are not Shutdown: final state and replies. */
  function Replay(s: ProductState, msgs: seq<ProductRequest>): (r: (ProductState, seq<ProductReply>))
    requires forall j :: 0 <= j < |msgs| ==> !msgs[j].Shutdown?
    ensures |r.1| == |msgs|
    decreases |msgs|
  {
    if msgs == [] then (s, [])
    else
      var before := Replay(s, msgs[..|msgs| - 1]);
      var t := Step(before.0, msgs[|msgs| - 1]);
      (t.0, before.1 + [t.1])
  }

  /** The message that ends the receive loop. */
  predicate IsShutdown(req: ProductRequest) {
    req.Shutdown?
  }

  /** Stock is conserved and never goes below zero: after a successful
      reservation the remaining stock plus the amount taken is the stock
      there was, and every other id keeps its level. */
  lemma ReserveConservesStock(s: ProductState, id: string, quantity: U32, other: string)
    requires ReserveStockStep(s, id, quantity).1.Ok?
    ensures var after := ReserveStockStep(s, id, quantity).0;
      && CheckStockStep(after, id).value as int + quantity as int == CheckStockStep(s, id).value as int
      && (other != id ==> CheckStockStep(after, other) == CheckStockStep(s, other))
  {
  }

  /** Two successful reservations take what one reservation of their sum
      would; when the sum is too much, the second one fails and names what
      the first left behind. */
  lemma ReservationsCompose(s: ProductState, id: string, a: U32, b: U32)
    requires ReserveStockStep(s, id, a).1.Ok?
    ensures var mid := ReserveStockStep(s, id, a).0;
      var second := ReserveStockStep(mid, id, b);
      && (a as int + b as int <= s.stock[id] as int ==>
            second.1.Ok? && second.0 == ReserveStockStep(s, id, (a as int + b as int) as U32).0)
      && (a as int + b as int > s.stock[id] as int ==>
            second == (mid, Err(InsufficientStock(b, s.stock[id] - a))))
  {
  }

  /** The service has no message that adds products or stock: from a new
      service every run leaves both maps empty, Get finds nothing, stock
      reads 0 and every reservation is NotFound. */
  lemma {:induction false} FreshServiceStaysEmpty(msgs: seq<ProductRequest>)
    requires forall j :: 0 <= j < |msgs| ==> !msgs[j].Shutdown?
    ensures Replay(Initial(), msgs).0 == Initial()
    ensures forall j :: 0 <= j < |msgs| ==> Replay(Initial(), msgs).1[j] == EmptyAnswer(msgs[j])
    decreases |msgs|
  {
    if msgs != [] {
      var init := msgs[..|msgs| - 1];
      FreshServiceStaysEmpty(init);
      var before := Replay(Initial(), init);
      var r := Replay(Initial(), msgs);
      assert r.1 == before.1 + [Step(before.0, msgs[|msgs| - 1]).1];
      forall j | 0 <= j < |msgs|
        ensures r.1[j] == EmptyAnswer(msgs[j])
      {
        if j < |init| {
          assert msgs[j] == init[j];
        }
      }
    }
  }

  /** What an empty service answers. */
  function EmptyAnswer(req: ProductRequest): ProductReply
    requires !req.Shutdown?
  {
    match req
    case GetProduct(_) => GotProduct(Ok(None))
    case CheckStock(_) => StockLevel(Ok(0))
    case ReserveStock(id, _) => ReservedStock(Err(NotFound(id)))
  }

  /** The product service: it owns the catalogue and the stock levels and
      handles one message at a time. */
  class ProductService {
    var products: map<string, Product>
    var stock: map<string, U32>

    function State(): ProductState
      reads this
    {
      ProductState(products, stock)
    }

    constructor ()
      ensures State() == Initial()
    {
      products := map[];
      stock := map[];
    }

    method HandleGetProduct(id: string) returns (reply: Result<Option<Product>, ProductError>)
      ensures reply == GetProductStep(State(), id)
    {
      reply := Ok(if id in products then Some(products[id]) else None);
    }

    method HandleCheckStock(id: string) returns (reply: Result<U32, ProductError>)
      ensures reply == CheckStockStep(State(), id)
    {
      reply := Ok(if id in stock then stock[id] else 0);
    }

    method HandleReserveStock(id: string, quantity: U32) returns (reply: Result<(), ProductError>)
      modifies this
      ensures (State(), reply) == ReserveStockStep(old(State()), id, quantity)
    {
      if id in stock {
        var current := stock[id];
        if current >= quantity {
          stock := stock[id := current - quantity];
          reply := Ok(());
        } else {
          reply := Err(InsufficientStock(quantity, current));
        }
      } else {
        reply := Err(NotFound(id));
      }
    }

    /** The receive loop: handles messages in order until the first
        Shutdown, which ends it without a reply; later messages are never
        handled. */
    method Run(mailbox: seq<ProductRequest>) returns (replies: seq<ProductReply>)
      modifies this
      ensures |replies| == UntilFirst(mailbox, IsShutdown)
      ensures (State(), replies) == Replay(old(State()), mailbox[..|replies|])
    {
      replies := [];
      var i := 0;
      while i < |mailbox|
        invariant i <= |mailbox| && |replies| == i
        invariant forall j :: 0 <= j < i ==> !IsShutdown(mailbox[j])
        invariant (State(), replies) == Replay(old(State()), mailbox[..i])
      {
        if mailbox[i].Shutdown? {
          break;
        }
        var reply: ProductReply;
        match mailbox[i] {
          case GetProduct(id) =>
            var r := HandleGetProduct(id);
            reply := GotProduct(r);
          case CheckStock(id) =>
            var r := HandleCheckStock(id);
            reply := StockLevel(r);
          case ReserveStock(id, quantity) =>
            var r := HandleReserveStock(id, quantity);
            reply := ReservedStock(r);
        }
        assert mailbox[..i + 1][..i] == mailbox[..i];
        replies := replies + [reply];
        i := i + 1;
      }
      assert UntilFirst(mailbox, IsShutdown) == i;
    }
  }
}
