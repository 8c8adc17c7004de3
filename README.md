# actor-recipe in Dafny

This project models the sequential core of the actor-recipe repository. Each
actor owns a map of entities and handles the messages of its mailbox one at a
time. The model covers three parts:

- **The generic resource actor** (`src/actor_framework.rs`). `Framework.ResourceActor`
  owns a `store` map and an id counter. Each `Request` (Create, Get, Update,
  Delete, Action) is turned into exactly one `Reply` by the entity's hooks. An
  entity type plugs in through `Framework.Hooks`: `from_create`, `on_create`,
  `on_update`, `on_delete` and `handle_action`. A hook that takes `&mut self`
  is a function from the old entity to the new entity paired with its result.
  The store keeps whatever the hook left behind, even when the hook fails,
  exactly as the in-place mutation does. The injected id generator is the
  counter closure every caller of the actor uses: it mints
  `prefix_1, prefix_2, ...` (`Format.FormatId`).
- **The entity implementations**:
  - two generations of `Product` (`ProductEntity`, `ProductActorEntity`);
  - two generations of `User` (`UserEntity`, `UserActorEntity`);
  - `Order` (`OrderActorEntity`);
  - the `SimpleUser` entity of the framework's own test (`SimpleUser`).
  
  Each is plugged into the generic actor by its `Hooks()`.
- **The recipe's hand-written services** (`src/actor_recipe.rs`):
  - `RecipeUsers.UserService`: email validation, `user_N` ids, whole-record
    replacement on update, listing in map order, and the test-only count;
  - `RecipeProducts.ProductService`: stock checks that default to 0, and
    reservations that fail with a typed `InsufficientStock`.
  
  Both receive loops stop at the first `Shutdown`.

The actors and services, whose handlers change their fields in place, are
classes: `ResourceActor` keeps the store and the counter of its generator,
and `UserService` and `ProductService` keep the Rust structs' maps and
counter. Each handler's `ensures` ties the new state and the reply to a
pure step function: `CreateStep`, `CreateUserStep`, `ReserveStockStep` and
the like. The entity hooks, which only compute a new entity and a result,
are pure functions. Properties of those functions are stated in their own `ensures`
and in lemmas. Each `Run` loop is proved against a replay of the mailbox:
`Framework.Replay`, `RecipeUsers.Replay` or `RecipeProducts.Replay`.

Where the code and its documentation differ, the model follows the code:

- `User::new` in the recipe says the service sets the id, but
  `handle_create_user` stores the record as sent. The stored user therefore
  keeps its empty `id` field (`RecipeUsers.CreatedUserKeepsGivenId`).
- `src/product_actor/entity.rs` answers with `ProductActionResult::CheckStock`
  and `ReserveStock(())`. Those variants are not defined in
  `src/product_actor/actions.rs`, which defines `StockLevel(u32)` and
  `Reserved`. The model uses the variants that are defined.
- The `*_actor/entity.rs` files name the trait's members
  `from_create_params`/`CreateParams`/`UpdateParams`. The model gives them
  the trait's shape from `src/actor_framework.rs:33-67`.
- `src/domain/*.rs` defines no `ProductUpdate`, `UserUpdate` or
  `OrderCreate`. The model defines `Domain.ProductUpdate` and
  `Domain.UserUpdate` with the patch shapes, and `Domain.OrderCreate` as
  `{ user_id, product_id, quantity, total }`, from their uses in the entity
  files.

## Model

| member | source | states |
|---|---|---|
| Framework.DisplayFrameworkError | src/actor_framework.rs:79-88 | each framework error's text: "Actor closed", "Actor dropped response channel", "Item not found: {id}", "Custom error: {msg}" |
| Framework.DefaultOnCreate | src/actor_framework.rs:58 | the default `on_create` succeeds and leaves the entity as it is |
| Framework.DefaultOnDelete | src/actor_framework.rs:60 | the default `on_delete` succeeds |
| Framework.Initial | src/actor_framework.rs:148-152 | a new actor has an empty store, and its counter generator starts at 1 |
| Framework.CreateStep | src/actor_framework.rs:160-173 | the generator is called once (the counter moves on by one whatever happens); on success the built entity is stored under the new id, the reply is Ok(id), and every other entry is unchanged; a failing `from_create` or `on_create` replies Custom(e) and inserts nothing |
| Framework.GetStep | src/actor_framework.rs:174-177 | Get replies Ok(Some(entry)) exactly when the id is stored, Ok(None) otherwise, and never errs |
| Framework.UpdateStep | src/actor_framework.rs:178-188 | a missing id replies NotFound(id) and changes nothing; otherwise the entry becomes the hook's result even when the hook fails (no rollback), the reply is the entity now stored or Custom(e), and the key stays present |
| Framework.DeleteStep | src/actor_framework.rs:189-200 | a missing id replies NotFound(id); a present id is removed, with Ok(()), exactly when `on_delete` succeeds; otherwise the entry stays and the reply is Custom(e) |
| Framework.ActionStep | src/actor_framework.rs:201-209 | a missing id replies NotFound(id); otherwise `handle_action`'s result is the reply (errors as Custom), the entry becomes the hook's new value and the key stays present |
| Framework.Step | src/actor_framework.rs:159-210 | one message, one reply of the request's own kind; the counter moves on by one exactly for Create; Get changes nothing; only Create can add a key |
| Framework.Replay | src/actor_framework.rs:157-212 | one reply per message, and the counter never goes back |
| Framework.FreshIdUnused | src/actor_framework.rs:161-168 | when every key was minted earlier, the id minted next is not yet a key, so an insert never overwrites |
| Framework.StepKeepsMinted | src/actor_framework.rs:157-212 | every message keeps every key of the store an id the generator already handed out |
| Framework.ResourceActor.constructor | src/actor_framework.rs:143-155 | the new actor has an empty store and a fresh generator |
| Framework.ResourceActor.Create | src/actor_framework.rs:160-173 | new state and reply are CreateStep's; a successful create adds a key that was not present and grows the store by one |
| Framework.ResourceActor.Get | src/actor_framework.rs:174-177 | the reply is GetStep's, and nothing changes |
| Framework.ResourceActor.Update | src/actor_framework.rs:178-188 | new state and reply are UpdateStep's |
| Framework.ResourceActor.Delete | src/actor_framework.rs:189-200 | new state and reply are DeleteStep's |
| Framework.ResourceActor.Action | src/actor_framework.rs:201-209 | new state and reply are ActionStep's |
| Framework.ResourceActor.Handle | src/actor_framework.rs:159-210 | one dispatched message: new state and reply are Step's |
| Framework.ResourceActor.Run | src/actor_framework.rs:157-212 | the receive loop handles the mailbox in order; final state and replies are the replay of the whole mailbox |
| FrameworkLemmas.ReplayShape | src/actor_framework.rs:157-212 | every message gets exactly one reply, of its own kind, and the counter advances once per Create |
| FrameworkLemmas.ReplayKeepsMinted | src/actor_framework.rs:157-212 | a whole run keeps every key a minted id |
| FrameworkLemmas.CreatedIdsDistinct | src/actor_framework.rs:160-169 | the ids handed out by the successful creates of a run come from the counter values the run used and are pairwise distinct |
| FrameworkLemmas.CreateThenGet | src/actor_framework.rs:160-177 | after a successful Create, Get on the returned id yields the entity built from the payload |
| FrameworkLemmas.FailedCreateLeavesNoTrace | src/actor_framework.rs:161-171 | a failed Create leaves the store as it was, and Get on the id it consumed finds nothing |
| FrameworkLemmas.CreateNeverOverwrites | src/actor_framework.rs:161-169 | a successful Create adds exactly one new key and never overwrites an entry |
| FrameworkLemmas.DeleteTwiceNotFound | src/actor_framework.rs:189-199 | after a successful delete, deleting the same id again replies NotFound and Get finds nothing |
| FrameworkLemmas.MissingIdNotFound | src/actor_framework.rs:174-208 | on an id that is not stored, Update, Delete and Action reply NotFound(id), Get replies Ok(None), and nothing changes |
| FrameworkLemmas.StepTouchesOnlyTarget | src/actor_framework.rs:157-212 | a message never changes or removes an entry other than the one it targets |
| Domain.NewUser | src/domain/user.rs:21-27 | `User::new` leaves the id empty and keeps name and email |
| Domain.NewProduct | src/domain/product.rs:10-17 | `Product::new` keeps id, name, price and quantity |
| Domain.NewOrder | src/domain/order.rs:12-27 | `Order::new` keeps its arguments and sets the status to "Created" |
| Format.FormatIdInjective | src/actor_framework.rs:353-357 | the counter generator's `format!("user_{}", n)` ids are distinct for distinct counter values |
| Format.FreshIdNotMinted | src/actor_framework.rs:353-357 | the id minted at counter value n was not minted at any smaller value |
| Format.InsufficientStockTextParses | src/actor_recipe.rs:490-499 | "Insufficient stock: requested {r}, available {a}" loses nothing: both numbers read back from the text |
| SimpleUser.FromCreate | src/actor_framework.rs:314-321 | always Ok; the minted id and the payload's name, not an admin, created_at 100 |
| SimpleUser.OnUpdate | src/actor_framework.rs:323-328 | the name is replaced only when the patch carries one; always Ok |
| SimpleUser.HandleAction | src/actor_framework.rs:330-344 | PromoteToAdmin leaves an admin and answers whether it changed anything; Rename sets the name and answers true; never fails |
| SimpleUser.Hooks | src/actor_framework.rs:305-346 | the SimpleUser entity keeps the trait's default `on_create` and `on_delete`: a built user is stored as built and no delete is vetoed |
| SimpleUser.PromoteTwice | src/actor_framework.rs:332-339 | promoting a non-admin twice answers true, then false, and the second call changes nothing |
| SimpleUser.ActionsScenario | src/actor_framework.rs:350-388 | through the actor: create gives user_1, promote is true, Get shows an admin, promote again is false, update renames to Bob, delete succeeds, and Get then finds nothing |
| ProductEntity.FromCreate | src/product/entity.rs:15-22 | always Ok, the product `Product::new` builds from the id and the payload |
| ProductEntity.Id | src/product/entity.rs:13 | `id()` is the product's id, and neither an update nor an action changes it |
| ProductEntity.IdOfCreated | src/product/entity.rs:13-22 | `id()` returns the id given to `from_create` |
| ProductEntity.OnUpdate | src/product/entity.rs:24-32 | price and quantity take the patch's `Some` values; id and name never change; always Ok |
| ProductEntity.HandleAction | src/product/entity.rs:34-48 | CheckStock answers StockLevel(quantity) and changes nothing; ReserveStock(a) succeeds exactly when a ≤ quantity, answering Reserved and taking a; otherwise it fails with the shortfall message and changes nothing |
| ProductEntity.Hooks | src/product/entity.rs:6-49 | the Product entity keeps the trait's default `on_create` and `on_delete`: a built product is stored as built and no delete is vetoed |
| ProductEntity.OnUpdateIdempotent | src/product/entity.rs:24-32 | applying the same patch twice is applying it once |
| ProductEntity.ReserveConservesStock | src/product/entity.rs:39-42 | after a reservation what remains plus what was taken is what there was, so the quantity never underflows |
| ProductEntity.ReservationsCompose | src/product/entity.rs:39-46 | two reservations that both succeed take what one reservation of their sum would |
| ProductEntity.ReserveScenario | src/product/entity.rs:39-46 | quantity 10: reserving 5 succeeds and leaves 5; reserving 7 then fails and leaves 5 |
| ProductActorEntity.FromCreateParams | src/product_actor/entity.rs:28-35 | always Ok, copying id, name, price and quantity |
| ProductActorEntity.OnUpdate | src/product_actor/entity.rs:45-53 | price and/or quantity are overwritten only for `Some` fields; id and name untouched; always Ok |
| ProductActorEntity.HandleAction | src/product_actor/entity.rs:63-77 | CheckStock reports the quantity unchanged; ReserveStock(a) with a ≤ quantity takes a; otherwise Err("Insufficient stock: {q} available, {a} requested") with quantity unchanged |
| ProductActorEntity.Hooks | src/product_actor/entity.rs:14-78 | the later Product entity keeps the trait's default `on_create` and `on_delete` |
| ProductActorEntity.AgreesWithEarlierGeneration | src/product_actor/entity.rs:28-77 | the later Product entity behaves exactly like the earlier one, hook by hook |
| ProductActorEntity.ShortfallOfSevenFromFive | src/product_actor/entity.rs:72-74 | asking 7 of 5 fails with "Insufficient stock: 5 available, 7 requested" |
| ProductActorEntity.StockScenario | src/product_actor/entity.rs:68-75 | through the actor: create with quantity 10 as product_1, reserve 5 succeeds, reserve 7 fails with that message, and Get shows quantity 5 |
| UserEntity.FromCreate | src/user/entity.rs:13-19 | always Ok; `id()` is the given id, and name and email come from the payload |
| UserEntity.Id | src/user/entity.rs:11 | `id()` is the user's id, and no update changes it |
| UserEntity.OnUpdate | src/user/entity.rs:21-29 | exactly the fields given as `Some` are replaced; the id never changes; always Ok |
| UserEntity.HandleAction | src/user/entity.rs:31-33 | the unit action answers Ok(()) and changes nothing |
| UserEntity.Hooks | src/user/entity.rs:4-34 | the User entity keeps the trait's default `on_create` and `on_delete` |
| UserEntity.UpdatesCompose | src/user/entity.rs:21-29 | two updates equal one update whose later `Some` fields win, and repeating a patch changes nothing more |
| UserEntity.UpdateThroughActor | src/user/entity.rs:21-29 | through the actor, updating a stored user answers and stores the patched record under the same id |
| UserActorEntity.FromCreateParams | src/user_actor/entity.rs:25-31 | always Ok, with the given id and the params' name and email |
| UserActorEntity.OnUpdate | src/user_actor/entity.rs:41-49 | `Some(name)` replaces the name and `None` keeps it, likewise the email; the id never changes; always Ok |
| UserActorEntity.HandleAction | src/user_actor/entity.rs:54-56 | answers Ok and leaves the user unchanged |
| UserActorEntity.Hooks | src/user_actor/entity.rs:11-57 | the later User entity keeps the trait's default `on_create` and `on_delete` |
| UserActorEntity.AgreesWithEarlierGeneration | src/user_actor/entity.rs:25-56 | the later User entity behaves exactly like the earlier one, hook by hook |
| UserActorEntity.ActionIsInert | src/user_actor/entity.rs:54-56 | through the actor, the unit action on a stored user answers Ok(()) and leaves the whole state as it was |
| OrderActorEntity.FromCreateParams | src/order_actor/entity.rs:28-37 | always Ok, copying the id and the params, with status "Created" exactly as `Order::new` builds it |
| OrderActorEntity.OnUpdate | src/order_actor/entity.rs:42-44 | the unit patch answers Ok and changes nothing |
| OrderActorEntity.HandleAction | src/order_actor/entity.rs:49-51 | the unit action answers Ok and changes nothing |
| OrderActorEntity.Hooks | src/order_actor/entity.rs:11-52 | the Order entity keeps the trait's default `on_create` and `on_delete` |
| OrderActorEntity.OrdersImmutable | src/order_actor/entity.rs:42-51 | through the actor, Get, Update and Action leave the state as it was |
| OrderActorEntity.StatusStaysCreated | src/order_actor/entity.rs:35 | every order the actor stores keeps the status "Created" |
| RecipeUsers.NewUser | src/actor_recipe.rs:129-136 | `User::new` leaves the id empty and keeps name and email |
| RecipeUsers.DisplayUserError | src/actor_recipe.rs:258-267 | each user error's text is its variant's prefix followed by its payload |
| RecipeUsers.DisplayUserErrorInjective | src/actor_recipe.rs:258-267 | two errors with the same text are the same error |
| RecipeUsers.Initial | src/actor_recipe.rs:293-304 | a new service has no users and its counter at 1 |
| RecipeUsers.GetUserStep | src/actor_recipe.rs:354-365 | the stored user or None, never an error |
| RecipeUsers.CreateUserStep | src/actor_recipe.rs:377-397 | an empty email answers ValidationError("Email required") and changes neither map nor counter; otherwise the answer is "user_" + the counter, the counter moves on by one, and the user is stored under that id as sent |
| RecipeUsers.UpdateUserStep | src/actor_recipe.rs:401-419 | a stored id gets the whole new record and Ok(()); otherwise NotFound(id) with nothing changed |
| RecipeUsers.After | src/actor_recipe.rs:314-338 | reads and Shutdown change nothing; no message removes a user; the counter moves on by at most one |
| RecipeUsers.Replay | src/actor_recipe.rs:313-339 | no run removes a user; the counter never goes back and moves at most once per message |
| Mailbox.UntilFirst | src/actor_recipe.rs:313-334 | the index of the first stopping message, or the whole length: a loop that breaks on Shutdown handles exactly the messages before the first one |
| RecipeUsers.ListingLength | src/actor_recipe.rs:423-430 | a listing of the map has exactly as many entries as the map has keys |
| RecipeUsers.AfterKeepsValid | src/actor_recipe.rs:388-391 | every message keeps every key a minted id |
| RecipeUsers.CreateAddsOne | src/actor_recipe.rs:388-391 | a create with an email adds a key that was not present, so the map grows by exactly one |
| RecipeUsers.IssuedConsecutive | src/actor_recipe.rs:388-391 | the successful creates of a run answer user_n, user_(n+1), ... in order, and the counter ends just past the last |
| RecipeUsers.IssuedIdsDistinct | src/actor_recipe.rs:388-391 | no id is answered twice |
| RecipeUsers.CreatedUserKeepsGivenId | src/actor_recipe.rs:129-136 | a user made by `User::new` and created is read back with its empty id field, not the id the create answered |
| RecipeUsers.CountAfterOneCreate | src/actor_recipe.rs:1313-1330 | the count is 0 for a new service and 1 after one create with an email |
| RecipeUsers.UserService.constructor | src/actor_recipe.rs:293-304 | empty map and counter at 1 |
| RecipeUsers.UserService.HandleGetUser | src/actor_recipe.rs:354-365 | the reply is GetUserStep's, and nothing changes |
| RecipeUsers.UserService.HandleCreateUser | src/actor_recipe.rs:377-397 | new state and reply are CreateUserStep's; a successful create adds a new key |
| RecipeUsers.UserService.HandleUpdateUser | src/actor_recipe.rs:401-419 | new state and reply are UpdateUserStep's |
| RecipeUsers.UserService.HandleListUsers | src/actor_recipe.rs:423-430 | the list holds each stored user once, one per key, in some key order, and its length is the map's size |
| RecipeUsers.UserService.Handle | src/actor_recipe.rs:314-338 | one dispatched message: the reply answers the message in the old state, and the new state is the old one after that message; GetUserCount answers the map's size |
| RecipeUsers.UserService.Run | src/actor_recipe.rs:310-344 | replies exactly to the messages before the first Shutdown, each one answered in the state left by the ones before it; nothing after the Shutdown is handled |
| RecipeProducts.NewProduct | src/actor_recipe.rs:146-152 | `Product::new` keeps id, name and price |
| RecipeProducts.DisplayProductError | src/actor_recipe.rs:486-504 | each product error's text; the shortfall text is exactly "Insufficient stock: requested {r}, available {a}", and both numbers read back from it |
| RecipeProducts.Initial | src/actor_recipe.rs:526-535 | a new service has no products and no stock |
| RecipeProducts.GetProductStep | src/actor_recipe.rs:567-585 | the catalogue entry or None, never an error |
| RecipeProducts.CheckStockStep | src/actor_recipe.rs:587-594 | the stored stock level, 0 for an id without one, never an error |
| RecipeProducts.ReserveStockStep | src/actor_recipe.rs:597-633 | succeeds exactly when the id has stock ≥ q, taking q; stock < q answers InsufficientStock{requested: q, available: stock}; no stock entry answers NotFound(id); a failure changes nothing |
| RecipeProducts.Step | src/actor_recipe.rs:542-560 | one reply of the request's own kind; only ReserveStock changes anything; the catalogue and the set of stocked ids never change, and no stock level grows |
| RecipeProducts.Replay | src/actor_recipe.rs:538-562 | one reply per handled message |
| RecipeProducts.ReserveConservesStock | src/actor_recipe.rs:605-608 | the stock left plus the amount taken is the stock there was, and every other id keeps its level |
| RecipeProducts.ReservationsCompose | src/actor_recipe.rs:605-625 | two successful reservations take what one of their sum takes; when the sum is too much the second fails, naming what the first left |
| RecipeProducts.FreshServiceStaysEmpty | src/actor_recipe.rs:519-633 | no message adds products or stock: from a new service Get finds nothing, stock reads 0, every reservation is NotFound, and the maps stay empty |
| RecipeProducts.ProductService.constructor | src/actor_recipe.rs:526-535 | both maps empty |
| RecipeProducts.ProductService.HandleGetProduct | src/actor_recipe.rs:567-585 | the reply is GetProductStep's, and nothing changes |
| RecipeProducts.ProductService.HandleCheckStock | src/actor_recipe.rs:587-594 | the reply is CheckStockStep's, and nothing changes |
| RecipeProducts.ProductService.HandleReserveStock | src/actor_recipe.rs:597-633 | new state and reply are ReserveStockStep's |
| RecipeProducts.ProductService.Run | src/actor_recipe.rs:538-562 | replies exactly to the messages before the first Shutdown; final state and replies are the replay of those messages |

## Left out

- Channels and clients are not modelled: the tokio mpsc/oneshot plumbing, `ResourceClient`, the `client_method!` macro and the client wrappers. A mailbox is a sequence of messages, and a reply is a returned value. `ActorClosed` and `ActorDropped` exist only as variants, since only channel failures produce them.
- Mailbox capacity (`buffer_size`) and backpressure are not modelled: they concern concurrency, not the handlers' logic.
- The id generator is not an injected closure. It is fixed to the counter generator every caller passes (`format!("{prefix}_{}", n)`, starting at 1), with the counter kept in the actor.
- Framework.ResourceActor.Run: the counter is an unbounded `nat`. The `u64` counter (and the recipe's `next_id`) wrapping after 2^64 ids is not modelled.
- RecipeUsers.UserService.Run: the `usize` count of GetUserCount is an unbounded `nat`.
- `f64` prices and totals are kept as opaque bit patterns (`Base.F64`). They are only copied, never computed with.
- Entities are values. A `&mut self` hook is modelled as a function returning the new entity, so aliasing of the entity inside the map is not represented. The store's update in place is modelled by the store field's new value.
- `HashMap` iteration order is left unspecified. `HandleListUsers` promises only some order of the keys, with each key once.
- The error enums of `src/error.rs` and `src/*_actor/error.rs`, and their `Display` texts, are not modelled: no modelled operation returns them, since the entity hooks fail with plain strings and the recipe services define their own error types (`RecipeUsers.UserError`, `RecipeProducts.ProductError`).
- The order service and cross-actor orchestration are not modelled: `OrderService`, `handle_create_order`, `src/actors/mod.rs` and the order client. They are chains of awaited calls on other actors.
- Background handlers, health monitoring and timing are not modelled: they rely on task spawning, sleeping and clocks.
- System startup and shutdown, tracing setup and `main` are not modelled, nor the logging in every handler.
- The test harnesses in `src/mock_framework.rs` and `src/integration_tests.rs` are not modelled. They only drive channels. The tests inside the core files are stated as lemmas instead: `SimpleUser.ActionsScenario` and `RecipeUsers.CountAfterOneCreate`.
