/** The later `Entity` implementation for `User` (`from_create_params` /
    `UpdateParams`), the one the user actor of the running system manages. */
module UserActorEntity {
  import opened Base
  import opened Domain
  import Framework
  import UserEntity

  /** Always succeeds, copying the minted id and the parameters. */
  function FromCreateParams(id: string, params: UserCreate): (r: Result<User, string>)
    ensures r == Ok(User(id, params.name, params.email))
  {
    Ok(User(id, params.name, params.email))
  }

  /** Overwrites name and/or email for the `Some` fields; always Ok. */
  function OnUpdate(u: User, update: UserUpdate): (r: (User, Result<(), string>))
    ensures r.1.Ok?
    ensures r.0.id == u.id
    ensures r.0.name == (if update.name.Some? then update.name.value else u.name)
    ensures r.0.email == (if update.email.Some? then update.email.value else u.email)
  {
    var u1 := if update.name.Some? then u.(name := update.name.value) else u;
    var u2 := if update.email.Some? then u1.(email := update.email.value) else u1;
    (u2, Ok(()))
  }

  /** No custom actions: the unit action changes nothing. */
  function HandleAction(u: User, action: ()): (r: (User, Result<(), string>))
    ensures r.0 == u && r.1.Ok?
  {
    (u, Ok(()))
  }

  /** The entity's capability set, built from this module's functions. It
      keeps the trait's default `on_create` and `on_delete`: a built entity
      is stored as built, and a delete is never vetoed. */
  function Hooks(): (h: Framework.Hooks<User, UserCreate, UserUpdate, (), ()>)
    ensures forall e :: h.onCreate(e) == (e, Ok(())) && h.onDelete(e) == Ok(())
  {
    Framework.Hooks(
      (id, params) => FromCreateParams(id, params),
      u => Framework.DefaultOnCreate(u),
      (u, update) => OnUpdate(u, update),
      u => Framework.DefaultOnDelete(u),
      (u, action) => HandleAction(u, action))
  }

  /** The two generations of the User entity behave identically. */
  lemma AgreesWithEarlierGeneration(id: string, params: UserCreate, u: User, update: UserUpdate)
    ensures FromCreateParams(id, params) == UserEntity.FromCreate(id, params)
    ensures OnUpdate(u, update) == UserEntity.OnUpdate(u, update)
    ensures HandleAction(u, ()) == UserEntity.HandleAction(u, ())
  {
  }

  /** The unit action through the actor answers Ok for a stored user and
      leaves the whole state as it was. */
  lemma ActionIsInert(s: Framework.ActorState<User>, id: string)
    requires id in s.store
    ensures Framework.ActionStep(Hooks(), s, id, ()) == Framework.Transition(s, Ok(()))
  {
  }
}
