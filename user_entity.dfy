/** The earlier `Entity` implementation for `User` (`from_create` /
    `Patch`): a record of name and email with partial updates and no
    custom actions. */
module UserEntity {
  import opened Base
  import opened Domain
  import Framework

  /** `id()`: the key the entity is stored under, which an update does not
      change. */
  function Id(u: User): (r: string)
    ensures forall patch :: OnUpdate(u, patch).0.id == r
  {
    u.id
  }

  /** Always succeeds; the new user carries the minted id. */
  function FromCreate(id: string, payload: UserCreate): (r: Result<User, string>)
    ensures r.Ok? && Id(r.value) == id
    ensures r.value.name == payload.name && r.value.email == payload.email
  {
    Ok(User(id, payload.name, payload.email))
  }

  /** Each `Some` field of the patch replaces the user's field; the id never
      changes and the update never fails. */
  function OnUpdate(u: User, patch: UserPatch): (r: (User, Result<(), string>))
    ensures r.1 == Ok(())
    ensures r.0 == User(u.id, patch.name.UnwrapOr(u.name), patch.email.UnwrapOr(u.email))
  {
    var u1 := if patch.name.Some? then u.(name := patch.name.value) else u;
    var u2 := if patch.email.Some? then u1.(email := patch.email.value) else u1;
    (u2, Ok(()))
  }

  /** Users have no custom actions: the unit action changes nothing. */
  function HandleAction(u: User, action: ()): (r: (User, Result<(), string>))
    ensures r == (u, Ok(()))
  {
    (u, Ok(()))
  }

  /** The entity's capability set, built from this module's functions. It
      keeps the trait's default `on_create` and `on_delete`: a built entity
      is stored as built, and a delete is never vetoed. */
  function Hooks(): (h: Framework.Hooks<User, UserCreate, UserPatch, (), ()>)
    ensures forall e :: h.onCreate(e) == (e, Ok(())) && h.onDelete(e) == Ok(())
  {
    Framework.Hooks(
      (id, payload) => FromCreate(id, payload),
      u => Framework.DefaultOnCreate(u),
      (u, patch) => OnUpdate(u, patch),
      u => Framework.DefaultOnDelete(u),
      (u, action) => HandleAction(u, action))
  }

  /** The patch that has the effect of `first` followed by `second`: the
      later patch's `Some` fields win. */
  function ThenPatch(first: UserPatch, second: UserPatch): UserPatch {
    UserPatch(
      if second.name.Some? then second.name else first.name,
      if second.email.Some? then second.email else first.email)
  }

  /** Two successive updates are one update with the combined patch, and
      repeating a patch changes nothing more. */
  lemma UpdatesCompose(u: User, first: UserPatch, second: UserPatch)
    ensures OnUpdate(OnUpdate(u, first).0, second).0 == OnUpdate(u, ThenPatch(first, second)).0
    ensures OnUpdate(OnUpdate(u, first).0, first) == OnUpdate(u, first)
  {
  }

  /** Through the actor, an update of a stored user answers the patched
      record and stores it under the same id. */
  lemma UpdateThroughActor(s: Framework.ActorState<User>, id: string, patch: UserPatch)
    requires id in s.store
    ensures var t := Framework.UpdateStep(Hooks(), s, id, patch);
      && t.reply == Ok(OnUpdate(s.store[id], patch).0)
      && t.state.store == s.store[id := OnUpdate(s.store[id], patch).0]
      && t.state.store[id].id == s.store[id].id
  {
  }
}
