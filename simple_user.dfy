/** The `SimpleUser` entity the generic actor's own test drives: creation
    with defaults, a name patch, and the PromoteToAdmin / Rename actions. */
module SimpleUser {
  import opened Base
  import opened Format
  import Framework

  datatype SimpleUser = SimpleUser(id: string, name: string, isAdmin: bool, createdAt: U64)

  datatype SimpleUserCreate = SimpleUserCreate(name: string)

  datatype SimpleUserPatch = SimpleUserPatch(name: Option<string>)

  datatype UserAction = PromoteToAdmin | Rename(newName: string)

  /** The creation timestamp every new user gets. */
  const CreatedAt: U64 := 100

  /** A new user is never an admin and carries the fixed timestamp. */
  function FromCreate(id: string, payload: SimpleUserCreate): (r: Result<SimpleUser, string>)
    ensures r.Ok?
    ensures r.value.id == id && r.value.name == payload.name
    ensures !r.value.isAdmin && r.value.createdAt == CreatedAt
  {
    Ok(SimpleUser(id, payload.name, false, CreatedAt))
  }

  /** Replaces the name when the patch carries one; never fails. */
  function OnUpdate(u: SimpleUser, patch: SimpleUserPatch): (r: (SimpleUser, Result<(), string>))
    ensures r.1 == Ok(())
    ensures r.0 == u.(name := patch.name.UnwrapOr(u.name))
  {
    if patch.name.Some? then (u.(name := patch.name.value), Ok(())) else (u, Ok(()))
  }

  /** PromoteToAdmin answers whether it changed anything and leaves an admin;
      Rename always answers `true`. Neither fails. */
  function HandleAction(u: SimpleUser, action: UserAction): (r: (SimpleUser, Result<bool, string>))
    ensures r.1.Ok?
    ensures action.PromoteToAdmin? ==> r.0 == u.(isAdmin := true) && r.1.value == !u.isAdmin
    ensures action.Rename? ==> r.0 == u.(name := action.newName) && r.1.value
  {
    match action
    case PromoteToAdmin =>
      if u.isAdmin then (u, Ok(false)) else (u.(isAdmin := true), Ok(true))
    case Rename(newName) => (u.(name := newName), Ok(true))
  }

  /** The entity's capability set, built from this module's functions. It
      keeps the trait's default `on_create` and `on_delete`: a built entity
      is stored as built, and a delete is never vetoed. */
  function Hooks(): (h: Framework.Hooks<SimpleUser, SimpleUserCreate, SimpleUserPatch, UserAction, bool>)
    ensures forall e :: h.onCreate(e) == (e, Ok(())) && h.onDelete(e) == Ok(())
  {
    Framework.Hooks(
      (id, payload) => FromCreate(id, payload),
      u => Framework.DefaultOnCreate(u),
      (u, patch) => OnUpdate(u, patch),
      u => Framework.DefaultOnDelete(u),
      (u, action) => HandleAction(u, action))
  }

  /** Promoting twice: the first call reports a change, the second does not,
      and the second leaves the user as the first left it. */
  lemma PromoteTwice(u: SimpleUser)
    requires !u.isAdmin
    ensures var first := HandleAction(u, PromoteToAdmin);
      var second := HandleAction(first.0, PromoteToAdmin);
      && first.1 == Ok(true) && second.1 == Ok(false) && second.0 == first.0
  {
  }

  /** The actor-level scenario: create "Alice" as user_1, promote (true), get
      shows an admin, promote again (false), rename to "Bob" through an
      update, delete, and get finds nothing. */
  lemma ActionsScenario()
    ensures
      var h := Hooks();
      var t1 := Framework.Step(h, "user", Framework.Initial(), Framework.Create(SimpleUserCreate("Alice")));
      var t2 := Framework.Step(h, "user", t1.state, Framework.Action("user_1", PromoteToAdmin));
      var t3 := Framework.Step(h, "user", t2.state, Framework.Get("user_1"));
      var t4 := Framework.Step(h, "user", t3.state, Framework.Action("user_1", PromoteToAdmin));
      var t5 := Framework.Step(h, "user", t4.state, Framework.Update("user_1", SimpleUserPatch(Some("Bob"))));
      var t6 := Framework.Step(h, "user", t5.state, Framework.Delete("user_1"));
      var t7 := Framework.Step(h, "user", t6.state, Framework.Get("user_1"));
      && t1.reply == Framework.Created(Ok("user_1"))
      && t2.reply == Framework.Acted(Ok(true))
      && t3.reply == Framework.Got(Ok(Some(SimpleUser("user_1", "Alice", true, CreatedAt))))
      && t4.reply == Framework.Acted(Ok(false))
      && t5.reply == Framework.Updated(Ok(SimpleUser("user_1", "Bob", true, CreatedAt)))
      && t6.reply == Framework.Deleted(Ok(()))
      && t7.reply == Framework.Got(Ok(None))
  {
    var h := Hooks();
    var id := "user_1";
    assert FormatId("user", 1) == id by {
      assert Decimal(1) == "1" by { assert DigitChar(1) == '1'; }
    }
    var alice := SimpleUser(id, "Alice", false, CreatedAt);
    var admin := alice.(isAdmin := true);
    var bob := admin.(name := "Bob");
    var t1 := Framework.Step(h, "user", Framework.Initial(), Framework.Create(SimpleUserCreate("Alice")));
    assert t1.state.store == map[id := alice] && t1.reply == Framework.Created(Ok(id)) by {
      assert Framework.Construct(h, id, SimpleUserCreate("Alice")) == Ok(alice);
    }
    var t2 := Framework.Step(h, "user", t1.state, Framework.Action(id, PromoteToAdmin));
    assert t2.state.store == map[id := admin] && t2.reply == Framework.Acted(Ok(true)) by {
      assert h.handleAction(alice, PromoteToAdmin) == (admin, Ok(true));
    }
    var t3 := Framework.Step(h, "user", t2.state, Framework.Get(id));
    assert t3.state == t2.state && t3.reply == Framework.Got(Ok(Some(admin)));
    var t4 := Framework.Step(h, "user", t3.state, Framework.Action(id, PromoteToAdmin));
    assert t4.state == t2.state && t4.reply == Framework.Acted(Ok(false)) by {
      assert h.handleAction(admin, PromoteToAdmin) == (admin, Ok(false));
      assert t2.state.store[id := admin] == t2.state.store;
    }
    var t5 := Framework.Step(h, "user", t4.state, Framework.Update(id, SimpleUserPatch(Some("Bob"))));
    assert t5.state.store == map[id := bob] && t5.reply == Framework.Updated(Ok(bob)) by {
      assert h.onUpdate(admin, SimpleUserPatch(Some("Bob"))) == (bob, Ok(()));
    }
    var t6 := Framework.Step(h, "user", t5.state, Framework.Delete(id));
    assert t6.reply == Framework.Deleted(Ok(()));
    assert t6.state.store == map[];
  }
}
