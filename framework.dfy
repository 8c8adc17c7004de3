/** The generic resource actor: an entity capability set, the request
    protocol, the per-message transition of the store, and the actor object
    whose receive loop applies it to each request in turn. */
module Framework {
  import opened Base
  import opened Format

  /** Errors of the framework itself. `ActorClosed` and `ActorDropped` only
      arise on the channel, which is not part of this model. */
  datatype FrameworkError = ActorClosed | ActorDropped | NotFound(id: string) | Custom(message: string)

  /** The messages the derived `Display` prints. */
  function DisplayFrameworkError(e: FrameworkError): (s: string)
    ensures e.NotFound? ==> s == "Item not found: " + e.id
    ensures e.Custom? ==> s == "Custom error: " + e.message
    ensures e.ActorClosed? ==> s == "Actor closed"
    ensures e.ActorDropped? ==> s == "Actor dropped response channel"
  {
    match e
    case ActorClosed => "Actor closed"
    case ActorDropped => "Actor dropped response channel"
    case NotFound(id) => "Item not found: " + id
    case Custom(message) => "Custom error: " + message
  }

  /** The `Entity` capability set of an entity type `T` with create payload
      `C`, patch `P`, action `A` and action result `R`. A hook that takes
      `&mut self` is a function from the entity to its new value paired with
      the hook's result. */
  datatype Hooks<!T, !C, !P, !A, R> = Hooks(
    fromCreate: (string, C) -> Result<T, string>,
    onCreate: T -> (T, Result<(), string>),
    onUpdate: (T, P) -> (T, Result<(), string>),
    onDelete: T -> Result<(), string>,
    handleAction: (T, A) -> (T, Result<R, string>))

  /** The trait's default `on_create`: succeeds and changes nothing. */
  function DefaultOnCreate<T>(item: T): (r: (T, Result<(), string>))
    ensures r.0 == item && r.1.Ok?
  {
    (item, Ok(()))
  }

  /** The trait's default `on_delete`: never vetoes a delete. */
  function DefaultOnDelete<T>(item: T): (r: Result<(), string>)
    ensures r.Ok?
  {
    Ok(())
  }

  /** One message of the protocol, without its reply channel. */
  datatype Request<C, P, A> =
    | Create(payload: C)
    | Get(id: string)
    | Update(id: string, patch: P)
    | Delete(id: string)
    | Action(id: string, action: A)

  /** The value sent on a request's reply channel. */
  datatype Reply<T, R> =
    | Created(created: Result<string, FrameworkError>)
    | Got(got: Result<Option<T>, FrameworkError>)
    | Updated(updated: Result<T, FrameworkError>)
    | Deleted(deleted: Result<(), FrameworkError>)
    | Acted(acted: Result<R, FrameworkError>)

  /** The actor's store, and the counter of its id generator. */
  datatype ActorState<T> = ActorState(store: map<string, T>, next: nat)

  /** The state after one message, and the reply sent for it. */
  datatype Transition<T, X> = Transition(state: ActorState<T>, reply: X)

  /** The state a freshly constructed actor starts from: an empty store and a
      generator whose counter starts at 1. */
  function Initial<T>(): (s: ActorState<T>)
    ensures s.store == map[] && s.next == 1
  {
    ActorState(map[], 1)
  }

  /** What `from_create` followed by `on_create` yield: the entity to store,
      or the first failure. */
  function Construct<T, C, P, A, R>(h: Hooks<T, C, P, A, R>, id: string, payload: C): Result<T, string> {
    match h.fromCreate(id, payload)
    case Err(e) => Err(e)
    case Ok(item) =>
      var (created, outcome) := h.onCreate(item);
      if outcome.Err? then Err(outcome.error) else Ok(created)
  }

  /** Create: mint an id (always consuming it), build the entity, and store it
      only when both hooks succeed. */
  function CreateStep<T, C, P, A, R>(h: Hooks<T, C, P, A, R>, prefix: string, s: ActorState<T>, payload: C)
    : (t: Transition<T, Result<string, FrameworkError>>)
    ensures t.state.next == s.next + 1
    ensures t.reply.Ok? <==> Construct(h, FormatId(prefix, s.next), payload).Ok?
    ensures t.reply.Ok? ==>
      && t.reply.value == FormatId(prefix, s.next)
      && t.state.store == s.store[t.reply.value := Construct(h, t.reply.value, payload).value]
    ensures t.reply.Err? ==>
      && t.state.store == s.store
      && t.reply.error == Custom(Construct(h, FormatId(prefix, s.next), payload).error)
  {
    var id := FormatId(prefix, s.next);
    var minted := s.(next := s.next + 1);
    match h.fromCreate(id, payload)
    case Err(e) => Transition(minted, Err(Custom(e)))
    case Ok(item) =>
      var (created, outcome) := h.onCreate(item);
      if outcome.Err? then Transition(minted, Err(Custom(outcome.error)))
      else Transition(minted.(store := s.store[id := created]), Ok(id))
  }

  /** Get: the stored entity if there is one; absence is not an error. */
  function GetStep<T>(s: ActorState<T>, id: string): (r: Result<Option<T>, FrameworkError>)
    ensures r.Ok?
    ensures r.value.Some? <==> id in s.store
    ensures r.value.Some? ==> r.value.value == s.store[id]
  {
    Ok(if id in s.store then Some(s.store[id]) else None)
  }

  /** Update: `on_update` in place; the reply is the entity as now stored, or
      the hook's failure, which leaves whatever the hook did in the store. */
  function UpdateStep<T, C, P, A, R>(h: Hooks<T, C, P, A, R>, s: ActorState<T>, id: string, patch: P)
    : (t: Transition<T, Result<T, FrameworkError>>)
    ensures id !in s.store ==> t == Transition(s, Err(NotFound(id)))
    ensures id in s.store ==>
      && t.state == s.(store := s.store[id := h.onUpdate(s.store[id], patch).0])
      && (t.reply.Ok? <==> h.onUpdate(s.store[id], patch).1.Ok?)
      && (t.reply.Ok? ==> t.reply.value == t.state.store[id])
      && (t.reply.Err? ==> t.reply.error == Custom(h.onUpdate(s.store[id], patch).1.error))
  {
    if id in s.store then
      var (updated, outcome) := h.onUpdate(s.store[id], patch);
      var s' := s.(store := s.store[id := updated]);
      if outcome.Err? then Transition(s', Err(Custom(outcome.error)))
      else Transition(s', Ok(updated))
    else
      Transition(s, Err(NotFound(id)))
  }

  /** Delete: remove the entry unless `on_delete` vetoes it. */
  function DeleteStep<T, C, P, A, R>(h: Hooks<T, C, P, A, R>, s: ActorState<T>, id: string)
    : (t: Transition<T, Result<(), FrameworkError>>)
    ensures id !in s.store ==> t == Transition(s, Err(NotFound(id)))
    ensures id in s.store ==> (t.reply.Ok? <==> h.onDelete(s.store[id]).Ok?)
    ensures t.reply.Ok? ==> t.state == s.(store := s.store - {id}) && id in s.store
    ensures id in s.store && t.reply.Err? ==>
      t == Transition(s, Err(Custom(h.onDelete(s.store[id]).error)))
  {
    if id in s.store then
      var outcome := h.onDelete(s.store[id]);
      if outcome.Err? then Transition(s, Err(Custom(outcome.error)))
      else Transition(s.(store := s.store - {id}), Ok(()))
    else
      Transition(s, Err(NotFound(id)))
  }

  /** Action: `handle_action` in place; its result is passed on with failures
      wrapped as `Custom`, and only the targeted entry can change. */
  function ActionStep<T, C, P, A, R>(h: Hooks<T, C, P, A, R>, s: ActorState<T>, id: string, action: A)
    : (t: Transition<T, Result<R, FrameworkError>>)
    ensures id !in s.store ==> t == Transition(s, Err(NotFound(id)))
    ensures id in s.store ==>
      && t.state == s.(store := s.store[id := h.handleAction(s.store[id], action).0])
      && (t.reply.Ok? <==> h.handleAction(s.store[id], action).1.Ok?)
      && (t.reply.Ok? ==> t.reply.value == h.handleAction(s.store[id], action).1.value)
      && (t.reply.Err? ==> t.reply.error == Custom(h.handleAction(s.store[id], action).1.error))
  {
    if id in s.store then
      var (acted, result) := h.handleAction(s.store[id], action);
      var reply := match result
        case Ok(v) => Ok(v)
        case Err(e) => Err(Custom(e));
      Transition(s.(store := s.store[id := acted]), reply)
    else
      Transition(s, Err(NotFound(id)))
  }

  /** One pass of the receive loop: exactly one operation, exactly one reply. */
  function Step<T, C, P, A, R>(h: Hooks<T, C, P, A, R>, prefix: string, s: ActorState<T>, req: Request<C, P, A>)
    : (t: Transition<T, Reply<T, R>>)
    ensures t.reply.Created? == req.Create? && t.reply.Got? == req.Get? && t.reply.Updated? == req.Update?
    ensures t.reply.Deleted? == req.Delete? && t.reply.Acted? == req.Action?
    ensures t.state.next == if req.Create? then s.next + 1 else s.next
    ensures req.Get? ==> t.state == s
    ensures !req.Create? ==> t.state.store.Keys <= s.store.Keys
  {
    match req
    case Create(payload) =>
      var t := CreateStep(h, prefix, s, payload); Transition(t.state, Created(t.reply))
    case Get(id) =>
      Transition(s, Got(GetStep(s, id)))
    case Update(id, patch) =>
      var t := UpdateStep(h, s, id, patch); Transition(t.state, Updated(t.reply))
    case Delete(id) =>
      var t := DeleteStep(h, s, id); Transition(t.state, Deleted(t.reply))
    case Action(id, action) =>
      var t := ActionStep(h, s, id, action); Transition(t.state, Acted(t.reply))
  }

  /** The receive loop over a mailbox's messages, in order: the final state
      and the replies sent. */
  function Replay<T, C, P, A, R>(h: Hooks<T, C, P, A, R>, prefix: string, s: ActorState<T>, msgs: seq<Request<C, P, A>>)
    : (t: Transition<T, seq<Reply<T, R>>>)
    ensures |t.reply| == |msgs|
    ensures t.state.next >= s.next
    decreases |msgs|
  {
    if msgs == [] then Transition(s, [])
    else
      var before := Replay(h, prefix, s, msgs[..|msgs| - 1]);
      var t := Step(h, prefix, before.state, msgs[|msgs| - 1]);
      Transition(t.state, before.reply + [t.reply])
  }

  /** Every key of the store was minted by the generator. */
  ghost predicate AllMinted<T>(prefix: string, s: ActorState<T>) {
    forall id :: id in s.store ==> Minted(prefix, id, s.next)
  }

  /** The next id the generator mints is not yet a key of the store. */
  lemma FreshIdUnused<T>(prefix: string, s: ActorState<T>)
    requires AllMinted(prefix, s)
    ensures FormatId(prefix, s.next) !in s.store
  {
    FreshIdNotMinted(prefix, s.next);
  }

  /** Every message keeps every key a minted one. */
  lemma StepKeepsMinted<T, C, P, A, R>(h: Hooks<T, C, P, A, R>, prefix: string, s: ActorState<T>, req: Request<C, P, A>)
    requires AllMinted(prefix, s)
    ensures AllMinted(prefix, Step(h, prefix, s, req).state)
  {
  }

  /** The actor: it owns the store and its id generator, and handles one
      request at a time. */
  class ResourceActor<T, C, P, A, R> {
    const hooks: Hooks<T, C, P, A, R>
    /** The label of the injected counter generator: it mints prefix_1, prefix_2, ... */
    const prefix: string
    var store: map<string, T>
    var next: nat

    function State(): ActorState<T>
      reads this
    {
      ActorState(store, next)
    }

    ghost predicate Valid()
      reads this
    {
      AllMinted(prefix, State())
    }

    constructor (prefix: string, hooks: Hooks<T, C, P, A, R>)
      ensures this.prefix == prefix && this.hooks == hooks
      ensures State() == Initial() && Valid()
    {
      this.prefix := prefix;
      this.hooks := hooks;
      store := map[];
      next := 1;
    }

    method Create(payload: C) returns (reply: Result<string, FrameworkError>)
      requires Valid()
      modifies this
      ensures Valid()
      ensures Transition(State(), reply) == CreateStep(hooks, prefix, old(State()), payload)
      ensures reply.Ok? ==> reply.value !in old(store) && |store| == |old(store)| + 1
    {
      FreshIdUnused(prefix, State());
      ghost var t := CreateStep(hooks, prefix, State(), payload);
      StepKeepsMinted(hooks, prefix, State(), Request<C, P, A>.Create(payload));
      var id := FormatId(prefix, next);
      next := next + 1;
      match hooks.fromCreate(id, payload) {
        case Err(e) =>
          reply := Err(Custom(e));
        case Ok(item) =>
          var (created, outcome) := hooks.onCreate(item);
          if outcome.Err? {
            reply := Err(Custom(outcome.error));
            return;
          }
          store := store[id := created];
          reply := Ok(id);
      }
    }

    method Get(id: string) returns (reply: Result<Option<T>, FrameworkError>)
      ensures reply == GetStep(State(), id)
    {
      reply := Ok(if id in store then Some(store[id]) else None);
    }

    method Update(id: string, patch: P) returns (reply: Result<T, FrameworkError>)
      requires Valid()
      modifies this
      ensures Valid()
      ensures Transition(State(), reply) == UpdateStep(hooks, old(State()), id, patch)
    {
      StepKeepsMinted(hooks, prefix, State(), Request<C, P, A>.Update(id, patch));
      if id in store {
        var (updated, outcome) := hooks.onUpdate(store[id], patch);
        store := store[id := updated];
        if outcome.Err? {
          reply := Err(Custom(outcome.error));
          return;
        }
        reply := Ok(updated);
      } else {
        reply := Err(NotFound(id));
      }
    }

    method Delete(id: string) returns (reply: Result<(), FrameworkError>)
      requires Valid()
      modifies this
      ensures Valid()
      ensures Transition(State(), reply) == DeleteStep(hooks, old(State()), id)
    {
      StepKeepsMinted(hooks, prefix, State(), Request<C, P, A>.Delete(id));
      if id in store {
        var outcome := hooks.onDelete(store[id]);
        if outcome.Err? {
          reply := Err(Custom(outcome.error));
          return;
        }
        store := store - {id};
        reply := Ok(());
      } else {
        reply := Err(NotFound(id));
      }
    }

    method Action(id: string, action: A) returns (reply: Result<R, FrameworkError>)
      requires Valid()
      modifies this
      ensures Valid()
      ensures Transition(State(), reply) == ActionStep(hooks, old(State()), id, action)
    {
      StepKeepsMinted(hooks, prefix, State(), Request<C, P, A>.Action(id, action));
      if id in store {
        var (acted, result) := hooks.handleAction(store[id], action);
        store := store[id := acted];
        match result {
          case Ok(v) => reply := Ok(v);
          case Err(e) => reply := Err(Custom(e));
        }
      } else {
        reply := Err(NotFound(id));
      }
    }

    /** Dispatches one dequeued request to its operation. */
    method Handle(req: Request<C, P, A>) returns (reply: Reply<T, R>)
      requires Valid()
      modifies this
      ensures Valid()
      ensures Transition(State(), reply) == Step(hooks, prefix, old(State()), req)
    {
      match req {
        case Create(payload) =>
          var r := Create(payload);
          reply := Created(r);
        case Get(id) =>
          var r := Get(id);
          reply := Got(r);
        case Update(id, patch) =>
          var r := Update(id, patch);
          reply := Updated(r);
        case Delete(id) =>
          var r := Delete(id);
          reply := Deleted(r);
        case Action(id, action) =>
          var r := Action(id, action);
          reply := Acted(r);
      }
    }

    /** The receive loop: takes the mailbox's messages in order until the
        mailbox is closed (the end of the sequence), one reply per message. */
    method Run(mailbox: seq<Request<C, P, A>>) returns (replies: seq<Reply<T, R>>)
      requires Valid()
      modifies this
      ensures Valid()
      ensures Transition(State(), replies) == Replay(hooks, prefix, old(State()), mailbox)
    {
      replies := [];
      var i := 0;
      while i < |mailbox|
        invariant 0 <= i <= |mailbox|
        invariant Valid()
        invariant Transition(State(), replies) == Replay(hooks, prefix, old(State()), mailbox[..i])
      {
        var reply := Handle(mailbox[i]);
        assert mailbox[..i + 1][..i] == mailbox[..i];
        replies := replies + [reply];
        i := i + 1;
      }
      assert mailbox[..i] == mailbox;
    }
  }
}
