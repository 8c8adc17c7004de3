/** The hand-written user service of the actor recipe: a sequential
    receive loop over a map of users, with email validation, `user_N` id
    minting, whole-record replacement on update and listing. */
module RecipeUsers {
  import opened Base
  import opened Format
  import opened Mailbox

  datatype User = User(id: string, name: string, email: string)

  /** `User::new`: the id starts empty. */
  function NewUser(name: string, email: string): (u: User)
    ensures u.id == "" && u.name == name && u.email == email
  {
    User("", name, email)
  }

  datatype UserError =
    | NotFound(id: string)
    | AlreadyExists(id: string)
    | ValidationError(message: string)
    | DatabaseError(message: string)

  const NotFoundPrefix := "User not found: "
  const AlreadyExistsPrefix := "User already exists: "
  const ValidationPrefix := "User validation error: "
  const DatabasePrefix := "User database error: "

  /** The `Display` text of a user error: a fixed prefix per variant followed
      by the variant's payload. */
  function DisplayUserError(e: UserError): (s: string)
    ensures e.NotFound? ==> s == NotFoundPrefix + e.id
    ensures e.AlreadyExists? ==> s == AlreadyExistsPrefix + e.id
    ensures e.ValidationError? ==> s == ValidationPrefix + e.message
    ensures e.DatabaseError? ==> s == DatabasePrefix + e.message
  {
    match e
    case NotFound(id) => NotFoundPrefix + id
    case AlreadyExists(id) => AlreadyExistsPrefix + id
    case ValidationError(msg) => ValidationPrefix + msg
    case DatabaseError(msg) => DatabasePrefix + msg
  }

  /** The displayed text determines the error: the variants' prefixes differ
      at their sixth character, and the payload is what follows the prefix. */
  lemma DisplayUserErrorInjective(a: UserError, b: UserError)
    requires DisplayUserError(a) == DisplayUserError(b)
    ensures a == b
  {
    var s := DisplayUserError(a);
    var pa := Prefix(a);
    var pb := Prefix(b);
    assert s == pa + Payload(a) && s == pb + Payload(b);
    assert s[5] == pa[5] && s[5] == pb[5];
    assert pa == pb;
    assert Payload(a) == s[|pa|..] == Payload(b);
  }

  function Prefix(e: UserError): string {
    match e
    case NotFound(_) => NotFoundPrefix
    case AlreadyExists(_) => AlreadyExistsPrefix
    case ValidationError(_) => ValidationPrefix
    case DatabaseError(_) => DatabasePrefix
  }

  function Payload(e: UserError): string {
    match e
    case NotFound(id) => id
    case AlreadyExists(id) => id
    case ValidationError(msg) => msg
    case DatabaseError(msg) => msg
  }

  /** The messages the service receives; each but Shutdown carries a reply. */
  datatype UserRequest =
    | GetUser(id: string)
    | CreateUser(user: User)
    | UpdateUser(id: string, user: User)
    | ListUsers
    | Shutdown
    | GetUserCount

  /** The value sent back on a request's response channel. */
  datatype UserReply =
    | GotUser(got: Result<Option<User>, UserError>)
    | CreatedUser(created: Result<string, UserError>)
    | UpdatedUser(updated: Result<(), UserError>)
    | ListedUsers(listed: Result<seq<User>, UserError>)
    | CountedUsers(count: Result<nat, UserError>)

  /** The service's fields: the user map and the id counter. */
  datatype UserState = UserState(users: map<string, User>, nextId: nat)

  /** `UserService::new`: no users, and the counter at 1. */
  function Initial(): (s: UserState)
    ensures s.users == map[] && s.nextId == 1
  {
    UserState(map[], 1)
  }

  /** Every stored key is an id the counter already handed out. */
  ghost predicate Valid(s: UserState) {
    forall id :: id in s.users ==> Minted("user", id, s.nextId)
  }

  /** Lookup: the stored user or `None`, never an error. */
  function GetUserStep(s: UserState, id: string): (r: Result<Option<User>, UserError>)
    ensures r.Ok?
    ensures r.value.Some? <==> id in s.users
    ensures r.value.Some? ==> r.value.value == s.users[id]
  {
    Ok(if id in s.users then Some(s.users[id]) else None)
  }

  /** Creation: an empty email is refused and nothing changes; otherwise the
      user is stored, as it was sent, under "user_" + the counter, which
      then moves on by one. */
  function CreateUserStep(s: UserState, user: User): (t: (UserState, Result<string, UserError>))
    ensures user.email == "" <==> t.1.Err?
    ensures t.1.Err? ==> t == (s, Err(ValidationError("Email required")))
    ensures t.1.Ok? ==>
      && t.1.value == FormatId("user", s.nextId)
      && t.0.nextId == s.nextId + 1
      && t.0.users == s.users[t.1.value := user]
  {
    if user.email == "" then (s, Err(ValidationError("Email required")))
    else
      var id := FormatId("user", s.nextId);
      (UserState(s.users[id := user], s.nextId + 1), Ok(id))
  }

  /** Update: replaces the whole record when the id is stored, and otherwise
      answers NotFound and changes nothing. */
  function UpdateUserStep(s: UserState, id: string, user: User): (t: (UserState, Result<(), UserError>))
    ensures t.1.Ok? <==> id in s.users
    ensures t.1.Ok? ==> t.0 == s.(users := s.users[id := user])
    ensures t.1.Err? ==> t == (s, Err(NotFound(id)))
  {
    if id in s.users then (s.(users := s.users[id := user]), Ok(()))
    else (s, Err(NotFound(id)))
  }

  /** The state after one message. Reads and Shutdown change nothing; no
      message removes a user, and the counter moves by at most one. */
  function After(s: UserState, req: UserRequest): (r: UserState)
    ensures !req.CreateUser? && !req.UpdateUser? ==> r == s
    ensures s.users.Keys <= r.users.Keys
    ensures s.nextId <= r.nextId <= s.nextId + 1
  {
    match req
    case CreateUser(user) => CreateUserStep(s, user).0
    case UpdateUser(id, user) => UpdateUserStep(s, id, user).0
    case _ => s
  }

  /** The state after handling `msgs` in order: no run removes a user or
      winds the counter back. */
  function Replay(s: UserState, msgs: seq<UserRequest>): (r: UserState)
    ensures s.users.Keys <= r.users.Keys
    ensures s.nextId <= r.nextId <= s.nextId + |msgs|
    decreases |msgs|
  {
    if msgs == [] then s else After(Replay(s, msgs[..|msgs| - 1]), msgs[|msgs| - 1])
  }

  /** The message that ends the receive loop. */
  predicate IsShutdown(req: UserRequest) {
    req.Shutdown?
  }

  /** `keys` lists each stored id once, in some order, and `list` holds the
      users stored under them in that order. */
  ghost predicate ListedBy(users: map<string, User>, keys: seq<string>, list: seq<User>) {
    && |keys| == |list|
    && (forall i, j :: 0 <= i < j < |keys| ==> keys[i] != keys[j])
    && (forall id :: id in users <==> id in keys)
    && (forall i :: 0 <= i < |keys| ==> keys[i] in users && list[i] == users[keys[i]])
  }

  /** `list` is the map's values in some iteration order. */
  ghost predicate IsListing(users: map<string, User>, list: seq<User>) {
    exists keys :: ListedBy(users, keys, list)
  }

  /** What the service answers to `req` in state `s`. */
  ghost predicate Answers(s: UserState, req: UserRequest, reply: UserReply) {
    match req
    case GetUser(id) => reply == GotUser(GetUserStep(s, id))
    case CreateUser(user) => reply == CreatedUser(CreateUserStep(s, user).1)
    case UpdateUser(id, user) => reply == UpdatedUser(UpdateUserStep(s, id, user).1)
    case ListUsers => reply.ListedUsers? && reply.listed.Ok? && IsListing(s.users, reply.listed.value)
    case GetUserCount => reply == CountedUsers(Ok(|s.users|))
    case Shutdown => false
  }

  /** Each of `replies` answers its message in the state the messages
      before it left. */
  ghost predicate AnsweredInOrder(s: UserState, msgs: seq<UserRequest>, replies: seq<UserReply>) {
    |replies| <= |msgs| &&
    forall i :: 0 <= i < |replies| ==> Answers(Replay(s, msgs[..i]), msgs[i], replies[i])
  }

  /** Handling one more message of a mailbox is one more `After`. */
  lemma ReplayNext(s: UserState, msgs: seq<UserRequest>, i: nat)
    requires i < |msgs|
    ensures Replay(s, msgs[..i + 1]) == After(Replay(s, msgs[..i]), msgs[i])
  {
    assert msgs[..i + 1][..i] == msgs[..i];
  }

  /** Answering the next message in the state the earlier ones left keeps
      the replies in order. */
  lemma AnsweredInOrderExtend(s: UserState, msgs: seq<UserRequest>, replies: seq<UserReply>, reply: UserReply)
    requires AnsweredInOrder(s, msgs, replies) && |replies| < |msgs|
    requires Answers(Replay(s, msgs[..|replies|]), msgs[|replies|], reply)
    ensures AnsweredInOrder(s, msgs, replies + [reply])
  {
  }

  /** A listing has as many entries as the map has keys. */
  lemma ListingLength(users: map<string, User>, keys: seq<string>, list: seq<User>)
    requires ListedBy(users, keys, list)
    ensures |list| == |users|
  {
    DistinctCard(keys);
    assert users.Keys == set i | 0 <= i < |keys| :: keys[i];
  }

  /** A sequence without repeats has as many elements as its set. */
  lemma {:induction false} DistinctCard(keys: seq<string>)
    requires forall i, j :: 0 <= i < j < |keys| ==> keys[i] != keys[j]
    ensures |set i | 0 <= i < |keys| :: keys[i]| == |keys|
    decreases |keys|
  {
    if keys != [] {
      var init := keys[..|keys| - 1];
      DistinctCard(init);
      var last := keys[|keys| - 1];
      assert (set i | 0 <= i < |keys| :: keys[i]) == (set i | 0 <= i < |init| :: init[i]) + {last};
      assert last !in (set i | 0 <= i < |init| :: init[i]);
    }
  }

  /** Each message keeps every stored key a minted id. */
  lemma AfterKeepsValid(s: UserState, req: UserRequest)
    requires Valid(s)
    ensures Valid(After(s, req))
  {
  }

  /** A successful create never overwrites: the new id is not yet stored,
      so the map grows by exactly one entry. */
  lemma CreateAddsOne(s: UserState, user: User)
    requires Valid(s)
    requires user.email != ""
    ensures var t := CreateUserStep(s, user);
      && t.1.Ok? && t.1.value !in s.users
      && t.0.users.Keys == s.users.Keys + {t.1.value}
      && |t.0.users| == |s.users| + 1
  {
    FreshIdNotMinted("user", s.nextId);
  }

  /** The ids the successful creates among `msgs` hand out, in order. */
  function Issued(s: UserState, msgs: seq<UserRequest>): seq<string>
    decreases |msgs|
  {
    if msgs == [] then []
    else
      var init := msgs[..|msgs| - 1];
      var last := msgs[|msgs| - 1];
      var r := if last.CreateUser? then CreateUserStep(Replay(s, init), last.user).1 else Err(NotFound(""));
      Issued(s, init) + (if r.Ok? then [r.value] else [])
  }

  /** The successful creates hand out consecutive counter values: user_n,
      user_(n+1), ..., and the counter ends just past the last one. */
  lemma {:induction false} IssuedConsecutive(s: UserState, msgs: seq<UserRequest>)
    ensures Replay(s, msgs).nextId == s.nextId + |Issued(s, msgs)|
    ensures forall k :: 0 <= k < |Issued(s, msgs)| ==> Issued(s, msgs)[k] == FormatId("user", s.nextId + k)
    decreases |msgs|
  {
    if msgs != [] {
      IssuedConsecutive(s, msgs[..|msgs| - 1]);
    }
  }

  /** No id is handed out twice. */
  lemma IssuedIdsDistinct(s: UserState, msgs: seq<UserRequest>)
    ensures forall i, j :: 0 <= i < j < |Issued(s, msgs)| ==> Issued(s, msgs)[i] != Issued(s, msgs)[j]
  {
    IssuedConsecutive(s, msgs);
    forall i, j | 0 <= i < j < |Issued(s, msgs)|
      ensures Issued(s, msgs)[i] != Issued(s, msgs)[j]
    {
      FormatIdInjective("user", s.nextId + i, s.nextId + j);
    }
  }

  /** The stored record keeps the id field it was sent with: `User::new`
      leaves it empty and create does not fill it in, so Get on the new id
      answers a user whose `id` is "". */
  lemma CreatedUserKeepsGivenId(s: UserState, name: string, email: string)
    requires email != ""
    ensures var t := CreateUserStep(s, NewUser(name, email));
      && t.1.Ok?
      && GetUserStep(t.0, t.1.value) == Ok(Some(User("", name, email)))
  {
  }

  /** The count the service reports: none at first, one after creating a
      user with an email. */
  lemma CountAfterOneCreate(name: string, email: string)
    requires email != ""
    ensures |Replay(Initial(), []).users| == 0
    ensures |Replay(Initial(), [CreateUser(NewUser(name, email))]).users| == 1
  {
  }

  /** The user service: it owns the map and the counter and handles one
      message at a time. */
  class UserService {
    var users: map<string, User>
    var nextId: nat

    function State(): UserState
      reads this
    {
      UserState(users, nextId)
    }

    ghost predicate Inv()
      reads this
    {
      Valid(State())
    }

    constructor ()
      ensures State() == Initial() && Inv()
    {
      users := map[];
      nextId := 1;
    }

    method HandleGetUser(id: string) returns (reply: Result<Option<User>, UserError>)
      ensures reply == GetUserStep(State(), id)
    {
      reply := Ok(if id in users then Some(users[id]) else None);
    }

    method HandleCreateUser(user: User) returns (reply: Result<string, UserError>)
      requires Inv()
      modifies this
      ensures Inv()
      ensures (State(), reply) == CreateUserStep(old(State()), user)
      ensures reply.Ok? ==> reply.value !in old(users) && |users| == |old(users)| + 1
    {
      if user.email == "" {
        reply := Err(ValidationError("Email required"));
      } else {
        FreshIdNotMinted("user", nextId);
        AfterKeepsValid(State(), CreateUser(user));
        var id := FormatId("user", nextId);
        nextId := nextId + 1;
        users := users[id := user];
        reply := Ok(id);
      }
    }

    method HandleUpdateUser(id: string, user: User) returns (reply: Result<(), UserError>)
      requires Inv()
      modifies this
      ensures Inv()
      ensures (State(), reply) == UpdateUserStep(old(State()), id, user)
    {
      if id in users {
        users := users[id := user];
        reply := Ok(());
      } else {
        reply := Err(NotFound(id));
      }
    }

    /** Collects the stored users, one per key, in the map's iteration
        order (`keys`). */
    method HandleListUsers() returns (list: seq<User>, ghost keys: seq<string>)
      ensures ListedBy(users, keys, list)
      ensures |list| == |users|
    {
      var remaining := users.Keys;
      list, keys := [], [];
      while remaining != {}
        invariant remaining <= users.Keys
        invariant |keys| == |list|
        invariant forall i, j :: 0 <= i < j < |keys| ==> keys[i] != keys[j]
        invariant forall i :: 0 <= i < |keys| ==> keys[i] in users && keys[i] !in remaining && list[i] == users[keys[i]]
        invariant forall id :: id in users ==> (id in remaining <==> id !in keys)
        decreases |remaining|
      {
        var id :| id in remaining;
        list, keys := list + [users[id]], keys + [id];
        remaining := remaining - {id};
      }
      ListingLength(users, keys, list);
    }

    /** One pass of the receive loop for a message other than Shutdown. */
    method Handle(req: UserRequest) returns (reply: UserReply)
      requires Inv() && !req.Shutdown?
      modifies this
      ensures Inv()
      ensures State() == After(old(State()), req)
      ensures Answers(old(State()), req, reply)
    {
      match req {
        case GetUser(id) =>
          var r := HandleGetUser(id);
          reply := GotUser(r);
        case CreateUser(user) =>
          var r := HandleCreateUser(user);
          reply := CreatedUser(r);
        case UpdateUser(id, user) =>
          var r := HandleUpdateUser(id, user);
          reply := UpdatedUser(r);
        case ListUsers =>
          var list;
          ghost var keys;
          list, keys := HandleListUsers();
          reply := ListedUsers(Ok(list));
        case GetUserCount =>
          reply := CountedUsers(Ok(|users|));
      }
    }

    /** The receive loop: handles messages in order until the first
        Shutdown, which ends it without a reply; later messages are never
        handled. */
    method Run(mailbox: seq<UserRequest>) returns (replies: seq<UserReply>)
      requires Inv()
      modifies this
      ensures Inv()
      ensures |replies| == UntilFirst(mailbox, IsShutdown)
      ensures State() == Replay(old(State()), mailbox[..|replies|])
      ensures AnsweredInOrder(old(State()), mailbox, replies)
    {
      replies := [];
      var i := 0;
      while i < |mailbox|
        invariant i <= |mailbox| && |replies| == i
        invariant forall j :: 0 <= j < i ==> !IsShutdown(mailbox[j])
        invariant Inv()
        invariant State() == Replay(old(State()), mailbox[..i])
        invariant AnsweredInOrder(old(State()), mailbox, replies)
      {
        if mailbox[i].Shutdown? {
          break;
        }
        var reply := Handle(mailbox[i]);
        AnsweredInOrderExtend(old(State()), mailbox, replies, reply);
        ReplayNext(old(State()), mailbox, i);
        replies := replies + [reply];
        i := i + 1;
      }
      assert UntilFirst(mailbox, IsShutdown) == i;
    }
  }
}
