/** Properties of the resource actor over one message and over whole runs
    of its receive loop. */
module FrameworkLemmas {
  import opened Base
  import opened Format
  import opened Framework

  /** The reply is of the kind the request asks for. */
  predicate AnswersKind<C, P, A, T, R>(req: Request<C, P, A>, reply: Reply<T, R>) {
    match req
    case Create(_) => reply.Created?
    case Get(_) => reply.Got?
    case Update(_, _) => reply.Updated?
    case Delete(_) => reply.Deleted?
    case Action(_, _) => reply.Acted?
  }

  /** The number of Create requests among `msgs`. */
  function CountCreates<C, P, A>(msgs: seq<Request<C, P, A>>): (n: nat)
    ensures n <= |msgs|
    decreases |msgs|
  {
    if msgs == [] then 0
    else CountCreates(msgs[..|msgs| - 1]) + (if msgs[|msgs| - 1].Create? then 1 else 0)
  }

  /** The id a reply hands out, when it is a successful Create. */
  function CreatedId<T, R>(reply: Reply<T, R>): Option<string> {
    if reply.Created? && reply.created.Ok? then Some(reply.created.value) else None
  }

  /** Every dequeued message gets exactly one reply, of its own kind, and the
      generator is called exactly once per Create. */
  lemma {:induction false} ReplayShape<T, C, P, A, R>(h: Hooks<T, C, P, A, R>, prefix: string, s: ActorState<T>, msgs: seq<Request<C, P, A>>)
    ensures |Replay(h, prefix, s, msgs).reply| == |msgs|
    ensures forall i :: 0 <= i < |msgs| ==> AnswersKind(msgs[i], Replay(h, prefix, s, msgs).reply[i])
    ensures Replay(h, prefix, s, msgs).state.next == s.next + CountCreates(msgs)
    decreases |msgs|
  {
    if msgs != [] {
      var init := msgs[..|msgs| - 1];
      ReplayShape(h, prefix, s, init);
      var before := Replay(h, prefix, s, init);
      var t := Step(h, prefix, before.state, msgs[|msgs| - 1]);
      assert Replay(h, prefix, s, msgs).reply == before.reply + [t.reply];
      forall i | 0 <= i < |msgs|
        ensures AnswersKind(msgs[i], Replay(h, prefix, s, msgs).reply[i])
      {
        if i < |msgs| - 1 {
          assert msgs[i] == init[i];
        }
      }
    }
  }

  /** A run keeps every key of the store a minted id. */
  lemma {:induction false} ReplayKeepsMinted<T, C, P, A, R>(h: Hooks<T, C, P, A, R>, prefix: string, s: ActorState<T>, msgs: seq<Request<C, P, A>>)
    requires AllMinted(prefix, s)
    ensures AllMinted(prefix, Replay(h, prefix, s, msgs).state)
    decreases |msgs|
  {
    if msgs != [] {
      var init := msgs[..|msgs| - 1];
      ReplayKeepsMinted(h, prefix, s, init);
      StepKeepsMinted(h, prefix, Replay(h, prefix, s, init).state, msgs[|msgs| - 1]);
    }
  }

  /** The ids handed out by the successful Creates of a run are minted from
      the counter values the run used, and are pairwise distinct. */
  lemma {:induction false} CreatedIdsDistinct<T, C, P, A, R>(h: Hooks<T, C, P, A, R>, prefix: string, s: ActorState<T>, msgs: seq<Request<C, P, A>>)
    ensures Replay(h, prefix, s, msgs).state.next >= s.next
    ensures ReplayIdsBounded(prefix, s.next, Replay(h, prefix, s, msgs))
    ensures IdsPairwiseDistinct(Replay(h, prefix, s, msgs).reply)
    decreases |msgs|
  {
    if msgs != [] {
      var init := msgs[..|msgs| - 1];
      CreatedIdsDistinct(h, prefix, s, init);
      var before := Replay(h, prefix, s, init);
      var t := Step(h, prefix, before.state, msgs[|msgs| - 1]);
      var replies := before.reply + [t.reply];
      assert Replay(h, prefix, s, msgs) == Transition(t.state, replies);
      var last := |replies| - 1;
      assert t.state.next >= before.state.next;
      // the last reply's id, if any, uses the counter value reached so far
      assert CreatedId(t.reply).Some? ==> CreatedId(t.reply).value == FormatId(prefix, before.state.next);
      forall i | 0 <= i < |replies| && CreatedId(replies[i]).Some?
        ensures exists n: nat :: s.next <= n < t.state.next && CreatedId(replies[i]).value == FormatId(prefix, n)
      {
        if i < last {
          assert replies[i] == before.reply[i];
        } else {
          assert CreatedId(t.reply).value == FormatId(prefix, before.state.next);
        }
      }
      forall i, j | 0 <= i < j < |replies| && CreatedId(replies[i]).Some? && CreatedId(replies[j]).Some?
        ensures CreatedId(replies[i]) != CreatedId(replies[j])
      {
        assert replies[i] == before.reply[i];
        if j < last {
          assert replies[j] == before.reply[j];
        } else {
          var n: nat :| s.next <= n < before.state.next && CreatedId(before.reply[i]).value == FormatId(prefix, n);
          FormatIdInjective(prefix, n, before.state.next);
        }
      }
    }
  }

  /** No two replies hand out the same id. */
  ghost predicate IdsPairwiseDistinct<T, R>(replies: seq<Reply<T, R>>) {
    forall i, j :: 0 <= i < j < |replies| && CreatedId(replies[i]).Some? && CreatedId(replies[j]).Some? ==>
      CreatedId(replies[i]) != CreatedId(replies[j])
  }

  /** Every id a run hands out was minted at a counter value in
      `[start, end of the run)`. */
  ghost predicate ReplayIdsBounded<T, R>(prefix: string, start: nat, run: Transition<T, seq<Reply<T, R>>>) {
    forall i :: 0 <= i < |run.reply| && CreatedId(run.reply[i]).Some? ==>
      exists n: nat :: start <= n < run.state.next && CreatedId(run.reply[i]).value == FormatId(prefix, n)
  }

  /** Create-then-Get: after a successful Create, Get on the returned id
      yields the entity built from the payload. */
  lemma CreateThenGet<T, C, P, A, R>(h: Hooks<T, C, P, A, R>, prefix: string, s: ActorState<T>, payload: C)
    requires CreateStep(h, prefix, s, payload).reply.Ok?
    ensures var t := CreateStep(h, prefix, s, payload);
      GetStep(t.state, t.reply.value) == Ok(Some(Construct(h, t.reply.value, payload).value))
  {
  }

  /** A failed Create leaves no trace: the id it minted is not in the store,
      so Get on it finds nothing, and no other entry changed. */
  lemma FailedCreateLeavesNoTrace<T, C, P, A, R>(h: Hooks<T, C, P, A, R>, prefix: string, s: ActorState<T>, payload: C)
    requires AllMinted(prefix, s)
    requires CreateStep(h, prefix, s, payload).reply.Err?
    ensures var t := CreateStep(h, prefix, s, payload);
      && t.state.store == s.store
      && GetStep(t.state, FormatId(prefix, s.next)) == Ok(None)
  {
    FreshIdUnused(prefix, s);
  }

  /** A successful Create never overwrites an entry: the store grows by one. */
  lemma CreateNeverOverwrites<T, C, P, A, R>(h: Hooks<T, C, P, A, R>, prefix: string, s: ActorState<T>, payload: C)
    requires AllMinted(prefix, s)
    requires CreateStep(h, prefix, s, payload).reply.Ok?
    ensures var t := CreateStep(h, prefix, s, payload);
      && t.reply.value !in s.store
      && t.state.store.Keys == s.store.Keys + {t.reply.value}
      && |t.state.store| == |s.store| + 1
  {
    FreshIdUnused(prefix, s);
  }

  /** Deleting an id a second time yields NotFound, not success. */
  lemma DeleteTwiceNotFound<T, C, P, A, R>(h: Hooks<T, C, P, A, R>, s: ActorState<T>, id: string)
    requires DeleteStep(h, s, id).reply.Ok?
    ensures var t := DeleteStep(h, s, id);
      && DeleteStep(h, t.state, id) == Transition(t.state, Err(NotFound(id)))
      && GetStep(t.state, id) == Ok(None)
  {
  }

  /** Update, Delete and Action on an id that is not stored reply NotFound and
      change nothing; Get alone answers `None`. */
  lemma MissingIdNotFound<T, C, P, A, R>(h: Hooks<T, C, P, A, R>, prefix: string, s: ActorState<T>, req: Request<C, P, A>)
    requires !req.Create? && req.id !in s.store
    ensures var t := Step(h, prefix, s, req);
      && t.state == s
      && (req.Get? ==> t.reply == Got(Ok(None)))
      && (!req.Get? ==> t.reply in {Updated(Err(NotFound(req.id))), Deleted(Err(NotFound(req.id))), Acted(Err(NotFound(req.id)))})
  {
  }

  /** Only Create changes the set of keys by adding, only Delete by removing;
      the entries a request does not target are left as they were. */
  lemma StepTouchesOnlyTarget<T, C, P, A, R>(h: Hooks<T, C, P, A, R>, prefix: string, s: ActorState<T>, req: Request<C, P, A>, other: string)
    requires other in s.store
    requires req.Create? ==> other != FormatId(prefix, s.next)
    requires !req.Create? ==> other != req.id
    ensures var t := Step(h, prefix, s, req);
      other in t.state.store && t.state.store[other] == s.store[other]
  {
  }
}
