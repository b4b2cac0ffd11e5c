/** One caching call running alone: what it answers, what it leaves in the store, and whether it asked upstream. */
module CacheSequential {
  import opened Prelude
  import opened CacheKeys
  import opened CacheMachine

  /** The instants of a call's three operations and what the surroundings decide at them. */
  datatype Io = Io(lookAt: nat, getFails: bool, fetchAt: nat, reply: Option<Reply>, storeAt: nat, setFails: bool)

  /** asked tells whether the call turned to upstream. */
  datatype Outcome = Outcome(store: Store, answer: Answer, asked: bool)

  ghost predicate InOrder(now: nat, io: Io) { now <= io.lookAt <= io.fetchAt <= io.storeAt }

  ghost function Serve(env: Env, store: Store, r: Request, io: Io): Outcome {
    var hit := Look(env, store, r, io.lookAt, io.getFails);
    var value := if io.reply.None? then None else Interpret(r, io.reply.value);
    if hit.Some? then Outcome(store, hit.value, false)
    else if value.None? then Outcome(store, Failed, true)
    else Outcome(Put(env, store, r, value.value, io.storeAt, io.setFails),
                 Served(value.value, io.storeAt, Fresh(io.fetchAt)), true)
  }

  function Schedule(now: nat, id: CallId, r: Request, io: Io): seq<Step>
    requires now <= io.lookAt <= io.fetchAt <= io.storeAt
  {
    [Arrive(id, r), Tick(io.lookAt - now), Advance(id, Choice(io.getFails, None)),
     Tick(io.fetchAt - io.lookAt), Advance(id, Choice(false, io.reply)),
     Tick(io.storeAt - io.fetchAt), Advance(id, Choice(io.setFails, None))]
  }

  /** The system after the call has arrived and looked. */
  lemma LookRun(env: Env, s: System, id: CallId, r: Request, io: Io)
    requires InOrder(s.now, io) && id !in s.calls && Valid(r)
    ensures var t := Run(env, s, Schedule(s.now, id, r, io)[..3]);
            var hit := Look(env, s.store, r, io.lookAt, io.getFails);
            t == s.(now := io.lookAt, calls := s.calls[id := Call(r, if hit.Some? then Answered(hit.value) else Fetching)])
  {
    var steps := Schedule(s.now, id, r, io);
    assert steps[..0] == [];
    RunNext(env, s, steps, 0);
    RunNext(env, s, steps, 1);
    RunNext(env, s, steps, 2);
    var t := Run(env, s, steps[..3]);
    assert t.calls == s.calls[id := t.calls[id]];
  }

  lemma LastSteps(env: Env, s: System, steps: seq<Step>)
    requires |steps| == 7
    ensures Run(env, s, steps[..4]) == Do(env, Run(env, s, steps[..3]), steps[3])
    ensures Run(env, s, steps) == Do(env, Do(env, Do(env, Run(env, s, steps[..4]), steps[4]), steps[5]), steps[6])
  {
    RunNext(env, s, steps, 3);
    RunNext(env, s, steps, 4);
    RunNext(env, s, steps, 5);
    RunNext(env, s, steps, 6);
    assert steps[..7] == steps;
  }

  /** From there on: the call asks, unless it has been answered, and stores what it gets. */
  lemma FinishRun(env: Env, s: System, id: CallId, r: Request, io: Io)
    requires id in s.calls && s.calls[id].request == r && s.now == io.fetchAt <= io.storeAt
    requires s.calls[id].pc.Answered? || s.calls[id].pc.Fetching?
    ensures var value := if io.reply.None? then None else Interpret(r, io.reply.value);
            var s5 := Do(env, s, Advance(id, Choice(false, io.reply)));
            var t := Do(env, Do(env, s5, Tick(io.storeAt - io.fetchAt)), Advance(id, Choice(io.setFails, None)));
            if s.calls[id].pc.Answered? then t == s.(now := io.storeAt)
            else if value.None? then t == s.(now := io.storeAt, calls := s.calls[id := Call(r, Answered(Failed))])
            else t == System(io.storeAt, Put(env, s.store, r, value.value, io.storeAt, io.setFails),
                             s.calls[id := Call(r, Answered(Served(value.value, io.storeAt, Fresh(io.fetchAt))))],
                             s.fetches + [Fetch(id, r, io.reply.value, value.value, io.fetchAt)])
  {
  }

  /**
    A call running alone is a run of the machine, so the theorems about runs cover it: it
    stands before upstream, at step 4, exactly if it is said to ask, and data it gets there is
    the one fetch it adds.
   */
  lemma ServeIsRun(env: Env, s: System, id: CallId, r: Request, io: Io)
    requires InOrder(s.now, io) && id !in s.calls && Valid(r)
    ensures var steps := Schedule(s.now, id, r, io);
            var o := Serve(env, s.store, r, io);
            && Run(env, s, steps).store == o.store
            && Run(env, s, steps).calls == s.calls[id := Call(r, Answered(o.answer))]
            && Run(env, s, steps).fetches ==
                 s.fetches + (if o.asked && o.answer.Served?
                              then [Fetch(id, r, io.reply.value, o.answer.value, io.fetchAt)] else [])
            && id in Run(env, s, steps[..4]).calls
            && (o.asked <==> Run(env, s, steps[..4]).calls[id].pc.Fetching?)
  {
    var steps := Schedule(s.now, id, r, io);
    LookRun(env, s, id, r, io);
    LastSteps(env, s, steps);
    FinishRun(env, Run(env, s, steps[..4]), id, r, io);
    var t := Run(env, s, steps);
    assert t.calls == s.calls[id := t.calls[id]];
  }
}
