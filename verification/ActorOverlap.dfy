/** Overlapping starts: when a start that connects leaves the actor without a maintenance loop. */
module ActorOverlap {
  import opened Options
  import opened ActorLifecycle
  import opened ActorMaintenance

  /** A maintenance loop that has not been cancelled and has not left its loop. */
  predicate Loops(s: State, t: nat) {
    t in s.tasks && LoopTask(s.tasks[t]) && !s.tasks[t].LoopExit? && t !in s.cancelled
  }

  ghost predicate SomeLoops(s: State) {
    exists t :: Loops(s, t)
  }

  /** The loop that the actor holds is still in its loop. */
  predicate HeldLoops(s: State) {
    s.actor.maintenanceTask.Some? && Loops(s, s.actor.maintenanceTask.value)
  }

  lemma ConnectedStep(s: State, t: nat, ok: bool)
    requires Single(s) && t in s.tasks && s.tasks[t] == ConnectReturned(true)
    ensures var u := Step(s, Resume(t, ok));
            && (s.actor.maintenanceTask.Some? ==> u.actor.maintenanceTask == s.actor.maintenanceTask
                                                  && u.tasks == s.tasks - {t} && u.cancelled == s.cancelled)
            && (s.actor.maintenanceTask.None? ==> Loops(u, s.nextTask))
  {
    Leaves(s, t, ok, Segment(s.actor, s.tasks[t], EnvOf(s, t, ok)));
  }

  /** In every run, a start that connects leaves an uncancelled loop running iff the actor holds no
      maintenance task, or holds one that still runs: the guard looks at the handle alone, and a loop
      that has left its loop because the context was gone keeps it. */
  lemma {:induction false} ConnectedStartLoopsIff(actions: seq<Action>, t: nat, ok: bool)
    requires t in Run(START, actions).tasks && Run(START, actions).tasks[t] == ConnectReturned(true)
    ensures var s := Run(START, actions);
            SomeLoops(Step(s, Resume(t, ok))) <==> s.actor.maintenanceTask.None? || HeldLoops(s)
  {
    hide Run, Step, LoopTask;
    var s := Run(START, actions);
    var u := Step(s, Resume(t, ok));
    RunKeepsSingle(actions);
    ConnectedStep(s, t, ok);
    StepKeepsSingle(s, Resume(t, ok));
    ConnectIsNoLoop();
    if s.actor.maintenanceTask.Some? {
      assert HeldLoops(s) ==> Loops(u, s.actor.maintenanceTask.value);
      assert forall x: nat :: Loops(u, x) ==> u.actor.maintenanceTask == Some(x) && Loops(s, x);
    }
  }

  lemma ConnectIsNoLoop()
    ensures !LoopTask(ConnectReturned(true))
  {
  }

  // ----- A run that ends connected and without a loop -----

  predicate StartsOnly(actions: seq<Action>) {
    forall a :: a in actions ==> a.CallStart? || a.Resume?
  }

  /** One coroutine goes on to its next suspension. */
  lemma Goes(actions: seq<Action>, t: nat, pc: Pc, next: Pc) returns (more: seq<Action>)
    requires StartsOnly(actions)
    requires var s := Run(START, actions);
             && t in s.tasks && s.tasks[t] == pc
             && var e := Segment(s.actor, pc, EnvOf(s, t, true));
                e.next == Some(next) && e.spawned.None? && e.cancels.None?
    ensures StartsOnly(more)
    ensures var s, u := Run(START, actions), Run(START, more);
            && u.actor == Segment(s.actor, pc, EnvOf(s, t, true)).actor && u.tasks == s.tasks[t := next]
            && u.cancelled == s.cancelled && u.nextTask == s.nextTask
  {
    hide Run, Step, Segment;
    var s := Run(START, actions);
    more := actions + [Resume(t, true)];
    RunSnoc(START, actions, Resume(t, true));
    Moves(s, t, true, Segment(s.actor, pc, EnvOf(s, t, true)));
  }

  /** One coroutine ends, and starts the other, if any. */
  lemma Finishes(actions: seq<Action>, t: nat, ok: bool, pc: Pc, spawned: Option<Pc>) returns (more: seq<Action>)
    requires StartsOnly(actions)
    requires var s := Run(START, actions);
             && t in s.tasks && s.tasks[t] == pc
             && var e := Segment(s.actor, pc, EnvOf(s, t, ok));
                e.next.None? && e.spawned == spawned && e.cancels.None?
    ensures StartsOnly(more)
    ensures var s, u := Run(START, actions), Run(START, more);
            && u.actor == Segment(s.actor, pc, EnvOf(s, t, ok)).actor && u.cancelled == s.cancelled
            && u.tasks == (if spawned.Some? then (s.tasks - {t})[s.nextTask := spawned.value] else s.tasks - {t})
            && u.nextTask == if spawned.Some? then s.nextTask + 1 else s.nextTask
  {
    hide Run, Step, Segment;
    var s := Run(START, actions);
    more := actions + [Resume(t, ok)];
    RunSnoc(START, actions, Resume(t, ok));
    Leaves(s, t, ok, Segment(s.actor, pc, EnvOf(s, t, ok)));
  }

  lemma Called(actions: seq<Action>) returns (more: seq<Action>)
    requires StartsOnly(actions)
    ensures StartsOnly(more)
    ensures var s, u := Run(START, actions), Run(START, more);
            && u.actor == s.actor && u.tasks == s.tasks[s.nextTask := StartEntry]
            && u.cancelled == s.cancelled && u.nextTask == s.nextTask + 1
  {
    hide Run;
    more := actions + [CallStart];
    RunSnoc(START, actions, CallStart);
  }

  /** A start creates its node: the actor's context is then the new one. */
  lemma Creates(actions: seq<Action>, t: nat) returns (more: seq<Action>)
    requires StartsOnly(actions) && t in Run(START, actions).tasks && Run(START, actions).tasks[t] == InitEntry
    ensures StartsOnly(more)
    ensures var s, u := Run(START, actions), Run(START, more);
            && u.actor.ctx.Some? && u.actor == s.actor.(ctx := u.actor.ctx) && u.tasks == s.tasks[t := InitStarting]
            && u.cancelled == s.cancelled && u.nextTask == s.nextTask
  {
    hide Run;
    var ctx := Some(Run(START, actions).nextCtx);
    more := Goes(actions, t, InitEntry, InitCreated(ctx));
    more := Goes(more, t, InitCreated(ctx), InitStarting);
  }

  /** And goes on until it has connected. */
  lemma Connects(actions: seq<Action>, t: nat) returns (more: seq<Action>)
    requires StartsOnly(actions) && t in Run(START, actions).tasks && Run(START, actions).tasks[t] == InitEntry
    ensures StartsOnly(more)
    ensures var s, u := Run(START, actions), Run(START, more);
            && u.actor.ctx.Some? && u.actor == s.actor.(ctx := u.actor.ctx)
            && u.tasks == s.tasks[t := ConnectReturned(true)] && u.cancelled == s.cancelled && u.nextTask == s.nextTask
  {
    hide Run;
    more := Creates(actions, t);
    more := Goes(more, t, InitStarting, StartReturned);
    more := Goes(more, t, StartReturned, ConnectEntry);
    more := Goes(more, t, ConnectEntry, ConnectWaiting);
    more := Goes(more, t, ConnectWaiting, ConnectReturned(true));
  }

  /** Two starts overlap: both have found no context, and the first has connected. */
  lemma FirstConnects() returns (actions: seq<Action>)
    ensures StartsOnly(actions)
    ensures var s := Run(START, actions);
            && s.actor.ctx.Some? && s.actor == START.actor.(ctx := s.actor.ctx)
            && s.tasks == map[0 := ConnectReturned(true), 1 := InitEntry] && s.cancelled == {} && s.nextTask == 2
  {
    hide Run;
    NothingRun();
    actions := Called([]);
    actions := Called(actions);
    assert Run(START, actions).tasks == map[0 := StartEntry, 1 := StartEntry];
    actions := Goes(actions, 1, StartEntry, InitEntry);
    actions := Goes(actions, 0, StartEntry, InitEntry);
    assert Run(START, actions).tasks == map[0 := InitEntry, 1 := InitEntry];
    actions := Connects(actions, 0);
  }

  /** Its loop runs, and the second start fails and takes the context away. */
  lemma OverlappingStarts() returns (actions: seq<Action>)
    ensures StartsOnly(actions)
    ensures var s := Run(START, actions);
            && s.actor.ctx.None? && s.actor.maintenanceTask == Some(2)
            && s.tasks == map[2 := LoopHead(Loop(0, true))] && s.cancelled == {} && s.nextTask == 3
  {
    hide Run;
    actions := FirstConnects();
    actions := Finishes(actions, 0, true, ConnectReturned(true), Some(LoopHead(Loop(0, true))));
    assert Run(START, actions).tasks == map[1 := InitEntry, 2 := LoopHead(Loop(0, true))];
    actions := Creates(actions, 1);
    assert Run(START, actions).tasks == map[1 := InitStarting, 2 := LoopHead(Loop(0, true))];
    actions := Finishes(actions, 1, false, InitStarting, None);
  }

  lemma NothingRun()
    ensures Run(START, []) == START
  {
  }

  /** The loop finds the context gone and leaves, uncancelled and still held. */
  lemma LoopLeaves() returns (actions: seq<Action>)
    ensures StartsOnly(actions)
    ensures var s := Run(START, actions);
            && s.actor.ctx.None? && s.actor.maintenanceTask == Some(2)
            && s.tasks == map[] && s.cancelled == {} && s.nextTask == 3
  {
    hide Run;
    actions := OverlappingStarts();
    actions := Goes(actions, 2, LoopHead(Loop(0, true)), LoopCheck(Loop(0, true)));
    actions := Goes(actions, 2, LoopCheck(Loop(0, true)), LoopExit);
    actions := Finishes(actions, 2, true, LoopExit, None);
  }

  /** A run of starts alone, no stop and no cancellation, that ends with a connected node, a start just
      returned, and no maintenance loop at all. */
  lemma ConnectedWithoutLoop() returns (actions: seq<Action>)
    ensures StartsOnly(actions)
    ensures var s := Run(START, actions);
            && s.actor.ctx.Some? && s.actor.hasPeers && s.actor.maintenanceTask.Some?
            && s.tasks == map[] && s.cancelled == {} && !SomeLoops(s)
  {
    hide Run;
    actions := LoopLeaves();
    actions := Called(actions);
    actions := Goes(actions, 3, StartEntry, InitEntry);
    actions := Connects(actions, 3);
    assert Run(START, actions).tasks == map[3 := ConnectReturned(true)];
    actions := Finishes(actions, 3, true, ConnectReturned(true), None);
  }
}
