/** What the actor's API does, said call by call and update by update: publishing over whole runs, and
    stopping, resubscribing and starting from any state. */
module ActorCalls {
  import opened Options
  import opened ActorLifecycle
  import opened ActorMaintenance

  // ----- Peers -----

  /** Whether a peer has joined, or a start has connected, since stop last took a context. */
  function PeersSince(actions: seq<Action>): bool {
    if actions == [] then false
    else
      var s, a := Run(START, actions[..|actions| - 1]), actions[|actions| - 1];
      var before := PeersSince(actions[..|actions| - 1]);
      if a.PeerJoined? then true
      else if a.Resume? && a.task in s.tasks && s.tasks[a.task] == ConnectReturned(true) then true
      else if a.Resume? && a.task in s.tasks && s.tasks[a.task].StopEntry? && s.actor.ctx.Some? then false
      else before
  }

  lemma SegmentPeers(a: Actor, pc: Pc, env: Env)
    ensures Segment(a, pc, env).actor.hasPeers ==
            if pc == ConnectReturned(true) then true
            else if pc.StopEntry? && a.ctx.Some? then false
            else a.hasPeers
  {
  }

  /** The actor's flag is that fact, in every run. */
  lemma {:induction false} HasPeersIff(actions: seq<Action>)
    ensures Run(START, actions).actor.hasPeers == PeersSince(actions)
  {
    hide Segment;
    if actions != [] {
      var before, a := actions[..|actions| - 1], actions[|actions| - 1];
      var s := Run(START, before);
      HasPeersIff(before);
      if a.Resume? && a.task in s.tasks {
        SegmentPeers(s.actor, s.tasks[a.task], EnvOf(s, a.task, a.ok));
      }
    }
  }

  // ----- Publishing -----

  /** In every run a publish makes its call on the held context iff peers are known, raises the error
      iff a context is held and none are, and does nothing without a context; after the call it raises
      the error iff the call failed. */
  lemma {:induction false} PublishLaw(actions: seq<Action>, t: nat, ok: bool)
    requires t in Run(START, actions).tasks
    ensures var s := Run(START, actions);
            var u := Step(s, Resume(t, ok));
            && (s.tasks[t].PublishEntry? ==>
                  && (s.actor.ctx.Some? && PeersSince(actions) ==>
                        u.events == s.events + [Called(Publish, s.actor.ctx.value)] && u.updates == s.updates
                        && t in u.tasks && u.tasks[t].PublishWaiting?)
                  && (s.actor.ctx.Some? && !PeersSince(actions) ==>
                        u.events == s.events && u.updates == s.updates + [ErrorRaised] && t !in u.tasks)
                  && (s.actor.ctx.None? ==> u.events == s.events && u.updates == s.updates && t !in u.tasks))
            && (s.tasks[t].PublishWaiting? ==>
                  u.events == s.events && t !in u.tasks && u.updates == s.updates + if ok then [] else [ErrorRaised])
  {
    hide Run, PeersSince, Segment;
    HasPeersIff(actions);
    var s := Run(START, actions);
    var e := Segment(s.actor, s.tasks[t], EnvOf(s, t, ok));
    PublishSegments(s.actor, EnvOf(s, t, ok));
    if s.tasks[t].PublishEntry? || s.tasks[t].PublishWaiting? {
      Publishing(s, t, ok, e);
    }
  }

  lemma Publishing(s: State, t: nat, ok: bool, e: Effect)
    requires t in s.tasks && e == Segment(s.actor, s.tasks[t], EnvOf(s, t, ok))
    requires e.spawned.None? && e.cancels.None?
    ensures var u := Step(s, Resume(t, ok));
            && u.events == s.events + e.events && u.updates == s.updates + e.updates
            && (e.next.Some? ==> t in u.tasks && u.tasks[t] == e.next.value) && (e.next.None? ==> t !in u.tasks)
  {
    hide Segment, Step;
    if e.next.Some? {
      Moves(s, t, ok, e);
    } else {
      Leaves(s, t, ok, e);
    }
  }

  lemma PublishSegments(a: Actor, env: Env)
    ensures Segment(a, PublishEntry, env) ==
            match a.ctx
            case None => Effect(a, None, None, None, [], [])
            case Some(c) =>
              if a.hasPeers then Effect(a, Some(PublishWaiting), None, None, [Called(Publish, c)], [])
              else Effect(a, None, None, None, [], [ErrorRaised])
    ensures Segment(a, PublishWaiting, env) == Effect(a, None, None, None, [], if env.ok then [] else [ErrorRaised])
  {
  }

  function PublishCalls(events: seq<Event>): nat {
    if events == [] then 0
    else
      PublishCalls(events[..|events| - 1])
      + (match events[|events| - 1] case Called(Publish, _) => 1 case _ => 0)
  }

  /** The publishes of a run that found a context and known peers. */
  function PublishesServed(actions: seq<Action>): nat {
    if actions == [] then 0
    else
      var before, a := actions[..|actions| - 1], actions[|actions| - 1];
      var s := Run(START, before);
      PublishesServed(before)
      + if a.Resume? && a.task in s.tasks && s.tasks[a.task].PublishEntry? && s.actor.ctx.Some? && PeersSince(before)
        then 1 else 0
  }

  lemma {:induction false} PublishCallsAppend(events: seq<Event>, more: seq<Event>)
    ensures PublishCalls(events + more) == PublishCalls(events) + PublishCalls(more)
    decreases |more|
  {
    if more == [] {
      assert events + more == events;
    } else {
      assert (events + more)[..|events + more| - 1] == events + more[..|more| - 1];
      PublishCallsAppend(events, more[..|more| - 1]);
    }
  }

  lemma {:induction false} NoPublishCalls(events: seq<Event>)
    requires forall e :: e in events ==> e.Called? ==> !e.call.Publish?
    ensures PublishCalls(events) == 0
  {
    if events != [] {
      assert events[|events| - 1] in events;
      NoPublishCalls(events[..|events| - 1]);
    }
  }

  lemma SegmentPublishes(a: Actor, pc: Pc, env: Env)
    ensures PublishCalls(Segment(a, pc, env).events) ==
            if pc.PublishEntry? && a.ctx.Some? && a.hasPeers then 1 else 0
  {
    var events := Segment(a, pc, env).events;
    if pc.PublishEntry? && a.ctx.Some? && a.hasPeers {
      assert events == [Called(Publish, a.ctx.value)] && events[..0] == [];
    } else {
      NoPublishCalls(events);
    }
  }

  /** Over a whole run: one publish call for every publish that found a context and known peers. */
  lemma {:induction false} OneCallPerPublish(actions: seq<Action>)
    ensures PublishCalls(Run(START, actions).events) == PublishesServed(actions)
  {
    hide Segment, PublishCalls;
    if actions == [] {
      NoPublishCalls([]);
    } else {
      var before, a := actions[..|actions| - 1], actions[|actions| - 1];
      var s := Run(START, before);
      OneCallPerPublish(before);
      HasPeersIff(before);
      if a.Resume? && a.task in s.tasks {
        var e := Segment(s.actor, s.tasks[a.task], EnvOf(s, a.task, a.ok));
        SegmentPublishes(s.actor, s.tasks[a.task], EnvOf(s, a.task, a.ok));
        PublishCallsAppend(s.events, e.events);
      }
    }
  }

  // ----- Stopping -----

  /** Calling stop takes the held context, forgets everything, cancels the held loop and leaves the UI
      stopped; without a context it does nothing. */
  lemma StopLaw(s: State, ui: Ui, ok: bool)
    ensures var u := Step(Step(s, CallStop), Resume(s.nextTask, ok));
            && (s.actor.ctx.Some? ==>
                  && u.events == s.events + [Took(s.actor.ctx.value)]
                  && u.actor.ctx.None? && !u.actor.isSubscribed && !u.actor.isSubscribing && !u.actor.hasPeers
                  && u.actor.maintenanceTask.None?
                  && (s.actor.maintenanceTask.Some? ==> s.actor.maintenanceTask.value in u.cancelled)
                  && var shown := ShownAll(ui, u.updates);
                     && shown.status == Stopped && !shown.isConnected && !shown.filterSubscribed
                     && shown.failedSubscribeAttempts == 0 && !shown.maintenanceActive)
            && (s.actor.ctx.None? ==> u.events == s.events && u.updates == s.updates && u.actor == s.actor)
  {
    hide ShownAll;
    var called := Step(s, CallStop);
    var told := [StatusChanged(Stopped), ConnectionChanged(false), FilterChanged(false, 0), MaintenanceChanged(false)];
    if s.actor.ctx.Some? {
      assert Step(called, Resume(s.nextTask, ok)).updates == s.updates + told;
      ShownAppend(ui, s.updates, told);
      StoppedShown(ShownAll(ui, s.updates));
    }
  }

  lemma StoppedShown(ui: Ui)
    ensures var told := [StatusChanged(Stopped), ConnectionChanged(false), FilterChanged(false, 0),
                         MaintenanceChanged(false)];
            ShownAll(ui, told) == Ui(Stopped, false, false, 0, false, ui.errors)
  {
    var none: seq<Update> := [];
    var one, two := none + [StatusChanged(Stopped)], none + [StatusChanged(Stopped)] + [ConnectionChanged(false)];
    UpdateShown(ui, none, StatusChanged(Stopped));
    UpdateShown(ui, one, ConnectionChanged(false));
    UpdateShown(ui, two, FilterChanged(false, 0));
    UpdateShown(ui, two + [FilterChanged(false, 0)], MaintenanceChanged(false));
    assert two + [FilterChanged(false, 0)] + [MaintenanceChanged(false)] ==
           [StatusChanged(Stopped), ConnectionChanged(false), FilterChanged(false, 0), MaintenanceChanged(false)];
  }

  // ----- Subscribing -----

  /** A subscribe, whoever awaits it, makes its call on the held context iff there is one and no
      subscription is held or under way; and its answer decides the flag and whether the UI is told. */
  lemma SubscribeLaw(s: State, t: nat, ok: bool)
    requires t in s.tasks && (s.tasks[t].SubscribeEntry? || s.tasks[t].SubscribeWaiting?)
    ensures var u := Step(s, Resume(t, ok));
            && (s.tasks[t].SubscribeEntry? ==>
                  u.events == s.events
                    + (match s.actor.ctx
                       case None => []
                       case Some(c) =>
                         if s.actor.isSubscribed || s.actor.isSubscribing then [] else [Called(Subscribe, c)])
                  && u.updates == s.updates && u.actor.isSubscribed == s.actor.isSubscribed)
            && (s.tasks[t].SubscribeWaiting? ==>
                  u.actor.isSubscribed == ok && !u.actor.isSubscribing && u.events == s.events
                  && u.updates == s.updates + if ok then [FilterChanged(true, 0)] else [])
  {
  }

  /** Calling resubscribe tells the UI that nothing is subscribed and asks at once, whatever the flags
      said, if a context is held. */
  lemma ResubscribeLaw(s: State, first: bool, second: bool)
    ensures var t := s.nextTask;
            var u := Step(Step(Step(s, CallResubscribe), Resume(t, first)), Resume(t, second));
            && u.updates == s.updates + [FilterChanged(false, 0)] && !u.actor.isSubscribed
            && u.events == s.events + match s.actor.ctx case None => [] case Some(c) => [Called(Subscribe, c)]
  {
    var t := s.nextTask;
    var called := Step(s, CallResubscribe);
    assert called.tasks[t] == ResubscribeEntry;
    var told := Step(called, Resume(t, first));
    Moves(called, t, first, Segment(called.actor, ResubscribeEntry, EnvOf(called, t, first)));
    SubscribeLaw(told, t, second);
  }

  // ----- Starting -----

  /** A start of an actor that holds a context does nothing. */
  lemma StartedAlready(s: State, ok: bool)
    requires s.actor.ctx.Some?
    ensures var u := Step(Step(s, CallStart), Resume(s.nextTask, ok));
            u.events == s.events && u.updates == s.updates && u.actor == s.actor && s.nextTask !in u.tasks
  {
    var t := s.nextTask;
    var called := Step(s, CallStart);
    Leaves(called, t, ok, Segment(called.actor, StartEntry, EnvOf(called, t, ok)));
  }

  /** How the awaited calls of a start end. */
  datatype Course = Course(created: bool, started: bool, connected: bool)

  /** The state after n resumptions of the coroutine t, nothing else happening: the first two create
      the node, then come the start and the connect. */
  function Resumed(s: State, t: nat, course: Course, n: nat): State {
    if n == 0 then s
    else
      var before := Resumed(s, t, course, n - 1);
      Step(before, Resume(t, if n <= 3 then course.created else if n == 4 then course.started else course.connected))
  }

  /** What a start that finds no context sends and calls, by its course. */
  function StartUpdates(course: Course, loopHeld: bool): seq<Update> {
    if !course.created || !course.started then [StatusChanged(Starting), StatusChanged(InError), ErrorRaised]
    else if !course.connected then [StatusChanged(Starting), StatusChanged(Running), ErrorRaised]
    else
      [StatusChanged(Starting), StatusChanged(Running), ConnectionChanged(true)]
      + if loopHeld then [] else [MaintenanceChanged(true)]
  }

  function StartEvents(course: Course, c: nat): seq<Event> {
    if !course.created then []
    else
      [Called(New, c), Called(SetEventCallback, c), Called(Start, c)]
      + if course.started then [Called(Connect, c)] else []
  }

  /** A coroutine of start suspended at pc, having sent and called so much since s. */
  predicate Underway(s: State, u: State, t: nat, pc: Pc, events: seq<Event>, updates: seq<Update>) {
    && t in u.tasks && u.tasks[t] == pc && u.events == s.events + events && u.updates == s.updates + updates
    && u.actor.maintenanceTask == s.actor.maintenanceTask
  }

  predicate Over(s: State, u: State, t: nat, events: seq<Event>, updates: seq<Update>) {
    t !in u.tasks && u.events == s.events + events && u.updates == s.updates + updates
  }

  lemma Suspends(s: State, u: State, t: nat, ok: bool, pc: Pc, es: seq<Event>, us: seq<Update>, e: Effect)
    requires Underway(s, u, t, pc, es, us) && e == Segment(u.actor, pc, EnvOf(u, t, ok))
    requires e.next.Some? && e.spawned.None? && e.cancels.None? && e.actor.maintenanceTask == u.actor.maintenanceTask
    ensures var v := Step(u, Resume(t, ok));
            && Underway(s, v, t, e.next.value, es + e.events, us + e.updates)
            && v.actor == e.actor && v.nextTask == u.nextTask
  {
    hide Segment;
    Moves(u, t, ok, e);
    assert s.events + es + e.events == s.events + (es + e.events);
    assert s.updates + us + e.updates == s.updates + (us + e.updates);
  }

  lemma Ends(s: State, u: State, t: nat, ok: bool, pc: Pc, es: seq<Event>, us: seq<Update>, e: Effect)
    requires Underway(s, u, t, pc, es, us) && e == Segment(u.actor, pc, EnvOf(u, t, ok)) && t < u.nextTask
    requires e.next.None? && e.cancels.None?
    ensures var v := Step(u, Resume(t, ok));
            Over(s, v, t, es + e.events, us + e.updates) && v.actor == e.actor
  {
    hide Segment;
    Leaves(u, t, ok, e);
    assert s.events + es + e.events == s.events + (es + e.events);
    assert s.updates + us + e.updates == s.updates + (us + e.updates);
  }

  lemma Begins(s: State, course: Course)
    requires s.actor.ctx.None?
    ensures var t := s.nextTask;
            var u := Resumed(Step(s, CallStart), t, course, 2);
            && Underway(s, u, t, InitCreated(if course.created then Some(s.nextCtx) else None),
                        if course.created then [Called(New, s.nextCtx)] else [], [StatusChanged(Starting)])
            && u.actor == s.actor && u.nextTask == t + 1
  {
    hide Step, Segment, Underway, Resumed;
    var t, ok, starting := s.nextTask, course.created, [StatusChanged(Starting)];
    var called := Step(s, CallStart);
    StartIsCalled(s);
    ResumedSteps(called, t, course);
    var told := Resumed(called, t, course, 1);
    StartIsPending(s, called);
    StartIsTold(called, t, ok);
    StartSegments(s.actor, EnvOf(called, t, ok));
    Suspends(s, called, t, ok, StartEntry, [], [], Segment(s.actor, StartEntry, EnvOf(called, t, ok)));
    NothingAdded(starting);
    var none: seq<Event> := [];
    assert none + none == none;
    StartSegments(s.actor, EnvOf(told, t, ok));
    var creating := Segment(s.actor, InitEntry, EnvOf(told, t, ok));
    Suspends(s, told, t, ok, InitEntry, [], starting, creating);
    assert [] + creating.events == creating.events;
  }

  lemma NothingAdded(us: seq<Update>)
    ensures [] + us == us && us + [] == us
  {
  }

  lemma StartIsPending(s: State, u: State)
    requires Underway(s, u, s.nextTask, StartEntry, [], [])
    ensures s.nextTask in u.tasks && u.tasks[s.nextTask].StartEntry?
  {
  }

  lemma StartIsCalled(s: State)
    ensures var u := Step(s, CallStart);
            && Underway(s, u, s.nextTask, StartEntry, [], []) && u.actor == s.actor
            && u.nextTask == s.nextTask + 1 && u.nextCtx == s.nextCtx
  {
  }

  lemma StartIsTold(s: State, t: nat, ok: bool)
    requires t in s.tasks && s.tasks[t].StartEntry? && s.actor.ctx.None?
    ensures Step(s, Resume(t, ok)).nextCtx == s.nextCtx
  {
  }

  lemma StartSegments(a: Actor, env: Env)
    requires a.ctx.None?
    ensures Segment(a, StartEntry, env) == Effect(a, Some(InitEntry), None, None, [], [StatusChanged(Starting)])
    ensures Segment(a, InitEntry, env) ==
            Effect(a, Some(InitCreated(if env.ok then Some(env.freshCtx) else None)), None, None,
                   if env.ok then [Called(New, env.freshCtx)] else [], [])
    ensures Segment(a, InitCreated(None), env) ==
            Effect(a, None, None, None, [], [StatusChanged(InError), ErrorRaised])
  {
  }

  /** What a start does once its node is created. */
  lemma CreatedSegments(a: Actor, c: nat, env: Env)
    ensures Segment(a, InitCreated(Some(c)), env) ==
            Effect(a.(ctx := Some(c)), Some(InitStarting), None, None,
                   [Called(SetEventCallback, c), Called(Start, c)], [])
    ensures Segment(a, InitStarting, env) ==
            if env.ok then Effect(a, Some(StartReturned), None, None, [], [])
            else Effect(a.(ctx := None), None, None, None, [], [StatusChanged(InError), ErrorRaised])
    ensures Segment(a, StartReturned, env) == Effect(a, Some(ConnectEntry), None, None, [], [StatusChanged(Running)])
    ensures a.ctx == Some(c) ==>
              Segment(a, ConnectEntry, env) == Effect(a, Some(ConnectWaiting), None, None, [Called(Connect, c)], [])
    ensures Segment(a, ConnectWaiting, env) == Effect(a, Some(ConnectReturned(env.ok)), None, None, [], [])
  {
  }

  /** A start whose node cannot be created. */
  lemma CreationFails(s: State, course: Course)
    requires s.actor.ctx.None? && !course.created
    ensures var u := Resumed(Step(s, CallStart), s.nextTask, course, 3);
            && Over(s, u, s.nextTask, StartEvents(course, s.nextCtx),
                    StartUpdates(course, s.actor.maintenanceTask.Some?))
            && u.actor == s.actor
  {
    hide Step, Segment, Over, Underway;
    Begins(s, course);
    var t := s.nextTask;
    var u := Resumed(Step(s, CallStart), t, course, 2);
    assert Resumed(Step(s, CallStart), t, course, 3) == Step(u, Resume(t, course.created));
    StartSegments(s.actor, EnvOf(u, t, course.created));
    Ends(s, u, t, course.created, InitCreated(None), [], [StatusChanged(Starting)],
         Segment(s.actor, InitCreated(None), EnvOf(u, t, course.created)));
    assert [StatusChanged(Starting)] + [StatusChanged(InError), ErrorRaised] == StartUpdates(course, true);
    var none: seq<Event> := [];
    assert StartUpdates(course, true) == StartUpdates(course, false) && none + [] == StartEvents(course, s.nextCtx);
  }

  lemma Adopts(s: State, course: Course)
    requires s.actor.ctx.None? && course.created
    ensures var t, c := s.nextTask, s.nextCtx;
            var u := Resumed(Step(s, CallStart), t, course, 3);
            && Underway(s, u, t, InitStarting, [Called(New, c), Called(SetEventCallback, c), Called(Start, c)],
                        [StatusChanged(Starting)])
            && u.actor == s.actor.(ctx := Some(c)) && u.nextTask == t + 1
  {
    hide Step, Segment, Underway;
    Begins(s, course);
    var t, c := s.nextTask, s.nextCtx;
    var u := Resumed(Step(s, CallStart), t, course, 2);
    assert Resumed(Step(s, CallStart), t, course, 3) == Step(u, Resume(t, course.created));
    CreatedSegments(s.actor, c, EnvOf(u, t, course.created));
    Suspends(s, u, t, course.created, InitCreated(Some(c)), [Called(New, c)], [StatusChanged(Starting)],
             Segment(s.actor, InitCreated(Some(c)), EnvOf(u, t, course.created)));
    assert [Called(New, c)] + [Called(SetEventCallback, c), Called(Start, c)] ==
           [Called(New, c), Called(SetEventCallback, c), Called(Start, c)];
    assert [StatusChanged(Starting)] + [] == [StatusChanged(Starting)];
  }

  /** A start whose node cannot be started: its context is dropped. */
  lemma StartFails(s: State, course: Course)
    requires s.actor.ctx.None? && course.created && !course.started
    ensures var u := Resumed(Step(s, CallStart), s.nextTask, course, 4);
            && Over(s, u, s.nextTask, StartEvents(course, s.nextCtx),
                    StartUpdates(course, s.actor.maintenanceTask.Some?))
            && u.actor == s.actor
  {
    hide Step, Segment, Over, Underway;
    Adopts(s, course);
    var t, c := s.nextTask, s.nextCtx;
    var u := Resumed(Step(s, CallStart), t, course, 3);
    var calls := [Called(New, c), Called(SetEventCallback, c), Called(Start, c)];
    assert Resumed(Step(s, CallStart), t, course, 4) == Step(u, Resume(t, false));
    CreatedSegments(u.actor, c, EnvOf(u, t, false));
    Ends(s, u, t, false, InitStarting, calls, [StatusChanged(Starting)],
         Segment(u.actor, InitStarting, EnvOf(u, t, false)));
    assert [StatusChanged(Starting)] + [StatusChanged(InError), ErrorRaised] == StartUpdates(course, true);
    assert StartUpdates(course, true) == StartUpdates(course, false) && calls + [] == calls;
    assert u.actor.(ctx := None) == s.actor;
  }

  lemma Runs(s: State, course: Course)
    requires s.actor.ctx.None? && course.created && course.started
    ensures var t, c := s.nextTask, s.nextCtx;
            var u := Resumed(Step(s, CallStart), t, course, 7);
            && Underway(s, u, t, ConnectReturned(course.connected), StartEvents(course, c),
                        [StatusChanged(Starting), StatusChanged(Running)])
            && u.actor == s.actor.(ctx := Some(c)) && u.nextTask == t + 1
  {
    hide Step, Segment, Underway, Resumed;
    Adopts(s, course);
    var t, c := s.nextTask, s.nextCtx;
    var called, ok := Step(s, CallStart), course.connected;
    var calls := [Called(New, c), Called(SetEventCallback, c), Called(Start, c)];
    var both := [StatusChanged(Starting), StatusChanged(Running)];
    ResumedSteps(called, t, course);
    var u3, u4, u5, u6 := Resumed(called, t, course, 3), Resumed(called, t, course, 4), Resumed(called, t, course, 5),
                          Resumed(called, t, course, 6);
    var a := u3.actor;
    assert calls + [] == calls && [StatusChanged(Starting)] + [] == [StatusChanged(Starting)];
    assert [StatusChanged(Starting)] + [StatusChanged(Running)] == both && both + [] == both;
    assert calls + [Called(Connect, c)] == StartEvents(course, c);
    assert StartEvents(course, c) + [] == StartEvents(course, c);
    CreatedSegments(a, c, EnvOf(u3, t, true));
    Suspends(s, u3, t, true, InitStarting, calls, [StatusChanged(Starting)],
             Segment(a, InitStarting, EnvOf(u3, t, true)));
    CreatedSegments(a, c, EnvOf(u4, t, ok));
    Suspends(s, u4, t, ok, StartReturned, calls, [StatusChanged(Starting)],
             Segment(a, StartReturned, EnvOf(u4, t, ok)));
    CreatedSegments(a, c, EnvOf(u5, t, ok));
    Suspends(s, u5, t, ok, ConnectEntry, calls, both, Segment(a, ConnectEntry, EnvOf(u5, t, ok)));
    CreatedSegments(a, c, EnvOf(u6, t, ok));
    Suspends(s, u6, t, ok, ConnectWaiting, StartEvents(course, c), both, Segment(a, ConnectWaiting, EnvOf(u6, t, ok)));
  }

  lemma ResumedSteps(s: State, t: nat, course: Course)
    ensures Resumed(s, t, course, 1) == Step(s, Resume(t, course.created))
    ensures Resumed(s, t, course, 2) == Step(Resumed(s, t, course, 1), Resume(t, course.created))
    ensures Resumed(s, t, course, 3) == Step(Resumed(s, t, course, 2), Resume(t, course.created))
    ensures Resumed(s, t, course, 4) == Step(Resumed(s, t, course, 3), Resume(t, course.started))
    ensures Resumed(s, t, course, 5) == Step(Resumed(s, t, course, 4), Resume(t, course.connected))
    ensures Resumed(s, t, course, 6) == Step(Resumed(s, t, course, 5), Resume(t, course.connected))
    ensures Resumed(s, t, course, 7) == Step(Resumed(s, t, course, 6), Resume(t, course.connected))
    ensures Resumed(s, t, course, 8) == Step(Resumed(s, t, course, 7), Resume(t, course.connected))
  {
    hide Step;
    assert Resumed(s, t, course, 0) == s;
  }

  lemma ConnectedSegments(a: Actor, connected: bool, env: Env)
    ensures Segment(a, ConnectReturned(connected), env) ==
            if !connected then Effect(a, None, None, None, [], [ErrorRaised])
            else if a.maintenanceTask.Some?
            then Effect(a.(hasPeers := true), None, None, None, [], [ConnectionChanged(true)])
            else
              Effect(a.(hasPeers := true, maintenanceTask := Some(env.freshTask)), None, Some(LoopHead(Loop(0, true))),
                     None, [], [ConnectionChanged(true), MaintenanceChanged(true)])
  {
  }

  /** A start whose node starts: it is running, and if it connects it has peers, and a maintenance loop
      of its own unless one is held. */
  lemma StartRuns(s: State, course: Course)
    requires s.actor.ctx.None? && course.created && course.started
    ensures var t, c := s.nextTask, s.nextCtx;
            var u := Resumed(Step(s, CallStart), t, course, 8);
            && Over(s, u, t, StartEvents(course, c), StartUpdates(course, s.actor.maintenanceTask.Some?))
            && u.actor.ctx == Some(c) && u.actor.hasPeers == (s.actor.hasPeers || course.connected)
            && u.actor.isSubscribed == s.actor.isSubscribed
            && (course.connected && s.actor.maintenanceTask.None? ==>
                  && u.actor.maintenanceTask == Some(t + 1)
                  && t + 1 in u.tasks && u.tasks[t + 1] == LoopHead(Loop(0, true)))
            && (!course.connected || s.actor.maintenanceTask.Some? ==>
                  u.actor.maintenanceTask == s.actor.maintenanceTask)
  {
    hide Step, Segment, Over, Resumed;
    Runs(s, course);
    var t, c := s.nextTask, s.nextCtx;
    var called, ok := Step(s, CallStart), course.connected;
    var both := [StatusChanged(Starting), StatusChanged(Running)];
    ResumedSteps(called, t, course);
    var u := Resumed(called, t, course, 7);
    var e := Segment(u.actor, ConnectReturned(ok), EnvOf(u, t, ok));
    ConnectedSegments(u.actor, ok, EnvOf(u, t, ok));
    Ends(s, u, t, ok, ConnectReturned(ok), StartEvents(course, c), both, e);
    Leaves(u, t, ok, e);
    assert both + e.updates == StartUpdates(course, s.actor.maintenanceTask.Some?);
    assert StartEvents(course, c) + [] == StartEvents(course, c);
  }

  // ----- Cancelled loops -----

  /** Where a loop makes no more calls once it is cancelled. */
  predicate PastItsCalls(pc: Pc) {
    match pc
    case LoopSubscribed(_, _) | LoopRetry(_) | LoopSleep(_, _) | LoopHead(_) | LoopExit => true
    case _ => false
  }

  predicate Silenced(s: State, t: nat) {
    t in s.cancelled && t < s.nextTask && (t in s.tasks ==> PastItsCalls(s.tasks[t]))
  }

  /** The calls that coroutine t makes over a run from s. */
  function CallsBy(s: State, actions: seq<Action>, t: nat): seq<Event> {
    if actions == [] then []
    else
      var before, a := actions[..|actions| - 1], actions[|actions| - 1];
      var u := Run(s, before);
      CallsBy(s, before, t)
      + if a.Resume? && a.task == t && t in u.tasks then Segment(u.actor, u.tasks[t], EnvOf(u, t, a.ok)).events else []
  }

  lemma SilencedSegment(a: Actor, pc: Pc, env: Env)
    requires PastItsCalls(pc) && env.cancelled
    ensures var e := Segment(a, pc, env);
            e.events == [] && e.spawned.None? && e.cancels.None? && (e.next.Some? ==> PastItsCalls(e.next.value))
  {
  }

  lemma StepKeepsSilence(s: State, t: nat, a: Action)
    requires Silenced(s, t)
    ensures Silenced(Step(s, a), t)
  {
    hide Segment, PastItsCalls;
    if a.Resume? && a.task == t && t in s.tasks {
      SilencedSegment(s.actor, s.tasks[t], EnvOf(s, t, a.ok));
    }
  }

  /** A cancelled loop makes no call any more from the moment it has its subscribe's answer, or is at
      its sleep or its head, whatever else runs. */
  lemma {:induction false} CancelledLoopIsSilent(s: State, actions: seq<Action>, t: nat)
    requires Silenced(s, t)
    ensures CallsBy(s, actions, t) == [] && Silenced(Run(s, actions), t)
  {
    hide Segment, PastItsCalls, Step;
    if actions != [] {
      var before, a := actions[..|actions| - 1], actions[|actions| - 1];
      CancelledLoopIsSilent(s, before, t);
      StepKeepsSilence(Run(s, before), t, a);
      var u := Run(s, before);
      if a.Resume? && a.task == t && t in u.tasks {
        SilencedSegment(u.actor, u.tasks[t], EnvOf(u, t, a.ok));
      }
    }
  }

  // ----- What the UI shows -----

  /** Each property of the UI is what the last update of its kind said, or what it was; and errors add
      up. */
  lemma {:induction false} LastUpdateShows(ui: Ui, us: seq<Update>, k: nat)
    requires k < |us|
    ensures var shown := ShownAll(ui, us);
            && (us[k].StatusChanged? && (forall i :: k < i < |us| ==> !us[i].StatusChanged?) ==>
                  shown.status == us[k].status)
            && (us[k].ConnectionChanged? && (forall i :: k < i < |us| ==> !us[i].ConnectionChanged?) ==>
                  shown.isConnected == us[k].isConnected)
            && (us[k].MaintenanceChanged? && (forall i :: k < i < |us| ==> !us[i].MaintenanceChanged?) ==>
                  shown.maintenanceActive == us[k].active)
            && (us[k].FilterChanged? && (forall i :: k < i < |us| ==> !us[i].FilterChanged?) ==>
                  shown.filterSubscribed == us[k].subscribed && shown.failedSubscribeAttempts == us[k].failedAttempts)
  {
    if k < |us| - 1 {
      LastUpdateShows(ui, us[..|us| - 1], k);
    }
  }

  lemma {:induction false} NoUpdateKeeps(ui: Ui, us: seq<Update>)
    ensures var shown := ShownAll(ui, us);
            && ((forall u :: u in us ==> !u.StatusChanged?) ==> shown.status == ui.status)
            && ((forall u :: u in us ==> !u.ConnectionChanged?) ==> shown.isConnected == ui.isConnected)
            && ((forall u :: u in us ==> !u.MaintenanceChanged?) ==> shown.maintenanceActive == ui.maintenanceActive)
  {
    if us != [] {
      var most, last := us[..|us| - 1], us[|us| - 1];
      NoUpdateKeeps(ui, most);
      assert last in us && forall u :: u in most ==> u in us;
    }
  }

  lemma {:induction false} ErrorsAddUp(ui: Ui, us: seq<Update>)
    ensures ShownAll(ui, us).errors == ui.errors + multiset(us)[ErrorRaised]
  {
    if us != [] {
      var most, last := us[..|us| - 1], us[|us| - 1];
      ErrorsAddUp(ui, most);
      assert us == most + [last];
      assert multiset(us) == multiset(most) + multiset{last};
    }
  }
}
