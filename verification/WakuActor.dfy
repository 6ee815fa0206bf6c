/** WakuActor and the status half of WakuNode as classes: each method is one segment, between two
    awaits, and does to the properties what the transition system says. A runtime that resumes the
    suspended coroutines of one actor, in any order, is then a run of the transition system. */
module WakuActor {
  import opened Options
  import opened ActorLifecycle
  import opened ActorMaintenance
  import opened ActorSafety

  class WakuActor {
    var ctx: Option<nat>
    var isSubscribed: bool
    var isSubscribing: bool
    var hasPeers: bool
    var maintenanceTask: Option<nat>
    // The calls made on contexts and the updates sent to the status stream, in order.
    var events: seq<Event>
    var updates: seq<Update>

    function Properties(): Actor
      reads this
    {
      Actor(ctx, isSubscribed, isSubscribing, hasPeers, maintenanceTask)
    }

    /** The method that started on properties a, with these histories, ran the segment at pc. */
    predicate Ran(a: Actor, es: seq<Event>, us: seq<Update>, pc: Pc, env: Env, next: Option<Pc>, spawned: Option<Pc>,
                  cancels: Option<nat>)
      reads this
    {
      var e := Segment(a, pc, env);
      && Properties() == e.actor && events == es + e.events && updates == us + e.updates
      && next == e.next && spawned == e.spawned && cancels == e.cancels
    }

    constructor ()
      ensures Properties() == START.actor && events == [] && updates == []
    {
      ctx, isSubscribed, isSubscribing, hasPeers, maintenanceTask := None, false, false, false, None;
      events, updates := [], [];
    }

    method Yield(update: Update)
      modifies this`updates
      ensures updates == old(updates) + [update]
    {
      updates := updates + [update];
    }

    method Invoke(call: Call, context: nat)
      modifies this`events
      ensures events == old(events) + [Called(call, context)]
    {
      events := events + [Called(call, context)];
    }

    method Start(env: Env) returns (next: Option<Pc>)
      modifies this
      ensures Ran(old(Properties()), old(events), old(updates), StartEntry, env, next, None, None)
    {
      if ctx.Some? {
        return None;
      }
      Yield(StatusChanged(Starting));
      next := Some(InitEntry);
    }

    /** initializeNode up to the creation of the node. */
    method CreateNode(env: Env) returns (next: Option<Pc>)
      modifies this
      ensures Ran(old(Properties()), old(events), old(updates), InitEntry, env, next, None, None)
    {
      if env.ok {
        Invoke(New, env.freshCtx);
        next := Some(InitCreated(Some(env.freshCtx)));
      } else {
        next := Some(InitCreated(None));
      }
    }

    /** initializeNode from there to the start call. */
    method AdoptNode(created: Option<nat>, env: Env) returns (next: Option<Pc>)
      modifies this
      ensures Ran(old(Properties()), old(events), old(updates), InitCreated(created), env, next, None, None)
    {
      if created.None? {
        Yield(StatusChanged(InError));
        Yield(ErrorRaised);
        return None;
      }
      ctx := created;
      Invoke(SetEventCallback, ctx.value);
      Invoke(ActorLifecycle.Start, ctx.value);
      next := Some(InitStarting);
    }

    /** initializeNode after the start call. */
    method NodeStarted(env: Env) returns (next: Option<Pc>)
      modifies this
      ensures Ran(old(Properties()), old(events), old(updates), InitStarting, env, next, None, None)
    {
      if !env.ok {
        Yield(StatusChanged(InError));
        Yield(ErrorRaised);
        ctx := None;
        return None;
      }
      next := Some(StartReturned);
    }

    /** start after initializeNode. */
    method NodeRunning(env: Env) returns (next: Option<Pc>)
      modifies this
      ensures Ran(old(Properties()), old(events), old(updates), StartReturned, env, next, None, None)
    {
      Yield(StatusChanged(Running));
      next := Some(ConnectEntry);
    }

    method ConnectToPeer(env: Env) returns (next: Option<Pc>)
      modifies this
      ensures Ran(old(Properties()), old(events), old(updates), ConnectEntry, env, next, None, None)
    {
      if ctx.None? {
        return Some(ConnectReturned(false));
      }
      Invoke(Connect, ctx.value);
      next := Some(ConnectWaiting);
    }

    /** start after connectToPeer. */
    method Connected(connected: bool, env: Env) returns (spawned: Option<Pc>)
      modifies this
      ensures Ran(old(Properties()), old(events), old(updates), ConnectReturned(connected), env, None, spawned, None)
    {
      spawned := None;
      if connected {
        hasPeers := true;
        Yield(ConnectionChanged(true));
        spawned := StartMaintenanceLoop(env.freshTask);
      } else {
        Yield(ErrorRaised);
      }
    }

    method StartMaintenanceLoop(freshTask: nat) returns (spawned: Option<Pc>)
      modifies this`maintenanceTask, this`updates
      ensures old(maintenanceTask).Some? ==> spawned.None? && unchanged(this)
      ensures old(maintenanceTask).None? ==>
                && spawned == Some(LoopHead(Loop(0, true))) && maintenanceTask == Some(freshTask)
                && updates == old(updates) + [MaintenanceChanged(true)]
    {
      if maintenanceTask.Some? {
        return None;
      }
      Yield(MaintenanceChanged(true));
      maintenanceTask := Some(freshTask);
      spawned := Some(LoopHead(Loop(0, true)));
    }

    method Stop(env: Env) returns (spawned: Option<Pc>, cancels: Option<nat>)
      modifies this
      ensures Ran(old(Properties()), old(events), old(updates), StopEntry, env, None, spawned, cancels)
    {
      if ctx.None? {
        return None, None;
      }
      cancels := maintenanceTask;
      maintenanceTask := None;
      Yield(StatusChanged(Stopped));
      Yield(ConnectionChanged(false));
      Yield(FilterChanged(false, 0));
      Yield(MaintenanceChanged(false));
      var ctxToStop := ctx.value;
      ctx := None;
      isSubscribed := false;
      isSubscribing := false;
      hasPeers := false;
      events := events + [Took(ctxToStop)];
      spawned := Some(Teardown(ctxToStop, 0));
    }

    /** The detached coroutine of stop: its three calls, one at a time. */
    method TearDown(ctxToStop: nat, calls: nat, env: Env) returns (next: Option<Pc>)
      modifies this
      ensures Ran(old(Properties()), old(events), old(updates), Teardown(ctxToStop, calls), env, next, None, None)
    {
      if calls > 2 {
        return None;
      }
      if calls == 0 {
        Invoke(UnsubscribeAll, ctxToStop);
      } else if calls == 1 {
        Invoke(ActorLifecycle.Stop, ctxToStop);
      } else {
        Invoke(Destroy, ctxToStop);
      }
      next := Some(Teardown(ctxToStop, calls + 1));
    }

    method Publish(env: Env) returns (next: Option<Pc>)
      modifies this
      ensures Ran(old(Properties()), old(events), old(updates), PublishEntry, env, next, None, None)
    {
      if ctx.None? {
        return None;
      }
      if !hasPeers {
        Yield(ErrorRaised);
        return None;
      }
      Invoke(ActorLifecycle.Publish, ctx.value);
      next := Some(PublishWaiting);
    }

    /** publish after the call. */
    method Published(env: Env) returns (next: Option<Pc>)
      modifies this
      ensures Ran(old(Properties()), old(events), old(updates), PublishWaiting, env, next, None, None)
    {
      if !env.ok {
        Yield(ErrorRaised);
      }
      next := None;
    }

    method Resubscribe(env: Env) returns (next: Option<Pc>)
      modifies this
      ensures Ran(old(Properties()), old(events), old(updates), ResubscribeEntry, env, next, None, None)
    {
      isSubscribed := false;
      isSubscribing := false;
      Yield(FilterChanged(false, 0));
      next := Some(SubscribeEntry(Resubscriber));
    }

    method Subscribe(caller: Caller, env: Env) returns (next: Option<Pc>)
      modifies this
      ensures Ran(old(Properties()), old(events), old(updates), SubscribeEntry(caller), env, next, None, None)
    {
      if ctx.None? {
        return Returned(caller, false);
      }
      if isSubscribed || isSubscribing {
        return Returned(caller, isSubscribed);
      }
      isSubscribing := true;
      Invoke(ActorLifecycle.Subscribe, ctx.value);
      next := Some(SubscribeWaiting(caller));
    }

    /** subscribe after the call. */
    method Subscribed(caller: Caller, env: Env) returns (next: Option<Pc>)
      modifies this
      ensures Ran(old(Properties()), old(events), old(updates), SubscribeWaiting(caller), env, next, None, None)
    {
      isSubscribing := false;
      if env.ok {
        isSubscribed := true;
        Yield(FilterChanged(true, 0));
      } else {
        isSubscribed := false;
      }
      next := Returned(caller, env.ok);
    }

    method PingFilterPeer(loop: Loop, env: Env) returns (next: Option<Pc>)
      modifies this
      ensures Ran(old(Properties()), old(events), old(updates), PingEntry(loop), env, next, None, None)
    {
      if ctx.None? {
        return Some(LoopPinged(loop, false));
      }
      Invoke(Ping, ctx.value);
      next := Some(PingWaiting(loop));
    }

    method ResetSubscriptionState(loop: Loop, env: Env) returns (next: Option<Pc>)
      modifies this
      ensures Ran(old(Properties()), old(events), old(updates), LoopReset(loop), env, next, None, None)
    {
      isSubscribed := false;
      isSubscribing := false;
      next := Some(SubscribeEntry(Maintainer(loop)));
    }

    // The closure of the maintenance loop, between its calls into the actor.

    method Decide(loop: Loop, pingSuccess: bool, currentlySubscribed: bool, env: Env) returns (next: Option<Pc>)
      modifies this
      ensures Ran(old(Properties()), old(events), old(updates), LoopDecide(loop, pingSuccess, currentlySubscribed), env,
                  next, None, None)
    {
      if pingSuccess && currentlySubscribed {
        return Some(LoopSleep(loop, MAINTENANCE_INTERVAL_SECONDS));
      }
      if !loop.isFirstPing && !pingSuccess {
        Yield(FilterChanged(false, loop.failedSubscribes));
      }
      next := Some(LoopReset(loop.(isFirstPing := false)));
    }

    method SubscribeAnswered(loop: Loop, subscribeSuccess: bool, env: Env) returns (next: Option<Pc>)
      modifies this
      ensures Ran(old(Properties()), old(events), old(updates), LoopSubscribed(loop, subscribeSuccess), env,
                  next, None, None)
    {
      if subscribeSuccess {
        return Some(LoopSleep(loop.(failedSubscribes := 0), MAINTENANCE_INTERVAL_SECONDS));
      }
      var failed := loop.failedSubscribes + 1;
      Yield(FilterChanged(false, failed));
      next := Some(LoopRetry(loop.(failedSubscribes := failed)));
    }

    method Retry(loop: Loop, env: Env) returns (next: Option<Pc>)
      modifies this
      ensures Ran(old(Properties()), old(events), old(updates), LoopRetry(loop), env, next, None, None)
    {
      if loop.failedSubscribes < MAX_FAILED_SUBSCRIBES {
        return Some(LoopSleep(loop, RETRY_WAIT_SECONDS));
      }
      Yield(ErrorRaised);
      next := Some(LoopSleep(loop.(failedSubscribes := 0), MAINTENANCE_INTERVAL_SECONDS));
    }

    method LoopEnded(env: Env) returns (next: Option<Pc>)
      modifies this
      ensures Ran(old(Properties()), old(events), old(updates), LoopExit, env, next, None, None)
    {
      Yield(MaintenanceChanged(false));
      next := None;
    }

    /** Whichever segment comes at pc. */
    method RunSegment(pc: Pc, env: Env) returns (next: Option<Pc>, spawned: Option<Pc>, cancels: Option<nat>)
      modifies this
      ensures Ran(old(Properties()), old(events), old(updates), pc, env, next, spawned, cancels)
    {
      next, spawned, cancels := None, None, None;
      match pc
      case StartEntry => next := Start(env);
      case InitEntry => next := CreateNode(env);
      case InitCreated(created) => next := AdoptNode(created, env);
      case InitStarting => next := NodeStarted(env);
      case StartReturned => next := NodeRunning(env);
      case ConnectEntry => next := ConnectToPeer(env);
      case ConnectWaiting => next := Some(ConnectReturned(env.ok));
      case ConnectReturned(connected) => spawned := Connected(connected, env);
      case StopEntry => spawned, cancels := Stop(env);
      case Teardown(ctxToStop, calls) => next := TearDown(ctxToStop, calls, env);
      case PublishEntry => next := Publish(env);
      case PublishWaiting => next := Published(env);
      case ResubscribeEntry => next := Resubscribe(env);
      case SubscribeEntry(caller) => next := Subscribe(caller, env);
      case SubscribeWaiting(caller) => next := Subscribed(caller, env);
      case PingEntry(loop) => next := PingFilterPeer(loop, env);
      case PingWaiting(loop) => next := Some(LoopPinged(loop, env.ok));
      case LoopReset(loop) => next := ResetSubscriptionState(loop, env);
      case LoopHead(loop) => next := Some(if env.cancelled then LoopExit else LoopCheck(loop));
      case LoopCheck(loop) => next := Some(if ctx.None? then LoopExit else PingEntry(loop));
      case LoopPinged(loop, pinged) => next := Some(LoopDecide(loop, pinged, isSubscribed));
      case LoopDecide(loop, pinged, subscribed) => next := Decide(loop, pinged, subscribed, env);
      case LoopSubscribed(loop, success) => next := SubscribeAnswered(loop, success, env);
      case LoopRetry(loop) => next := Retry(loop, env);
      case LoopSleep(loop, _) => next := Some(LoopHead(loop));
      case LoopExit => next := LoopEnded(env);
    }

    /** The peer events Joined and Identified connect, Left drops the filter status, and any other
        is ignored. */
    method HandleConnectionChange(peerEvent: string)
      modifies this
      ensures peerEvent == "Joined" || peerEvent == "Identified" ==>
                && Properties() == old(Properties()).(hasPeers := true) && events == old(events)
                && updates == old(updates) + [ConnectionChanged(true)]
      ensures peerEvent == "Left" ==>
                && Properties() == old(Properties()) && events == old(events)
                && updates == old(updates) + [FilterChanged(false, 0)]
      ensures peerEvent !in {"Joined", "Identified", "Left"} ==> unchanged(this)
    {
      if peerEvent == "Joined" || peerEvent == "Identified" {
        hasPeers := true;
        Yield(ConnectionChanged(true));
      } else if peerEvent == "Left" {
        Yield(FilterChanged(false, 0));
      }
    }
  }

  lemma OnlyCreationIsNew(a: Actor, pc: Pc, env: Env)
    ensures Called(New, env.freshCtx) in Segment(a, pc, env).events <==> pc.InitEntry? && env.ok
  {
  }

  /** The Swift runtime, as far as one actor sees it: its suspended coroutines and what it hands out. */
  class Runtime {
    const actor: WakuActor
    var tasks: map<nat, Pc>
    var cancelled: set<nat>
    var nextTask: nat
    var nextCtx: nat

    function Whole(): State
      reads this, actor
    {
      State(actor.Properties(), tasks, cancelled, nextTask, nextCtx, actor.events, actor.updates)
    }

    constructor ()
      ensures Whole() == START && fresh(actor)
    {
      actor := new WakuActor();
      tasks, cancelled, nextTask, nextCtx := map[], {}, 0, 0;
    }

    /** Calling an API function starts a coroutine. */
    method Spawn(pc: Pc)
      modifies this
      ensures Whole() == ActorLifecycle.Spawn(old(Whole()), pc)
    {
      tasks := tasks[nextTask := pc];
      nextTask := nextTask + 1;
    }

    method ResumeTask(task: nat, ok: bool)
      modifies this, actor
      ensures Whole() == Step(old(Whole()), Resume(task, ok))
    {
      hide Segment, ActorLifecycle.Spawn;
      if task !in tasks {
        return;
      }
      var pc, env := tasks[task], Env(ok, task in cancelled, nextCtx, nextTask);
      OnlyCreationIsNew(actor.Properties(), pc, env);
      var next, spawned, cancels := actor.RunSegment(pc, env);
      tasks := tasks - {task};
      if next.Some? {
        tasks := tasks[task := next.value];
      }
      if spawned.Some? {
        tasks := tasks[nextTask := spawned.value];
        nextTask := nextTask + 1;
      }
      if cancels.Some? {
        cancelled := cancelled + {cancels.value};
      }
      if pc.InitEntry? && ok {
        nextCtx := nextCtx + 1;
      }
    }

    method Perform(a: Action)
      modifies this, actor
      ensures Whole() == Step(old(Whole()), a)
    {
      hide Segment;
      match a
      case CallStart => Spawn(StartEntry);
      case CallStop => Spawn(StopEntry);
      case CallPublish => Spawn(PublishEntry);
      case CallResubscribe => Spawn(ResubscribeEntry);
      case Resume(task, ok) => ResumeTask(task, ok);
      case PeerJoined => actor.HandleConnectionChange("Joined");
      case PeerLeft => actor.HandleConnectionChange("Left");
    }

    /** Any schedule from the start is a run of the transition system. So in the actor's own history
        every context that stop took sees the teardown and nothing else, and an uncancelled
        maintenance loop is the one that the actor holds. */
    method PerformAll(actions: seq<Action>)
      requires Whole() == START
      modifies this, actor
      ensures Whole() == Run(START, actions)
      ensures forall c: nat :: Proper(On(actor.events, c), c)
      ensures forall t :: t in tasks && LoopTask(tasks[t]) && t !in cancelled ==> actor.maintenanceTask == Some(t)
    {
      hide Step, On, Proper;
      for i := 0 to |actions|
        invariant Whole() == Run(START, actions[..i])
      {
        Perform(actions[i]);
        assert actions[..i + 1][..i] == actions[..i];
      }
      assert actions[..|actions|] == actions;
      forall c: nat ensures Proper(On(actor.events, c), c) {
        TeardownIsLast(actions, c);
      }
      RunKeepsSingle(actions);
    }
  }

  class WakuNode {
    var status: NodeStatus
    var isConnected: bool
    var filterSubscribed: bool
    var failedSubscribeAttempts: nat
    var subscriptionMaintenanceActive: bool
    var errors: nat

    function Shows(): Ui
      reads this
    {
      Ui(status, isConnected, filterSubscribed, failedSubscribeAttempts, subscriptionMaintenanceActive, errors)
    }

    method HandleStatusUpdate(update: Update)
      modifies this
      ensures Shows() == Shown(old(Shows()), update)
    {
      match update
      case StatusChanged(newStatus) => status := newStatus;
      case ConnectionChanged(connected) => isConnected := connected;
      case FilterChanged(subscribed, attempts) =>
        filterSubscribed := subscribed;
        failedSubscribeAttempts := attempts;
      case MaintenanceChanged(active) => subscriptionMaintenanceActive := active;
      case ErrorRaised => errors := errors + 1;
    }

    /** The status task: the stream's updates, one by one. */
    method ConsumeStatus(stream: seq<Update>)
      modifies this
      ensures Shows() == ShownAll(old(Shows()), stream)
    {
      for i := 0 to |stream|
        invariant Shows() == ShownAll(old(Shows()), stream[..i])
      {
        HandleStatusUpdate(stream[i]);
        assert stream[..i + 1][..i] == stream[..i];
      }
      assert stream[..|stream|] == stream;
    }
  }
}
