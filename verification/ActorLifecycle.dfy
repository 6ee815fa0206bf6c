/** WakuActor of WakuNode.swift as a transition system. A task is a coroutine suspended at a
    control point; a step runs one task from its suspension point to the next. Every `await` is
    taken as a possible suspension, on entry and on return, so any Swift schedule is a run here. */
module ActorLifecycle {
  import opened Options

  /** The C calls made on a context. */
  datatype Call =
    | New | SetEventCallback | Start | Connect | Subscribe | Ping | Publish
    | UnsubscribeAll | Stop | Destroy

  /** What happens to contexts: a call on one, or stop taking one out of the actor. */
  datatype Event = Called(call: Call, ctx: nat) | Took(ctx: nat)

  datatype NodeStatus = Stopped | Starting | Running | InError

  /** The updates sent to the UI. */
  datatype Update =
    | StatusChanged(status: NodeStatus)
    | ConnectionChanged(isConnected: bool)
    | FilterChanged(subscribed: bool, failedAttempts: nat)
    | MaintenanceChanged(active: bool)
    | ErrorRaised

  const MAX_FAILED_SUBSCRIBES := 3
  const RETRY_WAIT_SECONDS := 2
  const MAINTENANCE_INTERVAL_SECONDS := 30

  /** The actor's stored properties; contexts and tasks are numbered as they are created. */
  datatype Actor = Actor(
    ctx: Option<nat>,
    isSubscribed: bool,
    isSubscribing: bool,
    hasPeers: bool,
    maintenanceTask: Option<nat>)

  /** The maintenance loop's local variables. */
  datatype Loop = Loop(failedSubscribes: nat, isFirstPing: bool)

  /** Who awaits a subscribe. */
  datatype Caller = Resubscriber | Maintainer(loop: Loop)

  /** Suspension points. */
  datatype Pc =
    | StartEntry | InitEntry | InitCreated(ctx: Option<nat>) | InitStarting | StartReturned
    | ConnectEntry | ConnectWaiting | ConnectReturned(connected: bool)
    | StopEntry | Teardown(taken: nat, calls: nat)
    | PublishEntry | PublishWaiting
    | ResubscribeEntry | SubscribeEntry(caller: Caller) | SubscribeWaiting(caller: Caller)
    | LoopHead(loop: Loop) | LoopCheck(loop: Loop)
    | PingEntry(loop: Loop) | PingWaiting(loop: Loop)
    | LoopPinged(loop: Loop, pinged: bool) | LoopDecide(loop: Loop, pinged: bool, subscribed: bool)
    | LoopReset(loop: Loop) | LoopSubscribed(loop: Loop, success: bool)
    | LoopRetry(loop: Loop) | LoopSleep(loop: Loop, seconds: nat) | LoopExit

  /** What the environment decides for one step: how the awaited call ended, whether its coroutine is
      cancelled, and the numbers the next context and task get. */
  datatype Env = Env(ok: bool, cancelled: bool, freshCtx: nat, freshTask: nat)

  /** What one segment does: the new properties, where its coroutine suspends next (None when it ends),
      a task it starts, whether it cancels the maintenance task, its calls and its updates. */
  datatype Effect = Effect(
    actor: Actor,
    next: Option<Pc>,
    spawned: Option<Pc>,
    cancels: Option<nat>,
    events: seq<Event>,
    updates: seq<Update>)

  function Goes(actor: Actor, pc: Pc): Effect {
    Effect(actor, Some(pc), None, None, [], [])
  }

  function Ends(actor: Actor, updates: seq<Update>): Effect {
    Effect(actor, None, None, None, [], updates)
  }

  function Calls(actor: Actor, call: Call, ctx: nat, pc: Pc): Effect {
    Effect(actor, Some(pc), None, None, [Called(call, ctx)], [])
  }

  function Sends(actor: Actor, update: Update, pc: Pc): Effect {
    Effect(actor, Some(pc), None, None, [], [update])
  }

  // ----- The segments -----

  function StartSegment(a: Actor): Effect {
    if a.ctx.Some? then Ends(a, []) else Sends(a, StatusChanged(Starting), InitEntry)
  }

  function CreateSegment(a: Actor, env: Env): Effect {
    if env.ok then Calls(a, New, env.freshCtx, InitCreated(Some(env.freshCtx)))
    else Goes(a, InitCreated(None))
  }

  function AdoptSegment(a: Actor, created: Option<nat>): Effect {
    match created
    case None => Ends(a, [StatusChanged(InError), ErrorRaised])
    case Some(c) =>
      Effect(a.(ctx := Some(c)), Some(InitStarting), None, None, [Called(SetEventCallback, c), Called(Start, c)], [])
  }

  function StartedSegment(a: Actor, env: Env): Effect {
    if env.ok then Goes(a, StartReturned)
    else Ends(a.(ctx := None), [StatusChanged(InError), ErrorRaised])
  }

  function ConnectSegment(a: Actor): Effect {
    match a.ctx
    case None => Goes(a, ConnectReturned(false))
    case Some(c) => Calls(a, Connect, c, ConnectWaiting)
  }

  /** The rest of start, with startMaintenanceLoop. */
  function ConnectedSegment(a: Actor, connected: bool, env: Env): Effect {
    if !connected then Ends(a, [ErrorRaised])
    else if a.maintenanceTask.Some? then Ends(a.(hasPeers := true), [ConnectionChanged(true)])
    else
      Effect(a.(hasPeers := true, maintenanceTask := Some(env.freshTask)), None, Some(LoopHead(Loop(0, true))), None,
             [], [ConnectionChanged(true), MaintenanceChanged(true)])
  }

  function StopSegment(a: Actor): Effect {
    match a.ctx
    case None => Ends(a, [])
    case Some(c) =>
      Effect(Actor(None, false, false, false, None), None, Some(Teardown(c, 0)), a.maintenanceTask, [Took(c)],
             [StatusChanged(Stopped), ConnectionChanged(false), FilterChanged(false, 0), MaintenanceChanged(false)])
  }

  /** The detached task: three calls on the context that stop took, each awaited. */
  function TeardownSegment(a: Actor, c: nat, calls: nat): Effect {
    if calls == 0 then Calls(a, UnsubscribeAll, c, Teardown(c, 1))
    else if calls == 1 then Calls(a, Stop, c, Teardown(c, 2))
    else if calls == 2 then Calls(a, Destroy, c, Teardown(c, 3))
    else Ends(a, [])
  }

  function PublishSegment(a: Actor): Effect {
    match a.ctx
    case None => Ends(a, [])
    case Some(c) => if a.hasPeers then Calls(a, Publish, c, PublishWaiting) else Ends(a, [ErrorRaised])
  }

  function ResubscribeSegment(a: Actor): Effect {
    Sends(a.(isSubscribed := false, isSubscribing := false), FilterChanged(false, 0), SubscribeEntry(Resubscriber))
  }

  function Returned(caller: Caller, success: bool): Option<Pc> {
    match caller
    case Resubscriber => None
    case Maintainer(loop) => Some(LoopSubscribed(loop, success))
  }

  function SubscribeSegment(a: Actor, caller: Caller): Effect {
    match a.ctx
    case None => Effect(a, Returned(caller, false), None, None, [], [])
    case Some(c) =>
      if a.isSubscribed || a.isSubscribing then Effect(a, Returned(caller, a.isSubscribed), None, None, [], [])
      else Calls(a.(isSubscribing := true), Subscribe, c, SubscribeWaiting(caller))
  }

  function SubscribedSegment(a: Actor, caller: Caller, env: Env): Effect {
    Effect(a.(isSubscribing := false, isSubscribed := env.ok), Returned(caller, env.ok), None, None, [],
           if env.ok then [FilterChanged(true, 0)] else [])
  }

  function PingSegment(a: Actor, loop: Loop): Effect {
    match a.ctx
    case None => Goes(a, LoopPinged(loop, false))
    case Some(c) => Calls(a, Ping, c, PingWaiting(loop))
  }

  function DecideSegment(a: Actor, loop: Loop, pinged: bool, subscribed: bool): Effect {
    if pinged && subscribed then Goes(a, LoopSleep(loop, MAINTENANCE_INTERVAL_SECONDS))
    else
      var pc := LoopReset(loop.(isFirstPing := false));
      if !loop.isFirstPing && !pinged then Sends(a, FilterChanged(false, loop.failedSubscribes), pc) else Goes(a, pc)
  }

  function AfterSubscribe(a: Actor, loop: Loop, success: bool): Effect {
    if success then Goes(a, LoopSleep(loop.(failedSubscribes := 0), MAINTENANCE_INTERVAL_SECONDS))
    else
      var failed := loop.failedSubscribes + 1;
      Sends(a, FilterChanged(false, failed), LoopRetry(loop.(failedSubscribes := failed)))
  }

  function RetrySegment(a: Actor, loop: Loop): Effect {
    if loop.failedSubscribes < MAX_FAILED_SUBSCRIBES then Goes(a, LoopSleep(loop, RETRY_WAIT_SECONDS))
    else Sends(a, ErrorRaised, LoopSleep(loop.(failedSubscribes := 0), MAINTENANCE_INTERVAL_SECONDS))
  }

  function Segment(a: Actor, pc: Pc, env: Env): Effect {
    match pc
    case StartEntry => StartSegment(a)
    case InitEntry => CreateSegment(a, env)
    case InitCreated(created) => AdoptSegment(a, created)
    case InitStarting => StartedSegment(a, env)
    case StartReturned => Sends(a, StatusChanged(Running), ConnectEntry)
    case ConnectEntry => ConnectSegment(a)
    case ConnectWaiting => Goes(a, ConnectReturned(env.ok))
    case ConnectReturned(connected) => ConnectedSegment(a, connected, env)
    case StopEntry => StopSegment(a)
    case Teardown(c, calls) => TeardownSegment(a, c, calls)
    case PublishEntry => PublishSegment(a)
    case PublishWaiting => Ends(a, if env.ok then [] else [ErrorRaised])
    case ResubscribeEntry => ResubscribeSegment(a)
    case SubscribeEntry(caller) => SubscribeSegment(a, caller)
    case SubscribeWaiting(caller) => SubscribedSegment(a, caller, env)
    case LoopHead(loop) => Goes(a, if env.cancelled then LoopExit else LoopCheck(loop))
    case LoopCheck(loop) => Goes(a, if a.ctx.None? then LoopExit else PingEntry(loop))
    case PingEntry(loop) => PingSegment(a, loop)
    case PingWaiting(loop) => Goes(a, LoopPinged(loop, env.ok))
    case LoopPinged(loop, pinged) => Goes(a, LoopDecide(loop, pinged, a.isSubscribed))
    case LoopDecide(loop, pinged, subscribed) => DecideSegment(a, loop, pinged, subscribed)
    case LoopReset(loop) =>
      Goes(a.(isSubscribed := false, isSubscribing := false), SubscribeEntry(Maintainer(loop)))
    case LoopSubscribed(loop, success) => AfterSubscribe(a, loop, success)
    case LoopRetry(loop) => RetrySegment(a, loop)
    case LoopSleep(loop, _) => Goes(a, LoopHead(loop))
    case LoopExit => Ends(a, [MaintenanceChanged(false)])
  }

  // ----- The machine -----

  /** `events` and `updates` are the histories of calls and of updates sent. */
  datatype State = State(
    actor: Actor,
    tasks: map<nat, Pc>,
    cancelled: set<nat>,
    nextTask: nat,
    nextCtx: nat,
    events: seq<Event>,
    updates: seq<Update>)

  const START := State(Actor(None, false, false, false, None), map[], {}, 0, 0, [], [])

  /** The app calls an API function, a task resumes, or a library event is handled. */
  datatype Action =
    | CallStart | CallStop | CallPublish | CallResubscribe
    | Resume(task: nat, ok: bool)
    | PeerJoined | PeerLeft

  function Spawn(s: State, pc: Pc): State {
    s.(tasks := s.tasks[s.nextTask := pc], nextTask := s.nextTask + 1)
  }

  function EnvOf(s: State, task: nat, ok: bool): Env {
    Env(ok, task in s.cancelled, s.nextCtx, s.nextTask)
  }

  function Apply(s: State, task: nat, e: Effect): State {
    var rest := s.tasks - {task};
    var moved := if e.next.Some? then rest[task := e.next.value] else rest;
    State(
      e.actor,
      if e.spawned.Some? then moved[s.nextTask := e.spawned.value] else moved,
      if e.cancels.Some? then s.cancelled + {e.cancels.value} else s.cancelled,
      if e.spawned.Some? then s.nextTask + 1 else s.nextTask,
      if Called(New, s.nextCtx) in e.events then s.nextCtx + 1 else s.nextCtx,
      s.events + e.events,
      s.updates + e.updates)
  }

  function Step(s: State, a: Action): State {
    match a
    case CallStart => Spawn(s, StartEntry)
    case CallStop => Spawn(s, StopEntry)
    case CallPublish => Spawn(s, PublishEntry)
    case CallResubscribe => Spawn(s, ResubscribeEntry)
    case Resume(task, ok) =>
      if task in s.tasks then Apply(s, task, Segment(s.actor, s.tasks[task], EnvOf(s, task, ok))) else s
    case PeerJoined => s.(actor := s.actor.(hasPeers := true), updates := s.updates + [ConnectionChanged(true)])
    case PeerLeft => s.(updates := s.updates + [FilterChanged(false, 0)])
  }

  function Run(s: State, actions: seq<Action>): State {
    if actions == [] then s else Step(Run(s, actions[..|actions| - 1]), actions[|actions| - 1])
  }

  lemma RunSnoc(s: State, actions: seq<Action>, a: Action)
    ensures Run(s, actions + [a]) == Step(Run(s, actions), a)
  {
    assert (actions + [a])[..|actions|] == actions;
  }

  /** A segment that suspends again changes only its own coroutine's place. */
  lemma Moves(s: State, t: nat, ok: bool, e: Effect)
    requires t in s.tasks && e == Segment(s.actor, s.tasks[t], EnvOf(s, t, ok))
    requires e.next.Some? && e.spawned.None? && e.cancels.None?
    ensures var u := Step(s, Resume(t, ok));
            && u.actor == e.actor && u.tasks == s.tasks[t := e.next.value]
            && u.cancelled == s.cancelled && u.nextTask == s.nextTask
            && u.events == s.events + e.events && u.updates == s.updates + e.updates
  {
    hide Segment;
    assert (s.tasks - {t})[t := e.next.value] == s.tasks[t := e.next.value];
  }

  /** A segment that ends takes its coroutine away, and may start one. */
  lemma Leaves(s: State, t: nat, ok: bool, e: Effect)
    requires t in s.tasks && e == Segment(s.actor, s.tasks[t], EnvOf(s, t, ok)) && e.next.None? && e.cancels.None?
    ensures var u := Step(s, Resume(t, ok));
            && u.actor == e.actor && u.cancelled == s.cancelled
            && u.tasks == (if e.spawned.Some? then (s.tasks - {t})[s.nextTask := e.spawned.value] else s.tasks - {t})
            && u.events == s.events + e.events && u.updates == s.updates + e.updates
            && u.nextTask == if e.spawned.Some? then s.nextTask + 1 else s.nextTask
  {
    hide Segment;
  }
}
