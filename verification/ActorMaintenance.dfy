/** The maintenance loop inside the actor: one loop at a time in every interleaving, and, in runs
    that nothing else disturbs, what it tells the UI and when it asks for a subscription. */
module ActorMaintenance {
  import opened Options
  import opened ActorLifecycle

  /** The control points of the maintenance task, those inside its calls included. */
  predicate LoopTask(pc: Pc) {
    match pc
    case LoopHead(_) | LoopCheck(_) | PingEntry(_) | PingWaiting(_) | LoopPinged(_, _) => true
    case LoopDecide(_, _, _) | LoopReset(_) | LoopSubscribed(_, _) | LoopRetry(_) | LoopSleep(_, _) | LoopExit => true
    case SubscribeEntry(caller) => caller.Maintainer?
    case SubscribeWaiting(caller) => caller.Maintainer?
    case _ => false
  }

  // ----- One maintenance task -----

  ghost predicate Single(s: State) {
    && (forall t :: t in s.tasks ==> t < s.nextTask)
    && (forall t :: t in s.cancelled ==> t < s.nextTask)
    && (s.actor.maintenanceTask.Some? ==>
          s.actor.maintenanceTask.value < s.nextTask && s.actor.maintenanceTask.value !in s.cancelled)
    && (forall t :: t in s.tasks && LoopTask(s.tasks[t]) && t !in s.cancelled ==> s.actor.maintenanceTask == Some(t))
  }

  /** How a segment can change which loop is the current one. */
  lemma LoopOwnership(a: Actor, pc: Pc, env: Env)
    ensures var e := Segment(a, pc, env);
            && (e.next.Some? && LoopTask(e.next.value) ==> LoopTask(pc))
            && (e.spawned.Some? && LoopTask(e.spawned.value) ==>
                  !LoopTask(pc) && e.cancels.None? && a.maintenanceTask.None?
                  && e.actor.maintenanceTask == Some(env.freshTask))
            && (!(e.spawned.Some? && LoopTask(e.spawned.value)) ==>
                  (e.actor.maintenanceTask == a.maintenanceTask && e.cancels.None?)
                  || (e.actor.maintenanceTask.None? && e.cancels == a.maintenanceTask && e.next.None?))
  {
  }

  lemma SegmentKeepsSingle(s: State, task: nat, env: Env)
    requires Single(s) && task in s.tasks && env.freshTask == s.nextTask
    ensures Single(Apply(s, task, Segment(s.actor, s.tasks[task], env)))
  {
    hide Segment, LoopTask;
    LoopOwnership(s.actor, s.tasks[task], env);
  }

  lemma StepKeepsSingle(s: State, a: Action)
    requires Single(s)
    ensures Single(Step(s, a))
  {
    hide Segment, Apply;
    match a
    case Resume(task, ok) => if task in s.tasks { SegmentKeepsSingle(s, task, EnvOf(s, task, ok)); }
    case _ =>
  }

  lemma {:induction false} RunKeepsSingle(actions: seq<Action>)
    ensures Single(Run(START, actions))
  {
    hide Step;
    if actions != [] {
      RunKeepsSingle(actions[..|actions| - 1]);
      StepKeepsSingle(Run(START, actions[..|actions| - 1]), actions[|actions| - 1]);
    }
  }

  /** In every interleaving, an uncancelled maintenance task is the one that the actor holds, so
      there is at most one. */
  lemma {:induction false} OneMaintenanceTask(actions: seq<Action>, t: nat, u: nat)
    requires var s := Run(START, actions);
             t in s.tasks && LoopTask(s.tasks[t]) && t !in s.cancelled
    ensures var s := Run(START, actions);
            && s.actor.maintenanceTask == Some(t)
            && (u in s.tasks && LoopTask(s.tasks[u]) && u !in s.cancelled ==> u == t)
  {
    hide Run, LoopTask;
    RunKeepsSingle(actions);
  }

  // ----- The UI -----

  /** The properties of WakuNode that status updates set; `errors` counts the errors queued. */
  datatype Ui = Ui(
    status: NodeStatus,
    isConnected: bool,
    filterSubscribed: bool,
    failedSubscribeAttempts: nat,
    maintenanceActive: bool,
    errors: nat)

  function Shown(ui: Ui, update: Update): Ui {
    match update
    case StatusChanged(status) => ui.(status := status)
    case ConnectionChanged(isConnected) => ui.(isConnected := isConnected)
    case FilterChanged(subscribed, attempts) => ui.(filterSubscribed := subscribed, failedSubscribeAttempts := attempts)
    case MaintenanceChanged(active) => ui.(maintenanceActive := active)
    case ErrorRaised => ui.(errors := ui.errors + 1)
  }

  function ShownAll(ui: Ui, updates: seq<Update>): Ui {
    if updates == [] then ui else Shown(ShownAll(ui, updates[..|updates| - 1]), updates[|updates| - 1])
  }

  lemma {:induction false} ShownAppend(ui: Ui, us: seq<Update>, more: seq<Update>)
    ensures ShownAll(ui, us + more) == ShownAll(ShownAll(ui, us), more)
    decreases |more|
  {
    if more == [] {
      assert us + more == us;
    } else {
      assert (us + more)[..|us + more| - 1] == us + more[..|more| - 1];
      ShownAppend(ui, us, more[..|more| - 1]);
    }
  }

  // ----- Runs that nobody stops -----

  /** Nobody stops the node or resubscribes. */
  predicate Unstopped(actions: seq<Action>) {
    forall a :: a in actions ==> !a.CallStop? && !a.CallResubscribe?
  }

  /** The control points such a run reaches. */
  predicate Calm(pc: Pc) {
    match pc
    case StopEntry | Teardown(_, _) | ResubscribeEntry => false
    case SubscribeEntry(caller) => caller.Maintainer?
    case SubscribeWaiting(caller) => caller.Maintainer?
    case _ => true
  }

  /** Between iterations: the UI shows the actor's subscription, and the failed attempts it shows
      are the loop's count, which restarts at three, unless a peer has `left` since the last filter
      status. Before the first iteration ends the UI may show anything and nothing is subscribed. */
  predicate Settled(a: Actor, ui: Ui, left: bool, loop: Loop) {
    && !a.isSubscribing && loop.failedSubscribes < MAX_FAILED_SUBSCRIBES
    && (loop.isFirstPing ==> !a.isSubscribed && loop.failedSubscribes == 0)
    && (!loop.isFirstPing && !left ==>
          ui.filterSubscribed == a.isSubscribed
          && ui.failedSubscribeAttempts % MAX_FAILED_SUBSCRIBES == loop.failedSubscribes)
  }

  /** Looking for a subscription, with the flags reset. */
  predicate Seeking(a: Actor, loop: Loop) {
    !a.isSubscribed && !loop.isFirstPing && loop.failedSubscribes < MAX_FAILED_SUBSCRIBES
  }

  /** The filter status that a leaving peer makes the UI show. */
  predicate Dropped(ui: Ui) {
    !ui.filterSubscribed && ui.failedSubscribeAttempts == 0
  }

  predicate TellsFilter(us: seq<Update>) {
    exists u :: u in us && u.FilterChanged?
  }

  predicate Agrees(a: Actor, ui: Ui, left: bool, pc: Pc) {
    match pc
    case LoopHead(loop) => Settled(a, ui, left, loop)
    case LoopCheck(loop) => Settled(a, ui, left, loop)
    case PingEntry(loop) => Settled(a, ui, left, loop)
    case PingWaiting(loop) => Settled(a, ui, left, loop)
    case LoopPinged(loop, _) => Settled(a, ui, left, loop)
    case LoopDecide(loop, _, subscribed) => Settled(a, ui, left, loop) && subscribed == a.isSubscribed
    case LoopReset(loop) => !loop.isFirstPing && loop.failedSubscribes < MAX_FAILED_SUBSCRIBES
    case SubscribeEntry(Maintainer(loop)) => Seeking(a, loop) && !a.isSubscribing
    case SubscribeWaiting(Maintainer(loop)) => Seeking(a, loop)
    case LoopSubscribed(loop, success) =>
      && Seeking(a.(isSubscribed := false), loop) && !a.isSubscribing && a.isSubscribed == success
      && (success && !left ==> ui.filterSubscribed && ui.failedSubscribeAttempts == 0)
    case LoopRetry(loop) =>
      && !a.isSubscribed && !a.isSubscribing && !loop.isFirstPing && loop.failedSubscribes <= MAX_FAILED_SUBSCRIBES
      && (!left ==> !ui.filterSubscribed && ui.failedSubscribeAttempts == loop.failedSubscribes)
    case LoopSleep(loop, _) => Settled(a, ui, left, loop) && !loop.isFirstPing
    case _ => true
  }

  /** A loop segment stays in the loop, starts and cancels nothing, and sends one update at most. */
  lemma LoopSegmentShape(a: Actor, pc: Pc, env: Env)
    requires LoopTask(pc) && Calm(pc)
    ensures var e := Segment(a, pc, env);
            && e.spawned.None? && e.cancels.None? && e.actor.maintenanceTask == a.maintenanceTask && |e.updates| <= 1
            && (e.next.Some? ==> LoopTask(e.next.value) && Calm(e.next.value))
  {
  }

  /** The UI after what a loop segment sends. */
  function After(ui: Ui, us: seq<Update>): Ui {
    if |us| == 1 then Shown(ui, us[0]) else ui
  }

  /** A leaving peer is outdated by the next filter status that a loop segment sends. */
  predicate StillLeft(left: bool, us: seq<Update>) {
    left && !(|us| == 1 && us[0].FilterChanged?)
  }

  lemma StillLeftIs(left: bool, us: seq<Update>)
    requires |us| <= 1
    ensures StillLeft(left, us) <==> left && !TellsFilter(us)
  {
    if |us| == 1 && us[0].FilterChanged? {
      assert us[0] in us;
    }
  }

  lemma LoopSegmentAgrees(a: Actor, ui: Ui, left: bool, pc: Pc, env: Env)
    requires LoopTask(pc) && Calm(pc) && Agrees(a, ui, left, pc)
    ensures var e := Segment(a, pc, env);
            e.next.Some? ==> Agrees(e.actor, After(ui, e.updates), StillLeft(left, e.updates), e.next.value)
  {
    if pc.SubscribeEntry? || pc.SubscribeWaiting? || pc.LoopReset? || pc.LoopSubscribed? || pc.LoopRetry? {
      SeekingSegmentAgrees(a, ui, left, pc, env);
    }
  }

  lemma SeekingSegmentAgrees(a: Actor, ui: Ui, left: bool, pc: Pc, env: Env)
    requires pc.SubscribeEntry? || pc.SubscribeWaiting? || pc.LoopReset? || pc.LoopSubscribed? || pc.LoopRetry?
    requires LoopTask(pc) && Agrees(a, ui, left, pc)
    ensures var e := Segment(a, pc, env);
            e.next.Some? ==> Agrees(e.actor, After(ui, e.updates), StillLeft(left, e.updates), e.next.value)
  {
  }

  lemma ShownOne(ui: Ui, us: seq<Update>)
    requires |us| <= 1
    ensures ShownAll(ui, us) == After(ui, us)
  {
    if |us| == 1 {
      assert us[..0] == [];
    }
  }

  /** What the loop's invariant reads, on the actor and on the UI. */
  predicate SameView(a: Actor, ui: Ui, b: Actor, vi: Ui) {
    && a.isSubscribed == b.isSubscribed && a.isSubscribing == b.isSubscribing
    && ui.filterSubscribed == vi.filterSubscribed && ui.failedSubscribeAttempts == vi.failedSubscribeAttempts
  }

  lemma {:induction false} NoFilterShown(ui: Ui, us: seq<Update>)
    requires forall u :: u in us ==> !u.FilterChanged?
    ensures ShownAll(ui, us).filterSubscribed == ui.filterSubscribed
    ensures ShownAll(ui, us).failedSubscribeAttempts == ui.failedSubscribeAttempts
  {
    if us != [] {
      NoFilterShown(ui, us[..|us| - 1]);
    }
  }

  /** No other segment of such a run interferes with the loop. */
  lemma BystanderSegment(a: Actor, ui: Ui, pc: Pc, env: Env)
    requires !LoopTask(pc) && Calm(pc)
    ensures var e := Segment(a, pc, env);
            && !TellsFilter(e.updates) && SameView(a, ui, e.actor, ShownAll(ui, e.updates)) && e.cancels.None?
            && (e.next.Some? ==> Calm(e.next.value) && !LoopTask(e.next.value))
            && (e.spawned.Some? ==> e.spawned.value == LoopHead(Loop(0, true)) && a.maintenanceTask.None?)
            && (e.actor.maintenanceTask.None? ==> a.maintenanceTask.None?)
  {
    var e := Segment(a, pc, env);
    assert forall u :: u in e.updates ==> !u.FilterChanged?;
    NoFilterShown(ui, e.updates);
  }

  ghost predicate Session(s: State, ui: Ui, left: bool) {
    && Single(s) && s.cancelled == {}
    && (forall t :: t in s.tasks ==> Calm(s.tasks[t]))
    && (s.actor.maintenanceTask.None? ==> !s.actor.isSubscribed && !s.actor.isSubscribing)
    && (left ==> Dropped(ShownAll(ui, s.updates)))
    && (forall t :: t in s.tasks && LoopTask(s.tasks[t]) ==>
          Agrees(s.actor, ShownAll(ui, s.updates), left, s.tasks[t]))
  }

  /** Whether this step sends a filter status. */
  predicate TellsFilterAt(s: State, a: Action) {
    && a.Resume? && a.task in s.tasks
    && TellsFilter(Segment(s.actor, s.tasks[a.task], EnvOf(s, a.task, a.ok)).updates)
  }

  /** Whether a peer has left since a segment last sent a filter status. */
  function LeftAfter(s: State, left: bool, a: Action): bool {
    a.PeerLeft? || (left && !TellsFilterAt(s, a))
  }

  function Left(actions: seq<Action>): bool {
    if actions == [] then false
    else LeftAfter(Run(START, actions[..|actions| - 1]), Left(actions[..|actions| - 1]), actions[|actions| - 1])
  }

  lemma ResumeKeepsSession(s: State, ui: Ui, left: bool, task: nat, ok: bool)
    requires Session(s, ui, left) && task in s.tasks
    ensures Session(Step(s, Resume(task, ok)), ui, LeftAfter(s, left, Resume(task, ok)))
  {
    hide Segment, LoopTask, Calm, Agrees, ShownAll, TellsFilter, StillLeft;
    var pc, env := s.tasks[task], EnvOf(s, task, ok);
    var now, e := ShownAll(ui, s.updates), Segment(s.actor, pc, env);
    StepKeepsSingle(s, Resume(task, ok));
    ShownAppend(ui, s.updates, e.updates);
    if LoopTask(pc) {
      LoopSegmentShape(s.actor, pc, env);
      LoopSegmentAgrees(s.actor, now, left, pc, env);
      ShownOne(now, e.updates);
      StillLeftIs(left, e.updates);
      StillDropped(now, left, e.updates);
    } else {
      BystanderSegment(s.actor, now, pc, env);
      BystanderKeepsSession(s, ui, left, task, e);
    }
  }

  lemma StillDropped(ui: Ui, left: bool, us: seq<Update>)
    requires |us| <= 1 && (left ==> Dropped(ui))
    ensures StillLeft(left, us) ==> Dropped(After(ui, us))
  {
  }

  lemma BystanderKeepsSession(s: State, ui: Ui, left: bool, task: nat, e: Effect)
    requires Session(s, ui, left) && task in s.tasks && !LoopTask(s.tasks[task]) && Single(Apply(s, task, e))
    requires SameView(s.actor, ShownAll(ui, s.updates), e.actor, ShownAll(ui, s.updates + e.updates)) && e.cancels.None?
    requires e.next.Some? ==> Calm(e.next.value) && !LoopTask(e.next.value)
    requires e.spawned.Some? ==> e.spawned.value == LoopHead(Loop(0, true)) && s.actor.maintenanceTask.None?
    requires e.actor.maintenanceTask.None? ==> s.actor.maintenanceTask.None?
    ensures Session(Apply(s, task, e), ui, left)
  {
    hide ShownAll;
    var after := Apply(s, task, e);
    forall t | t in after.tasks && LoopTask(after.tasks[t])
      ensures Agrees(after.actor, ShownAll(ui, after.updates), left, after.tasks[t])
    {
      if t in s.tasks && t != task {
        assert after.tasks[t] == s.tasks[t];
      }
    }
  }

  lemma UpdateShown(ui: Ui, us: seq<Update>, update: Update)
    ensures ShownAll(ui, us + [update]) == Shown(ShownAll(ui, us), update)
  {
    ShownAppend(ui, us, [update]);
    ShownOne(ShownAll(ui, us), [update]);
  }

  lemma StepKeepsSession(s: State, ui: Ui, left: bool, a: Action)
    requires Session(s, ui, left) && Unstopped([a])
    ensures Session(Step(s, a), ui, LeftAfter(s, left, a))
  {
    hide ShownAll, TellsFilter, Segment;
    assert a in [a];
    StepKeepsSingle(s, a);
    match a
    case Resume(task, ok) => if task in s.tasks { ResumeKeepsSession(s, ui, left, task, ok); }
    case PeerJoined => UpdateShown(ui, s.updates, ConnectionChanged(true));
    case PeerLeft => UpdateShown(ui, s.updates, FilterChanged(false, 0));
    case _ =>
  }

  lemma {:induction false} RunKeepsSession(actions: seq<Action>, ui: Ui)
    requires Unstopped(actions)
    ensures Session(Run(START, actions), ui, Left(actions))
  {
    hide Step, LeftAfter;
    if actions != [] {
      var before := actions[..|actions| - 1];
      RunKeepsSession(before, ui);
      StepKeepsSession(Run(START, before), ui, Left(before), actions[|actions| - 1]);
    }
  }

  // ----- Iterations -----

  /** The step ends an iteration of loop t: its sleep is over. */
  predicate EndsIteration(s: State, a: Action, t: nat) {
    a.Resume? && a.task == t && t in s.tasks && s.tasks[t].LoopSleep?
  }

  /** The iterations that loop t has completed. */
  function Completed(actions: seq<Action>, t: nat): nat {
    if actions == [] then 0
    else
      var before, a := actions[..|actions| - 1], actions[|actions| - 1];
      Completed(before, t) + (if EndsIteration(Run(START, before), a, t) then 1 else 0)
  }

  /** Up to its decision, an iteration knows whether it is the first. */
  predicate KnowsFirst(pc: Pc, completed: nat) {
    match pc
    case LoopHead(loop) => loop.isFirstPing <==> completed == 0
    case LoopCheck(loop) => loop.isFirstPing <==> completed == 0
    case PingEntry(loop) => loop.isFirstPing <==> completed == 0
    case PingWaiting(loop) => loop.isFirstPing <==> completed == 0
    case LoopPinged(loop, _) => loop.isFirstPing <==> completed == 0
    case LoopDecide(loop, _, _) => loop.isFirstPing <==> completed == 0
    case _ => true
  }

  lemma SegmentKnowsFirst(a: Actor, ui: Ui, left: bool, pc: Pc, env: Env, completed: nat)
    requires LoopTask(pc) && Agrees(a, ui, left, pc) && KnowsFirst(pc, completed)
    ensures var next := Segment(a, pc, env).next;
            next.Some? ==> KnowsFirst(next.value, completed + if pc.LoopSleep? then 1 else 0)
  {
  }

  lemma StepKnowsFirst(s: State, ui: Ui, left: bool, a: Action, t: nat, completed: nat)
    requires Session(s, ui, left) && Unstopped([a])
    requires t >= s.nextTask ==> completed == 0
    requires t in s.tasks && LoopTask(s.tasks[t]) ==> KnowsFirst(s.tasks[t], completed)
    ensures var after, more := Step(s, a), completed + if EndsIteration(s, a, t) then 1 else 0;
            && (t >= after.nextTask ==> more == 0)
            && (t in after.tasks && LoopTask(after.tasks[t]) ==> KnowsFirst(after.tasks[t], more))
  {
    hide Segment, ShownAll, Agrees, KnowsFirst, Calm, TellsFilter;
    assert a in [a];
    NewLoopKnowsFirst();
    if a.Resume? && a.task in s.tasks {
      var pc, env := s.tasks[a.task], EnvOf(s, a.task, a.ok);
      if LoopTask(pc) {
        LoopSegmentShape(s.actor, pc, env);
        if a.task == t {
          SegmentKnowsFirst(s.actor, ShownAll(ui, s.updates), left, pc, env, completed);
        }
      } else {
        BystanderSegment(s.actor, ShownAll(ui, s.updates), pc, env);
      }
    }
  }

  lemma NewLoopKnowsFirst()
    ensures KnowsFirst(LoopHead(Loop(0, true)), 0)
  {
  }

  lemma {:induction false} RunKnowsFirst(actions: seq<Action>, t: nat)
    requires Unstopped(actions)
    ensures var s := Run(START, actions);
            && (t >= s.nextTask ==> Completed(actions, t) == 0)
            && (t in s.tasks && LoopTask(s.tasks[t]) ==> KnowsFirst(s.tasks[t], Completed(actions, t)))
  {
    hide Step, KnowsFirst, LoopTask, EndsIteration;
    if actions != [] {
      var before := actions[..|actions| - 1];
      var ui := Ui(Stopped, false, false, 0, false, 0);
      RunKnowsFirst(before, t);
      RunKeepsSession(before, ui);
      StepKnowsFirst(Run(START, before), ui, Left(before), actions[|actions| - 1], t, Completed(before, t));
    }
  }

  // ----- The UI at the loop's head -----

  /** From its second iteration on, whenever the loop is at its head, what the UI shows, having
      shown every update sent and whatever it showed when the session began. It agrees with the
      actor's subscription unless a peer has left since the last filter status and the actor still
      holds one, and with the loop's failures unless a peer has left and there are some. */
  lemma {:induction false} UiAgreesUnlessLeft(actions: seq<Action>, ui: Ui, t: nat)
    requires Unstopped(actions) && Completed(actions, t) > 0
    requires t in Run(START, actions).tasks && Run(START, actions).tasks[t].LoopHead?
    ensures var s := Run(START, actions);
            var shown, failed := ShownAll(ui, s.updates), s.tasks[t].loop.failedSubscribes;
            && (shown.filterSubscribed == s.actor.isSubscribed <==> !(Left(actions) && s.actor.isSubscribed))
            && (shown.failedSubscribeAttempts % MAX_FAILED_SUBSCRIBES == failed <==> !(Left(actions) && failed != 0))
  {
    hide Run, ShownAll, Left, Completed;
    RunKeepsSession(actions, ui);
    RunKnowsFirst(actions, t);
  }

  /** Nobody stops the node or resubscribes, and no peer leaves. */
  predicate Undisturbed(actions: seq<Action>) {
    Unstopped(actions) && forall a :: a in actions ==> !a.PeerLeft?
  }

  lemma {:induction false} NobodyLeft(actions: seq<Action>)
    requires forall a :: a in actions ==> !a.PeerLeft?
    ensures !Left(actions)
  {
    hide Run;
    if actions != [] {
      assert actions[|actions| - 1] in actions;
      NobodyLeft(actions[..|actions| - 1]);
    }
  }

  /** Hence in an undisturbed run the UI shows the actor's subscription at every such head. */
  lemma {:induction false} UiAgreesAtLoopHead(actions: seq<Action>, ui: Ui, t: nat)
    requires Undisturbed(actions) && Completed(actions, t) > 0
    requires t in Run(START, actions).tasks && Run(START, actions).tasks[t].LoopHead?
    ensures var s := Run(START, actions);
            && ShownAll(ui, s.updates).filterSubscribed == s.actor.isSubscribed
            && ShownAll(ui, s.updates).failedSubscribeAttempts % MAX_FAILED_SUBSCRIBES ==
               s.tasks[t].loop.failedSubscribes
  {
    hide Run, ShownAll, Left, Completed;
    NobodyLeft(actions);
    UiAgreesUnlessLeft(actions, ui, t);
  }

  // ----- A run in which they disagree -----

  /** Task t resumed n times, every call succeeding. */
  function Resumes(t: nat, n: nat): seq<Action> {
    seq(n, i => Resume(t, true))
  }

  /** The node starts, the loop's first iteration subscribes, and the peer leaves. */
  const LEAVING_RUN := ([CallStart] + Resumes(0, 8)) + Resumes(1, 11) + [PeerLeft]

  /** The one task of a state takes a segment and stays. */
  lemma OnlyTask(before: seq<Action>, t: nat, n: nat, pc: Pc, next: Pc)
    requires var s := Run(START, before + Resumes(t, n));
             && s.tasks == map[t := pc] && s.cancelled == {}
             && var e := Segment(s.actor, pc, EnvOf(s, t, true));
                e.next == Some(next) && e.spawned.None? && e.cancels.None?
    ensures var s, after := Run(START, before + Resumes(t, n)), Run(START, before + Resumes(t, n + 1));
            && after.actor == Segment(s.actor, pc, EnvOf(s, t, true)).actor
            && after.tasks == map[t := next] && after.cancelled == {} && after.nextTask == s.nextTask
  {
    hide Segment, Step, Run;
    var s := Run(START, before + Resumes(t, n));
    assert before + Resumes(t, n + 1) == (before + Resumes(t, n)) + [Resume(t, true)];
    RunSnoc(START, before + Resumes(t, n), Resume(t, true));
    Moves(s, t, true, Segment(s.actor, pc, EnvOf(s, t, true)));
  }

  lemma NodeStarts()
    ensures var s := Run(START, [CallStart] + Resumes(0, 8));
            && s.actor.ctx.Some? && !s.actor.isSubscribed && !s.actor.isSubscribing
            && s.tasks == map[1 := LoopHead(Loop(0, true))] && s.cancelled == {}
  {
    hide Run;
    var first := [CallStart];
    StartCalled();
    OnlyTask(first, 0, 0, StartEntry, InitEntry);
    var ctx := EnvOf(Run(START, first + Resumes(0, 1)), 0, true).freshCtx;
    OnlyTask(first, 0, 1, InitEntry, InitCreated(Some(ctx)));
    OnlyTask(first, 0, 2, InitCreated(Some(ctx)), InitStarting);
    OnlyTask(first, 0, 3, InitStarting, StartReturned);
    OnlyTask(first, 0, 4, StartReturned, ConnectEntry);
    OnlyTask(first, 0, 5, ConnectEntry, ConnectWaiting);
    OnlyTask(first, 0, 6, ConnectWaiting, ConnectReturned(true));
    LoopStarts(first);
  }

  lemma StartCalled()
    ensures var s := Run(START, [CallStart] + Resumes(0, 0));
            s.actor == START.actor && s.tasks == map[0 := StartEntry] && s.cancelled == {} && s.nextTask == 1
  {
    assert [CallStart] + Resumes(0, 0) == [] + [CallStart];
    RunSnoc(START, [], CallStart);
  }

  lemma LoopStarts(first: seq<Action>)
    requires var s := Run(START, first + Resumes(0, 7));
             && s.tasks == map[0 := ConnectReturned(true)] && s.cancelled == {} && s.nextTask == 1
             && s.actor.maintenanceTask.None? && s.actor.ctx.Some? && !s.actor.isSubscribed && !s.actor.isSubscribing
    ensures var s := Run(START, first + Resumes(0, 8));
            && s.actor.ctx.Some? && !s.actor.isSubscribed && !s.actor.isSubscribing
            && s.tasks == map[1 := LoopHead(Loop(0, true))] && s.cancelled == {}
  {
    hide Run;
    assert first + Resumes(0, 8) == (first + Resumes(0, 7)) + [Resume(0, true)];
    RunSnoc(START, first + Resumes(0, 7), Resume(0, true));
  }

  lemma FirstDecision()
    ensures var s := Run(START, ([CallStart] + Resumes(0, 8)) + Resumes(1, 6));
            && s.actor.ctx.Some? && !s.actor.isSubscribed && !s.actor.isSubscribing
            && s.tasks == map[1 := LoopReset(Loop(0, false))] && s.cancelled == {}
  {
    hide Run;
    var first, loop, later := [CallStart] + Resumes(0, 8), Loop(0, true), Loop(0, false);
    NodeStarts();
    assert first + Resumes(1, 0) == first;
    OnlyTask(first, 1, 0, LoopHead(loop), LoopCheck(loop));
    OnlyTask(first, 1, 1, LoopCheck(loop), PingEntry(loop));
    OnlyTask(first, 1, 2, PingEntry(loop), PingWaiting(loop));
    OnlyTask(first, 1, 3, PingWaiting(loop), LoopPinged(loop, true));
    OnlyTask(first, 1, 4, LoopPinged(loop, true), LoopDecide(loop, true, false));
    OnlyTask(first, 1, 5, LoopDecide(loop, true, false), LoopReset(later));
  }

  lemma FirstIteration()
    ensures var s := Run(START, ([CallStart] + Resumes(0, 8)) + Resumes(1, 11));
            s.actor.isSubscribed && s.tasks == map[1 := LoopHead(Loop(0, false))]
  {
    hide Run;
    var first, later := [CallStart] + Resumes(0, 8), Loop(0, false);
    FirstDecision();
    OnlyTask(first, 1, 6, LoopReset(later), SubscribeEntry(Maintainer(later)));
    OnlyTask(first, 1, 7, SubscribeEntry(Maintainer(later)), SubscribeWaiting(Maintainer(later)));
    OnlyTask(first, 1, 8, SubscribeWaiting(Maintainer(later)), LoopSubscribed(later, true));
    OnlyTask(first, 1, 9, LoopSubscribed(later, true), LoopSleep(later, MAINTENANCE_INTERVAL_SECONDS));
    OnlyTask(first, 1, 10, LoopSleep(later, MAINTENANCE_INTERVAL_SECONDS), LoopHead(later));
  }

  /** A run from the start that ends at the loop's head, in its second iteration, with the UI
      showing no subscription while the actor holds one: the peer has just left. */
  lemma {:induction false} LeavingPeerDisagrees(ui: Ui)
    ensures var s := Run(START, LEAVING_RUN);
            && Unstopped(LEAVING_RUN) && Completed(LEAVING_RUN, 1) > 0 && Left(LEAVING_RUN)
            && 1 in s.tasks && s.tasks[1].LoopHead?
            && s.actor.isSubscribed && !ShownAll(ui, s.updates).filterSubscribed
  {
    hide Run, Step, ShownAll, Completed, KnowsFirst;
    var before := ([CallStart] + Resumes(0, 8)) + Resumes(1, 11);
    FirstIteration();
    RunSnoc(START, before, PeerLeft);
    LeftAtLast(before);
    RunKnowsFirst(LEAVING_RUN, 1);
    HeadAfterFirst(Run(START, LEAVING_RUN).tasks[1], Completed(LEAVING_RUN, 1));
    RunKeepsSession(LEAVING_RUN, ui);
  }

  /** The same with a subscribe that fails. */
  const FAILING_RUN := (([CallStart] + Resumes(0, 8)) + Resumes(1, 8) + [Resume(1, false)]) + Resumes(1, 3) + [PeerLeft]

  lemma FirstSubscribe()
    ensures var s := Run(START, ([CallStart] + Resumes(0, 8)) + Resumes(1, 8));
            s.tasks == map[1 := SubscribeWaiting(Maintainer(Loop(0, false)))] && s.cancelled == {}
  {
    hide Run;
    var first, later := [CallStart] + Resumes(0, 8), Loop(0, false);
    FirstDecision();
    OnlyTask(first, 1, 6, LoopReset(later), SubscribeEntry(Maintainer(later)));
    OnlyTask(first, 1, 7, SubscribeEntry(Maintainer(later)), SubscribeWaiting(Maintainer(later)));
  }

  lemma FirstFailure()
    ensures var s := Run(START, (([CallStart] + Resumes(0, 8)) + Resumes(1, 8) + [Resume(1, false)]) + Resumes(1, 3));
            s.tasks == map[1 := LoopHead(Loop(1, false))]
  {
    hide Run;
    var asked, later, counted := ([CallStart] + Resumes(0, 8)) + Resumes(1, 8), Loop(0, false), Loop(1, false);
    var failed := asked + [Resume(1, false)];
    FirstSubscribe();
    var s := Run(START, asked);
    RunSnoc(START, asked, Resume(1, false));
    Moves(s, 1, false, Segment(s.actor, SubscribeWaiting(Maintainer(later)), EnvOf(s, 1, false)));
    assert failed + Resumes(1, 0) == failed;
    assert Run(START, failed).tasks == map[1 := LoopSubscribed(later, false)];
    OnlyTask(failed, 1, 0, LoopSubscribed(later, false), LoopRetry(counted));
    OnlyTask(failed, 1, 1, LoopRetry(counted), LoopSleep(counted, RETRY_WAIT_SECONDS));
    OnlyTask(failed, 1, 2, LoopSleep(counted, RETRY_WAIT_SECONDS), LoopHead(counted));
  }

  /** A run from the start that ends at the loop's head with the UI showing no failed attempts while
      the loop counts one. */
  lemma {:induction false} LeavingPeerHidesFailures(ui: Ui)
    ensures var s := Run(START, FAILING_RUN);
            && Unstopped(FAILING_RUN) && Completed(FAILING_RUN, 1) > 0 && Left(FAILING_RUN)
            && 1 in s.tasks && s.tasks[1] == LoopHead(Loop(1, false))
            && ShownAll(ui, s.updates).failedSubscribeAttempts == 0
  {
    hide Run, Step, ShownAll, Completed, KnowsFirst;
    var before := (([CallStart] + Resumes(0, 8)) + Resumes(1, 8) + [Resume(1, false)]) + Resumes(1, 3);
    FirstFailure();
    RunSnoc(START, before, PeerLeft);
    LeftAtLast(before);
    RunKnowsFirst(FAILING_RUN, 1);
    HeadAfterFirst(Run(START, FAILING_RUN).tasks[1], Completed(FAILING_RUN, 1));
    RunKeepsSession(FAILING_RUN, ui);
  }

  lemma LeftAtLast(before: seq<Action>)
    ensures Left(before + [PeerLeft])
    ensures var s, after := Run(START, before), Run(START, before + [PeerLeft]);
            after.actor == s.actor && after.tasks == s.tasks
  {
    assert (before + [PeerLeft])[..|before|] == before;
  }

  lemma HeadAfterFirst(pc: Pc, completed: nat)
    requires pc.LoopHead? && !pc.loop.isFirstPing && KnowsFirst(pc, completed)
    ensures completed > 0
  {
  }

  // ----- When a subscription is requested -----

  function Requests(events: seq<Event>): nat {
    if events == [] then 0
    else
      Requests(events[..|events| - 1])
      + (match events[|events| - 1] case Called(Subscribe, _) => 1 case _ => 0)
  }

  /** The step resumes the loop where it decides, and the ping failed or the actor, as it is now,
      holds no subscription. */
  predicate Declines(s: State, a: Action) {
    && a.Resume? && a.task in s.tasks
    && match s.tasks[a.task]
       case LoopDecide(_, pinged, _) => !(pinged && s.actor.isSubscribed)
       case _ => false
  }

  /** The step resumes the loop where it would subscribe, and the actor has lost its context. */
  predicate GivesUp(s: State, a: Action) {
    && a.Resume? && a.task in s.tasks && s.actor.ctx.None?
    && match s.tasks[a.task]
       case SubscribeEntry(Maintainer(_)) => true
       case _ => false
  }

  function Declined(actions: seq<Action>): nat {
    if actions == [] then 0
    else
      var before, a := actions[..|actions| - 1], actions[|actions| - 1];
      Declined(before) + (if Declines(Run(START, before), a) then 1 else 0)
  }

  function GaveUp(actions: seq<Action>): nat {
    if actions == [] then 0
    else
      var before, a := actions[..|actions| - 1], actions[|actions| - 1];
      GaveUp(before) + (if GivesUp(Run(START, before), a) then 1 else 0)
  }

  /** A control point between declining and asking. */
  predicate Asking(pc: Pc) {
    pc.LoopReset? || (pc.SubscribeEntry? && pc.caller.Maintainer?)
  }

  /** Whether the current loop is on its way to ask: 1 or 0. */
  function Pending(s: State): nat {
    if s.actor.maintenanceTask.Some? && s.actor.maintenanceTask.value in s.tasks
       && Asking(s.tasks[s.actor.maintenanceTask.value]) then 1 else 0
  }

  lemma {:induction false} RequestsAppend(events: seq<Event>, more: seq<Event>)
    ensures Requests(events + more) == Requests(events) + Requests(more)
    decreases |more|
  {
    if more == [] {
      assert events + more == events;
    } else {
      assert (events + more)[..|events + more| - 1] == events + more[..|more| - 1];
      RequestsAppend(events, more[..|more| - 1]);
    }
  }

  lemma {:induction false} NoRequests(events: seq<Event>)
    requires forall e :: e in events ==> e.Called? ==> !e.call.Subscribe?
    ensures Requests(events) == 0
  {
    if events != [] {
      assert events[|events| - 1] in events;
      NoRequests(events[..|events| - 1]);
    }
  }

  /** One segment of the loop: what it asks for and whether it stays on the way to asking. */
  lemma LoopSegmentAsks(a: Actor, ui: Ui, left: bool, pc: Pc, env: Env)
    requires LoopTask(pc) && Calm(pc) && Agrees(a, ui, left, pc)
    ensures var e := Segment(a, pc, env);
            && Requests(e.events) == (if pc.SubscribeEntry? && a.ctx.Some? then 1 else 0)
            && (e.next.Some? && Asking(e.next.value) <==>
                  pc.LoopReset? || (pc.LoopDecide? && !(pc.pinged && a.isSubscribed)))
  {
    var e := Segment(a, pc, env);
    if pc.SubscribeEntry? && a.ctx.Some? {
      assert e.events[..0] == [];
    } else {
      NoRequests(e.events);
    }
  }

  lemma BystanderNeverAsks(a: Actor, pc: Pc, env: Env)
    requires !LoopTask(pc) && Calm(pc)
    ensures var e := Segment(a, pc, env);
            Requests(e.events) == 0 && (e.actor.maintenanceTask == a.maintenanceTask || a.maintenanceTask.None?)
  {
    NoRequests(Segment(a, pc, env).events);
  }

  lemma StepAsks(s: State, ui: Ui, left: bool, a: Action)
    requires Session(s, ui, left) && Unstopped([a])
    ensures var after := Step(s, a);
            Requests(after.events) + Pending(after) + (if GivesUp(s, a) then 1 else 0)
            == Requests(s.events) + Pending(s) + (if Declines(s, a) then 1 else 0)
  {
    hide Segment, ShownAll, Requests, Agrees, Calm;
    assert a in [a];
    if a.Resume? && a.task in s.tasks {
      var pc, env := s.tasks[a.task], EnvOf(s, a.task, a.ok);
      RequestsAppend(s.events, Segment(s.actor, pc, env).events);
      if LoopTask(pc) {
        LoopSegmentShape(s.actor, pc, env);
        LoopSegmentAsks(s.actor, ShownAll(ui, s.updates), left, pc, env);
      } else {
        BystanderNeverAsks(s.actor, pc, env);
        BystanderSegment(s.actor, ShownAll(ui, s.updates), pc, env);
      }
    }
  }

  /** Over a whole run: one subscribe request for every iteration whose ping failed or that held
      no subscription, and no other, up to the iteration now on its way to ask and those that
      found the context gone. */
  lemma {:induction false} OneRequestPerDecline(actions: seq<Action>)
    requires Unstopped(actions)
    ensures var s := Run(START, actions);
            Requests(s.events) + Pending(s) + GaveUp(actions) == Declined(actions)
  {
    hide Step, Requests, Pending, GivesUp, Declines;
    if actions == [] {
      NothingAsked();
    } else {
      var before, a := actions[..|actions| - 1], actions[|actions| - 1];
      var ui := Ui(Stopped, false, false, 0, false, 0);
      OneRequestPerDecline(before);
      RunKeepsSession(before, ui);
      StepAsks(Run(START, before), ui, Left(before), a);
    }
  }

  lemma NothingAsked()
    ensures Requests(START.events) == 0 && Pending(START) == 0
  {
  }
}
