/** What every interleaving of the actor keeps about contexts and the maintenance task. */
module ActorSafety {
  import opened Options
  import opened ActorLifecycle

  // ----- The life of a context -----

  function CtxOf(e: Event): nat {
    match e
    case Called(_, c) => c
    case Took(c) => c
  }

  /** A call that a context serves while the actor holds it. */
  predicate Ordinary(e: Event) {
    e.Called? && !e.call.UnsubscribeAll? && !e.call.Stop? && !e.call.Destroy?
  }

  /** What must follow once stop has taken the context. */
  function Ending(c: nat): seq<Event> {
    [Took(c), Called(UnsubscribeAll, c), Called(Stop, c), Called(Destroy, c)]
  }

  /** The events that concern context c, in order. */
  function On(events: seq<Event>, c: nat): seq<Event> {
    if events == [] then []
    else
      var e := events[|events| - 1];
      On(events[..|events| - 1], c) + (if CtxOf(e) == c then [e] else [])
  }

  /** Creation first, then ordinary calls only, and after stop has taken the context no call but
      unsubscribe_all, stop and destroy, in that order, each at most once. */
  predicate Proper(es: seq<Event>, c: nat) {
    exists k :: 0 <= k <= |es| && ProperAt(es, c, k)
  }

  predicate ProperAt(es: seq<Event>, c: nat, k: nat)
    requires k <= |es|
  {
    && (forall i :: 0 <= i < k ==> Ordinary(es[i]) && (es[i].call.New? <==> i == 0))
    && es[k..] <= Ending(c) && (es != [] ==> k > 0)
  }

  /** The stage a context has reached. */
  datatype Life = Unborn | Fresh | Live | Taken(calls: nat) | Broken

  function LifeStep(l: Life, e: Event, c: nat): Life {
    if CtxOf(e) != c then l
    else
      match e
      case Took(_) => if l.Fresh? || l.Live? then Taken(0) else Broken
      case Called(New, _) => if l.Unborn? then Fresh else Broken
      case Called(UnsubscribeAll, _) => if l == Taken(0) then Taken(1) else Broken
      case Called(Stop, _) => if l == Taken(1) then Taken(2) else Broken
      case Called(Destroy, _) => if l == Taken(2) then Taken(3) else Broken
      case Called(_, _) => if l.Fresh? || l.Live? then Live else Broken
  }

  function LifeOf(events: seq<Event>, c: nat): Life {
    if events == [] then Unborn
    else LifeStep(LifeOf(events[..|events| - 1], c), events[|events| - 1], c)
  }

  /** How a stage reads in the events. */
  predicate Reads(l: Life, es: seq<Event>, c: nat) {
    match l
    case Unborn => es == []
    case Fresh => es == [Called(New, c)]
    case Live => es != [] && ProperAt(es, c, |es|)
    case Taken(n) => n <= 3 && |es| > n + 1 && ProperAt(es, c, |es| - n - 1) && es[|es| - n - 1..] == Ending(c)[..n + 1]
    case Broken => true
  }

  /** One more ordinary call before stop. */
  lemma OrdinaryReads(es: seq<Event>, e: Event, c: nat)
    requires ProperAt(es, c, |es|) && Ordinary(e) && (e.call.New? <==> es == [])
    ensures ProperAt(es + [e], c, |es| + 1)
  {
    assert (es + [e])[|es| + 1..] == [];
  }

  /** One more step of the ending. */
  lemma EndingReads(es: seq<Event>, e: Event, c: nat, k: nat, n: nat)
    requires n < 4 && e == Ending(c)[n]
    requires 0 < k <= |es| && ProperAt(es, c, k) && es[k..] == Ending(c)[..n]
    ensures ProperAt(es + [e], c, k) && (es + [e])[k..] == Ending(c)[..n + 1]
  {
    assert (es + [e])[k..] == es[k..] + [e];
    assert Ending(c)[..n + 1] == Ending(c)[..n] + [Ending(c)[n]];
  }

  lemma ReadsStep(l: Life, es: seq<Event>, e: Event, c: nat)
    requires Reads(l, es, c) && CtxOf(e) == c
    ensures Reads(LifeStep(l, e, c), es + [e], c)
  {
    hide ProperAt;
    var l2 := LifeStep(l, e, c);
    if l.Fresh? || l.Live? || l.Unborn? {
      StartsProper(l, es, c);
    }
    if l2.Taken? && l.Taken? {
      EndingReads(es, e, c, |es| - l.calls - 1, l.calls + 1);
    } else if l2.Taken? {
      EndingReads(es, e, c, |es|, 0);
    } else if l2.Live? || l2.Fresh? {
      OrdinaryReads(es, e, c);
    }
  }

  lemma StartsProper(l: Life, es: seq<Event>, c: nat)
    requires Reads(l, es, c) && (l.Fresh? || l.Live? || l.Unborn?)
    ensures ProperAt(es, c, |es|) && (l.Unborn? <==> es == []) && es[|es|..] == Ending(c)[..0]
  {
  }

  lemma {:induction false} LifeReads(events: seq<Event>, c: nat)
    ensures Reads(LifeOf(events, c), On(events, c), c)
  {
    if events != [] {
      var before, e := events[..|events| - 1], events[|events| - 1];
      LifeReads(before, c);
      if CtxOf(e) == c {
        ReadsStep(LifeOf(before, c), On(before, c), e, c);
      } else {
        assert On(before, c) + [] == On(before, c);
      }
    }
  }

  /** A context whose life is not broken has proper events. */
  lemma LifeIsProper(events: seq<Event>, c: nat)
    requires !LifeOf(events, c).Broken?
    ensures Proper(On(events, c), c)
  {
    var l, es := LifeOf(events, c), On(events, c);
    LifeReads(events, c);
    match l
    case Unborn => assert ProperAt(es, c, 0);
    case Fresh => assert ProperAt(es, c, 1);
    case Live => assert ProperAt(es, c, |es|);
    case Taken(n) => assert ProperAt(es, c, |es| - n - 1);
    case Broken =>
  }

  lemma {:induction false} LifeSkips(events: seq<Event>, more: seq<Event>, c: nat)
    requires forall i :: 0 <= i < |more| ==> CtxOf(more[i]) != c
    ensures LifeOf(events + more, c) == LifeOf(events, c)
    decreases |more|
  {
    if more == [] {
      assert events + more == events;
    } else {
      assert (events + more)[..|events + more| - 1] == events + more[..|more| - 1];
      LifeSkips(events, more[..|more| - 1], c);
    }
  }

  lemma LifeAfterOne(events: seq<Event>, e: Event, c: nat)
    ensures LifeOf(events + [e], c) == LifeStep(LifeOf(events, c), e, c)
  {
    assert (events + [e])[..|events|] == events;
  }

  lemma LifeAfterTwo(events: seq<Event>, e: Event, f: Event, c: nat)
    ensures LifeOf(events + [e, f], c) == LifeStep(LifeStep(LifeOf(events, c), e, c), f, c)
  {
    assert events + [e, f] == (events + [e]) + [f];
    LifeAfterOne(events, e, c);
    LifeAfterOne(events + [e], f, c);
  }

  // ----- The context invariant -----

  /** The context a suspended task will act on without looking it up again. */
  function Holder(pc: Pc): Option<nat> {
    match pc
    case InitCreated(created) => created
    case Teardown(c, _) => Some(c)
    case _ => None
  }

  /** The stage that context is then at. */
  function Expected(pc: Pc): Life {
    match pc
    case Teardown(_, calls) => Taken(calls)
    case _ => Fresh
  }

  ghost predicate Contexts(s: State) {
    && (forall c :: !LifeOf(s.events, c).Broken?)
    && (forall c :: c >= s.nextCtx ==> LifeOf(s.events, c).Unborn?)
    && (forall t :: t in s.tasks ==> t < s.nextTask)
    && (forall t :: t in s.tasks && Holder(s.tasks[t]).Some? ==>
          LifeOf(s.events, Holder(s.tasks[t]).value) == Expected(s.tasks[t]))
    && (forall t, u :: t in s.tasks && u in s.tasks && t != u && Holder(s.tasks[t]).Some? ==>
          Holder(s.tasks[t]) != Holder(s.tasks[u]))
    && (s.actor.ctx.Some? ==> LifeOf(s.events, s.actor.ctx.value).Live?)
  }

  function NextHolder(e: Effect): Option<nat> {
    if e.next.Some? then Holder(e.next.value) else None
  }

  function SpawnedHolder(e: Effect): Option<nat> {
    if e.spawned.Some? then Holder(e.spawned.value) else None
  }

  /** An effect that touches no context at all, and at most drops the current one. */
  ghost predicate Untouching(s: State, e: Effect) {
    && e.events == [] && NextHolder(e).None? && SpawnedHolder(e).None?
    && (e.actor.ctx == s.actor.ctx || e.actor.ctx.None?)
  }

  /** An effect whose events all concern context x, which no other task holds. */
  ghost predicate Touching(s: State, task: nat, e: Effect, x: nat) {
    var after := LifeOf(s.events + e.events, x);
    && (forall i :: 0 <= i < |e.events| ==> CtxOf(e.events[i]) == x)
    && !after.Broken?
    && (x < s.nextCtx || (x == s.nextCtx && Called(New, x) in e.events))
    && (forall u :: u in s.tasks && u != task ==> Holder(s.tasks[u]) != Some(x))
    && (NextHolder(e).Some? ==> NextHolder(e).value == x && after == Expected(e.next.value))
    && (SpawnedHolder(e).Some? ==>
          SpawnedHolder(e).value == x && after == Expected(e.spawned.value) && NextHolder(e).None?)
    && (e.actor.ctx == Some(x) ==> after.Live?)
    && (e.actor.ctx.Some? && e.actor.ctx != Some(x) ==> e.actor.ctx == s.actor.ctx)
  }

  lemma UntouchingKeeps(s: State, task: nat, e: Effect)
    requires Contexts(s) && task in s.tasks && Untouching(s, e)
    ensures Contexts(Apply(s, task, e))
  {
    hide LifeOf;
    assert s.events + e.events == s.events;
  }

  lemma TouchingKeeps(s: State, task: nat, e: Effect, x: nat)
    requires Contexts(s) && task in s.tasks && Touching(s, task, e, x)
    ensures Contexts(Apply(s, task, e))
  {
    hide LifeOf, Expected;
    forall c | c != x ensures LifeOf(s.events + e.events, c) == LifeOf(s.events, c) {
      LifeSkips(s.events, e.events, c);
    }
    var t := Apply(s, task, e);
    assert t.nextCtx >= s.nextCtx && x < t.nextCtx;
  }

  /** One more ordinary call on the actor's current context. */
  lemma CallTouches(s: State, task: nat, e: Effect, call: Call, c: nat)
    requires Contexts(s) && task in s.tasks && s.actor.ctx == Some(c) && e.actor.ctx == Some(c)
    requires e.events == [Called(call, c)] && Ordinary(e.events[0]) && !call.New?
    requires NextHolder(e).None? && SpawnedHolder(e).None?
    ensures Touching(s, task, e, c)
  {
    hide LifeOf;
    LifeAfterOne(s.events, Called(call, c), c);
  }

  predicate CallsCurrent(pc: Pc) {
    pc.ConnectEntry? || pc.PublishEntry? || pc.SubscribeEntry? || pc.PingEntry?
  }

  lemma SegmentKeepsContexts(s: State, task: nat, env: Env)
    requires Contexts(s) && task in s.tasks && env.freshCtx == s.nextCtx
    ensures Contexts(Apply(s, task, Segment(s.actor, s.tasks[task], env)))
  {
    hide LifeOf, Contexts;
    var pc := s.tasks[task];
    var e := Segment(s.actor, pc, env);
    if Untouching(s, e) {
      UntouchingKeeps(s, task, e);
    } else if CallsCurrent(pc) {
      var c := s.actor.ctx.value;
      CallTouches(s, task, e, e.events[0].call, c);
      TouchingKeeps(s, task, e, c);
    } else {
      HolderTouches(s, task, env);
      TouchingKeeps(s, task, e, TouchedBy(s, pc, env));
    }
  }

  /** The context that creation, adoption, stop and teardown touch. */
  function TouchedBy(s: State, pc: Pc, env: Env): nat {
    match pc
    case InitCreated(Some(c)) => c
    case Teardown(c, _) => c
    case StopEntry => if s.actor.ctx.Some? then s.actor.ctx.value else 0
    case _ => env.freshCtx
  }

  lemma HolderTouches(s: State, task: nat, env: Env)
    requires Contexts(s) && task in s.tasks && env.freshCtx == s.nextCtx
    requires var pc := s.tasks[task];
             && (pc.InitEntry? || pc.InitCreated? || pc.StopEntry? || pc.Teardown?)
             && !Untouching(s, Segment(s.actor, pc, env))
    ensures var pc := s.tasks[task];
            Touching(s, task, Segment(s.actor, pc, env), TouchedBy(s, pc, env))
  {
    hide LifeOf;
    match s.tasks[task]
    case InitEntry => LifeAfterOne(s.events, Called(New, s.nextCtx), s.nextCtx);
    case InitCreated(created) =>
      LifeAfterTwo(s.events, Called(SetEventCallback, created.value), Called(Start, created.value), created.value);
    case StopEntry => LifeAfterOne(s.events, Took(s.actor.ctx.value), s.actor.ctx.value);
    case Teardown(c, calls) =>
      LifeAfterOne(s.events, Called(if calls == 0 then UnsubscribeAll else if calls == 1 then Stop else Destroy, c), c);
  }

  lemma StepKeepsContexts(s: State, a: Action)
    requires Contexts(s)
    ensures Contexts(Step(s, a))
  {
    hide LifeOf, Segment, Apply;
    match a
    case Resume(task, ok) => if task in s.tasks { SegmentKeepsContexts(s, task, EnvOf(s, task, ok)); }
    case _ =>
  }

  lemma {:induction false} RunKeepsContexts(actions: seq<Action>)
    ensures Contexts(Run(START, actions))
  {
    hide Step;
    if actions != [] {
      RunKeepsContexts(actions[..|actions| - 1]);
      StepKeepsContexts(Run(START, actions[..|actions| - 1]), actions[|actions| - 1]);
    }
  }

  /** Whatever the interleaving: on every context, once stop has taken it, no call other than
      unsubscribe_all, stop, destroy is ever issued, and those in that order, each at most once. */
  lemma {:induction false} TeardownIsLast(actions: seq<Action>, c: nat)
    ensures Proper(On(Run(START, actions).events, c), c)
  {
    hide Run;
    RunKeepsContexts(actions);
    LifeIsProper(Run(START, actions).events, c);
  }

  /** Hence a context is destroyed at most once, and only after stop has taken it. */
  lemma {:induction false} DestroyedOnce(actions: seq<Action>, c: nat, i: nat)
    requires i < |On(Run(START, actions).events, c)| && On(Run(START, actions).events, c)[i] == Called(Destroy, c)
    ensures i == |On(Run(START, actions).events, c)| - 1
    ensures i >= 3 && On(Run(START, actions).events, c)[i - 3] == Took(c)
  {
    hide Run;
    var es := On(Run(START, actions).events, c);
    TeardownIsLast(actions, c);
    var k :| 0 <= k <= |es| && ProperAt(es, c, k);
    assert i >= k;
    assert es[i] == es[k..][i - k] == Ending(c)[i - k];
    assert es[k] == es[k..][0];
  }

  // ----- The teardown goes through -----

  /** Every context that stop took and whose teardown is not done has a task doing it. */
  ghost predicate Tearing(s: State) {
    forall c :: Unfinished(LifeOf(s.events, c)) ==>
      exists t :: t in s.tasks && s.tasks[t] == Teardown(c, LifeOf(s.events, c).calls)
  }

  predicate Unfinished(l: Life) {
    l.Taken? && l.calls < 3
  }

  lemma {:induction false} OrdinaryNeverTakes(events: seq<Event>, more: seq<Event>, c: nat)
    requires forall e :: e in more ==> Ordinary(e)
    ensures LifeOf(events + more, c).Taken? ==> LifeOf(events + more, c) == LifeOf(events, c)
    decreases |more|
  {
    if more == [] {
      assert events + more == events;
    } else {
      assert (events + more)[..|events + more| - 1] == events + more[..|more| - 1];
      assert more[|more| - 1] in more;
      OrdinaryNeverTakes(events, more[..|more| - 1], c);
    }
  }

  /** Only stop and the teardown itself make calls that are not ordinary. */
  lemma OrdinarySegment(a: Actor, pc: Pc, env: Env)
    requires !pc.StopEntry? && !pc.Teardown?
    ensures var e := Segment(a, pc, env);
            && (forall x :: x in e.events ==> Ordinary(x))
            && (e.next.Some? ==> !e.next.value.Teardown?)
  {
  }

  lemma OrdinaryKeepsTearing(s: State, task: nat, e: Effect)
    requires Contexts(s) && Tearing(s) && task in s.tasks && !s.tasks[task].Teardown?
    requires forall x :: x in e.events ==> Ordinary(x)
    ensures Tearing(Apply(s, task, e))
  {
    hide LifeOf;
    var after := Apply(s, task, e);
    forall c | Unfinished(LifeOf(after.events, c))
      ensures exists t :: t in after.tasks && after.tasks[t] == Teardown(c, LifeOf(after.events, c).calls)
    {
      OrdinaryNeverTakes(s.events, e.events, c);
      var t :| t in s.tasks && s.tasks[t] == Teardown(c, LifeOf(s.events, c).calls);
      assert t in after.tasks && after.tasks[t] == s.tasks[t];
    }
  }

  /** Stop's own segment and the steps of a teardown: the coroutine they leave owes the next call. */
  lemma EndingKeepsTearing(s: State, task: nat, e: Effect, event: Event, t: nat)
    requires Contexts(s) && Tearing(s) && task in s.tasks && e.events == [event]
    requires s.tasks[task].Teardown? ==> s.tasks[task].taken == CtxOf(event)
    requires var after := Apply(s, task, e);
             var l := LifeStep(LifeOf(s.events, CtxOf(event)), event, CtxOf(event));
             Unfinished(l) ==> t in after.tasks && after.tasks[t] == Teardown(CtxOf(event), l.calls)
    ensures Tearing(Apply(s, task, e))
  {
    hide LifeOf, LifeStep;
    var after := Apply(s, task, e);
    LifeAfterOne(s.events, event, CtxOf(event));
    forall c | Unfinished(LifeOf(after.events, c)) && c != CtxOf(event)
      ensures exists u :: u in after.tasks && after.tasks[u] == Teardown(c, LifeOf(after.events, c).calls)
    {
      LifeSkips(s.events, [event], c);
      var u :| u in s.tasks && s.tasks[u] == Teardown(c, LifeOf(s.events, c).calls);
      assert u in after.tasks && after.tasks[u] == s.tasks[u];
    }
  }

  lemma StopKeepsTearing(s: State, task: nat, e: Effect, c: nat)
    requires Contexts(s) && Tearing(s) && task in s.tasks && s.tasks[task].StopEntry?
    requires e.events == [Took(c)] && e.next.None? && e.spawned == Some(Teardown(c, 0))
    ensures Tearing(Apply(s, task, e))
  {
    hide LifeOf, Tearing, Contexts;
    EndingKeepsTearing(s, task, e, Took(c), s.nextTask);
  }

  lemma TeardownKeepsTearing(s: State, task: nat, e: Effect, c: nat, calls: nat)
    requires Contexts(s) && Tearing(s) && task in s.tasks && s.tasks[task] == Teardown(c, calls) && calls < 3
    requires e.events == [Called([UnsubscribeAll, Stop, Destroy][calls], c)]
    requires e.next == Some(Teardown(c, calls + 1)) && e.spawned.None?
    ensures Tearing(Apply(s, task, e))
  {
    hide LifeOf, Tearing, Contexts;
    EndingKeepsTearing(s, task, e, e.events[0], task);
  }

  lemma SegmentKeepsTearing(s: State, task: nat, env: Env)
    requires Contexts(s) && Tearing(s) && task in s.tasks
    ensures Tearing(Apply(s, task, Segment(s.actor, s.tasks[task], env)))
  {
    hide LifeOf, Tearing, Contexts, Apply;
    var pc := s.tasks[task];
    var e := Segment(s.actor, pc, env);
    if e.events == [] && !pc.Teardown? {
      OrdinaryKeepsTearing(s, task, e);
    } else if pc.StopEntry? {
      StopKeepsTearing(s, task, e, s.actor.ctx.value);
    } else if pc.Teardown? && pc.calls < 3 {
      TeardownKeepsTearing(s, task, e, pc.taken, pc.calls);
    } else if pc.Teardown? {
      FinishedKeepsTearing(s, task, e);
    } else {
      OrdinarySegment(s.actor, pc, env);
      OrdinaryKeepsTearing(s, task, e);
    }
  }

  lemma FinishedKeepsTearing(s: State, task: nat, e: Effect)
    requires Contexts(s) && Tearing(s) && task in s.tasks
    requires s.tasks[task].Teardown? && s.tasks[task].calls >= 3 && e.events == []
    ensures Tearing(Apply(s, task, e))
  {
    hide LifeOf;
    var after := Apply(s, task, e);
    assert after.events == s.events;
    forall c | Unfinished(LifeOf(after.events, c))
      ensures exists t :: t in after.tasks && after.tasks[t] == Teardown(c, LifeOf(after.events, c).calls)
    {
      var t :| t in s.tasks && s.tasks[t] == Teardown(c, LifeOf(s.events, c).calls);
      assert t in after.tasks && after.tasks[t] == s.tasks[t];
    }
  }

  lemma GrowingKeepsTearing(s: State, after: State)
    requires Tearing(s) && after.events == s.events
    requires forall t :: t in s.tasks ==> t in after.tasks && after.tasks[t] == s.tasks[t]
    ensures Tearing(after)
  {
    hide LifeOf;
    forall c | Unfinished(LifeOf(s.events, c))
      ensures exists t :: t in after.tasks && after.tasks[t] == Teardown(c, LifeOf(s.events, c).calls)
    {
      var t :| t in s.tasks && s.tasks[t] == Teardown(c, LifeOf(s.events, c).calls);
      assert t in after.tasks;
    }
  }

  lemma StepKeepsTearing(s: State, a: Action)
    requires Contexts(s) && Tearing(s)
    ensures Tearing(Step(s, a))
  {
    hide LifeOf, Segment, Apply, Tearing;
    match a
    case Resume(task, ok) => if task in s.tasks { SegmentKeepsTearing(s, task, EnvOf(s, task, ok)); }
    case _ => GrowingKeepsTearing(s, Step(s, a));
  }

  lemma {:induction false} RunKeepsTearing(actions: seq<Action>)
    ensures Tearing(Run(START, actions))
  {
    hide Step;
    if actions != [] {
      var before := actions[..|actions| - 1];
      RunKeepsContexts(before);
      RunKeepsTearing(before);
      StepKeepsTearing(Run(START, before), actions[|actions| - 1]);
    }
  }

  lemma TookIsTaken(l: Life, es: seq<Event>, c: nat)
    requires Reads(l, es, c) && Took(c) in es
    ensures l.Taken? || l.Broken?
  {
  }

  /** A run that stops where a teardown is unfinished can go on to its next call. */
  lemma NextTeardownCall(actions: seq<Action>, c: nat) returns (a: Action)
    requires Unfinished(LifeOf(Run(START, actions).events, c))
    ensures a.Resume?
    ensures LifeOf(Run(START, actions + [a]).events, c) == Taken(LifeOf(Run(START, actions).events, c).calls + 1)
  {
    hide LifeOf, LifeStep;
    var s := Run(START, actions);
    RunKeepsTearing(actions);
    var calls := LifeOf(s.events, c).calls;
    var t :| t in s.tasks && s.tasks[t] == Teardown(c, calls);
    a := Resume(t, true);
    assert (actions + [a])[..|actions|] == actions;
    var e := [UnsubscribeAll, Stop, Destroy][calls];
    assert Run(START, actions + [a]).events == s.events + [Called(e, c)];
    LifeAfterOne(s.events, Called(e, c), c);
    CallsInOrder(c, calls);
  }

  lemma CallsInOrder(c: nat, calls: nat)
    requires calls < 3
    ensures LifeStep(Taken(calls), Called([UnsubscribeAll, Stop, Destroy][calls], c), c) == Taken(calls + 1)
  {
  }

  /** No interleaving leaves a taken context stuck: from every reachable state, at most three
      resumptions of its teardown task end with the context destroyed. */
  lemma {:induction false} TeardownCompletes(actions: seq<Action>, c: nat) returns (more: seq<Action>)
    requires Took(c) in On(Run(START, actions).events, c)
    ensures |more| <= 3 && forall a :: a in more ==> a.Resume?
    ensures var es := On(Run(START, actions + more).events, c);
            |es| >= 4 && es[|es| - 4..] == Ending(c)
  {
    hide Run, On, LifeOf;
    var events := Run(START, actions).events;
    RunKeepsContexts(actions);
    LifeReads(events, c);
    TookIsTaken(LifeOf(events, c), On(events, c), c);
    more := TeardownFrom(actions, c);
    var done := Run(START, actions + more).events;
    LifeReads(done, c);
  }

  lemma {:induction false} TeardownFrom(actions: seq<Action>, c: nat) returns (more: seq<Action>)
    requires LifeOf(Run(START, actions).events, c).Taken? && LifeOf(Run(START, actions).events, c).calls <= 3
    ensures |more| <= 3 - LifeOf(Run(START, actions).events, c).calls && forall a :: a in more ==> a.Resume?
    ensures LifeOf(Run(START, actions + more).events, c) == Taken(3)
    decreases 3 - LifeOf(Run(START, actions).events, c).calls
  {
    hide Run, LifeOf;
    if LifeOf(Run(START, actions).events, c).calls == 3 {
      more := [];
      assert actions + more == actions;
    } else {
      var a := NextTeardownCall(actions, c);
      var rest := TeardownFrom(actions + [a], c);
      more := [a] + rest;
      assert actions + more == actions + [a] + rest;
    }
  }
}
