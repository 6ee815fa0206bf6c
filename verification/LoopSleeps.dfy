/** The maintenance loop's failure count and sleep inside the actor, for every loop of every run:
    stops, resubscribes, failing starts and other loops may interleave at will. */
module LoopSleeps {
  import opened Options
  import opened ActorLifecycle
  import opened ActorMaintenance

  /** What one loop has done so far: iterations completed, those that slept long, the seconds slept,
      and the subscribe failures since the last success. */
  datatype Ledger = Ledger(completed: nat, long: nat, slept: nat, failures: nat)

  const NEW_LEDGER := Ledger(0, 0, 0, 0)

  /** What the loop's ledger notes when it is resumed at pc. */
  function Noted(l: Ledger, pc: Pc): Ledger {
    match pc
    case LoopSleep(_, seconds) =>
      l.(completed := l.completed + 1, long := l.long + (if seconds == RETRY_WAIT_SECONDS then 0 else 1),
         slept := l.slept + seconds)
    case LoopSubscribed(_, success) => l.(failures := if success then 0 else l.failures + 1)
    case _ => l
  }

  /** The ledger of loop t after a run. */
  function LedgerOf(actions: seq<Action>, t: nat): Ledger {
    if actions == [] then NEW_LEDGER
    else
      var before, a := actions[..|actions| - 1], actions[|actions| - 1];
      var s, l := Run(START, before), LedgerOf(before, t);
      if a.Resume? && a.task == t && t in s.tasks then Noted(l, s.tasks[t]) else l
  }

  // ----- The invariant -----

  /** Short sleeps come two for each long one, beyond those of the current row. */
  predicate Row(l: Ledger, loop: Loop) {
    && loop.failedSubscribes < MAX_FAILED_SUBSCRIBES
    && loop.failedSubscribes == l.failures % MAX_FAILED_SUBSCRIBES
    && l.completed - l.long <= 2 * l.long + loop.failedSubscribes
  }

  predicate Balanced(pc: Pc, l: Ledger) {
    match pc
    case LoopHead(loop) => Row(l, loop)
    case LoopCheck(loop) => Row(l, loop)
    case PingEntry(loop) => Row(l, loop)
    case PingWaiting(loop) => Row(l, loop)
    case LoopPinged(loop, _) => Row(l, loop)
    case LoopDecide(loop, _, _) => Row(l, loop)
    case LoopReset(loop) => Row(l, loop)
    case SubscribeEntry(Maintainer(loop)) => Row(l, loop)
    case SubscribeWaiting(Maintainer(loop)) => Row(l, loop)
    case LoopSubscribed(loop, _) => Row(l, loop)
    case LoopRetry(loop) =>
      && 1 <= loop.failedSubscribes <= MAX_FAILED_SUBSCRIBES
      && loop.failedSubscribes % MAX_FAILED_SUBSCRIBES == l.failures % MAX_FAILED_SUBSCRIBES
      && l.completed - l.long <= 2 * l.long + loop.failedSubscribes - 1
    case LoopSleep(loop, seconds) =>
      && (seconds == RETRY_WAIT_SECONDS || seconds == MAINTENANCE_INTERVAL_SECONDS)
      && Row(Noted(l, pc), loop)
    case _ => true
  }

  /** What holds of a ledger once and for all. */
  predicate Fair(l: Ledger) {
    && l.long <= l.completed <= 3 * l.long + 2
    && l.slept == RETRY_WAIT_SECONDS * (l.completed - l.long) + MAINTENANCE_INTERVAL_SECONDS * l.long
  }

  lemma SegmentBalances(a: Actor, pc: Pc, env: Env, l: Ledger)
    requires LoopTask(pc) && Balanced(pc, l)
    ensures var next := Segment(a, pc, env).next; next.Some? ==> Balanced(next.value, Noted(l, pc))
  {
    if pc.LoopSubscribed? || pc.LoopRetry? {
      CountingSegmentBalances(a, pc, env, l);
    }
  }

  lemma CountingSegmentBalances(a: Actor, pc: Pc, env: Env, l: Ledger)
    requires (pc.LoopSubscribed? || pc.LoopRetry?) && Balanced(pc, l)
    ensures var next := Segment(a, pc, env).next; next.Some? && Balanced(next.value, Noted(l, pc))
  {
    assert (l.failures + 1) % 3 == if l.failures % 3 == 2 then 0 else l.failures % 3 + 1;
  }

  lemma NotedIsFair(l: Ledger, pc: Pc)
    requires Fair(l) && LoopTask(pc) && Balanced(pc, l)
    ensures Fair(Noted(l, pc))
  {
  }

  lemma OthersNoteNothing(l: Ledger, pc: Pc)
    requires !LoopTask(pc)
    ensures Noted(l, pc) == l
  {
  }

  lemma NewLoopsStartAfresh(a: Actor, pc: Pc, env: Env)
    ensures var spawned := Segment(a, pc, env).spawned;
            spawned.Some? && LoopTask(spawned.value) ==> spawned.value == LoopHead(Loop(0, true))
  {
  }

  predicate InBooks(s: State, l: Ledger, t: nat) {
    && Fair(l) && (t >= s.nextTask ==> l == NEW_LEDGER)
    && (t in s.tasks && LoopTask(s.tasks[t]) ==> Balanced(s.tasks[t], l))
  }

  lemma ResumeKeepsBooks(s: State, l: Ledger, t: nat, task: nat, ok: bool)
    requires Single(s) && InBooks(s, l, t) && task in s.tasks
    ensures InBooks(Step(s, Resume(task, ok)), if task == t then Noted(l, s.tasks[t]) else l, t)
  {
    hide Segment, LoopTask, Balanced, Fair, Noted;
    var pc, env := s.tasks[task], EnvOf(s, task, ok);
    NewLoopsStartAfresh(s.actor, pc, env);
    LoopOwnership(s.actor, pc, env);
    NewLedgerBalances();
    if task == t {
      if LoopTask(pc) {
        SegmentBalances(s.actor, pc, env, l);
        NotedIsFair(l, pc);
      } else {
        OthersNoteNothing(l, pc);
      }
    }
  }

  lemma NewLedgerBalances()
    ensures Balanced(LoopHead(Loop(0, true)), NEW_LEDGER) && Fair(NEW_LEDGER)
  {
  }

  lemma StepKeepsBooks(s: State, l: Ledger, t: nat, a: Action)
    requires Single(s) && InBooks(s, l, t)
    ensures InBooks(Step(s, a), if a.Resume? && a.task == t && t in s.tasks then Noted(l, s.tasks[t]) else l, t)
  {
    hide Segment, Apply, Balanced, Fair, Noted;
    match a
    case Resume(task, ok) => if task in s.tasks { ResumeKeepsBooks(s, l, t, task, ok); }
    case _ =>
  }

  lemma {:induction false} RunKeepsBooks(actions: seq<Action>, t: nat)
    ensures InBooks(Run(START, actions), LedgerOf(actions, t), t)
  {
    hide Step, Noted, Balanced;
    if actions == [] {
      NewLedgerBalances();
    } else {
      var before, a := actions[..|actions| - 1], actions[|actions| - 1];
      RunKeepsBooks(before, t);
      RunKeepsSingle(before);
      StepKeepsBooks(Run(START, before), LedgerOf(before, t), t, a);
    }
  }

  lemma {:induction false} LedgerCompleted(actions: seq<Action>, t: nat)
    ensures LedgerOf(actions, t).completed == Completed(actions, t)
  {
    hide Run;
    if actions != [] {
      LedgerCompleted(actions[..|actions| - 1], t);
    }
  }

  // ----- What holds for every run -----

  /** Every loop of every run: n completed iterations have slept at least 2n + 28 * (n / 3) seconds. */
  lemma {:induction false} LoopSleepsLongEnough(actions: seq<Action>, t: nat)
    ensures var n := Completed(actions, t);
            LedgerOf(actions, t).slept >= 2 * n + 28 * (n / 3)
  {
    hide Run, LedgerOf, Completed, Balanced;
    RunKeepsBooks(actions, t);
    LedgerCompleted(actions, t);
  }

  /** Every loop of every run counts at its head its failures since its last success, modulo three. */
  lemma {:induction false} HeadCountsFailures(actions: seq<Action>, t: nat)
    requires t in Run(START, actions).tasks && Run(START, actions).tasks[t].LoopHead?
    ensures Run(START, actions).tasks[t].loop.failedSubscribes == LedgerOf(actions, t).failures % 3
  {
    hide Run, LedgerOf;
    RunKeepsBooks(actions, t);
  }

  /** And where it decides whether to give up for long, it sends the error exactly when those failures
      have come to a multiple of three. */
  lemma {:induction false} ErrorAtEveryThird(actions: seq<Action>, t: nat, ok: bool)
    requires t in Run(START, actions).tasks && Run(START, actions).tasks[t].LoopRetry?
    ensures var s := Run(START, actions);
            Step(s, Resume(t, ok)).updates ==
            s.updates + if LedgerOf(actions, t).failures % 3 == 0 then [ErrorRaised] else []
  {
    hide Run, LedgerOf;
    RunKeepsBooks(actions, t);
  }
}
