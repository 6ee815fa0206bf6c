/** The subscription maintenance loop of WakuNode.swift on its own: whatever each iteration's calls
    return, what it asks for, what it sends and how long it sleeps. */
module MaintenanceLoop {
  import opened Options
  import opened ActorLifecycle

  /** What one iteration sees: whether the node still runs, whether the ping succeeds, whether the
      actor holds a subscription, and whether a subscribe would succeed. */
  datatype Turn = Turn(running: bool, pinged: bool, subscribed: bool, accepted: bool)

  datatype Act = Sent(update: Update) | Asked | Slept(seconds: nat)

  predicate Declines(t: Turn) {
    !(t.pinged && t.subscribed)
  }

  predicate Fails(t: Turn) {
    Declines(t) && !t.accepted
  }

  /** The subscribe failures since the last success. */
  function Failures(turns: seq<Turn>): nat {
    if turns == [] then 0
    else
      var before, t := Failures(turns[..|turns| - 1]), turns[|turns| - 1];
      if !Declines(t) then before else if t.accepted then 0 else before + 1
  }

  /** What one iteration does after `failed` failures; the first ping of a connection may fail
      without the UI being told. */
  function Iteration(t: Turn, failed: nat, isFirstPing: bool): seq<Act> {
    if !Declines(t) then [Slept(MAINTENANCE_INTERVAL_SECONDS)]
    else
      (if !isFirstPing && !t.pinged then [Sent(FilterChanged(false, failed)), Asked] else [Asked])
      + (if t.accepted then [Sent(FilterChanged(true, 0)), Slept(MAINTENANCE_INTERVAL_SECONDS)]
         else if failed + 1 < MAX_FAILED_SUBSCRIBES
         then [Sent(FilterChanged(false, failed + 1)), Slept(RETRY_WAIT_SECONDS)]
         else [Sent(FilterChanged(false, failed + 1)), Sent(ErrorRaised), Slept(MAINTENANCE_INTERVAL_SECONDS)])
  }

  /** What iteration k of a loop does. */
  function ActsOf(turns: seq<Turn>, k: nat): seq<Act>
    requires k < |turns|
  {
    Iteration(turns[k], Failures(turns[..k]) % MAX_FAILED_SUBSCRIBES, forall j :: 0 <= j < k ==> !Declines(turns[j]))
  }

  lemma NoFailures(turns: seq<Turn>)
    ensures Failures(turns[..0]) == 0
  {
  }

  lemma ActsAre(turns: seq<Turn>, k: nat, failed: nat, isFirstPing: bool)
    requires k < |turns| && failed == Failures(turns[..k]) % MAX_FAILED_SUBSCRIBES
    requires isFirstPing <==> forall j :: 0 <= j < k ==> !Declines(turns[j])
    ensures ActsOf(turns, k) == Iteration(turns[k], failed, isFirstPing)
  {
  }

  lemma FailuresStep(turns: seq<Turn>, k: nat)
    requires k < |turns|
    ensures var before, t, after := Failures(turns[..k]), turns[k], Failures(turns[..k + 1]);
            && after == (if !Declines(t) then before else if t.accepted then 0 else before + 1)
            && (Fails(t) ==> after % 3 == if before % 3 == 2 then 0 else before % 3 + 1)
  {
    assert turns[..k + 1][..k] == turns[..k];
  }

  /** The loop's body: one iteration, from the ping's outcome to its sleep. */
  method MaintainOnce(t: Turn, failed: nat, isFirstPing: bool)
    returns (done: seq<Act>, failedSubscribes: nat, isFirstPingOnConnection: bool)
    ensures done == Iteration(t, failed, isFirstPing) && isFirstPingOnConnection == (isFirstPing && !Declines(t))
    ensures failedSubscribes ==
            if !Declines(t) then failed
            else if t.accepted || failed + 1 >= MAX_FAILED_SUBSCRIBES then 0
            else failed + 1
  {
    done, failedSubscribes, isFirstPingOnConnection := [], failed, isFirstPing;
    if t.pinged && t.subscribed {
      done := [Slept(MAINTENANCE_INTERVAL_SECONDS)];
      return;
    }
    if !isFirstPingOnConnection && !t.pinged {
      done := done + [Sent(FilterChanged(false, failedSubscribes))];
    }
    isFirstPingOnConnection := false;
    done := done + [Asked];
    if t.accepted {
      failedSubscribes := 0;
      done := done + [Sent(FilterChanged(true, 0)), Slept(MAINTENANCE_INTERVAL_SECONDS)];
      return;
    }
    failedSubscribes := failedSubscribes + 1;
    done := done + [Sent(FilterChanged(false, failedSubscribes))];
    if failedSubscribes < MAX_FAILED_SUBSCRIBES {
      done := done + [Slept(RETRY_WAIT_SECONDS)];
    } else {
      done := done + [Sent(ErrorRaised)];
      failedSubscribes := 0;
      done := done + [Slept(MAINTENANCE_INTERVAL_SECONDS)];
    }
    assert done == Iteration(t, failed, isFirstPing);
  }

  /** The loop of the maintenance coroutine; it ends when the turns run out, which is cancellation,
      or when the node no longer runs. `acts` has one entry for each iteration completed. */
  method Maintain(turns: seq<Turn>) returns (acts: seq<seq<Act>>, failedSubscribes: nat, last: Update)
    ensures |acts| <= |turns| && (|acts| < |turns| ==> !turns[|acts|].running)
    ensures forall k :: 0 <= k < |acts| ==> turns[k].running && acts[k] == ActsOf(turns, k)
    ensures failedSubscribes == Failures(turns[..|acts|]) % MAX_FAILED_SUBSCRIBES
    ensures last == MaintenanceChanged(false)
  {
    hide ActsOf, Failures, Iteration;
    NoFailures(turns);
    acts, failedSubscribes := [], 0;
    var isFirstPingOnConnection := true;
    var i := 0;
    while i < |turns|
      invariant 0 <= i <= |turns| && |acts| == i
      invariant forall k :: 0 <= k < i ==> turns[k].running && acts[k] == ActsOf(turns, k)
      invariant failedSubscribes == Failures(turns[..i]) % MAX_FAILED_SUBSCRIBES
      invariant isFirstPingOnConnection <==> forall j :: 0 <= j < i ==> !Declines(turns[j])
    {
      var t := turns[i];
      if !t.running {
        break;
      }
      FailuresStep(turns, i);
      ActsAre(turns, i, failedSubscribes, isFirstPingOnConnection);
      i := i + 1;
      var done;
      done, failedSubscribes, isFirstPingOnConnection := MaintainOnce(t, failedSubscribes, isFirstPingOnConnection);
      acts := acts + [done];
    }
    last := MaintenanceChanged(false);
  }

  /** The error is sent exactly when a failure brings the count to a multiple of three, and a
      subscription is asked for exactly when the ping failed or none was held. */
  lemma ErrorsAndRequests(turns: seq<Turn>, k: nat)
    requires k < |turns|
    ensures Sent(ErrorRaised) in ActsOf(turns, k) <==>
            Fails(turns[k]) && Failures(turns[..k + 1]) % MAX_FAILED_SUBSCRIBES == 0
    ensures Asked in ActsOf(turns, k) <==> !turns[k].pinged || !turns[k].subscribed
  {
    hide Failures;
    FailuresStep(turns, k);
    var acts := ActsOf(turns, k);
    if Fails(turns[k]) {
      if Failures(turns[..k + 1]) % MAX_FAILED_SUBSCRIBES == 0 {
        assert acts[|acts| - 2] == Sent(ErrorRaised);
      }
    }
    if Declines(turns[k]) {
      assert Asked == if acts[0] == Asked then acts[0] else acts[1];
    }
  }

  // ----- Sleep -----

  function SleepIn(acts: seq<Act>): nat {
    if acts == [] then 0
    else SleepIn(acts[..|acts| - 1]) + (match acts[|acts| - 1] case Slept(seconds) => seconds case _ => 0)
  }

  /** The seconds of sleep that the first n iterations request. */
  function SleepBefore(turns: seq<Turn>, n: nat): nat
    requires n <= |turns|
  {
    if n == 0 then 0 else SleepBefore(turns, n - 1) + SleepIn(ActsOf(turns, n - 1))
  }

  /** Every iteration sleeps once: two seconds after a first or second failure in a row, else thirty. */
  lemma SleepOnce(turns: seq<Turn>, k: nat)
    requires k < |turns|
    ensures SleepIn(ActsOf(turns, k)) ==
            if Fails(turns[k]) && Failures(turns[..k]) % MAX_FAILED_SUBSCRIBES < 2
            then RETRY_WAIT_SECONDS else MAINTENANCE_INTERVAL_SECONDS
  {
    hide Failures, SleepIn, Iteration;
    var isFirstPing := forall j :: 0 <= j < k ==> !Declines(turns[j]);
    IterationSleep(turns[k], Failures(turns[..k]) % MAX_FAILED_SUBSCRIBES, isFirstPing);
  }

  lemma IterationSleep(t: Turn, failed: nat, isFirstPing: bool)
    ensures SleepIn(Iteration(t, failed, isFirstPing)) ==
            if Fails(t) && failed < 2 then RETRY_WAIT_SECONDS else MAINTENANCE_INTERVAL_SECONDS
  {
    var acts := Iteration(t, failed, isFirstPing);
    NeverSlept(acts[..|acts| - 1]);
  }

  lemma {:induction false} NeverSlept(acts: seq<Act>)
    requires forall i :: 0 <= i < |acts| ==> !acts[i].Slept?
    ensures SleepIn(acts) == 0
  {
    if acts != [] {
      NeverSlept(acts[..|acts| - 1]);
    }
  }

  /** The iterations that slept thirty seconds. */
  function LongSleeps(turns: seq<Turn>, n: nat): nat
    requires n <= |turns|
  {
    if n == 0 then 0
    else
      LongSleeps(turns, n - 1)
      + if Fails(turns[n - 1]) && Failures(turns[..n - 1]) % MAX_FAILED_SUBSCRIBES < 2 then 0 else 1
  }

  /** Short sleeps come at most two for each long one, beyond those of the current row. */
  lemma {:induction false} ShortSleepsAreBounded(turns: seq<Turn>, n: nat)
    requires n <= |turns|
    ensures n - LongSleeps(turns, n) <= 2 * LongSleeps(turns, n) + Failures(turns[..n]) % MAX_FAILED_SUBSCRIBES
    ensures SleepBefore(turns, n) == RETRY_WAIT_SECONDS * n + 28 * LongSleeps(turns, n)
  {
    hide ActsOf, SleepIn, Failures;
    if n > 0 {
      ShortSleepsAreBounded(turns, n - 1);
      FailuresStep(turns, n - 1);
      SleepOnce(turns, n - 1);
    }
  }

  /** The load bound: however the calls end, n iterations request at least 2n + 28 * (n / 3)
      seconds of sleep. */
  lemma {:induction false} SleepsLongEnough(turns: seq<Turn>, n: nat)
    requires n <= |turns|
    ensures SleepBefore(turns, n) >= RETRY_WAIT_SECONDS * n + 28 * (n / MAX_FAILED_SUBSCRIBES)
  {
    ShortSleepsAreBounded(turns, n);
  }

  /** The bound is reached when every subscribe fails. */
  lemma {:induction false} FailingSleepsLeast(turns: seq<Turn>, n: nat)
    requires n <= |turns| && forall k :: 0 <= k < n ==> Fails(turns[k])
    ensures Failures(turns[..n]) == n
    ensures SleepBefore(turns, n) == RETRY_WAIT_SECONDS * n + 28 * (n / MAX_FAILED_SUBSCRIBES)
  {
    hide ActsOf, SleepIn;
    if n > 0 {
      FailingSleepsLeast(turns, n - 1);
      FailuresStep(turns, n - 1);
      SleepOnce(turns, n - 1);
    }
  }

  // ----- The loop and the actor's segments -----

  /** What a segment of the loop does, in the terms of the loop. */
  function ActsIn(e: Effect): seq<Act> {
    (if |e.events| == 1 && e.events[0].Called? && e.events[0].call.Subscribe? then [Asked] else [])
    + seq(|e.updates|, i requires 0 <= i < |e.updates| => Sent(e.updates[i]))
  }

  /** The outcome that the turn gives the call awaited at pc. */
  function EnvAt(pc: Pc, t: Turn): Env {
    Env(if pc.PingWaiting? then t.pinged else t.accepted, false, 0, 0)
  }

  /** The maintenance coroutine alone, from pc to its next sleep: the loop's variables there, and
      what it did on the way, that sleep included. None when n segments do not get it there. */
  function Alone(a: Actor, pc: Pc, t: Turn, n: nat): Option<(Loop, seq<Act>)>
    decreases n
  {
    if pc.LoopSleep? then Some((pc.loop, [Slept(pc.seconds)]))
    else if n == 0 then None
    else
      var e := Segment(a, pc, EnvAt(pc, t));
      if e.next.None? then None
      else
        match Alone(e.actor, e.next.value, t, n - 1)
        case None => None
        case Some(r) => Some((r.0, ActsIn(e) + r.1))
  }

  /** The loop's variables after an iteration. */
  function NextLoop(t: Turn, loop: Loop): Loop {
    if !Declines(t) then loop
    else
      var failed := loop.failedSubscribes + 1;
      Loop(if t.accepted || failed >= MAX_FAILED_SUBSCRIBES then 0 else failed, false)
  }

  lemma Hop(a: Actor, pc: Pc, t: Turn, n: nat, done: seq<Act>, r: (Loop, seq<Act>))
    requires !pc.LoopSleep? && n > 0
    requires var e := Segment(a, pc, EnvAt(pc, t));
             e.next.Some? && ActsIn(e) == done && Alone(e.actor, e.next.value, t, n - 1) == Some(r)
    ensures Alone(a, pc, t, n) == Some((r.0, done + r.1))
  {
    hide Segment, ActsIn;
  }

  /** Some segments do nothing that the loop's terms speak of. */
  lemma QuietHop(a: Actor, pc: Pc, t: Turn, n: nat, r: (Loop, seq<Act>))
    requires !pc.LoopSleep? && n > 0
    requires var e := Segment(a, pc, EnvAt(pc, t));
             e.next.Some? && ActsIn(e) == [] && Alone(e.actor, e.next.value, t, n - 1) == Some(r)
    ensures Alone(a, pc, t, n) == Some(r)
  {
    hide Segment, ActsIn;
    assert [] + r.1 == r.1;
  }

  lemma Sleeping(a: Actor, loop: Loop, seconds: nat, t: Turn, n: nat)
    ensures Alone(a, LoopSleep(loop, seconds), t, n) == Some((loop, [Slept(seconds)]))
  {
  }

  /** What follows the request. */
  function AnswerActs(t: Turn, failed: nat): seq<Act> {
    if t.accepted then [Sent(FilterChanged(true, 0)), Slept(MAINTENANCE_INTERVAL_SECONDS)]
    else if failed + 1 < MAX_FAILED_SUBSCRIBES
    then [Sent(FilterChanged(false, failed + 1)), Slept(RETRY_WAIT_SECONDS)]
    else [Sent(FilterChanged(false, failed + 1)), Sent(ErrorRaised), Slept(MAINTENANCE_INTERVAL_SECONDS)]
  }

  lemma AfterRefusal(a: Actor, loop: Loop, t: Turn)
    requires !loop.isFirstPing && !t.accepted
    ensures Alone(a, LoopSubscribed(loop, false), t, 3) ==
            Some((NextLoop(t.(pinged := false), loop), AnswerActs(t, loop.failedSubscribes)))
  {
    hide Alone;
    var counted := loop.(failedSubscribes := loop.failedSubscribes + 1);
    var next := NextLoop(t.(pinged := false), loop);
    var told := [Sent(FilterChanged(false, counted.failedSubscribes))];
    if counted.failedSubscribes < MAX_FAILED_SUBSCRIBES {
      Sleeping(a, next, RETRY_WAIT_SECONDS, t, 1);
      QuietHop(a, LoopRetry(counted), t, 2, (next, [Slept(RETRY_WAIT_SECONDS)]));
      Hop(a, LoopSubscribed(loop, false), t, 3, told, (next, [Slept(RETRY_WAIT_SECONDS)]));
      assert told + [Slept(RETRY_WAIT_SECONDS)] == AnswerActs(t, loop.failedSubscribes);
    } else {
      var long := Slept(MAINTENANCE_INTERVAL_SECONDS);
      Sleeping(a, next, MAINTENANCE_INTERVAL_SECONDS, t, 1);
      Hop(a, LoopRetry(counted), t, 2, [Sent(ErrorRaised)], (next, [long]));
      Hop(a, LoopSubscribed(loop, false), t, 3, told, (next, [Sent(ErrorRaised)] + [long]));
      assert told + ([Sent(ErrorRaised)] + [long]) == AnswerActs(t, loop.failedSubscribes);
    }
  }

  lemma FromAnswer(a: Actor, loop: Loop, t: Turn)
    requires !loop.isFirstPing
    ensures Alone(a, SubscribeWaiting(Maintainer(loop)), t, 4) ==
            Some((NextLoop(t.(pinged := false), loop), AnswerActs(t, loop.failedSubscribes)))
  {
    hide Alone, NextLoop;
    var answered := a.(isSubscribing := false, isSubscribed := t.accepted);
    var next := NextLoop(t.(pinged := false), loop);
    if t.accepted {
      var long := Slept(MAINTENANCE_INTERVAL_SECONDS);
      AcceptedLoop(loop, t);
      Sleeping(answered, next, MAINTENANCE_INTERVAL_SECONDS, t, 2);
      QuietHop(answered, LoopSubscribed(loop, true), t, 3, (next, [long]));
      Hop(a, SubscribeWaiting(Maintainer(loop)), t, 4, [Sent(FilterChanged(true, 0))], (next, [long]));
      assert [Sent(FilterChanged(true, 0))] + [long] == AnswerActs(t, loop.failedSubscribes);
    } else {
      AfterRefusal(answered, loop, t);
      QuietHop(a, SubscribeWaiting(Maintainer(loop)), t, 4, (next, AnswerActs(t, loop.failedSubscribes)));
    }
  }

  lemma AcceptedLoop(loop: Loop, t: Turn)
    requires !loop.isFirstPing && t.accepted
    ensures NextLoop(t.(pinged := false), loop) == loop.(failedSubscribes := 0)
  {
  }

  lemma FromReset(a: Actor, loop: Loop, t: Turn)
    requires a.ctx.Some? && !loop.isFirstPing
    ensures Alone(a, LoopReset(loop), t, 6) ==
            Some((NextLoop(t.(pinged := false), loop), [Asked] + AnswerActs(t, loop.failedSubscribes)))
  {
    hide Alone, NextLoop, AnswerActs;
    var reset := a.(isSubscribed := false, isSubscribing := false);
    var next, answer := NextLoop(t.(pinged := false), loop), AnswerActs(t, loop.failedSubscribes);
    FromAnswer(reset.(isSubscribing := true), loop, t);
    Hop(reset, SubscribeEntry(Maintainer(loop)), t, 5, [Asked], (next, answer));
    QuietHop(a, LoopReset(loop), t, 6, (next, [Asked] + answer));
  }

  lemma FromDecision(a: Actor, loop: Loop, t: Turn)
    requires a.ctx.Some?
    ensures Alone(a, LoopDecide(loop, t.pinged, t.subscribed), t, 7) ==
            Some((NextLoop(t, loop), Iteration(t, loop.failedSubscribes, loop.isFirstPing)))
  {
    hide Alone;
    var pc := LoopDecide(loop, t.pinged, t.subscribed);
    var next, asked := NextLoop(t, loop), [Asked] + AnswerActs(t, loop.failedSubscribes);
    if !Declines(t) {
      Sleeping(a, loop, MAINTENANCE_INTERVAL_SECONDS, t, 6);
      QuietHop(a, pc, t, 7, (loop, [Slept(MAINTENANCE_INTERVAL_SECONDS)]));
    } else {
      FromReset(a, loop.(isFirstPing := false), t);
      if !loop.isFirstPing && !t.pinged {
        var told := [Sent(FilterChanged(false, loop.failedSubscribes))];
        Hop(a, pc, t, 7, told, (next, asked));
        assert told + asked == Iteration(t, loop.failedSubscribes, loop.isFirstPing);
      } else {
        QuietHop(a, pc, t, 7, (next, asked));
      }
    }
  }

  lemma FromPing(a: Actor, loop: Loop, t: Turn)
    requires a.ctx.Some? && a.isSubscribed == t.subscribed
    ensures Alone(a, PingWaiting(loop), t, 9) ==
            Some((NextLoop(t, loop), Iteration(t, loop.failedSubscribes, loop.isFirstPing)))
  {
    hide Alone, Iteration, NextLoop;
    var r := (NextLoop(t, loop), Iteration(t, loop.failedSubscribes, loop.isFirstPing));
    FromDecision(a, loop, t);
    QuietHop(a, LoopPinged(loop, t.pinged), t, 8, r);
    QuietHop(a, PingWaiting(loop), t, 9, r);
  }

  /** The loop above is the actor's loop: alone, from the loop's head, the maintenance coroutine asks,
      sends and sleeps exactly as the iteration does, in that order, and reaches its sleep with
      the variables that the iteration leaves. */
  lemma IterationIsTheTask(a: Actor, loop: Loop, t: Turn)
    requires a.ctx.Some? && a.isSubscribed == t.subscribed
    ensures Alone(a, LoopHead(loop), t, 12) ==
            Some((NextLoop(t, loop), Iteration(t, loop.failedSubscribes, loop.isFirstPing)))
  {
    hide Alone, Iteration, NextLoop;
    var r := (NextLoop(t, loop), Iteration(t, loop.failedSubscribes, loop.isFirstPing));
    FromPing(a, loop, t);
    QuietHop(a, PingEntry(loop), t, 10, r);
    QuietHop(a, LoopCheck(loop), t, 11, r);
    QuietHop(a, LoopHead(loop), t, 12, r);
  }
}
