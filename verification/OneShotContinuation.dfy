/** CallbackContext and callWakuSync of WakuNode.swift: library callbacks and the 15 s timer race
    for one continuation. The class is resumeOnce as its callers see it; the machine interleaves
    the single steps inside it. */
module OneShotContinuation {
  import opened Options

  datatype Outcome = Outcome(success: bool, result: Option<string>)

  const TIMEOUT := Outcome(false, Some("Timeout"))

  // ----- The object, under its lock -----

  class CallbackContext {
    var resumed: bool
    var continuation: bool
    ghost var delivered: seq<Outcome>

    /** A spent context has delivered once; another has not delivered. */
    ghost predicate Valid()
      reads this
    {
      |delivered| == (if resumed then 1 else 0)
    }

    constructor ()
      ensures Valid() && !resumed && !continuation && delivered == []
    {
      resumed, continuation, delivered := false, false, [];
    }

    /** Storing the continuation, as callWakuSync does before the C call; a spent context stays spent. */
    method SetContinuation()
      requires Valid()
      modifies this
      ensures Valid() && continuation && resumed == old(resumed) && delivered == old(delivered)
    {
      continuation := true;
    }

    /** Only the first call after the continuation is stored resumes, and with its own value. */
    method ResumeOnce(value: Outcome) returns (did: bool)
      requires Valid()
      modifies this
      ensures Valid() && did == old(!resumed && continuation)
      ensures did ==> resumed && !continuation && delivered == [value]
      ensures !did ==> resumed == old(resumed) && continuation == old(continuation) && delivered == old(delivered)
    {
      if resumed || !continuation {
        return false;
      }
      resumed := true;
      continuation := false;
      delivered := delivered + [value];
      return true;
    }
  }

  // ----- The race, step by step -----

  /** Where a thread stands in resumeOnce. */
  datatype Pc = Wanting | Checking | Marking | Clearing | Resuming | Unlocking(did: bool) | Finished(did: bool)

  datatype Thread = Thread(value: Outcome, pc: Pc)

  /** Where the caller stands in setting the call up. */
  datatype Phase = Created | Stored | Retained | Working | TimerSet

  /** The timer block: not fired, running as a thread, or past its release. */
  datatype Timer = NotDue | Due(id: nat) | Done(id: nat)

  /** `first` and `resumes` are history: who took the lock first, and every resume of the
      continuation with its value. */
  datatype State = State(
    phase: Phase,
    lock: Option<nat>,
    resumed: bool,
    continuation: bool,
    threads: seq<Thread>,
    timer: Timer,
    retains: nat,
    releases: nat,
    first: Option<nat>,
    resumes: seq<Outcome>)

  const START := State(Created, None, false, false, [], NotDue, 0, 0, None, [])

  datatype Action =
    | SetUp
    | Callback(value: Outcome)
    | TimerFires
    | Advance(id: nat)
    | Release

  function StepSetUp(s: State): State {
    match s.phase
    case Created => s.(phase := Stored, continuation := true)
    case Stored => s.(phase := Retained, retains := s.retains + 1)
    case Retained => s.(phase := Working)
    case Working => s.(phase := TimerSet)
    case TimerSet => s
  }

  function SetPc(s: State, i: nat, pc: Pc): State
    requires i < |s.threads|
  {
    s.(threads := s.threads[i := s.threads[i].(pc := pc)])
  }

  /** One step of resumeOnce by thread i. */
  function StepThread(s: State, i: nat): State
    requires i < |s.threads|
  {
    match s.threads[i].pc
    case Wanting =>
      if s.lock.Some? then s
      else SetPc(s, i, Checking).(lock := Some(i), first := if s.first.None? then Some(i) else s.first)
    case Checking =>
      if !s.resumed && s.continuation then SetPc(s, i, Marking) else SetPc(s, i, Unlocking(false))
    case Marking => SetPc(s, i, Clearing).(resumed := true)
    case Clearing => SetPc(s, i, Resuming).(continuation := false)
    case Resuming => SetPc(s, i, Unlocking(true)).(resumes := s.resumes + [s.threads[i].value])
    case Unlocking(did) => SetPc(s, i, Finished(did)).(lock := None)
    case Finished(_) => s
  }

  /** One action; one that is not enabled changes nothing. A callback may arrive as soon as the
      C call is made, and any number may, but none after the timer's release. */
  function Step(s: State, a: Action): State {
    match a
    case SetUp => StepSetUp(s)
    case Callback(value) =>
      if (s.phase.Working? || s.phase.TimerSet?) && !s.timer.Done? then
        s.(threads := s.threads + [Thread(value, Wanting)])
      else s
    case TimerFires =>
      if s.phase.TimerSet? && s.timer.NotDue? then
        s.(threads := s.threads + [Thread(TIMEOUT, Wanting)], timer := Due(|s.threads|))
      else s
    case Advance(i) => if i < |s.threads| then StepThread(s, i) else s
    case Release =>
      if s.timer.Due? && s.timer.id < |s.threads| && s.threads[s.timer.id].pc.Finished? then
        s.(timer := Done(s.timer.id), releases := s.releases + 1)
      else s
  }

  function Run(actions: seq<Action>): State {
    if actions == [] then START else Step(Run(actions[..|actions| - 1]), actions[|actions| - 1])
  }

  // ----- The invariant -----

  predicate Critical(pc: Pc) { !pc.Wanting? && !pc.Finished? }

  /** A thread that is not the first to lock never gets to mark, clear or resume. */
  predicate Loser(pc: Pc) {
    pc.Wanting? || pc.Checking? || pc == Unlocking(false) || pc == Finished(false)
  }

  /** What the shared fields hold while the first locker is at pc. */
  predicate Winner(s: State, t: Thread) {
    match t.pc
    case Checking => !s.resumed && s.continuation && s.resumes == []
    case Marking => !s.resumed && s.continuation && s.resumes == []
    case Clearing => s.resumed && s.continuation && s.resumes == []
    case Resuming => s.resumed && !s.continuation && s.resumes == []
    case Unlocking(did) => did && s.resumed && !s.continuation && s.resumes == [t.value]
    case Finished(did) => did && s.resumed && !s.continuation && s.resumes == [t.value]
    case Wanting => false
  }

  predicate Locking(s: State) {
    && (s.lock.Some? ==> s.lock.value < |s.threads| && Critical(s.threads[s.lock.value].pc))
    && forall i :: 0 <= i < |s.threads| && Critical(s.threads[i].pc) ==> s.lock == Some(i)
  }

  predicate Racing(s: State) {
    match s.first
    case None =>
      && !s.resumed && s.resumes == [] && (s.continuation <==> !s.phase.Created?)
      && forall i :: 0 <= i < |s.threads| ==> s.threads[i].pc.Wanting?
    case Some(f) =>
      && f < |s.threads| && Winner(s, s.threads[f])
      && forall i :: 0 <= i < |s.threads| && i != f ==>
           Loser(s.threads[i].pc) && (s.threads[i].pc.Wanting? || s.threads[f].pc.Finished?)
  }

  predicate Setting(s: State) {
    && (s.threads != [] ==> s.phase.Working? || s.phase.TimerSet?)
    && s.retains == (if s.phase.Created? || s.phase.Stored? then 0 else 1)
    && s.releases == (if s.timer.Done? then 1 else 0)
    && (!s.timer.NotDue? ==> s.timer.id < |s.threads| && s.threads[s.timer.id].value == TIMEOUT)
    && (s.timer.Done? ==> s.threads[s.timer.id].pc.Finished?)
  }

  predicate Inv(s: State) {
    Locking(s) && Racing(s) && Setting(s)
  }

  lemma ThreadKeepsLocking(s: State, i: nat)
    requires Locking(s) && i < |s.threads|
    ensures Locking(StepThread(s, i))
  {
  }

  /** The steps of the thread that locked first, from the first lock on. */
  lemma WinnerKeepsRacing(s: State, i: nat)
    requires Locking(s) && Racing(s) && i < |s.threads|
    requires s.threads != [] ==> !s.phase.Created?
    requires s.first.None? || s.first == Some(i)
    ensures Racing(StepThread(s, i))
  {
  }

  /** The steps of every other thread, possible only once the first has finished. */
  lemma LoserKeepsRacing(s: State, i: nat)
    requires Locking(s) && Racing(s) && i < |s.threads|
    requires s.first.Some? && s.first != Some(i)
    ensures Racing(StepThread(s, i))
  {
    var f := s.first.value;
    var t := StepThread(s, i);
    assert s.threads[f].pc.Finished? || Critical(s.threads[f].pc);
    assert t.threads[f] == s.threads[f];
    assert Loser(s.threads[i].pc);
  }

  lemma StepThreadFrame(s: State, i: nat)
    requires i < |s.threads|
    ensures var t := StepThread(s, i);
            && t.phase == s.phase && t.retains == s.retains && t.releases == s.releases && t.timer == s.timer
            && |t.threads| == |s.threads|
            && (forall k :: 0 <= k < |s.threads| ==> t.threads[k].value == s.threads[k].value)
            && (forall k :: 0 <= k < |s.threads| && s.threads[k].pc.Finished? ==> t.threads[k].pc.Finished?)
  {
  }

  lemma ThreadKeepsSetting(s: State, i: nat)
    requires Setting(s) && i < |s.threads|
    ensures Setting(StepThread(s, i))
  {
    hide StepThread;
    StepThreadFrame(s, i);
  }

  lemma ThreadKeepsInv(s: State, i: nat)
    requires Inv(s) && i < |s.threads|
    ensures Inv(StepThread(s, i))
  {
    hide Locking, Racing, StepThread;
    assert !s.phase.Created?;
    ThreadKeepsLocking(s, i);
    ThreadKeepsSetting(s, i);
    if s.first.None? || s.first == Some(i) {
      WinnerKeepsRacing(s, i);
    } else {
      LoserKeepsRacing(s, i);
    }
  }

  lemma AppendKeepsInv(s: State, value: Outcome, timer: Timer)
    requires Inv(s) && (s.phase.Working? || s.phase.TimerSet?) && !s.timer.Done?
    requires timer == s.timer || (value == TIMEOUT && timer == Due(|s.threads|))
    ensures Inv(s.(threads := s.threads + [Thread(value, Wanting)], timer := timer))
  {
  }

  lemma StepKeepsInv(s: State, a: Action)
    requires Inv(s)
    ensures Inv(Step(s, a))
  {
    hide StepThread;
    match a
    case Advance(i) => if i < |s.threads| { ThreadKeepsInv(s, i); }
    case Callback(value) => if Step(s, a) != s { AppendKeepsInv(s, value, s.timer); }
    case TimerFires => if Step(s, a) != s { AppendKeepsInv(s, TIMEOUT, Due(|s.threads|)); }
    case _ =>
  }

  lemma {:induction false} ReachableInv(actions: seq<Action>)
    ensures Inv(Run(actions))
  {
    hide Step;
    if actions != [] {
      ReachableInv(actions[..|actions| - 1]);
      StepKeepsInv(Run(actions[..|actions| - 1]), actions[|actions| - 1]);
    }
  }

  // ----- What holds for every interleaving -----

  /** The continuation is never resumed twice, and only with the value of whoever locked first. */
  lemma {:induction false} ResumedAtMostOnce(actions: seq<Action>)
    ensures var s := Run(actions);
            && |s.resumes| <= 1
            && (s.resumes != [] ==> s.first.Some? && s.first.value < |s.threads|
                                    && s.resumes == [s.threads[s.first.value].value])
  {
    hide Run;
    ReachableInv(actions);
  }

  /** By the time the timer block has ended the continuation has been resumed exactly once, with
      the first locker's value, and the context was retained and released exactly once. */
  lemma {:induction false} ResumedByTimerEnd(actions: seq<Action>)
    ensures var s := Run(actions);
            s.timer.Done? ==>
              && s.first.Some? && s.first.value < |s.threads| && s.resumes == [s.threads[s.first.value].value]
              && s.retains == 1 && s.releases == 1
  {
    hide Run;
    ReachableInv(actions);
  }

  /** The timer reports a timeout iff it locked first, and then "Timeout" is what was delivered. */
  lemma {:induction false} TimeoutIffTimerFirst(actions: seq<Action>)
    ensures var s := Run(actions);
            !s.timer.NotDue? && s.timer.id < |s.threads| && s.threads[s.timer.id].pc.Finished? ==>
              && (s.threads[s.timer.id].pc.did <==> s.first == Some(s.timer.id))
              && (s.threads[s.timer.id].pc.did ==> s.resumes == [Outcome(false, Some("Timeout"))])
  {
    hide Run;
    ReachableInv(actions);
  }

  /** A thread that has finished resumeOnce did resume iff it was the first to take the lock:
      the object's contract, for every interleaving of its steps. */
  lemma {:induction false} DidIffFirst(actions: seq<Action>, i: nat)
    requires i < |Run(actions).threads| && Run(actions).threads[i].pc.Finished?
    ensures Run(actions).threads[i].pc.did <==> Run(actions).first == Some(i)
    ensures |Run(actions).resumes| == 1
  {
    hide Run;
    ReachableInv(actions);
  }
}
