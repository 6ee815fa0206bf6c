/** The mutex, condition variable and flag handshake of waku_example.c, in steps so small that
    each takes, releases or touches one shared thing. The library side answers one call at a
    time; spurious wakeups may happen whenever the main thread waits. */
module CallbackHandshake {
  import opened Options

  datatype Thread = Main | Library

  /** Where the main thread stands in WAKU_CALL and waitForCallback. */
  datatype MainPc = Idle | Calling | WantLock | Testing | Waiting | Woken | Resetting | Unlocking

  /** Where the library thread stands in a callback and signal_cond. */
  datatype LibraryPc = Quiet | Handling(answer: Option<string>) | LWantLock | Setting | Signalling | LUnlocking

  /** `topicCalls` says of each call issued whether it asks for the content topic;
      `answers` holds what each fired callback was handed. The counters are history. */
  datatype State = State(
    exited: bool,
    lock: Option<Thread>,
    flag: int,
    contentTopic: Option<string>,
    main: MainPc,
    library: LibraryPc,
    topicCalls: seq<bool>,
    answers: seq<Option<string>>,
    signals: nat,
    waits: nat)

  const START := State(false, None, 0, None, Idle, Quiet, [], [], 0, 0)

  /** One step of a thread or of the environment. */
  datatype Action =
    | Issue(asksTopic: bool)
    | CallReturns(ret: int)
    | MainStep
    | SpuriousWakeup
    | Fire(failed: bool, msg: string)
    | LibraryStep
    | Event(failed: bool)

  /** waitForCallback, one step. */
  function StepMain(s: State): State {
    match s.main
    case WantLock => if s.lock.None? then s.(lock := Some(Main), main := Testing) else s
    case Testing => if s.flag != 0 then s.(main := Resetting) else s.(lock := None, main := Waiting)
    case Woken => if s.lock.None? then s.(lock := Some(Main), main := Testing) else s
    case Resetting => s.(flag := 0, waits := s.waits + 1, main := Unlocking)
    case Unlocking => s.(lock := None, main := Idle)
    case _ => s
  }

  /** The body of a callback and signal_cond, one step. */
  function StepLibrary(s: State): State {
    match s.library
    case Handling(answer) =>
      s.(contentTopic := if answer.Some? then answer else s.contentTopic, library := LWantLock)
    case LWantLock => if s.lock.None? then s.(lock := Some(Library), library := Setting) else s
    case Setting => s.(flag := 1, signals := s.signals + 1, library := Signalling)
    case Signalling => s.(main := if s.main.Waiting? then Woken else s.main, library := LUnlocking)
    case LUnlocking => s.(lock := None, library := Quiet)
    case Quiet => s
  }

  /** One action; one that is not enabled changes nothing. With `eventsSignal` the event
      callback runs signal_cond too, which on_event_received does not. */
  function Step(s: State, a: Action, eventsSignal: bool): State {
    if s.exited then s else
    match a
    case Issue(asksTopic) =>
      if s.main.Idle? then s.(main := Calling, topicCalls := s.topicCalls + [asksTopic]) else s
    case CallReturns(ret) =>
      if !s.main.Calling? then s else if ret == 0 then s.(main := WantLock) else s.(exited := true)
    case MainStep => StepMain(s)
    case SpuriousWakeup => if s.main.Waiting? then s.(main := Woken) else s
    case Fire(failed, msg) =>
      if s.library.Quiet? && |s.answers| < |s.topicCalls| then
        var answer := if s.topicCalls[|s.answers|] then Some(msg) else None;
        if failed && answer.None? then s.(exited := true)
        else s.(answers := s.answers + [answer], library := Handling(answer))
      else s
    case LibraryStep => StepLibrary(s)
    case Event(failed) =>
      if failed then s.(exited := true)
      else if eventsSignal && s.library.Quiet? then s.(library := Handling(None))
      else s
  }

  function Run(s: State, actions: seq<Action>, eventsSignal: bool): State {
    if actions == [] then s
    else Step(Run(s, actions[..|actions| - 1], eventsSignal), actions[|actions| - 1], eventsSignal)
  }

  // ----- The invariant -----

  predicate MainHolds(pc: MainPc) { pc.Testing? || pc.Resetting? || pc.Unlocking? }

  predicate LibraryHolds(pc: LibraryPc) { pc.Setting? || pc.Signalling? || pc.LUnlocking? }

  /** The callback being run has not set the flag yet. */
  predicate BeforeSignal(pc: LibraryPc) { pc.Handling? || pc.LWantLock? || pc.Setting? }

  predicate Locking(s: State) {
    && (s.lock == Some(Main) <==> MainHolds(s.main))
    && (s.lock == Some(Library) <==> LibraryHolds(s.library))
  }

  predicate Counting(s: State) {
    && 0 <= s.flag <= 1 && s.flag == s.signals - s.waits
    && |s.topicCalls| == s.waits + (if s.main.Idle? || s.main.Unlocking? then 0 else 1)
    && |s.answers| <= |s.topicCalls|
    && |s.answers| == s.signals + (if BeforeSignal(s.library) then 1 else 0)
    && (s.main.Resetting? ==> s.flag == 1)
  }

  /** A waiting main thread with the flag set is about to be signalled. */
  predicate NoLostWakeup(s: State) {
    s.main.Waiting? && s.flag == 1 ==> s.library.Signalling?
  }

  /** The topic shared with the main thread is the latest answer handled. */
  predicate TopicKept(s: State) {
    && (s.library.Handling? ==> s.answers != [] && s.answers[|s.answers| - 1] == s.library.answer)
    && |s.answers| <= |s.topicCalls|
    && (forall k :: 0 <= k < |s.answers| ==> (s.answers[k].Some? <==> s.topicCalls[k]))
    && (s.answers != [] && !s.library.Handling? && s.answers[|s.answers| - 1].Some? ==>
          s.contentTopic == s.answers[|s.answers| - 1])
  }

  predicate Inv(s: State) {
    Locking(s) && Counting(s) && NoLostWakeup(s) && TopicKept(s) && (s.main.Idle? ==> s.library.Quiet?)
  }

  /** The steps that take or release the lock. */
  lemma LockingKeepsInv(s: State)
    requires Inv(s) && (s.main.WantLock? || s.main.Woken? || s.main.Unlocking?)
    ensures Inv(StepMain(s))
  {
  }

  /** The steps that read or reset the flag. */
  lemma FlagKeepsInv(s: State)
    requires Inv(s) && (s.main.Testing? || s.main.Resetting?)
    ensures Inv(StepMain(s))
  {
  }

  lemma MainKeepsInv(s: State)
    requires Inv(s)
    ensures Inv(StepMain(s))
  {
    hide Inv;
    if s.main.WantLock? || s.main.Woken? || s.main.Unlocking? {
      LockingKeepsInv(s);
    } else if s.main.Testing? || s.main.Resetting? {
      FlagKeepsInv(s);
    }
  }

  lemma LibraryKeepsInv(s: State)
    requires Inv(s)
    ensures Inv(StepLibrary(s))
  {
  }

  lemma IssueKeepsInv(s: State, asksTopic: bool)
    requires Inv(s) && s.main.Idle?
    ensures Inv(s.(main := Calling, topicCalls := s.topicCalls + [asksTopic]))
  {
  }

  lemma FireKeepsInv(s: State, answer: Option<string>)
    requires Inv(s) && s.library.Quiet? && |s.answers| < |s.topicCalls|
    requires answer.Some? <==> s.topicCalls[|s.answers|]
    ensures Inv(s.(answers := s.answers + [answer], library := Handling(answer)))
  {
  }

  lemma OthersKeepInv(s: State)
    requires Inv(s)
    ensures Inv(s.(exited := true))
    ensures s.main.Calling? ==> Inv(s.(main := WantLock))
    ensures s.main.Waiting? ==> Inv(s.(main := Woken))
  {
  }

  lemma StepKeepsInv(s: State, a: Action)
    requires Inv(s)
    ensures Inv(Step(s, a, false))
  {
    hide Inv, StepMain, StepLibrary;
    OthersKeepInv(s);
    match a
    case Issue(asksTopic) => if s.main.Idle? { IssueKeepsInv(s, asksTopic); }
    case MainStep => MainKeepsInv(s);
    case LibraryStep => LibraryKeepsInv(s);
    case Fire(failed, msg) =>
      if s.library.Quiet? && |s.answers| < |s.topicCalls| {
        FireKeepsInv(s, if s.topicCalls[|s.answers|] then Some(msg) else None);
      }
    case _ =>
  }

  lemma {:induction false} RunKeepsInv(s: State, actions: seq<Action>)
    requires Inv(s)
    ensures Inv(Run(s, actions, false))
  {
    hide Inv, Step;
    if actions != [] {
      RunKeepsInv(s, actions[..|actions| - 1]);
      StepKeepsInv(Run(s, actions[..|actions| - 1], false), actions[|actions| - 1]);
    }
  }

  lemma ReachableInv(actions: seq<Action>)
    ensures Inv(Run(START, actions, false))
  {
    hide Run, Inv;
    StartInv();
    RunKeepsInv(START, actions);
  }

  lemma StartInv()
    ensures Inv(START)
  {
  }

  // ----- Safety over every run -----

  /** In every reachable state the flag is signals minus completed waits and is 0 or 1, and the
      k-th wait has completed only if the k-th call's callback has signalled. */
  lemma {:induction false} FlagCountsSignals(actions: seq<Action>)
    ensures var s := Run(START, actions, false);
            0 <= s.flag <= 1 && s.flag == s.signals - s.waits && s.waits <= s.signals <= |s.answers| <= s.waits + 1
  {
    hide Run;
    ReachableInv(actions);
  }

  /** No wakeup is lost: whenever the main thread sleeps, its callback has not signalled yet, or
      is about to wake it. */
  lemma {:induction false} SleeperIsOwedASignal(actions: seq<Action>)
    ensures var s := Run(START, actions, false);
            s.main.Waiting? ==> s.signals == s.waits || s.library.Signalling?
  {
    hide Run;
    ReachableInv(actions);
  }

  /** When the main thread is back from a wait, the library is quiet, so the content topic is
      not being written, and after a content-topic call it is that call's answer. */
  lemma {:induction false} TopicIsTheAnswer(actions: seq<Action>)
    ensures var s := Run(START, actions, false);
            s.main.Idle? ==>
              && s.library.Quiet? && |s.answers| == |s.topicCalls| == s.waits
              && (s.waits > 0 && s.topicCalls[s.waits - 1] ==>
                    s.contentTopic.Some? && s.contentTopic == s.answers[s.waits - 1])
  {
    hide Run;
    ReachableInv(actions);
  }

  /** Whether the library fires the next call's callback in this step: it is quiet, a call is
      unanswered, and the callback is not one that exits on its error. */
  predicate Fires(s: State, a: Action) {
    && a.Fire? && !s.exited && s.library.Quiet? && |s.answers| < |s.topicCalls|
    && (a.failed ==> s.topicCalls[|s.answers|])
  }

  /** The messages that the callbacks were handed, in order. */
  function HandedOver(actions: seq<Action>): seq<string> {
    if actions == [] then []
    else
      var before, a := actions[..|actions| - 1], actions[|actions| - 1];
      HandedOver(before) + if Fires(Run(START, before, false), a) then [a.msg] else []
  }

  /** Every content-topic call is answered with the message its own callback was handed. */
  lemma {:induction false} AnswersAreMessages(actions: seq<Action>)
    ensures var s := Run(START, actions, false);
            && |HandedOver(actions)| == |s.answers| <= |s.topicCalls|
            && forall k :: 0 <= k < |s.answers| ==>
                 s.answers[k] == if s.topicCalls[k] then Some(HandedOver(actions)[k]) else None
  {
    hide Step, Fires;
    if actions != [] {
      var before, a := actions[..|actions| - 1], actions[|actions| - 1];
      AnswersAreMessages(before);
      StepAnswers(Run(START, before, false), a);
    }
  }

  lemma StepAnswers(s: State, a: Action)
    ensures var u := Step(s, a, false);
            && s.topicCalls <= u.topicCalls
            && (if Fires(s, a) then |s.answers| < |s.topicCalls|
                                    && u.answers
                                    == s.answers + [if s.topicCalls[|s.answers|] then Some(a.msg) else None]
                else u.answers == s.answers)
  {
    hide StepMain, StepLibrary;
    StepFrame(s, a);
  }

  lemma StepFrame(s: State, a: Action)
    ensures StepMain(s).answers == s.answers && StepMain(s).topicCalls == s.topicCalls
    ensures StepLibrary(s).answers == s.answers && StepLibrary(s).topicCalls == s.topicCalls
    ensures StepMain(s).exited == s.exited && StepLibrary(s).exited == s.exited
  {
  }

  /** So back from a content-topic call the main thread reads the message that the callback of this very
      call was handed. */
  lemma {:induction false} TopicIsTheMessage(actions: seq<Action>)
    ensures var s := Run(START, actions, false);
            s.main.Idle? && s.waits > 0 && |s.topicCalls| == s.waits && s.topicCalls[s.waits - 1] ==>
              |HandedOver(actions)| == s.waits && s.contentTopic == Some(HandedOver(actions)[s.waits - 1])
  {
    hide Run, HandedOver;
    TopicIsTheAnswer(actions);
    AnswersAreMessages(actions);
  }

  /** What ends the process: an event or a callback that reports an error, other than the content-topic
      callback, and a call that does not return 0. */
  predicate Fatal(s: State, a: Action) {
    || a == Event(true)
    || (a.CallReturns? && s.main.Calling? && a.ret != 0)
    || (a.Fire? && a.failed && s.library.Quiet? && |s.answers| < |s.topicCalls| && !s.topicCalls[|s.answers|])
  }

  ghost predicate FatalAt(actions: seq<Action>, n: nat)
    requires n < |actions|
  {
    Fatal(Run(START, actions[..n], false), actions[n])
  }

  lemma FatalAtSnoc(before: seq<Action>, a: Action, n: nat)
    requires n <= |before|
    ensures FatalAt(before + [a], n) == if n < |before| then FatalAt(before, n) else Fatal(Run(START, before, false), a)
  {
    hide Run, Fatal;
    assert (before + [a])[..n] == before[..n];
    assert before[..|before|] == before;
  }

  /** The process ends with the first of those, and never otherwise. */
  lemma {:induction false} ExitsIff(actions: seq<Action>)
    ensures Run(START, actions, false).exited <==> exists n :: 0 <= n < |actions| && FatalAt(actions, n)
  {
    hide Step, FatalAt, Fatal;
    if actions != [] {
      var before, a := actions[..|actions| - 1], actions[|actions| - 1];
      assert before + [a] == actions;
      ExitsIff(before);
      FatalExits(Run(START, before, false), a);
      forall n | 0 <= n <= |before|
        ensures FatalAt(actions, n) == if n < |before| then FatalAt(before, n) else Fatal(Run(START, before, false), a)
      {
        FatalAtSnoc(before, a, n);
      }
      assert FatalAt(actions, |before|) == Fatal(Run(START, before, false), a);
    }
  }

  lemma FatalExits(s: State, a: Action)
    ensures Step(s, a, false).exited <==> s.exited || Fatal(s, a)
  {
    StepFrame(s, a);
  }

  // ----- Bounded return -----

  /** How many of its own steps the main thread needs at most, once the flag is set. */
  function Distance(pc: MainPc): nat {
    match pc
    case Idle => 0
    case Unlocking => 1
    case Resetting => 2
    case Testing => 3
    case WantLock => 4
    case Woken => 4
    case Waiting => 4
    case Calling => 5
  }

  predicate MainAction(a: Action) { a.MainStep? || a.CallReturns? }

  /** The effective steps the main thread takes itself before it is idle again. */
  function OwnSteps(s: State, actions: seq<Action>): nat
    decreases |actions|
  {
    if actions == [] || s.main.Idle? || s.exited then 0
    else
      var t := Step(s, actions[0], false);
      (if MainAction(actions[0]) && t != s then 1 else 0) + OwnSteps(t, actions[1..])
  }

  /** From any state in which the callback has signalled, the main thread returns from its wait
      within five steps of its own, however wakeups and other steps interleave. */
  lemma {:induction false} ReturnsWithinFiveSteps(s: State, actions: seq<Action>)
    requires Inv(s) && (s.flag == 1 || s.main.Unlocking?)
    ensures OwnSteps(s, actions) <= Distance(s.main) <= 5
    decreases |actions|
  {
    hide Inv, Step;
    if actions != [] && !s.main.Idle? && !s.exited {
      var t := Step(s, actions[0], false);
      StepKeepsInv(s, actions[0]);
      SettledStep(s, actions[0]);
      if !t.main.Idle? && !t.exited {
        ReturnsWithinFiveSteps(t, actions[1..]);
      }
    }
  }

  lemma SettledStep(s: State, a: Action)
    requires Inv(s) && (s.flag == 1 || s.main.Unlocking?) && !s.main.Idle? && !s.exited
    ensures var t := Step(s, a, false);
            && (t.main.Idle? || t.exited || t.flag == 1 || t.main.Unlocking?)
            && (if MainAction(a) && t != s then 1 else 0) + (if t.exited then 0 else Distance(t.main))
               <= Distance(s.main)
  {
  }

  /** The main thread can take an effective step of its own, now or after at most two library steps. */
  predicate Proceeds(s: State) {
    var later := StepLibrary(StepLibrary(s));
    s.main.Calling? || StepMain(s) != s || (LibraryHolds(s.library) && StepMain(later) != later)
  }

  /** Once the flag is set nothing keeps the main thread from those steps: it can take one unless
      the library holds the lock, and then it can as soon as the library has let go. */
  lemma {:induction false} SignalledMainProceeds(actions: seq<Action>)
    ensures var s := Run(START, actions, false); !s.exited && s.flag == 1 ==> Proceeds(s)
  {
    hide Run, Inv, Proceeds;
    ReachableInv(actions);
    if Run(START, actions, false).flag == 1 {
      FlagSetProceeds(Run(START, actions, false));
    }
  }

  lemma FlagSetProceeds(s: State)
    requires Inv(s) && s.flag == 1
    ensures Proceeds(s)
  {
    assert s.lock.Some? ==> s.lock.value.Main? || s.lock.value.Library?;
    var one := StepLibrary(s);
    var later := StepLibrary(one);
    if s.library.Signalling? {
      assert later.lock.None? && !later.main.Waiting?;
    } else if s.library.LUnlocking? {
      assert one.lock.None? && later == one;
    }
  }

  // ----- Why the event callback must not signal -----

  /** A run in which an event callback that signals ends the first wait although the first
      call's callback has not even fired. */
  lemma SignallingEventBreaksWait()
    ensures exists actions :: Run(START, actions, true).waits == 1 && Run(START, actions, true).answers == []
  {
    var event := [Event(false), LibraryStep, LibraryStep, LibraryStep, LibraryStep, LibraryStep];
    var wait := [Issue(false), CallReturns(0), MainStep, MainStep, MainStep];
    var s1 := START.(library := Quiet, flag := 1, signals := 1);
    RunEvent();
    RunWait(s1);
    RunAppend(START, event, wait, true);
    assert Run(START, event + wait, true).waits == 1;
  }

  lemma RunEvent()
    ensures Run(START, [Event(false), LibraryStep, LibraryStep, LibraryStep, LibraryStep, LibraryStep], true)
            == START.(flag := 1, signals := 1)
  {
    var a := [Event(false), LibraryStep, LibraryStep, LibraryStep, LibraryStep, LibraryStep];
    RunOne(START, a, 0, true);
    RunOne(START, a, 1, true);
    RunOne(START, a, 2, true);
    RunOne(START, a, 3, true);
    RunOne(START, a, 4, true);
    RunOne(START, a, 5, true);
    assert a[..6] == a && a[..0] == [];
  }

  lemma RunWait(s: State)
    requires s == START.(flag := 1, signals := 1)
    ensures var t := Run(s, [Issue(false), CallReturns(0), MainStep, MainStep, MainStep], true);
            t.waits == 1 && t.answers == []
  {
    var a := [Issue(false), CallReturns(0), MainStep, MainStep, MainStep];
    RunOne(s, a, 0, true);
    RunOne(s, a, 1, true);
    RunOne(s, a, 2, true);
    RunOne(s, a, 3, true);
    RunOne(s, a, 4, true);
    assert a[..5] == a && a[..0] == [];
  }

  lemma RunOne(s: State, actions: seq<Action>, k: nat, eventsSignal: bool)
    requires k < |actions|
    ensures Run(s, actions[..k + 1], eventsSignal) == Step(Run(s, actions[..k], eventsSignal), actions[k], eventsSignal)
  {
    assert actions[..k + 1][..k] == actions[..k];
  }

  lemma {:induction false} RunAppend(s: State, a: seq<Action>, b: seq<Action>, eventsSignal: bool)
    ensures Run(s, a + b, eventsSignal) == Run(Run(s, a, eventsSignal), b, eventsSignal)
    decreases |b|
  {
    if b == [] {
      assert a + b == a;
    } else {
      assert (a + b)[..|a + b| - 1] == a + b[..|b| - 1];
      RunAppend(s, a, b[..|b| - 1], eventsSignal);
    }
  }
}
