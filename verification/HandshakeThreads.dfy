/** The shared globals of waku_example.c as an object, and the statements of waitForCallback, of
    signal_cond and of handle_content_topic as methods that update them in place; each is one
    step of the handshake's transition system and keeps its invariant. */
module HandshakeThreads {
  import opened Options
  import opened CallbackHandshake

  /** Every step from a consistent state leads to one. */
  lemma Kept(s: State)
    ensures Inv(s) ==> Inv(StepMain(s)) && Inv(StepLibrary(s)) && forall a :: Inv(Step(s, a, false))
  {
    hide Inv, Step, StepMain, StepLibrary;
    if Inv(s) {
      MainKeepsInv(s);
      LibraryKeepsInv(s);
      forall a ensures Inv(Step(s, a, false)) {
        StepKeepsInv(s, a);
      }
    }
  }

  class Process {
    var exited: bool
    var mutex: Option<Thread>
    var callbackExecuted: int
    var contentTopic: Option<string>
    var main: MainPc
    var library: LibraryPc
    // Histories: the calls issued, what their callbacks were handed, signals sent, waits completed.
    var topicCalls: seq<bool>
    var answers: seq<Option<string>>
    var signals: nat
    var waits: nat

    function Shared(): State
      reads this
    {
      State(exited, mutex, callbackExecuted, contentTopic, main, library, topicCalls, answers, signals, waits)
    }

    constructor ()
      ensures Shared() == START
    {
      exited, mutex, callbackExecuted, contentTopic := false, None, 0, None;
      main, library, topicCalls, answers, signals, waits := Idle, Quiet, [], [], 0, 0;
    }

    // ----- waitForCallback -----

    /** pthread_mutex_lock, or the end of pthread_cond_wait: blocks while the mutex is held. */
    method LockMain()
      requires main.WantLock? || main.Woken?
      modifies this
      ensures Shared() == StepMain(old(Shared()))
      ensures old(Inv(Shared())) ==> Inv(Shared())
    {
      hide Inv;
      Kept(Shared());
      if mutex.None? {
        mutex := Some(Main);
        main := Testing;
      }
    }

    /** The loop's test, and the start of pthread_cond_wait, which releases the mutex. */
    method TestFlag()
      requires main.Testing?
      modifies this
      ensures Shared() == StepMain(old(Shared()))
      ensures old(Inv(Shared())) ==> Inv(Shared())
    {
      hide Inv;
      Kept(Shared());
      if callbackExecuted == 0 {
        mutex := None;
        main := Waiting;
      } else {
        main := Resetting;
      }
    }

    method ClearFlag()
      requires main.Resetting?
      modifies this
      ensures Shared() == StepMain(old(Shared()))
      ensures old(Inv(Shared())) ==> Inv(Shared())
    {
      hide Inv;
      Kept(Shared());
      callbackExecuted := 0;
      waits := waits + 1;
      main := CallbackHandshake.Unlocking;
    }

    method UnlockMain()
      requires main.Unlocking?
      modifies this
      ensures Shared() == StepMain(old(Shared()))
      ensures old(Inv(Shared())) ==> Inv(Shared())
    {
      hide Inv;
      Kept(Shared());
      mutex := None;
      main := Idle;
    }

    // ----- A callback of the library -----

    /** The callback's own work: handle_content_topic replaces the topic, the others only print. */
    method Handle()
      requires library.Handling?
      modifies this
      ensures Shared() == StepLibrary(old(Shared()))
      ensures old(Inv(Shared())) ==> Inv(Shared())
    {
      hide Inv;
      Kept(Shared());
      if library.answer.Some? {
        contentTopic := library.answer;
      }
      library := LWantLock;
    }

    method LockLibrary()
      requires library.LWantLock?
      modifies this
      ensures Shared() == StepLibrary(old(Shared()))
      ensures old(Inv(Shared())) ==> Inv(Shared())
    {
      hide Inv;
      Kept(Shared());
      if mutex.None? {
        mutex := Some(Library);
        library := Setting;
      }
    }

    method SetFlag()
      requires library.Setting?
      modifies this
      ensures Shared() == StepLibrary(old(Shared()))
      ensures old(Inv(Shared())) ==> Inv(Shared())
    {
      hide Inv;
      Kept(Shared());
      callbackExecuted := 1;
      signals := signals + 1;
      library := Signalling;
    }

    /** pthread_cond_signal wakes the main thread if it waits, and is lost otherwise. */
    method Signal()
      requires library.Signalling?
      modifies this
      ensures Shared() == StepLibrary(old(Shared()))
      ensures old(Inv(Shared())) ==> Inv(Shared())
    {
      hide Inv;
      Kept(Shared());
      if main.Waiting? {
        main := Woken;
      }
      library := LUnlocking;
    }

    method UnlockLibrary()
      requires library.LUnlocking?
      modifies this
      ensures Shared() == StepLibrary(old(Shared()))
      ensures old(Inv(Shared())) ==> Inv(Shared())
    {
      hide Inv;
      Kept(Shared());
      mutex := None;
      library := Quiet;
    }

    // ----- The event callback -----

    /** on_event_received: exits on an error, prints otherwise, and never signals. */
    method OnEventReceived(failed: bool)
      requires !exited
      modifies this
      ensures Shared() == Step(old(Shared()), Event(failed), false)
      ensures old(Inv(Shared())) ==> Inv(Shared())
    {
      hide Inv;
      Kept(Shared());
      if failed {
        exited := true;
      }
    }

    // ----- Calls, and the library's side of them -----

    /** Making a library call; publish_message's first one asks for the content topic. */
    method Issue(asksTopic: bool)
      requires !exited
      modifies this
      ensures Shared() == Step(old(Shared()), CallbackHandshake.Issue(asksTopic), false)
    {
      if main.Idle? {
        main := Calling;
        topicCalls := topicCalls + [asksTopic];
      }
    }

    /** WAKU_CALL exits unless the call returned 0. */
    method CallReturned(ret: int)
      requires !exited
      modifies this
      ensures Shared() == Step(old(Shared()), CallReturns(ret), false)
    {
      if main.Calling? {
        if ret != 0 {
          exited := true;
        } else {
          main := WantLock;
        }
      }
    }

    method WakeSpuriously()
      requires !exited
      modifies this
      ensures Shared() == Step(old(Shared()), SpuriousWakeup, false)
    {
      if main.Waiting? {
        main := Woken;
      }
    }

    /** The library fires the next call's callback; event_handler exits on an error, while
        handle_content_topic takes what it is handed. */
    method FireCallback(failed: bool, msg: string)
      requires !exited
      modifies this
      ensures Shared() == Step(old(Shared()), Fire(failed, msg), false)
    {
      if library.Quiet? && |answers| < |topicCalls| {
        var answer := if topicCalls[|answers|] then Some(msg) else None;
        if failed && answer.None? {
          exited := true;
        } else {
          answers := answers + [answer];
          library := Handling(answer);
        }
      }
    }

    // ----- Schedules -----

    method StepMainThread()
      modifies this
      ensures Shared() == StepMain(old(Shared()))
    {
      match main
      case WantLock => LockMain();
      case Woken => LockMain();
      case Testing => TestFlag();
      case Resetting => ClearFlag();
      case Unlocking => UnlockMain();
      case _ =>
    }

    method StepLibraryThread()
      modifies this
      ensures Shared() == StepLibrary(old(Shared()))
    {
      match library
      case Quiet =>
      case Handling(_) => Handle();
      case LWantLock => LockLibrary();
      case Setting => SetFlag();
      case Signalling => Signal();
      case LUnlocking => UnlockLibrary();
    }

    method Perform(a: Action)
      modifies this
      ensures Shared() == Step(old(Shared()), a, false)
    {
      hide StepMain, StepLibrary;
      if exited {
        return;
      }
      match a
      case Issue(asksTopic) => Issue(asksTopic);
      case CallReturns(ret) => CallReturned(ret);
      case MainStep => StepMainThread();
      case SpuriousWakeup => WakeSpuriously();
      case Fire(failed, msg) => FireCallback(failed, msg);
      case LibraryStep => StepLibraryThread();
      case Event(failed) => OnEventReceived(failed);
    }

    /** Any schedule of the two threads from the start is a run of the transition system. So in the
        shared globals themselves the flag is signals minus completed waits, a sleeping main thread
        is owed its signal, and a main thread back from a content-topic call reads its answer. */
    method PerformAll(actions: seq<Action>)
      requires Shared() == START
      modifies this
      ensures Shared() == Run(START, actions, false)
      ensures 0 <= callbackExecuted <= 1 && callbackExecuted == signals - waits && waits <= signals
      ensures main.Waiting? ==> signals == waits || library.Signalling?
      ensures main.Idle? && waits > 0 && |topicCalls| == waits && topicCalls[waits - 1] ==>
                |HandedOver(actions)| == waits && contentTopic == Some(HandedOver(actions)[waits - 1])
    {
      hide Step;
      for i := 0 to |actions|
        invariant Shared() == Run(START, actions[..i], false)
      {
        Perform(actions[i]);
        assert actions[..i + 1][..i] == actions[..i];
      }
      assert actions[..|actions|] == actions;
      FlagCountsSignals(actions);
      SleeperIsOwedASignal(actions);
      TopicIsTheMessage(actions);
    }
  }
}
