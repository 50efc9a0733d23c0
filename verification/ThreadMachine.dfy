/** The scheduler and the synchronisation objects as the program they are: lists and flags changed
    step by step. Every method does what the functions of Threads say. A method that puts its thread
    to sleep ends there; what the thread does when it is switched to again is part of Switch. */
module ThreadMachine {
  import opened Options
  import opened Threads

  class Machine {
    var currentThread: Option<int>
    var readyList: seq<int>
    var sems: seq<Semaphore>
    var locks: seq<Lock>
    var conds: seq<Condition>
    var then_: map<int, Then>
    var started: set<int>
    var finished: set<int>

    function State(): Kernel
      reads this
    {
      Kernel(currentThread, readyList, sems, locks, conds, then_, started, finished)
    }

    constructor (main: int, values: seq<nat>, numLocks: nat, numConds: nat)
      ensures State() == Kernel(Some(main), [],
                seq(|values|, i requires 0 <= i < |values| => Semaphore(values[i], [])),
                seq(numLocks, i => Lock(false, None, [])), seq(numConds, i => Condition(None, [])),
                map[main := GoOn], {main}, {})
    {
      currentThread, readyList := Some(main), [];
      sems := seq(|values|, i requires 0 <= i < |values| => Semaphore(values[i], []));
      locks := seq(numLocks, i => Lock(false, None, []));
      conds := seq(numConds, i => Condition(None, []));
      then_, started, finished := map[main := GoOn], {main}, {};
    }

    // ---- Scheduler and Thread ----

    method MakeReady(t: int)
      modifies this`readyList
      ensures State() == ReadyToRun(old(State()), t)
    {
      readyList := readyList + [t];
    }

    method FallAsleep(next: Then)
      requires currentThread.Some?
      modifies this`currentThread, this`then_
      ensures State() == Sleep(old(State()), next)
    {
      then_ := then_[currentThread.value := next];
      currentThread := None;
    }

    method ForkThread(t: int)
      requires t !in started
      modifies this
      ensures State() == Fork(old(State()), t)
    {
      started := started + {t};
      then_ := then_[t := GoOn];
      MakeReady(t);
    }

    /** FindNextToRun and Run, and the thread's way out of the call in which it slept. */
    method Switch()
      requires currentThread.None? && readyList != [] && Names(State())
      modifies this
      ensures State() == Dispatch(old(State()))
    {
      hide Threads.P, Threads.Acquire;
      var t := readyList[0];
      readyList := readyList[1..];
      currentThread := Some(t);
      if t !in then_ { return; }
      match then_[t]
      case GoOn =>
      case TestAgain(s) => Down(s);
      case HasLock(_) =>
      case Reacquire(l) => AcquireLock(l);
    }

    method YieldThread()
      requires currentThread.Some? && Names(State())
      modifies this
      ensures State() == Yield(old(State()))
    {
      hide Dispatch;
      if readyList == [] { return; }
      var t := currentThread.value;
      FallAsleep(GoOn);
      MakeReady(t);
      Switch();
    }

    method FinishThread()
      requires currentThread.Some?
      modifies this
      ensures State() == Finish(old(State()))
    {
      finished := finished + {currentThread.value};
      FallAsleep(GoOn);
    }

    // ---- Semaphore ----

    method Down(s: nat)
      requires currentThread.Some? && s < |sems|
      modifies this
      ensures State() == P(old(State()), s)
    {
      var m := sems[s];
      if m.value == 0 {
        sems := sems[s := m.(queue := m.queue + [currentThread.value])];
        FallAsleep(TestAgain(s));
      } else {
        sems := sems[s := m.(value := m.value - 1)];
      }
    }

    method Up(s: nat)
      requires s < |sems|
      modifies this
      ensures State() == V(old(State()), s)
    {
      var m := sems[s];
      if m.queue != [] {
        var t := m.queue[0];
        m := m.(queue := m.queue[1..]);
        MakeReady(t);
      }
      sems := sems[s := m.(value := m.value + 1)];
    }

    // ---- Lock ----

    method AcquireLock(l: nat)
      requires currentThread.Some? && l < |locks|
      modifies this
      ensures State() == Acquire(old(State()), l)
    {
      var m := locks[l];
      if m.owner == currentThread { return; }
      if !m.busy {
        locks := locks[l := m.(busy := true, owner := currentThread)];
      } else {
        locks := locks[l := m.(queue := m.queue + [currentThread.value])];
        FallAsleep(HasLock(l));
      }
    }

    method ReleaseLock(l: nat)
      requires currentThread.Some? && l < |locks|
      modifies this
      ensures State() == Release(old(State()), l)
    {
      var m := locks[l];
      if m.owner != currentThread { return; }
      if m.queue != [] {
        var next := m.queue[0];
        locks := locks[l := m.(owner := Some(next), queue := m.queue[1..])];
        MakeReady(next);
      } else {
        locks := locks[l := m.(busy := false, owner := None)];
      }
    }

    // ---- Condition ----

    method WaitOn(c: nat, conditionLock: Option<nat>)
      requires currentThread.Some? && c < |conds| && (conditionLock.Some? ==> conditionLock.value < |locks|)
      modifies this
      ensures State() == Wait(old(State()), c, conditionLock)
    {
      if conditionLock.None? { return; }
      var m := conds[c];
      if m.waitingLock.None? { m := m.(waitingLock := conditionLock); }
      if m.waitingLock != conditionLock { return; }
      conds := conds[c := m.(queue := m.queue + [currentThread.value])];
      ReleaseLock(conditionLock.value);
      FallAsleep(Reacquire(conditionLock.value));
    }

    method SignalOne(c: nat, conditionLock: Option<nat>)
      requires c < |conds|
      modifies this`conds, this`readyList
      ensures State() == Signal(old(State()), c, conditionLock)
    {
      var m := conds[c];
      if m.waitingLock.None? || m.waitingLock != conditionLock || m.queue == [] { return; }
      MakeReady(m.queue[0]);
      m := m.(queue := m.queue[1..]);
      if m.queue == [] { m := m.(waitingLock := None); }
      conds := conds[c := m];
    }

    /** The loop runs to the end of the queue when the lock is the waiters' own. */
    method BroadcastAll(c: nat, conditionLock: Option<nat>)
      requires c < |conds| && (conds[c].waitingLock.None? <==> conds[c].queue == [])
      requires conds[c].waitingLock.None? || conds[c].waitingLock == conditionLock
      modifies this`conds, this`readyList
      ensures State() == Broadcast(old(State()), c, conditionLock)
    {
      if conds[c].waitingLock.None? { return; }
      while conds[c].queue != []
        invariant c < |conds| && (conds[c].waitingLock.None? <==> conds[c].queue == [])
        invariant conds[c].waitingLock.None? || conds[c].waitingLock == conditionLock
        invariant Broadcast(State(), c, conditionLock) == Broadcast(old(State()), c, conditionLock)
        decreases |conds[c].queue|
      {
        SignalOne(c, conditionLock);
      }
    }
  }
}
