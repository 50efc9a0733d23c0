/** Kernel threads, semaphores, locks and condition variables as a state machine: one step is what a
    thread does, with interrupts off, up to where it returns or goes to sleep. */
module Threads {
  import opened Options

  /** Threads are numbers. */
  datatype Semaphore = Semaphore(value: nat, queue: seq<int>)

  datatype Lock = Lock(busy: bool, owner: Option<int>, queue: seq<int>)

  datatype Condition = Condition(waitingLock: Option<nat>, queue: seq<int>)

  /** What a thread does when it is next switched to: go on, test the semaphore again, return from
      Acquire as the owner, or acquire the lock it waited with. */
  datatype Then = GoOn | TestAgain(s: nat) | HasLock(l: nat) | Reacquire(l: nat)

  /** `current` is None while the machine idles: the last thread sleeps and none is ready. */
  datatype Kernel = Kernel(
    current: Option<int>, ready: seq<int>,
    sems: seq<Semaphore>, locks: seq<Lock>, conds: seq<Condition>,
    then_: map<int, Then>, started: set<int>, finished: set<int>)

  // ---- scheduling ----

  /** Scheduler::ReadyToRun. */
  function ReadyToRun(k: Kernel, t: int): Kernel { k.(ready := k.ready + [t]) }

  /** Thread::Sleep, for a thread that will go on as said. */
  function Sleep(k: Kernel, next: Then): Kernel
    requires k.current.Some?
  {
    k.(current := None, then_ := k.then_[k.current.value := next])
  }

  /** FindNextToRun and Run: the front of the ready list goes on where it stopped. */
  function Dispatch(k: Kernel): Kernel
    requires k.current.None? && k.ready != [] && Names(k)
  {
    var t := k.ready[0];
    var r := k.(current := Some(t), ready := k.ready[1..]);
    if t !in k.then_ then r
    else
      match k.then_[t]
      case GoOn => r
      case TestAgain(s) => P(r, s)
      case HasLock(_) => r
      case Reacquire(l) => Acquire(r, l)
  }

  /** Every continuation names a semaphore or a lock that exists. */
  predicate Names(k: Kernel) {
    forall t :: t in k.then_ ==>
      match k.then_[t]
      case GoOn => true
      case TestAgain(s) => s < |k.sems|
      case HasLock(l) => l < |k.locks|
      case Reacquire(l) => l < |k.locks|
  }

  /** Thread::Fork. */
  function Fork(k: Kernel, t: int): Kernel
    requires t !in k.started
  {
    ReadyToRun(k, t).(started := k.started + {t}, then_ := k.then_[t := GoOn])
  }

  /** Thread::Yield. */
  function Yield(k: Kernel): Kernel
    requires k.current.Some? && Names(k)
  {
    if k.ready == [] then k
    else Dispatch(ReadyToRun(Sleep(k, GoOn), k.current.value))
  }

  /** Thread::Finish. */
  function Finish(k: Kernel): Kernel
    requires k.current.Some?
  {
    Sleep(k, GoOn).(finished := k.finished + {k.current.value})
  }

  // ---- semaphores ----

  /** Semaphore::P, from the test of the value: consume it, or queue and sleep. */
  function P(k: Kernel, s: nat): Kernel
    requires k.current.Some? && s < |k.sems|
  {
    var m := k.sems[s];
    if m.value == 0 then
      Sleep(k.(sems := k.sems[s := m.(queue := m.queue + [k.current.value])]), TestAgain(s))
    else
      k.(sems := k.sems[s := m.(value := m.value - 1)])
  }

  /** Semaphore::V, by a thread or by an interrupt handler. */
  function V(k: Kernel, s: nat): Kernel
    requires s < |k.sems|
  {
    var m := k.sems[s];
    if m.queue == [] then k.(sems := k.sems[s := m.(value := m.value + 1)])
    else
      ReadyToRun(k.(sems := k.sems[s := Semaphore(m.value + 1, m.queue[1..])]), m.queue[0])
  }

  // ---- locks ----

  function Acquire(k: Kernel, l: nat): Kernel
    requires k.current.Some? && l < |k.locks|
  {
    var m := k.locks[l];
    if m.owner == k.current then k
    else if !m.busy then k.(locks := k.locks[l := m.(busy := true, owner := k.current)])
    else Sleep(k.(locks := k.locks[l := m.(queue := m.queue + [k.current.value])]), HasLock(l))
  }

  function Release(k: Kernel, l: nat): Kernel
    requires k.current.Some? && l < |k.locks|
  {
    var m := k.locks[l];
    if m.owner != k.current then k
    else if m.queue != [] then
      ReadyToRun(k.(locks := k.locks[l := m.(owner := Some(m.queue[0]), queue := m.queue[1..])]), m.queue[0])
    else k.(locks := k.locks[l := m.(busy := false, owner := None)])
  }

  // ---- condition variables ----

  /** Condition::Wait; conditionLock None is NULL. */
  function Wait(k: Kernel, c: nat, conditionLock: Option<nat>): Kernel
    requires k.current.Some? && c < |k.conds| && (conditionLock.Some? ==> conditionLock.value < |k.locks|)
  {
    if conditionLock.None? then k
    else
      var m := k.conds[c];
      var w := if m.waitingLock.None? then conditionLock else m.waitingLock;
      if w != conditionLock then k
      else
        var queued := k.(conds := k.conds[c := Condition(w, m.queue + [k.current.value])]);
        Sleep(Release(queued, conditionLock.value), Reacquire(conditionLock.value))
  }

  function Signal(k: Kernel, c: nat, conditionLock: Option<nat>): Kernel
    requires c < |k.conds|
  {
    var m := k.conds[c];
    if m.waitingLock.None? || m.waitingLock != conditionLock || m.queue == [] then k
    else
      ReadyToRun(k.(conds := k.conds[c := Condition(if |m.queue| == 1 then None else m.waitingLock, m.queue[1..])]), m.queue[0])
  }

  /** Condition::Broadcast with the lock the waiters wait with: signals until the queue is empty. */
  function Broadcast(k: Kernel, c: nat, conditionLock: Option<nat>): Kernel
    requires c < |k.conds|
    decreases |k.conds[c].queue|
  {
    var m := k.conds[c];
    if m.waitingLock.None? || m.waitingLock != conditionLock || m.queue == [] then k
    else Broadcast(Signal(k, c, conditionLock), c, conditionLock)
  }

  // ---- steps ----

  datatype Step =
    | CallFork(t: int) | CallYield | CallFinish | Resume   // Resume: an idle machine finds a thread ready
    | CallP(s: nat) | CallV(s: nat) | Interrupt(s: nat)    // Interrupt: a handler's V
    | CallAcquire(l: nat) | CallRelease(l: nat)
    | CallWait(c: nat, with: Option<nat>) | CallSignal(c: nat, with: Option<nat>) | CallBroadcast(c: nat, with: Option<nat>)

  predicate Enabled(k: Kernel, a: Step) {
    && (a.Resume? ==> k.current.None? && k.ready != [])
    && (!a.Resume? && !a.Interrupt? ==> k.current.Some?)
    && (a.CallFork? ==> a.t !in k.started)
    && (a.CallP? || a.CallV? || a.Interrupt? ==> a.s < |k.sems|)
    && (a.CallAcquire? || a.CallRelease? ==> a.l < |k.locks|)
    && (a.CallWait? || a.CallSignal? || a.CallBroadcast? ==> a.c < |k.conds| && (a.with.Some? ==> a.with.value < |k.locks|))
  }

  function Next(k: Kernel, a: Step): Kernel
    requires Enabled(k, a) && Names(k)
  {
    match a
    case CallFork(t) => Fork(k, t)
    case CallYield => Yield(k)
    case CallFinish => Finish(k)
    case Resume => Dispatch(k)
    case CallP(s) => P(k, s)
    case CallV(s) => V(k, s)
    case Interrupt(s) => V(k, s)
    case CallAcquire(l) => Acquire(k, l)
    case CallRelease(l) => Release(k, l)
    case CallWait(c, with) => Wait(k, c, with)
    case CallSignal(c, with) => Signal(k, c, with)
    case CallBroadcast(c, with) => Broadcast(k, c, with)
  }
}
