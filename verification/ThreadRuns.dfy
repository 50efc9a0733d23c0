/** Every step keeps the kernel's invariant, and so every run does. */
module ThreadRuns {
  import opened Options
  import opened Seqs
  import opened Threads
  import opened ThreadsOk

  /** Everything but the wake-ups. */
  ghost predicate Base(k: Kernel) {
    Names(k) && Conserved(k) && ThensOk(k) && HandedOk(k) && LocksOk(k) && CondsOk(k)
  }

  /** No wake-up is lost, if the running thread is counted as woken for semaphore s. */
  ghost predicate NoneLostBut(k: Kernel, s: nat) {
    forall r: nat :: r < |k.sems| && k.sems[r].queue != [] ==> k.sems[r].value <= Woken(k.ready, k.then_, r) + if r == s then 1 else 0
  }

  // ---- semaphores ----

  lemma PConserves(k: Kernel, s: nat)
    requires Conserved(k) && k.current.Some? && s < |k.sems|
    ensures Conserved(P(k, s))
  {
    hide Places;
    var m := k.sems[s];
    forall t ensures Places(P(k, s), t) == Places(k, t) {
      if m.value == 0 {
        var n := m.(queue := m.queue + [k.current.value]);
        PlacesSem(k, s, n, t);
        PlacesSleep(k.(sems := k.sems[s := n]), TestAgain(s), t);
        TimesPush(m.queue, k.current.value, t);
      } else {
        PlacesSem(k, s, m.(value := m.value - 1), t);
      }
    }
  }

  lemma QueueSem(k: Kernel, s: nat)
    requires Base(k) && NoneLostBut(k, s) && k.current.Some? && s < |k.sems| && k.sems[s].value == 0
    ensures Good(P(k, s))
  {
    hide Conserved, Places, Woken;
    var m := k.sems[s];
    var t := k.current.value;
    PConserves(k, s);
    OnlyRunning(k);
    var q := k.(sems := k.sems[s := m.(queue := m.queue + [t])]);
    var r := P(k, s);
    forall u: nat ensures Woken(r.ready, r.then_, u) == Woken(k.ready, k.then_, u) { WokenSame(k.ready, r.then_, k.then_, u, t); }
  }

  lemma TakeSem(k: Kernel, s: nat)
    requires Base(k) && NoneLostBut(k, s) && k.current.Some? && s < |k.sems| && k.sems[s].value > 0
    ensures Good(P(k, s))
  {
    hide Conserved, Places, Woken;
    PConserves(k, s);
  }

  /** P, by a thread that comes to it or by one that was woken for it. */
  lemma PKeeps(k: Kernel, s: nat)
    requires Base(k) && NoneLostBut(k, s) && k.current.Some? && s < |k.sems|
    ensures Good(P(k, s))
  {
    if k.sems[s].value == 0 { QueueSem(k, s); } else { TakeSem(k, s); }
  }

  lemma VConserves(k: Kernel, s: nat)
    requires Conserved(k) && s < |k.sems|
    ensures Conserved(V(k, s))
  {
    hide Places;
    var m := k.sems[s];
    forall t ensures Places(V(k, s), t) == Places(k, t) {
      if m.queue == [] {
        PlacesSem(k, s, m.(value := m.value + 1), t);
      } else {
        var n := Semaphore(m.value + 1, m.queue[1..]);
        PlacesSem(k, s, n, t);
        PlacesReady(k.(sems := k.sems[s := n]), m.queue[0], t);
      }
    }
  }

  lemma VKeeps(k: Kernel, s: nat)
    requires Good(k) && s < |k.sems|
    ensures Good(V(k, s))
  {
    hide Conserved, Places, Woken;
    VConserves(k, s);
    var m := k.sems[s];
    if m.queue != [] {
      assert WillDo(k, m.queue[0], TestAgain(s));
      forall u: nat ensures Woken(k.ready + [m.queue[0]], k.then_, u) == Woken(k.ready, k.then_, u) + if u == s then 1 else 0 {
        WokenPush(k.ready, k.then_, u, m.queue[0]);
      }
    }
  }

  // ---- locks ----

  lemma AcquireConserves(k: Kernel, l: nat)
    requires Conserved(k) && k.current.Some? && l < |k.locks|
    ensures Conserved(Acquire(k, l))
  {
    hide Places;
    var m := k.locks[l];
    forall t ensures Places(Acquire(k, l), t) == Places(k, t) {
      if m.owner == k.current {
      } else if !m.busy {
        PlacesLock(k, l, m.(busy := true, owner := k.current), t);
      } else {
        var n := m.(queue := m.queue + [k.current.value]);
        PlacesLock(k, l, n, t);
        PlacesSleep(k.(locks := k.locks[l := n]), HasLock(l), t);
        TimesPush(m.queue, k.current.value, t);
      }
    }
  }

  lemma AcquireKeeps(k: Kernel, l: nat)
    requires Good(k) && k.current.Some? && l < |k.locks|
    ensures Good(Acquire(k, l))
  {
    hide Conserved, Places, Woken;
    AcquireConserves(k, l);
    OnlyRunning(k);
    var r := Acquire(k, l);
    if r.current.None? {
      forall u: nat ensures Woken(r.ready, r.then_, u) == Woken(k.ready, k.then_, u) { WokenSame(k.ready, r.then_, k.then_, u, k.current.value); }
    }
  }

  lemma ReleaseConserves(k: Kernel, l: nat)
    requires Conserved(k) && k.current.Some? && l < |k.locks|
    ensures Conserved(Release(k, l))
  {
    hide Places;
    var m := k.locks[l];
    forall t ensures Places(Release(k, l), t) == Places(k, t) {
      if m.owner != k.current {
      } else if m.queue != [] {
        var n := m.(owner := Some(m.queue[0]), queue := m.queue[1..]);
        PlacesLock(k, l, n, t);
        PlacesReady(k.(locks := k.locks[l := n]), m.queue[0], t);
      } else {
        PlacesLock(k, l, m.(busy := false, owner := None), t);
      }
    }
  }

  /** Handing over: the running thread was the owner, so no ready thread was. */
  lemma ReleaseKeeps(k: Kernel, l: nat)
    requires Good(k) && k.current.Some? && l < |k.locks|
    ensures Good(Release(k, l)) && Release(k, l).current == k.current
  {
    hide Conserved, Places, Woken;
    ReleaseConserves(k, l);
    OnlyRunning(k);
    var m := k.locks[l];
    if m.owner == k.current && m.queue != [] {
      assert WillDo(k, m.queue[0], HasLock(l));
      forall u: nat ensures Woken(k.ready + [m.queue[0]], k.then_, u) == Woken(k.ready, k.then_, u) {
        WokenPush(k.ready, k.then_, u, m.queue[0]);
      }
    }
  }

  // ---- condition variables ----

  lemma SignalConserves(k: Kernel, c: nat, with: Option<nat>)
    requires Conserved(k) && c < |k.conds|
    ensures Conserved(Signal(k, c, with))
  {
    hide Places;
    var m := k.conds[c];
    forall t ensures Places(Signal(k, c, with), t) == Places(k, t) {
      if !(m.waitingLock.None? || m.waitingLock != with || m.queue == []) {
        var n := Condition(if |m.queue| == 1 then None else m.waitingLock, m.queue[1..]);
        PlacesCond(k, c, n, t);
        PlacesReady(k.(conds := k.conds[c := n]), m.queue[0], t);
      }
    }
  }

  lemma SignalKeeps(k: Kernel, c: nat, with: Option<nat>)
    requires Good(k) && c < |k.conds|
    ensures Good(Signal(k, c, with)) && Signal(k, c, with).current == k.current
  {
    hide Conserved, Places, Woken;
    SignalConserves(k, c, with);
    var m := k.conds[c];
    if !(m.waitingLock.None? || m.waitingLock != with || m.queue == []) {
      assert WillDo(k, m.queue[0], Reacquire(m.waitingLock.value));
      forall u: nat ensures Woken(k.ready + [m.queue[0]], k.then_, u) == Woken(k.ready, k.then_, u) {
        WokenPush(k.ready, k.then_, u, m.queue[0]);
      }
    }
  }

  lemma {:induction false} BroadcastKeeps(k: Kernel, c: nat, with: Option<nat>)
    requires Good(k) && c < |k.conds|
    ensures Good(Broadcast(k, c, with))
    decreases |k.conds[c].queue|
  {
    hide Good;
    var m := k.conds[c];
    if !(m.waitingLock.None? || m.waitingLock != with || m.queue == []) {
      SignalKeeps(k, c, with);
      BroadcastKeeps(Signal(k, c, with), c, with);
    }
  }

  lemma WaitConserves(k: Kernel, c: nat, l: nat)
    requires Good(k) && k.current.Some? && c < |k.conds| && l < |k.locks|
    ensures Conserved(Wait(k, c, Some(l)))
  {
    hide Places, Names, ThensOk, HandedOk, LocksOk, CondsOk, NoLostWakeup;
    var m := k.conds[c];
    var w := if m.waitingLock.None? then Some(l) else m.waitingLock;
    if w == Some(l) {
      var t := k.current.value;
      var released := Release(k, l);
      ReleaseConserves(k, l);
      SameConds(k, l);
      var n := Condition(w, m.queue + [t]);
      forall u ensures Places(Wait(k, c, Some(l)), u) == Places(k, u) {
        WaitAsReleased(k, c, l);
        PlacesCond(released, c, n, u);
        PlacesSleep(released.(conds := released.conds[c := n]), Reacquire(l), u);
        TimesPush(m.queue, t, u);
      }
    }
  }

  lemma SameConds(k: Kernel, l: nat)
    requires k.current.Some? && l < |k.locks|
    ensures var r := Release(k, l); r.conds == k.conds && r.current == k.current && r.started == k.started && r.finished == k.finished
                                    && r.sems == k.sems && r.then_ == k.then_ && |r.locks| == |k.locks|
  {
  }

  /** Queueing first and releasing then is releasing first and queueing then. */
  lemma WaitAsReleased(k: Kernel, c: nat, l: nat)
    requires k.current.Some? && c < |k.conds| && l < |k.locks|
    requires k.conds[c].waitingLock == None || k.conds[c].waitingLock == Some(l)
    ensures var released := Release(k, l);
            var n := Condition(Some(l), k.conds[c].queue + [k.current.value]);
            released.conds == k.conds && released.current == k.current
            && Wait(k, c, Some(l)) == Sleep(released.(conds := released.conds[c := n]), Reacquire(l))
  {
  }

  lemma WaitKeeps(k: Kernel, c: nat, with: Option<nat>)
    requires Good(k) && k.current.Some? && c < |k.conds| && (with.Some? ==> with.value < |k.locks|)
    ensures Good(Wait(k, c, with))
  {
    hide Conserved, Places, Woken, Release, Wait;
    if with.None? || !(k.conds[c].waitingLock == None || k.conds[c].waitingLock == with) {
      WaitRefused(k, c, with);
    } else {
      var l := with.value;
      WaitConserves(k, c, l);
      ReleaseKeeps(k, l);
      SameConds(k, l);
      WaitAsReleased(k, c, l);
      QueueCond(Release(k, l), c, l);
    }
  }

  lemma WaitRefused(k: Kernel, c: nat, with: Option<nat>)
    requires k.current.Some? && c < |k.conds| && (with.Some? ==> with.value < |k.locks|)
    requires with.None? || !(k.conds[c].waitingLock == None || k.conds[c].waitingLock == with)
    ensures Wait(k, c, with) == k
  {
  }

  lemma QueueCond(k: Kernel, c: nat, l: nat)
    requires Good(k) && k.current.Some? && c < |k.conds| && l < |k.locks|
    requires k.conds[c].waitingLock == None || k.conds[c].waitingLock == Some(l)
    ensures var n := Condition(Some(l), k.conds[c].queue + [k.current.value]);
            var r := Sleep(k.(conds := k.conds[c := n]), Reacquire(l));
            Conserved(r) ==> Good(r)
  {
    hide Conserved, Places, Woken;
    OnlyRunning(k);
    var n := Condition(Some(l), k.conds[c].queue + [k.current.value]);
    var r := Sleep(k.(conds := k.conds[c := n]), Reacquire(l));
    forall u: nat ensures Woken(r.ready, r.then_, u) == Woken(k.ready, k.then_, u) { WokenSame(k.ready, r.then_, k.then_, u, k.current.value); }
  }

  // ---- scheduling ----

  lemma SleepGood(k: Kernel)
    requires Good(k) && k.current.Some?
    ensures var r := Sleep(k, GoOn);
            && Names(r) && ThensOk(r) && HandedOk(r) && LocksOk(r) && CondsOk(r) && NoLostWakeup(r)
            && WillDo(r, k.current.value, GoOn)
            && forall u :: Places(r, u) + (if k.current == Some(u) then 1 else 0) == Places(k, u)
  {
    hide Conserved, Places, Woken;
    OnlyRunning(k);
    var r := Sleep(k, GoOn);
    forall u: nat ensures Woken(r.ready, r.then_, u) == Woken(k.ready, k.then_, u) { WokenSame(k.ready, r.then_, k.then_, u, k.current.value); }
    forall u ensures Places(r, u) + (if k.current == Some(u) then 1 else 0) == Places(k, u) { PlacesSleep(k, GoOn, u); }
  }

  lemma FinishKeeps(k: Kernel)
    requires Good(k) && k.current.Some?
    ensures Good(Finish(k))
  {
    hide Places, Woken, Sleep;
    SleepGood(k);
    OnlyRunning(k);
    SleepSame(k);
    var r := Sleep(k, GoOn);
    forall u ensures Places(Finish(k), u) == Places(r, u) { PlacesFinish(r, k.current.value, u); }
  }

  lemma SleepSame(k: Kernel)
    requires k.current.Some?
    ensures var r := Sleep(k, GoOn);
            r.ready == k.ready && r.started == k.started && r.finished == k.finished && r.current == None
            && r.sems == k.sems && r.locks == k.locks && r.conds == k.conds
  {
  }

  lemma PlacesFinish(k: Kernel, t: int, u: int)
    ensures Places(k.(finished := k.finished + {t}), u) == Places(k, u)
  {
    SameQueues(k, k.(finished := k.finished + {t}));
  }

  lemma ForkKeeps(k: Kernel, t: int)
    requires Good(k) && t !in k.started
    ensures Good(Fork(k, t))
  {
    hide Places, Woken, InQueues;
    var r := Fork(k, t);
    forall u ensures Places(r, u) == Places(k, u) + if t == u then 1 else 0 {
      PlacesReady(k, t, u);
      PlacesForked(ReadyToRun(k, t), t, u);
    }
    NotStarted(k, t);
    forall u: nat ensures Woken(r.ready, r.then_, u) == Woken(k.ready, k.then_, u) {
      WokenSame(k.ready, r.then_, k.then_, u, t);
      WokenPush(k.ready, r.then_, u, t);
    }
  }

  lemma PlacesForked(k: Kernel, t: int, u: int)
    ensures Places(k.(started := k.started + {t}, then_ := k.then_[t := GoOn]), u) == Places(k, u)
  {
    SameQueues(k, k.(started := k.started + {t}, then_ := k.then_[t := GoOn]));
  }

  /** A thread that was not started is nowhere. */
  lemma NotStarted(k: Kernel, t: int)
    requires Conserved(k) && t !in k.started
    ensures k.current != Some(t) && (forall i :: 0 <= i < |k.ready| ==> k.ready[i] != t)
    ensures forall s: nat, j :: s < |k.sems| && 0 <= j < |k.sems[s].queue| ==> k.sems[s].queue[j] != t
    ensures forall l: nat, j :: l < |k.locks| && 0 <= j < |k.locks[l].queue| ==> k.locks[l].queue[j] != t
    ensures forall c: nat, j :: c < |k.conds| && 0 <= j < |k.conds[c].queue| ==> k.conds[c].queue[j] != t
  {
    hide InQueues, Times;
    assert Places(k, t) == 0;
    forall i | 0 <= i < |k.ready| ensures k.ready[i] != t { InSeqCounts(k.ready, i); }
    forall s: nat, j | s < |k.sems| && 0 <= j < |k.sems[s].queue| ensures k.sems[s].queue[j] != t { InQueueCounts(SemQueues(k), s, j); }
    forall l: nat, j | l < |k.locks| && 0 <= j < |k.locks[l].queue| ensures k.locks[l].queue[j] != t { InQueueCounts(LockQueues(k), l, j); }
    forall c: nat, j | c < |k.conds| && 0 <= j < |k.conds[c].queue| ensures k.conds[c].queue[j] != t { InQueueCounts(CondQueues(k), c, j); }
  }

  /** The front of the ready list becomes the running thread. */
  lemma FrontRuns(k: Kernel)
    requires Good(k) && k.current.None? && k.ready != []
    ensures var r := k.(current := Some(k.ready[0]), ready := k.ready[1..]);
            && Base(r) && k.ready[0] in k.then_
            && (!k.then_[k.ready[0]].TestAgain? ==> NoLostWakeup(r))
            && (k.then_[k.ready[0]].TestAgain? ==> NoneLostBut(r, k.then_[k.ready[0]].s))
  {
    hide Woken, InQueues;
    var r := k.(current := Some(k.ready[0]), ready := k.ready[1..]);
    SameQueues(k, r);
    assert forall i :: 0 <= i < |r.ready| ==> r.ready[i] == k.ready[i + 1];
    assert forall u :: Times(k.ready, u) == (if k.ready[0] == u then 1 else 0) + Times(k.ready[1..], u);
    forall u ensures Places(r, u) == Places(k, u) {}
    WokenFront(k.ready, k.then_);
  }

  lemma WokenFront(ready: seq<int>, then_: map<int, Then>)
    requires ready != [] && ready[0] in then_
    ensures forall s: nat :: Woken(ready, then_, s) == (if then_[ready[0]] == TestAgain(s) then 1 else 0) + Woken(ready[1..], then_, s)
  {
  }

  lemma DispatchKeeps(k: Kernel)
    requires Good(k) && k.current.None? && k.ready != []
    ensures Good(Dispatch(k))
  {
    hide Conserved, ThensOk, HandedOk, LocksOk, CondsOk, Woken;
    FrontRuns(k);
    var t := k.ready[0];
    var r := k.(current := Some(t), ready := k.ready[1..]);
    match k.then_[t]
    case GoOn =>
    case TestAgain(s) => PKeeps(r, s);
    case HasLock(_) =>
    case Reacquire(l) => AcquireKeeps(r, l);
  }

  lemma YieldKeeps(k: Kernel)
    requires Good(k) && k.current.Some?
    ensures Good(Yield(k))
  {
    hide Places, Woken, Sleep, Dispatch;
    if k.ready != [] {
      SleepGood(k);
      SleepSame(k);
      var t := k.current.value;
      var s := Sleep(k, GoOn);
      var r := ReadyToRun(s, t);
      forall u ensures Places(r, u) == Places(k, u) { PlacesReady(s, t, u); }
      forall u: nat ensures Woken(r.ready, r.then_, u) == Woken(s.ready, s.then_, u) { WokenPush(s.ready, s.then_, u, t); }
      DispatchKeeps(r);
    }
  }

  lemma StepKeeps(k: Kernel, a: Step)
    requires Good(k) && Enabled(k, a)
    ensures Good(Next(k, a))
  {
    hide Conserved, ThensOk, HandedOk, LocksOk, CondsOk, Woken, Dispatch, Yield, Finish, Wait, Broadcast, Signal;
    match a
    case CallFork(t) => ForkKeeps(k, t);
    case CallYield => YieldKeeps(k);
    case CallFinish => FinishKeeps(k);
    case Resume => DispatchKeeps(k);
    case CallP(s) => PKeeps(k, s);
    case CallV(s) => VKeeps(k, s);
    case Interrupt(s) => VKeeps(k, s);
    case CallAcquire(l) => AcquireKeeps(k, l);
    case CallRelease(l) => ReleaseKeeps(k, l);
    case CallWait(c, with) => WaitKeeps(k, c, with);
    case CallSignal(c, with) => SignalKeeps(k, c, with);
    case CallBroadcast(c, with) => BroadcastKeeps(k, c, with);
  }

  // ---- runs ----

  /** Boot: the main thread runs, nobody waits, every lock is free. */
  ghost predicate Boot(k: Kernel, main: int) {
    && k.current == Some(main) && k.ready == [] && k.started == {main} && k.finished == {} && k.then_ == map[main := GoOn]
    && (forall s :: 0 <= s < |k.sems| ==> k.sems[s].queue == [])
    && (forall l :: 0 <= l < |k.locks| ==> k.locks[l] == Lock(false, None, []))
    && (forall c :: 0 <= c < |k.conds| ==> k.conds[c] == Condition(None, []))
  }

  predicate Run(k: Kernel, steps: seq<Step>)
    decreases |steps|
  {
    steps == [] || (Names(k) && Enabled(k, steps[0]) && Run(Next(k, steps[0]), steps[1..]))
  }

  function End(k: Kernel, steps: seq<Step>): Kernel
    requires Run(k, steps)
    decreases |steps|
  {
    if steps == [] then k else End(Next(k, steps[0]), steps[1..])
  }

  lemma {:induction false} EmptyQueues(qs: seq<seq<int>>, t: int)
    requires forall i :: 0 <= i < |qs| ==> qs[i] == []
    ensures InQueues(qs, t) == 0
  {
    if qs != [] { EmptyQueues(qs[1..], t); }
  }

  lemma BootGood(k: Kernel, main: int)
    requires Boot(k, main)
    ensures Good(k)
  {
    forall t ensures Places(k, t) == if t == main then 1 else 0 {
      EmptyQueues(SemQueues(k), t);
      EmptyQueues(LockQueues(k), t);
      EmptyQueues(CondQueues(k), t);
    }
  }

  lemma {:induction false} RunGood(k: Kernel, steps: seq<Step>)
    requires Good(k) && Run(k, steps)
    ensures Good(End(k, steps))
    decreases |steps|
  {
    hide Good, Next, Enabled;
    if steps != [] {
      StepKeeps(k, steps[0]);
      RunGood(Next(k, steps[0]), steps[1..]);
    }
  }

  /** Kernel scheduling, in every state of every run: a started, unfinished thread is in exactly one
      place (running, ready, or one queue), and no other thread is anywhere; a free lock has no owner
      and an empty queue; a condition variable has a waiting lock exactly when it has waiters; and no
      wake-up is lost. */
  lemma ThreadsConserved(k: Kernel, main: int, steps: seq<Step>)
    requires Boot(k, main) && Run(k, steps)
    ensures var e := End(k, steps);
            && (forall t :: Places(e, t) == if t in e.started && t !in e.finished then 1 else 0)
            && (forall l :: 0 <= l < |e.locks| ==>
                  (e.locks[l].busy <==> e.locks[l].owner.Some?) && (!e.locks[l].busy ==> e.locks[l].queue == []))
            && (forall c :: 0 <= c < |e.conds| ==> (e.conds[c].waitingLock.None? <==> e.conds[c].queue == []))
            && (forall s: nat :: s < |e.sems| && e.sems[s].queue != [] ==> e.sems[s].value <= Woken(e.ready, e.then_, s))
  {
    hide Boot, Run, End, Places, Woken;
    BootGood(k, main);
    RunGood(k, steps);
  }

  /** The thread that goes on in this step, and may go to sleep in it. */
  function Runner(k: Kernel, a: Step): Option<int>
    requires Enabled(k, a)
  {
    if a.Resume? || (a.CallYield? && k.ready != []) then Some(k.ready[0]) else k.current
  }

  /** Returning from Acquire implies ownership. Whatever step of whatever run makes a thread go on, out of
      its own call, or by a switch from an idle machine or from a thread that yields, after having been
      handed the lock or having to reacquire it on the way out of Wait: if the thread is running after the
      step, it is the owner. */
  lemma AcquireMeansOwner(k: Kernel, main: int, steps: seq<Step>, a: Step, t: int)
    requires Boot(k, main) && Run(k, steps)
    ensures Good(End(k, steps))
    ensures var e := End(k, steps);
            Enabled(e, a) && Runner(e, a) == Some(t) && Next(e, a).current == Some(t) ==>
              && (a.CallAcquire? ==> a.l < |Next(e, a).locks| && Next(e, a).locks[a.l].owner == Some(t))
              && (e.current != Some(t) && t in e.then_ && (e.then_[t].HasLock? || e.then_[t].Reacquire?) ==>
                    e.then_[t].l < |Next(e, a).locks| && Next(e, a).locks[e.then_[t].l].owner == Some(t))
  {
    hide Boot, Run, End, Conserved, ThensOk, NoLostWakeup, CondsOk;
    BootGood(k, main);
    RunGood(k, steps);
    var e := End(k, steps);
    if Enabled(e, a) && Runner(e, a) == Some(t) && Next(e, a).current == Some(t) { SwitchedMeansOwner(e, a, t); }
  }

  lemma SwitchedMeansOwner(e: Kernel, a: Step, t: int)
    requires Good(e) && Enabled(e, a) && Runner(e, a) == Some(t) && Next(e, a).current == Some(t)
    ensures a.CallAcquire? ==> a.l < |Next(e, a).locks| && Next(e, a).locks[a.l].owner == Some(t)
    ensures e.current != Some(t) && t in e.then_ && (e.then_[t].HasLock? || e.then_[t].Reacquire?) ==>
              e.then_[t].l < |Next(e, a).locks| && Next(e, a).locks[e.then_[t].l].owner == Some(t)
  {
    hide Conserved, ThensOk, NoLostWakeup, CondsOk;
  }

  /** One owner at a time, and it changes hands only when the owner releases, or from free. */
  lemma OwnerReleases(k: Kernel, a: Step, l: nat)
    requires Good(k) && Enabled(k, a) && l < |k.locks| && k.locks[l].owner.Some?
    ensures var r := Next(k, a);
            && |r.locks| == |k.locks|
            && (r.locks[l].owner != k.locks[l].owner ==>
                  k.current == k.locks[l].owner && (a == CallRelease(l) || (a.CallWait? && a.with == Some(l))))
  {
    hide Conserved, ThensOk, HandedOk, NoLostWakeup, CondsOk;
    if a.CallBroadcast? { BroadcastLocks(k, a.c, a.with); }
  }

  lemma {:induction false} BroadcastLocks(k: Kernel, c: nat, with: Option<nat>)
    requires c < |k.conds|
    ensures Broadcast(k, c, with).locks == k.locks
    decreases |k.conds[c].queue|
  {
    var m := k.conds[c];
    if !(m.waitingLock.None? || m.waitingLock != with || m.queue == []) { BroadcastLocks(Signal(k, c, with), c, with); }
  }

  /** Broadcast with the waiters' lock wakes them all, in order. */
  lemma {:induction false} BroadcastWakesAll(k: Kernel, c: nat, with: Option<nat>)
    requires CondsOk(k) && c < |k.conds| && k.conds[c].waitingLock == with
    ensures |Broadcast(k, c, with).conds| == |k.conds| && Broadcast(k, c, with).conds[c] == Condition(None, [])
    ensures Broadcast(k, c, with).ready == k.ready + k.conds[c].queue
    decreases |k.conds[c].queue|
  {
    var m := k.conds[c];
    if m.queue != [] {
      var s := Signal(k, c, with);
      assert CondsOk(s);
      if |m.queue| > 1 {
        BroadcastWakesAll(s, c, with);
        assert k.ready + m.queue == (k.ready + [m.queue[0]]) + m.queue[1..];
      } else {
        assert m.queue == [m.queue[0]];
        assert Broadcast(s, c, with) == s;
      }
    }
  }

  // ---- Broadcast's loop ----

  /** The state after n rounds of the loop, each a signal. */
  function Signals(k: Kernel, c: nat, with: Option<nat>, n: nat): Kernel
    requires c < |k.conds|
    decreases n
  {
    if n == 0 then k else Signals(Signal(k, c, with), c, with, n - 1)
  }

  /** The loop ends when the queue is empty. */
  ghost predicate LoopEnds(k: Kernel, c: nat, with: Option<nat>)
    requires c < |k.conds|
  {
    exists n: nat :: Drained(k, c, with, n)
  }

  predicate Drained(k: Kernel, c: nat, with: Option<nat>, n: nat)
    requires c < |k.conds|
  {
    var r := Signals(k, c, with, n); c < |r.conds| && r.conds[c].queue == []
  }

  /** With another lock than the waiters', no number of signals changes anything. */
  lemma {:induction false} WrongLockSpins(k: Kernel, c: nat, with: Option<nat>, n: nat)
    requires c < |k.conds| && k.conds[c].waitingLock != with
    ensures Signals(k, c, with, n) == k
    decreases n
  {
    if n > 0 { WrongLockSpins(k, c, with, n - 1); }
  }

  lemma {:induction false} DrainedAfter(k: Kernel, c: nat, with: Option<nat>)
    requires CondsOk(k) && c < |k.conds| && (k.conds[c].queue != [] ==> k.conds[c].waitingLock == with)
    ensures Drained(k, c, with, |k.conds[c].queue|)
    decreases |k.conds[c].queue|
  {
    if k.conds[c].queue != [] {
      var s := Signal(k, c, with);
      assert CondsOk(s) && |s.conds[c].queue| == |k.conds[c].queue| - 1;
      DrainedAfter(s, c, with);
    }
  }

  /** So Broadcast ends if and only if nobody waits or the lock is the waiters'. */
  lemma BroadcastEndsIff(k: Kernel, c: nat, with: Option<nat>)
    requires CondsOk(k) && c < |k.conds|
    ensures LoopEnds(k, c, with) <==> k.conds[c].queue == [] || k.conds[c].waitingLock == with
  {
    if k.conds[c].queue == [] || k.conds[c].waitingLock == with {
      DrainedAfter(k, c, with);
    } else if LoopEnds(k, c, with) {
      var n: nat :| Drained(k, c, with, n);
      WrongLockSpins(k, c, with, n);
    }
  }
}
