/** What locks and semaphores hold, which calls block, and who runs at all, read off the calls of the run. */
module ThreadLedger {
  import opened Options
  import opened Threads
  import opened ThreadsOk
  import opened ThreadRuns
  import opened ThreadQueues

  // ---- a lock is a line whose front holds it ----

  function LineOf(m: Lock): seq<int> {
    (if m.owner.Some? then [m.owner.value] else []) + m.queue
  }

  /** The thread that a step switches to. */
  function SwitchedTo(k: Kernel, a: Step): Option<int>
    requires Enabled(k, a)
  {
    if a.Resume? || (a.CallYield? && k.ready != []) then Some(k.ready[0]) else None
  }

  /** Whether the step switches to a thread that stopped with this left to do. */
  predicate ComesBackTo(k: Kernel, a: Step, next: Then)
    requires Enabled(k, a)
  {
    SwitchedTo(k, a).Some? && WillDo(k, SwitchedTo(k, a).value, next)
  }

  /** The thread that asks for the lock: by its call, or on its way out of Wait. */
  function Asker(k: Kernel, a: Step, l: nat): Option<int>
    requires Enabled(k, a)
  {
    if a == CallAcquire(l) then k.current else if ComesBackTo(k, a, Reacquire(l)) then SwitchedTo(k, a) else None
  }

  /** A wait is accepted with the lock of those who wait, or with any lock when nobody waits. */
  predicate Accepted(k: Kernel, c: nat, with: Option<nat>)
    requires c < |k.conds|
  {
    with.Some? && (k.conds[c].queue == [] || k.conds[c].waitingLock == with)
  }

  /** The thread that gives the lock back if it has it: by Release, or by a wait that is accepted. */
  function Giver(k: Kernel, a: Step, l: nat): Option<int>
    requires Enabled(k, a)
  {
    if a == CallRelease(l) || (a.CallWait? && a.with == Some(l) && Accepted(k, a.c, a.with)) then k.current else None
  }

  /** The front may leave; whoever is not the front may join at the end. */
  function LineAfter(line: seq<int>, asker: Option<int>, giver: Option<int>): seq<int> {
    var left := if giver.Some? && line != [] && line[0] == giver.value then line[1..] else line;
    if asker.Some? && (left == [] || left[0] != asker.value) then left + [asker.value] else left
  }

  function LineRead(k: Kernel, steps: seq<Step>, l: nat, line: seq<int>): seq<int>
    requires Run(k, steps)
    decreases |steps|
  {
    if steps == [] then line
    else LineRead(Next(k, steps[0]), steps[1..], l, LineAfter(line, Asker(k, steps[0], l), Giver(k, steps[0], l)))
  }

  ghost predicate StepsLine(k: Kernel, a: Step, l: nat)
    requires Names(k) && Enabled(k, a) && l < |k.locks|
  {
    var r := Next(k, a);
    l < |r.locks| && LineOf(r.locks[l]) == LineAfter(LineOf(k.locks[l]), Asker(k, a, l), Giver(k, a, l))
  }

  /** Who asks runs on exactly as the front of the line. */
  ghost predicate AskerRuns(k: Kernel, a: Step, l: nat)
    requires Names(k) && Enabled(k, a) && l < |k.locks|
  {
    var r := Next(k, a);
    Asker(k, a, l).Some? ==>
      && l < |r.locks| && LineOf(r.locks[l]) != []
      && (r.current == Asker(k, a, l) <==> LineOf(r.locks[l])[0] == Asker(k, a, l).value)
  }

  lemma AcquireLine(k: Kernel, l: nat, m: nat)
    requires LocksOk(k) && k.current.Some? && l < |k.locks| && m < |k.locks|
    ensures var r := Acquire(k, m);
            && |r.locks| == |k.locks|
            && LineOf(r.locks[l]) == LineAfter(LineOf(k.locks[l]), if l == m then k.current else None, None)
            && (l == m ==> (r.current == k.current <==> LineOf(r.locks[l])[0] == k.current.value))
  {
    assert [k.current.value] + k.locks[m].queue == LineOf(Lock(true, k.current, k.locks[m].queue));
    var line := LineOf(k.locks[l]);
    assert k.locks[l].owner.Some? ==> line[0] == k.locks[l].owner.value;
    assert k.locks[l].owner.Some? ==> [k.locks[l].owner.value] + (k.locks[l].queue + [k.current.value]) == line + [k.current.value];
  }

  lemma ReleaseLine(k: Kernel, l: nat, m: nat)
    requires LocksOk(k) && k.current.Some? && l < |k.locks| && m < |k.locks|
    ensures var r := Release(k, m);
            |r.locks| == |k.locks| && LineOf(r.locks[l]) == LineAfter(LineOf(k.locks[l]), None, if l == m then k.current else None)
  {
    var q := k.locks[l].queue;
    assert k.locks[l].owner.Some? ==> LineOf(k.locks[l])[0] == k.locks[l].owner.value && LineOf(k.locks[l])[1..] == q;
    assert q != [] ==> [q[0]] + q[1..] == q;
  }

  /** A switch asks for nothing, or for the lock that the thread has to reacquire. */
  lemma DispatchLine(k: Kernel, l: nat)
    requires LocksOk(k) && k.current.None? && k.ready != [] && Names(k) && l < |k.locks|
    ensures var r := Dispatch(k); var t := k.ready[0];
            && l < |r.locks|
            && LineOf(r.locks[l]) == LineAfter(LineOf(k.locks[l]), if WillDo(k, t, Reacquire(l)) then Some(t) else None, None)
            && (WillDo(k, t, Reacquire(l)) ==> LineOf(r.locks[l]) != [] && (r.current == Some(t) <==> LineOf(r.locks[l])[0] == t))
  {
    hide Acquire, LineOf, LineAfter;
    var t := k.ready[0];
    var r := k.(current := Some(t), ready := k.ready[1..]);
    if t in k.then_ && k.then_[t].Reacquire? {
      AcquireLine(r, l, k.then_[t].l);
      AskedLine(LineOf(k.locks[l]), t);
    }
    LineUntouched(LineOf(k.locks[l]));
  }

  lemma LineUntouched(line: seq<int>)
    ensures LineAfter(line, None, None) == line
  {
  }

  lemma AskedLine(line: seq<int>, t: int)
    ensures LineAfter(line, Some(t), None) != []
  {
  }

  lemma SwitchLine(k: Kernel, a: Step, l: nat)
    requires Good(k) && Enabled(k, a) && (a.Resume? || a.CallYield?) && l < |k.locks|
    ensures StepsLine(k, a, l) && AskerRuns(k, a, l)
  {
    hide Dispatch, LineOf, LineAfter, Conserved, ThensOk, HandedOk, NoLostWakeup;
    LineUntouched(LineOf(k.locks[l]));
    if a.Resume? {
      DispatchLine(k, l);
    } else if k.ready != [] {
      OnlyRunning(k);
      var r := ReadyToRun(Sleep(k, GoOn), k.current.value);
      DispatchLine(r, l);
      SameThen(k, l);
    }
  }

  /** The thread that yields will go on, whatever it had left to do before. */
  lemma SameThen(k: Kernel, l: nat)
    requires k.current.Some? && k.ready != [] && k.ready[0] != k.current.value
    ensures WillDo(ReadyToRun(Sleep(k, GoOn), k.current.value), k.ready[0], Reacquire(l)) == WillDo(k, k.ready[0], Reacquire(l))
  {
  }

  lemma OwnLine(k: Kernel, a: Step, l: nat)
    requires Good(k) && Enabled(k, a) && (a.CallAcquire? || a.CallRelease?) && l < |k.locks|
    ensures StepsLine(k, a, l) && AskerRuns(k, a, l)
  {
    hide Acquire, Release, LineOf, LineAfter, Conserved, ThensOk, HandedOk, NoLostWakeup;
    LineUntouched(LineOf(k.locks[l]));
    if a.CallAcquire? {
      AcquireLine(k, l, a.l);
      AskedLine(LineOf(k.locks[l]), k.current.value);
    } else {
      ReleaseLine(k, l, a.l);
    }
  }

  lemma WaitLine(k: Kernel, a: Step, l: nat)
    requires Good(k) && Enabled(k, a) && a.CallWait? && l < |k.locks|
    ensures StepsLine(k, a, l) && AskerRuns(k, a, l)
  {
    hide Release, Wait, LineOf, LineAfter, Conserved, ThensOk, HandedOk, NoLostWakeup;
    LineUntouched(LineOf(k.locks[l]));
    if Accepted(k, a.c, a.with) {
      ReleaseLine(k, l, a.with.value);
      WaitQueue(k, a.c, a.with.value, LockLine(l));
    } else {
      WaitRefused(k, a.c, a.with);
    }
  }

  lemma StepKeepsLine(k: Kernel, a: Step, l: nat)
    requires Good(k) && Enabled(k, a) && l < |k.locks|
    ensures StepsLine(k, a, l) && AskerRuns(k, a, l)
  {
    hide Conserved, ThensOk, HandedOk, LocksOk, NoLostWakeup, LineOf, LineAfter, StepsLine, AskerRuns;
    match a
    case CallAcquire(_) => OwnLine(k, a, l);
    case CallRelease(_) => OwnLine(k, a, l);
    case CallWait(_, _) => WaitLine(k, a, l);
    case CallYield => SwitchLine(k, a, l);
    case Resume => SwitchLine(k, a, l);
    case CallFork(_) => OtherLine(k, a, l);
    case CallFinish => OtherLine(k, a, l);
    case CallP(_) => OtherLine(k, a, l);
    case CallV(_) => OtherLine(k, a, l);
    case Interrupt(_) => OtherLine(k, a, l);
    case CallSignal(_, _) => OtherLine(k, a, l);
    case CallBroadcast(_, _) => OtherLine(k, a, l);
  }

  lemma OtherLine(k: Kernel, a: Step, l: nat)
    requires Names(k) && Enabled(k, a) && l < |k.locks|
    requires a.CallFork? || a.CallFinish? || a.CallP? || a.CallV? || a.Interrupt? || a.CallSignal? || a.CallBroadcast?
    ensures StepsLine(k, a, l) && AskerRuns(k, a, l)
  {
    hide LineOf, LineAfter;
    LineUntouched(LineOf(k.locks[l]));
    if a.CallBroadcast? { BroadcastLocks(k, a.c, a.with); }
  }

  lemma {:induction false} RunKeepsLine(k: Kernel, steps: seq<Step>, l: nat)
    requires Good(k) && Run(k, steps) && l < |k.locks|
    ensures l < |End(k, steps).locks| && LineOf(End(k, steps).locks[l]) == LineRead(k, steps, l, LineOf(k.locks[l]))
    decreases |steps|
  {
    hide Good, Next, Enabled, LineOf, LineAfter, Asker, Giver;
    if steps != [] {
      StepKeeps(k, steps[0]);
      StepKeepsLine(k, steps[0], l);
      RunKeepsLine(Next(k, steps[0]), steps[1..], l);
    }
  }

  /** In every state of every run a lock is the line that its calls make, with the owner at the front and
      busy while there is anyone in it; and in the next step a thread that asks for the lock runs on if
      and only if it is the front of the line. */
  lemma LockIsALine(k: Kernel, main: int, steps: seq<Step>, l: nat)
    requires Boot(k, main) && Run(k, steps) && l < |k.locks|
    ensures Good(End(k, steps)) && l < |End(k, steps).locks|
    ensures var m := End(k, steps).locks[l];
            && LineOf(m) == LineRead(k, steps, l, [])
            && (m.busy <==> LineOf(m) != []) && (m.owner.None? ==> m.queue == [])
    ensures forall a :: Enabled(End(k, steps), a) ==> AskerRuns(End(k, steps), a, l)
  {
    hide Run, End, LineAfter, Asker, Giver, AskerRuns, Conserved, ThensOk, HandedOk, NoLostWakeup;
    BootGood(k, main);
    RunGood(k, steps);
    RunKeepsLine(k, steps, l);
    assert LineOf(k.locks[l]) == [];
    var e := End(k, steps);
    forall a | Enabled(e, a) ensures AskerRuns(e, a, l) { StepKeepsLine(e, a, l); }
  }

  /** The owner's Release, and the wait that the owner is put to sleep in, hand the lock to the thread that
      waited longest, or free it when nobody waited. */
  lemma ReleaseHandsOver(k: Kernel, main: int, steps: seq<Step>, a: Step, l: nat)
    requires Boot(k, main) && Run(k, steps)
    ensures Good(End(k, steps))
    ensures var e := End(k, steps);
            Enabled(e, a) && l < |e.locks| && e.current.Some? && e.locks[l].owner == e.current
            && (a == CallRelease(l) || (a.CallWait? && a.with == Some(l) && Next(e, a).current.None?)) ==>
              && l < |Next(e, a).locks|
              && Next(e, a).locks[l] == (if e.locks[l].queue == [] then Lock(false, None, [])
                                         else Lock(true, Some(e.locks[l].queue[0]), e.locks[l].queue[1..]))
  {
    hide Run, End, Conserved, ThensOk, HandedOk, NoLostWakeup;
    BootGood(k, main);
    RunGood(k, steps);
  }

  /** A lock that was freed goes to the next thread that asks for it, which runs on. */
  lemma FreedIsTaken(k: Kernel, main: int, steps: seq<Step>, l: nat)
    requires Boot(k, main) && Run(k, steps)
    ensures var e := End(k, steps);
            Enabled(e, CallAcquire(l)) && Names(e) && !e.locks[l].busy ==>
              && Next(e, CallAcquire(l)).current == e.current && l < |Next(e, CallAcquire(l)).locks|
              && Next(e, CallAcquire(l)).locks[l] == Lock(true, e.current, [])
  {
    hide Run, End, Conserved, ThensOk, HandedOk, NoLostWakeup;
    BootGood(k, main);
    RunGood(k, steps);
  }

  // ---- semaphores ----

  /** The thread that tests the semaphore: by its call, or after it was woken. */
  function Tester(k: Kernel, a: Step, s: nat): Option<int>
    requires Enabled(k, a)
  {
    if a == CallP(s) then k.current else if ComesBackTo(k, a, TestAgain(s)) then SwitchedTo(k, a) else None
  }

  /** How often somebody got past the semaphore: tested it, and runs on. */
  function Passes(k: Kernel, steps: seq<Step>, s: nat): nat
    requires Run(k, steps)
    decreases |steps|
  {
    if steps == [] then 0
    else (if Tester(k, steps[0], s).Some? && Next(k, steps[0]).current == Tester(k, steps[0], s) then 1 else 0)
         + Passes(Next(k, steps[0]), steps[1..], s)
  }

  function Posts(steps: seq<Step>, s: nat): nat {
    if steps == [] then 0 else (if steps[0] in {CallV(s), Interrupt(s)} then 1 else 0) + Posts(steps[1..], s)
  }

  /** Whoever tests runs on exactly when the value is positive, and takes one; a V adds one. */
  ghost predicate StepsSem(k: Kernel, a: Step, s: nat)
    requires Names(k) && Enabled(k, a) && s < |k.sems|
  {
    var r := Next(k, a);
    var tester := Tester(k, a, s);
    && s < |r.sems|
    && r.sems[s].value + (if tester.Some? && r.current == tester then 1 else 0) == k.sems[s].value + Posts([a], s)
    && (tester.Some? ==> (r.current == tester <==> k.sems[s].value > 0))
  }

  lemma PSem(k: Kernel, p: nat, s: nat)
    requires k.current.Some? && s < |k.sems| && p < |k.sems|
    ensures var r := P(k, p);
            && |r.sems| == |k.sems|
            && (r.current == k.current || r.current == None)
            && r.sems[s].value + (if p == s && r.current == k.current then 1 else 0) == k.sems[s].value
            && (p == s ==> (r.current == k.current <==> k.sems[s].value > 0))
  {
  }

  lemma AcquireSems(k: Kernel, l: nat)
    requires k.current.Some? && l < |k.locks|
    ensures Acquire(k, l).sems == k.sems
  {
  }

  lemma DispatchSem(k: Kernel, s: nat)
    requires k.current.None? && k.ready != [] && Names(k) && s < |k.sems|
    ensures var r := Dispatch(k); var t := k.ready[0];
            && |r.sems| == |k.sems|
            && r.sems[s].value + (if WillDo(k, t, TestAgain(s)) && r.current == Some(t) then 1 else 0) == k.sems[s].value
            && (WillDo(k, t, TestAgain(s)) ==> (r.current == Some(t) <==> k.sems[s].value > 0))
  {
    hide P, Acquire;
    var t := k.ready[0];
    var r := k.(current := Some(t), ready := k.ready[1..]);
    if t in k.then_ {
      match k.then_[t] {
        case GoOn =>
        case TestAgain(p) => PSem(r, p, s);
        case HasLock(_) =>
        case Reacquire(l) => AcquireSems(r, l);
      }
    }
  }

  lemma SwitchSem(k: Kernel, a: Step, s: nat)
    requires Good(k) && Enabled(k, a) && (a.Resume? || a.CallYield?) && s < |k.sems|
    ensures StepsSem(k, a, s)
  {
    hide Dispatch, ThensOk, Conserved, HandedOk, NoLostWakeup, Posts;
    PostsOne(a, s);
    if a.Resume? {
      DispatchSem(k, s);
    } else if k.ready != [] {
      OnlyRunning(k);
      DispatchSem(ReadyToRun(Sleep(k, GoOn), k.current.value), s);
    }
  }

  lemma StepKeepsSem(k: Kernel, a: Step, s: nat)
    requires Good(k) && Enabled(k, a) && s < |k.sems|
    ensures StepsSem(k, a, s)
  {
    hide Conserved, ThensOk, HandedOk, LocksOk, NoLostWakeup, StepsSem;
    match a
    case CallP(p) => OwnSem(k, a, s);
    case CallYield => SwitchSem(k, a, s);
    case Resume => SwitchSem(k, a, s);
    case CallV(_) => OwnSem(k, a, s);
    case Interrupt(_) => OwnSem(k, a, s);
    case CallFork(_) => OtherSem(k, a, s);
    case CallFinish => OtherSem(k, a, s);
    case CallAcquire(_) => OtherSem(k, a, s);
    case CallRelease(_) => OtherSem(k, a, s);
    case CallWait(_, _) => OtherSem(k, a, s);
    case CallSignal(_, _) => OtherSem(k, a, s);
    case CallBroadcast(_, _) => OtherSem(k, a, s);
  }

  lemma OwnSem(k: Kernel, a: Step, s: nat)
    requires Names(k) && Enabled(k, a) && s < |k.sems| && (a.CallP? || a.CallV? || a.Interrupt?)
    ensures StepsSem(k, a, s)
  {
    if a.CallP? { PSem(k, a.s, s); }
  }

  lemma OtherSem(k: Kernel, a: Step, s: nat)
    requires Names(k) && Enabled(k, a) && s < |k.sems|
    requires !(a.CallP? || a.CallV? || a.Interrupt? || a.CallYield? || a.Resume?)
    ensures StepsSem(k, a, s)
  {
    if a.CallBroadcast? { BroadcastOthers(k, a.c, a.with); }
  }

  lemma {:induction false} RunKeepsSem(k: Kernel, steps: seq<Step>, s: nat)
    requires Good(k) && Run(k, steps) && s < |k.sems|
    ensures s < |End(k, steps).sems| && End(k, steps).sems[s].value + Passes(k, steps, s) == k.sems[s].value + Posts(steps, s)
    decreases |steps|
  {
    hide Good, Next, Enabled, Tester;
    if steps != [] {
      StepKeeps(k, steps[0]);
      StepKeepsSem(k, steps[0], s);
      PostsOne(steps[0], s);
      RunKeepsSem(Next(k, steps[0]), steps[1..], s);
    }
  }

  lemma PostsOne(a: Step, s: nat)
    ensures Posts([a], s) == if a in {CallV(s), Interrupt(s)} then 1 else 0
  {
    assert [a][1..] == [];
  }

  /** In every state of every run a semaphore's value is its first value and its Vs less those that got past
      it; and in the next step a thread that tests it runs on if and only if the value is positive. */
  lemma SemaphoreBalance(k: Kernel, main: int, steps: seq<Step>, s: nat)
    requires Boot(k, main) && Run(k, steps) && s < |k.sems|
    ensures Good(End(k, steps)) && s < |End(k, steps).sems|
    ensures End(k, steps).sems[s].value + Passes(k, steps, s) == k.sems[s].value + Posts(steps, s)
    ensures forall a :: Enabled(End(k, steps), a) && Tester(End(k, steps), a, s).Some? ==>
              (Next(End(k, steps), a).current == Tester(End(k, steps), a, s) <==> End(k, steps).sems[s].value > 0)
  {
    hide Run, End, Passes, Posts, Tester, Conserved, ThensOk, HandedOk, NoLostWakeup;
    BootGood(k, main);
    RunGood(k, steps);
    RunKeepsSem(k, steps, s);
    var e := End(k, steps);
    forall a | Enabled(e, a) ensures StepsSem(e, a, s) { StepKeepsSem(e, a, s); }
  }

  // ---- waits and wake-ups ----

  /** A wait puts its thread to sleep, at the end of the queue and with the lock it named, if and only if it
      names a lock and nobody waits with another; it is refused without a trace otherwise. */
  lemma WaitsIff(k: Kernel, main: int, steps: seq<Step>, c: nat, with: Option<nat>)
    requires Boot(k, main) && Run(k, steps)
    ensures Good(End(k, steps))
    ensures var e := End(k, steps);
            Enabled(e, CallWait(c, with)) ==>
              var r := Next(e, CallWait(c, with));
              && (r.current.None? <==> Accepted(e, c, with)) && (!Accepted(e, c, with) ==> r == e)
              && (Accepted(e, c, with) ==>
                    && c < |r.conds| && r.conds[c] == Condition(with, e.conds[c].queue + [e.current.value])
                    && WillDo(r, e.current.value, Reacquire(with.value)))
  {
    hide Run, End, Conserved, ThensOk, HandedOk, NoLostWakeup;
    BootGood(k, main);
    RunGood(k, steps);
  }

  /** A V wakes one thread if any waits; a signal wakes one if it names the waiters' lock, and none otherwise. */
  lemma WakesOne(k: Kernel, main: int, steps: seq<Step>, a: Step)
    requires Boot(k, main) && Run(k, steps)
    ensures Good(End(k, steps))
    ensures var e := End(k, steps);
            Enabled(e, a) ==>
              && (a.CallV? || a.Interrupt? ==>
                    Next(e, a).ready == e.ready + if e.sems[a.s].queue == [] then [] else [e.sems[a.s].queue[0]])
              && (a.CallSignal? ==>
                    Next(e, a).ready == e.ready + if e.conds[a.c].queue == [] || a.with != e.conds[a.c].waitingLock then []
                                                  else [e.conds[a.c].queue[0]])
  {
    hide Run, End, Conserved, ThensOk, HandedOk, NoLostWakeup;
    BootGood(k, main);
    RunGood(k, steps);
  }

  // ---- who runs at all ----

  function Forked(steps: seq<Step>): set<int> {
    if steps == [] then {} else (if steps[0].CallFork? then {steps[0].t} else {}) + Forked(steps[1..])
  }

  function Ended(k: Kernel, steps: seq<Step>): set<int>
    requires Run(k, steps)
    decreases |steps|
  {
    if steps == [] then {}
    else (if steps[0].CallFinish? then {k.current.value} else {}) + Ended(Next(k, steps[0]), steps[1..])
  }

  ghost predicate StepsThreads(k: Kernel, a: Step)
    requires Names(k) && Enabled(k, a)
  {
    var r := Next(k, a);
    && r.started == k.started + (if a.CallFork? then {a.t} else {})
    && r.finished == k.finished + (if a.CallFinish? then {k.current.value} else {})
    && (a.CallFork? ==> r.ready == k.ready + [a.t])
    && (a.CallFinish? ==> r.current == None)
  }

  lemma SwitchThreads(k: Kernel)
    requires k.current.None? && k.ready != [] && Names(k)
    ensures Dispatch(k).started == k.started && Dispatch(k).finished == k.finished
  {
  }

  lemma StepKeepsThreads(k: Kernel, a: Step)
    requires Names(k) && Enabled(k, a)
    ensures StepsThreads(k, a)
  {
    hide Dispatch;
    if a.CallBroadcast? {
      BroadcastThreads(k, a.c, a.with);
    } else if a.Resume? {
      SwitchThreads(k);
    } else if a.CallYield? && k.ready != [] {
      SwitchThreads(ReadyToRun(Sleep(k, GoOn), k.current.value));
    }
  }

  lemma {:induction false} BroadcastThreads(k: Kernel, c: nat, with: Option<nat>)
    requires c < |k.conds|
    ensures Broadcast(k, c, with).started == k.started && Broadcast(k, c, with).finished == k.finished
    decreases |k.conds[c].queue|
  {
    var m := k.conds[c];
    if !(m.waitingLock.None? || m.waitingLock != with || m.queue == []) { BroadcastThreads(Signal(k, c, with), c, with); }
  }

  lemma {:induction false} RunKeepsThreads(k: Kernel, steps: seq<Step>)
    requires Good(k) && Run(k, steps)
    ensures End(k, steps).started == k.started + Forked(steps) && End(k, steps).finished == k.finished + Ended(k, steps)
    decreases |steps|
  {
    hide Good, Next, Enabled;
    if steps != [] {
      StepKeeps(k, steps[0]);
      GoodConds(k);
      StepKeepsThreads(k, steps[0]);
      RunKeepsThreads(Next(k, steps[0]), steps[1..]);
    }
  }

  /** In every state of every run exactly the main thread and the forked ones that did not finish are
      somewhere, each in one place; a thread that is forked is the last of the ready ones. */
  lemma RunnableThreads(k: Kernel, main: int, steps: seq<Step>)
    requires Boot(k, main) && Run(k, steps)
    ensures Names(End(k, steps))
    ensures forall t :: Places(End(k, steps), t) == if t in {main} + Forked(steps) && t !in Ended(k, steps) then 1 else 0
    ensures forall a :: Enabled(End(k, steps), a) && a.CallFork? ==> Next(End(k, steps), a).ready == End(k, steps).ready + [a.t]
    ensures forall a :: Enabled(End(k, steps), a) && a.CallFinish? ==> Next(End(k, steps), a).current == None
  {
    hide Run, End, Forked, Ended, Places, ThensOk, HandedOk, NoLostWakeup;
    BootGood(k, main);
    RunGood(k, steps);
    RunKeepsThreads(k, steps);
  }
}
