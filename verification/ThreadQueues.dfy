/** Every queue of the kernel is served in order of arrival. */
module ThreadQueues {
  import opened Options
  import opened Seqs
  import opened Threads
  import opened ThreadsOk
  import opened ThreadRuns

  /** One queue of waiting threads. */
  datatype Line = SemLine(s: nat) | LockLine(l: nat) | CondLine(c: nat)

  function QueueOf(k: Kernel, line: Line): seq<int> {
    match line
    case SemLine(s) => if s < |k.sems| then k.sems[s].queue else []
    case LockLine(l) => if l < |k.locks| then k.locks[l].queue else []
    case CondLine(c) => if c < |k.conds| then k.conds[c].queue else []
  }

  /** The thread that this step puts to sleep for what the queue is for. */
  function Joined(k: Kernel, a: Step, line: Line): seq<int>
    requires Enabled(k, a) && Names(k)
  {
    var r := Next(k, a);
    var x := Runner(k, a);
    if a.CallFinish? || r.current.Some? || x.None? || x.value !in r.then_ then []
    else if line.CondLine? then (if a.CallWait? && a.c == line.c then [x.value] else [])
    else if a.CallWait? then []
    else if r.then_[x.value] == (if line.SemLine? then TestAgain(line.s) else HasLock(line.l)) then [x.value]
    else []
  }

  /** The threads that this step wakes from the queue: for a lock, its new owner. */
  function Left(k: Kernel, a: Step, line: Line): seq<int>
    requires Enabled(k, a) && Names(k)
  {
    var r := Next(k, a);
    var woken := if |k.ready| <= |r.ready| then r.ready[|k.ready|..] else [];
    match line
    case SemLine(s) => if (a.CallV? || a.Interrupt?) && a.s == s then woken else []
    case CondLine(c) => if (a.CallSignal? || a.CallBroadcast?) && a.c == c then woken else []
    case LockLine(l) =>
      if (a == CallRelease(l) || (a.CallWait? && a.with == Some(l))) && l < |k.locks| && l < |r.locks|
         && r.locks[l].owner.Some? && r.locks[l].owner != k.locks[l].owner
      then [r.locks[l].owner.value] else []
  }

  /** The threads in the queue and the one that joins are those that leave and those still in it, in order. */
  ghost predicate InOrder(k: Kernel, a: Step, line: Line)
    requires Enabled(k, a) && Names(k)
  {
    QueueOf(k, line) + Joined(k, a, line) == Left(k, a, line) + QueueOf(Next(k, a), line)
  }

  lemma PQueue(k: Kernel, s: nat, line: Line)
    requires k.current.Some? && s < |k.sems|
    ensures var r := P(k, s); var t := k.current.value;
            && (r.current.Some? || (t in r.then_ && r.then_[t] == TestAgain(s)))
            && QueueOf(r, line) == QueueOf(k, line) + if r.current.None? && line == SemLine(s) then [t] else []
  {
  }

  lemma AcquireQueue(k: Kernel, l: nat, line: Line)
    requires k.current.Some? && l < |k.locks|
    ensures var r := Acquire(k, l); var t := k.current.value;
            && (r.current.Some? || (t in r.then_ && r.then_[t] == HasLock(l)))
            && QueueOf(r, line) == QueueOf(k, line) + if r.current.None? && line == LockLine(l) then [t] else []
  {
  }

  lemma DispatchQueue(k: Kernel, line: Line)
    requires k.current.None? && k.ready != [] && Names(k)
    ensures var r := Dispatch(k); var t := k.ready[0];
            && (r.current.Some? || (t in r.then_ && (r.then_[t].TestAgain? || r.then_[t].HasLock?)))
            && QueueOf(r, line) == QueueOf(k, line) +
                 if r.current.None? && r.then_[t] == (match line case SemLine(s) => TestAgain(s) case LockLine(l) => HasLock(l) case CondLine(_) => GoOn) then [t] else []
  {
    hide P, Acquire;
    var t := k.ready[0];
    var r := k.(current := Some(t), ready := k.ready[1..]);
    assert QueueOf(r, line) == QueueOf(k, line);
    if t in k.then_ {
      match k.then_[t] {
        case GoOn =>
        case TestAgain(s) => PQueue(r, s, line);
        case HasLock(_) =>
        case Reacquire(l) => AcquireQueue(r, l, line);
      }
    }
  }

  lemma DispatchInOrder(k: Kernel, a: Step, line: Line)
    requires Names(k) && Enabled(k, a) && (a.Resume? || a.CallYield?)
    ensures InOrder(k, a, line)
  {
    hide Dispatch;
    if a.Resume? {
      DispatchQueue(k, line);
    } else if k.ready != [] {
      var r := ReadyToRun(Sleep(k, GoOn), k.current.value);
      assert r.ready[0] == k.ready[0] && QueueOf(r, line) == QueueOf(k, line);
      DispatchQueue(r, line);
    }
  }

  lemma PInOrder(k: Kernel, a: Step, line: Line)
    requires Names(k) && Enabled(k, a) && a.CallP?
    ensures InOrder(k, a, line)
  {
    hide P;
    PQueue(k, a.s, line);
  }

  lemma VQueue(k: Kernel, s: nat, line: Line)
    requires s < |k.sems|
    ensures var r := V(k, s);
            && r.current == k.current && k.ready <= r.ready
            && QueueOf(k, line) == (if line == SemLine(s) then r.ready[|k.ready|..] else []) + QueueOf(r, line)
  {
    var q := k.sems[s].queue;
    assert q != [] ==> (k.ready + [q[0]])[|k.ready|..] == [q[0]];
  }

  lemma VInOrder(k: Kernel, a: Step, line: Line)
    requires Names(k) && Enabled(k, a) && (a.CallV? || a.Interrupt?)
    ensures InOrder(k, a, line)
  {
    hide V;
    VQueue(k, a.s, line);
  }

  /** What a release does to a queue. */
  lemma ReleaseQueue(k: Kernel, l: nat, line: Line)
    requires Good(k) && k.current.Some? && l < |k.locks|
    ensures var r := Release(k, l);
            && |r.locks| == |k.locks|
            && QueueOf(k, line) == (if line == LockLine(l) && r.locks[l].owner.Some? && r.locks[l].owner != k.locks[l].owner
                                    then [r.locks[l].owner.value] else []) + QueueOf(r, line)
  {
    hide Conserved;
    OnlyRunning(k);
    var q := k.locks[l].queue;
    assert q != [] ==> q[0] != k.current.value;
  }

  lemma LockInOrder(k: Kernel, a: Step, line: Line)
    requires Good(k) && Enabled(k, a) && (a.CallAcquire? || a.CallRelease?)
    ensures InOrder(k, a, line)
  {
    hide Good, Acquire, Release;
    match a
    case CallAcquire(l) => AcquireQueue(k, l, line);
    case CallRelease(l) =>
      ReleaseQueue(k, l, line);
      SameConds(k, l);
  }

  /** An accepted wait: the lock released, the thread asleep at the end of the queue. */
  lemma WaitQueue(k: Kernel, c: nat, l: nat, line: Line)
    requires k.current.Some? && c < |k.conds| && l < |k.locks|
    requires k.conds[c].waitingLock == None || k.conds[c].waitingLock == Some(l)
    ensures var r := Wait(k, c, Some(l));
            && r.current.None? && k.current.value in r.then_ && r.locks == Release(k, l).locks
            && QueueOf(r, line) == QueueOf(Release(k, l), line) + if line == CondLine(c) then [k.current.value] else []
  {
    hide Release, Wait;
    SameConds(k, l);
    WaitAsReleased(k, c, l);
  }

  lemma WaitInOrder(k: Kernel, a: Step, line: Line)
    requires Good(k) && Enabled(k, a) && a.CallWait?
    ensures InOrder(k, a, line)
  {
    hide Good, Release, Wait, QueueOf;
    if a.with.None? || !(k.conds[a.c].waitingLock == None || k.conds[a.c].waitingLock == a.with) {
      WaitRefused(k, a.c, a.with);
    } else {
      ReleaseQueue(k, a.with.value, line);
      WaitQueue(k, a.c, a.with.value, line);
    }
  }

  lemma SignalInOrder(k: Kernel, a: Step, line: Line)
    requires Names(k) && Enabled(k, a) && a.CallSignal?
    ensures InOrder(k, a, line)
  {
    var q := k.conds[a.c].queue;
    assert q != [] ==> (k.ready + [q[0]])[|k.ready|..] == [q[0]];
  }

  lemma {:induction false} BroadcastOthers(k: Kernel, c: nat, with: Option<nat>)
    requires c < |k.conds|
    ensures var r := Broadcast(k, c, with);
            && r.sems == k.sems && r.locks == k.locks && r.current == k.current
            && |r.conds| == |k.conds| && forall d :: 0 <= d < |k.conds| && d != c ==> r.conds[d] == k.conds[d]
    decreases |k.conds[c].queue|
  {
    var m := k.conds[c];
    if !(m.waitingLock.None? || m.waitingLock != with || m.queue == []) { BroadcastOthers(Signal(k, c, with), c, with); }
  }

  lemma BroadcastInOrder(k: Kernel, a: Step, line: Line)
    requires Names(k) && CondsOk(k) && Enabled(k, a) && a.CallBroadcast?
    ensures InOrder(k, a, line)
  {
    BroadcastOthers(k, a.c, a.with);
    if k.conds[a.c].waitingLock == a.with {
      BroadcastWakesAll(k, a.c, a.with);
      assert (k.ready + k.conds[a.c].queue)[|k.ready|..] == k.conds[a.c].queue;
    }
  }

  lemma StepInOrder(k: Kernel, a: Step, line: Line)
    requires Good(k) && Enabled(k, a)
    ensures InOrder(k, a, line)
  {
    hide InOrder, Conserved, ThensOk, HandedOk, LocksOk, NoLostWakeup;
    match a
    case CallFork(_) => OthersInOrder(k, a, line);
    case CallYield => DispatchInOrder(k, a, line);
    case CallFinish => OthersInOrder(k, a, line);
    case Resume => DispatchInOrder(k, a, line);
    case CallP(_) => PInOrder(k, a, line);
    case CallV(_) => VInOrder(k, a, line);
    case Interrupt(_) => VInOrder(k, a, line);
    case CallAcquire(_) => LockInOrder(k, a, line);
    case CallRelease(_) => LockInOrder(k, a, line);
    case CallWait(_, _) => WaitInOrder(k, a, line);
    case CallSignal(_, _) => SignalInOrder(k, a, line);
    case CallBroadcast(_, _) => BroadcastInOrder(k, a, line);
  }

  lemma OthersInOrder(k: Kernel, a: Step, line: Line)
    requires Names(k) && Enabled(k, a) && (a.CallFork? || a.CallFinish?)
    ensures InOrder(k, a, line)
  {
  }

  // ---- runs ----

  function AllJoined(k: Kernel, steps: seq<Step>, line: Line): seq<int>
    requires Run(k, steps)
    decreases |steps|
  {
    if steps == [] then [] else Joined(k, steps[0], line) + AllJoined(Next(k, steps[0]), steps[1..], line)
  }

  function AllLeft(k: Kernel, steps: seq<Step>, line: Line): seq<int>
    requires Run(k, steps)
    decreases |steps|
  {
    if steps == [] then [] else Left(k, steps[0], line) + AllLeft(Next(k, steps[0]), steps[1..], line)
  }

  /** Over every run, a semaphore, lock or condition variable serves its threads in order of arrival:
      those that were put to sleep on it are, in order, those that were woken (for a lock: made its
      owner) and those still waiting. */
  lemma ServedInOrder(k: Kernel, main: int, steps: seq<Step>, line: Line)
    requires Boot(k, main) && Run(k, steps)
    ensures AllJoined(k, steps, line) == AllLeft(k, steps, line) + QueueOf(End(k, steps), line)
  {
    hide Good, Run, End;
    BootGood(k, main);
    RunInOrder(k, steps, line);
    assert QueueOf(k, line) == [];
  }

  lemma {:induction false} RunInOrder(k: Kernel, steps: seq<Step>, line: Line)
    requires Good(k) && Run(k, steps)
    ensures QueueOf(k, line) + AllJoined(k, steps, line) == AllLeft(k, steps, line) + QueueOf(End(k, steps), line)
    decreases |steps|
  {
    hide Good, Next, Enabled, QueueOf, Joined, Left;
    if steps != [] {
      var r := Next(k, steps[0]);
      StepKeeps(k, steps[0]);
      StepInOrder(k, steps[0], line);
      RunInOrder(r, steps[1..], line);
      Regroup(QueueOf(k, line), Joined(k, steps[0], line), AllJoined(r, steps[1..], line), Left(k, steps[0], line),
              QueueOf(r, line), AllLeft(r, steps[1..], line), QueueOf(End(r, steps[1..]), line));
    }
  }

  /** The ready list too: a switch takes its front, whoever becomes ready goes to its end, and a thread
      that yields goes behind all that were ready. */
  lemma ReadyInOrder(k: Kernel, a: Step)
    requires Names(k) && CondsOk(k) && Enabled(k, a)
    ensures var r := Next(k, a);
            && (a.CallYield? && k.ready != [] ==> r.ready == k.ready[1..] + [k.current.value])
            && (a.Resume? ==> r.ready == k.ready[1..])
            && (!(a.CallYield? || a.Resume?) ==> k.ready <= r.ready)
  {
    if a.CallBroadcast? && k.conds[a.c].waitingLock == a.with {
      BroadcastWakesAll(k, a.c, a.with);
    }
  }

  // ---- Broadcast with time slices between its signals ----

  /** The signals of the loop among the steps. */
  function Rounds(steps: seq<Step>, c: nat, with: Option<nat>): nat {
    if steps == [] then 0 else (if steps[0] == CallSignal(c, with) then 1 else 0) + Rounds(steps[1..], c, with)
  }

  /** While someone who waited is left, the waiting lock stays. */
  lemma WaitingLockStays(k: Kernel, a: Step, c: nat)
    requires Names(k) && CondsOk(k) && Enabled(k, a) && c < |k.conds|
    ensures c < |Next(k, a).conds|
    ensures |Left(k, a, CondLine(c))| < |k.conds[c].queue| ==> Next(k, a).conds[c].waitingLock == k.conds[c].waitingLock
  {
    hide Left, CondsOk, Release;
    match a
    case CallBroadcast(_, _) => LockStaysBroadcast(k, a, c);
    case CallSignal(_, _) => LockStaysSignal(k, a, c);
    case CallWait(d, with) => LockStaysWait(k, d, with, c);
    case CallYield => SwitchConds(k, a);
    case Resume => SwitchConds(k, a);
    case CallRelease(l) => SameConds(k, l);
    case CallFork(_) =>
    case CallFinish =>
    case CallP(_) =>
    case CallV(_) =>
    case Interrupt(_) =>
    case CallAcquire(_) =>
  }

  lemma SwitchConds(k: Kernel, a: Step)
    requires Names(k) && Enabled(k, a) && (a.CallYield? || a.Resume?)
    ensures Next(k, a).conds == k.conds
  {
  }

  lemma LockStaysWait(k: Kernel, d: nat, with: Option<nat>, c: nat)
    requires Names(k) && CondsOk(k) && Enabled(k, CallWait(d, with)) && c < |k.conds|
    ensures c < |Wait(k, d, with).conds|
    ensures k.conds[c].queue != [] ==> Wait(k, d, with).conds[c].waitingLock == k.conds[c].waitingLock
  {
    hide Release, Wait;
    if with.None? || !(k.conds[d].waitingLock == None || k.conds[d].waitingLock == with) {
      WaitRefused(k, d, with);
    } else {
      SameConds(k, with.value);
      WaitAsReleased(k, d, with.value);
    }
  }

  lemma LockStaysSignal(k: Kernel, a: Step, c: nat)
    requires Names(k) && Enabled(k, a) && c < |k.conds| && a.CallSignal?
    ensures c < |Next(k, a).conds|
    ensures |Left(k, a, CondLine(c))| < |k.conds[c].queue| ==> Next(k, a).conds[c].waitingLock == k.conds[c].waitingLock
  {
    var q := k.conds[a.c].queue;
    assert q != [] ==> (k.ready + [q[0]])[|k.ready|..] == [q[0]];
  }

  lemma LockStaysBroadcast(k: Kernel, a: Step, c: nat)
    requires Names(k) && CondsOk(k) && Enabled(k, a) && c < |k.conds| && a.CallBroadcast?
    ensures c < |Next(k, a).conds|
    ensures |Left(k, a, CondLine(c))| < |k.conds[c].queue| ==> Next(k, a).conds[c].waitingLock == k.conds[c].waitingLock
  {
    BroadcastOthers(k, a.c, a.with);
    if k.conds[a.c].waitingLock == a.with {
      BroadcastWakesAll(k, a.c, a.with);
      assert (k.ready + k.conds[a.c].queue)[|k.ready|..] == k.conds[a.c].queue;
    }
  }

  /** A round wakes someone while the first m of the queue wait with this lock. */
  lemma RoundWakes(k: Kernel, c: nat, with: Option<nat>)
    requires CondsOk(k) && k.current.Some? && Names(k) && c < |k.conds| && (with.Some? ==> with.value < |k.locks|)
    requires k.conds[c].queue != [] && k.conds[c].waitingLock == with
    ensures |Left(k, CallSignal(c, with), CondLine(c))| == 1
  {
  }

  lemma {:induction false} RoundsWake(k: Kernel, steps: seq<Step>, c: nat, with: Option<nat>, m: nat)
    requires Good(k) && Run(k, steps) && c < |k.conds| && m <= |k.conds[c].queue| && (m > 0 ==> k.conds[c].waitingLock == with)
    ensures |AllLeft(k, steps, CondLine(c))| >= if Rounds(steps, c, with) < m then Rounds(steps, c, with) else m
    decreases |steps|
  {
    hide Good, Next, Enabled, Joined, Left;
    if steps != [] && m > 0 {
      var a := steps[0];
      var r := Next(k, a);
      var gone := |Left(k, a, CondLine(c))|;
      StepKeeps(k, a);
      StepInOrder(k, a, CondLine(c));
      GoodConds(k);
      WaitingLockStays(k, a, c);
      if a == CallSignal(c, with) { SignalGood(k, c, with); }
      RoundsWake(r, steps[1..], c, with, if gone < m then m - gone else 0);
    }
  }

  lemma GoodConds(k: Kernel)
    requires Good(k)
    ensures Names(k) && CondsOk(k)
  {
  }

  lemma SignalGood(k: Kernel, c: nat, with: Option<nat>)
    requires Good(k) && Enabled(k, CallSignal(c, with)) && k.conds[c].queue != [] && k.conds[c].waitingLock == with
    ensures |Left(k, CallSignal(c, with), CondLine(c))| == 1
  {
    hide Left;
    RoundWakes(k, c, with);
  }

  /** Whatever other threads and handlers do between its signals, a broadcast with the waiters' lock that has
      gone as many rounds as there were waiters has woken every one of them, in order. */
  lemma BroadcastDespiteSlices(k: Kernel, steps: seq<Step>, c: nat, with: Option<nat>)
    requires Good(k) && Run(k, steps) && c < |k.conds| && k.conds[c].waitingLock == with
    requires Rounds(steps, c, with) >= |k.conds[c].queue|
    ensures k.conds[c].queue <= AllLeft(k, steps, CondLine(c))
  {
    hide Good, Run, AllJoined, AllLeft, End;
    var q := k.conds[c].queue;
    RoundsWake(k, steps, c, with, |q|);
    RunInOrder(k, steps, CondLine(c));
    var left, joined := AllLeft(k, steps, CondLine(c)), AllJoined(k, steps, CondLine(c));
    var rest := QueueOf(End(k, steps), CondLine(c));
    assert q == (q + joined)[..|q|] == (left + rest)[..|q|] == left[..|q|];
  }
}
