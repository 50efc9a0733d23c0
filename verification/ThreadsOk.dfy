/** No thread is lost or in two places, locks exclude, and no wake-up is lost, whatever the threads do. */
module ThreadsOk {
  import opened Options
  import opened Seqs
  import opened Threads

  // ---- where a thread is ----

  function InQueues(qs: seq<seq<int>>, t: int): nat {
    if qs == [] then 0 else Times(qs[0], t) + InQueues(qs[1..], t)
  }

  lemma {:induction false} InQueuesAt(qs: seq<seq<int>>, i: int, q: seq<int>, t: int)
    requires 0 <= i < |qs|
    ensures InQueues(qs[i := q], t) + Times(qs[i], t) == InQueues(qs, t) + Times(q, t)
  {
    if i > 0 {
      InQueuesAt(qs[1..], i - 1, q, t);
      assert qs[i := q][1..] == qs[1..][i - 1 := q];
    } else {
      assert qs[i := q][1..] == qs[1..];
    }
  }

  lemma {:induction false} InQueueCounts(qs: seq<seq<int>>, i: int, j: int)
    requires 0 <= i < |qs| && 0 <= j < |qs[i]|
    ensures InQueues(qs, qs[i][j]) > 0
  {
    if i > 0 { InQueueCounts(qs[1..], i - 1, j); } else { InSeqCounts(qs[0], j); }
  }

  lemma {:induction false} InSeqCounts(q: seq<int>, j: int)
    requires 0 <= j < |q|
    ensures Times(q, q[j]) > 0
  {
    if j > 0 { InSeqCounts(q[1..], j - 1); }
  }

  function SemQueues(k: Kernel): (qs: seq<seq<int>>)
    ensures |qs| == |k.sems| && forall i :: 0 <= i < |qs| ==> qs[i] == k.sems[i].queue
  {
    seq(|k.sems|, i requires 0 <= i < |k.sems| => k.sems[i].queue)
  }

  function LockQueues(k: Kernel): (qs: seq<seq<int>>)
    ensures |qs| == |k.locks| && forall i :: 0 <= i < |qs| ==> qs[i] == k.locks[i].queue
  {
    seq(|k.locks|, i requires 0 <= i < |k.locks| => k.locks[i].queue)
  }

  function CondQueues(k: Kernel): (qs: seq<seq<int>>)
    ensures |qs| == |k.conds| && forall i :: 0 <= i < |qs| ==> qs[i] == k.conds[i].queue
  {
    seq(|k.conds|, i requires 0 <= i < |k.conds| => k.conds[i].queue)
  }

  /** In how many places a thread is: running, on the ready list, or in queues. */
  function Places(k: Kernel, t: int): nat {
    (if k.current == Some(t) then 1 else 0) + Times(k.ready, t)
    + InQueues(SemQueues(k), t) + InQueues(LockQueues(k), t) + InQueues(CondQueues(k), t)
  }

  /** Every started, unfinished thread is in exactly one place, and no other thread is anywhere. */
  ghost predicate Conserved(k: Kernel) {
    k.finished <= k.started && forall t :: Places(k, t) == if t in k.started && t !in k.finished then 1 else 0
  }

  // ---- what a sleeping thread waits for ----

  predicate WillDo(k: Kernel, t: int, next: Then) { t in k.then_ && k.then_[t] == next }

  /** The queues hold threads that know what they wait for; whoever waits on a condition variable
      will acquire that variable's lock. */
  ghost predicate ThensOk(k: Kernel) {
    && (forall s: nat, j :: s < |k.sems| && 0 <= j < |k.sems[s].queue| ==> WillDo(k, k.sems[s].queue[j], TestAgain(s)))
    && (forall l: nat, j :: l < |k.locks| && 0 <= j < |k.locks[l].queue| ==> WillDo(k, k.locks[l].queue[j], HasLock(l)))
    && (forall c: nat, j :: c < |k.conds| && 0 <= j < |k.conds[c].queue| ==>
          k.conds[c].waitingLock.Some? && WillDo(k, k.conds[c].queue[j], Reacquire(k.conds[c].waitingLock.value)))
  }

  /** A thread that was handed a lock owns it, until it runs and gives it up. */
  ghost predicate HandedOk(k: Kernel) {
    forall i :: 0 <= i < |k.ready| ==>
      (k.ready[i] in k.then_
      && (k.then_[k.ready[i]].HasLock? ==>
            k.then_[k.ready[i]].l < |k.locks| && k.locks[k.then_[k.ready[i]].l].owner == Some(k.ready[i])))
  }

  ghost predicate LocksOk(k: Kernel) {
    forall l :: 0 <= l < |k.locks| ==> (k.locks[l].busy <==> k.locks[l].owner.Some?) && (!k.locks[l].busy ==> k.locks[l].queue == [])
  }

  ghost predicate CondsOk(k: Kernel) {
    forall c :: 0 <= c < |k.conds| ==>
      (k.conds[c].waitingLock.None? <==> k.conds[c].queue == [])
      && (k.conds[c].waitingLock.Some? ==> k.conds[c].waitingLock.value < |k.locks|)
  }

  /** How many ready threads were woken to test semaphore s. */
  function Woken(ready: seq<int>, then_: map<int, Then>, s: nat): nat {
    if ready == [] then 0
    else (if ready[0] in then_ && then_[ready[0]] == TestAgain(s) then 1 else 0) + Woken(ready[1..], then_, s)
  }

  /** No lost wake-up: while threads wait for a semaphore, every unit of its value has a woken
      thread on its way to take it. */
  ghost predicate NoLostWakeup(k: Kernel) {
    forall s: nat :: s < |k.sems| && k.sems[s].queue != [] ==> k.sems[s].value <= Woken(k.ready, k.then_, s)
  }

  ghost predicate Good(k: Kernel) {
    && Names(k) && Conserved(k) && ThensOk(k) && HandedOk(k) && LocksOk(k) && CondsOk(k) && NoLostWakeup(k)
  }

  // ---- lemmas on places ----

  /** The current thread is nowhere else. */
  lemma OnlyRunning(k: Kernel)
    requires Conserved(k) && k.current.Some?
    ensures var t := k.current.value;
            && t in k.started && t !in k.finished
            && (forall i :: 0 <= i < |k.ready| ==> k.ready[i] != t)
            && (forall s: nat, j :: s < |k.sems| && 0 <= j < |k.sems[s].queue| ==> k.sems[s].queue[j] != t)
            && (forall l: nat, j :: l < |k.locks| && 0 <= j < |k.locks[l].queue| ==> k.locks[l].queue[j] != t)
            && (forall c: nat, j :: c < |k.conds| && 0 <= j < |k.conds[c].queue| ==> k.conds[c].queue[j] != t)
  {
    hide InQueues, Times;
    var t := k.current.value;
    assert Places(k, t) == 1;
    forall i | 0 <= i < |k.ready| ensures k.ready[i] != t { InSeqCounts(k.ready, i); }
    forall s: nat, j | s < |k.sems| && 0 <= j < |k.sems[s].queue| ensures k.sems[s].queue[j] != t { InQueueCounts(SemQueues(k), s, j); }
    forall l: nat, j | l < |k.locks| && 0 <= j < |k.locks[l].queue| ensures k.locks[l].queue[j] != t { InQueueCounts(LockQueues(k), l, j); }
    forall c: nat, j | c < |k.conds| && 0 <= j < |k.conds[c].queue| ensures k.conds[c].queue[j] != t { InQueueCounts(CondQueues(k), c, j); }
  }

  lemma PlacesSem(k: Kernel, s: nat, m: Semaphore, t: int)
    requires s < |k.sems|
    ensures var r := k.(sems := k.sems[s := m]);
            Places(r, t) + Times(k.sems[s].queue, t) == Places(k, t) + Times(m.queue, t)
  {
    hide InQueues, Times;
    var r := k.(sems := k.sems[s := m]);
    assert SemQueues(r) == SemQueues(k)[s := m.queue];
    assert LockQueues(r) == LockQueues(k) && CondQueues(r) == CondQueues(k);
    InQueuesAt(SemQueues(k), s, m.queue, t);
  }

  lemma PlacesLock(k: Kernel, l: nat, m: Lock, t: int)
    requires l < |k.locks|
    ensures var r := k.(locks := k.locks[l := m]);
            Places(r, t) + Times(k.locks[l].queue, t) == Places(k, t) + Times(m.queue, t)
  {
    hide InQueues, Times;
    var r := k.(locks := k.locks[l := m]);
    assert LockQueues(r) == LockQueues(k)[l := m.queue];
    assert SemQueues(r) == SemQueues(k) && CondQueues(r) == CondQueues(k);
    InQueuesAt(LockQueues(k), l, m.queue, t);
  }

  lemma PlacesCond(k: Kernel, c: nat, m: Condition, t: int)
    requires c < |k.conds|
    ensures var r := k.(conds := k.conds[c := m]);
            Places(r, t) + Times(k.conds[c].queue, t) == Places(k, t) + Times(m.queue, t)
  {
    hide InQueues, Times;
    var r := k.(conds := k.conds[c := m]);
    assert CondQueues(r) == CondQueues(k)[c := m.queue];
    assert SemQueues(r) == SemQueues(k) && LockQueues(r) == LockQueues(k);
    InQueuesAt(CondQueues(k), c, m.queue, t);
  }

  lemma PlacesReady(k: Kernel, t: int, u: int)
    ensures Places(ReadyToRun(k, t), u) == Places(k, u) + if t == u then 1 else 0
  {
    hide InQueues, Times;
    SameQueues(k, ReadyToRun(k, t));
    TimesPush(k.ready, t, u);
  }

  lemma SameQueues(k: Kernel, r: Kernel)
    requires r.sems == k.sems && r.locks == k.locks && r.conds == k.conds
    ensures SemQueues(r) == SemQueues(k) && LockQueues(r) == LockQueues(k) && CondQueues(r) == CondQueues(k)
  {
  }

  lemma PlacesSleep(k: Kernel, next: Then, u: int)
    requires k.current.Some?
    ensures Places(Sleep(k, next), u) + (if k.current == Some(u) then 1 else 0) == Places(k, u)
  {
    hide InQueues, Times;
    SameQueues(k, Sleep(k, next));
  }

  lemma {:induction false} WokenPush(ready: seq<int>, then_: map<int, Then>, s: nat, t: int)
    ensures Woken(ready + [t], then_, s) == Woken(ready, then_, s) + if t in then_ && then_[t] == TestAgain(s) then 1 else 0
  {
    if ready == [] {
      assert ([] + [t])[1..] == [];
    } else {
      assert (ready + [t])[0] == ready[0] && (ready + [t])[1..] == ready[1..] + [t];
      WokenPush(ready[1..], then_, s, t);
    }
  }

  lemma {:induction false} WokenSame(ready: seq<int>, a: map<int, Then>, b: map<int, Then>, s: nat, t: int)
    requires forall i :: 0 <= i < |ready| ==> ready[i] != t
    requires forall u :: u != t ==> (u in a <==> u in b) && (u in a ==> a[u] == b[u])
    ensures Woken(ready, a, s) == Woken(ready, b, s)
  {
    if ready != [] { WokenSame(ready[1..], a, b, s, t); }
  }
}
