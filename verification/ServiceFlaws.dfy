/** Runs that reach the two places where a server alone does not do what its clients expect: a broadcast that
    names another lock than its waiters', and a full lock table. One server is up, machine 1. */
module ServiceFlaws {
  import opened Options
  import opened Wire
  import opened Tables
  import opened Bits
  import opened Protocol
  import opened Network
  import opened WakeRuns

  const C := Client(SERVERS, 0)

  function Alone(): Sys { Sys({1}, map[1 := NewServer(1)], map[], []) }

  lemma AloneStarts()
    ensures Initial(Alone())
  {
  }

  lemma NoPeers()
    ensures Peers({1}, 1, 0) == []
  {
    assert Peers({1}, 1, 5) == [];
    assert Peers({1}, 1, 4) == [];
    assert Peers({1}, 1, 3) == [];
    assert Peers({1}, 1, 2) == [];
    assert Peers({1}, 1, 1) == [];
  }

  // ---- a broadcast with another lock ----

  /** A client makes a condition variable, waits on it with lock 100, and broadcasts with lock 101. */
  function Mismatch(): seq<Action> {
    [FromClient(1, C, Create(CVKind, "c", 0)), FromClient(1, C, Wait(100, 100)), FromClient(1, C, Broadcast(100, 101))]
  }

  /** The server after the create, and after the wait. */
  function WithCV(q: seq<Client>, lock: int): Server {
    NewServer(1).(cvs := Table([Some(Entry("c", 1, CVData(q, lock)))], seq(TABLE_SIZE, i => i == 0)), nextID := 1)
  }

  lemma AfterCreate()
    ensures OnClient(NewServer(1), {1}, C, Create(CVKind, "c", 0)).s == WithCV([], -1)
  {
    NoPeers();
    var t := EmptyTable<CVData>();
    assert FirstClear(t.bits, 0) == 0;
    assert t.bits[0 := true] == seq(TABLE_SIZE, i => i == 0);
  }

  lemma AfterWait()
    ensures OnClient(WithCV([], -1), {1}, C, Wait(100, 100)).s == WithCV([C], 100)
  {
    NoPeers();
    var s := WithCV([], -1);
    assert Live(s.cvs.slots, 0) && !Live(s.locks.slots, 0);
    var t := SetCV(s, 0, CVData([] + [C], 100));
    assert [] + [C] == [C] && t.cvs.slots == [Some(Entry("c", 1, CVData([C], 100)))];
    assert DoLock(t, 0, C, Release(100)).s == t;
  }

  lemma StepAlone(sys: Sys, req: Request)
    requires sys.up == {1} && 1 in sys.servers
    ensures Enabled(sys, FromClient(1, C, req))
    ensures var next := Step(sys, FromClient(1, C, req));
            next.up == {1} && 1 in next.servers && next.servers[1] == OnClient(sys.servers[1], {1}, C, req).s
  {
    hide OnClient, Post, At;
  }

  /** The run is reached from the start and its clients name locks; its broadcast finds the client waiting with
      another lock, and the waiters of lock 100 are not conserved. */
  lemma MismatchReached()
    ensures Initial(Alone()) && Run(Alone(), Mismatch()) && AllName(Mismatch())
    ensures var s1 := Step(Alone(), Mismatch()[0]);
            Enabled(s1, Mismatch()[1])
    ensures var s2 := Step(Step(Alone(), Mismatch()[0]), Mismatch()[1]);
            Enabled(s2, Mismatch()[2]) && 1 in s2.servers && s2.servers[1] == WithCV([C], 100) && !CarefulStep(s2, Mismatch()[2])
    ensures !AlwaysConserved(Alone(), [], Mismatch())
  {
    hide OnClient, Step, Enabled, AlwaysConserved;
    AloneStarts();
    var acts := Mismatch();
    StepAlone(Alone(), acts[0].req);
    AfterCreate();
    var s1 := Step(Alone(), acts[0]);
    StepAlone(s1, acts[1].req);
    AfterWait();
    var s2 := Step(s1, acts[1]);
    StepAlone(s2, acts[2].req);
    assert acts[1..] == [acts[1], acts[2]] && acts[1..][1..] == [acts[2]] && acts[1..][1..][1..] == [];
    NotCareful(s2);
    assert !CarefulRun(s2, [acts[2]]);
    assert !CarefulRun(s1, [acts[1], acts[2]]);
    assert Run(Step(s2, acts[2]), []);
    assert Run(s2, [acts[2]]);
    assert Run(s1, [acts[1], acts[2]]);
    ConservedIffCareful(Alone(), acts);
  }

  lemma NotCareful(sys: Sys)
    requires Enabled(sys, Mismatch()[2]) && sys.servers[1] == WithCV([C], 100)
    ensures !CarefulStep(sys, Mismatch()[2])
  {
    assert MyIndex(100, 1) == 0 && Live(WithCV([C], 100).cvs.slots, 0);
  }

  // ---- a full lock table ----

  function Name(k: nat): string { seq(k, i => 'a') }

  /** Creates of the locks named from k on, up to a full table. */
  function Creates(k: nat): seq<Action>
    decreases TABLE_SIZE - k
  {
    if k >= TABLE_SIZE then [] else [FromClient(1, C, Create(LockKind, Name(k), 0))] + Creates(k + 1)
  }

  ghost predicate Filled(s: Server, n: nat) {
    && n <= TABLE_SIZE && s.me == 1 && |s.locks.slots| == n && |s.locks.bits| == TABLE_SIZE
    && (forall i :: 0 <= i < n ==> s.locks.slots[i].Some? && s.locks.slots[i].value.name == Name(i))
    && (forall i :: 0 <= i < TABLE_SIZE ==> s.locks.bits[i] == (i < n))
  }

  lemma NotThere(s: Server, n: nat)
    requires Filled(s, n)
    ensures FindNamed(s.locks.slots, Name(n), 0) == -1
  {
    forall i | 0 <= i < n ensures Name(i) != Name(n) { NamesDiffer(i, n); }
  }

  lemma NamesDiffer(i: nat, j: nat)
    requires i != j
    ensures Name(i) != Name(j)
  {
    assert |Name(i)| == i && |Name(j)| == j;
  }

  lemma OneMore(s: Server, n: nat)
    requires Filled(s, n) && n < TABLE_SIZE
    ensures Filled(OnClient(s, {1}, C, Create(LockKind, Name(n), 0)).s, n + 1)
  {
    NoPeers();
    NotThere(s, n);
    assert !s.locks.bits[n];
    assert FirstClear(s.locks.bits, 0) == n;
  }

  lemma {:induction false} FillsUp(sys: Sys, k: nat)
    requires sys.up == {1} && 1 in sys.servers && Filled(sys.servers[1], k)
    ensures Run(sys, Creates(k))
    ensures var end := After(sys, Creates(k)); end.up == {1} && 1 in end.servers && Filled(end.servers[1], TABLE_SIZE)
    decreases TABLE_SIZE - k
  {
    hide Step, Enabled, OnClient, Filled;
    FilledBound(sys.servers[1], k);
    if k < TABLE_SIZE {
      var a := FromClient(1, C, Create(LockKind, Name(k), 0));
      StepAlone(sys, a.req);
      OneMore(sys.servers[1], k);
      FillsUp(Step(sys, a), k + 1);
      assert Creates(k)[0] == a && Creates(k)[1..] == Creates(k + 1);
    }
  }

  lemma FilledBound(s: Server, n: nat)
    requires Filled(s, n)
    ensures n <= TABLE_SIZE
  {
  }

  /** After a hundred creates the table is full, and the next client is told that its lock was made, with an
      identifier of machine 0. */
  lemma FullTableReached()
    ensures Initial(Alone()) && Run(Alone(), Creates(0))
    ensures var end := After(Alone(), Creates(0));
            var req := Create(LockKind, Name(TABLE_SIZE), 0);
            && 1 in end.servers && !HasRoom(end.servers[1].locks) && OwnerOf(99) == 0
            && OnClient(end.servers[1], {1}, C, req).out == [Issued(C, req), Answer(C, req, Created(true, 99))]
            && !OwnsKey(OnClient(end.servers[1], {1}, C, req).s, LockKind, req.name)
  {
    hide Run, After, Initial;
    AloneStarts();
    FillsUp(Alone(), 0);
    Refused(After(Alone(), Creates(0)).servers[1]);
  }

  lemma Refused(s: Server)
    requires Filled(s, TABLE_SIZE)
    ensures !HasRoom(s.locks)
    ensures var req := Create(LockKind, Name(TABLE_SIZE), 0);
            var e := OnClient(s, {1}, C, req);
            e.out == [Issued(C, req), Answer(C, req, Created(true, 99))] && !OwnsKey(e.s, LockKind, req.name)
  {
    NoPeers();
    NotThere(s, TABLE_SIZE);
    assert FirstClear(s.locks.bits, 0) == -1;
  }

  // ---- a lock destroyed more often than it was created ----

  /** A client makes a lock, takes it, destroys it twice, releases it and makes it once more. */
  function Overdraft(): seq<Request> {
    [Create(LockKind, "l", 0), Acquire(100), DestroyLock(100), DestroyLock(100), Release(100), Create(LockKind, "l", 0)]
  }

  function WithLock(count: int, busy: bool, owner: Client, marked: bool): Server {
    NewServer(1).(locks := Table([Some(Entry("l", count, LockData(busy, owner, [], marked)))], seq(TABLE_SIZE, i => i == 0)), nextID := 1)
  }

  lemma LockMade()
    ensures OnClient(NewServer(1), {1}, C, Create(LockKind, "l", 0)).s == WithLock(1, false, NOBODY, false)
  {
    NoPeers();
    var t := EmptyTable<LockData>();
    assert FirstClear(t.bits, 0) == 0;
    assert t.bits[0 := true] == seq(TABLE_SIZE, i => i == 0);
  }

  lemma LockSteps()
    ensures OnClient(WithLock(1, false, NOBODY, false), {1}, C, Acquire(100)).s == WithLock(1, true, C, false)
    ensures OnClient(WithLock(1, true, C, false), {1}, C, DestroyLock(100)).s == WithLock(0, true, C, true)
    ensures OnClient(WithLock(0, true, C, true), {1}, C, DestroyLock(100)).s == WithLock(-1, true, C, true)
    ensures OnClient(WithLock(-1, true, C, true), {1}, C, Release(100)).s == WithLock(-1, false, C, true)
    ensures OnClient(WithLock(-1, false, C, true), {1}, C, Create(LockKind, "l", 0)).s == WithLock(0, false, C, true)
  {
    assert MyIndex(100, 1) == 0;
  }

  /** The server after the requests of one client, one after the other. */
  function Handled(s: Server, reqs: seq<Request>): Server
    decreases |reqs|
  {
    if reqs == [] then s else Handled(OnClient(s, {1}, C, reqs[0]).s, reqs[1..])
  }

  function Asks(reqs: seq<Request>): seq<Action> {
    if reqs == [] then [] else [FromClient(1, C, reqs[0])] + Asks(reqs[1..])
  }

  lemma {:induction false} AloneRuns(sys: Sys, reqs: seq<Request>)
    requires sys.up == {1} && 1 in sys.servers
    ensures Run(sys, Asks(reqs)) && 1 in After(sys, Asks(reqs)).servers
    ensures After(sys, Asks(reqs)).servers[1] == Handled(sys.servers[1], reqs)
    decreases |reqs|
  {
    hide OnClient, Step, Enabled;
    if reqs != [] {
      StepAlone(sys, reqs[0]);
      AloneRuns(Step(sys, FromClient(1, C, reqs[0])), reqs[1..]);
      assert Asks(reqs)[1..] == Asks(reqs[1..]);
    }
  }

  /** The run is reached from the start, and leaves a lock that is free, marked for destruction and created as
      often as destroyed, but still there. */
  lemma OverdraftReached()
    ensures Initial(Alone()) && Run(Alone(), Asks(Overdraft())) && 1 in After(Alone(), Asks(Overdraft())).servers
    ensures After(Alone(), Asks(Overdraft())).servers[1].locks.slots == [Some(Entry("l", 0, LockData(false, C, [], true)))]
  {
    hide OnClient, Step, Enabled;
    AloneStarts();
    LockMade();
    LockSteps();
    AloneRuns(Alone(), Overdraft());
    var reqs := Overdraft();
    var s := WithLock(1, false, NOBODY, false);
    assert Handled(NewServer(1), reqs) == Handled(s, reqs[1..]);
    assert reqs[1..] == [Acquire(100), DestroyLock(100), DestroyLock(100), Release(100), Create(LockKind, "l", 0)];
    assert reqs[1..][1..] == reqs[2..] && reqs[2..][1..] == reqs[3..] && reqs[3..][1..] == reqs[4..];
    assert reqs[4..][1..] == reqs[5..] && reqs[5..][1..] == [];
    assert Handled(s, reqs[1..]) == Handled(WithLock(1, true, C, false), reqs[2..]);
    assert Handled(WithLock(1, true, C, false), reqs[2..]) == Handled(WithLock(0, true, C, true), reqs[3..]);
    assert Handled(WithLock(0, true, C, true), reqs[3..]) == Handled(WithLock(-1, true, C, true), reqs[4..]);
    assert Handled(WithLock(-1, true, C, true), reqs[4..]) == Handled(WithLock(-1, false, C, true), reqs[5..]);
    assert Handled(WithLock(-1, false, C, true), reqs[5..]) == Handled(WithLock(0, false, C, true), []);
  }
}
