/** Who waits with which lock, against what a server issues: the books that every operation keeps but a
    broadcast that names another lock than its waiters'. */
module WakeOrder {
  import opened Options
  import opened Wire
  import opened Tables
  import opened Bits
  import opened Protocol
  import opened Seqs
  import opened Routing
  import Sends
  import WaitService

  // ---- who waits with which lock ----

  function Share(e: Option<Entry<CVData>>, x: int, c: Client): nat {
    if e.Some? && e.value.data.waitingLock == x then Times(e.value.data.q, c) else 0
  }

  /** How often the client waits, in the queues of a CV table, to reacquire lock x. */
  function WaitsWith(slots: seq<Option<Entry<CVData>>>, x: int, c: Client): nat {
    if slots == [] then 0 else Share(slots[0], x, c) + WaitsWith(slots[1..], x, c)
  }

  lemma {:induction false} WaitsAt(slots: seq<Option<Entry<CVData>>>, i: int, e: Option<Entry<CVData>>, x: int, c: Client)
    requires 0 <= i < |slots|
    ensures WaitsWith(slots[i := e], x, c) + Share(slots[i], x, c) == WaitsWith(slots, x, c) + Share(e, x, c)
  {
    if i > 0 {
      WaitsAt(slots[1..], i - 1, e, x, c);
      assert slots[i := e][1..] == slots[1..][i - 1 := e];
    } else {
      assert slots[i := e][1..] == slots[1..];
    }
  }

  lemma {:induction false} WaitsPush(slots: seq<Option<Entry<CVData>>>, e: Option<Entry<CVData>>, x: int, c: Client)
    ensures WaitsWith(slots + [e], x, c) == WaitsWith(slots, x, c) + Share(e, x, c)
  {
    if slots == [] {
      assert slots + [e] == [e] && [e][1..] == [];
    } else {
      assert (slots + [e])[0] == slots[0] && (slots + [e])[1..] == slots[1..] + [e];
      WaitsPush(slots[1..], e, x, c);
    }
  }

  /** There is a waiting lock exactly while someone waits. */
  ghost predicate CVOk(d: CVData) { d.waitingLock >= -1 && (d.waitingLock == -1 <==> d.q == []) }

  ghost predicate CVsOk(t: Table<CVData>) {
    forall i :: Live(t.slots, i) ==> CVOk(t.slots[i].value.data)
  }

  // ---- what is issued ----

  function Acquires(js: seq<Job>, x: int, c: Client): nat { Times(js, JobOf(c, Acquire(x))) }

  function Releases(js: seq<Job>, x: int, c: Client): nat { Times(js, JobOf(c, Release(x))) }

  /** What was issued for the owner of a lock. */
  function IssuedJobs(out: seq<Out>, x: int): seq<Job> { Pick(out, IssuedFor(OwnerOf(x))) }

  lemma {:induction false} NoJobs(out: seq<Out>, x: int)
    requires WaitService.NoIssue(out)
    ensures IssuedJobs(out, x) == []
  {
    if out != [] { NoJobs(out[1..], x); }
  }

  lemma AppendJobs(a: seq<Out>, b: seq<Out>, x: int)
    ensures IssuedJobs(a + b, x) == IssuedJobs(a, x) + IssuedJobs(b, x)
  {
    PickAppend(a, b, IssuedFor(OwnerOf(x)));
  }

  lemma CountAppend(a: seq<Job>, b: seq<Job>, x: int, c: Client)
    ensures Acquires(a + b, x, c) == Acquires(a, x, c) + Acquires(b, x, c)
    ensures Releases(a + b, x, c) == Releases(a, x, c) + Releases(b, x, c)
  {
    TimesAppend(a, b, JobOf(c, Acquire(x)));
    TimesAppend(a, b, JobOf(c, Release(x)));
  }

  lemma OneJob(c: Client, req: Request, x: int, d: Client)
    requires x >= 0
    ensures Acquires(IssuedJobs([Issued(c, req)], x), x, d) == if c == d && req == Acquire(x) then 1 else 0
    ensures Releases(IssuedJobs([Issued(c, req)], x), x, d) == if c == d && req == Release(x) then 1 else 0
  {
    hide OwnerOf;
    var js := Look(Issued(c, req), IssuedFor(OwnerOf(x)));
    PickOne(Issued(c, req), IssuedFor(OwnerOf(x)));
    assert IssuedJobs([Issued(c, req)], x) == js;
    if js != [] {
      assert js[1..] == [];
      forall job ensures Times(js, job) == if JobOf(c, req) == job then 1 else 0 {}
    }
  }

  /** The waiters with lock x change by what is issued in their names: up by releases, or down by
      acquires. */
  ghost predicate Balance(before: Table<CVData>, after: Table<CVData>, js: seq<Job>, x: int, c: Client) {
    WaitsWith(after.slots, x, c) + Acquires(js, x, c) == WaitsWith(before.slots, x, c) + Releases(js, x, c)
  }

  /** Never both an acquire and a release of a lock for one client. */
  ghost predicate OneWay(out: seq<Out>) {
    forall x, c :: x >= 0 ==> Acquires(IssuedJobs(out, x), x, c) == 0 || Releases(IssuedJobs(out, x), x, c) == 0
  }

  ghost predicate AllBalance(before: Table<CVData>, after: Table<CVData>, out: seq<Out>) {
    forall x, c :: x >= 0 ==> Balance(before, after, IssuedJobs(out, x), x, c)
  }

  /** The books balance for every lock and client, exactly if `ok`. */
  ghost predicate Accounts(before: Table<CVData>, after: Table<CVData>, out: seq<Out>, ok: bool) {
    CVsOk(after) && OneWay(out) && (ok <==> AllBalance(before, after, out))
  }

  ghost predicate SameWaits(before: Table<CVData>, after: Table<CVData>) {
    CVsOk(after) && forall x, c :: x >= 0 ==> WaitsWith(after.slots, x, c) == WaitsWith(before.slots, x, c)
  }

  lemma QuietAccounts(before: Table<CVData>, after: Table<CVData>, out: seq<Out>)
    requires SameWaits(before, after) && WaitService.NoIssue(out)
    ensures Accounts(before, after, out, true)
  {
    hide WaitsWith, IssuedJobs;
    forall x ensures IssuedJobs(out, x) == [] { NoJobs(out, x); }
  }

  lemma PadAccounts(before: Table<CVData>, after: Table<CVData>, pre: seq<Out>, out: seq<Out>, post: seq<Out>, ok: bool)
    requires Accounts(before, after, out, ok) && WaitService.NoIssue(pre) && WaitService.NoIssue(post)
    ensures Accounts(before, after, pre + out + post, ok)
  {
    hide WaitsWith, IssuedJobs, WaitService.NoIssue, Balance;
    forall x ensures IssuedJobs(pre + out + post, x) == IssuedJobs(out, x) {
      NoJobs(pre, x);
      NoJobs(post, x);
      AppendJobs(pre + out, post, x);
      AppendJobs(pre, out, x);
    }
  }

  // ---- the operations ----

  lemma IssueLockJobs(s: Server, up: set<int>, c: Client, req: Request, x: int, d: Client)
    requires (req.Acquire? || req.Release?) && x >= 0
    ensures var js := IssuedJobs(IssueLock(s, up, c, req).out, x);
            && Acquires(js, x, d) == (if c == d && req == Acquire(x) then 1 else 0)
            && Releases(js, x, d) == (if c == d && req == Release(x) then 1 else 0)
  {
    hide IssueLock, IssuedJobs, WaitService.NoIssue;
    WaitService.IssueLockShape(s, up, c, req);
    var out := IssueLock(s, up, c, req).out;
    assert out == [Issued(c, req)] + out[1..];
    AppendJobs([Issued(c, req)], out[1..], x);
    NoJobs(out[1..], x);
    OneJob(c, req, x, d);
    assert IssuedJobs(out, x) == IssuedJobs([Issued(c, req)], x);
  }

  /** The same balance for one queue. */
  ghost predicate SlotBalance(before: Option<Entry<CVData>>, after: Option<Entry<CVData>>, js: seq<Job>, x: int, c: Client) {
    && Share(after, x, c) + Acquires(js, x, c) == Share(before, x, c) + Releases(js, x, c)
    && (Acquires(js, x, c) == 0 || Releases(js, x, c) == 0)
  }

  /** One queue changed by one operation. */
  lemma SetAccounts(t: Table<CVData>, i: int, d: CVData, out: seq<Out>)
    requires Live(t.slots, i) && CVsOk(t) && CVOk(d)
    requires forall x, c :: x >= 0 ==> SlotBalance(t.slots[i], Some(t.slots[i].value.(data := d)), IssuedJobs(out, x), x, c)
    ensures Accounts(t, Update(t, i, t.slots[i].value.(data := d)), out, true)
  {
    hide WaitsWith, IssuedJobs, Share, Acquires, Releases;
    var u := Update(t, i, t.slots[i].value.(data := d));
    forall x, c | x >= 0
      ensures Balance(t, u, IssuedJobs(out, x), x, c)
      ensures Acquires(IssuedJobs(out, x), x, c) == 0 || Releases(IssuedJobs(out, x), x, c) == 0
    {
      WaitsAt(t.slots, i, u.slots[i], x, c);
      assert SlotBalance(t.slots[i], u.slots[i], IssuedJobs(out, x), x, c);
    }
  }

  lemma DoWaitAccounts(s: Server, up: set<int>, i: int, lock: int, c: Client, req: Request)
    requires CVsOk(s.cvs) && lock >= 0
    ensures Accounts(s.cvs, DoWait(s, up, i, lock, c, req).s.cvs, DoWait(s, up, i, lock, c, req).out, true)
  {
    hide IssueLock, Accounts, IssuedJobs, Acquires, Releases;
    if DoWait(s, up, i, lock, c, req) == Eff(s, [Answer(c, req, Status(false))]) {
      QuietAccounts(s.cvs, s.cvs, [Answer(c, req, Status(false))]);
    } else {
      var d := s.cvs.slots[i].value.data;
      var t := SetCV(s, i, CVData(d.q + [c], lock));
      WaitService.IssueLockShape(t, up, c, Release(lock));
      var out := IssueLock(t, up, c, Release(lock)).out;
      forall x, e | x >= 0 ensures SlotBalance(s.cvs.slots[i], t.cvs.slots[i], IssuedJobs(out, x), x, e) {
        IssueLockJobs(t, up, c, Release(lock), x, e);
        TimesPush(d.q, c, e);
      }
      SetAccounts(s.cvs, i, CVData(d.q + [c], lock), out);
    }
  }

  lemma LeaveShare(v: Entry<CVData>, x: int, c: Client)
    requires v.data.q != [] && v.data.waitingLock != -1 && x >= 0
    ensures var n := CVData(v.data.q[1..], if |v.data.q| == 1 then -1 else v.data.waitingLock);
            Share(Some(v.(data := n)), x, c) + (if v.data.q[0] == c && v.data.waitingLock == x then 1 else 0) == Share(Some(v), x, c)
  {
  }

  lemma DoSignalAccounts(s: Server, up: set<int>, i: int, lock: int, c: Client, req: Request)
    requires CVsOk(s.cvs)
    ensures Accounts(s.cvs, DoSignal(s, up, i, lock, c, req).s.cvs, DoSignal(s, up, i, lock, c, req).out, true)
  {
    hide IssueLock, Accounts, IssuedJobs, Acquires, Releases, Share;
    QuietAccounts(s.cvs, s.cvs, [Answer(c, req, Status(false))]);
    QuietAccounts(s.cvs, s.cvs, [Answer(c, req, Status(true))]);
    if Live(s.cvs.slots, i) && s.cvs.slots[i].value.data.q != [] && s.cvs.slots[i].value.data.waitingLock == lock {
      var d := s.cvs.slots[i].value.data;
      var n := CVData(d.q[1..], if |d.q| == 1 then -1 else lock);
      var t := SetCV(s, i, n);
      var e := IssueLock(t, up, d.q[0], Acquire(lock));
      WaitService.IssueLockShape(t, up, d.q[0], Acquire(lock));
      assert t.cvs.slots[i] == Some(s.cvs.slots[i].value.(data := n));
      forall x, f | x >= 0 ensures SlotBalance(s.cvs.slots[i], t.cvs.slots[i], IssuedJobs(e.out, x), x, f) {
        IssueLockJobs(t, up, d.q[0], Acquire(lock), x, f);
        LeaveShare(s.cvs.slots[i].value, x, f);
      }
      SetAccounts(s.cvs, i, n, e.out);
      PadAccounts(s.cvs, t.cvs, [], e.out, [Answer(c, req, Status(true))], true);
      assert [] + e.out == e.out;
    }
  }

  lemma {:induction false} WakeAllJobs(s: Server, up: set<int>, lock: int, q: seq<Client>, x: int, c: Client)
    requires x >= 0
    ensures var js := IssuedJobs(WakeAll(s, up, lock, q).out, x);
            Releases(js, x, c) == 0 && Acquires(js, x, c) == if lock == x then Times(q, c) else 0
    decreases |q|
  {
    hide IssueLock, IssuedJobs, Acquires, Releases;
    if q == [] {
      NoJobs([], x);
      NoneCounted(x, c);
    } else {
      var e := IssueLock(s, up, q[0], Acquire(lock));
      var rest := WakeAll(e.s, up, lock, q[1..]);
      IssueLockJobs(s, up, q[0], Acquire(lock), x, c);
      WakeAllJobs(e.s, up, lock, q[1..], x, c);
      AppendJobs(e.out, rest.out, x);
      CountAppend(IssuedJobs(e.out, x), IssuedJobs(rest.out, x), x, c);
    }
  }

  lemma NoneCounted(x: int, c: Client)
    ensures Acquires([], x, c) == 0 && Releases([], x, c) == 0
  {
  }

  /** Waiters who leave without an acquire of their own lock upset the books. */
  lemma LeftBehind(t: Table<CVData>, i: int, out: seq<Out>)
    requires Live(t.slots, i) && t.slots[i].value.data.q != [] && t.slots[i].value.data.waitingLock >= 0
    requires var d := t.slots[i].value.data;
             var js := IssuedJobs(out, d.waitingLock); Acquires(js, d.waitingLock, d.q[0]) == 0 && Releases(js, d.waitingLock, d.q[0]) == 0
    ensures !AllBalance(t, Update(t, i, t.slots[i].value.(data := CVData([], -1))), out)
  {
    hide IssuedJobs, Acquires, Releases, WaitsWith;
    var d := t.slots[i].value.data;
    var u := Update(t, i, t.slots[i].value.(data := CVData([], -1)));
    WaitsAt(t.slots, i, u.slots[i], d.waitingLock, d.q[0]);
    assert Share(t.slots[i], d.waitingLock, d.q[0]) > 0 && Share(u.slots[i], d.waitingLock, d.q[0]) == 0;
    assert !Balance(t, u, IssuedJobs(out, d.waitingLock), d.waitingLock, d.q[0]);
  }

  /** A broadcast keeps the books if and only if it names the lock of the waiters it finds. */
  lemma DoBroadcastAccounts(s: Server, up: set<int>, i: int, lock: int, c: Client, req: Request)
    requires CVsOk(s.cvs) && req.Broadcast? && req.lock == lock
    ensures Accounts(s.cvs, DoBroadcast(s, up, i, lock, c, req).s.cvs, DoBroadcast(s, up, i, lock, c, req).out, Careful(s, i, req))
  {
    hide IssueLock, Accounts, IssuedJobs, Acquires, Releases, WakeAll;
    QuietAccounts(s.cvs, s.cvs, [Answer(c, req, Status(false))]);
    if Live(s.cvs.slots, i) {
      var d := s.cvs.slots[i].value.data;
      var t := if d.q == [] then s else SetCV(s, i, CVData([], -1));
      var e := WakeAll(t, up, lock, d.q);
      WaitService.WakeAllShape(t, up, lock, d.q);
      assert t.cvs == Update(s.cvs, i, s.cvs.slots[i].value.(data := CVData([], -1))) by {
        assert s.cvs.slots[i := s.cvs.slots[i]] == s.cvs.slots;
        assert d.q == [] ==> d == CVData([], -1);
      }
      forall x, f | x >= 0 ensures Releases(IssuedJobs(e.out, x), x, f) == 0 { WakeAllJobs(t, up, lock, d.q, x, f); }
      BroadcastKeeps(s, t, i, e.out);
      if Careful(s, i, req) {
        var emptied := Some(s.cvs.slots[i].value.(data := CVData([], -1)));
        assert t.cvs.slots[i] == emptied;
        forall x, f | x >= 0 ensures SlotBalance(s.cvs.slots[i], emptied, IssuedJobs(e.out, x), x, f) {
          WakeAllJobs(t, up, lock, d.q, x, f);
        }
        SetAccounts(s.cvs, i, CVData([], -1), e.out);
      } else {
        WakeAllJobs(t, up, lock, d.q, d.waitingLock, d.q[0]);
        LeftBehind(s.cvs, i, e.out);
      }
      PadAccounts(s.cvs, t.cvs, [], e.out, [Answer(c, req, Status(true))], Careful(s, i, req));
      assert [] + e.out == e.out;
    }
  }

  lemma BroadcastKeeps(s: Server, t: Server, i: int, out: seq<Out>)
    requires OneWay(out) && CVsOk(s.cvs) && Live(s.cvs.slots, i) && t.cvs == Update(s.cvs, i, s.cvs.slots[i].value.(data := CVData([], -1)))
    ensures CVsOk(t.cvs)
    ensures !AllBalance(s.cvs, t.cvs, out) ==> Accounts(s.cvs, t.cvs, out, false)
  {
    hide AllBalance, OneWay;
  }

  lemma DoDestroyCVAccounts(s: Server, i: int)
    requires CVsOk(s.cvs)
    ensures Accounts(s.cvs, DoDestroyCV(s, i).s.cvs, DoDestroyCV(s, i).out, true)
  {
    hide WaitsWith;
    if Live(s.cvs.slots, i) {
      var v := s.cvs.slots[i].value;
      forall x, c ensures WaitsWith(DoDestroyCV(s, i).s.cvs.slots, x, c) == WaitsWith(s.cvs.slots, x, c) {
        WaitsAt(s.cvs.slots, i, None, x, c);
        WaitsAt(s.cvs.slots, i, Some(v.(count := v.count - 1)), x, c);
      }
    }
    QuietAccounts(s.cvs, DoDestroyCV(s, i).s.cvs, []);
  }

  /** A broadcast that finds waiters in the slot names the lock they wait with. */
  predicate Careful(s: Server, i: int, req: Request) {
    req.Broadcast? && Live(s.cvs.slots, i) && s.cvs.slots[i].value.data.q != [] ==> s.cvs.slots[i].value.data.waitingLock == req.lock
  }

  /** The clients' system calls refuse negative identifiers. */
  predicate NamesLock(req: Request) { req.Wait? ==> req.lock >= 0 }

  lemma DoPlainAccounts(s: Server, up: set<int>, i: int, c: Client, req: Request)
    requires CVsOk(s.cvs) && (req.Acquire? || req.Release? || req.DestroyLock? || req.Set? || req.Get? || req.DestroyMV?)
    ensures WaitService.NoIssue(Do(s, up, i, c, req).out) && Do(s, up, i, c, req).s.cvs == s.cvs
  {
  }

  lemma DoAccounts(s: Server, up: set<int>, i: int, c: Client, req: Request)
    requires !req.Create? && CVsOk(s.cvs) && NamesLock(req)
    ensures Accounts(s.cvs, Do(s, up, i, c, req).s.cvs, Do(s, up, i, c, req).out, Careful(s, i, req))
    ensures req.Acquire? || req.Release? ==> WaitService.NoIssue(Do(s, up, i, c, req).out)
  {
    hide DoWait, DoSignal, DoBroadcast, DoDestroyCV, DoLock, DoSet, DoGet, DoDestroyMV, Accounts;
    var e := Do(s, up, i, c, req);
    if req.Wait? || req.Signal? || req.Broadcast? || req.DestroyCV? {
      match req {
        case Wait(_, lock) => DoWaitAccounts(s, up, i, lock, c, req);
        case Signal(_, lock) => DoSignalAccounts(s, up, i, lock, c, req);
        case Broadcast(_, lock) => DoBroadcastAccounts(s, up, i, lock, c, req);
        case DestroyCV(_) => DoDestroyCVAccounts(s, i);
      }
      PadAccounts(s.cvs, e.s.cvs, [Ran(i, c, req)], e.out[1..], [], Careful(s, i, req));
      assert [Ran(i, c, req)] + e.out[1..] + [] == e.out;
    } else {
      DoPlainAccounts(s, up, i, c, req);
      QuietAccounts(s.cvs, e.s.cvs, e.out);
    }
  }

  // ---- creates ----

  lemma DoCreateWaits(s: Server, c: Client, req: Request)
    requires req.Create? && CVsOk(s.cvs) && TableOk(s.cvs)
    ensures SameWaits(s.cvs, DoCreate(s, c, req).s.cvs)
  {
    hide WaitsWith;
    if req.kind == CVKind {
      var t := s.cvs;
      var u := DoCreate(s, c, req).s.cvs;
      FindWithinVector(t);
      var j := FindNamed(t.slots, req.name, 0);
      var i := FirstClear(t.bits, 0);
      var new' := Some(Entry(req.name, 1, CVData([], -1)));
      forall x, d | x >= 0 ensures WaitsWith(u.slots, x, d) == WaitsWith(t.slots, x, d) {
        if j != -1 { WaitsAt(t.slots, j, Some(t.slots[j].value.(count := t.slots[j].value.count + 1)), x, d); }
        else if i == |t.slots| { WaitsPush(t.slots, new', x, d); }
        else if i != -1 { WaitsAt(t.slots, i, new', x, d); }
      }
    }
  }

  lemma DoCreateTable(s: Server, c: Client, req: Request)
    requires req.Create? && TableOk(s.cvs)
    ensures TableOk(DoCreate(s, c, req).s.cvs)
  {
    hide TableOk;
    CreateNamedOk(s.cvs, req.name, CVData([], -1));
  }

  lemma {:induction false} AnswerNamedWaits(s: Server, kind: Kind, name: string)
    requires CVsOk(s.cvs) && TableOk(s.cvs)
    ensures SameWaits(s.cvs, AnswerNamed(s, kind, name).s.cvs)
    decreases |s.pending|
  {
    hide DoCreate, TableOk;
    var i := FindPendingNamed(s.pending, kind, name, 0);
    if i != -1 {
      var p := s.pending[i];
      DoCreateWaits(s, p.client, p.req);
      DoCreateTable(s, p.client, p.req);
      Sends.DoCreateFrame(s, p.client, p.req);
      AnswerNamedWaits(DoCreate(s, p.client, p.req).s.(pending := RemoveAt(s.pending, i)), kind, name);
    }
  }

  // ---- messages ----

  lemma ForwardAccounts(s: Server, peers: seq<int>, c: Client, req: Request)
    requires CVsOk(s.cvs)
    ensures Accounts(s.cvs, s.cvs, Forward(s, peers, c, req).out, true) && WaitService.NoIssue(Forward(s, peers, c, req).out)
  {
    hide Accounts;
    WaitService.SendsIssueNothing(peers, Ask(s.nextID, c, req));
    QuietAccounts(s.cvs, s.cvs, Forward(s, peers, c, req).out);
  }

  lemma CreateAccounts(s: Server, c: Client, req: Request)
    requires req.Create? && CVsOk(s.cvs) && TableOk(s.cvs)
    ensures Accounts(s.cvs, DoCreate(s, c, req).s.cvs, DoCreate(s, c, req).out, true)
  {
    hide Accounts, DoCreate, TableOk;
    DoCreateWaits(s, c, req);
    Sends.DoCreateFrame(s, c, req);
    QuietAccounts(s.cvs, DoCreate(s, c, req).s.cvs, DoCreate(s, c, req).out);
  }

  /** What the server would run of a request that arrives names the waiters' lock. */
  predicate CarefulRequest(s: Server, req: Request) { req.Create? || Careful(s, MyIndex(Target(req), s.me), req) }

  /** A client's request: what it asks for is issued first. */
  lemma OnClientAccounts(s: Server, up: set<int>, c: Client, req: Request)
    requires CVsOk(s.cvs) && TableOk(s.cvs) && NamesLock(req)
    ensures var e := OnClient(s, up, c, req);
            && e.out != [] && e.out[0] == Issued(c, req) && Accounts(s.cvs, e.s.cvs, e.out[1..], CarefulRequest(s, req))
            && (req.Acquire? || req.Release? ==> WaitService.NoIssue(e.out[1..]))
  {
    hide Accounts, DoCreate, TableOk, Do, Peers, MyIndex, WaitService.NoIssue;
    var e := OnClient(s, up, c, req);
    var peers := Peers(up, s.me, 0);
    var t := s.(nextID := s.nextID + 1);
    ForwardAccounts(s, peers, c, req);
    if req.Create? {
      CreateAccounts(s, c, req);
      CreateAccounts(t, c, req);
    } else {
      DoAccounts(s, up, MyIndex(Target(req), s.me), c, req);
      DoAccounts(t, up, MyIndex(Target(req), s.me), c, req);
      NotLiveIsCareful(s, req);
    }
    assert e.out[1..] == (if req.Create? then
        if OwnsKey(s, req.kind, req.name) then DoCreate(s, c, req) else if peers == [] then DoCreate(t, c, req) else Forward(s, peers, c, req)
      else if MyIndex(Target(req), s.me) != -1 then Do(s, up, MyIndex(Target(req), s.me), c, req)
      else if peers == [] then Do(t, up, MyIndex(Target(req), s.me), c, req) else Forward(s, peers, c, req)).out;
  }

  lemma NotLiveIsCareful(s: Server, req: Request)
    ensures Careful(s, -1, req)
  {
  }

  lemma OnAskAccounts(s: Server, up: set<int>, from: int, m: Msg)
    requires m.Ask? && CVsOk(s.cvs) && TableOk(s.cvs) && NamesLock(m.req)
    ensures Accounts(s.cvs, OnAsk(s, up, from, m).s.cvs, OnAsk(s, up, from, m).out, CarefulRequest(s, m.req))
  {
    hide Accounts, DoCreate, TableOk, Do, MyIndex, FindPendingNamed;
    var e := OnAsk(s, up, from, m);
    if m.req.Create? && OwnsKey(s, m.req.kind, m.req.name) {
      var f := DoCreate(s, m.client, m.req);
      CreateAccounts(s, m.client, m.req);
      PadAccounts(s.cvs, f.s.cvs, [e.out[0]], f.out, [], true);
      assert e.out == [e.out[0]] + f.out + [];
    } else if !m.req.Create? && MyIndex(Target(m.req), s.me) != -1 {
      var f := Do(s, up, MyIndex(Target(m.req), s.me), m.client, m.req);
      DoAccounts(s, up, MyIndex(Target(m.req), s.me), m.client, m.req);
      PadAccounts(s.cvs, f.s.cvs, [e.out[0]], f.out, [], Careful(s, MyIndex(Target(m.req), s.me), m.req));
      assert e.out == [e.out[0]] + f.out + [];
    } else {
      NotLiveIsCareful(s, m.req);
      QuietAccounts(s.cvs, s.cvs, e.out);
    }
  }

  lemma OnAllNoAccounts(s: Server, up: set<int>, i: int, req: Request)
    requires 0 <= i < |s.pending| && SameTarget(s.pending[i].req, req) && CVsOk(s.cvs) && TableOk(s.cvs) && NamesLock(req)
    ensures Accounts(s.cvs, OnAllNo(s, up, i, req).s.cvs, OnAllNo(s, up, i, req).out, req.Create? || Careful(s, Target(req), req))
  {
    hide Accounts, DoCreate, TableOk, Do, OpCode, AnswerNamed;
    var p := s.pending[i];
    if req.Create? {
      var e := DoCreate(s, p.client, p.req);
      var t := e.s.(pending := RemoveAt(s.pending, i));
      DoCreateWaits(s, p.client, p.req);
      DoCreateTable(s, p.client, p.req);
      Sends.DoCreateFrame(s, p.client, p.req);
      AnswerNamedWaits(t, req.kind, req.name);
      Sends.AnswerNamedFrame(t, req.kind, req.name);
      QuietAccounts(s.cvs, AnswerNamed(t, req.kind, req.name).s.cvs, e.out + AnswerNamed(t, req.kind, req.name).out);
    } else {
      DoAccounts(s, up, Target(req), p.client, req);
    }
  }

  /** The reply is the last NO to a pending request of this server, which then runs it. */
  predicate IsLastNo(s: Server, m: Msg)
    requires m.Tell?
  {
    var k := FindPending(s.pending, m, 0);
    k != -1 && !m.yes && s.pending[k].noCount + 1 == s.pending[k].sentCount
  }

  /** Only the last NO makes a reply run anything, on the slot of the identifier's own number. */
  predicate CarefulReply(s: Server, m: Msg)
    requires m.Tell?
  {
    IsLastNo(s, m) && !m.req.Create? ==> Careful(s, Target(m.req), m.req)
  }

  lemma OnTellAccounts(s: Server, up: set<int>, m: Msg)
    requires m.Tell? && CVsOk(s.cvs) && TableOk(s.cvs) && NamesLock(m.req)
    ensures Accounts(s.cvs, OnTell(s, up, m).s.cvs, OnTell(s, up, m).out, CarefulReply(s, m))
  {
    hide Accounts, TableOk, OnAllNo, FindPending, DropNamed;
    var i := FindPending(s.pending, m, 0);
    QuietAccounts(s.cvs, s.cvs, []);
    if i != -1 && !m.yes {
      var counted := s.(pending := s.pending[i := s.pending[i].(noCount := s.pending[i].noCount + 1)]);
      if counted.pending[i].noCount == counted.pending[i].sentCount { OnAllNoAccounts(counted, up, i, m.req); }
    }
  }
}
