/** The create counts of every server over every run of the service. */
module CreateCountsRun {
  import opened Options
  import opened Wire
  import opened Tables
  import opened Protocol
  import opened Network
  import opened Sends
  import opened CreateCounts

  lemma DoWaitBooked(s: Server, up: set<int>, i: int, lock: int, c: Client, req: Request)
    requires !req.Create?
    ensures Booked(s, DoWait(s, up, i, lock, c, req)) && NoDestroy(DoWait(s, up, i, lock, c, req).out)
  {
    hide Booked, IssueLock, SetCV, NoDestroy;
    NothingQuiet();
    var e := DoWait(s, up, i, lock, c, req);
    if e.s == s && e.out == [Answer(c, req, Status(false))] {
      BookedQuiet(s, e);
    } else {
      var d := s.cvs.slots[i].value.data;
      var next := CVData(d.q + [c], lock);
      SetCVBooked(s, i, next);
      IssueLockBooked(SetCV(s, i, next), up, c, Release(lock));
      ThenIssueBooked(s, SetCV(s, i, next), e, []);
      assert e.out + [] == e.out;
    }
  }

  lemma DoSignalBooked(s: Server, up: set<int>, i: int, lock: int, c: Client, req: Request)
    requires !req.Create?
    ensures Booked(s, DoSignal(s, up, i, lock, c, req)) && NoDestroy(DoSignal(s, up, i, lock, c, req).out)
  {
    hide Booked, IssueLock, SetCV, NoDestroy;
    var e := DoSignal(s, up, i, lock, c, req);
    if |e.out| == 1 && e.s == s && e.out[0].Answer? && e.out[0].to == req {
      BookedQuiet(s, e);
    } else {
      var d := s.cvs.slots[i].value.data;
      var woken := SetCV(s, i, CVData(d.q[1..], if |d.q| == 1 then -1 else d.waitingLock));
      SetCVBooked(s, i, CVData(d.q[1..], if |d.q| == 1 then -1 else d.waitingLock));
      IssueLockBooked(woken, up, d.q[0], Acquire(lock));
      ThenIssueBooked(s, woken, IssueLock(woken, up, d.q[0], Acquire(lock)), [Answer(c, req, Status(true))]);
    }
  }

  lemma {:induction false} WakeAllBooked(s: Server, up: set<int>, lock: int, q: seq<Client>)
    ensures Booked(s, WakeAll(s, up, lock, q)) && NoDestroy(WakeAll(s, up, lock, q).out)
    decreases |q|
  {
    hide Booked, IssueLock, NoDestroy;
    NothingQuiet();
    if q == [] {
      BookedQuiet(s, Eff(s, []));
    } else {
      var e := IssueLock(s, up, q[0], Acquire(lock));
      IssueLockBooked(s, up, q[0], Acquire(lock));
      WakeAllBooked(e.s, up, lock, q[1..]);
      BookedCompose(s, e, WakeAll(e.s, up, lock, q[1..]));
    }
  }

  lemma DoBroadcastBooked(s: Server, up: set<int>, i: int, lock: int, c: Client, req: Request)
    requires !req.Create?
    ensures Booked(s, DoBroadcast(s, up, i, lock, c, req)) && NoDestroy(DoBroadcast(s, up, i, lock, c, req).out)
  {
    hide Booked, WakeAll, SetCV, NoDestroy;
    var e := DoBroadcast(s, up, i, lock, c, req);
    if !Live(s.cvs.slots, i) {
      BookedQuiet(s, e);
    } else {
      var d := s.cvs.slots[i].value.data;
      var emptied := if d.q == [] then s else SetCV(s, i, CVData([], -1));
      SetCVBooked(s, i, CVData([], -1));
      NothingQuiet();
      BookedQuiet(s, Eff(s, []));
      WakeAllBooked(emptied, up, lock, d.q);
      ThenIssueBooked(s, emptied, WakeAll(emptied, up, lock, d.q), [Answer(c, req, Status(true))]);
    }
  }

  lemma DestroyCVBooked(s: Server, i: int, c: Client, req: Request)
    requires req.DestroyCV?
    ensures Booked(s, Eff(DoDestroyCV(s, i).s, [Ran(i, c, req)]))
  {
    var t := DoDestroyCV(s, i).s;
    assert [Ran(i, c, req)][1..] == [];
    forall kind, k: nat ensures Counted(s, Eff(t, [Ran(i, c, req)]), kind, k) {}
    forall k: nat, overdrawn | LockFine(s, k, overdrawn) ensures LockFine(t, k, overdrawn || Negative(t, k)) {}
  }

  lemma DestroyMVBooked(s: Server, i: int, c: Client, req: Request)
    requires req.DestroyMV?
    ensures Booked(s, Eff(DoDestroyMV(s, i).s, [Ran(i, c, req)]))
  {
    var t := DoDestroyMV(s, i).s;
    assert [Ran(i, c, req)][1..] == [];
    forall kind, k: nat ensures Counted(s, Eff(t, [Ran(i, c, req)]), kind, k) {}
    forall k: nat, overdrawn | LockFine(s, k, overdrawn) ensures LockFine(t, k, overdrawn || Negative(t, k)) {}
  }

  lemma SetBooked(s: Server, i: int, index: int, value: int, c: Client, req: Request)
    requires !req.Create?
    ensures Booked(s, DoSet(s, i, index, value, c, req)) && NoDestroy(DoSet(s, i, index, value, c, req).out)
  {
    var e := DoSet(s, i, index, value, c, req);
    assert AllQuiet(e.out);
    forall kind, k: nat ensures Counted(s, e, kind, k) { QuietMarks(e.out, s.me, kind, k); }
    forall k: nat, overdrawn | LockFine(s, k, overdrawn) ensures LockFine(e.s, k, overdrawn || Negative(e.s, k)) {}
  }

  lemma GetBooked(s: Server, i: int, index: int, c: Client, req: Request)
    requires !req.Create?
    ensures Booked(s, DoGet(s, i, index, c, req)) && NoDestroy(DoGet(s, i, index, c, req).out)
  {
    hide Booked;
    BookedQuiet(s, DoGet(s, i, index, c, req));
  }

  lemma DoBooked(s: Server, up: set<int>, i: int, c: Client, req: Request)
    requires !req.Create?
    ensures Booked(s, Do(s, up, i, c, req)) && (!Destroys(req) ==> NoDestroy(Do(s, up, i, c, req).out))
  {
    hide Booked, NoDestroy, DoLock, DoWait, DoSignal, DoBroadcast, DoSet, DoGet;
    match req
    case Acquire(_) => DoLockBooked(s, i, c, req);
    case Release(_) => DoLockBooked(s, i, c, req);
    case DestroyLock(_) => DoLockBooked(s, i, c, req);
    case Wait(_, lock) => DoWaitBooked(s, up, i, lock, c, req); RanBooked(s, i, c, req, DoWait(s, up, i, lock, c, req));
    case Signal(_, lock) => DoSignalBooked(s, up, i, lock, c, req); RanBooked(s, i, c, req, DoSignal(s, up, i, lock, c, req));
    case Broadcast(_, lock) => DoBroadcastBooked(s, up, i, lock, c, req); RanBooked(s, i, c, req, DoBroadcast(s, up, i, lock, c, req));
    case Set(_, index, value) => SetBooked(s, i, index, value, c, req); RanBooked(s, i, c, req, DoSet(s, i, index, value, c, req));
    case Get(_, index) => GetBooked(s, i, index, c, req); RanBooked(s, i, c, req, DoGet(s, i, index, c, req));
    case DestroyCV(_) => DestroyCVBooked(s, i, c, req); assert [Ran(i, c, req)] + DoDestroyCV(s, i).out == [Ran(i, c, req)];
    case DestroyMV(_) => DestroyMVBooked(s, i, c, req); assert [Ran(i, c, req)] + DoDestroyMV(s, i).out == [Ran(i, c, req)];
  }

  // ---- creates ----

  /** Find-or-insert gives one slot one more create; that slot is in range. */
  lemma CreateCounted<D>(t: Table<D>, name: string, initial: D)
    requires BitsOk(t)
    ensures var (u, i) := CreateNamed(t, name, initial);
            && BitsOk(u) && -1 <= i < TABLE_SIZE
            && (forall k :: k != i ==> CountIn(u, k) == CountIn(t, k) && (Live(u.slots, k) ==> u.slots[k] == t.slots[k]))
            && (i == -1 ==> u == t)
            && (i != -1 ==> Live(u.slots, i) && u.slots[i].value.count == (if Live(t.slots, i) then t.slots[i].value.count else 0) + 1)
  {
  }

  /** A create answers one client: with the identifier of the slot that got one more, or of none. */
  lemma CreateAnswer(s: Server, c: Client, req: Request, kind: Kind, k: nat)
    requires req.Create? && s.me >= 0 && AllBits(s)
    ensures var e := DoCreate(s, c, req);
            && |e.out| == 1 && e.out[0].Answer?
            && Made(e.out, s.me, kind, k) == (if Makes(e.out[0], s.me, kind, k) then 1 else 0) && Unmade(e.out, kind, k) == 0
  {
    hide AllBits, CreateNamed;
    var out := DoCreate(s, c, req).out;
    assert out[1..] == [];
  }

  lemma NotEncoded(me: int, k: nat)
    requires me >= 0
    ensures MyIndex(Encode(me, -1), me) != k || me == 0
  {
  }

  lemma DoCreateCounted(s: Server, c: Client, req: Request, kind: Kind, k: nat)
    requires req.Create? && s.me >= 0 && AllBits(s)
    ensures Counted(s, DoCreate(s, c, req), kind, k)
  {
    hide CreateNamed, BitsOk, MyIndex, Made, Unmade;
    CreateAnswer(s, c, req, kind, k);
    var size := req.size;
    match req.kind
    case LockKind =>
      CreateCounted(s.locks, req.name, LockData(false, NOBODY, [], false));
      var i := CreateNamed(s.locks, req.name, LockData(false, NOBODY, [], false)).1;
      if i != -1 { DecodeEncode(s.me, i, s.me); } else { NotEncoded(s.me, k); }
    case CVKind =>
      CreateCounted(s.cvs, req.name, CVData([], -1));
      var i := CreateNamed(s.cvs, req.name, CVData([], -1)).1;
      if i != -1 { DecodeEncode(s.me, i, s.me); }
    case MVKind =>
      CreateCounted(s.mvs, req.name, NewMV(size));
      var i := CreateNamed(s.mvs, req.name, NewMV(size)).1;
      if i != -1 { DecodeEncode(s.me, i, s.me); }
  }

  lemma CreateFine(s: Server, c: Client, req: Request)
    requires req.Create? && s.me >= 0 && AllBits(s)
    ensures AllBits(DoCreate(s, c, req).s) && StayFine(s, DoCreate(s, c, req).s)
  {
    hide BitsOk, Encode;
    CreateCounted(s.locks, req.name, LockData(false, NOBODY, [], false));
    CreateCounted(s.cvs, req.name, CVData([], -1));
    CreateCounted(s.mvs, req.name, NewMV(req.size));
    var t := DoCreate(s, c, req).s;
    forall k: nat, overdrawn | LockFine(s, k, overdrawn) ensures LockFine(t, k, overdrawn || Negative(t, k)) {}
    forall k: nat | MVFine(s, k) ensures MVFine(t, k) {}
  }

  lemma DoCreateBooked(s: Server, c: Client, req: Request)
    requires req.Create?
    ensures Booked(s, DoCreate(s, c, req)) && NoDestroy(DoCreate(s, c, req).out)
  {
    hide Counted, StayFine, AllBits, DoCreate;
    DoCreateFrame(s, c, req);
    if s.me >= 0 && AllBits(s) {
      CreateFine(s, c, req);
      forall kind, k: nat ensures Counted(s, DoCreate(s, c, req), kind, k) { DoCreateCounted(s, c, req, kind, k); }
    }
  }

  /** A change of the pending list, and a further effect. */
  lemma ThenPendingBooked(s: Server, a: Eff, t: Server, b: Eff)
    requires Booked(s, a) && SameTables(a.s, t) && Booked(t, b) && NoDestroy(a.out) && NoDestroy(b.out)
    ensures Booked(s, Eff(b.s, a.out + b.out)) && NoDestroy(a.out + b.out)
  {
    hide Booked, NoDestroy;
    NothingQuiet();
    BookedFrame(a.s, t, b, b.s, [], []);
    assert [] + b.out + [] == b.out;
    BookedCompose(s, a, b);
  }

  lemma {:induction false} AnswerNamedBooked(s: Server, kind: Kind, name: string)
    ensures Booked(s, AnswerNamed(s, kind, name)) && NoDestroy(AnswerNamed(s, kind, name).out)
    decreases |s.pending|
  {
    hide Booked, NoDestroy, DoCreate;
    NothingQuiet();
    var i := FindPendingNamed(s.pending, kind, name, 0);
    if i == -1 {
      BookedQuiet(s, Eff(s, []));
    } else {
      var e := DoCreate(s, s.pending[i].client, s.pending[i].req);
      var t := e.s.(pending := RemoveAt(s.pending, i));
      DoCreateBooked(s, s.pending[i].client, s.pending[i].req);
      DoCreateFrame(s, s.pending[i].client, s.pending[i].req);
      AnswerNamedBooked(t, kind, name);
      ThenPendingBooked(s, e, t, AnswerNamed(t, kind, name));
    }
  }

  // ---- messages ----

  lemma OnClientBooked(s: Server, up: set<int>, c: Client, req: Request)
    ensures Booked(s, OnClient(s, up, c, req))
  {
    hide Booked, NoDestroy, Do, DoCreate, Peers, MyIndex, Forward;
    var peers := Peers(up, s.me, 0);
    var t := s.(nextID := s.nextID + 1);
    ForwardBooked(s, peers, c, req);
    IssuedBooked(s, s, c, req, Forward(s, peers, c, req));
    if req.Create? {
      DoCreateBooked(s, c, req);
      DoCreateBooked(t, c, req);
      IssuedBooked(s, s, c, req, DoCreate(s, c, req));
      IssuedBooked(s, t, c, req, DoCreate(t, c, req));
    } else {
      var i := MyIndex(Target(req), s.me);
      DoBooked(s, up, i, c, req);
      DoBooked(t, up, i, c, req);
      IssuedBooked(s, s, c, req, Do(s, up, i, c, req));
      IssuedBooked(s, t, c, req, Do(t, up, i, c, req));
    }
  }

  /** One message sent before an effect. */
  lemma SendBooked(s: Server, e: Eff, dest: int, m: Msg)
    requires Booked(s, e)
    ensures Booked(s, Eff(e.s, [Send(dest, m)] + e.out))
  {
    hide Booked;
    NothingQuiet();
    BookedFrame(s, s, e, e.s, [Send(dest, m)], []);
    assert [Send(dest, m)] + e.out + [] == [Send(dest, m)] + e.out;
  }

  lemma OnAskBooked(s: Server, up: set<int>, from: int, m: Msg)
    requires m.Ask?
    ensures Booked(s, OnAsk(s, up, from, m))
  {
    hide Booked, Do, DoCreate, MyIndex, FindPendingNamed;
    var yes := Tell(m.requestID, m.client, m.req, true);
    var e := OnAsk(s, up, from, m);
    if m.req.Create? && OwnsKey(s, m.req.kind, m.req.name) {
      DoCreateBooked(s, m.client, m.req);
      SendBooked(s, DoCreate(s, m.client, m.req), from, yes);
    } else if !m.req.Create? && MyIndex(Target(m.req), s.me) != -1 {
      DoBooked(s, up, MyIndex(Target(m.req), s.me), m.client, m.req);
      SendBooked(s, Do(s, up, MyIndex(Target(m.req), s.me), m.client, m.req), from, yes);
    } else {
      BookedQuiet(s, e);
    }
  }

  lemma OnAllNoBooked(s: Server, up: set<int>, i: int, req: Request)
    requires 0 <= i < |s.pending| && SameTarget(s.pending[i].req, req)
    ensures Booked(s, OnAllNo(s, up, i, req))
  {
    hide Booked, NoDestroy, Do, DoCreate, AnswerNamed, OpCode;
    var p := s.pending[i];
    if req.Create? {
      var e := DoCreate(s, p.client, p.req);
      var t := e.s.(pending := RemoveAt(s.pending, i));
      DoCreateBooked(s, p.client, p.req);
      DoCreateFrame(s, p.client, p.req);
      AnswerNamedBooked(t, req.kind, req.name);
      ThenPendingBooked(s, e, t, AnswerNamed(t, req.kind, req.name));
    } else {
      var e := Do(s, up, Target(req), p.client, req);
      DoBooked(s, up, Target(req), p.client, req);
      NothingQuiet();
      BookedFrame(s, s, e, OnAllNo(s, up, i, req).s, [], []);
      assert [] + e.out + [] == e.out;
    }
  }

  lemma OnTellBooked(s: Server, up: set<int>, m: Msg)
    requires m.Tell?
    ensures Booked(s, OnTell(s, up, m))
  {
    hide Booked, NoDestroy, OnAllNo, DropNamed, FindPending;
    NothingQuiet();
    var e := OnTell(s, up, m);
    var i := FindPending(s.pending, m, 0);
    if i == -1 || m.yes {
      BookedQuiet(s, e);
    } else {
      var t := s.(pending := s.pending[i := s.pending[i].(noCount := s.pending[i].noCount + 1)]);
      BookedQuiet(s, Eff(t, []));
      if t.pending[i].noCount == t.pending[i].sentCount {
        OnAllNoBooked(t, up, i, m.req);
        BookedFrame(s, t, e, e.s, [], []);
        assert [] + e.out + [] == e.out;
      }
    }
  }

  // ---- every run ----

  /** What server i did, among what all the servers did. */
  function DoneAt(trace: seq<(int, Out)>, i: int): seq<Out> {
    if trace == [] then [] else (if trace[0].0 == i then [trace[0].1] else []) + DoneAt(trace[1..], i)
  }

  lemma {:induction false} DoneAtOne(me: int, out: seq<Out>, i: int)
    ensures DoneAt(At(me, out), i) == if i == me then out else []
  {
    if out != [] {
      assert ([(me, out[0])] + At(me, out[1..]))[1..] == At(me, out[1..]);
      DoneAtOne(me, out[1..], i);
    }
  }

  /** What the action adds to the trace, at server i. */
  function News(sys: Sys, a: Action, i: int): seq<Out>
    requires Enabled(sys, a)
  {
    var t := Step(sys, a).trace;
    if |sys.trace| <= |t| then DoneAt(t[|sys.trace|..], i) else []
  }

  lemma NewsAre(sys: Sys, a: Action, i: int, me: int, out: seq<Out>)
    requires Enabled(sys, a) && Step(sys, a).trace == sys.trace + At(me, out)
    ensures News(sys, a, i) == if i == me then out else []
  {
    hide At, Step;
    DoneAtOne(me, out, i);
    assert (sys.trace + At(me, out))[|sys.trace|..] == At(me, out);
  }

  /** Of one slot, since it was filled: creates less destroys, and whether that was ever negative. */
  datatype Account = Account(balance: int, overdrawn: bool)

  const CLOSED := Account(0, false)

  function Enter(acc: Account, live: bool, made: nat, unmade: nat): Account {
    var balance := acc.balance + made - unmade;
    if live then Account(balance, acc.overdrawn || balance < 0) else CLOSED
  }

  /** The account of slot k of server i after a run, kept from the trace; it is closed while the slot is empty. */
  function AccountOf(sys: Sys, acts: seq<Action>, i: int, kind: Kind, k: nat, acc: Account): Account
    requires Run(sys, acts)
    decreases |acts|
  {
    if acts == [] then acc
    else
      var next := Step(sys, acts[0]);
      var out := News(sys, acts[0], i);
      AccountOf(next, acts[1..], i, kind, k,
                Enter(acc, i in next.servers && Count(next.servers[i], kind, k).Some?, Made(out, i, kind, k), Unmade(out, kind, k)))
  }

  /** The account is right, and the entry is there for a reason. */
  ghost predicate Fits(s: Server, kind: Kind, k: nat, acc: Account) {
    && (match Count(s, kind, k) case Some(c) => c == acc.balance case None => acc == CLOSED)
    && (kind.LockKind? ==> LockFine(s, k, acc.overdrawn))
    && (kind.MVKind? ==> MVFine(s, k))
  }

  lemma EnterFits(s: Server, e: Eff, kind: Kind, k: nat, acc: Account)
    requires Counted(s, e, kind, k) && StayFine(s, e.s) && Fits(s, kind, k, acc)
    ensures Fits(e.s, kind, k, Enter(acc, Count(e.s, kind, k).Some?, Made(e.out, s.me, kind, k), Unmade(e.out, kind, k)))
  {
    hide Made, Unmade;
    assert kind.LockKind? ==> LockFine(e.s, k, acc.overdrawn || Negative(e.s, k));
  }

  ghost predicate AllReady(sys: Sys) { WellFormed(sys) && forall i :: i in sys.up ==> AllBits(sys.servers[i]) }

  lemma StepBooked(sys: Sys, a: Action, i: int)
    requires AllReady(sys) && Enabled(sys, a) && i in sys.up
    ensures var next := Step(sys, a);
            && next.up == sys.up && i in next.servers
            && AllBits(next.servers[i]) && StayFine(sys.servers[i], next.servers[i])
            && AllCounted(sys.servers[i], Eff(next.servers[i], News(sys, a, i)))
  {
    hide OnClient, OnAsk, OnTell, Post, At, AllBits, AllCounted, StayFine;
    match a
    case FromClient(j, c, req) =>
      var e := OnClient(sys.servers[j], sys.up, c, req);
      NewsAre(sys, a, i, j, e.out);
      OnClientBooked(sys.servers[j], sys.up, c, req);
      StillBooked(sys.servers[i]);
    case Deliver(from, j) =>
      var m := Chan(sys.chan, from, j)[0];
      var e := OnMsg(sys.servers[j], sys.up, from, m);
      NewsAre(sys, a, i, j, e.out);
      if m.Ask? { OnAskBooked(sys.servers[j], sys.up, from, m); } else { OnTellBooked(sys.servers[j], sys.up, m); }
      StillBooked(sys.servers[i]);
  }

  lemma StillBooked(s: Server)
    ensures s.me >= 0 && AllBits(s) ==> AllCounted(s, Eff(s, [])) && StayFine(s, s)
  {
    hide AllCounted, StayFine, AllBits;
    Unchanged(s);
  }

  lemma StepReady(sys: Sys, a: Action)
    requires AllReady(sys) && Enabled(sys, a)
    ensures AllReady(Step(sys, a)) && Step(sys, a).up == sys.up
  {
    hide Step, Enabled, AllBits, News, AllCounted, StayFine;
    StepWellFormed(sys, a);
    StepSame(sys, a);
    forall i | i in sys.up ensures AllBits(Step(sys, a).servers[i]) { StepBooked(sys, a, i); }
  }

  lemma StepSame(sys: Sys, a: Action)
    requires Enabled(sys, a)
    ensures Step(sys, a).up == sys.up
  {
  }

  lemma {:induction false} RunFits(sys: Sys, acts: seq<Action>, i: int, kind: Kind, k: nat, acc: Account)
    requires AllReady(sys) && Run(sys, acts) && i in sys.up && Fits(sys.servers[i], kind, k, acc)
    ensures AllReady(After(sys, acts)) && i in After(sys, acts).up
    ensures Fits(After(sys, acts).servers[i], kind, k, AccountOf(sys, acts, i, kind, k, acc))
    decreases |acts|
  {
    hide Step, Enabled, AllBits, News, StayFine, Fits, Enter, Made, Unmade, Count, Counted;
    if acts != [] {
      var next := Step(sys, acts[0]);
      StepReady(sys, acts[0]);
      StepBooked(sys, acts[0], i);
      EnterFits(sys.servers[i], Eff(next.servers[i], News(sys, acts[0], i)), kind, k, acc);
      RunFits(next, acts[1..], i, kind, k,
              Enter(acc, Count(next.servers[i], kind, k).Some?, Made(News(sys, acts[0], i), i, kind, k), Unmade(News(sys, acts[0], i), kind, k)));
    }
  }

  lemma InitialFits(sys: Sys, i: int, kind: Kind, k: nat)
    requires Initial(sys) && i in sys.up
    ensures AllReady(sys) && Fits(sys.servers[i], kind, k, CLOSED)
  {
  }

  /** Over every run the create count of a live slot is the creates answered with its identifier since it was
      filled, less the destroys run on it. A monitor variable is there while it has more creates than
      destroys; a lock whose creates were never outnumbered is gone when they are equal and it is free. */
  lemma CountsAreCreates(sys: Sys, acts: seq<Action>, i: int, kind: Kind, k: nat)
    requires Initial(sys) && Run(sys, acts) && i in sys.up && i in After(sys, acts).servers
    ensures var s := After(sys, acts).servers[i];
            var acc := AccountOf(sys, acts, i, kind, k, CLOSED);
            && Count(s, kind, k) in {None, Some(acc.balance)}
            && (kind.MVKind? && Live(s.mvs.slots, k) ==> acc.balance >= 1)
            && (kind.LockKind? && Live(s.locks.slots, k) && !acc.overdrawn ==>
                  acc.balance >= 0 && (!s.locks.slots[k].value.data.busy ==> acc.balance >= 1))
  {
    hide Step, Enabled, AllBits;
    InitialFits(sys, i, kind, k);
    RunFits(sys, acts, i, kind, k, CLOSED);
  }

  /** Whatever the next action is, an entry goes away in it only if its creates and destroys, with those of
      the action, are equal. */
  lemma GoneOnlyWhenEqual(sys: Sys, acts: seq<Action>, a: Action, i: int, kind: Kind, k: nat)
    requires Initial(sys) && Run(sys, acts) && i in sys.up && Enabled(After(sys, acts), a)
    requires i in After(sys, acts).servers && Count(After(sys, acts).servers[i], kind, k).Some?
    requires i in Step(After(sys, acts), a).servers && Count(Step(After(sys, acts), a).servers[i], kind, k).None?
    ensures var out := News(After(sys, acts), a, i);
            AccountOf(sys, acts, i, kind, k, CLOSED).balance + Made(out, i, kind, k) == Unmade(out, kind, k)
  {
    hide Step, Enabled, AllBits, News, StayFine, Count, Made, Unmade, AccountOf;
    InitialFits(sys, i, kind, k);
    RunFits(sys, acts, i, kind, k, CLOSED);
    StepBooked(After(sys, acts), a, i);
    assert Counted(After(sys, acts).servers[i], Eff(Step(After(sys, acts), a).servers[i], News(After(sys, acts), a, i)), kind, k);
  }

  /** What a destroy does in any reached state: the last of as many destroys as creates takes away a free
      lock, a condition variable nobody waits on, and every monitor variable; any other only counts. */
  lemma DestroyTakesAwayIff(sys: Sys, acts: seq<Action>, i: int, k: nat, c: Client, req: Request)
    requires Initial(sys) && Run(sys, acts) && i in sys.up && i in After(sys, acts).servers && Destroys(req)
    ensures var s := After(sys, acts).servers[i];
            var kind := if req.DestroyLock? then LockKind else if req.DestroyCV? then CVKind else MVKind;
            var balance := AccountOf(sys, acts, i, kind, k, CLOSED).balance;
            var after := Count(Do(s, sys.up, k, c, req).s, kind, k);
            Count(s, kind, k).Some? ==>
              && (after.None? <==> balance == 1 && (req.DestroyLock? ==> !s.locks.slots[k].value.data.busy)
                                                && (req.DestroyCV? ==> s.cvs.slots[k].value.data.q == []))
              && (after.Some? ==> after.value == balance - 1)
  {
    hide Step, Enabled, AllBits, AccountOf;
    var kind := if req.DestroyLock? then LockKind else if req.DestroyCV? then CVKind else MVKind;
    InitialFits(sys, i, kind, k);
    RunFits(sys, acts, i, kind, k, CLOSED);
  }

  /** What a release does in any reached state: it takes the lock away if and only if it is the holder's, nobody
      waits, and there were as many destroys as creates. With a destroy, this is the only time that is checked. */
  lemma ReleaseTakesAwayIff(sys: Sys, acts: seq<Action>, i: int, k: nat, c: Client, req: Request)
    requires Initial(sys) && Run(sys, acts) && i in sys.up && i in After(sys, acts).servers && req.Release?
    ensures var s := After(sys, acts).servers[i];
            Live(s.locks.slots, k) ==>
              var d := s.locks.slots[k].value.data;
              (Live(Do(s, sys.up, k, c, req).s.locks.slots, k) <==>
                 !(d.busy && d.owner == c && d.q == [] && AccountOf(sys, acts, i, LockKind, k, CLOSED).balance == 0))
  {
    hide Step, Enabled, AllBits, AccountOf;
    InitialFits(sys, i, LockKind, k);
    RunFits(sys, acts, i, LockKind, k, CLOSED);
  }
}
