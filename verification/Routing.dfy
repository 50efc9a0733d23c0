/** Who executes a request that carries an identifier: every outgoing effect of a server read as
    sequences of jobs. */
module Routing {
  import opened Wire
  import opened Tables
  import opened Protocol
  import opened Sends

  /** One execution of a request for a client on a slot. */
  datatype Job = Job(slot: int, client: Client, req: Request)

  /** The request carries an identifier that machine o issued. */
  predicate ForOwner(req: Request, o: int) {
    !req.Create? && Target(req) >= 0 && OwnerOf(Target(req)) == o
  }

  function JobOf(c: Client, req: Request): Job
    requires !req.Create?
  {
    Job(Target(req) % TABLE_SIZE, c, req)
  }

  /** What to read off a server's outputs, about jobs for owner o: the requests it took on, the
      requests it asked o for, the YES replies it gave to j, what it became responsible for either
      way, and what it ran. */
  datatype View = IssuedFor(o: int) | AskedTo(o: int) | YesTo(j: int, o: int) | ServedFor(o: int) | RanFor(o: int)

  function Look(e: Out, v: View): seq<Job> {
    match v
    case IssuedFor(o) =>
      if e.Issued? && ForOwner(e.what, o) then [JobOf(e.issuer, e.what)] else []
    case AskedTo(o) =>
      if e.Send? && e.dest == o && e.msg.Ask? && ForOwner(e.msg.req, o) then [JobOf(e.msg.client, e.msg.req)] else []
    case YesTo(j, o) =>
      if e.Send? && e.dest == j && e.msg.Tell? && e.msg.yes && ForOwner(e.msg.req, o) then [JobOf(e.msg.client, e.msg.req)] else []
    case ServedFor(o) =>
      if e.Issued? && ForOwner(e.what, o) then [JobOf(e.issuer, e.what)]
      else if e.Send? && e.msg.Tell? && e.msg.yes && ForOwner(e.msg.req, o) then [JobOf(e.msg.client, e.msg.req)]
      else []
    case RanFor(o) =>
      if e.Ran? && ForOwner(e.what, o) then [Job(e.slot, e.caller, e.what)] else []
  }

  function Pick(out: seq<Out>, v: View): seq<Job> {
    if out == [] then [] else Look(out[0], v) + Pick(out[1..], v)
  }

  lemma {:induction false} PickAppend(a: seq<Out>, b: seq<Out>, v: View)
    ensures Pick(a + b, v) == Pick(a, v) + Pick(b, v)
  {
    if a == [] {
      assert a + b == b;
    } else {
      assert (a + b)[0] == a[0] && (a + b)[1..] == a[1..] + b;
      PickAppend(a[1..], b, v);
    }
  }

  lemma PickOne(e: Out, v: View)
    ensures Pick([e], v) == Look(e, v)
  {
    assert [e][1..] == [];
  }

  ghost predicate NoYes(out: seq<Out>) {
    forall k :: 0 <= k < |out| ==> !(out[k].Send? && out[k].msg.Tell?)
  }

  ghost predicate RoutesAway(me: int, up: set<int>, out: seq<Out>) {
    forall o :: o in up && o != me ==> Pick(out, IssuedFor(o)) == Pick(out, AskedTo(o)) && Pick(out, RanFor(o)) == []
  }

  /** A server asks the owner for every job it takes on for another owner, in order, runs nothing
      that belongs to another owner, and runs at once what it takes on for itself. */
  ghost predicate Routes(me: int, up: set<int>, out: seq<Out>) {
    NoYes(out) && RoutesAway(me, up, out) && Pick(out, RanFor(me)) == Pick(out, ServedFor(me))
  }

  lemma RoutesAppend(me: int, up: set<int>, a: seq<Out>, b: seq<Out>)
    requires Routes(me, up, a) && Routes(me, up, b)
    ensures Routes(me, up, a + b)
  {
    hide Pick;
    forall o | o in up && o != me
      ensures Pick(a + b, IssuedFor(o)) == Pick(a + b, AskedTo(o)) && Pick(a + b, RanFor(o)) == []
    {
      PickAppend(a, b, IssuedFor(o));
      PickAppend(a, b, AskedTo(o));
      PickAppend(a, b, RanFor(o));
    }
    PickAppend(a, b, RanFor(me));
    PickAppend(a, b, ServedFor(me));
  }

  ghost predicate OnlyAnswers(out: seq<Out>) {
    forall k :: 0 <= k < |out| ==> out[k].Answer?
  }

  lemma {:induction false} PickAnswers(out: seq<Out>, v: View)
    requires OnlyAnswers(out)
    ensures Pick(out, v) == []
  {
    if out != [] { PickAnswers(out[1..], v); }
  }

  lemma AnswersRoute(me: int, up: set<int>, out: seq<Out>)
    requires OnlyAnswers(out)
    ensures Routes(me, up, out)
  {
    hide Pick;
    forall v ensures Pick(out, v) == [] { PickAnswers(out, v); }
  }

  lemma {:induction false} PickSends(peers: seq<int>, m: Msg, v: View)
    requires m.Ask? && forall k, l :: 0 <= k < l < |peers| ==> peers[k] != peers[l]
    ensures Pick(SendAll(peers, m), v) == if v.AskedTo? && v.o in peers && ForOwner(m.req, v.o) then [JobOf(m.client, m.req)] else []
  {
    if peers != [] {
      var rest := SendAll(peers[1..], m);
      assert ([Send(peers[0], m)] + rest)[1..] == rest;
      PickSends(peers[1..], m, v);
    }
  }

  lemma {:induction false} NoYesSends(peers: seq<int>, m: Msg)
    requires m.Ask?
    ensures NoYes(SendAll(peers, m))
  {
    if peers != [] { NoYesSends(peers[1..], m); }
  }

  /** Taking on a request that is not this server's and asking the others for it. */
  lemma ForwardRoutes(me: int, up: set<int>, c: Client, req: Request, id: int)
    requires forall o :: o in up ==> 0 <= o < SERVERS
    requires req.Create? || MyIndex(Target(req), me) == -1
    ensures Routes(me, up, [Issued(c, req)] + SendAll(Peers(up, me, 0), Ask(id, c, req)))
  {
    hide Pick, Peers, CMod;
    var peers := Peers(up, me, 0);
    var m := Ask(id, c, req);
    var sends := SendAll(peers, m);
    PeersDistinct(up, me, 0);
    NoYesSends(peers, m);
    forall v ensures Pick([Issued(c, req)] + sends, v) == Look(Issued(c, req), v)
        + if v.AskedTo? && v.o in peers && ForOwner(req, v.o) then [JobOf(c, req)] else [] {
      PickAppend([Issued(c, req)], sends, v);
      PickOne(Issued(c, req), v);
      PickSends(peers, m, v);
    }
    forall o | o in up && o != me ensures o in peers { PeersUp(up, me, 0, o); }
    assert !ForOwner(req, me) by { MineHasSlot(req, me); }
  }

  /** A non-negative identifier of this machine always has a slot here: its last two digits. */
  lemma MineHasSlot(req: Request, me: int)
    ensures ForOwner(req, me) ==> MyIndex(Target(req), me) == Target(req) % TABLE_SIZE
  {
  }

  lemma SlotIsMine(req: Request, me: int, o: int)
    requires !req.Create? && MyIndex(Target(req), me) != -1 && ForOwner(req, o)
    ensures o == me && MyIndex(Target(req), me) == Target(req) % TABLE_SIZE
  {
  }

  /** Running a request at once, on the slot its identifier names. */
  lemma ServeRoutes(me: int, up: set<int>, c: Client, req: Request)
    requires !req.Create? && MyIndex(Target(req), me) != -1
    ensures Routes(me, up, [Issued(c, req)] + [Ran(MyIndex(Target(req), me), c, req)])
  {
    hide Pick, CMod;
    var i := MyIndex(Target(req), me);
    forall v ensures Pick([Issued(c, req)] + [Ran(i, c, req)], v) == Look(Issued(c, req), v) + Look(Ran(i, c, req), v) {
      PickAppend([Issued(c, req)], [Ran(i, c, req)], v);
      PickOne(Issued(c, req), v);
      PickOne(Ran(i, c, req), v);
    }
    forall o | ForOwner(req, o) ensures o == me && i == Target(req) % TABLE_SIZE { SlotIsMine(req, me, o); }
  }

  /** No owner among the servers that are up: whatever is done with it concerns no job. */
  ghost predicate Orphan(up: set<int>, req: Request) {
    forall o :: o in up ==> !ForOwner(req, o)
  }

  lemma OrphanRoutes(me: int, up: set<int>, c: Client, req: Request, slot: int)
    requires Orphan(up, req) && me in up
    ensures Routes(me, up, [Issued(c, req)]) && Routes(me, up, [Ran(slot, c, req)])
  {
    hide Pick;
    forall v ensures Pick([Issued(c, req)], v) == Look(Issued(c, req), v) && Pick([Ran(slot, c, req)], v) == Look(Ran(slot, c, req), v) {
      PickOne(Issued(c, req), v);
      PickOne(Ran(slot, c, req), v);
    }
  }

  /** With no other server up, a request that is not this server's belongs to none that is up. */
  lemma NoPeersOrphan(me: int, up: set<int>, req: Request)
    requires forall o :: o in up ==> 0 <= o < SERVERS
    requires Peers(up, me, 0) == [] && (req.Create? || MyIndex(Target(req), me) == -1)
    ensures Orphan(up, req)
  {
    hide CMod;
    forall o | o in up ensures !ForOwner(req, o) {
      PeersUp(up, me, 0, o);
      MineHasSlot(req, me);
    }
  }

  // ---- the operations ----

  /** The outputs of running a request: the run itself, then outputs that route. */
  ghost predicate RunsThen(me: int, up: set<int>, out: seq<Out>, i: int, c: Client, req: Request) {
    out != [] && out[0] == Ran(i, c, req) && Routes(me, up, out[1..])
  }

  lemma DoLockRoutes(s: Server, up: set<int>, i: int, c: Client, req: Request)
    requires req.Acquire? || req.Release? || req.DestroyLock?
    ensures RunsThen(s.me, up, DoLock(s, i, c, req).out, i, c, req)
  {
    hide Routes;
    AnswersRoute(s.me, up, DoLock(s, i, c, req).out[1..]);
  }

  /** Issued and then run at once, or run although nobody up owns it. */
  lemma IssueRunRoutes(me: int, up: set<int>, i: int, c: Client, req: Request, out: seq<Out>)
    requires !req.Create? && RunsThen(me, up, out, i, c, req)
    requires i == MyIndex(Target(req), me) != -1 || (Orphan(up, req) && me in up)
    ensures Routes(me, up, [Issued(c, req)] + out)
  {
    hide Routes, Orphan, CMod;
    if MyIndex(Target(req), me) == i && i != -1 {
      ServeRoutes(me, up, c, req);
    } else {
      OrphanRoutes(me, up, c, req, i);
      RoutesAppend(me, up, [Issued(c, req)], [Ran(i, c, req)]);
    }
    RoutesAppend(me, up, [Issued(c, req)] + [Ran(i, c, req)], out[1..]);
    assert [Issued(c, req)] + out == [Issued(c, req)] + [Ran(i, c, req)] + out[1..];
  }

  ghost predicate UpOk(up: set<int>, me: int) {
    me in up && forall o :: o in up ==> 0 <= o < SERVERS
  }

  lemma IssueLockRoutes(s: Server, up: set<int>, c: Client, req: Request)
    requires (req.Acquire? || req.Release?) && UpOk(up, s.me)
    ensures Routes(s.me, up, IssueLock(s, up, c, req).out)
  {
    hide Routes, Peers, DoLock, Orphan, MyIndex;
    var i := MyIndex(Target(req), s.me);
    var peers := Peers(up, s.me, 0);
    if i != -1 {
      DoLockRoutes(s, up, i, c, req);
      IssueRunRoutes(s.me, up, i, c, req, DoLock(s, i, c, req).out);
    } else if peers == [] {
      var t := s.(nextID := s.nextID + 1);
      DoLockRoutes(t, up, i, c, req);
      NoPeersOrphan(s.me, up, req);
      IssueRunRoutes(s.me, up, i, c, req, DoLock(t, i, c, req).out);
    } else {
      ForwardRoutes(s.me, up, c, req, s.nextID);
    }
  }

  lemma {:induction false} WakeAllRoutes(s: Server, up: set<int>, lock: int, q: seq<Client>)
    requires UpOk(up, s.me)
    ensures Routes(s.me, up, WakeAll(s, up, lock, q).out)
    decreases |q|
  {
    hide Routes, IssueLock;
    if q == [] {
      AnswersRoute(s.me, up, []);
    } else {
      var e := IssueLock(s, up, q[0], Acquire(lock));
      IssueLockRoutes(s, up, q[0], Acquire(lock));
      IssueLockSends(s, up, q[0], Acquire(lock), Acquire(lock));
      WakeAllRoutes(e.s, up, lock, q[1..]);
      RoutesAppend(s.me, up, e.out, WakeAll(e.s, up, lock, q[1..]).out);
    }
  }

  lemma DoWaitRoutes(s: Server, up: set<int>, i: int, lock: int, c: Client, req: Request)
    requires UpOk(up, s.me)
    ensures Routes(s.me, up, DoWait(s, up, i, lock, c, req).out)
  {
    hide Routes, IssueLock;
    if DoWait(s, up, i, lock, c, req) == Eff(s, [Answer(c, req, Status(false))]) {
      AnswersRoute(s.me, up, [Answer(c, req, Status(false))]);
    } else {
      var t := SetCV(s, i, CVData(s.cvs.slots[i].value.data.q + [c], lock));
      IssueLockRoutes(t, up, c, Release(lock));
    }
  }

  lemma DoSignalRoutes(s: Server, up: set<int>, i: int, lock: int, c: Client, req: Request)
    requires UpOk(up, s.me)
    ensures Routes(s.me, up, DoSignal(s, up, i, lock, c, req).out)
  {
    hide Routes, IssueLock;
    AnswersRoute(s.me, up, [Answer(c, req, Status(true))]);
    AnswersRoute(s.me, up, [Answer(c, req, Status(false))]);
    if Live(s.cvs.slots, i) && s.cvs.slots[i].value.data.q != [] {
      var d := s.cvs.slots[i].value.data;
      var t := SetCV(s, i, CVData(d.q[1..], if |d.q| == 1 then -1 else d.waitingLock));
      IssueLockRoutes(t, up, d.q[0], Acquire(lock));
      RoutesAppend(s.me, up, IssueLock(t, up, d.q[0], Acquire(lock)).out, [Answer(c, req, Status(true))]);
    }
  }

  lemma DoBroadcastRoutes(s: Server, up: set<int>, i: int, lock: int, c: Client, req: Request)
    requires UpOk(up, s.me)
    ensures Routes(s.me, up, DoBroadcast(s, up, i, lock, c, req).out)
  {
    hide Routes, WakeAll;
    AnswersRoute(s.me, up, [Answer(c, req, Status(true))]);
    AnswersRoute(s.me, up, [Answer(c, req, Status(false))]);
    if Live(s.cvs.slots, i) {
      var d := s.cvs.slots[i].value.data;
      var t := if d.q == [] then s else SetCV(s, i, CVData([], -1));
      WakeAllRoutes(t, up, lock, d.q);
      RoutesAppend(s.me, up, WakeAll(t, up, lock, d.q).out, [Answer(c, req, Status(true))]);
    }
  }

  lemma DoRoutes(s: Server, up: set<int>, i: int, c: Client, req: Request)
    requires !req.Create? && UpOk(up, s.me)
    ensures RunsThen(s.me, up, Do(s, up, i, c, req).out, i, c, req)
  {
    hide Routes, DoWait, DoSignal, DoBroadcast, DoLock;
    if req.Acquire? || req.Release? || req.DestroyLock? {
      DoLockRoutes(s, up, i, c, req);
    } else {
      var rest := Do(s, up, i, c, req).out[1..];
      match req
      case Wait(_, lock) => DoWaitRoutes(s, up, i, lock, c, req);
      case Signal(_, lock) => DoSignalRoutes(s, up, i, lock, c, req);
      case Broadcast(_, lock) => DoBroadcastRoutes(s, up, i, lock, c, req);
      case DestroyCV(_) => AnswersRoute(s.me, up, rest);
      case Set(_, _, _) => AnswersRoute(s.me, up, rest);
      case Get(_, _) => AnswersRoute(s.me, up, rest);
      case DestroyMV(_) => AnswersRoute(s.me, up, rest);
    }
  }

  lemma OnClientRoutes(s: Server, up: set<int>, c: Client, req: Request)
    requires UpOk(up, s.me)
    ensures Routes(s.me, up, OnClient(s, up, c, req).out)
  {
    hide Routes, Do, DoCreate, Peers, MyIndex, Orphan;
    var peers := Peers(up, s.me, 0);
    var t := s.(nextID := s.nextID + 1);
    if req.Create? {
      if OwnsKey(s, req.kind, req.name) || peers == [] {
        var from := if OwnsKey(s, req.kind, req.name) then s else t;
        DoCreateFrame(from, c, req);
        CreateOrphan(up, req);
        OrphanRoutes(s.me, up, c, req, 0);
        AnswersRoute(s.me, up, DoCreate(from, c, req).out);
        RoutesAppend(s.me, up, [Issued(c, req)], DoCreate(from, c, req).out);
      } else {
        ForwardRoutes(s.me, up, c, req, s.nextID);
      }
    } else {
      var i := MyIndex(Target(req), s.me);
      if i != -1 {
        DoRoutes(s, up, i, c, req);
        IssueRunRoutes(s.me, up, i, c, req, Do(s, up, i, c, req).out);
      } else if peers == [] {
        DoRoutes(t, up, i, c, req);
        NoPeersOrphan(s.me, up, req);
        IssueRunRoutes(s.me, up, i, c, req, Do(t, up, i, c, req).out);
      } else {
        ForwardRoutes(s.me, up, c, req, s.nextID);
      }
    }
  }

  lemma CreateOrphan(up: set<int>, req: Request)
    requires req.Create?
    ensures Orphan(up, req)
  {
  }
}
