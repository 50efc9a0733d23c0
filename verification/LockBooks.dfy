/** Slot by slot, over every operation: the acquires a server runs on a lock are the answers it gives
    about it and the places in its queue. */
module LockBooks {
  import opened Wire
  import opened Tables
  import opened Protocol
  import opened Seqs
  import opened Sends
  import opened Waiters
  import W = WaitersRun

  /** How often the client waits for the lock in a slot. */
  function Places(s: Server, i: int, c: Client): nat {
    if Live(s.locks.slots, i) then Times(s.locks.slots[i].value.data.q, c) else 0
  }

  /** Acquires run on the slot their identifier leads to. */
  ghost predicate RightSlots(up: set<int>, me: int, out: seq<Out>) {
    forall k :: 0 <= k < |out| && out[k].Ran? && out[k].what.Acquire? ==> out[k].slot == SlotFor(up, me, out[k].what.lock)
  }

  ghost predicate SlotLaw(s: Server, up: set<int>, e: Eff, i: int, c: Client) {
    Places(e.s, i, c) + Tally(e.out, AnsweredOn(up, s.me, i, c)) == Places(s, i, c) + Tally(e.out, RunOn(i, c))
  }

  ghost predicate SlotKept(s: Server, up: set<int>, e: Eff) {
    && e.s.me == s.me && RightSlots(up, s.me, e.out)
    && (Sound(s) ==> Sound(e.s) && forall i, c :: i >= 0 ==> SlotLaw(s, up, e, i, c))
  }

  lemma SlotCompose(s: Server, up: set<int>, a: Eff, b: Eff)
    requires SlotKept(s, up, a) && SlotKept(a.s, up, b)
    ensures SlotKept(s, up, Eff(b.s, a.out + b.out))
  {
    hide Places, Tally, Sound, SlotFor;
    forall v ensures Tally(a.out + b.out, v) == Tally(a.out, v) + Tally(b.out, v) { TallyAppend(a.out, b.out, v); }
    if Sound(s) {
      forall i, c | i >= 0 ensures SlotLaw(s, up, Eff(b.s, a.out + b.out), i, c) {
        assert SlotLaw(s, up, a, i, c) && SlotLaw(a.s, up, b, i, c);
      }
    }
  }

  /** Nothing about acquires. */
  ghost predicate Still(out: seq<Out>) {
    forall k :: 0 <= k < |out| ==> !(out[k].Ran? && out[k].what.Acquire?) && !(out[k].Answer? && out[k].to.Acquire?)
  }

  lemma {:induction false} StillTally(out: seq<Out>, up: set<int>, me: int, i: int, c: Client)
    requires Still(out)
    ensures Tally(out, RunOn(i, c)) == 0 && Tally(out, AnsweredOn(up, me, i, c)) == 0
  {
    if out != [] { StillTally(out[1..], up, me, i, c); }
  }

  ghost predicate SamePlaces(s: Server, t: Server) {
    t.me == s.me && (Sound(s) ==> Sound(t) && forall i, c :: i >= 0 ==> Places(t, i, c) == Places(s, i, c))
  }

  lemma StillKept(s: Server, up: set<int>, e: Eff)
    requires SamePlaces(s, e.s) && Still(e.out)
    ensures SlotKept(s, up, e)
  {
    hide Places, Tally, Sound, SlotFor;
    forall i, c ensures Tally(e.out, RunOn(i, c)) == 0 && Tally(e.out, AnsweredOn(up, s.me, i, c)) == 0 { StillTally(e.out, up, s.me, i, c); }
  }

  lemma SameLocks(s: Server, t: Server)
    requires t.me == s.me && t.locks == s.locks && (Sound(s) ==> Sound(t))
    ensures SamePlaces(s, t)
  {
  }

  /** An effect between outputs that say nothing about acquires. */
  lemma PadKept(s: Server, up: set<int>, pre: seq<Out>, e: Eff, post: seq<Out>)
    requires SlotKept(s, up, e) && Still(pre) && Still(post)
    ensures SlotKept(s, up, Eff(e.s, pre + e.out + post))
  {
    hide Places, Tally, Sound, SlotKept, Still;
    SameLocks(s, s);
    SameLocks(e.s, e.s);
    StillKept(s, up, Eff(s, pre));
    StillKept(e.s, up, Eff(e.s, post));
    SlotCompose(s, up, Eff(s, pre), e);
    SlotCompose(s, up, Eff(e.s, pre + e.out), Eff(e.s, post));
  }

  // ---- the lock bodies ----

  lemma TwoTally(a: Out, b: Out, v: Event)
    ensures Tally([a, b], v) == Shows(a, v) + Shows(b, v)
  {
    assert [a, b][1..] == [b];
    TallyOne(b, v);
  }

  lemma AcquireKept(s: Server, up: set<int>, i: int, c: Client, req: Request)
    requires req.Acquire? && i == SlotFor(up, s.me, req.lock)
    ensures SlotKept(s, up, DoLock(s, i, c, req))
  {
    hide Tally, Sound, SlotFor;
    AcquireBalanced(s, i, c, req);
    var e := DoLock(s, i, c, req);
    AcquirePlaces(s, i, c, req, 0, c);
    if Sound(s) {
      forall j, d | j >= 0 ensures SlotLaw(s, up, e, j, d) {
        AcquirePlaces(s, i, c, req, j, d);
        forall v ensures Tally(e.out, v) == Shows(e.out[0], v) + if |e.out| == 1 then 0 else Shows(e.out[1], v) {
          if |e.out| == 1 { TallyOne(e.out[0], v); } else { TwoTally(e.out[0], e.out[1], v); }
        }
      }
    }
  }

  /** Whoever is left without an answer has one place more. */
  lemma AcquirePlaces(s: Server, i: int, c: Client, req: Request, j: int, d: Client)
    requires req.Acquire? && j >= 0
    ensures var e := DoLock(s, i, c, req);
            if |e.out| == 1 then
              e.out == [Ran(i, c, req)] && Places(e.s, j, d) == Places(s, j, d) + if i == j && c == d then 1 else 0
            else
              && |e.out| == 2 && e.out[0] == Ran(i, c, req) && e.out[1].Answer? && e.out[1] == Answer(c, req, Status(Live(s.locks.slots, i)))
              && e.out == [e.out[0], e.out[1]] && Places(e.s, j, d) == Places(s, j, d)
  {
    if Live(s.locks.slots, i) { TimesPush(s.locks.slots[i].value.data.q, c, d); }
  }

  lemma ReleaseKept(s: Server, up: set<int>, i: int, c: Client, req: Request)
    requires req.Release? && s.me >= 0
    ensures SlotKept(s, up, DoLock(s, i, c, req))
  {
    hide Tally, SlotFor, Sound;
    ReleaseBalanced(s, i, c, req);
    var e := DoLock(s, i, c, req);
    var ran := Ran(i, c, req);
    if DoRelease(s, i, c).out == [] {
      assert e.out == [ran];
      if Sound(s) { FreedPlaces(s, i, c, req); }
      StillKept(s, up, e);
    } else {
      var d := s.locks.slots[i].value.data;
      var a := Answer(d.q[0], Acquire(Encode(s.me, i)), Status(true));
      assert e.out == [ran, a];
      if Sound(s) {
        HandedSlot(s, up, i);
        forall j, x | j >= 0 ensures SlotLaw(s, up, e, j, x) {
          TwoTally(ran, a, RunOn(j, x));
          TwoTally(ran, a, AnsweredOn(up, s.me, j, x));
        }
      }
    }
  }

  lemma HandedSlot(s: Server, up: set<int>, i: int)
    requires Sound(s) && Live(s.locks.slots, i) && s.me >= 0
    ensures SlotFor(up, s.me, Encode(s.me, i)) == i
  {
    hide Peers, DistinctNames;
    DecodeEncode(s.me, i, s.me);
  }

  /** A release without a successor, or a refused one, moves nobody. */
  lemma FreedPlaces(s: Server, i: int, c: Client, req: Request)
    requires Sound(s) && req.Release? && DoRelease(s, i, c).out == []
    ensures forall j, x :: j >= 0 ==> Places(DoLock(s, i, c, req).s, j, x) == Places(s, j, x)
  {
  }

  lemma DestroyKept(s: Server, up: set<int>, i: int, c: Client, req: Request)
    requires req.DestroyLock?
    ensures SlotKept(s, up, DoLock(s, i, c, req))
  {
    hide Sound;
    DestroyLockBalanced(s, i, c, req);
    var e := DoLock(s, i, c, req);
    assert e.out == [Ran(i, c, req)];
    if Sound(s) { DestroyedPlaces(s, i, c, req); }
    StillKept(s, up, e);
  }

  lemma DestroyedPlaces(s: Server, i: int, c: Client, req: Request)
    requires Sound(s) && req.DestroyLock?
    ensures forall j, x :: j >= 0 ==> Places(DoLock(s, i, c, req).s, j, x) == Places(s, j, x)
  {
    if Live(s.locks.slots, i) { assert IdleOk(s.locks.slots[i].value.data); }
  }

  lemma DoLockKept(s: Server, up: set<int>, i: int, c: Client, req: Request)
    requires (req.Acquire? || req.Release? || req.DestroyLock?) && s.me >= 0 && (req.Acquire? ==> i == SlotFor(up, s.me, req.lock))
    ensures SlotKept(s, up, DoLock(s, i, c, req))
  {
    hide SlotKept, DoLock, SlotFor;
    match req
    case Acquire(_) => AcquireKept(s, up, i, c, req);
    case Release(_) => ReleaseKept(s, up, i, c, req);
    case DestroyLock(_) => DestroyKept(s, up, i, c, req);
  }

  lemma {:induction false} SendsStill(peers: seq<int>, m: Msg)
    ensures Still(SendAll(peers, m))
  {
    if peers != [] { SendsStill(peers[1..], m); }
  }

  lemma ForwardKept(s: Server, up: set<int>, c: Client, req: Request)
    ensures SlotKept(s, up, Forward(s, Peers(up, s.me, 0), c, req))
  {
    hide Peers;
    SendsStill(Peers(up, s.me, 0), Ask(s.nextID, c, req));
    SameLocks(s, Forward(s, Peers(up, s.me, 0), c, req).s);
    StillKept(s, up, Forward(s, Peers(up, s.me, 0), c, req));
  }

  /** Only the request number differs. */
  lemma FromNumbered(s: Server, up: set<int>, e: Eff)
    requires SlotKept(s.(nextID := s.nextID + 1), up, e)
    ensures SlotKept(s, up, e)
  {
    hide Tally;
    if Sound(s) {
      forall i, c | i >= 0 ensures SlotLaw(s, up, e, i, c) { assert SlotLaw(s.(nextID := s.nextID + 1), up, e, i, c); }
    }
  }

  lemma IssueLockKept(s: Server, up: set<int>, c: Client, req: Request)
    requires (req.Acquire? || req.Release?) && s.me >= 0
    ensures SlotKept(s, up, IssueLock(s, up, c, req))
  {
    hide SlotKept, DoLock, Forward, Peers, MyIndex;
    var t := s.(nextID := s.nextID + 1);
    var i := MyIndex(Target(req), s.me);
    if i != -1 {
      DoLockKept(s, up, i, c, req);
      PadKept(s, up, [Issued(c, req)], DoLock(s, i, c, req), []);
      assert [Issued(c, req)] + DoLock(s, i, c, req).out + [] == IssueLock(s, up, c, req).out;
    } else if Peers(up, s.me, 0) == [] {
      DoLockKept(t, up, i, c, req);
      FromNumbered(s, up, DoLock(t, i, c, req));
      PadKept(s, up, [Issued(c, req)], DoLock(t, i, c, req), []);
      assert [Issued(c, req)] + DoLock(t, i, c, req).out + [] == IssueLock(s, up, c, req).out;
    } else {
      ForwardKept(s, up, c, req);
      PadKept(s, up, [Issued(c, req)], Forward(s, Peers(up, s.me, 0), c, req), []);
      assert [Issued(c, req)] + Forward(s, Peers(up, s.me, 0), c, req).out + [] == IssueLock(s, up, c, req).out;
    }
  }

  lemma {:induction false} WakeAllKept(s: Server, up: set<int>, lock: int, q: seq<Client>)
    requires s.me >= 0
    ensures SlotKept(s, up, WakeAll(s, up, lock, q))
    decreases |q|
  {
    hide SlotKept, IssueLock;
    if q == [] {
      SameLocks(s, s);
      StillKept(s, up, Eff(s, []));
    } else {
      var e := IssueLock(s, up, q[0], Acquire(lock));
      IssueLockKept(s, up, q[0], Acquire(lock));
      IssueLockSends(s, up, q[0], Acquire(lock), Acquire(lock));
      WakeAllKept(e.s, up, lock, q[1..]);
      SlotCompose(s, up, e, WakeAll(e.s, up, lock, q[1..]));
    }
  }

  // ---- the other bodies ----

  lemma SetCVPlaces(s: Server, i: int, d: CVData)
    requires Live(s.cvs.slots, i)
    ensures SamePlaces(s, SetCV(s, i, d)) && SetCV(s, i, d).me == s.me
  {
    hide Sound;
    W.SetCVSound(s, i, d);
    SameLocks(s, SetCV(s, i, d));
  }

  /** A change to a condition variable, and then the lock operation that goes with it. */
  lemma ThenKept(s: Server, up: set<int>, t: Server, e: Eff, post: seq<Out>)
    requires SamePlaces(s, t) && SlotKept(t, up, e) && Still(post)
    ensures SlotKept(s, up, Eff(e.s, e.out + post))
  {
    hide SlotKept, Sound;
    assert Still([]);
    StillKept(s, up, Eff(t, []));
    SlotCompose(s, up, Eff(t, []), e);
    assert [] + e.out == e.out;
    PadKept(s, up, [], e, post);
    assert [] + e.out + post == e.out + post;
  }

  lemma QuietKept(s: Server, up: set<int>, out: seq<Out>)
    requires Still(out)
    ensures SlotKept(s, up, Eff(s, out))
  {
    SameLocks(s, s);
    StillKept(s, up, Eff(s, out));
  }

  lemma DoWaitKept(s: Server, up: set<int>, i: int, lock: int, c: Client, req: Request)
    requires req.Wait? && s.me >= 0
    ensures SlotKept(s, up, DoWait(s, up, i, lock, c, req))
  {
    hide SlotKept, IssueLock, SamePlaces;
    if DoWait(s, up, i, lock, c, req) == Eff(s, [Answer(c, req, Status(false))]) {
      QuietKept(s, up, [Answer(c, req, Status(false))]);
    } else {
      var d := CVData(s.cvs.slots[i].value.data.q + [c], lock);
      SetCVPlaces(s, i, d);
      IssueLockKept(SetCV(s, i, d), up, c, Release(lock));
      ThenKept(s, up, SetCV(s, i, d), IssueLock(SetCV(s, i, d), up, c, Release(lock)), []);
      assert IssueLock(SetCV(s, i, d), up, c, Release(lock)).out + [] == IssueLock(SetCV(s, i, d), up, c, Release(lock)).out;
    }
  }

  lemma DoSignalKept(s: Server, up: set<int>, i: int, lock: int, c: Client, req: Request)
    requires req.Signal? && s.me >= 0
    ensures SlotKept(s, up, DoSignal(s, up, i, lock, c, req))
  {
    hide SlotKept, IssueLock, SamePlaces;
    QuietKept(s, up, [Answer(c, req, Status(true))]);
    QuietKept(s, up, [Answer(c, req, Status(false))]);
    if Live(s.cvs.slots, i) && s.cvs.slots[i].value.data.q != [] {
      var q := s.cvs.slots[i].value.data.q;
      var d := CVData(q[1..], if |q| == 1 then -1 else s.cvs.slots[i].value.data.waitingLock);
      SetCVPlaces(s, i, d);
      IssueLockKept(SetCV(s, i, d), up, q[0], Acquire(lock));
      ThenKept(s, up, SetCV(s, i, d), IssueLock(SetCV(s, i, d), up, q[0], Acquire(lock)), [Answer(c, req, Status(true))]);
    }
  }

  lemma DoBroadcastKept(s: Server, up: set<int>, i: int, lock: int, c: Client, req: Request)
    requires req.Broadcast? && s.me >= 0
    ensures SlotKept(s, up, DoBroadcast(s, up, i, lock, c, req))
  {
    hide SlotKept, WakeAll, SamePlaces;
    QuietKept(s, up, [Answer(c, req, Status(false))]);
    if Live(s.cvs.slots, i) {
      var q := s.cvs.slots[i].value.data.q;
      var t := if q == [] then s else SetCV(s, i, CVData([], -1));
      SetCVPlaces(s, i, CVData([], -1));
      SameLocks(s, s);
      WakeAllKept(t, up, lock, q);
      ThenKept(s, up, t, WakeAll(t, up, lock, q), [Answer(c, req, Status(true))]);
    }
  }

  lemma DoOtherKept(s: Server, up: set<int>, i: int, c: Client, req: Request)
    requires req.DestroyCV? || req.Set? || req.Get? || req.DestroyMV?
    ensures SlotKept(s, up, Do(s, up, i, c, req))
  {
    hide SlotKept, Sound;
    W.DoBalanced(s, up, i, c, req);
    var e := Do(s, up, i, c, req);
    SameLocks(s, e.s);
    StillKept(s, up, e);
  }

  lemma DoKept(s: Server, up: set<int>, i: int, c: Client, req: Request)
    requires !req.Create? && s.me >= 0 && (req.Acquire? ==> i == SlotFor(up, s.me, req.lock))
    ensures SlotKept(s, up, Do(s, up, i, c, req))
  {
    hide SlotKept, DoWait, DoSignal, DoBroadcast, DoLock, SlotFor;
    var e := Do(s, up, i, c, req);
    if req.Acquire? || req.Release? || req.DestroyLock? {
      DoLockKept(s, up, i, c, req);
    } else if req.Wait? || req.Signal? || req.Broadcast? {
      match req {
        case Wait(_, lock) => DoWaitKept(s, up, i, lock, c, req);
        case Signal(_, lock) => DoSignalKept(s, up, i, lock, c, req);
        case Broadcast(_, lock) => DoBroadcastKept(s, up, i, lock, c, req);
      }
      assert Still([Ran(i, c, req)]) && Still([]);
      PadKept(s, up, [Ran(i, c, req)], Eff(e.s, e.out[1..]), []);
      assert [Ran(i, c, req)] + e.out[1..] + [] == e.out;
    } else {
      DoOtherKept(s, up, i, c, req);
    }
  }

  // ---- creates ----

  lemma CreatePlaces(s: Server, c: Client, req: Request)
    requires req.Create?
    ensures SamePlaces(s, DoCreate(s, c, req).s)
  {
    W.DoCreateBalanced(s, c, req);
    if Sound(s) && req.kind == LockKind {
      FindWithinVector(s.locks);
    }
  }

  lemma DoCreateKept(s: Server, up: set<int>, c: Client, req: Request)
    requires req.Create?
    ensures SlotKept(s, up, DoCreate(s, c, req))
  {
    hide DoCreate, Sound, SlotKept;
    CreatePlaces(s, c, req);
    DoCreateFrame(s, c, req);
    StillKept(s, up, DoCreate(s, c, req));
  }

  lemma SamePending(s: Server, ps: seq<Pending>)
    ensures SamePlaces(s, s.(pending := ps))
  {
  }

  lemma {:induction false} AnswerNamedKept(s: Server, up: set<int>, kind: Kind, name: string)
    ensures SlotKept(s, up, AnswerNamed(s, kind, name))
    decreases |s.pending|
  {
    hide SlotKept, DoCreate, SamePlaces;
    var i := FindPendingNamed(s.pending, kind, name, 0);
    if i == -1 {
      QuietKept(s, up, []);
    } else {
      var e := DoCreate(s, s.pending[i].client, s.pending[i].req);
      var t := e.s.(pending := RemoveAt(s.pending, i));
      DoCreateKept(s, up, s.pending[i].client, s.pending[i].req);
      DoCreateFrame(s, s.pending[i].client, s.pending[i].req);
      AnswerNamedKept(t, up, kind, name);
      AndPending(s, up, e, t.pending, AnswerNamed(t, kind, name));
    }
  }

  lemma AndPending(s: Server, up: set<int>, a: Eff, ps: seq<Pending>, b: Eff)
    requires SlotKept(s, up, a) && SlotKept(a.s.(pending := ps), up, b)
    ensures SlotKept(s, up, Eff(b.s, a.out + b.out))
  {
    hide SlotKept, SamePlaces;
    SamePending(a.s, ps);
    ThenKept(a.s, up, a.s.(pending := ps), b, []);
    assert b.out + [] == b.out;
    SlotCompose(s, up, a, b);
  }

  // ---- messages ----

  lemma OnClientKept(s: Server, up: set<int>, c: Client, req: Request)
    requires s.me >= 0
    ensures SlotKept(s, up, OnClient(s, up, c, req))
  {
    hide SlotKept, Do, DoCreate, Peers, MyIndex, Forward;
    var t := s.(nextID := s.nextID + 1);
    var peers := Peers(up, s.me, 0);
    var e :=
      if req.Create? then
        if OwnsKey(s, req.kind, req.name) then DoCreate(s, c, req) else if peers == [] then DoCreate(t, c, req) else Forward(s, peers, c, req)
      else
        var i := MyIndex(Target(req), s.me);
        if i != -1 then Do(s, up, i, c, req) else if peers == [] then Do(t, up, i, c, req) else Forward(s, peers, c, req);
    ForwardKept(s, up, c, req);
    if req.Create? {
      DoCreateKept(s, up, c, req);
      DoCreateKept(t, up, c, req);
      FromNumbered(s, up, DoCreate(t, c, req));
    } else {
      var i := MyIndex(Target(req), s.me);
      if i != -1 { DoKept(s, up, i, c, req); }
      else if peers == [] {
        DoKept(t, up, i, c, req);
        FromNumbered(s, up, Do(t, up, i, c, req));
      }
    }
    PadKept(s, up, [Issued(c, req)], e, []);
    assert [Issued(c, req)] + e.out + [] == OnClient(s, up, c, req).out;
  }

  lemma OnAskKept(s: Server, up: set<int>, from: int, m: Msg)
    requires m.Ask? && s.me >= 0
    ensures SlotKept(s, up, OnAsk(s, up, from, m))
  {
    hide SlotKept, Do, DoCreate, MyIndex, FindPendingNamed, SamePlaces, Peers;
    var e := OnAsk(s, up, from, m);
    if m.req.Create? && OwnsKey(s, m.req.kind, m.req.name) {
      DoCreateKept(s, up, m.client, m.req);
      PadKept(s, up, [e.out[0]], DoCreate(s, m.client, m.req), []);
      assert e.out == [e.out[0]] + DoCreate(s, m.client, m.req).out + [];
    } else if !m.req.Create? && MyIndex(Target(m.req), s.me) != -1 {
      var f := Do(s, up, MyIndex(Target(m.req), s.me), m.client, m.req);
      DoKept(s, up, MyIndex(Target(m.req), s.me), m.client, m.req);
      PadKept(s, up, [e.out[0]], f, []);
      assert e.out == [e.out[0]] + f.out + [];
    } else {
      SamePlacesNumbered(s, e.s.pending, e.s.nextID);
      StillKept(s, up, e);
    }
  }

  lemma SamePlacesNumbered(s: Server, ps: seq<Pending>, next: int)
    ensures SamePlaces(s, s.(pending := ps, nextID := next))
  {
  }

  lemma OnAllNoKept(s: Server, up: set<int>, i: int, req: Request)
    requires 0 <= i < |s.pending| && SameTarget(s.pending[i].req, req) && s.me >= 0
    requires req.Acquire? ==> Target(req) == SlotFor(up, s.me, req.lock)
    ensures SlotKept(s, up, OnAllNo(s, up, i, req))
  {
    hide SlotKept, Do, DoCreate, AnswerNamed, OpCode, SlotFor, SamePlaces;
    var p := s.pending[i];
    if req.Create? {
      var e := DoCreate(s, p.client, p.req);
      var t := e.s.(pending := RemoveAt(s.pending, i));
      DoCreateKept(s, up, p.client, p.req);
      DoCreateFrame(s, p.client, p.req);
      AnswerNamedKept(t, up, req.kind, req.name);
      AndPending(s, up, e, t.pending, AnswerNamed(t, req.kind, req.name));
    } else {
      var e := Do(s, up, Target(req), p.client, req);
      DoKept(s, up, Target(req), p.client, req);
      if i < |e.s.pending| {
        QuietKept(e.s.(pending := RemoveAt(e.s.pending, i)), up, []);
        AndPending(s, up, e, RemoveAt(e.s.pending, i), Eff(e.s.(pending := RemoveAt(e.s.pending, i)), []));
        assert e.out + [] == e.out;
      }
    }
  }

  lemma OnTellKept(s: Server, up: set<int>, m: Msg)
    requires m.Tell? && s.me >= 0
    requires m.req.Acquire? && FindPending(s.pending, m, 0) != -1 ==> Target(m.req) == SlotFor(up, s.me, m.req.lock)
    ensures SlotKept(s, up, OnTell(s, up, m))
  {
    hide SlotKept, OnAllNo, DropNamed, FindPending, SlotFor, SamePlaces;
    var i := FindPending(s.pending, m, 0);
    if i == -1 {
      QuietKept(s, up, []);
    } else if m.yes {
      SamePending(s, OnYes(s, i, m.req).s.pending);
      StillKept(s, up, OnYes(s, i, m.req));
    } else {
      var t := s.(pending := s.pending[i := s.pending[i].(noCount := s.pending[i].noCount + 1)]);
      SamePending(s, t.pending);
      StillKept(s, up, Eff(t, []));
      if t.pending[i].noCount == t.pending[i].sentCount {
        OnAllNoKept(t, up, i, m.req);
        ThenKept(s, up, t, OnAllNo(t, up, i, m.req), []);
        assert OnAllNo(t, up, i, m.req).out + [] == OnAllNo(t, up, i, m.req).out;
      }
    }
  }
}
