/** Where the servers' messages go and what they carry, for any number of servers. */
module Sends {
  import opened Wire
  import opened Tables
  import opened Protocol
  import opened Network

  predicate SendOk(up: set<int>, me: int, req: Request, o: Out) {
    o.Send? ==> o.dest in up && o.dest != me && (o.msg.req.Acquire? || o.msg.req.Release? || o.msg.req == req)
  }

  /** Messages go to the other servers that are up, and carry the request at hand or a lock
      operation done for a waiter. */
  ghost predicate SendsOk(up: set<int>, me: int, req: Request, out: seq<Out>) {
    forall k :: 0 <= k < |out| ==> SendOk(up, me, req, out[k])
  }

  lemma SendsAppend(up: set<int>, me: int, req: Request, a: seq<Out>, b: seq<Out>)
    requires SendsOk(up, me, req, a) && SendsOk(up, me, req, b)
    ensures SendsOk(up, me, req, a + b)
  {
  }

  lemma {:induction false} PeersUp(up: set<int>, me: int, i: nat, j: int)
    ensures j in Peers(up, me, i) <==> j in up && j != me && i <= j < SERVERS
    decreases SERVERS - i
  {
    if i < SERVERS {
      PeersUp(up, me, i + 1, j);
      var head := if i != me && i in up then [i] else [];
      assert j in head + Peers(up, me, i + 1) <==> j in head || j in Peers(up, me, i + 1);
    }
  }

  lemma {:induction false} PeersDistinct(up: set<int>, me: int, i: nat)
    ensures forall k, l :: 0 <= k < l < |Peers(up, me, i)| ==> Peers(up, me, i)[k] != Peers(up, me, i)[l]
    decreases SERVERS - i
  {
    if i < SERVERS {
      PeersDistinct(up, me, i + 1);
      PeersUp(up, me, i + 1, i);
      assert i !in Peers(up, me, i + 1);
    }
  }

  lemma {:induction false} SendAllOk(up: set<int>, me: int, peers: seq<int>, m: Msg)
    requires forall j :: j in peers ==> j in up && j != me
    ensures SendsOk(up, me, m.req, SendAll(peers, m))
  {
    if peers != [] {
      assert peers[0] in peers && forall j :: j in peers[1..] ==> j in peers;
      SendAllOk(up, me, peers[1..], m);
    }
  }

  lemma ForwardSends(s: Server, up: set<int>, c: Client, req: Request)
    ensures SendsOk(up, s.me, req, Forward(s, Peers(up, s.me, 0), c, req).out)
  {
    forall j | j in Peers(up, s.me, 0) ensures j in up && j != s.me { PeersUp(up, s.me, 0, j); }
    SendAllOk(up, s.me, Peers(up, s.me, 0), Ask(s.nextID, c, req));
  }

  /** The lock bodies send nothing; the entry points at most forward a lock operation. */
  lemma IssueLockSends(s: Server, up: set<int>, c: Client, lockOp: Request, req: Request)
    requires lockOp.Acquire? || lockOp.Release?
    ensures IssueLock(s, up, c, lockOp).s.me == s.me
    ensures SendsOk(up, s.me, req, IssueLock(s, up, c, lockOp).out)
  {
    hide Peers;
    ForwardSends(s, up, c, lockOp);
  }

  lemma {:induction false} WakeAllSends(s: Server, up: set<int>, lock: int, q: seq<Client>, req: Request)
    ensures WakeAll(s, up, lock, q).s.me == s.me
    ensures SendsOk(up, s.me, req, WakeAll(s, up, lock, q).out)
    decreases |q|
  {
    if q != [] {
      hide IssueLock;
      var e := IssueLock(s, up, q[0], Acquire(lock));
      IssueLockSends(s, up, q[0], Acquire(lock), req);
      WakeAllSends(e.s, up, lock, q[1..], req);
      SendsAppend(up, s.me, req, e.out, WakeAll(e.s, up, lock, q[1..]).out);
    }
  }

  lemma CVOpSends(s: Server, up: set<int>, i: int, lock: int, c: Client, req: Request)
    ensures SendsOk(up, s.me, req, DoWait(s, up, i, lock, c, req).out) && DoWait(s, up, i, lock, c, req).s.me == s.me
    ensures SendsOk(up, s.me, req, DoSignal(s, up, i, lock, c, req).out) && DoSignal(s, up, i, lock, c, req).s.me == s.me
    ensures SendsOk(up, s.me, req, DoBroadcast(s, up, i, lock, c, req).out) && DoBroadcast(s, up, i, lock, c, req).s.me == s.me
  {
    if Live(s.cvs.slots, i) {
      hide IssueLock, WakeAll;
      var d := s.cvs.slots[i].value.data;
      IssueLockSends(SetCV(s, i, CVData(d.q + [c], lock)), up, c, Release(lock), req);
      if d.q != [] {
        var t := SetCV(s, i, CVData(d.q[1..], if |d.q| == 1 then -1 else d.waitingLock));
        IssueLockSends(t, up, d.q[0], Acquire(lock), req);
      }
      WakeAllSends(if d.q == [] then s else SetCV(s, i, CVData([], -1)), up, lock, d.q, req);
    }
  }

  lemma DoSends(s: Server, up: set<int>, i: int, c: Client, req: Request)
    requires !req.Create?
    ensures SendsOk(up, s.me, req, Do(s, up, i, c, req).out) && Do(s, up, i, c, req).s.me == s.me
  {
    hide DoWait, DoSignal, DoBroadcast;
    match req
    case Wait(_, lock) => CVOpSends(s, up, i, lock, c, req);
    case Signal(_, lock) => CVOpSends(s, up, i, lock, c, req);
    case Broadcast(_, lock) => CVOpSends(s, up, i, lock, c, req);
    case Acquire(_) =>
    case Release(_) =>
    case DestroyLock(_) =>
    case DestroyCV(_) =>
    case Set(_, index, value) =>
    case Get(_, index) =>
    case DestroyMV(_) =>
  }

  /** What a create leaves alone, whatever the tables hold. */
  lemma DoCreateFrame(s: Server, c: Client, req: Request)
    requires req.Create?
    ensures var e := DoCreate(s, c, req);
            && e.s.me == s.me && e.s.pending == s.pending && e.s.nextID == s.nextID
            && |e.out| == 1 && e.out[0].Answer? && e.out[0].client == c && e.out[0].to == req
  {
  }

  lemma {:induction false} AnswerNamedFrame(s: Server, k: Kind, n: string)
    ensures var e := AnswerNamed(s, k, n);
            && e.s.me == s.me && e.s.nextID == s.nextID && e.s.pending == DropNamed(s.pending, k, n)
            && forall j :: 0 <= j < |e.out| ==> e.out[j].Answer?
    decreases |s.pending|
  {
    var i := FindPendingNamed(s.pending, k, n, 0);
    if i != -1 {
      hide DoCreate;
      var p := s.pending[i];
      DoCreateFrame(s, p.client, p.req);
      AnswerNamedFrame(DoCreate(s, p.client, p.req).s.(pending := RemoveAt(s.pending, i)), k, n);
    }
  }

  lemma OnClientSends(s: Server, up: set<int>, c: Client, req: Request)
    ensures SendsOk(up, s.me, req, OnClient(s, up, c, req).out) && OnClient(s, up, c, req).s.me == s.me
  {
    hide Do, DoCreate;
    ForwardSends(s, up, c, req);
    if req.Create? {
      DoCreateFrame(s, c, req);
      DoCreateFrame(s.(nextID := s.nextID + 1), c, req);
    } else {
      var i := MyIndex(Target(req), s.me);
      DoSends(s, up, i, c, req);
      DoSends(s.(nextID := s.nextID + 1), up, i, c, req);
    }
  }

  lemma OnAskSends(s: Server, up: set<int>, from: int, m: Msg)
    requires m.Ask? && from in up && from != s.me
    ensures SendsOk(up, s.me, m.req, OnAsk(s, up, from, m).out) && OnAsk(s, up, from, m).s.me == s.me
  {
    hide Do, DoCreate;
    if m.req.Create? {
      DoCreateFrame(s, m.client, m.req);
    } else {
      DoSends(s, up, MyIndex(Target(m.req), s.me), m.client, m.req);
    }
  }

  lemma OnAllNoSends(s: Server, up: set<int>, i: int, req: Request)
    requires 0 <= i < |s.pending| && SameTarget(s.pending[i].req, req)
    ensures SendsOk(up, s.me, req, OnAllNo(s, up, i, req).out) && OnAllNo(s, up, i, req).s.me == s.me
  {
    hide Do, DoCreate, AnswerNamed;
    var p := s.pending[i];
    if req.Create? {
      DoCreateFrame(s, p.client, p.req);
      AnswerNamedFrame(DoCreate(s, p.client, p.req).s.(pending := RemoveAt(s.pending, i)), req.kind, req.name);
    } else {
      DoSends(s, up, Target(req), p.client, req);
    }
  }

  lemma OnTellSends(s: Server, up: set<int>, m: Msg)
    requires m.Tell?
    ensures SendsOk(up, s.me, m.req, OnTell(s, up, m).out) && OnTell(s, up, m).s.me == s.me
  {
    hide OnAllNo, DropNamed;
    var i := FindPending(s.pending, m, 0);
    if i != -1 {
      var p := s.pending[i].(noCount := s.pending[i].noCount + 1);
      OnAllNoSends(s.(pending := s.pending[i := p]), up, i, m.req);
    }
  }

  /** What a channel gains from outputs in order. */
  lemma {:induction false} SentToOk(up: set<int>, me: int, req: Request, out: seq<Out>, dest: int)
    requires SendsOk(up, me, req, out)
    ensures SentTo(out, dest) != [] ==> dest in up && dest != me
    ensures forall k :: 0 <= k < |SentTo(out, dest)| ==>
              SentTo(out, dest)[k].req.Acquire? || SentTo(out, dest)[k].req.Release? || SentTo(out, dest)[k].req == req
    decreases |out|
  {
    if out != [] {
      assert forall k :: 0 <= k < |out[1..]| ==> out[1..][k] == out[k + 1];
      SentToOk(up, me, req, out[1..], dest);
    }
  }

  /** Every step keeps the system well formed, whatever the servers are asked. */
  lemma StepWellFormed(sys: Sys, a: Action)
    requires WellFormed(sys) && Enabled(sys, a)
    ensures WellFormed(Step(sys, a))
  {
    hide OnClient, OnAsk, OnTell;
    match a
    case FromClient(i, c, req) =>
      var e := OnClient(sys.servers[i], sys.up, c, req);
      OnClientSends(sys.servers[i], sys.up, c, req);
      PostWellFormed(sys, sys.chan, i, e, req);
    case Deliver(i, j) =>
      var m := Chan(sys.chan, i, j)[0];
      var e := OnMsg(sys.servers[j], sys.up, i, m);
      if m.Ask? { OnAskSends(sys.servers[j], sys.up, i, m); } else { OnTellSends(sys.servers[j], sys.up, m); }
      PostWellFormed(sys, sys.chan[(i, j) := Chan(sys.chan, i, j)[1..]], j, e, m.req);
  }

  lemma PostWellFormed(sys: Sys, chan: Channels, me: int, e: Eff, req: Request)
    requires WellFormed(sys) && me in sys.up && e.s.me == me && SendsOk(sys.up, me, req, e.out)
    requires forall i, j :: Chan(chan, i, j) != [] ==> Chan(sys.chan, i, j) != []
    ensures WellFormed(Sys(sys.up, sys.servers[me := e.s], Post(chan, me, e.out), sys.trace + At(me, e.out)))
  {
    forall i, j | Chan(Post(chan, me, e.out), i, j) != [] ensures i in sys.up && j in sys.up && i != j {
      PostChannels(chan, me, e.out, i, j);
      SentToOk(sys.up, me, req, e.out, j);
    }
  }
}
