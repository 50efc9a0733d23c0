/** What the operations put on the pending list and on the channels: every request they push is
    asked of every other server, once, in order. */
module Emissions {
  import opened Wire
  import opened Tables
  import opened Protocol
  import opened Network
  import opened Sends

  function AskFor(p: Pending): Msg { Ask(p.requestID, p.client, p.req) }

  function AsksFor(ps: seq<Pending>): seq<Msg> {
    if ps == [] then [] else [AskFor(ps[0])] + AsksFor(ps[1..])
  }

  /** Numbered in order from `from` up to (not including) `to`. */
  ghost predicate Numbered(ps: seq<Pending>, from: int, to: int) {
    && (forall k :: 0 <= k < |ps| ==> from <= ps[k].requestID < to)
    && (forall k, l :: 0 <= k < l < |ps| ==> ps[k].requestID < ps[l].requestID)
  }

  /** Just forwarded to n servers, none of which has replied. */
  ghost predicate JustSent(ps: seq<Pending>, n: int) {
    forall k :: 0 <= k < |ps| ==> ps[k].sentCount == n && ps[k].noCount == 0 && n > 0
  }

  /** From s, the effect pushed the requests `more` and asked every peer for each of them. */
  ghost predicate Emits(s: Server, up: set<int>, e: Eff, more: seq<Pending>) {
    var peers := Peers(up, s.me, 0);
    && e.s.me == s.me && e.s.nextID >= s.nextID
    && e.s.pending == s.pending + more
    && Numbered(more, s.nextID, e.s.nextID) && JustSent(more, |peers|)
    && AskedOf(e.out, peers, more) && NotOurs(more, s.me)
  }

  /** None of the operations by identifier among them is for this machine. */
  ghost predicate NotOurs(ps: seq<Pending>, me: int) {
    forall k :: 0 <= k < |ps| ==> ps[k].req.Create? || MyIndex(Target(ps[k].req), me) == -1
  }

  ghost predicate AskedOf(out: seq<Out>, peers: seq<int>, more: seq<Pending>) {
    forall d :: SentTo(out, d) == if d in peers then AsksFor(more) else []
  }

  lemma {:induction false} AsksForAppend(a: seq<Pending>, b: seq<Pending>)
    ensures AsksFor(a + b) == AsksFor(a) + AsksFor(b)
  {
    if a == [] {
      assert a + b == b;
    } else {
      assert (a + b)[0] == a[0] && (a + b)[1..] == a[1..] + b;
      AsksForAppend(a[1..], b);
    }
  }

  lemma NumberedAppend(m: seq<Pending>, n: seq<Pending>, from: int, mid: int, to: int, peers: int)
    requires from <= mid <= to && Numbered(m, from, mid) && Numbered(n, mid, to) && JustSent(m, peers) && JustSent(n, peers)
    ensures Numbered(m + n, from, to) && JustSent(m + n, peers)
  {
  }

  lemma AskedOfAppend(a: seq<Out>, b: seq<Out>, peers: seq<int>, m: seq<Pending>, n: seq<Pending>)
    requires AskedOf(a, peers, m) && AskedOf(b, peers, n)
    ensures AskedOf(a + b, peers, m + n)
  {
    hide SentTo, AsksFor;
    AsksForAppend(m, n);
    forall d ensures SentTo(a + b, d) == if d in peers then AsksFor(m + n) else [] { SentToAppend(a, b, d); }
  }

  lemma EmitsCompose(s: Server, up: set<int>, a: Eff, m: seq<Pending>, b: Eff, n: seq<Pending>)
    requires Emits(s, up, a, m) && Emits(a.s, up, b, n)
    ensures Emits(s, up, Eff(b.s, a.out + b.out), m + n)
  {
    hide Peers, AskedOf, Numbered, JustSent, MyIndex;
    NumberedAppend(m, n, s.nextID, a.s.nextID, b.s.nextID, |Peers(up, s.me, 0)|);
    AskedOfAppend(a.out, b.out, Peers(up, s.me, 0), m, n);
    assert (s.pending + m) + n == s.pending + (m + n);
  }

  lemma SentToQuiet(a: Out, out: seq<Out>, b: Out)
    requires !a.Send? && !b.Send?
    ensures forall d :: SentTo([a] + out, d) == SentTo(out, d) && SentTo(out + [b], d) == SentTo(out, d)
  {
    forall d ensures SentTo([a] + out, d) == SentTo(out, d) && SentTo(out + [b], d) == SentTo(out, d) {
      SentToAppend([a], out, d);
      SentToAppend(out, [b], d);
      assert [a][1..] == [] && [b][1..] == [];
    }
  }

  /** Outputs that are not messages do not matter. */
  lemma EmitsAround(s: Server, up: set<int>, e: Eff, more: seq<Pending>, a: Out, b: Out)
    requires Emits(s, up, e, more) && !a.Send? && !b.Send?
    ensures Emits(s, up, Eff(e.s, [a] + e.out), more)
    ensures Emits(s, up, Eff(e.s, e.out + [b]), more)
  {
    hide Peers, SentTo;
    SentToQuiet(a, e.out, b);
  }

  /** A state change before the effect, away from the pending list. */
  lemma EmitsFrom(s: Server, t: Server, up: set<int>, e: Eff, more: seq<Pending>)
    requires t.me == s.me && t.pending == s.pending && t.nextID >= s.nextID && Emits(t, up, e, more)
    ensures Emits(s, up, e, more)
  {
    hide Peers, SentTo, AsksFor, MyIndex;
  }

  lemma {:induction false} NoSends(out: seq<Out>, d: int)
    requires forall k :: 0 <= k < |out| ==> !out[k].Send?
    ensures SentTo(out, d) == []
    decreases |out|
  {
    if out != [] { NoSends(out[1..], d); }
  }

  /** An effect without messages or new pending requests. */
  lemma EmitsNothing(s: Server, up: set<int>, e: Eff)
    requires e.s.me == s.me && e.s.pending == s.pending && e.s.nextID >= s.nextID
    requires forall k :: 0 <= k < |e.out| ==> !e.out[k].Send?
    ensures Emits(s, up, e, [])
  {
    hide Peers, SentTo;
    forall d ensures SentTo(e.out, d) == [] { NoSends(e.out, d); }
    assert s.pending + [] == s.pending;
  }

  lemma {:induction false} SentToAll(peers: seq<int>, m: Msg, d: int)
    requires forall k, l :: 0 <= k < l < |peers| ==> peers[k] != peers[l]
    ensures SentTo(SendAll(peers, m), d) == if d in peers then [m] else []
  {
    if peers != [] {
      var rest := SendAll(peers[1..], m);
      assert SendAll(peers, m) == [Send(peers[0], m)] + rest;
      assert ([Send(peers[0], m)] + rest)[1..] == rest;
      SentToAll(peers[1..], m, d);
      assert forall k :: 0 <= k < |peers| - 1 ==> peers[1..][k] == peers[k + 1];
    }
  }

  lemma ForwardEmits(s: Server, up: set<int>, c: Client, req: Request)
    requires Peers(up, s.me, 0) != [] && (req.Create? || MyIndex(Target(req), s.me) == -1)
    ensures var peers := Peers(up, s.me, 0);
            Emits(s, up, Forward(s, peers, c, req), [Pending(c, req, |peers|, 0, s.nextID)])
  {
    hide Peers;
    var peers := Peers(up, s.me, 0);
    var p := Pending(c, req, |peers|, 0, s.nextID);
    PeersDistinct(up, s.me, 0);
    forall d ensures SentTo(SendAll(peers, AskFor(p)), d) == if d in peers then [AskFor(p)] else [] {
      SentToAll(peers, AskFor(p), d);
    }
    assert AsksFor([p]) == [AskFor(p)] by { assert [p][1..] == []; }
  }

  /** The lock bodies and the other simple bodies push nothing and send nothing. */
  lemma DoLockEmits(s: Server, up: set<int>, i: int, c: Client, req: Request)
    requires req.Acquire? || req.Release? || req.DestroyLock?
    ensures Emits(s, up, DoLock(s, i, c, req), [])
  {
    hide Emits;
    EmitsNothing(s, up, DoLock(s, i, c, req));
  }

  lemma IssueLockEmits(s: Server, up: set<int>, c: Client, req: Request) returns (more: seq<Pending>)
    requires req.Acquire? || req.Release?
    ensures Emits(s, up, IssueLock(s, up, c, req), more)
  {
    hide Emits, Peers, DoLock, MyIndex;
    var i := MyIndex(Target(req), s.me);
    var peers := Peers(up, s.me, 0);
    var e;
    if i != -1 {
      e, more := DoLock(s, i, c, req), [];
      DoLockEmits(s, up, i, c, req);
    } else if peers == [] {
      var t := s.(nextID := s.nextID + 1);
      e, more := DoLock(t, i, c, req), [];
      DoLockEmits(t, up, i, c, req);
      EmitsFrom(s, t, up, e, []);
    } else {
      e, more := Forward(s, peers, c, req), [Pending(c, req, |peers|, 0, s.nextID)];
      ForwardEmits(s, up, c, req);
    }
    EmitsAround(s, up, e, more, Issued(c, req), Issued(c, req));
  }

  lemma {:induction false} WakeAllEmits(s: Server, up: set<int>, lock: int, q: seq<Client>) returns (more: seq<Pending>)
    ensures Emits(s, up, WakeAll(s, up, lock, q), more)
    decreases |q|
  {
    hide Emits, IssueLock;
    if q == [] {
      EmitsNothing(s, up, Eff(s, []));
      more := [];
    } else {
      var e := IssueLock(s, up, q[0], Acquire(lock));
      var m := IssueLockEmits(s, up, q[0], Acquire(lock));
      var n := WakeAllEmits(e.s, up, lock, q[1..]);
      EmitsCompose(s, up, e, m, WakeAll(e.s, up, lock, q[1..]), n);
      more := m + n;
    }
  }

  lemma DoWaitEmits(s: Server, up: set<int>, i: int, lock: int, c: Client, req: Request) returns (more: seq<Pending>)
    ensures Emits(s, up, DoWait(s, up, i, lock, c, req), more)
  {
    hide Emits, IssueLock;
    more := [];
    if DoWait(s, up, i, lock, c, req) == Eff(s, [Answer(c, req, Status(false))]) {
      EmitsNothing(s, up, DoWait(s, up, i, lock, c, req));
    } else {
      var d := s.cvs.slots[i].value.data;
      var t := SetCV(s, i, CVData(d.q + [c], lock));
      more := IssueLockEmits(t, up, c, Release(lock));
      EmitsFrom(s, t, up, IssueLock(t, up, c, Release(lock)), more);
    }
  }

  lemma DoSignalEmits(s: Server, up: set<int>, i: int, lock: int, c: Client, req: Request) returns (more: seq<Pending>)
    ensures Emits(s, up, DoSignal(s, up, i, lock, c, req), more)
  {
    hide Emits, IssueLock;
    more := [];
    var e := DoSignal(s, up, i, lock, c, req);
    if e == Eff(s, [Answer(c, req, Status(false))]) || e == Eff(s, [Answer(c, req, Status(true))]) {
      EmitsNothing(s, up, e);
    } else {
      var d := s.cvs.slots[i].value.data;
      var t := SetCV(s, i, CVData(d.q[1..], if |d.q| == 1 then -1 else d.waitingLock));
      var f := IssueLock(t, up, d.q[0], Acquire(lock));
      more := IssueLockEmits(t, up, d.q[0], Acquire(lock));
      EmitsFrom(s, t, up, f, more);
      EmitsAround(s, up, f, more, Answer(c, req, Status(true)), Answer(c, req, Status(true)));
    }
  }

  lemma DoBroadcastEmits(s: Server, up: set<int>, i: int, lock: int, c: Client, req: Request) returns (more: seq<Pending>)
    ensures Emits(s, up, DoBroadcast(s, up, i, lock, c, req), more)
  {
    hide Emits, WakeAll;
    more := [];
    if !Live(s.cvs.slots, i) {
      EmitsNothing(s, up, DoBroadcast(s, up, i, lock, c, req));
    } else {
      var d := s.cvs.slots[i].value.data;
      var t := if d.q == [] then s else SetCV(s, i, CVData([], -1));
      var f := WakeAll(t, up, lock, d.q);
      more := WakeAllEmits(t, up, lock, d.q);
      EmitsFrom(s, t, up, f, more);
      EmitsAround(s, up, f, more, Answer(c, req, Status(true)), Answer(c, req, Status(true)));
    }
  }

  lemma DoSimpleEmits(s: Server, up: set<int>, i: int, c: Client, req: Request)
    requires req.DestroyCV? || req.Set? || req.Get? || req.DestroyMV?
    ensures Emits(s, up, Do(s, up, i, c, req), [])
  {
    hide Emits;
    EmitsNothing(s, up, Do(s, up, i, c, req));
  }

  lemma DoEmits(s: Server, up: set<int>, i: int, c: Client, req: Request) returns (more: seq<Pending>)
    requires !req.Create?
    ensures Emits(s, up, Do(s, up, i, c, req), more)
  {
    hide Emits, DoWait, DoSignal, DoBroadcast, DoLock;
    if req.Acquire? || req.Release? || req.DestroyLock? {
      DoLockEmits(s, up, i, c, req);
      more := [];
    } else if req.Wait? {
      more := DoWaitEmits(s, up, i, req.lock, c, req);
      EmitsAround(s, up, DoWait(s, up, i, req.lock, c, req), more, Ran(i, c, req), Ran(i, c, req));
    } else if req.Signal? {
      more := DoSignalEmits(s, up, i, req.lock, c, req);
      EmitsAround(s, up, DoSignal(s, up, i, req.lock, c, req), more, Ran(i, c, req), Ran(i, c, req));
    } else if req.Broadcast? {
      more := DoBroadcastEmits(s, up, i, req.lock, c, req);
      EmitsAround(s, up, DoBroadcast(s, up, i, req.lock, c, req), more, Ran(i, c, req), Ran(i, c, req));
    } else {
      DoSimpleEmits(s, up, i, c, req);
      more := [];
    }
  }

  lemma OnClientEmits(s: Server, up: set<int>, c: Client, req: Request) returns (more: seq<Pending>)
    ensures Emits(s, up, OnClient(s, up, c, req), more)
  {
    hide Emits, Peers, Do, DoCreate, MyIndex;
    var peers := Peers(up, s.me, 0);
    var t := s.(nextID := s.nextID + 1);
    var e;
    if req.Create? {
      if OwnsKey(s, req.kind, req.name) || peers == [] {
        var from := if OwnsKey(s, req.kind, req.name) then s else t;
        e, more := DoCreate(from, c, req), [];
        DoCreateFrame(from, c, req);
        EmitsNothing(s, up, e);
      } else {
        e, more := Forward(s, peers, c, req), [Pending(c, req, |peers|, 0, s.nextID)];
        ForwardEmits(s, up, c, req);
      }
    } else {
      var i := MyIndex(Target(req), s.me);
      if i != -1 || peers == [] {
        var from := if i != -1 then s else t;
        e := Do(from, up, i, c, req);
        more := DoEmits(from, up, i, c, req);
        EmitsFrom(s, from, up, e, more);
      } else {
        e, more := Forward(s, peers, c, req), [Pending(c, req, |peers|, 0, s.nextID)];
        ForwardEmits(s, up, c, req);
      }
    }
    EmitsAround(s, up, e, more, Issued(c, req), Issued(c, req));
  }
}
