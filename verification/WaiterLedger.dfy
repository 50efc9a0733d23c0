/** Distributed wait and signal lose no one: for every lock and client, over all servers, what was taken
    on is what still waits, travels, queues or was answered. */
module WaiterLedger {
  import opened Wire
  import opened Protocol
  import opened Network
  import opened Seqs
  import opened Routing
  import opened RoutingRun
  import opened Waiters
  import opened WaitersRun
  import opened WakeOrder
  import opened WakeRuns
  import opened LockBooks
  import Sends

  // ---- the slot law over every run ----

  /** Every acquire in the trace ran on the slot its identifier leads to, and every message went to
      another server that is up. */
  ghost predicate TraceOk(up: set<int>, trace: seq<(int, Out)>) {
    forall k :: 0 <= k < |trace| ==> EventOk(up, trace[k].0, trace[k].1)
  }

  ghost predicate EventOk(up: set<int>, me: int, o: Out) {
    && (o.Ran? && o.what.Acquire? ==> o.slot == SlotFor(up, me, o.what.lock))
    && (o.Send? ==> o.dest in up && o.dest != me)
  }

  ghost predicate SlotAt(sys: Sys, j: int, i: int, c: Client) {
    j in sys.servers
    && Places(sys.servers[j], i, c) + TallyAt(sys.trace, j, AnsweredOn(sys.up, j, i, c)) == TallyAt(sys.trace, j, RunOn(i, c))
  }

  ghost predicate SlotsOk(sys: Sys) {
    TraceOk(sys.up, sys.trace) && forall j, i, c :: j in sys.up && i >= 0 ==> SlotAt(sys, j, i, c)
  }

  ghost predicate LedgerOk(sys: Sys) { AllKeepLaws(sys) && RoutingOk(sys) && SlotsOk(sys) }

  /** A reply to a pending acquire is about an identifier that is not this server's. */
  lemma PendingSlot(sys: Sys, from: int, j: int)
    requires LedgerOk(sys) && Enabled(sys, Deliver(from, j)) && Chan(sys.chan, from, j)[0].Tell?
    ensures var m := Chan(sys.chan, from, j)[0];
            var k := FindPending(sys.servers[j].pending, m, 0);
            m.req.Acquire? && k != -1 ==> Target(m.req) == SlotFor(sys.up, j, m.req.lock)
  {
    hide FindPending, Peers, Matches, SlotFor, AwaitsOwner, Ordered, OwnersSayYes, KeepsLaws, SlotsOk;
    var m := Chan(sys.chan, from, j)[0];
    var ps := sys.servers[j].pending;
    var k := FindPending(ps, m, 0);
    if m.req.Acquire? && k != -1 {
      Sends.PeersUp(sys.up, j, 0, from);
      PendingElsewhere(ps, sys.up, sys.chan, j, k);
      SameAcquire(ps[k], m);
      ForeignSlot(sys.up, j, m.req.lock);
    }
  }

  lemma SameAcquire(p: Pending, m: Msg)
    requires Matches(p, m) && m.req.Acquire?
    ensures p.req == m.req
  {
  }

  lemma PendingElsewhere(ps: seq<Pending>, up: set<int>, chan: Channels, j: int, k: int)
    requires AwaitsOwner(ps, up, chan, j) && j in up && 0 <= k < |ps|
    ensures !ForOwner(ps[k].req, j)
  {
  }

  lemma ForeignSlot(up: set<int>, me: int, id: int)
    requires !ForOwner(Acquire(id), me) && Peers(up, me, 0) != [] && me >= 0
    ensures SlotFor(up, me, id) == id
  {
    hide Peers;
  }

  lemma ActorEffect(sys: Sys, a: Action) returns (e: Eff)
    requires LedgerOk(sys) && Enabled(sys, a)
    ensures Actor(a) in sys.up && Actor(a) in sys.servers && Step(sys, a).trace == sys.trace + At(Actor(a), e.out)
    ensures Step(sys, a).servers == sys.servers[Actor(a) := e.s] && Step(sys, a).up == sys.up
    ensures SlotKept(sys.servers[Actor(a)], sys.up, e) && SendsUp(sys.up, Actor(a), e.out) && Sound(sys.servers[Actor(a)])
    ensures sys.servers[Actor(a)].me == Actor(a)
  {
    hide OnClient, OnAsk, OnTell, SlotKept, Sends.SendsOk, SendsUp, Sound, RoutingOk, SlotsOk, Post, At;
    match a
    case FromClient(i, c, req) =>
      e := OnClient(sys.servers[i], sys.up, c, req);
      OnClientKept(sys.servers[i], sys.up, c, req);
      Sends.OnClientSends(sys.servers[i], sys.up, c, req);
      SentUp(sys.up, i, req, e.out);
    case Deliver(from, j) =>
      var m := Chan(sys.chan, from, j)[0];
      e := OnMsg(sys.servers[j], sys.up, from, m);
      if m.Ask? {
        OnAskKept(sys.servers[j], sys.up, from, m);
        Sends.OnAskSends(sys.servers[j], sys.up, from, m);
      } else {
        PendingSlot(sys, from, j);
        OnTellKept(sys.servers[j], sys.up, m);
        Sends.OnTellSends(sys.servers[j], sys.up, m);
      }
      SentUp(sys.up, j, m.req, e.out);
  }

  ghost predicate SendsUp(up: set<int>, me: int, out: seq<Out>) {
    forall k :: 0 <= k < |out| && out[k].Send? ==> out[k].dest in up && out[k].dest != me
  }

  lemma SentUp(up: set<int>, me: int, req: Request, out: seq<Out>)
    requires Sends.SendsOk(up, me, req, out)
    ensures SendsUp(up, me, out)
  {
  }

  lemma {:induction false} AtEach(me: int, out: seq<Out>, k: int)
    requires 0 <= k < |out|
    ensures At(me, out)[k] == (me, out[k])
  {
    if k > 0 { AtEach(me, out[1..], k - 1); }
  }

  lemma TraceGrows(up: set<int>, trace: seq<(int, Out)>, me: int, out: seq<Out>)
    requires TraceOk(up, trace) && RightSlots(up, me, out) && SendsUp(up, me, out)
    ensures TraceOk(up, trace + At(me, out))
  {
    hide SlotFor, At;
    var more := At(me, out);
    forall k | 0 <= k < |trace + more| ensures EventOk(up, (trace + more)[k].0, (trace + more)[k].1) {
      if k >= |trace| {
        AtEach(me, out, k - |trace|);
        assert (trace + more)[k] == more[k - |trace|];
      }
    }
  }

  lemma StepSlots(sys: Sys, a: Action)
    requires LedgerOk(sys) && Enabled(sys, a)
    ensures SlotsOk(Step(sys, a))
  {
    hide Enabled, Step, AllKeepLaws, RoutingOk, TraceOk, RightSlots, SendsUp, At, Places, TallyAt, Tally, Sound;
    var e := ActorEffect(sys, a);
    TraceGrows(sys.up, sys.trace, Actor(a), e.out);
    forall j, i, c | j in sys.up && i >= 0 ensures SlotAt(Step(sys, a), j, i, c) {
      assert SlotAt(sys, j, i, c);
      TallyAtGrows(sys.trace, Actor(a), e.out, j, AnsweredOn(sys.up, j, i, c));
      TallyAtGrows(sys.trace, Actor(a), e.out, j, RunOn(i, c));
      if j == Actor(a) { assert SlotLaw(sys.servers[j], sys.up, e, i, c); }
    }
  }

  lemma {:induction false} RunLedger(sys: Sys, acts: seq<Action>)
    requires LedgerOk(sys) && Run(sys, acts)
    ensures LedgerOk(After(sys, acts)) && After(sys, acts).up == sys.up
    decreases |acts|
  {
    hide AllKeepLaws, RoutingOk, SlotsOk, Step, Enabled;
    if acts != [] {
      StepKeepsLaws(sys, acts[0]);
      StepKeepsRouting(sys, acts[0]);
      StepSlots(sys, acts[0]);
      RunLedger(Step(sys, acts[0]), acts[1..]);
    }
  }

  lemma InitialLedger(sys: Sys)
    requires Initial(sys)
    ensures LedgerOk(sys)
  {
    hide RoutingOk, AllKeepLaws, Places;
    InitialRouting(sys);
    if exists j :: j in sys.up {
      var j :| j in sys.up;
      InitialLaws(sys, j, NOBODY);
    } else {
      assert sys.up == {};
      NobodyUp(sys);
    }
    forall j, i, c | j in sys.up ensures Places(sys.servers[j], i, c) == 0 { NoPlaces(sys, j, i, c); }
  }

  lemma NobodyUp(sys: Sys)
    requires Initial(sys) && sys.up == {}
    ensures AllKeepLaws(sys)
  {
  }

  lemma NoPlaces(sys: Sys, j: int, i: int, c: Client)
    requires Initial(sys) && j in sys.up
    ensures Places(sys.servers[j], i, c) == 0
  {
  }

  /** Per lock slot of a server, over every run and any requests: the acquires run on it are the answers
      given about it and the places in its queue. */
  lemma SlotConserved(sys: Sys, acts: seq<Action>, o: int, i: int, c: Client)
    requires Initial(sys) && Run(sys, acts) && o in sys.up && i >= 0
    ensures o in After(sys, acts).servers
    ensures var end := After(sys, acts);
            TallyAt(end.trace, o, RunOn(i, c)) == TallyAt(end.trace, o, AnsweredOn(sys.up, o, i, c)) + Places(end.servers[o], i, c)
  {
    hide Initial, Run, After, AllKeepLaws, RoutingOk, TraceOk, TallyAt, Places;
    InitialLedger(sys);
    RunLedger(sys, acts);
    assert SlotAt(After(sys, acts), o, i, c);
  }

  // ---- the totals ----

  /** What server j contributes, for lock x and client c: releases issued for waits it accepted, acquires
      the client itself sent it, places in its condition variables' queues, and acquires on their way from
      it to the lock's owner. */
  datatype Term = Accepted | OwnAcquires | Waiting | OnTheWay

  function Amount(sys: Sys, acts: seq<Action>, t: Term, j: int, x: int, c: Client): int {
    if !(j in sys.up && j in sys.servers) then 0
    else
      match t
      case Accepted => Releases(JobsOf(sys.trace, j, x), x, c) - WakeRuns.Sent(acts, j, c, Release(x))
      case OwnAcquires => WakeRuns.Sent(acts, j, c, Acquire(x))
      case Waiting => WaitsWith(sys.servers[j].cvs.slots, x, c)
      case OnTheWay => if j == OwnerOf(x) then 0 else Acquires(JobsIn(Chan(sys.chan, j, OwnerOf(x)), OwnerOf(x)), x, c)
  }

  /** Over the servers below n. */
  function Total(sys: Sys, acts: seq<Action>, t: Term, n: nat, x: int, c: Client): int {
    if n == 0 then 0 else Total(sys, acts, t, n - 1, x, c) + Amount(sys, acts, t, n - 1, x, c)
  }

  /** The acquires of x that owner o said YES to, asked by the servers below n. */
  function Accepts(trace: seq<(int, Out)>, o: int, n: nat, x: int, c: Client): nat {
    if n == 0 then 0 else Accepts(trace, o, n - 1, x, c) + Acquires(PickAt(trace, o, YesTo(n - 1, o)), x, c)
  }

  lemma {:induction false} AcceptsGrow(trace: seq<(int, Out)>, e: (int, Out), o: int, n: nat, x: int, c: Client)
    ensures var hit := e.0 == o && e.1.Send? && 0 <= e.1.dest < n && Look(e.1, YesTo(e.1.dest, o)) != [];
            Accepts([e] + trace, o, n, x, c)
              == Accepts(trace, o, n, x, c) + if hit then Acquires(Look(e.1, YesTo(e.1.dest, o)), x, c) else 0
  {
    if n > 0 {
      AcceptsGrow(trace, e, o, n - 1, x, c);
      assert ([e] + trace)[0] == e && ([e] + trace)[1..] == trace;
      var mine := if e.0 == o then Look(e.1, YesTo(n - 1, o)) else [];
      assert PickAt([e] + trace, o, YesTo(n - 1, o)) == mine + PickAt(trace, o, YesTo(n - 1, o));
      CountAppend(mine, PickAt(trace, o, YesTo(n - 1, o)), x, c);
      NoneCounted(x, c);
    }
  }

  /** What the owner serves is what it took on itself and what it said YES to, whoever asked. */
  lemma {:induction false} ServedByAsker(up: set<int>, trace: seq<(int, Out)>, o: int, x: int, c: Client)
    requires TraceOk(up, trace) && forall j :: j in up ==> 0 <= j < SERVERS
    ensures Acquires(PickAt(trace, o, ServedFor(o)), x, c)
         == Acquires(PickAt(trace, o, IssuedFor(o)), x, c) + Accepts(trace, o, SERVERS, x, c)
  {
    hide SlotFor, Acquires, ForOwner, Accepts;
    if trace == [] {
      NoneCounted(x, c);
      NoneAccepted(o, SERVERS, x, c);
    } else {
      var e, rest := trace[0], trace[1..];
      assert EventOk(up, e.0, e.1);
      assert TraceOk(up, rest) by { assert forall k :: 0 <= k < |rest| ==> rest[k] == trace[k + 1]; }
      ServedByAsker(up, rest, o, x, c);
      assert trace == [e] + rest;
      AcceptsGrow(rest, e, o, SERVERS, x, c);
      var served := if e.0 == o then Look(e.1, ServedFor(o)) else [];
      var issued := if e.0 == o then Look(e.1, IssuedFor(o)) else [];
      CountAppend(served, PickAt(rest, o, ServedFor(o)), x, c);
      CountAppend(issued, PickAt(rest, o, IssuedFor(o)), x, c);
      NoneCounted(x, c);
    }
  }

  lemma {:induction false} NoneAccepted(o: int, n: nat, x: int, c: Client)
    ensures Accepts([], o, n, x, c) == 0
  {
    if n > 0 { NoneAccepted(o, n - 1, x, c); }
  }

  /** The owner never says YES to itself, or to a machine that is not up. */
  lemma {:induction false} NoYesTo(up: set<int>, trace: seq<(int, Out)>, o: int, j: int)
    requires TraceOk(up, trace) && (j == o || j !in up)
    ensures PickAt(trace, o, YesTo(j, o)) == []
  {
    hide SlotFor, ForOwner;
    if trace != [] {
      assert EventOk(up, trace[0].0, trace[0].1);
      assert TraceOk(up, trace[1..]) by { assert forall k :: 0 <= k < |trace| - 1 ==> trace[1..][k] == trace[k + 1]; }
      NoYesTo(up, trace[1..], o, j);
    }
  }

  /** Acquires that owner o ran on the slot of lock x under another identifier, after every server
      refused it: the owner of that identifier, machine 0, was down. */
  function Astray(trace: seq<(int, Out)>, o: int, x: int, c: Client): nat {
    if trace == [] then 0
    else (if IsAstray(trace[0].0, trace[0].1, o, x, c) then 1 else 0) + Astray(trace[1..], o, x, c)
  }

  predicate IsAstray(machine: int, e: Out, o: int, x: int, c: Client) {
    machine == o && e.Ran? && e.what.Acquire? && e.slot == x % TABLE_SIZE && e.caller == c && e.what.lock != x
  }

  lemma {:induction false} RunsOfLock(trace: seq<(int, Out)>, x: int, c: Client)
    requires x >= 0
    ensures TallyAt(trace, OwnerOf(x), RunOn(x % TABLE_SIZE, c))
         == Acquires(PickAt(trace, OwnerOf(x), RanFor(OwnerOf(x))), x, c) + Astray(trace, OwnerOf(x), x, c)
  {
    hide OwnerOf;
    if trace == [] {
      NoneCounted(x, c);
    } else {
      var o := OwnerOf(x);
      RunsOfLock(trace[1..], x, c);
      var head := if trace[0].0 == o then Look(trace[0].1, RanFor(o)) else [];
      CountAppend(head, PickAt(trace[1..], o, RanFor(o)), x, c);
      OneRun(trace[0].1, x, c);
      NoneCounted(x, c);
    }
  }

  lemma OneRun(e: Out, x: int, c: Client)
    requires x >= 0
    ensures Acquires(Look(e, RanFor(OwnerOf(x))), x, c)
         == if e.Ran? && e.what == Acquire(x) && e.slot == x % TABLE_SIZE && e.caller == c then 1 else 0
  {
    hide OwnerOf;
    var js := Look(e, RanFor(OwnerOf(x)));
    if js != [] {
      assert js[1..] == [];
      forall job ensures Times(js, job) == if js[0] == job then 1 else 0 {}
    }
  }

  /** While machine 0 is up none goes astray. */
  lemma {:induction false} NoneAstray(up: set<int>, trace: seq<(int, Out)>, x: int, c: Client)
    requires TraceOk(up, trace) && x >= 0 && (OwnerOf(x) == 0 || PickAt(trace, OwnerOf(x), RanFor(0)) == [])
    ensures Astray(trace, OwnerOf(x), x, c) == 0
  {
    hide SlotFor;
    if trace != [] {
      assert EventOk(up, trace[0].0, trace[0].1);
      assert TraceOk(up, trace[1..]) by { assert forall k :: 0 <= k < |trace| - 1 ==> trace[1..][k] == trace[k + 1]; }
      if IsAstray(trace[0].0, trace[0].1, OwnerOf(x), x, c) { AstrayIsForZero(up, trace[0].1.what.lock, x); }
      NoneAstray(up, trace[1..], x, c);
    }
  }

  lemma AstrayIsForZero(up: set<int>, id: int, x: int)
    requires x >= 0 && id != x && SlotFor(up, OwnerOf(x), id) == x % TABLE_SIZE
    ensures OwnerOf(x) != 0 && ForOwner(Acquire(id), 0)
  {
    hide Peers;
  }

  /** One server's share of the ledger. */
  ghost predicate Shares(sys: Sys, acts: seq<Action>, j: int, x: int, c: Client) {
    var o := OwnerOf(x);
    Amount(sys, acts, Accepted, j, x, c) + Amount(sys, acts, OwnAcquires, j, x, c)
      == Amount(sys, acts, Waiting, j, x, c) + Amount(sys, acts, OnTheWay, j, x, c)
         + Acquires(PickAt(sys.trace, o, YesTo(j, o)), x, c) + if j == o then Acquires(PickAt(sys.trace, o, IssuedFor(o)), x, c) else 0
  }

  lemma {:induction false} TotalShares(sys: Sys, acts: seq<Action>, n: nat, x: int, c: Client)
    requires OwnerOf(x) >= 0 && forall j :: 0 <= j < n ==> Shares(sys, acts, j, x, c)
    ensures var o := OwnerOf(x);
            Total(sys, acts, Accepted, n, x, c) + Total(sys, acts, OwnAcquires, n, x, c)
              == Total(sys, acts, Waiting, n, x, c) + Total(sys, acts, OnTheWay, n, x, c)
                 + Accepts(sys.trace, o, n, x, c) + if o < n then Acquires(PickAt(sys.trace, o, IssuedFor(o)), x, c) else 0
  {
    hide Amount, Acquires, PickAt, OwnerOf;
    if n > 0 {
      TotalShares(sys, acts, n - 1, x, c);
      assert Shares(sys, acts, n - 1, x, c);
    }
  }

  lemma ServerShares(sys: Sys, acts: seq<Action>, j: int, x: int, c: Client)
    requires Initial(sys) && Run(sys, acts) && AllName(acts) && CarefulRun(sys, acts) && x >= 0 && OwnerOf(x) in sys.up
    ensures Shares(After(sys, acts), acts, j, x, c)
  {
    hide Initial, Run, After, AllName, CarefulRun, PickAt, Acquires, Releases, JobsIn, OwnerOf, WaitsWith, AllKeepLaws, RoutingOk, EventOk;
    var end, o := After(sys, acts), OwnerOf(x);
    InitialLedger(sys);
    RunLedger(sys, acts);
    NoneCounted(x, c);
    if j !in sys.up || j == o { NoYesTo(sys.up, end.trace, o, j); }
    if j in sys.up {
      WaitersConservedPerLock(sys, acts, j, x, c);
      if j != o {
        ExecutedByOwnerInOrder(sys, acts, j, o);
        CountAppend(PickAt(end.trace, o, YesTo(j, o)), JobsIn(Chan(end.chan, j, o), o), x, c);
      }
    }
  }

  lemma OwnerRuns(sys: Sys, acts: seq<Action>, x: int, c: Client)
    requires Initial(sys) && Run(sys, acts) && x >= 0 && OwnerOf(x) in sys.up
    ensures var end, o := After(sys, acts), OwnerOf(x);
            && 0 <= o < SERVERS && o in end.servers
            && Acquires(PickAt(end.trace, o, IssuedFor(o)), x, c) + Accepts(end.trace, o, SERVERS, x, c) + Astray(end.trace, o, x, c)
                 == TallyAt(end.trace, o, AnsweredOn(sys.up, o, x % TABLE_SIZE, c)) + Places(end.servers[o], x % TABLE_SIZE, c)
            && (0 in sys.up ==> Astray(end.trace, o, x, c) == 0)
  {
    hide Run, After, AllKeepLaws, PickAt, Acquires, OwnerOf, EventOk, TallyAt, Places, Astray, OwnersSayYes, Waits, InOrder;
    var end, o := After(sys, acts), OwnerOf(x);
    InitialLedger(sys);
    RunLedger(sys, acts);
    ServedByAsker(sys.up, end.trace, o, x, c);
    RunsOfLock(end.trace, x, c);
    SlotConserved(sys, acts, o, x % TABLE_SIZE, c);
    assert RunsAtOwner(end.trace, o, o);
    if 0 in sys.up {
      assert RunsAtOwner(end.trace, o, 0);
      NoneAstray(sys.up, end.trace, x, c);
    }
  }

  /** Distributed wait and signal lose no one. For every lock whose owner is up and every client, over all
      servers: the waits accepted with the lock and the acquires the client sent itself are, at every point
      of a careful run, the places in condition variables' queues, the acquires on their way to the owner,
      the places in the lock's queue, and the answers the owner gave about it. Only what went astray while
      machine 0 was down is extra. */
  lemma NoWaiterLost(sys: Sys, acts: seq<Action>, x: int, c: Client)
    requires Initial(sys) && Run(sys, acts) && AllName(acts) && CarefulRun(sys, acts) && x >= 0 && OwnerOf(x) in sys.up
    ensures var end, o := After(sys, acts), OwnerOf(x);
            && o in end.servers
            && Total(end, acts, Accepted, SERVERS, x, c) + Total(end, acts, OwnAcquires, SERVERS, x, c) + Astray(end.trace, o, x, c)
                 == Total(end, acts, Waiting, SERVERS, x, c) + Total(end, acts, OnTheWay, SERVERS, x, c)
                    + Places(end.servers[o], x % TABLE_SIZE, c) + TallyAt(end.trace, o, AnsweredOn(sys.up, o, x % TABLE_SIZE, c))
            && (0 in sys.up ==> Astray(end.trace, o, x, c) == 0)
  {
    hide Initial, Run, After, AllName, CarefulRun, Amount, Shares, OwnerOf, Astray, TallyAt, Places, Acquires, PickAt;
    OwnerRuns(sys, acts, x, c);
    forall j | 0 <= j < SERVERS ensures Shares(After(sys, acts), acts, j, x, c) { ServerShares(sys, acts, j, x, c); }
    TotalShares(After(sys, acts), acts, SERVERS, x, c);
  }
}
