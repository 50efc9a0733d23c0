/** A woken waiter's acquire never overtakes its own release. For every lock and client, a server
    issues the releases of accepted waits and the acquires of wake-ups in an order in which no
    acquire comes before its release; the lock's owner executes them in that order. */
module WakeRuns {
  import opened Wire
  import opened Tables
  import opened Protocol
  import opened Network
  import opened Routing
  import opened RoutingRun
  import opened WakeOrder
  import Waiters
  import Sends
  import WaitersRun
  import WaitService

  // ---- what a step does to the books ----

  /** If the step runs a broadcast that finds waiters, it names their lock. */
  predicate CarefulStep(sys: Sys, a: Action)
    requires Enabled(sys, a)
  {
    match a
    case FromClient(i, _, req) => CarefulRequest(sys.servers[i], req)
    case Deliver(i, j) =>
      var m := Chan(sys.chan, i, j)[0];
      if m.Ask? then CarefulRequest(sys.servers[j], m.req) else CarefulReply(sys.servers[j], m)
  }

  function JobsOf(trace: seq<(int, Out)>, j: int, x: int): seq<Job> { PickAt(trace, j, IssuedFor(OwnerOf(x))) }

  /** The places of client c in server j's queues for lock x, and the acquires issued, less the
      releases. */
  function Count(sys: Sys, j: int, x: int, c: Client): int
    requires j in sys.servers
  {
    var js := JobsOf(sys.trace, j, x);
    WaitsWith(sys.servers[j].cvs.slots, x, c) + Acquires(js, x, c) - Releases(js, x, c)
  }

  /** What the client's own request adds to that. */
  function Own(a: Action, j: int, x: int, c: Client): int {
    if a == FromClient(j, c, Acquire(x)) then 1 else if a == FromClient(j, c, Release(x)) then -1 else 0
  }

  /** Every Wait on its way names a lock. */
  ghost predicate ChannelsName(chan: Channels) {
    forall i, j, k :: 0 <= k < |Chan(chan, i, j)| ==> NamesLock(Chan(chan, i, j)[k].req)
  }

  ghost predicate Tame(sys: Sys) {
    WaitersRun.AllKeepLaws(sys) && ChannelsName(sys.chan) && forall i :: i in sys.up ==> i in sys.servers && CVsOk(sys.servers[i].cvs)
  }

  predicate ActionNames(a: Action) { a.FromClient? ==> NamesLock(a.req) }

  function Actor(a: Action): int { if a.FromClient? then a.server else a.dest }

  function Outs(sys: Sys, a: Action): seq<Out>
    requires Enabled(sys, a)
  {
    match a
    case FromClient(i, c, req) => OnClient(sys.servers[i], sys.up, c, req).out
    case Deliver(i, j) => OnMsg(sys.servers[j], sys.up, i, Chan(sys.chan, i, j)[0]).out
  }

  /** What the actor issues beyond what its client asked for. */
  function Rest(sys: Sys, a: Action): seq<Out>
    requires Enabled(sys, a)
  {
    if a.FromClient? && Outs(sys, a) != [] then Outs(sys, a)[1..] else Outs(sys, a)
  }

  lemma StepAccounts(sys: Sys, a: Action)
    requires Tame(sys) && Enabled(sys, a) && ActionNames(a)
    ensures Actor(a) in sys.up && Actor(a) in sys.servers && Actor(a) in Step(sys, a).servers
    ensures Accounts(sys.servers[Actor(a)].cvs, Step(sys, a).servers[Actor(a)].cvs, Rest(sys, a), CarefulStep(sys, a))
    ensures a.FromClient? ==> Outs(sys, a) == [Issued(a.client, a.req)] + Rest(sys, a)
    ensures a.FromClient? && (a.req.Acquire? || a.req.Release?) ==> WaitService.NoIssue(Rest(sys, a))
  {
    hide OnClient, OnAsk, OnTell, CarefulRequest, CarefulReply, TableOk, CVsOk, Accounts, Post, At, WaitService.NoIssue, Waiters.LocksIdle;
    match a
    case FromClient(i, c, req) => OnClientAccounts(sys.servers[i], sys.up, c, req);
    case Deliver(i, j) =>
      var m := Chan(sys.chan, i, j)[0];
      if m.Ask? { OnAskAccounts(sys.servers[j], sys.up, i, m); } else { OnTellAccounts(sys.servers[j], sys.up, m); }
  }

  /** The trace grows by the actor's jobs. */
  lemma JobsGrow(sys: Sys, a: Action, j: int, x: int)
    requires Enabled(sys, a)
    ensures JobsOf(Step(sys, a).trace, j, x) == JobsOf(sys.trace, j, x) + if j == Actor(a) then IssuedJobs(Outs(sys, a), x) else []
  {
    hide OnClient, OnMsg, PickAt, Pick, At, Post;
    PickAtGrows(sys.trace, Actor(a), Outs(sys, a), j, IssuedFor(OwnerOf(x)));
  }

  /** Those jobs are the client's own request and the rest, and go one way. */
  lemma OwnJobs(sys: Sys, a: Action, x: int, c: Client)
    requires Tame(sys) && Enabled(sys, a) && ActionNames(a) && x >= 0
    ensures var js := IssuedJobs(Outs(sys, a), x);
            var more := IssuedJobs(Rest(sys, a), x);
            && Acquires(js, x, c) - Releases(js, x, c) == Own(a, Actor(a), x, c) + Acquires(more, x, c) - Releases(more, x, c)
            && (Acquires(js, x, c) == 0 || Releases(js, x, c) == 0)
  {
    hide Tame, Step, CarefulStep, Outs, IssuedJobs, Acquires, Releases, WaitService.NoIssue, AllBalance, CVsOk;
    StepAccounts(sys, a);
    if a.FromClient? {
      AppendJobs([Issued(a.client, a.req)], Rest(sys, a), x);
      OneJob(a.client, a.req, x, c);
      CountAppend(IssuedJobs([Issued(a.client, a.req)], x), IssuedJobs(Rest(sys, a), x), x, c);
      if a.req.Acquire? || a.req.Release? {
        WakeOrder.NoJobs(Rest(sys, a), x);
        NoneCounted(x, c);
      }
    }
  }

  /** A step changes the count of its actor by the client's own request, and by what the books miss. */
  lemma StepCounts(sys: Sys, a: Action, j: int, x: int, c: Client)
    requires Tame(sys) && Enabled(sys, a) && ActionNames(a) && x >= 0 && j in sys.up
    ensures j in sys.servers && j in Step(sys, a).servers
    ensures j != Actor(a) || Balance(sys.servers[j].cvs, Step(sys, a).servers[j].cvs, IssuedJobs(Rest(sys, a), x), x, c) <==>
              Count(Step(sys, a), j, x, c) == Count(sys, j, x, c) + Own(a, j, x, c)
  {
    hide Acquires, Releases, WaitsWith, JobsOf, IssuedJobs, Rest, Outs, CVsOk, OnClient, OnMsg, Post, At, WaitersRun.AllKeepLaws, ChannelsName, ActionNames;
    JobsGrow(sys, a, j, x);
    if j == Actor(a) {
      OwnJobs(sys, a, x, c);
      CountAppend(JobsOf(sys.trace, j, x), IssuedJobs(Outs(sys, a), x), x, c);
    } else {
      assert JobsOf(sys.trace, j, x) + [] == JobsOf(sys.trace, j, x);
    }
  }

  /** So no count is upset if and only if the step is careful. */
  lemma StepCountsIffCareful(sys: Sys, a: Action)
    requires Tame(sys) && Enabled(sys, a) && ActionNames(a)
    ensures CarefulStep(sys, a) <==>
              forall j, x, c :: j in sys.up && x >= 0 ==> CountsOn(sys, a, j, x, c)
  {
    hide Tame, Step, Enabled, CarefulStep, Rest, CVsOk, Count, Balance, Own, OneWay;
    StepAccounts(sys, a);
    forall j, x, c | j in sys.up && x >= 0
      ensures CountsOn(sys, a, j, x, c) <==>
                j != Actor(a) || (j in sys.servers && j in Step(sys, a).servers
                  && Balance(sys.servers[j].cvs, Step(sys, a).servers[j].cvs, IssuedJobs(Rest(sys, a), x), x, c))
    {
      StepCounts(sys, a, j, x, c);
    }
    if !CarefulStep(sys, a) {
      var j := Actor(a);
      var before, after, out := sys.servers[j].cvs, Step(sys, a).servers[j].cvs, Rest(sys, a);
      var x, c :| x >= 0 && !Balance(before, after, IssuedJobs(out, x), x, c);
      assert !CountsOn(sys, a, j, x, c);
    }
  }

  ghost predicate CountsOn(sys: Sys, a: Action, j: int, x: int, c: Client)
    requires Enabled(sys, a)
  {
    j in sys.servers && j in Step(sys, a).servers && Count(Step(sys, a), j, x, c) == Count(sys, j, x, c) + Own(a, j, x, c)
  }

  // ---- what a step keeps ----

  lemma StepNames(sys: Sys, a: Action)
    requires WellFormed(sys) && ChannelsName(sys.chan) && Enabled(sys, a) && ActionNames(a)
    ensures ChannelsName(Step(sys, a).chan)
  {
    hide OnClient, OnAsk, OnTell, At;
    match a
    case FromClient(i, c, req) =>
      Sends.OnClientSends(sys.servers[i], sys.up, c, req);
      PostNames(sys.up, sys.chan, i, OnClient(sys.servers[i], sys.up, c, req).out, req);
    case Deliver(i, j) =>
      var m := Chan(sys.chan, i, j)[0];
      var popped := sys.chan[(i, j) := Chan(sys.chan, i, j)[1..]];
      if m.Ask? { Sends.OnAskSends(sys.servers[j], sys.up, i, m); } else { Sends.OnTellSends(sys.servers[j], sys.up, m); }
      PoppedNames(sys.chan, i, j);
      PostNames(sys.up, popped, j, OnMsg(sys.servers[j], sys.up, i, m).out, m.req);
  }

  lemma PoppedNames(chan: Channels, i: int, j: int)
    requires ChannelsName(chan) && Chan(chan, i, j) != []
    ensures ChannelsName(chan[(i, j) := Chan(chan, i, j)[1..]])
  {
    var popped := chan[(i, j) := Chan(chan, i, j)[1..]];
    forall a, b, k | 0 <= k < |Chan(popped, a, b)| ensures NamesLock(Chan(popped, a, b)[k].req) {
      if a == i && b == j { assert Chan(popped, a, b)[k] == Chan(chan, i, j)[k + 1]; }
      else { assert Chan(popped, a, b) == Chan(chan, a, b); }
    }
  }

  lemma PostNames(up: set<int>, chan: Channels, me: int, out: seq<Out>, req: Request)
    requires ChannelsName(chan) && NamesLock(req) && Sends.SendsOk(up, me, req, out)
    ensures ChannelsName(Post(chan, me, out))
  {
    hide Post, SentTo, Sends.SendsOk;
    forall i, j, k | 0 <= k < |Chan(Post(chan, me, out), i, j)| ensures NamesLock(Chan(Post(chan, me, out), i, j)[k].req) {
      PostChannels(chan, me, out, i, j);
      Sends.SentToOk(up, me, req, out, j);
      if k < |Chan(chan, i, j)| { assert Chan(Post(chan, me, out), i, j)[k] == Chan(chan, i, j)[k]; }
    }
  }

  lemma StepTame(sys: Sys, a: Action)
    requires Tame(sys) && Enabled(sys, a) && ActionNames(a)
    ensures Tame(Step(sys, a)) && Step(sys, a).up == sys.up
  {
    hide OnClient, OnMsg, CVsOk, Post, At, OneWay, AllBalance, ChannelsName, CarefulStep, Rest, WaitersRun.KeepsLaws;
    WaitersRun.StepKeepsLaws(sys, a);
    StepNames(sys, a);
    StepAccounts(sys, a);
  }

  // ---- every run ----

  ghost predicate AllName(acts: seq<Action>) { forall k :: 0 <= k < |acts| ==> ActionNames(acts[k]) }

  lemma {:induction false} RunTame(sys: Sys, acts: seq<Action>)
    requires Tame(sys) && Run(sys, acts) && AllName(acts)
    ensures Tame(After(sys, acts)) && After(sys, acts).up == sys.up
    decreases |acts|
  {
    hide Tame, Step, Enabled;
    if acts != [] {
      StepTame(sys, acts[0]);
      RunTame(Step(sys, acts[0]), acts[1..]);
    }
  }

  lemma InitialTame(sys: Sys)
    requires Initial(sys)
    ensures Tame(sys)
    ensures forall j, x, c :: j in sys.up ==> Count(sys, j, x, c) == 0
  {
    forall i | i in sys.up ensures WaitersRun.AllKeepLaws(sys) { WaitersRun.InitialLaws(sys, i, NOBODY); }
    assert forall i :: i in sys.up ==> sys.servers[i].cvs == EmptyTable();
  }

  /** In every run whose clients name locks, every condition variable has a waiting lock exactly while
      someone waits. */
  lemma WaitingLockIffWaiters(sys: Sys, acts: seq<Action>, j: int)
    requires Initial(sys) && Run(sys, acts) && AllName(acts) && j in sys.up
    ensures j in After(sys, acts).servers && CVsOk(After(sys, acts).servers[j].cvs)
  {
    hide Initial, Step, Enabled, CVsOk, Run, After, AllName, Count;
    InitialTame(sys);
    RunTame(sys, acts);
  }

  /** How often client c itself sent server j this request. */
  function Sent(acts: seq<Action>, j: int, c: Client, req: Request): nat {
    if acts == [] then 0 else (if acts[0] == FromClient(j, c, req) then 1 else 0) + Sent(acts[1..], j, c, req)
  }

  lemma {:induction false} SentSnoc(acts: seq<Action>, a: Action, j: int, c: Client, req: Request)
    ensures Sent(acts + [a], j, c, req) == Sent(acts, j, c, req) + if a == FromClient(j, c, req) then 1 else 0
  {
    if acts == [] {
      assert [a][1..] == [] && acts + [a] == [a];
    } else {
      assert (acts + [a])[1..] == acts[1..] + [a];
      SentSnoc(acts[1..], a, j, c, req);
    }
  }

  /** Conservation per lock: after these actions, on every server and for every lock and client, the
      releases issued for waits are the acquires issued for wake-ups plus the places in the queues. */
  ghost predicate BooksAt(sys: Sys, done: seq<Action>) {
    forall j, x, c :: j in sys.up && x >= 0 ==>
      j in sys.servers && Count(sys, j, x, c) == Sent(done, j, c, Acquire(x)) - Sent(done, j, c, Release(x))
  }

  ghost predicate AlwaysConserved(sys: Sys, done: seq<Action>, acts: seq<Action>)
    decreases |acts|
  {
    BooksAt(sys, done)
    && (acts == [] || (Enabled(sys, acts[0]) && AlwaysConserved(Step(sys, acts[0]), done + [acts[0]], acts[1..])))
  }

  /** No broadcast that is run names another lock than the waiters it finds. */
  ghost predicate CarefulRun(sys: Sys, acts: seq<Action>)
    decreases |acts|
  {
    acts == [] || (Enabled(sys, acts[0]) && CarefulStep(sys, acts[0]) && CarefulRun(Step(sys, acts[0]), acts[1..]))
  }

  lemma BooksStep(sys: Sys, done: seq<Action>, a: Action)
    requires Tame(sys) && Enabled(sys, a) && ActionNames(a) && BooksAt(sys, done)
    ensures BooksAt(Step(sys, a), done + [a]) <==> CarefulStep(sys, a)
  {
    hide Tame, Step, Enabled, CarefulStep, Count;
    StepCountsIffCareful(sys, a);
    StepTame(sys, a);
    ServersOf(sys);
    ServersOf(Step(sys, a));
    forall j, x, c | j in sys.up && x >= 0
      ensures CountsOn(sys, a, j, x, c) <==>
                Count(Step(sys, a), j, x, c) == Sent(done + [a], j, c, Acquire(x)) - Sent(done + [a], j, c, Release(x))
    {
      SentSnoc(done, a, j, c, Acquire(x));
      SentSnoc(done, a, j, c, Release(x));
    }
  }

  lemma ServersOf(sys: Sys)
    requires Tame(sys)
    ensures forall j :: j in sys.up ==> j in sys.servers
  {
  }

  lemma {:induction false} RunBooks(sys: Sys, done: seq<Action>, acts: seq<Action>)
    requires Tame(sys) && Run(sys, acts) && AllName(acts) && BooksAt(sys, done)
    ensures AlwaysConserved(sys, done, acts) <==> CarefulRun(sys, acts)
    ensures CarefulRun(sys, acts) ==> BooksAt(After(sys, acts), done + acts)
    decreases |acts|
  {
    hide Tame, Step, Enabled, CarefulStep, BooksAt;
    if acts == [] {
      assert done + [] == done;
    } else {
      BooksStep(sys, done, acts[0]);
      StepTame(sys, acts[0]);
      if CarefulStep(sys, acts[0]) {
        RunBooks(Step(sys, acts[0]), done + [acts[0]], acts[1..]);
        assert done + [acts[0]] + acts[1..] == done + acts;
      } else {
        NotConserved(Step(sys, acts[0]), done + [acts[0]], acts[1..]);
      }
    }
  }

  lemma NotConserved(sys: Sys, done: seq<Action>, acts: seq<Action>)
    requires !BooksAt(sys, done)
    ensures !AlwaysConserved(sys, done, acts)
  {
  }

  /** The waiters of every lock are conserved at every point of a run if and only if no broadcast names
      another lock than that of the waiters it finds. */
  lemma ConservedIffCareful(sys: Sys, acts: seq<Action>)
    requires Initial(sys) && Run(sys, acts) && AllName(acts)
    ensures AlwaysConserved(sys, [], acts) <==> CarefulRun(sys, acts)
  {
    hide Run, Tame, CarefulRun, AlwaysConserved, AllName;
    InitialTame(sys);
    RunBooks(sys, [], acts);
  }

  /** Per lock and client: the releases issued for accepted waits are the acquires issued for wake-ups
      plus the places still in the queues. */
  lemma WaitersConservedPerLock(sys: Sys, acts: seq<Action>, j: int, x: int, c: Client)
    requires Initial(sys) && Run(sys, acts) && AllName(acts) && CarefulRun(sys, acts) && j in sys.up && x >= 0
    ensures j in After(sys, acts).servers
    ensures var end := After(sys, acts);
            var js := JobsOf(end.trace, j, x);
            Releases(js, x, c) - Sent(acts, j, c, Release(x))
              == Acquires(js, x, c) - Sent(acts, j, c, Acquire(x)) + WaitsWith(end.servers[j].cvs.slots, x, c)
  {
    hide Run, After, Tame, CarefulRun, AllName, JobsOf, WaitsWith, Acquires, Releases, AlwaysConserved;
    InitialTame(sys);
    RunBooks(sys, [], acts);
    RunTame(sys, acts);
    assert [] + acts == acts;
    var end := After(sys, acts);
    ServersOf(end);
    assert Count(end, j, x, c) == Sent(acts, j, c, Acquire(x)) - Sent(acts, j, c, Release(x));
  }

  // ---- the order ----

  /** In no prefix are there more acquires than releases, but for those the client sent itself. */
  ghost predicate Led(js: seq<Job>, x: int, c: Client, own: nat) {
    forall n :: 0 <= n <= |js| ==> Acquires(js[..n], x, c) <= Releases(js[..n], x, c) + own
  }

  lemma LedAppend(a: seq<Job>, b: seq<Job>, x: int, c: Client, own: nat, more: nat)
    requires Led(a, x, c, own) && own <= more
    requires Acquires(b, x, c) == 0 || Releases(b, x, c) == 0
    requires Acquires(a + b, x, c) <= Releases(a + b, x, c) + more
    ensures Led(a + b, x, c, more)
  {
    hide Acquires, Releases;
    forall n | 0 <= n <= |a + b| ensures Acquires((a + b)[..n], x, c) <= Releases((a + b)[..n], x, c) + more {
      if n <= |a| {
        assert (a + b)[..n] == a[..n];
      } else {
        var m := n - |a|;
        assert (a + b)[..n] == a + b[..m] && b == b[..m] + b[m..];
        assert a[..|a|] == a;
        CountAppend(a, b[..m], x, c);
        CountAppend(b[..m], b[m..], x, c);
        CountAppend(a, b, x, c);
      }
    }
  }

  lemma StepLed(sys: Sys, done: seq<Action>, a: Action, j: int, x: int, c: Client)
    requires Tame(sys) && Enabled(sys, a) && ActionNames(a) && BooksAt(Step(sys, a), done + [a]) && j in sys.up && x >= 0
    requires Led(JobsOf(sys.trace, j, x), x, c, Sent(done, j, c, Acquire(x)))
    ensures Led(JobsOf(Step(sys, a).trace, j, x), x, c, Sent(done + [a], j, c, Acquire(x)))
  {
    hide Tame, Step, Enabled, Led, Acquires, Releases, WaitsWith, JobsOf, Outs, IssuedJobs;
    var old', new' := JobsOf(sys.trace, j, x), if j == Actor(a) then IssuedJobs(Outs(sys, a), x) else [];
    JobsGrow(sys, a, j, x);
    NoneCounted(x, c);
    if j == Actor(a) { OwnJobs(sys, a, x, c); }
    SentSnoc(done, a, j, c, Acquire(x));
    StepTame(sys, a);
    CountBound(Step(sys, a), done + [a], j, x, c);
    LedAppend(old', new', x, c, Sent(done, j, c, Acquire(x)), Sent(done + [a], j, c, Acquire(x)));
  }

  lemma CountBound(sys: Sys, done: seq<Action>, j: int, x: int, c: Client)
    requires BooksAt(sys, done) && j in sys.up && x >= 0
    ensures Acquires(JobsOf(sys.trace, j, x), x, c) <= Releases(JobsOf(sys.trace, j, x), x, c) + Sent(done, j, c, Acquire(x))
  {
  }

  lemma {:induction false} RunLed(sys: Sys, done: seq<Action>, acts: seq<Action>, j: int, x: int, c: Client)
    requires Tame(sys) && Run(sys, acts) && AllName(acts) && BooksAt(sys, done) && CarefulRun(sys, acts) && j in sys.up && x >= 0
    requires Led(JobsOf(sys.trace, j, x), x, c, Sent(done, j, c, Acquire(x)))
    ensures Led(JobsOf(After(sys, acts).trace, j, x), x, c, Sent(done + acts, j, c, Acquire(x)))
    decreases |acts|
  {
    hide Tame, Step, Enabled, CarefulStep, BooksAt, Led, JobsOf;
    if acts == [] {
      assert done + [] == done;
    } else {
      BooksStep(sys, done, acts[0]);
      StepLed(sys, done, acts[0], j, x, c);
      StepTame(sys, acts[0]);
      RunLed(Step(sys, acts[0]), done + [acts[0]], acts[1..], j, x, c);
      assert done + [acts[0]] + acts[1..] == done + acts;
    }
  }

  lemma AlwaysLed(sys: Sys, acts: seq<Action>, j: int, x: int, c: Client)
    requires Initial(sys) && Run(sys, acts) && AllName(acts) && CarefulRun(sys, acts) && j in sys.up && x >= 0
    ensures Led(JobsOf(After(sys, acts).trace, j, x), x, c, Sent(acts, j, c, Acquire(x)))
  {
    hide Run, After, Tame, CarefulRun, AllName;
    InitialTame(sys);
    RunLed(sys, [], acts, j, x, c);
    assert [] + acts == acts;
  }

  /** The lock's owner o executes, of what server j asks it for, the acquires of woken waiters after
      their releases: at any point it has run no more acquires than releases in a client's name,
      but for the acquires the client itself sent to j. */
  lemma ReleaseComesFirst(sys: Sys, acts: seq<Action>, j: int, o: int, x: int, c: Client, n: nat)
    requires Initial(sys) && Run(sys, acts) && AllName(acts) && CarefulRun(sys, acts)
    requires j in sys.up && o in sys.up && j != o && x >= 0 && OwnerOf(x) == o
    ensures var done := PickAt(After(sys, acts).trace, o, YesTo(j, o));
            n <= |done| ==> Acquires(done[..n], x, c) <= Releases(done[..n], x, c) + Sent(acts, j, c, Acquire(x))
  {
    hide Initial, Run, After, CarefulRun, AllName, PickAt, Acquires, Releases, JobsIn, OwnerOf;
    AlwaysLed(sys, acts, j, x, c);
    ExecutedByOwnerInOrder(sys, acts, j, o);
    var end := After(sys, acts);
    var done := PickAt(end.trace, o, YesTo(j, o));
    if n <= |done| {
      assert JobsOf(end.trace, j, x) == done + JobsIn(Chan(end.chan, j, o), o);
      assert JobsOf(end.trace, j, x)[..n] == done[..n];
    }
  }

  /** The same when the lock is on the server of the condition variable: o runs what it issues for
      itself at once. */
  lemma ReleaseComesFirstHere(sys: Sys, acts: seq<Action>, o: int, x: int, c: Client, n: nat)
    requires Initial(sys) && Run(sys, acts) && AllName(acts) && CarefulRun(sys, acts)
    requires o in sys.up && x >= 0 && OwnerOf(x) == o
    ensures var js := PickAt(After(sys, acts).trace, o, IssuedFor(o));
            n <= |js| ==> Acquires(js[..n], x, c) <= Releases(js[..n], x, c) + Sent(acts, o, c, Acquire(x))
  {
    hide Initial, Run, After, CarefulRun, AllName, PickAt, Acquires, Releases, OwnerOf;
    AlwaysLed(sys, acts, o, x, c);
  }
}
