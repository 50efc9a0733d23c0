/** Two is the limit: with three servers the machine-id tie-break lets two servers create the same
    name. Server 0 answers NO to server 1 while idle, then asks on its own behalf; server 1, still
    waiting for server 2, answers NO because 0 is the lower id. */
module ThreeServers {
  import opened Options
  import opened Wire
  import opened Bits
  import opened Tables
  import opened Protocol
  import opened Network
  import opened TwoServersRun

  const NAME := "x"
  const WANT := Create(LockKind, NAME, 0)
  const FIRST := Client(5, 0)
  const SECOND := Client(6, 0)

  const UP: set<int> := {0, 1, 2}

  function Start(): Sys {
    Sys(UP, map[0 := NewServer(0), 1 := NewServer(1), 2 := NewServer(2)], map[], [])
  }

  /** Server 1 is asked first, then server 0; the replies cross. */
  function Script(): seq<Action> {
    [FromClient(1, FIRST, WANT), Deliver(1, 0), FromClient(0, SECOND, WANT), Deliver(0, 1), Deliver(0, 1),
     Deliver(1, 2), Deliver(0, 2), Deliver(2, 1), Deliver(1, 0), Deliver(2, 0)]
  }

  // ---- the states on the way ----

  const ASK1 := Ask(0, FIRST, WANT)
  const ASK0 := Ask(0, SECOND, WANT)
  const NO1 := Tell(0, FIRST, WANT, false)
  const NO0 := Tell(0, SECOND, WANT, false)

  function Waiting(me: int, c: Client, nos: int): Server {
    NewServer(me).(pending := [Pending(c, WANT, 2, nos, 0)], nextID := 1)
  }

  function Owner(me: int): Server {
    NewServer(me).(locks := Table([Some(Entry(NAME, 1, LockData(false, NOBODY, [], false)))], seq(TABLE_SIZE, i => i == 0)),
                   nextID := 1)
  }

  ghost predicate Now(sys: Sys, s0: Server, s1: Server, s2: Server,
                      c01: seq<Msg>, c02: seq<Msg>, c10: seq<Msg>, c12: seq<Msg>, c20: seq<Msg>, c21: seq<Msg>)
  {
    && sys.up == UP && sys.servers == map[0 := s0, 1 := s1, 2 := s2]
    && Chan(sys.chan, 0, 1) == c01 && Chan(sys.chan, 0, 2) == c02
    && Chan(sys.chan, 1, 0) == c10 && Chan(sys.chan, 1, 2) == c12
    && Chan(sys.chan, 2, 0) == c20 && Chan(sys.chan, 2, 1) == c21
  }

  lemma PeersOf(me: int)
    requires me == 0 || me == 1
    ensures Peers(UP, me, 0) == [1 - me, 2]
  {
    assert Peers(UP, me, 5) == [];
    assert Peers(UP, me, 4) == [];
    assert Peers(UP, me, 3) == [];
    assert Peers(UP, me, 2) == [2];
    assert Peers(UP, me, 1) == if me == 0 then [1, 2] else [2];
  }

  lemma SentToCons(o: Out, rest: seq<Out>, d: int)
    ensures SentTo([o] + rest, d) == (if o.Send? && o.dest == d then [o.msg] else []) + SentTo(rest, d)
  {
    assert ([o] + rest)[1..] == rest;
  }

  /** A client asks an idle server that does not own the name. */
  lemma Asked(me: int, c: Client)
    requires me == 0 || me == 1
    ensures var e := OnClient(NewServer(me), UP, c, WANT);
            && e.s == Waiting(me, c, 0)
            && forall d :: SentTo(e.out, d) == if d == 1 - me || d == 2 then [Ask(0, c, WANT)] else []
  {
    PeersOf(me);
    var m := Ask(0, c, WANT);
    assert SendAll([2], m) == [Send(2, m)] by { assert [2][1..] == []; }
    assert SendAll([1 - me, 2], m) == [Send(1 - me, m), Send(2, m)] by { assert [1 - me, 2][1..] == [2]; }
    var e := OnClient(NewServer(me), UP, c, WANT);
    assert e.out == [Issued(c, WANT)] + ([Send(1 - me, m)] + ([Send(2, m)] + []));
    forall d ensures SentTo(e.out, d) == (if d == 1 - me then [m] else []) + (if d == 2 then [m] else []) {
      SentToCons(Issued(c, WANT), [Send(1 - me, m)] + ([Send(2, m)] + []), d);
      SentToCons(Send(1 - me, m), [Send(2, m)] + [], d);
      SentToCons(Send(2, m), [], d);
    }
    assert e.s.pending == [Pending(c, WANT, 2, 0, 0)];
  }

  /** A server that does not own the name, and is idle or has the higher id, answers NO. */
  lemma Refuses(s: Server, from: int, m: Msg)
    requires m.Ask? && m.req == WANT && s.locks == EmptyTable()
    requires s.pending == [] || s.me > from
    ensures OnMsg(s, UP, from, m) == Eff(s, [Send(from, Tell(m.requestID, m.client, WANT, false))])
  {
  }

  /** The first of two NOs is counted. */
  lemma Counts(me: int, c: Client)
    ensures OnMsg(Waiting(me, c, 0), UP, 0, Tell(0, c, WANT, false)) == Eff(Waiting(me, c, 1), [])
  {
    var s := Waiting(me, c, 0);
    assert FindPending(s.pending, Tell(0, c, WANT, false), 0) == 0;
  }

  /** The second makes the server create the lock. */
  lemma Creates(me: int, c: Client)
    ensures var e := OnMsg(Waiting(me, c, 1), UP, 2, Tell(0, c, WANT, false));
            e.s == Owner(me) && forall j :: SentTo(e.out, j) == []
  {
    var s := Waiting(me, c, 1);
    assert FindPending(s.pending, Tell(0, c, WANT, false), 0) == 0;
    var p := Pending(c, WANT, 2, 2, 0);
    var t := s.(pending := s.pending[0 := p]);
    assert t.pending == [p];
    var e := DoCreate(t, c, WANT);
    assert e.s.locks == Owner(me).locks by {
      assert FindNamed(t.locks.slots, NAME, 0) == -1;
      assert FirstClear(t.locks.bits, 0) == 0;
      assert t.locks.bits[0 := true] == seq(TABLE_SIZE, i => i == 0);
    }
    assert RemoveAt(t.pending, 0) == [];
    assert e.out == [e.out[0]] && e.out[0].Answer? && e.out[1..] == [];
    assert AnswerNamed(e.s.(pending := []), LockKind, NAME) == Eff(e.s.(pending := []), []);
    assert e.out + [] == e.out;
  }

  // ---- one step of the run ----

  /** Delivering the first message of a channel. */
  lemma DeliverStep(sys: Sys, i: int, j: int, e: Eff, k: int, l: int)
    requires i in sys.servers && j in sys.servers && sys.up == UP && j in UP
    requires Chan(sys.chan, i, j) != []
    requires OnMsg(sys.servers[j], UP, i, Chan(sys.chan, i, j)[0]) == e
    ensures Enabled(sys, Deliver(i, j))
    ensures var next := Step(sys, Deliver(i, j));
            && next.up == UP && next.servers == sys.servers[j := e.s]
            && Chan(next.chan, k, l) ==
                 (if (k, l) == (i, j) then Chan(sys.chan, i, j)[1..] else Chan(sys.chan, k, l))
                 + (if k == j then SentTo(e.out, l) else [])
  {
    hide OnMsg;
    PostChannels(sys.chan[(i, j) := Chan(sys.chan, i, j)[1..]], j, e.out, k, l);
  }

  lemma AllChannels(sys: Sys, i: int, j: int, e: Eff)
    requires i in sys.servers && j in sys.servers && sys.up == UP && j in UP
    requires Chan(sys.chan, i, j) != []
    requires OnMsg(sys.servers[j], UP, i, Chan(sys.chan, i, j)[0]) == e
    ensures Enabled(sys, Deliver(i, j))
    ensures var next := Step(sys, Deliver(i, j));
            && next.up == UP && next.servers == sys.servers[j := e.s]
            && forall k, l :: Chan(next.chan, k, l) ==
                 (if (k, l) == (i, j) then Chan(sys.chan, i, j)[1..] else Chan(sys.chan, k, l))
                 + (if k == j then SentTo(e.out, l) else [])
  {
    hide OnMsg, Step, Post;
    DeliverStep(sys, i, j, e, i, j);
    forall k, l ensures Chan(Step(sys, Deliver(i, j)).chan, k, l) ==
                 (if (k, l) == (i, j) then Chan(sys.chan, i, j)[1..] else Chan(sys.chan, k, l))
                 + (if k == j then SentTo(e.out, l) else []) {
      DeliverStep(sys, i, j, e, k, l);
    }
  }

  /** The replies that the NOs of the run amount to. */
  lemma NoOut(from: int, m: Msg, d: int)
    ensures SentTo([Send(from, m)], d) == if d == from then [m] else []
  {
    SentToCons(Send(from, m), [], d);
    assert [Send(from, m)] + [] == [Send(from, m)];
  }

  // ---- the run ----

  const IDLE0 := NewServer(0)
  const IDLE1 := NewServer(1)
  const IDLE2 := NewServer(2)

  /** The k-th state of the run. */
  ghost predicate Reached(sys: Sys, k: int) {
    var w0, w1 := Waiting(0, SECOND, 0), Waiting(1, FIRST, 0);
    match k
    case 0 => Now(sys, IDLE0, IDLE1, IDLE2, [], [], [], [], [], [])
    case 1 => Now(sys, IDLE0, w1, IDLE2, [], [], [ASK1], [ASK1], [], [])
    case 2 => Now(sys, IDLE0, w1, IDLE2, [NO1], [], [], [ASK1], [], [])
    case 3 => Now(sys, w0, w1, IDLE2, [NO1, ASK0], [ASK0], [], [ASK1], [], [])
    case 4 => Now(sys, w0, Waiting(1, FIRST, 1), IDLE2, [ASK0], [ASK0], [], [ASK1], [], [])
    case 5 => Now(sys, w0, Waiting(1, FIRST, 1), IDLE2, [], [ASK0], [NO0], [ASK1], [], [])
    case 6 => Now(sys, w0, Waiting(1, FIRST, 1), IDLE2, [], [ASK0], [NO0], [], [], [NO1])
    case 7 => Now(sys, w0, Waiting(1, FIRST, 1), IDLE2, [], [], [NO0], [], [NO0], [NO1])
    case 8 => Now(sys, w0, Owner(1), IDLE2, [], [], [NO0], [], [NO0], [])
    case 9 => Now(sys, Waiting(0, SECOND, 1), Owner(1), IDLE2, [], [], [], [], [NO0], [])
    case 10 => Now(sys, Owner(0), Owner(1), IDLE2, [], [], [], [], [], [])
    case _ => false
  }

  /** A client's request, channel by channel. */
  lemma ClientChannels(sys: Sys, me: int, c: Client, e: Eff)
    requires me in sys.servers && sys.up == UP && me in UP && c.machine >= SERVERS
    requires OnClient(sys.servers[me], UP, c, WANT) == e
    ensures Enabled(sys, FromClient(me, c, WANT))
    ensures var next := Step(sys, FromClient(me, c, WANT));
            && next.up == UP && next.servers == sys.servers[me := e.s]
            && forall k, l :: Chan(next.chan, k, l) == Chan(sys.chan, k, l) + (if k == me then SentTo(e.out, l) else [])
  {
    hide OnClient, Post;
    forall k, l ensures Chan(Post(sys.chan, me, e.out), k, l) == Chan(sys.chan, k, l) + (if k == me then SentTo(e.out, l) else []) {
      PostChannels(sys.chan, me, e.out, k, l);
    }
  }

  lemma Step0(sys: Sys)
    requires Reached(sys, 0)
    ensures Enabled(sys, FromClient(1, FIRST, WANT)) && Reached(Step(sys, FromClient(1, FIRST, WANT)), 1)
  {
    hide OnClient, Step, Post;
    Asked(1, FIRST);
    ClientChannels(sys, 1, FIRST, OnClient(IDLE1, UP, FIRST, WANT));
  }

  lemma Step1(sys: Sys)
    requires Reached(sys, 1)
    ensures Enabled(sys, Deliver(1, 0)) && Reached(Step(sys, Deliver(1, 0)), 2)
  {
    hide OnMsg, Step, Post;
    var s := sys.servers[0];
    Refuses(s, 1, ASK1);
    AllChannels(sys, 1, 0, Eff(s, [Send(1, NO1)]));
    NoOut(1, NO1, 0);
    NoOut(1, NO1, 1);
    NoOut(1, NO1, 2);
  }

  lemma Step2Channels(sys: Sys, next: Sys)
    requires Reached(sys, 2)
    requires next.up == UP && next.servers == sys.servers[0 := Waiting(0, SECOND, 0)]
    requires forall k, l :: Chan(next.chan, k, l) ==
               Chan(sys.chan, k, l) + (if k == 0 && (l == 1 || l == 2) then [ASK0] else [])
    ensures Reached(next, 3)
  {
    hide Waiting;
    assert Chan(next.chan, 0, 1) == [NO1] + [ASK0];
    assert Chan(next.chan, 0, 2) == [] + [ASK0];
  }

  lemma Step2(sys: Sys)
    requires Reached(sys, 2)
    ensures Enabled(sys, FromClient(0, SECOND, WANT)) && Reached(Step(sys, FromClient(0, SECOND, WANT)), 3)
  {
    hide OnClient, Step, Post, Waiting, SentTo;
    Asked(0, SECOND);
    var e := OnClient(IDLE0, UP, SECOND, WANT);
    assert sys.servers[0] == IDLE0 && sys.up == UP && 0 in sys.servers;
    hide Reached;
    ClientChannels(sys, 0, SECOND, e);
    Step2Channels(sys, Step(sys, FromClient(0, SECOND, WANT)));
  }

  lemma Step3(sys: Sys)
    requires Reached(sys, 3)
    ensures Enabled(sys, Deliver(0, 1)) && Reached(Step(sys, Deliver(0, 1)), 4)
  {
    hide OnMsg, Step, Post;
    FirstOrLast(sys.servers[1], 0, 1, FIRST);
    AllChannels(sys, 0, 1, OnMsg(sys.servers[1], UP, 0, Chan(sys.chan, 0, 1)[0]));
  }

  lemma Step4(sys: Sys)
    requires Reached(sys, 4)
    ensures Enabled(sys, Deliver(0, 1)) && Reached(Step(sys, Deliver(0, 1)), 5)
  {
    hide OnMsg, Step, Post;
    var s := sys.servers[1];
    Refuses(s, 0, ASK0);
    AllChannels(sys, 0, 1, Eff(s, [Send(0, NO0)]));
    NoOut(0, NO0, 0);
    NoOut(0, NO0, 1);
    NoOut(0, NO0, 2);
  }

  lemma Step5(sys: Sys)
    requires Reached(sys, 5)
    ensures Enabled(sys, Deliver(1, 2)) && Reached(Step(sys, Deliver(1, 2)), 6)
  {
    hide OnMsg, Step, Post;
    var s := sys.servers[2];
    Refuses(s, 1, ASK1);
    AllChannels(sys, 1, 2, Eff(s, [Send(1, NO1)]));
    NoOut(1, NO1, 0);
    NoOut(1, NO1, 1);
    NoOut(1, NO1, 2);
  }

  lemma Step6(sys: Sys)
    requires Reached(sys, 6)
    ensures Enabled(sys, Deliver(0, 2)) && Reached(Step(sys, Deliver(0, 2)), 7)
  {
    hide OnMsg, Step, Post;
    var s := sys.servers[2];
    Refuses(s, 0, ASK0);
    AllChannels(sys, 0, 2, Eff(s, [Send(0, NO0)]));
    NoOut(0, NO0, 0);
    NoOut(0, NO0, 1);
    NoOut(0, NO0, 2);
  }

  lemma Step7(sys: Sys)
    requires Reached(sys, 7)
    ensures Enabled(sys, Deliver(2, 1)) && Reached(Step(sys, Deliver(2, 1)), 8)
  {
    hide OnMsg, Step, Post;
    FirstOrLast(sys.servers[1], 2, 1, FIRST);
    AllChannels(sys, 2, 1, OnMsg(sys.servers[1], UP, 2, Chan(sys.chan, 2, 1)[0]));
  }

  lemma Step8(sys: Sys)
    requires Reached(sys, 8)
    ensures Enabled(sys, Deliver(1, 0)) && Reached(Step(sys, Deliver(1, 0)), 9)
  {
    hide OnMsg, Step, Post;
    FirstOrLast(sys.servers[0], 1, 0, SECOND);
    AllChannels(sys, 1, 0, OnMsg(sys.servers[0], UP, 1, Chan(sys.chan, 1, 0)[0]));
  }

  lemma Step9(sys: Sys)
    requires Reached(sys, 9)
    ensures Enabled(sys, Deliver(2, 0)) && Reached(Step(sys, Deliver(2, 0)), 10)
  {
    hide OnMsg, Step, Post;
    FirstOrLast(sys.servers[0], 2, 0, SECOND);
    AllChannels(sys, 2, 0, OnMsg(sys.servers[0], UP, 2, Chan(sys.chan, 2, 0)[0]));
  }

  lemma FirstOrLast(s: Server, i: int, me: int, c: Client)
    ensures s == Waiting(me, c, 0) ==> OnMsg(s, UP, i, Tell(0, c, WANT, false)) == Eff(Waiting(me, c, 1), [])
    ensures s == Waiting(me, c, 1) ==>
              var e := OnMsg(s, UP, i, Tell(0, c, WANT, false));
              e.s == Owner(me) && forall j :: SentTo(e.out, j) == []
  {
    Counts(me, c);
    Creates(me, c);
  }

  lemma RunStep(sys: Sys, k: int)
    requires Reached(sys, k) && 0 <= k < 10
    ensures Enabled(sys, Script()[k]) && Reached(Step(sys, Script()[k]), k + 1)
  {
    hide Step, Reached;
    if k == 0 { Step0(sys); }
    else if k == 1 { Step1(sys); }
    else if k == 2 { Step2(sys); }
    else if k == 3 { Step3(sys); }
    else if k == 4 { Step4(sys); }
    else if k == 5 { Step5(sys); }
    else if k == 6 { Step6(sys); }
    else if k == 7 { Step7(sys); }
    else if k == 8 { Step8(sys); }
    else { Step9(sys); }
  }

  lemma ReachedRoomy(sys: Sys, k: int)
    requires Reached(sys, k)
    ensures Roomy(sys)
  {
    forall i, kind | i in sys.servers ensures HasRoomFor(sys.servers[i], kind) {
      var s := sys.servers[i];
      assert !s.locks.bits[99] && !s.cvs.bits[99] && !s.mvs.bits[99];
    }
  }

  lemma {:induction false} RunFrom(sys: Sys, k: int)
    requires 0 <= k <= 10 && Reached(sys, k)
    ensures GoodRun(sys, Script()[k..]) && Run(sys, Script()[k..]) && Reached(After(sys, Script()[k..]), 10)
    decreases 10 - k
  {
    hide Step, Reached, Roomy;
    if k < 10 {
      RunStep(sys, k);
      ReachedRoomy(sys, k);
      RunFrom(Step(sys, Script()[k]), k + 1);
      assert Script()[k..][0] == Script()[k] && Script()[k..][1..] == Script()[k + 1..];
    }
  }

  lemma StartReached()
    ensures Initial(Start()) && Reached(Start(), 0)
  {
  }

  lemma EndOwns(sys: Sys)
    requires Reached(sys, 10)
    ensures 0 in sys.servers && 1 in sys.servers
    ensures OwnsKey(sys.servers[0], LockKind, NAME) && OwnsKey(sys.servers[1], LockKind, NAME)
  {
    OwnsLive(Owner(0).locks, NAME, 0);
  }

  /** The bound of TwoServersAgree is tight: a run of three servers that meets every other
      hypothesis ends with two owners of one name. */
  lemma ThreeServersDisagree()
    ensures Initial(Start()) && GoodRun(Start(), Script()) && Run(Start(), Script())
    ensures var end := After(Start(), Script());
            && 0 in end.servers && 1 in end.servers
            && OwnsKey(end.servers[0], LockKind, NAME) && OwnsKey(end.servers[1], LockKind, NAME)
  {
    hide Reached, GoodRun, Run, Step, After;
    StartReached();
    assert Script()[0..] == Script();
    RunFrom(Start(), 0);
    EndOwns(After(Start(), Script()));
  }
}