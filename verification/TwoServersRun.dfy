/** Every run of two servers, seen through any one name, is a run of NameRace; so at most one
    server ever owns the name, and every create is answered exactly once. */
module TwoServersRun {
  import opened Wire
  import opened Protocol
  import opened Network
  import opened Effects
  import opened Sends
  import opened NameRace
  import opened TwoServers

  ghost predicate NoDestroyInFlight(sys: Sys) {
    forall i, j, k :: 0 <= k < |Chan(sys.chan, i, j)| ==> !Destroys(Chan(sys.chan, i, j)[k].req)
  }

  /** Two servers, `lo` before `hi`, and nothing being destroyed. */
  ghost predicate PairOk(sys: Sys, lo: int, hi: int) {
    && WellFormed(sys) && sys.up == {lo, hi} && 0 <= lo < hi < SERVERS
    && ServerOk(sys.servers[lo]) && ServerOk(sys.servers[hi])
    && NoDestroyInFlight(sys)
  }

  /** No table is full. */
  ghost predicate Roomy(sys: Sys) {
    forall i, kind :: i in sys.servers ==> HasRoomFor(sys.servers[i], kind)
  }

  predicate Destroying(a: Action) {
    a.FromClient? && Destroys(a.req)
  }

  ghost predicate AllRaces(sys: Sys, lo: int, hi: int)
    requires lo in sys.servers && hi in sys.servers
  {
    forall kind, name :: Inv(RaceOf(sys, lo, hi, kind, name))
  }

  /** The runs of the theorem: no destroys, and never a full table. */
  ghost predicate GoodRun(sys: Sys, acts: seq<Action>)
    decreases |acts|
  {
    acts == [] || (Enabled(sys, acts[0]) && !Destroying(acts[0]) && Roomy(sys) && GoodRun(Step(sys, acts[0]), acts[1..]))
  }

  lemma {:induction false} GoodRunIsRun(sys: Sys, acts: seq<Action>)
    requires GoodRun(sys, acts)
    ensures Run(sys, acts)
    decreases |acts|
  {
    hide Step, Roomy;
    if acts != [] { GoodRunIsRun(Step(sys, acts[0]), acts[1..]); }
  }

  // ---- one server's effect on the race ----

  function AtLo'(x: Race, sh: Share, next: int): Race {
    x.(ownLo := sh.own, lo := sh.pending, toHi := x.toHi + sh.sent, nextLo := next,
       issued := x.issued + sh.issued, answered := x.answered + sh.answered)
  }

  function AtHi'(x: Race, sh: Share, next: int): Race {
    x.(ownHi := sh.own, hi := sh.pending, toLo := x.toLo + sh.sent, nextHi := next,
       issued := x.issued + sh.issued, answered := x.answered + sh.answered)
  }

  /** The system after server i did e, having read the messages that chan no longer holds. */
  function Acted(sys: Sys, chan: Channels, i: int, e: Eff): Sys {
    Sys(sys.up, sys.servers[i := e.s], Post(chan, i, e.out), sys.trace + At(i, e.out))
  }

  lemma LoActs(sys: Sys, chan: Channels, lo: int, hi: int, e: Eff, kind: Kind, name: string)
    requires lo in sys.servers && hi in sys.servers && lo != hi
    ensures RaceOf(Acted(sys, chan, lo, e), lo, hi, kind, name)
         == AtLo'(RaceOf(sys.(chan := chan), lo, hi, kind, name), ShareOf(e, hi, kind, name), e.s.nextID)
  {
    PostChannels(chan, lo, e.out, lo, hi);
    PostChannels(chan, lo, e.out, hi, lo);
    MsgsForAppend(Chan(chan, lo, hi), SentTo(e.out, hi), kind, name);
    OutsAppend(sys.trace, lo, e.out);
    JobsForAppend(Outs(sys.trace), e.out, kind, name);
  }

  lemma HiActs(sys: Sys, chan: Channels, lo: int, hi: int, e: Eff, kind: Kind, name: string)
    requires lo in sys.servers && hi in sys.servers && lo != hi
    ensures RaceOf(Acted(sys, chan, hi, e), lo, hi, kind, name)
         == AtHi'(RaceOf(sys.(chan := chan), lo, hi, kind, name), ShareOf(e, lo, kind, name), e.s.nextID)
  {
    PostChannels(chan, hi, e.out, lo, hi);
    PostChannels(chan, hi, e.out, hi, lo);
    MsgsForAppend(Chan(chan, hi, lo), SentTo(e.out, lo), kind, name);
    OutsAppend(sys.trace, hi, e.out);
    JobsForAppend(Outs(sys.trace), e.out, kind, name);
  }

  /** Reading the first message of a channel, seen through one name. */
  lemma PopRace(sys: Sys, lo: int, hi: int, kind: Kind, name: string)
    requires lo in sys.servers && hi in sys.servers && lo != hi
    ensures Chan(sys.chan, hi, lo) != [] ==>
              var q := Chan(sys.chan, hi, lo);
              var x := RaceOf(sys, lo, hi, kind, name);
              var y := RaceOf(sys.(chan := sys.chan[(hi, lo) := q[1..]]), lo, hi, kind, name);
              if Is(q[0].req, kind, name) then x.toLo != [] && x.toLo[0] == q[0] && y == x.(toLo := x.toLo[1..]) else y == x
    ensures Chan(sys.chan, lo, hi) != [] ==>
              var q := Chan(sys.chan, lo, hi);
              var x := RaceOf(sys, lo, hi, kind, name);
              var y := RaceOf(sys.(chan := sys.chan[(lo, hi) := q[1..]]), lo, hi, kind, name);
              if Is(q[0].req, kind, name) then x.toHi != [] && x.toHi[0] == q[0] && y == x.(toHi := x.toHi[1..]) else y == x
  {
  }

  // ---- the shares are the moves ----

  /** The race agrees with `lo`'s (or `hi`'s) state. */
  predicate FitsLo(x: Race, s: Server) {
    x.ownLo == OwnsKey(s, x.kind, x.name) && x.lo == PendingFor(s.pending, x.kind, x.name) && x.nextLo == s.nextID
  }

  predicate FitsHi(x: Race, s: Server) {
    x.ownHi == OwnsKey(s, x.kind, x.name) && x.hi == PendingFor(s.pending, x.kind, x.name) && x.nextHi == s.nextID
  }

  lemma IdleMove(x: Race, s: Server, next: int)
    ensures FitsLo(x, s) ==> AtLo'(x, Idle(s, x.kind, x.name), next) == x.(nextLo := next)
    ensures FitsHi(x, s) ==> AtHi'(x, Idle(s, x.kind, x.name), next) == x.(nextHi := next)
  {
    assert x.toHi + [] == x.toHi && x.toLo + [] == x.toLo;
  }

  lemma ClientMoveLo(x: Race, s: Server, c: Client, req: Request)
    requires FitsLo(x, s) && Is(req, x.kind, x.name)
    ensures AtLo'(x, ClientShare(s, c, req, x.kind, x.name), if x.ownLo then s.nextID else s.nextID + 1) == ClientAtLo(x, c, req)
  {
    hide OwnsKey, PendingFor;
    assert x.toHi + [] == x.toHi;
  }

  lemma ClientMoveHi(x: Race, s: Server, c: Client, req: Request)
    requires FitsHi(x, s) && Is(req, x.kind, x.name)
    ensures AtHi'(x, ClientShare(s, c, req, x.kind, x.name), if x.ownHi then s.nextID else s.nextID + 1) == ClientAtHi(x, c, req)
  {
    hide OwnsKey, PendingFor;
    assert x.toLo + [] == x.toLo;
  }

  lemma AskMoveLo(x: Race, s: Server, from: int)
    requires x.toLo != [] && x.toLo[0].Ask? && FitsLo(x, s) && Is(x.toLo[0].req, x.kind, x.name) && s.me < from
    ensures AtLo'(x.(toLo := x.toLo[1..]), AskShare(s, from, x.toLo[0], x.kind, x.name), AskNext(s, from, x.kind, x.name))
         == DeliverToLo(x)
  {
    hide OwnsKey, PendingFor;
  }

  lemma AskMoveHi(x: Race, s: Server, from: int)
    requires x.toHi != [] && x.toHi[0].Ask? && FitsHi(x, s) && Is(x.toHi[0].req, x.kind, x.name) && from < s.me
    ensures AtHi'(x.(toHi := x.toHi[1..]), AskShare(s, from, x.toHi[0], x.kind, x.name), AskNext(s, from, x.kind, x.name))
         == DeliverToHi(x)
  {
    hide OwnsKey, PendingFor;
  }

  lemma TellMoveLo(x: Race, s: Server)
    requires Inv(x) && x.toLo != [] && x.toLo[0].Tell? && FitsLo(x, s) && Is(x.toLo[0].req, x.kind, x.name)
    ensures AtLo'(x.(toLo := x.toLo[1..]), TellShare(s, x.toLo[0], x.kind, x.name), s.nextID) == DeliverToLo(x)
  {
    hide OwnsKey, PendingFor, Phase, JobsOf;
    TellAtLoShape(x);
    assert x.toHi + [] == x.toHi;
  }

  lemma TellMoveHi(x: Race, s: Server)
    requires Inv(x) && x.toHi != [] && x.toHi[0].Tell? && FitsHi(x, s) && Is(x.toHi[0].req, x.kind, x.name)
    ensures AtHi'(x.(toHi := x.toHi[1..]), TellShare(s, x.toHi[0], x.kind, x.name), s.nextID) == DeliverToHi(x)
  {
    hide OwnsKey, PendingFor, Phase, JobsOf;
    TellAtHiShape(x);
    assert x.toLo + [] == x.toLo;
  }

  /** A NO that a race still waits for is the last one. */
  lemma RaceLastReply(x: Race, s: Server, m: Msg)
    requires Inv(x) && m.Tell? && Is(m.req, x.kind, x.name)
    requires (FitsLo(x, s) && x.toLo != [] && x.toLo[0] == m) || (FitsHi(x, s) && x.toHi != [] && x.toHi[0] == m)
    ensures IsLastReply(s, m)
  {
    hide OwnsKey, PendingFor, Phase, JobsOf;
    FindFor(s.pending, m, x.kind, x.name);
    if FitsLo(x, s) && x.toLo != [] && x.toLo[0] == m { TellAtLoShape(x); } else { TellAtHiShape(x); }
  }

  // ---- every step keeps every race ----

  lemma ClientAtLoKeeps(sys: Sys, lo: int, hi: int, c: Client, req: Request, kind: Kind, name: string)
    requires PairOk(sys, lo, hi) && Roomy(sys) && !Destroys(req) && Inv(RaceOf(sys, lo, hi, kind, name))
    ensures Inv(RaceOf(Acted(sys, sys.chan, lo, OnClient(sys.servers[lo], sys.up, c, req)), lo, hi, kind, name))
  {
    hide OnClient, Inv, ServerOk, HasRoomFor, ClientShare, ClientAtLo, ShareOf;
    var x := RaceOf(sys, lo, hi, kind, name);
    var s := sys.servers[lo];
    var e := OnClient(s, sys.up, c, req);
    PeersTwo(sys.up, lo, hi, 0);
    OnClientShare(s, sys.up, hi, c, req, kind, name);
    LoActs(sys, sys.chan, lo, hi, e, kind, name);
    if Is(req, kind, name) {
      ClientMoveLo(x, s, c, req);
      ClientLoKeeps(x, c, req);
    } else {
      NotClient(s, c, req, kind, name);
      IdleMove(x, s, e.s.nextID);
      TickKeeps(x, e.s.nextID, x.nextHi);
    }
  }

  lemma NotClient(s: Server, c: Client, req: Request, kind: Kind, name: string)
    requires !Is(req, kind, name)
    ensures ClientShare(s, c, req, kind, name) == Idle(s, kind, name)
  {
  }

  lemma ClientAtHiKeeps(sys: Sys, lo: int, hi: int, c: Client, req: Request, kind: Kind, name: string)
    requires PairOk(sys, lo, hi) && Roomy(sys) && !Destroys(req) && Inv(RaceOf(sys, lo, hi, kind, name))
    ensures Inv(RaceOf(Acted(sys, sys.chan, hi, OnClient(sys.servers[hi], sys.up, c, req)), lo, hi, kind, name))
  {
    hide OnClient, Inv, ServerOk, HasRoomFor, ClientShare, ClientAtHi, ShareOf;
    var x := RaceOf(sys, lo, hi, kind, name);
    var s := sys.servers[hi];
    var e := OnClient(s, sys.up, c, req);
    PeersTwo(sys.up, hi, lo, 0);
    OnClientShare(s, sys.up, lo, c, req, kind, name);
    HiActs(sys, sys.chan, lo, hi, e, kind, name);
    if Is(req, kind, name) {
      ClientMoveHi(x, s, c, req);
      ClientHiKeeps(x, c, req);
    } else {
      NotClient(s, c, req, kind, name);
      IdleMove(x, s, e.s.nextID);
      TickKeeps(x, x.nextLo, e.s.nextID);
    }
  }

  /** The system once the first message from i to j has been read. */
  function Read(sys: Sys, i: int, j: int): Channels
    requires Chan(sys.chan, i, j) != []
  {
    sys.chan[(i, j) := Chan(sys.chan, i, j)[1..]]
  }

  lemma ReadAtLoKeeps(sys: Sys, lo: int, hi: int, kind: Kind, name: string)
    requires PairOk(sys, lo, hi) && Roomy(sys) && Chan(sys.chan, hi, lo) != [] && Inv(RaceOf(sys, lo, hi, kind, name))
    ensures var m := Chan(sys.chan, hi, lo)[0];
            Inv(RaceOf(Acted(sys, Read(sys, hi, lo), lo, OnMsg(sys.servers[lo], sys.up, hi, m)), lo, hi, kind, name))
  {
    hide OnAsk, OnTell, Inv, ServerOk, HasRoomFor, AskShare, AskNext, TellShare, DeliverToLo, ShareOf, IsLastReply, OwnsKey;
    var m := Chan(sys.chan, hi, lo)[0];
    var s := sys.servers[lo];
    var x := RaceOf(sys, lo, hi, kind, name);
    var y := RaceOf(sys.(chan := Read(sys, hi, lo)), lo, hi, kind, name);
    var e := OnMsg(s, sys.up, hi, m);
    PeersTwo(sys.up, lo, hi, 0);
    PopRace(sys, lo, hi, kind, name);
    LoActs(sys, Read(sys, hi, lo), lo, hi, e, kind, name);
    if Is(m.req, kind, name) {
      if m.Tell? { RaceLastReply(x, s, m); }
      ReadShare(s, sys.up, hi, m, kind, name);
      if m.Ask? { AskMoveLo(x, s, hi); AskAtLoKeeps(x); } else { TellMoveLo(x, s); TellAtLoKeeps(x); }
    } else {
      ReadShare(s, sys.up, hi, m, kind, name);
      NotRead(s, hi, m, kind, name);
      IdleMove(y, s, e.s.nextID);
      TickKeeps(x, e.s.nextID, x.nextHi);
    }
  }

  /** The share of a message read. */
  lemma ReadShare(s: Server, up: set<int>, peer: int, m: Msg, kind: Kind, name: string)
    requires Paired(s, up, peer) && !Destroys(m.req) && (m.req.Create? ==> HasRoomFor(s, m.req.kind))
    requires m.Tell? && Is(m.req, kind, name) ==> IsLastReply(s, m)
    ensures var e := OnMsg(s, up, peer, m);
            && Grown(s, e.s)
            && ShareOf(e, peer, kind, name) == (if m.Ask? then AskShare(s, peer, m, kind, name) else TellShare(s, m, kind, name))
            && (Is(m.req, kind, name) ==> e.s.nextID == if m.Ask? then AskNext(s, peer, kind, name) else s.nextID)
  {
    hide OnAsk, OnTell, AskShare, TellShare, AskNext, ShareOf, Paired, IsLastReply;
    if m.Ask? { OnAskShare(s, up, peer, m, kind, name); } else { OnTellShare(s, up, peer, m, kind, name); }
  }

  lemma NotRead(s: Server, from: int, m: Msg, kind: Kind, name: string)
    requires !Is(m.req, kind, name)
    ensures m.Ask? ==> AskShare(s, from, m, kind, name) == Idle(s, kind, name)
    ensures m.Tell? ==> TellShare(s, m, kind, name) == Idle(s, kind, name)
  {
  }

  lemma ReadAtHiKeeps(sys: Sys, lo: int, hi: int, kind: Kind, name: string)
    requires PairOk(sys, lo, hi) && Roomy(sys) && Chan(sys.chan, lo, hi) != [] && Inv(RaceOf(sys, lo, hi, kind, name))
    ensures var m := Chan(sys.chan, lo, hi)[0];
            Inv(RaceOf(Acted(sys, Read(sys, lo, hi), hi, OnMsg(sys.servers[hi], sys.up, lo, m)), lo, hi, kind, name))
  {
    hide OnAsk, OnTell, Inv, ServerOk, HasRoomFor, AskShare, AskNext, TellShare, DeliverToHi, ShareOf, IsLastReply, OwnsKey;
    var m := Chan(sys.chan, lo, hi)[0];
    var s := sys.servers[hi];
    var x := RaceOf(sys, lo, hi, kind, name);
    var y := RaceOf(sys.(chan := Read(sys, lo, hi)), lo, hi, kind, name);
    var e := OnMsg(s, sys.up, lo, m);
    PeersTwo(sys.up, hi, lo, 0);
    PopRace(sys, lo, hi, kind, name);
    HiActs(sys, Read(sys, lo, hi), lo, hi, e, kind, name);
    if Is(m.req, kind, name) {
      if m.Tell? { RaceLastReply(x, s, m); }
      ReadShare(s, sys.up, lo, m, kind, name);
      if m.Ask? { AskMoveHi(x, s, lo); AskAtHiKeeps(x); } else { TellMoveHi(x, s); TellAtHiKeeps(x); }
    } else {
      ReadShare(s, sys.up, lo, m, kind, name);
      NotRead(s, lo, m, kind, name);
      IdleMove(y, s, e.s.nextID);
      TickKeeps(x, x.nextLo, e.s.nextID);
    }
  }

  lemma StepKeepsRace(sys: Sys, a: Action, lo: int, hi: int, kind: Kind, name: string)
    requires PairOk(sys, lo, hi) && Roomy(sys) && Enabled(sys, a) && !Destroying(a)
    requires Inv(RaceOf(sys, lo, hi, kind, name))
    ensures Inv(RaceOf(Step(sys, a), lo, hi, kind, name))
  {
    hide OnClient, OnMsg, Inv, RaceOf, Roomy, ServerOk;
    match a
    case FromClient(i, c, req) =>
      assert Step(sys, a) == Acted(sys, sys.chan, i, OnClient(sys.servers[i], sys.up, c, req));
      if i == lo { ClientAtLoKeeps(sys, lo, hi, c, req, kind, name); } else { ClientAtHiKeeps(sys, lo, hi, c, req, kind, name); }
    case Deliver(i, j) =>
      var m := Chan(sys.chan, i, j)[0];
      assert Step(sys, a) == Acted(sys, Read(sys, i, j), j, OnMsg(sys.servers[j], sys.up, i, m));
      if j == lo { ReadAtLoKeeps(sys, lo, hi, kind, name); } else { ReadAtHiKeeps(sys, lo, hi, kind, name); }
  }

  /** No destroy starts travelling, and the servers stay in order. */
  lemma StepKeepsPair(sys: Sys, a: Action, lo: int, hi: int)
    requires PairOk(sys, lo, hi) && Roomy(sys) && Enabled(sys, a) && !Destroying(a) && AllRaces(sys, lo, hi)
    ensures PairOk(Step(sys, a), lo, hi)
  {
    StepWellFormed(sys, a);
    StepKeepsServers(sys, a, lo, hi);
    StepKeepsMild(sys, a);
  }

  lemma StepKeepsMild(sys: Sys, a: Action)
    requires WellFormed(sys) && Enabled(sys, a) && NoDestroyInFlight(sys) && !Destroying(a)
    ensures NoDestroyInFlight(Step(sys, a))
  {
    hide OnClient, OnAsk, OnTell;
    match a
    case FromClient(i, c, req) =>
      var e := OnClient(sys.servers[i], sys.up, c, req);
      OnClientSends(sys.servers[i], sys.up, c, req);
      PostMild(sys, sys.chan, i, e, req);
    case Deliver(i, j) =>
      var m := Chan(sys.chan, i, j)[0];
      var e := OnMsg(sys.servers[j], sys.up, i, m);
      if m.Ask? { OnAskSends(sys.servers[j], sys.up, i, m); } else { OnTellSends(sys.servers[j], sys.up, m); }
      var read := Read(sys, i, j);
      forall k, l, n | 0 <= n < |Chan(read, k, l)| ensures !Destroys(Chan(read, k, l)[n].req) {
        assert Chan(read, k, l)[n] == Chan(sys.chan, k, l)[if (k, l) == (i, j) then n + 1 else n];
      }
      assert !Destroys(Chan(sys.chan, i, j)[0].req);
      PostMild(sys, read, j, e, m.req);
  }

  lemma PostMild(sys: Sys, chan: Channels, me: int, e: Eff, req: Request)
    requires SendsOk(sys.up, me, req, e.out) && !Destroys(req)
    requires forall i, j, k :: 0 <= k < |Chan(chan, i, j)| ==> !Destroys(Chan(chan, i, j)[k].req)
    ensures NoDestroyInFlight(Acted(sys, chan, me, e))
  {
    var after := Post(chan, me, e.out);
    forall i, j, k | 0 <= k < |Chan(after, i, j)| ensures !Destroys(Chan(after, i, j)[k].req) {
      PostChannels(chan, me, e.out, i, j);
      SentToOk(sys.up, me, req, e.out, j);
    }
  }

  lemma StepKeepsServers(sys: Sys, a: Action, lo: int, hi: int)
    requires PairOk(sys, lo, hi) && Roomy(sys) && Enabled(sys, a) && !Destroying(a) && AllRaces(sys, lo, hi)
    ensures ServerOk(Step(sys, a).servers[lo]) && ServerOk(Step(sys, a).servers[hi])
  {
    hide OnClient, OnMsg, ServerOk, Inv, IsLastReply, OwnsKey, PendingFor, Post, At, SentTo;
    match a
    case FromClient(i, c, req) =>
      var peer := if i == lo then hi else lo;
      PeersTwo(sys.up, i, peer, 0);
      OnClientShare(sys.servers[i], sys.up, peer, c, req, LockKind, "");
    case Deliver(i, j) =>
      var m := Chan(sys.chan, i, j)[0];
      PeersTwo(sys.up, j, i, 0);
      var kind, name := LockKind, "";
      if m.Tell? && Is(m.req, kind, name) {
        var x := RaceOf(sys, lo, hi, kind, name);
        PopRace(sys, lo, hi, kind, name);
        RaceLastReply(x, sys.servers[j], m);
      }
      ReadShare(sys.servers[j], sys.up, i, m, kind, name);
  }

  lemma InitialPair(sys: Sys, lo: int, hi: int)
    requires Initial(sys) && sys.up == {lo, hi} && lo < hi
    ensures PairOk(sys, lo, hi) && AllRaces(sys, lo, hi)
  {
    assert lo in sys.up && hi in sys.up;
    forall kind, name ensures Inv(RaceOf(sys, lo, hi, kind, name)) {
      var x := RaceOf(sys, lo, hi, kind, name);
      assert !x.ownLo && !x.ownHi && x.lo == [] && x.hi == [] && x.toLo == [] && x.toHi == [];
      assert Open(ViewOf(x));
    }
  }

  /** The invariant holds after every run. */
  lemma {:induction false} RunKeeps(sys: Sys, acts: seq<Action>, lo: int, hi: int)
    requires PairOk(sys, lo, hi) && AllRaces(sys, lo, hi) && GoodRun(sys, acts)
    ensures Run(sys, acts) && PairOk(After(sys, acts), lo, hi) && AllRaces(After(sys, acts), lo, hi)
    decreases |acts|
  {
    hide Step, Roomy, Inv, RaceOf, ServerOk;
    GoodRunIsRun(sys, acts);
    if acts != [] {
      StepKeepsPair(sys, acts[0], lo, hi);
      forall kind, name ensures Inv(RaceOf(Step(sys, acts[0]), lo, hi, kind, name)) {
        StepKeepsRace(sys, acts[0], lo, hi, kind, name);
      }
      RunKeeps(Step(sys, acts[0]), acts[1..], lo, hi);
    }
  }

  /** The service's promise with two servers. Whatever clients do, short of destroying resources or
      filling a table, at most one server ever owns a name; no create is answered that was not
      asked, or answered twice; and when no message about the name is on its way, every create of
      it has been answered and no server still waits for anything. */
  lemma TwoServersAgree(sys: Sys, acts: seq<Action>, lo: int, hi: int, kind: Kind, name: string)
    requires Initial(sys) && sys.up == {lo, hi} && lo < hi && GoodRun(sys, acts)
    ensures Run(sys, acts)
    ensures var end := After(sys, acts);
            && end.servers.Keys == {lo, hi}
            && !(OwnsKey(end.servers[lo], kind, name) && OwnsKey(end.servers[hi], kind, name))
            && var issued := IssuedFor(Outs(end.trace), kind, name);
               var answered := AnsweredFor(Outs(end.trace), kind, name);
               && answered <= issued
               && (MsgsFor(Chan(end.chan, lo, hi), kind, name) == [] && MsgsFor(Chan(end.chan, hi, lo), kind, name) == [] ==>
                     && answered == issued
                     && PendingFor(end.servers[lo].pending, kind, name) == []
                     && PendingFor(end.servers[hi].pending, kind, name) == [])
  {
    hide Inv;
    InitialPair(sys, lo, hi);
    RunKeeps(sys, acts, lo, hi);
    InvMeans(RaceOf(After(sys, acts), lo, hi, kind, name));
  }

  // ---- for good ----

  /** No step but a destroy takes a name away. */
  lemma SharesKeepOwner(s: Server, peer: int, c: Client, req: Request, m: Msg, kind: Kind, name: string)
    requires OwnsKey(s, kind, name)
    ensures ClientShare(s, c, req, kind, name).own
    ensures m.Ask? ==> AskShare(s, peer, m, kind, name).own
    ensures m.Tell? ==> TellShare(s, m, kind, name).own
  {
  }

  lemma StepKeepsOwner(sys: Sys, a: Action, lo: int, hi: int, j: int, kind: Kind, name: string)
    requires PairOk(sys, lo, hi) && Roomy(sys) && Enabled(sys, a) && !Destroying(a) && AllRaces(sys, lo, hi)
    requires (j == lo || j == hi) && OwnsKey(sys.servers[j], kind, name)
    ensures j in Step(sys, a).servers && OwnsKey(Step(sys, a).servers[j], kind, name)
  {
    hide OnClient, OnMsg, ServerOk, Inv, IsLastReply, OwnsKey, PendingFor, Post, At, SentTo, ClientShare, AskShare, TellShare, AskNext;
    var s := sys.servers[j];
    match a
    case FromClient(i, c, req) =>
      var peer := if i == lo then hi else lo;
      PeersTwo(sys.up, i, peer, 0);
      OnClientShare(sys.servers[i], sys.up, peer, c, req, kind, name);
      SharesKeepOwner(s, peer, c, req, Ask(0, c, req), kind, name);
    case Deliver(i, k) =>
      var m := Chan(sys.chan, i, k)[0];
      PeersTwo(sys.up, k, i, 0);
      if m.Tell? && Is(m.req, kind, name) {
        PopRace(sys, lo, hi, kind, name);
        RaceLastReply(RaceOf(sys, lo, hi, kind, name), sys.servers[k], m);
      }
      ReadShare(sys.servers[k], sys.up, i, m, kind, name);
      SharesKeepOwner(s, i, m.client, m.req, m, kind, name);
  }

  lemma {:induction false} RunKeepsOwner(sys: Sys, acts: seq<Action>, lo: int, hi: int, j: int, kind: Kind, name: string)
    requires PairOk(sys, lo, hi) && AllRaces(sys, lo, hi) && GoodRun(sys, acts) && Run(sys, acts)
    requires (j == lo || j == hi) && OwnsKey(sys.servers[j], kind, name)
    ensures j in After(sys, acts).servers && OwnsKey(After(sys, acts).servers[j], kind, name)
    decreases |acts|
  {
    hide Step, Roomy, Inv, RaceOf, ServerOk, OwnsKey;
    if acts != [] {
      StepKeepsPair(sys, acts[0], lo, hi);
      forall k, n ensures Inv(RaceOf(Step(sys, acts[0]), lo, hi, k, n)) { StepKeepsRace(sys, acts[0], lo, hi, k, n); }
      StepKeepsOwner(sys, acts[0], lo, hi, j, kind, name);
      RunKeepsOwner(Step(sys, acts[0]), acts[1..], lo, hi, j, kind, name);
    }
  }

  /** Once one of the two servers owns a name it owns it for good, and the other never will. */
  lemma OwnershipIsPermanent(sys: Sys, acts: seq<Action>, more: seq<Action>, lo: int, hi: int, j: int, kind: Kind, name: string)
    requires Initial(sys) && sys.up == {lo, hi} && lo < hi && GoodRun(sys, acts) && (j == lo || j == hi)
    ensures Run(sys, acts) && j in After(sys, acts).servers
    ensures GoodRun(After(sys, acts), more) && OwnsKey(After(sys, acts).servers[j], kind, name) ==>
              && Run(After(sys, acts), more)
              && var end := After(After(sys, acts), more);
                 end.servers.Keys == {lo, hi} && OwnsKey(end.servers[j], kind, name) && !OwnsKey(end.servers[lo + hi - j], kind, name)
  {
    hide Inv, RaceOf, OwnsKey, GoodRun, Run, After;
    InitialPair(sys, lo, hi);
    RunKeeps(sys, acts, lo, hi);
    var now := After(sys, acts);
    if GoodRun(now, more) && OwnsKey(now.servers[j], kind, name) {
      RunKeeps(now, more, lo, hi);
      RunKeepsOwner(now, more, lo, hi, j, kind, name);
      NotBoth(After(now, more), lo, hi, kind, name);
    }
  }

  lemma NotBoth(sys: Sys, lo: int, hi: int, kind: Kind, name: string)
    requires PairOk(sys, lo, hi) && AllRaces(sys, lo, hi)
    ensures sys.servers.Keys == {lo, hi} && !(OwnsKey(sys.servers[lo], kind, name) && OwnsKey(sys.servers[hi], kind, name))
  {
    hide Inv;
    InvMeans(RaceOf(sys, lo, hi, kind, name));
  }
}
