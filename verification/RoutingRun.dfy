/** In every run, a request by identifier is executed once, by its owner, in the order in which the
    server it came through took it on. */
module RoutingRun {
  import opened Wire
  import opened Protocol
  import opened Network
  import opened Sends
  import opened Emissions
  import opened Counting
  import opened Outstanding
  import opened Routing

  // ---- the owner's reply is always outstanding ----

  ghost predicate AllYes(q: seq<Msg>, o: int) {
    forall k :: 0 <= k < |q| && q[k].Tell? && ForOwner(q[k].req, o) ==> q[k].yes
  }

  ghost predicate OwnersSayYes(up: set<int>, chan: Channels) {
    forall i, o :: i in up && o in up ==> AllYes(Chan(chan, o, i), o)
  }

  /** A pending request for another owner still has its question to the owner, or the owner's
      answer, on the way. */
  ghost predicate AwaitsOwner(ps: seq<Pending>, up: set<int>, chan: Channels, i: int) {
    forall k, o :: 0 <= k < |ps| && o in up && ForOwner(ps[k].req, o) ==> o != i && Between(chan, i, o, TicketOf(ps[k])) > 0
  }

  /** The last NO never comes for such a request: the owner's answer is a YES. */
  lemma NeverAllNo(s: Server, up: set<int>, chan: Channels, from: int)
    requires Books(s.pending, s.nextID, chan, s.me) && AwaitsOwner(s.pending, up, chan, s.me) && OwnersSayYes(up, chan)
    requires Chan(chan, from, s.me) != [] && Chan(chan, from, s.me)[0].Tell? && !Chan(chan, from, s.me)[0].yes
    requires from in up && s.me in up && from != s.me && forall o :: o in up ==> 0 <= o < SERVERS
    ensures var m := Chan(chan, from, s.me)[0];
            var k := FindPending(s.pending, m, 0);
            k != -1 && !Orphan(up, m.req) ==> s.pending[k].noCount + 1 != s.pending[k].sentCount
  {
    hide FindPending, InFlight, Between, AllVouched;
    var m := Chan(chan, from, s.me)[0];
    var k := FindPending(s.pending, m, 0);
    PopOne(chan, from, s.me);
    MatchedTicket(s.pending, s.nextID, chan, s.me, m);
    if k != -1 && !Orphan(up, m.req) {
      var o :| o in up && ForOwner(m.req, o);
      assert OnMessage(m) == TicketOf(s.pending[k]) && m.req == s.pending[k].req;
      assert o != from by { assert AllYes(Chan(chan, from, s.me), from); }
      var after := chan[(from, s.me) := Chan(chan, from, s.me)[1..]];
      BetweenPop(chan, from, s.me, s.me, o, OnMessage(m));
      InFlightPop(chan, from, s.me, s.me, OnMessage(m));
      BetweenInFlight(after, s.me, o, OnMessage(m));
    }
  }

  lemma BetweenInFlight(chan: Channels, i: int, o: int, t: Ticket)
    requires 0 <= o < SERVERS
    ensures InFlight(chan, i, t) >= Between(chan, i, o, t)
  {
    hide Between;
  }

  lemma {:induction false} CountNew(ps: seq<Pending>, k: int)
    requires 0 <= k < |ps|
    ensures AskCount(AsksFor(ps), TicketOf(ps[k])) > 0
  {
    var rest := AsksFor(ps[1..]);
    assert ([AskFor(ps[0])] + rest)[1..] == rest;
    if k > 0 { CountNew(ps[1..], k - 1); }
  }

  ghost predicate OldAwait(ps: seq<Pending>, qs: seq<Pending>, up: set<int>, chan: Channels, me: int) {
    forall k, o :: 0 <= k < |qs| && Among(ps, qs[k]) && o in up && ForOwner(qs[k].req, o) ==>
      (o != me && Between(chan, me, o, TicketOf(qs[k])) > 0)
  }

  /** What survives at the actor still awaits its owner, and what it newly forwarded does too. */
  lemma AwaitsSelf(ps: seq<Pending>, qs: seq<Pending>, more: seq<Pending>, up: set<int>, chan: Channels, me: int,
                   out: seq<Out>, from: int, reply: seq<Msg>)
    requires Grown(ps, qs, more) && NotOurs(more, me) && Sent(out, Peers(up, me, 0), more, from, reply)
    requires OldAwait(ps, qs, up, chan, me)
    requires forall o :: o in up ==> 0 <= o < SERVERS
    ensures AwaitsOwner(qs, up, Post(chan, me, out), me)
  {
    hide Between, Post, Sent, CMod, Peers, AskCount, AsksFor, Among;
    forall k, o | 0 <= k < |qs| && o in up && ForOwner(qs[k].req, o)
      ensures o != me && Between(Post(chan, me, out), me, o, TicketOf(qs[k])) > 0
    {
      var q := qs[k];
      PeersUp(up, me, 0, o);
      if Among(ps, q) {
        BetweenSelf(chan, me, out, Peers(up, me, 0), more, from, reply, o, TicketOf(q));
      } else {
        var j := NewOne(more, q);
        MineHasSlot(q.req, me);
        BetweenSelf(chan, me, out, Peers(up, me, 0), more, from, reply, o, TicketOf(q));
        CountNew(more, j);
      }
    }
  }

  lemma NewOne(more: seq<Pending>, q: Pending) returns (j: int)
    requires Among(more, q)
    ensures 0 <= j < |more| && TicketOf(more[j]) == TicketOf(q) && more[j].req == q.req
  {
    j :| 0 <= j < |more| && TicketOf(more[j]) == TicketOf(q);
  }

  lemma OldOne(ps: seq<Pending>, q: Pending) returns (j: int)
    requires Among(ps, q)
    ensures 0 <= j < |ps| && TicketOf(ps[j]) == TicketOf(q) && ps[j].req == q.req
  {
    j :| 0 <= j < |ps| && TicketOf(ps[j]) == TicketOf(q);
  }

  /** Nothing that was pending at the actor was counted by what it read. */
  lemma StillAwaits(ps: seq<Pending>, q: Pending, up: set<int>, chan: Channels, after: Channels, me: int, o: int)
    requires AwaitsOwner(ps, up, chan, me) && Among(ps, q) && o in up && ForOwner(q.req, o)
    requires Between(after, me, o, TicketOf(q)) >= Between(chan, me, o, TicketOf(q))
    ensures o != me && Between(after, me, o, TicketOf(q)) > 0
  {
    hide Between;
    var j := OldOne(ps, q);
  }

  lemma AwaitsOther(ps: seq<Pending>, up: set<int>, chan: Channels, after: Channels, i: int)
    requires AwaitsOwner(ps, up, chan, i)
    requires forall o, t :: Between(after, i, o, t) == Between(chan, i, o, t)
    ensures AwaitsOwner(ps, up, after, i)
  {
    hide Between, CMod;
  }

  /** The channels into i from a server o other than the actor only lose their head. */
  lemma YesKept(up: set<int>, chan: Channels, after: Channels)
    requires OwnersSayYes(up, chan)
    requires forall i, o :: i in up && o in up ==>
               (Chan(after, o, i) == Chan(chan, o, i) || (Chan(chan, o, i) != [] && Chan(after, o, i) == Chan(chan, o, i)[1..]))
    ensures OwnersSayYes(up, after)
  {
    forall i, o | i in up && o in up ensures AllYes(Chan(after, o, i), o) {
      assert AllYes(Chan(chan, o, i), o);
      assert Chan(after, o, i) != Chan(chan, o, i) ==> forall k :: 0 <= k < |Chan(after, o, i)| ==> Chan(after, o, i)[k] == Chan(chan, o, i)[k + 1];
    }
  }

  lemma YesPop(up: set<int>, chan: Channels, from: int, me: int)
    requires OwnersSayYes(up, chan) && Chan(chan, from, me) != []
    ensures OwnersSayYes(up, chan[(from, me) := Chan(chan, from, me)[1..]])
  {
    YesKept(up, chan, chan[(from, me) := Chan(chan, from, me)[1..]]);
  }

  lemma {:induction false} AsksOnly(ps: seq<Pending>)
    ensures forall k :: 0 <= k < |AsksFor(ps)| ==> AsksFor(ps)[k].Ask?
  {
    if ps != [] { AsksOnly(ps[1..]); }
  }

  lemma YesPost(up: set<int>, chan: Channels, me: int, out: seq<Out>, peers: seq<int>, more: seq<Pending>, from: int, reply: seq<Msg>)
    requires OwnersSayYes(up, chan) && Sent(out, peers, more, from, reply)
    requires forall r :: 0 <= r < |reply| && ForOwner(reply[r].req, me) ==> reply[r].yes
    ensures OwnersSayYes(up, Post(chan, me, out))
  {
    hide Post, SentTo, CMod;
    AsksOnly(more);
    forall i, o | i in up && o in up ensures AllYes(Chan(Post(chan, me, out), o, i), o) {
      PostChannels(chan, me, out, o, i);
      assert AllYes(Chan(chan, o, i), o);
    }
  }

  // ---- the channels and the trace ----

  /** The jobs for o among the questions in a channel. */
  function JobsIn(q: seq<Msg>, o: int): seq<Job> {
    if q == [] then []
    else (if q[0].Ask? && ForOwner(q[0].req, o) then [JobOf(q[0].client, q[0].req)] else []) + JobsIn(q[1..], o)
  }

  lemma {:induction false} JobsAppend(a: seq<Msg>, b: seq<Msg>, o: int)
    ensures JobsIn(a + b, o) == JobsIn(a, o) + JobsIn(b, o)
  {
    if a == [] {
      assert a + b == b;
    } else {
      assert (a + b)[0] == a[0] && (a + b)[1..] == a[1..] + b;
      JobsAppend(a[1..], b, o);
    }
  }

  lemma {:induction false} JobsSent(out: seq<Out>, o: int)
    ensures JobsIn(SentTo(out, o), o) == Pick(out, AskedTo(o))
    decreases |out|
  {
    if out != [] {
      JobsSent(out[1..], o);
      var head := if out[0].Send? && out[0].dest == o then [out[0].msg] else [];
      JobsAppend(head, SentTo(out[1..], o), o);
      assert head != [] ==> head[1..] == [];
    }
  }

  /** One machine's part of the trace. */
  function PickAt(trace: seq<(int, Out)>, i: int, v: View): seq<Job> {
    if trace == [] then [] else (if trace[0].0 == i then Look(trace[0].1, v) else []) + PickAt(trace[1..], i, v)
  }

  lemma {:induction false} PickAtAppend(a: seq<(int, Out)>, b: seq<(int, Out)>, i: int, v: View)
    ensures PickAt(a + b, i, v) == PickAt(a, i, v) + PickAt(b, i, v)
  {
    if a == [] {
      assert a + b == b;
    } else {
      assert (a + b)[0] == a[0] && (a + b)[1..] == a[1..] + b;
      PickAtAppend(a[1..], b, i, v);
    }
  }

  lemma {:induction false} PickAtOne(me: int, out: seq<Out>, i: int, v: View)
    ensures PickAt(At(me, out), i, v) == if i == me then Pick(out, v) else []
  {
    if out != [] {
      var rest := At(me, out[1..]);
      assert ([(me, out[0])] + rest)[1..] == rest;
      PickAtOne(me, out[1..], i, v);
    }
  }

  lemma PickAtGrows(trace: seq<(int, Out)>, me: int, out: seq<Out>, i: int, v: View)
    ensures PickAt(trace + At(me, out), i, v) == PickAt(trace, i, v) + if i == me then Pick(out, v) else []
  {
    hide PickAt, At, Pick;
    PickAtAppend(trace, At(me, out), i, v);
    PickAtOne(me, out, i, v);
  }

  /** What server j took on for owner o is what o said YES to, followed by what is on the way. */
  ghost predicate InOrder(chan: Channels, trace: seq<(int, Out)>, j: int, o: int) {
    PickAt(trace, j, IssuedFor(o)) == PickAt(trace, o, YesTo(j, o)) + JobsIn(Chan(chan, j, o), o)
  }

  /** Every run of a job is at its owner, once for each time the owner took it on. */
  ghost predicate RunsAtOwner(trace: seq<(int, Out)>, i: int, o: int) {
    PickAt(trace, i, RanFor(o)) == if i == o then PickAt(trace, o, ServedFor(o)) else []
  }

  /** What one step adds to the trace: like Routes, but with at most one YES, to `from`. */
  ghost predicate Acted(me: int, up: set<int>, out: seq<Out>, from: int, got: seq<Job>) {
    && RoutesAway(me, up, out) && Pick(out, RanFor(me)) == Pick(out, ServedFor(me))
    && forall j, o :: o in up ==> Pick(out, YesTo(j, o)) == if j == from && o == me then got else []
  }

  lemma InOrderStep(up: set<int>, before: Channels, chan: Channels, trace: seq<(int, Out)>, me: int, out: seq<Out>,
                    from: int, got: seq<Job>, j: int, o: int)
    requires InOrder(before, trace, j, o) && Acted(me, up, out, from, got) && j in up && o in up && j != o
    requires JobsIn(Chan(before, j, o), o) == (if j == from && o == me then got else []) + JobsIn(Chan(chan, j, o), o)
    ensures InOrder(Post(chan, me, out), trace + At(me, out), j, o)
  {
    hide PickAt, At, Pick, Post, JobsIn, SentTo;
    PickAtGrows(trace, me, out, j, IssuedFor(o));
    PickAtGrows(trace, me, out, o, YesTo(j, o));
    PostChannels(chan, me, out, j, o);
    if j == me {
      JobsSent(out, o);
      JobsAppend(Chan(chan, j, o), SentTo(out, o), o);
    }
  }

  lemma RunsStep(up: set<int>, trace: seq<(int, Out)>, me: int, out: seq<Out>, from: int, got: seq<Job>, i: int, o: int)
    requires RunsAtOwner(trace, i, o) && Acted(me, up, out, from, got) && o in up
    ensures RunsAtOwner(trace + At(me, out), i, o)
  {
    hide PickAt, At, Pick;
    PickAtGrows(trace, me, out, i, RanFor(o));
    PickAtGrows(trace, me, out, o, ServedFor(o));
  }

  lemma {:induction false} PickYes(out: seq<Out>, j: int, o: int)
    requires NoYes(out)
    ensures Pick(out, YesTo(j, o)) == []
  {
    if out != [] { PickYes(out[1..], j, o); }
  }

  lemma RoutesActs(me: int, up: set<int>, out: seq<Out>)
    requires Routes(me, up, out)
    ensures Acted(me, up, out, me, [])
  {
    hide Pick, RoutesAway;
    forall j, o ensures Pick(out, YesTo(j, o)) == [] { PickYes(out, j, o); }
  }

  // ---- reading a question ----

  /** The job a question is for, if it is for this server. */
  function Wanted(m: Msg, me: int): seq<Job> {
    if m.Ask? && ForOwner(m.req, me) then [JobOf(m.client, m.req)] else []
  }

  /** A reply, then outputs that route. */
  lemma ReplyActs(me: int, up: set<int>, from: int, reply: Msg, rest: seq<Out>)
    requires Routes(me, up, rest) && reply.Tell? && (reply.yes ==> Orphan(up, reply.req)) && me in up
    ensures Acted(me, up, [Send(from, reply)] + rest, from, [])
  {
    hide Pick;
    forall v ensures Pick([Send(from, reply)] + rest, v) == Look(Send(from, reply), v) + Pick(rest, v) {
      PickAppend([Send(from, reply)], rest, v);
      PickOne(Send(from, reply), v);
    }
    forall j, o ensures Pick(rest, YesTo(j, o)) == [] { PickYes(rest, j, o); }
  }

  lemma RunPick(reply: Out, rest: seq<Out>, v: View)
    requires rest != []
    ensures Pick([reply] + rest, v) == Look(reply, v) + Look(rest[0], v) + Pick(rest[1..], v)
  {
    hide Pick, Look;
    assert rest == [rest[0]] + rest[1..];
    PickAppend([reply], rest, v);
    PickAppend([rest[0]], rest[1..], v);
    PickOne(reply, v);
    PickOne(rest[0], v);
  }

  /** A YES, the run it promises, then outputs that route. */
  lemma RunActs(me: int, up: set<int>, from: int, reply: Msg, rest: seq<Out>)
    requires reply.Tell? && reply.yes && !reply.req.Create? && MyIndex(Target(reply.req), me) != -1
    requires RunsThen(me, up, rest, MyIndex(Target(reply.req), me), reply.client, reply.req)
    ensures Acted(me, up, [Send(from, reply)] + rest, from, if ForOwner(reply.req, me) then [JobOf(reply.client, reply.req)] else [])
  {
    hide Pick, CMod, MyIndex, RoutesAway;
    var tail := rest[1..];
    forall v ensures Pick([Send(from, reply)] + rest, v) == Look(Send(from, reply), v) + Look(rest[0], v) + Pick(tail, v) {
      RunPick(Send(from, reply), rest, v);
    }
    forall j, o ensures Pick(tail, YesTo(j, o)) == [] { PickYes(tail, j, o); }
    forall o | ForOwner(reply.req, o) ensures o == me && MyIndex(Target(reply.req), me) == Target(reply.req) % TABLE_SIZE {
      SlotIsMine(reply.req, me, o);
    }
    RunAway(me, up, from, reply, rest);
  }

  lemma RunAway(me: int, up: set<int>, from: int, reply: Msg, rest: seq<Out>)
    requires reply.Tell? && reply.yes && !reply.req.Create? && MyIndex(Target(reply.req), me) != -1
    requires RunsThen(me, up, rest, MyIndex(Target(reply.req), me), reply.client, reply.req)
    ensures RoutesAway(me, up, [Send(from, reply)] + rest)
  {
    hide Pick, CMod, MyIndex;
    var all := [Send(from, reply)] + rest;
    forall o | o in up && o != me ensures Pick(all, IssuedFor(o)) == Pick(all, AskedTo(o)) && Pick(all, RanFor(o)) == [] {
      RunPick(Send(from, reply), rest, IssuedFor(o));
      RunPick(Send(from, reply), rest, AskedTo(o));
      RunPick(Send(from, reply), rest, RanFor(o));
      if ForOwner(reply.req, o) { SlotIsMine(reply.req, me, o); }
    }
  }

  lemma OnAskActs(s: Server, up: set<int>, from: int, m: Msg)
    requires m.Ask? && UpOk(up, s.me)
    ensures Acted(s.me, up, OnAsk(s, up, from, m).out, from, Wanted(m, s.me))
  {
    hide Acted, Do, DoCreate, Routes, MyIndex, Orphan, ForOwner;
    var yes := Tell(m.requestID, m.client, m.req, true);
    var no := Tell(m.requestID, m.client, m.req, false);
    AnswersRoute(s.me, up, []);
    assert [Send(from, yes)] + [] == [Send(from, yes)] && [Send(from, no)] + [] == [Send(from, no)];
    ReplyActs(s.me, up, from, no, []);
    if m.req.Create? {
      CreateOrphan(up, m.req);
      CreateNotWanted(m, s.me);
      ReplyActs(s.me, up, from, yes, []);
      DoCreateFrame(s, m.client, m.req);
      AnswersRoute(s.me, up, DoCreate(s, m.client, m.req).out);
      ReplyActs(s.me, up, from, yes, DoCreate(s, m.client, m.req).out);
    } else {
      var i := MyIndex(Target(m.req), s.me);
      if i != -1 {
        DoRoutes(s, up, i, m.client, m.req);
        RunActs(s.me, up, from, yes, Do(s, up, i, m.client, m.req).out);
      } else {
        MineHasSlot(m.req, s.me);
        NotMineNotWanted(m, s.me);
      }
    }
  }

  lemma CreateNotWanted(m: Msg, me: int)
    requires m.req.Create?
    ensures Wanted(m, me) == []
  {
  }

  lemma NotMineNotWanted(m: Msg, me: int)
    requires !m.req.Create? && MyIndex(Target(m.req), me) == -1
    ensures Wanted(m, me) == []
  {
    MineHasSlot(m.req, me);
  }

  // ---- reading a reply ----

  lemma OnAllNoActs(s: Server, up: set<int>, k: int, req: Request)
    requires 0 <= k < |s.pending| && SameTarget(s.pending[k].req, req) && Orphan(up, req) && UpOk(up, s.me)
    ensures Routes(s.me, up, OnAllNo(s, up, k, req).out)
  {
    hide Routes, Do, DoCreate, AnswerNamed, Orphan, OpCode;
    var p := s.pending[k];
    if req.Create? {
      DoCreateFrame(s, p.client, p.req);
      AnswerNamedFrame(DoCreate(s, p.client, p.req).s.(pending := RemoveAt(s.pending, k)), req.kind, req.name);
      AnswersRoute(s.me, up, OnAllNo(s, up, k, req).out);
    } else {
      var out := Do(s, up, Target(req), p.client, req).out;
      DoRoutes(s, up, Target(req), p.client, req);
      OrphanRoutes(s.me, up, p.client, req, Target(req));
      RoutesAppend(s.me, up, [out[0]], out[1..]);
      assert [out[0]] + out[1..] == out;
    }
  }

  lemma OnTellActs(s: Server, up: set<int>, chan: Channels, from: int)
    requires Books(s.pending, s.nextID, chan, s.me) && AwaitsOwner(s.pending, up, chan, s.me) && OwnersSayYes(up, chan)
    requires Chan(chan, from, s.me) != [] && Chan(chan, from, s.me)[0].Tell?
    requires from in up && from != s.me && UpOk(up, s.me)
    ensures Routes(s.me, up, OnTell(s, up, Chan(chan, from, s.me)[0]).out)
  {
    hide Routes, OnAllNo, DropNamed, FindPending, Books, AwaitsOwner, OwnersSayYes, Orphan, OpCode;
    var m := Chan(chan, from, s.me)[0];
    AnswersRoute(s.me, up, []);
    var k := FindPending(s.pending, m, 0);
    if k != -1 && !m.yes {
      NeverAllNo(s, up, chan, from);
      if Orphan(up, m.req) {
        var counted := s.(pending := s.pending[k := s.pending[k].(noCount := s.pending[k].noCount + 1)]);
        OnAllNoActs(counted, up, k, m.req);
      }
    }
  }

  // ---- one step, and every run ----

  ghost predicate Waits(sys: Sys) {
    forall i :: i in sys.up && i in sys.servers ==> AwaitsOwner(sys.servers[i].pending, sys.up, sys.chan, i)
  }

  ghost predicate Ordered(up: set<int>, chan: Channels, trace: seq<(int, Out)>) {
    && (forall j, o :: j in up && o in up && j != o ==> InOrder(chan, trace, j, o))
    && (forall i, o :: i in up && o in up ==> RunsAtOwner(trace, i, o))
  }

  ghost predicate RoutingOk(sys: Sys) {
    AllBooks(sys) && OwnersSayYes(sys.up, sys.chan) && Waits(sys) && Ordered(sys.up, sys.chan, sys.trace)
  }

  lemma OrderedStep(up: set<int>, before: Channels, chan: Channels, trace: seq<(int, Out)>, me: int, out: seq<Out>, from: int, got: seq<Job>)
    requires Ordered(up, before, trace) && Acted(me, up, out, from, got)
    requires forall j, o :: JobsIn(Chan(before, j, o), o) == (if j == from && o == me then got else []) + JobsIn(Chan(chan, j, o), o)
    ensures Ordered(up, Post(chan, me, out), trace + At(me, out))
  {
    hide Acted, InOrder, RunsAtOwner, Post, At, JobsIn;
    forall j, o | j in up && o in up && j != o ensures InOrder(Post(chan, me, out), trace + At(me, out), j, o) {
      InOrderStep(up, before, chan, trace, me, out, from, got, j, o);
    }
    forall i, o | i in up && o in up ensures RunsAtOwner(trace + At(me, out), i, o) {
      RunsStep(up, trace, me, out, from, got, i, o);
    }
  }

  lemma JobsPop(chan: Channels, from: int, me: int, j: int, o: int)
    requires Chan(chan, from, me) != []
    ensures var m := Chan(chan, from, me)[0];
            JobsIn(Chan(chan, j, o), o)
              == (if j == from && o == me then Wanted(m, me) else []) + JobsIn(Chan(chan[(from, me) := Chan(chan, from, me)[1..]], j, o), o)
  {
  }

  lemma BetweenSameOther(chan: Channels, me: int, out: seq<Out>, peers: seq<int>, more: seq<Pending>, i: int, o: int, t: Ticket)
    requires Sent(out, peers, more, me - 1, []) && i != me
    ensures Between(Post(chan, me, out), i, o, t) == Between(chan, i, o, t)
  {
    hide Between, Sent, Post;
    BetweenOther(chan, me, out, peers, more, me - 1, [], i, o, t);
  }

  lemma BetweenAsked(chan: Channels, me: int, out: seq<Out>, peers: seq<int>, more: seq<Pending>, from: int, yes: bool, i: int, o: int, t: Ticket)
    requires Chan(chan, from, me) != [] && Chan(chan, from, me)[0].Ask? && from != me && i != me
    requires var m := Chan(chan, from, me)[0];
             Sent(out, peers, more, from, [Tell(m.requestID, m.client, m.req, yes)])
    ensures Between(Post(chan[(from, me) := Chan(chan, from, me)[1..]], me, out), i, o, t) == Between(chan, i, o, t)
  {
    hide Between, Sent, Post;
    var m := Chan(chan, from, me)[0];
    var reply := [Tell(m.requestID, m.client, m.req, yes)];
    BetweenPop(chan, from, me, i, o, t);
    BetweenOther(chan[(from, me) := Chan(chan, from, me)[1..]], me, out, peers, more, from, reply, i, o, t);
    assert reply[1..] == [];
  }

  lemma ClientWaits(sys: Sys, j: int, c: Client, req: Request)
    requires RoutingOk(sys) && Enabled(sys, FromClient(j, c, req))
    ensures Waits(Step(sys, FromClient(j, c, req))) && OwnersSayYes(sys.up, Step(sys, FromClient(j, c, req)).chan)
  {
    hide Books, OnClient, Post, Sent, Peers, Between, OwnersSayYes, Ordered, CMod, Among, Grown, NotOurs, AwaitsOwner;
    var s := sys.servers[j];
    var e := OnClient(s, sys.up, c, req);
    var peers := Peers(sys.up, j, 0);
    var more := ClientSelf(s, sys.up, sys.chan, c, req);
    YesPost(sys.up, sys.chan, j, e.out, peers, more, j - 1, []);
    OldAwaits(s.pending, e.s.pending, sys.up, sys.chan, sys.chan, j);
    AwaitsSelf(s.pending, e.s.pending, more, sys.up, sys.chan, j, e.out, j - 1, []);
    forall i | i in sys.up && i != j ensures AwaitsOwner(sys.servers[i].pending, sys.up, Post(sys.chan, j, e.out), i) {
      forall o, t ensures Between(Post(sys.chan, j, e.out), i, o, t) == Between(sys.chan, i, o, t) {
        BetweenSameOther(sys.chan, j, e.out, peers, more, i, o, t);
      }
      AwaitsOther(sys.servers[i].pending, sys.up, sys.chan, Post(sys.chan, j, e.out), i);
    }
  }

  lemma OldAwaits(ps: seq<Pending>, qs: seq<Pending>, up: set<int>, chan: Channels, after: Channels, me: int)
    requires AwaitsOwner(ps, up, chan, me)
    requires forall k, o :: 0 <= k < |qs| && Among(ps, qs[k]) && o in up && ForOwner(qs[k].req, o) ==>
               Between(after, me, o, TicketOf(qs[k])) >= Between(chan, me, o, TicketOf(qs[k]))
    ensures OldAwait(ps, qs, up, after, me)
  {
    hide Between, Among, AwaitsOwner, CMod;
    forall k, o | 0 <= k < |qs| && Among(ps, qs[k]) && o in up && ForOwner(qs[k].req, o)
      ensures o != me && Between(after, me, o, TicketOf(qs[k])) > 0
    {
      StillAwaits(ps, qs[k], up, chan, after, me, o);
    }
  }

  lemma AskWaits(sys: Sys, from: int, j: int)
    requires RoutingOk(sys) && Enabled(sys, Deliver(from, j)) && Chan(sys.chan, from, j)[0].Ask?
    ensures Waits(Step(sys, Deliver(from, j))) && OwnersSayYes(sys.up, Step(sys, Deliver(from, j)).chan)
  {
    hide Books, OnAsk, Post, Sent, Peers, Between, OwnersSayYes, Ordered, CMod, Among, Grown, NotOurs, AwaitsOwner, SameLoad;
    var s := sys.servers[j];
    var m := Chan(sys.chan, from, j)[0];
    var chan := sys.chan[(from, j) := Chan(sys.chan, from, j)[1..]];
    var e := OnAsk(s, sys.up, from, m);
    var peers := Peers(sys.up, j, 0);
    PopSame(sys.chan, from, j, j);
    BooksSameLoad(s.pending, s.nextID, sys.chan, chan, j);
    var more, yes := AskSelf(s, sys.up, chan, from, m);
    var reply := [Tell(m.requestID, m.client, m.req, yes)];
    YesPop(sys.up, sys.chan, from, j);
    MineHasSlot(m.req, j);
    YesPost(sys.up, chan, j, e.out, peers, more, from, reply);
    forall k, o | 0 <= k < |e.s.pending| && Among(s.pending, e.s.pending[k]) && o in sys.up && ForOwner(e.s.pending[k].req, o)
      ensures Between(chan, j, o, TicketOf(e.s.pending[k])) >= Between(sys.chan, j, o, TicketOf(e.s.pending[k]))
    {
      BetweenPop(sys.chan, from, j, j, o, TicketOf(e.s.pending[k]));
    }
    OldAwaits(s.pending, e.s.pending, sys.up, sys.chan, chan, j);
    AwaitsSelf(s.pending, e.s.pending, more, sys.up, chan, j, e.out, from, reply);
    forall i | i in sys.up && i != j ensures AwaitsOwner(sys.servers[i].pending, sys.up, Post(chan, j, e.out), i) {
      forall o, t ensures Between(Post(chan, j, e.out), i, o, t) == Between(sys.chan, i, o, t) {
        BetweenAsked(sys.chan, j, e.out, peers, more, from, yes, i, o, t);
      }
      AwaitsOther(sys.servers[i].pending, sys.up, sys.chan, Post(chan, j, e.out), i);
    }
  }

  /** A reply from an owner is a YES, and a YES ends what it answers. */
  lemma TellStillAwaits(s: Server, qs: seq<Pending>, up: set<int>, chan: Channels, from: int)
    requires AwaitsOwner(s.pending, up, chan, s.me) && OwnersSayYes(up, chan) && from in up && s.me in up && from != s.me
    requires Chan(chan, from, s.me) != [] && Chan(chan, from, s.me)[0].Tell?
    requires Chan(chan, from, s.me)[0].yes ==> Gone(qs, OnMessage(Chan(chan, from, s.me)[0]))
    ensures OldAwait(s.pending, qs, up, chan[(from, s.me) := Chan(chan, from, s.me)[1..]], s.me)
  {
    hide Between, Among, AwaitsOwner, CMod;
    var m := Chan(chan, from, s.me)[0];
    var after := chan[(from, s.me) := Chan(chan, from, s.me)[1..]];
    assert AllYes(Chan(chan, from, s.me), from);
    forall k, o | 0 <= k < |qs| && Among(s.pending, qs[k]) && o in up && ForOwner(qs[k].req, o)
      ensures Between(after, s.me, o, TicketOf(qs[k])) >= Between(chan, s.me, o, TicketOf(qs[k]))
    {
      BetweenPop(chan, from, s.me, s.me, o, TicketOf(qs[k]));
    }
    OldAwaits(s.pending, qs, up, chan, after, s.me);
  }

  lemma TellWaits(sys: Sys, from: int, j: int)
    requires RoutingOk(sys) && Enabled(sys, Deliver(from, j)) && Chan(sys.chan, from, j)[0].Tell?
    ensures Waits(Step(sys, Deliver(from, j))) && OwnersSayYes(sys.up, Step(sys, Deliver(from, j)).chan)
  {
    hide Books, OnTell, Post, Sent, Peers, Between, OwnersSayYes, Ordered, CMod, Among, Grown, NotOurs, AwaitsOwner, OneLess, Gone;
    var s := sys.servers[j];
    var m := Chan(sys.chan, from, j)[0];
    var chan := sys.chan[(from, j) := Chan(sys.chan, from, j)[1..]];
    var e := OnTell(s, sys.up, m);
    var peers := Peers(sys.up, j, 0);
    PopOne(sys.chan, from, j);
    var more := TellSelf(s, sys.up, sys.chan, chan, m);
    YesPop(sys.up, sys.chan, from, j);
    YesPost(sys.up, chan, j, e.out, peers, more, j - 1, []);
    TellStillAwaits(s, e.s.pending, sys.up, sys.chan, from);
    AwaitsSelf(s.pending, e.s.pending, more, sys.up, chan, j, e.out, j - 1, []);
    forall i | i in sys.up && i != j ensures AwaitsOwner(sys.servers[i].pending, sys.up, Post(chan, j, e.out), i) {
      forall o, t ensures Between(Post(chan, j, e.out), i, o, t) == Between(sys.chan, i, o, t) {
        BetweenSameOther(chan, j, e.out, peers, more, i, o, t);
        BetweenPop(sys.chan, from, j, i, o, t);
      }
      AwaitsOther(sys.servers[i].pending, sys.up, sys.chan, Post(chan, j, e.out), i);
    }
  }

  lemma ClientOrdered(sys: Sys, j: int, c: Client, req: Request)
    requires RoutingOk(sys) && Enabled(sys, FromClient(j, c, req))
    ensures var next := Step(sys, FromClient(j, c, req)); Ordered(sys.up, next.chan, next.trace)
  {
    hide Books, OnClient, Post, Acted, OwnersSayYes, Ordered, AwaitsOwner, At, JobsIn, Routes;
    var out := OnClient(sys.servers[j], sys.up, c, req).out;
    OnClientRoutes(sys.servers[j], sys.up, c, req);
    RoutesActs(j, sys.up, out);
    NoJobs();
    OrderedStep(sys.up, sys.chan, sys.chan, sys.trace, j, out, j, []);
  }

  lemma NoJobs()
    ensures forall q: seq<Job> :: [] + q == q
  {
  }

  lemma AskOrdered(sys: Sys, from: int, j: int)
    requires RoutingOk(sys) && Enabled(sys, Deliver(from, j)) && Chan(sys.chan, from, j)[0].Ask?
    ensures var next := Step(sys, Deliver(from, j)); Ordered(sys.up, next.chan, next.trace)
  {
    hide Books, OnAsk, Post, Acted, OwnersSayYes, Ordered, AwaitsOwner, At, JobsIn, Wanted;
    var m := Chan(sys.chan, from, j)[0];
    var chan := sys.chan[(from, j) := Chan(sys.chan, from, j)[1..]];
    OnAskActs(sys.servers[j], sys.up, from, m);
    forall a, o ensures JobsIn(Chan(sys.chan, a, o), o) == (if a == from && o == j then Wanted(m, j) else []) + JobsIn(Chan(chan, a, o), o) {
      JobsPop(sys.chan, from, j, a, o);
    }
    OrderedStep(sys.up, sys.chan, chan, sys.trace, j, OnAsk(sys.servers[j], sys.up, from, m).out, from, Wanted(m, j));
  }

  lemma TellOrdered(sys: Sys, from: int, j: int)
    requires RoutingOk(sys) && Enabled(sys, Deliver(from, j)) && Chan(sys.chan, from, j)[0].Tell?
    ensures var next := Step(sys, Deliver(from, j)); Ordered(sys.up, next.chan, next.trace)
  {
    hide Books, OnTell, Post, Acted, OwnersSayYes, Ordered, AwaitsOwner, At, JobsIn, Routes;
    var m := Chan(sys.chan, from, j)[0];
    var chan := sys.chan[(from, j) := Chan(sys.chan, from, j)[1..]];
    var out := OnTell(sys.servers[j], sys.up, m).out;
    OnTellActs(sys.servers[j], sys.up, sys.chan, from);
    RoutesActs(j, sys.up, out);
    NoJobs();
    forall a, o ensures JobsIn(Chan(sys.chan, a, o), o) == JobsIn(Chan(chan, a, o), o) { JobsPop(sys.chan, from, j, a, o); }
    OrderedStep(sys.up, sys.chan, chan, sys.trace, j, out, j, []);
  }

  lemma StepKeepsRouting(sys: Sys, a: Action)
    requires RoutingOk(sys) && Enabled(sys, a)
    ensures RoutingOk(Step(sys, a))
  {
    hide Step, Enabled, AllBooks, Waits, OwnersSayYes, Ordered;
    StepKeepsBooks(sys, a);
    StepUp(sys, a);
    match a
    case FromClient(j, c, req) =>
      ClientWaits(sys, j, c, req);
      ClientOrdered(sys, j, c, req);
    case Deliver(from, j) =>
      DeliverMessage(sys, from, j);
      if Chan(sys.chan, from, j)[0].Ask? {
        AskWaits(sys, from, j);
        AskOrdered(sys, from, j);
      } else {
        TellWaits(sys, from, j);
        TellOrdered(sys, from, j);
      }
  }

  lemma {:induction false} RunKeepsRouting(sys: Sys, acts: seq<Action>)
    requires RoutingOk(sys) && Run(sys, acts)
    ensures RoutingOk(After(sys, acts)) && After(sys, acts).up == sys.up
    decreases |acts|
  {
    hide RoutingOk, Step, Enabled;
    if acts != [] {
      StepKeepsRouting(sys, acts[0]);
      StepUp(sys, acts[0]);
      RunKeepsRouting(Step(sys, acts[0]), acts[1..]);
    }
  }

  lemma InitialRouting(sys: Sys)
    requires Initial(sys)
    ensures RoutingOk(sys)
  {
    hide AllBooks;
    InitialBooks(sys);
    assert forall i :: i in sys.up ==> sys.servers[i].pending == [];
    assert forall i, o :: AllYes(Chan(sys.chan, o, i), o);
  }

  /** Routing, for any number of servers and any requests, in every run. Of the requests that carry
      an identifier of machine o, which is up, those that another server j took on (from clients, or
      for the waiters it woke) are, in order, those o has said YES to and those still travelling to
      o; and o ran on their own slot, in order, what it said YES to or took on itself. */
  lemma ExecutedByOwnerInOrder(sys: Sys, acts: seq<Action>, j: int, o: int)
    requires Initial(sys) && Run(sys, acts) && j in sys.up && o in sys.up && j != o
    ensures var end := After(sys, acts);
            && PickAt(end.trace, j, IssuedFor(o)) == PickAt(end.trace, o, YesTo(j, o)) + JobsIn(Chan(end.chan, j, o), o)
            && PickAt(end.trace, o, RanFor(o)) == PickAt(end.trace, o, ServedFor(o))
            && PickAt(end.trace, j, RanFor(o)) == []
  {
    hide Initial, Step, Enabled, AllBooks, Waits, OwnersSayYes;
    InitialRouting(sys);
    RunKeepsRouting(sys, acts);
    assert InOrder(After(sys, acts).chan, After(sys, acts).trace, j, o);
    assert RunsAtOwner(After(sys, acts).trace, o, o) && RunsAtOwner(After(sys, acts).trace, j, o);
  }

  /** While the owner is up, no server ever receives the last NO for such a request. */
  lemma OwnerUpNeverAllNo(sys: Sys, acts: seq<Action>, from: int, j: int, o: int)
    requires Initial(sys) && Run(sys, acts) && Enabled(After(sys, acts), Deliver(from, j)) && o in sys.up
    requires var m := Chan(After(sys, acts).chan, from, j)[0]; m.Tell? && !m.yes && ForOwner(m.req, o)
    ensures var end := After(sys, acts);
            var ps := end.servers[j].pending;
            var k := FindPending(ps, Chan(end.chan, from, j)[0], 0);
            k != -1 ==> ps[k].noCount + 1 != ps[k].sentCount
  {
    hide Initial, Step, Books, AwaitsOwner, OwnersSayYes, FindPending, Ordered;
    InitialRouting(sys);
    RunKeepsRouting(sys, acts);
    NeverAllNo(After(sys, acts).servers[j], sys.up, After(sys, acts).chan, from);
  }

  /** When every server that was asked has said NO, the request runs here after all, on the slot whose number is
      the identifier itself. */
  lemma LastNoRunsHere(s: Server, up: set<int>, m: Msg)
    requires m.Tell? && !m.yes && !m.req.Create?
    ensures var i := FindPending(s.pending, m, 0);
            i != -1 ==>
              var e := OnTell(s, up, m);
              if s.pending[i].noCount + 1 == s.pending[i].sentCount then e.out != [] && e.out[0] == Ran(Target(m.req), m.client, m.req)
              else e.out == [] && e.s.pending == s.pending[i := s.pending[i].(noCount := s.pending[i].noCount + 1)]
  {
    hide DoAcquire, DoRelease, DoDestroyLock, DoWait, DoSignal, DoBroadcast, DoSet, DoGet, DoDestroyCV, DoDestroyMV, OpCode;
  }
}
