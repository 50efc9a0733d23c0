/** In every run of any number of servers the books stay balanced. */
module Outstanding {
  import opened Wire
  import opened Protocol
  import opened Network
  import opened Sends
  import opened Emissions
  import opened Counting

  ghost predicate AllBooks(sys: Sys) {
    && WellFormed(sys)
    && forall i :: i in sys.up ==> Books(sys.servers[i].pending, sys.servers[i].nextID, sys.chan, i)
  }

  lemma SentPlain(out: seq<Out>, peers: seq<int>, more: seq<Pending>, from: int)
    requires AskedOf(out, peers, more)
    ensures Sent(out, peers, more, from, [])
  {
    hide SentTo, AsksFor;
    forall d ensures SentTo(out, d) == (if d == from then [] else []) + (if d in peers then AsksFor(more) else []) {
      var asks := if d in peers then AsksFor(more) else [];
      assert [] + asks == asks;
    }
  }

  lemma SentReply(out: seq<Out>, peers: seq<int>, more: seq<Pending>, from: int, m: Msg)
    requires AskedOf(out, peers, more) && m.Tell?
    ensures Sent([Send(from, m)] + out, peers, more, from, [m])
  {
    hide AsksFor;
    var all := [Send(from, m)] + out;
    assert all[1..] == out;
    forall d ensures SentTo(all, d) == (if d == from then [m] else []) + (if d in peers then AsksFor(more) else []) {
      assert SentTo(all, d) == (if d == from then [m] else []) + SentTo(out, d);
    }
  }

  /** What the operations do to the actor's own messages in flight. */
  lemma AddedBySelf(chan: Channels, up: set<int>, me: int, out: seq<Out>, more: seq<Pending>, from: int, reply: seq<Msg>)
    requires Sent(out, Peers(up, me, 0), more, from, reply) && me != from
    ensures AddedLoad(chan, Post(chan, me, out), me, |Peers(up, me, 0)|, more)
  {
    hide Sent, Post, InFlight, AskCount, Peers, AsksFor;
    forall t ensures InFlight(Post(chan, me, out), me, t) == InFlight(chan, me, t) + |Peers(up, me, 0)| * AskCount(AsksFor(more), t) {
      InFlightSelf(chan, up, me, out, more, from, reply, t);
    }
  }

  /** A parked create: nothing is sent for it, so nothing is in flight. */
  lemma SameBySelf(chan: Channels, up: set<int>, me: int, out: seq<Out>, from: int, reply: seq<Msg>)
    requires Sent(out, Peers(up, me, 0), [], from, reply) && me != from
    ensures SameLoad(chan, Post(chan, me, out), me)
  {
    hide Sent, Post, InFlight, Peers, AskCount;
    AddedBySelf(chan, up, me, out, [], from, reply);
    forall t ensures InFlight(Post(chan, me, out), me, t) == InFlight(chan, me, t) { NoAsks(t); }
  }

  lemma NoAsks(t: Ticket)
    ensures AskCount(AsksFor([]), t) == 0
  {
  }

  /** A server that reads a reply after which it sends nothing of its own. */
  lemma EmitsSelf(s: Server, up: set<int>, chan: Channels, e: Eff, more: seq<Pending>)
    requires Books(s.pending, s.nextID, chan, s.me) && Emits(s, up, e, more)
    ensures Books(e.s.pending, e.s.nextID, Post(chan, s.me, e.out), s.me)
    ensures Sent(e.out, Peers(up, s.me, 0), more, s.me - 1, [])
    ensures Grown(s.pending, e.s.pending, more) && NotOurs(more, s.me)
  {
    hide Books, Post, Peers, AddedLoad, AskedOf, Numbered, JustSent, NotOurs, Grown;
    GrownBy(s.pending, more);
    SentPlain(e.out, Peers(up, s.me, 0), more, s.me - 1);
    AddedBySelf(chan, up, s.me, e.out, more, s.me - 1, []);
    BooksPush(s, chan, s.me, up, e, more, Post(chan, s.me, e.out));
  }

  lemma ClientSelf(s: Server, up: set<int>, chan: Channels, c: Client, req: Request) returns (more: seq<Pending>)
    requires Books(s.pending, s.nextID, chan, s.me)
    ensures var e := OnClient(s, up, c, req);
            && Books(e.s.pending, e.s.nextID, Post(chan, s.me, e.out), s.me)
            && Sent(e.out, Peers(up, s.me, 0), more, s.me - 1, [])
            && Grown(s.pending, e.s.pending, more) && NotOurs(more, s.me)
  {
    hide Books, Post, Peers, OnClient, Emits, Sent, Grown, NotOurs;
    more := OnClientEmits(s, up, c, req);
    EmitsSelf(s, up, chan, OnClient(s, up, c, req), more);
  }

  ghost predicate AskEffect(s: Server, up: set<int>, chan: Channels, from: int, m: Msg, e: Eff, more: seq<Pending>, yes: bool) {
    && Books(e.s.pending, e.s.nextID, Post(chan, s.me, e.out), s.me)
    && Sent(e.out, Peers(up, s.me, 0), more, from, [Tell(m.requestID, m.client, m.req, yes)])
    && Grown(s.pending, e.s.pending, more) && NotOurs(more, s.me)
  }

  lemma ReplyThenEmits(s: Server, up: set<int>, chan: Channels, from: int, m: Msg, f: Eff, more: seq<Pending>, yes: bool)
    requires m.Ask? && from != s.me && Books(s.pending, s.nextID, chan, s.me) && Emits(s, up, f, more)
    ensures AskEffect(s, up, chan, from, m, Eff(f.s, [Send(from, Tell(m.requestID, m.client, m.req, yes))] + f.out), more, yes)
  {
    hide Books, Post, Peers, AddedLoad, Numbered, JustSent, AskedOf, Sent, Grown, NotOurs;
    GrownBy(s.pending, more);
    var reply := Tell(m.requestID, m.client, m.req, yes);
    var out := [Send(from, reply)] + f.out;
    SentReply(f.out, Peers(up, s.me, 0), more, from, reply);
    AddedBySelf(chan, up, s.me, out, more, from, [reply]);
    BooksPush(s, chan, s.me, up, f, more, Post(chan, s.me, out));
  }

  lemma NothingAsked(peers: seq<int>)
    ensures AskedOf([], peers, [])
  {
  }

  lemma ParkSelf(s: Server, up: set<int>, chan: Channels, from: int, m: Msg)
    requires m.Ask? && from != s.me && Books(s.pending, s.nextID, chan, s.me)
    requires m.req.Create? && FindPendingNamed(s.pending, m.req.kind, m.req.name, 0) != -1
    ensures AskEffect(s, up, chan, from, m,
              Eff(s.(pending := s.pending + [Pending(m.client, m.req, -1, 0, s.nextID)], nextID := s.nextID + 1),
                  [Send(from, Tell(m.requestID, m.client, m.req, true))]), [], true)
  {
    hide Books, Post, Peers, Sent, SameLoad, Grown;
    GrownPark(s.pending, Pending(m.client, m.req, -1, 0, s.nextID));
    var reply := Tell(m.requestID, m.client, m.req, true);
    NothingAsked(Peers(up, s.me, 0));
    SentReply([], Peers(up, s.me, 0), [], from, reply);
    assert [Send(from, reply)] + [] == [Send(from, reply)];
    SameBySelf(chan, up, s.me, [Send(from, reply)], from, [reply]);
    BooksPark(s, chan, s.me, m.client, m.req);
    BooksSameLoad(s.pending + [Pending(m.client, m.req, -1, 0, s.nextID)], s.nextID + 1, chan, Post(chan, s.me, [Send(from, reply)]), s.me);
  }

  lemma AskSelf(s: Server, up: set<int>, chan: Channels, from: int, m: Msg) returns (more: seq<Pending>, yes: bool)
    requires m.Ask? && from != s.me && Books(s.pending, s.nextID, chan, s.me)
    ensures AskEffect(s, up, chan, from, m, OnAsk(s, up, from, m), more, yes)
    ensures !m.req.Create? ==> yes == (MyIndex(Target(m.req), s.me) != -1)
  {
    hide Books, Do, DoCreate, AskEffect, Emits, FindPendingNamed;
    more, yes := [], true;
    if m.req.Create? && !OwnsKey(s, m.req.kind, m.req.name) && s.me < from && FindPendingNamed(s.pending, m.req.kind, m.req.name, 0) != -1 {
      ParkSelf(s, up, chan, from, m);
      return;
    }
    var f := Eff(s, []);
    if m.req.Create? {
      if OwnsKey(s, m.req.kind, m.req.name) {
        f := DoCreate(s, m.client, m.req);
        DoCreateFrame(s, m.client, m.req);
      } else {
        yes := false;
      }
      EmitsNothing(s, up, f);
    } else {
      var i := MyIndex(Target(m.req), s.me);
      if i != -1 {
        f := Do(s, up, i, m.client, m.req);
        more := DoEmits(s, up, i, m.client, m.req);
      } else {
        yes := false;
        EmitsNothing(s, up, f);
      }
    }
    ReplyThenEmits(s, up, chan, from, m, f, more, yes);
    assert [Send(from, Tell(m.requestID, m.client, m.req, yes))] + [] == [Send(from, Tell(m.requestID, m.client, m.req, yes))];
  }

  /** An effect without messages. */
  ghost predicate Silent(out: seq<Out>) {
    forall k :: 0 <= k < |out| ==> !out[k].Send?
  }

  lemma SilentSelf(up: set<int>, chan: Channels, me: int, out: seq<Out>)
    requires Silent(out)
    ensures Sent(out, Peers(up, me, 0), [], me - 1, []) && SameLoad(chan, Post(chan, me, out), me)
  {
    hide Peers, Post, SameLoad;
    forall d ensures SentTo(out, d) == [] { NoSends(out, d); }
    SameBySelf(chan, up, me, out, me - 1, []);
  }

  ghost predicate TellEffect(s: Server, up: set<int>, chan: Channels, e: Eff, more: seq<Pending>) {
    && Books(e.s.pending, e.s.nextID, Post(chan, s.me, e.out), s.me)
    && Sent(e.out, Peers(up, s.me, 0), more, s.me - 1, [])
    && Grown(s.pending, e.s.pending, more) && NotOurs(more, s.me)
  }

  lemma SilentTell(s: Server, up: set<int>, chan: Channels, e: Eff)
    requires Silent(e.out) && Grown(s.pending, e.s.pending, []) && Books(e.s.pending, e.s.nextID, chan, s.me)
    ensures TellEffect(s, up, chan, e, [])
  {
    hide Books, Post, Sent, SameLoad, Peers, Grown;
    SilentSelf(up, chan, s.me, e.out);
    BooksSameLoad(e.s.pending, e.s.nextID, chan, Post(chan, s.me, e.out), s.me);
  }

  /** The pending request a reply belongs to carries exactly the reply's ticket. */
  lemma MatchedTicket(ps: seq<Pending>, next: int, chan: Channels, i: int, m: Msg)
    requires Books(ps, next, chan, i) && InFlight(chan, i, OnMessage(m)) > 0
    ensures var k := FindPending(ps, m, 0);
            if k == -1 then forall j :: 0 <= j < |ps| ==> TicketOf(ps[j]) != OnMessage(m)
            else TicketOf(ps[k]) == OnMessage(m) && ps[k].sentCount != -1
  {
    hide InFlight, AllVouched, Numbered;
    var k := FindPending(ps, m, 0);
    if k == -1 {
      forall j | 0 <= j < |ps| ensures TicketOf(ps[j]) != OnMessage(m) { assert !Matches(ps[j], m); }
    }
  }

  /** Once finished, the request's number is no longer pending. */
  lemma FinishedGone(ps: seq<Pending>, next: int, k: int, req: Request)
    requires Numbered(ps, 0, next) && 0 <= k < |ps|
    ensures forall j :: 0 <= j < |Finished(ps, k, req)| ==> TicketOf(Finished(ps, k, req)[j]) != TicketOf(ps[k])
  {
    hide DropNamed;
    var rest := RemoveAt(ps, k);
    forall j | 0 <= j < |rest| ensures TicketOf(rest[j]) != TicketOf(ps[k]) {
      DistinctTickets(ps, next, if j < k then j else j + 1, k);
    }
    if req.Create? { DropNamedWithin(rest, req.kind, req.name, TicketOf(ps[k])); }
  }

  lemma {:induction false} DropNamedWithin(ps: seq<Pending>, kind: Kind, name: string, t: Ticket)
    requires forall j :: 0 <= j < |ps| ==> TicketOf(ps[j]) != t
    ensures forall j :: 0 <= j < |DropNamed(ps, kind, name)| ==> TicketOf(DropNamed(ps, kind, name)[j]) != t
    decreases |ps|
  {
    var k := FindPendingNamed(ps, kind, name, 0);
    if k != -1 { DropNamedWithin(RemoveAt(ps, k), kind, name, t); }
  }

  ghost predicate AllAmong(base: seq<Pending>, ps: seq<Pending>) {
    forall j :: 0 <= j < |ps| ==> Among(base, ps[j])
  }

  lemma {:induction false} DropAmong(base: seq<Pending>, ps: seq<Pending>, kind: Kind, name: string)
    requires AllAmong(base, ps)
    ensures AllAmong(base, DropNamed(ps, kind, name))
    decreases |ps|
  {
    hide Among;
    var k := FindPendingNamed(ps, kind, name, 0);
    if k != -1 { DropAmong(base, RemoveAt(ps, k), kind, name); }
  }

  lemma FinishedAmong(base: seq<Pending>, ps: seq<Pending>, k: int, req: Request)
    requires 0 <= k < |ps| && AllAmong(base, ps)
    ensures AllAmong(base, Finished(ps, k, req)) && Grown(base, Finished(ps, k, req), [])
  {
    hide Among, DropNamed;
    if req.Create? { DropAmong(base, RemoveAt(ps, k), req.kind, req.name); }
  }

  lemma SelfAmong(ps: seq<Pending>)
    ensures AllAmong(ps, ps)
  {
    assert forall j :: 0 <= j < |ps| ==> TicketOf(ps[j]) == TicketOf(ps[j]);
  }

  lemma CountedAmong(ps: seq<Pending>, k: int)
    requires 0 <= k < |ps|
    ensures var qs := ps[k := ps[k].(noCount := ps[k].noCount + 1)];
            AllAmong(ps, qs) && AllAmong(qs, ps) && Grown(ps, qs, [])
  {
    var qs := ps[k := ps[k].(noCount := ps[k].noCount + 1)];
    assert forall j :: 0 <= j < |ps| ==> TicketOf(ps[j]) == TicketOf(qs[j]);
  }

  lemma GrownFrom(ps: seq<Pending>, qs: seq<Pending>, rs: seq<Pending>, more: seq<Pending>)
    requires AllAmong(ps, qs) && Grown(qs, rs, more)
    ensures Grown(ps, rs, more)
  {
    forall k | 0 <= k < |rs| && !rs[k].req.Create? ensures Among(ps, rs[k]) || Among(more, rs[k]) {
      if !Among(more, rs[k]) {
        var j :| 0 <= j < |qs| && TicketOf(qs[j]) == TicketOf(rs[k]);
        assert Among(ps, qs[j]);
      }
    }
  }

  lemma FinishKeeps(ps: seq<Pending>, next: int, chan: Channels, after: Channels, i: int, k: int, req: Request)
    requires Books(ps, next, chan, i) && 0 <= k < |ps| && OneLess(chan, after, i, TicketOf(ps[k])) && ps[k].req == req
    ensures Books(Finished(ps, k, req), next, after, i)
  {
    hide Finished, OneLess, AllVouched, InFlight, OpCode;
    BooksFinish(ps, next, chan, i, k, req);
    FinishedGone(ps, next, k, req);
    BooksStray(Finished(ps, k, req), next, chan, after, i, TicketOf(ps[k]));
  }

  /** The last NO: the request is finished here, and an operation by identifier may forward more. */
  lemma AllNoSelf(s: Server, up: set<int>, chan: Channels, k: int, req: Request) returns (more: seq<Pending>)
    requires 0 <= k < |s.pending| && s.pending[k].req == req
    requires Books(Finished(s.pending, k, req), s.nextID, chan, s.me)
    ensures TellEffect(s, up, chan, OnAllNo(s, up, k, req), more)
  {
    hide Books, Do, DoCreate, AnswerNamed, DropNamed, OpCode, TellEffect;
    var p := s.pending[k];
    if req.Create? {
      DoCreateFrame(s, p.client, p.req);
      var d := DoCreate(s, p.client, p.req);
      SelfAmong(s.pending);
      FinishedAmong(s.pending, s.pending, k, req);
      var f := AnswerNamed(d.s.(pending := RemoveAt(s.pending, k)), req.kind, req.name);
      AnswerNamedFrame(d.s.(pending := RemoveAt(s.pending, k)), req.kind, req.name);
      more := [];
      SilentTell(s, up, chan, Eff(f.s, d.out + f.out));
    } else {
      more := AllNoById(s, up, chan, k, req);
    }
  }

  lemma AllNoById(s: Server, up: set<int>, chan: Channels, k: int, req: Request) returns (more: seq<Pending>)
    requires 0 <= k < |s.pending| && s.pending[k].req == req && !req.Create?
    requires Books(RemoveAt(s.pending, k), s.nextID, chan, s.me)
    ensures TellEffect(s, up, chan, OnAllNo(s, up, k, req), more)
  {
    hide Books, Do, OpCode, AskedOf, Numbered, JustSent, Peers, Post, Sent, NotOurs, Grown;
    SelfAmong(s.pending);
    FinishedAmong(s.pending, s.pending, k, req);
    var p := s.pending[k];
    var e := Do(s, up, Target(req), p.client, req);
    more := DoEmits(s, up, Target(req), p.client, req);
    var lean := s.(pending := RemoveAt(s.pending, k));
    var f := Eff(e.s.(pending := RemoveAt(e.s.pending, k)), e.out);
    assert RemoveAt(s.pending + more, k) == RemoveAt(s.pending, k) + more;
    EmitsSelf(lean, up, chan, f, more);
    GrownFrom(s.pending, lean.pending, f.s.pending, more);
  }

  /** Counting a NO changes no ticket, so finishing after it is finishing before it. */
  lemma CountedFinish(ps: seq<Pending>, k: int, req: Request)
    requires 0 <= k < |ps|
    ensures Finished(ps[k := ps[k].(noCount := ps[k].noCount + 1)], k, req) == Finished(ps, k, req)
  {
    hide DropNamed;
    assert RemoveAt(ps[k := ps[k].(noCount := ps[k].noCount + 1)], k) == RemoveAt(ps, k);
  }

  lemma TellSelf(s: Server, up: set<int>, before: Channels, chan: Channels, m: Msg) returns (more: seq<Pending>)
    requires m.Tell? && Books(s.pending, s.nextID, before, s.me) && OneLess(before, chan, s.me, OnMessage(m))
    ensures TellEffect(s, up, chan, OnTell(s, up, m), more)
    ensures m.yes ==> Gone(OnTell(s, up, m).s.pending, OnMessage(m))
  {
    hide Books, OnAllNo, TellEffect, OneLess, InFlight, Finished, FindPending, OpCode;
    more := [];
    var k := FindPending(s.pending, m, 0);
    assert InFlight(before, s.me, OnMessage(m)) > 0 by { OneLessPositive(before, chan, s.me, OnMessage(m)); }
    MatchedTicket(s.pending, s.nextID, before, s.me, m);
    if k == -1 {
      BooksStray(s.pending, s.nextID, before, chan, s.me, OnMessage(m));
      assert s.pending + [] == s.pending;
      GrownBy(s.pending, []);
      SilentTell(s, up, chan, Eff(s, []));
    } else {
      more := TellMatched(s, up, before, chan, m, k);
    }
  }

  lemma OneLessPositive(chan: Channels, after: Channels, i: int, t: Ticket)
    requires OneLess(chan, after, i, t)
    ensures InFlight(chan, i, t) > 0
  {
  }

  lemma TellMatched(s: Server, up: set<int>, before: Channels, chan: Channels, m: Msg, k: int) returns (more: seq<Pending>)
    requires m.Tell? && Books(s.pending, s.nextID, before, s.me) && OneLess(before, chan, s.me, OnMessage(m))
    requires k == FindPending(s.pending, m, 0) != -1 && TicketOf(s.pending[k]) == OnMessage(m)
    ensures TellEffect(s, up, chan, OnTell(s, up, m), more)
    ensures m.yes ==> Gone(OnTell(s, up, m).s.pending, OnMessage(m))
  {
    hide Books, OnAllNo, TellEffect, OneLess, FindPending, OpCode, DropNamed, Grown, AllAmong;
    SelfAmong(s.pending);
    more := [];
    var p := s.pending[k];
    if m.yes {
      FinishKeeps(s.pending, s.nextID, before, chan, s.me, k, m.req);
      FinishedAmong(s.pending, s.pending, k, m.req);
      BooksNumbered(s.pending, s.nextID, before, s.me);
      FinishedGone(s.pending, s.nextID, k, m.req);
      SilentTell(s, up, chan, OnYes(s, k, m.req));
    } else {
      var counted := s.(pending := s.pending[k := p.(noCount := p.noCount + 1)]);
      CountedAmong(s.pending, k);
      if p.noCount + 1 == p.sentCount {
        FinishKeeps(s.pending, s.nextID, before, chan, s.me, k, m.req);
        CountedFinish(s.pending, k, m.req);
        more := AllNoSelf(counted, up, chan, k, m.req);
        TellEffectFrom(counted, s, up, chan, OnAllNo(counted, up, k, m.req), more);
      } else {
        BooksCount(s.pending, s.nextID, before, chan, s.me, k);
        SilentTell(s, up, chan, Eff(counted, []));
      }
    }
  }

  lemma BooksNumbered(ps: seq<Pending>, next: int, chan: Channels, i: int)
    requires Books(ps, next, chan, i)
    ensures Numbered(ps, 0, next)
  {
  }

  lemma TellEffectFrom(s: Server, t: Server, up: set<int>, chan: Channels, e: Eff, more: seq<Pending>)
    requires TellEffect(s, up, chan, e, more) && s.me == t.me && AllAmong(t.pending, s.pending)
    ensures TellEffect(t, up, chan, e, more)
  {
    hide Grown, AllAmong, Books, Sent, Post;
    GrownFrom(t.pending, s.pending, e.s.pending, more);
  }

  // ---- one step, and every run ----

  /** The other servers: what the actor reads and replies keeps their messages in flight. */
  lemma OthersKeep(ps: seq<Pending>, next: int, chan: Channels, me: int, out: seq<Out>, peers: seq<int>, more: seq<Pending>, i: int)
    requires Books(ps, next, chan, i) && Sent(out, peers, more, me - 1, []) && i != me && 0 <= me < SERVERS
    ensures Books(ps, next, Post(chan, me, out), i)
  {
    hide Books, Sent, InFlight, Post;
    forall t ensures InFlight(Post(chan, me, out), i, t) == InFlight(chan, i, t) {
      InFlightOther(chan, me, out, peers, more, me - 1, [], i, t);
    }
    BooksSameLoad(ps, next, chan, Post(chan, me, out), i);
  }

  lemma PopSame(chan: Channels, from: int, me: int, i: int)
    requires Chan(chan, from, me) != [] && from != me && 0 <= from < SERVERS && 0 <= me < SERVERS
    requires i != if Chan(chan, from, me)[0].Ask? then from else me
    ensures SameLoad(chan, chan[(from, me) := Chan(chan, from, me)[1..]], i)
  {
    hide InFlight;
    forall t ensures InFlight(chan[(from, me) := Chan(chan, from, me)[1..]], i, t) == InFlight(chan, i, t) {
      InFlightPop(chan, from, me, i, t);
    }
  }

  lemma PopOne(chan: Channels, from: int, me: int)
    requires Chan(chan, from, me) != [] && from != me && 0 <= from < SERVERS && 0 <= me < SERVERS
    ensures var m := Chan(chan, from, me)[0];
            OneLess(chan, chan[(from, me) := Chan(chan, from, me)[1..]], if m.Ask? then from else me, OnMessage(m))
  {
    hide InFlight;
    var m := Chan(chan, from, me)[0];
    var i := if m.Ask? then from else me;
    forall t ensures InFlight(chan[(from, me) := Chan(chan, from, me)[1..]], i, t)
                  == InFlight(chan, i, t) - if t == OnMessage(m) then 1 else 0 {
      InFlightPop(chan, from, me, i, t);
    }
  }

  /** A request that is read leaves flight and its reply enters: nothing changes for its sender. */
  lemma AskerKeeps(ps: seq<Pending>, next: int, before: Channels, chan: Channels, me: int, out: seq<Out>, peers: seq<int>,
                   more: seq<Pending>, from: int, m: Msg, yes: bool)
    requires Books(ps, next, before, from) && OneLess(before, chan, from, OnMessage(m))
    requires Sent(out, peers, more, from, [Tell(m.requestID, m.client, m.req, yes)]) && from != me && 0 <= me < SERVERS
    ensures Books(ps, next, Post(chan, me, out), from)
  {
    hide Books, Sent, InFlight, Post;
    var reply := [Tell(m.requestID, m.client, m.req, yes)];
    forall t ensures InFlight(Post(chan, me, out), from, t) == InFlight(before, from, t) {
      InFlightOther(chan, me, out, peers, more, from, reply, from, t);
      assert reply[1..] == [];
    }
    BooksSameLoad(ps, next, before, Post(chan, me, out), from);
  }

  lemma BystanderKeeps(ps: seq<Pending>, next: int, before: Channels, chan: Channels, me: int, out: seq<Out>, peers: seq<int>,
                       more: seq<Pending>, from: int, reply: seq<Msg>, i: int)
    requires Books(ps, next, before, i) && SameLoad(before, chan, i)
    requires Sent(out, peers, more, from, reply) && i != me && i != from && 0 <= me < SERVERS
    ensures Books(ps, next, Post(chan, me, out), i)
  {
    hide Books, Sent, InFlight, Post;
    forall t ensures InFlight(Post(chan, me, out), i, t) == InFlight(before, i, t) {
      InFlightOther(chan, me, out, peers, more, from, reply, i, t);
    }
    BooksSameLoad(ps, next, before, Post(chan, me, out), i);
  }

  lemma ClientKeeps(sys: Sys, j: int, c: Client, req: Request, i: int)
    requires AllBooks(sys) && Enabled(sys, FromClient(j, c, req)) && i in sys.up
    ensures var next := Step(sys, FromClient(j, c, req));
            Books(next.servers[i].pending, next.servers[i].nextID, next.chan, i)
  {
    hide Books, OnClient, Post, Sent, Peers;
    var s := sys.servers[j];
    var more := ClientSelf(s, sys.up, sys.chan, c, req);
    if i != j {
      OthersKeep(sys.servers[i].pending, sys.servers[i].nextID, sys.chan, j, OnClient(s, sys.up, c, req).out, Peers(sys.up, j, 0), more, i);
    }
  }

  lemma AskKeeps(sys: Sys, from: int, j: int, i: int)
    requires AllBooks(sys) && Enabled(sys, Deliver(from, j)) && Chan(sys.chan, from, j)[0].Ask? && i in sys.up
    ensures var next := Step(sys, Deliver(from, j));
            Books(next.servers[i].pending, next.servers[i].nextID, next.chan, i)
  {
    hide Books, OnAsk, Post, Sent, Peers, OneLess, SameLoad;
    var s := sys.servers[j];
    var m := Chan(sys.chan, from, j)[0];
    var chan := sys.chan[(from, j) := Chan(sys.chan, from, j)[1..]];
    PopSame(sys.chan, from, j, j);
    BooksSameLoad(s.pending, s.nextID, sys.chan, chan, j);
    var more, yes := AskSelf(s, sys.up, chan, from, m);
    var e := OnAsk(s, sys.up, from, m);
    if i == from {
      PopOne(sys.chan, from, j);
      AskerKeeps(sys.servers[i].pending, sys.servers[i].nextID, sys.chan, chan, j, e.out, Peers(sys.up, j, 0), more, from, m, yes);
    } else if i != j {
      PopSame(sys.chan, from, j, i);
      BystanderKeeps(sys.servers[i].pending, sys.servers[i].nextID, sys.chan, chan, j, e.out, Peers(sys.up, j, 0), more, from,
                     [Tell(m.requestID, m.client, m.req, yes)], i);
    }
  }

  lemma TellKeeps(sys: Sys, from: int, j: int, i: int)
    requires AllBooks(sys) && Enabled(sys, Deliver(from, j)) && Chan(sys.chan, from, j)[0].Tell? && i in sys.up
    ensures var next := Step(sys, Deliver(from, j));
            Books(next.servers[i].pending, next.servers[i].nextID, next.chan, i)
  {
    hide Books, OnTell, Post, Sent, Peers, OneLess, SameLoad;
    var s := sys.servers[j];
    var m := Chan(sys.chan, from, j)[0];
    var chan := sys.chan[(from, j) := Chan(sys.chan, from, j)[1..]];
    PopOne(sys.chan, from, j);
    var more := TellSelf(s, sys.up, sys.chan, chan, m);
    var e := OnTell(s, sys.up, m);
    if i != j {
      PopSame(sys.chan, from, j, i);
      BooksSameLoad(sys.servers[i].pending, sys.servers[i].nextID, sys.chan, chan, i);
      OthersKeep(sys.servers[i].pending, sys.servers[i].nextID, chan, j, e.out, Peers(sys.up, j, 0), more, i);
    }
  }

  lemma StepKeepsBooks(sys: Sys, a: Action)
    requires AllBooks(sys) && Enabled(sys, a)
    ensures AllBooks(Step(sys, a))
  {
    hide Books, Step, Enabled;
    StepWellFormed(sys, a);
    StepUp(sys, a);
    forall i | i in sys.up
      ensures Books(Step(sys, a).servers[i].pending, Step(sys, a).servers[i].nextID, Step(sys, a).chan, i)
    {
      match a
      case FromClient(j, c, req) => ClientKeeps(sys, j, c, req, i);
      case Deliver(from, j) =>
        DeliverMessage(sys, from, j);
        if Chan(sys.chan, from, j)[0].Ask? { AskKeeps(sys, from, j, i); } else { TellKeeps(sys, from, j, i); }
    }
  }

  lemma StepUp(sys: Sys, a: Action)
    requires Enabled(sys, a)
    ensures Step(sys, a).up == sys.up
  {
  }

  lemma DeliverMessage(sys: Sys, from: int, j: int)
    requires Enabled(sys, Deliver(from, j))
    ensures Chan(sys.chan, from, j) != []
  {
  }

  lemma {:induction false} RunKeepsBooks(sys: Sys, acts: seq<Action>)
    requires AllBooks(sys) && Run(sys, acts)
    ensures AllBooks(After(sys, acts)) && After(sys, acts).up == sys.up
    decreases |acts|
  {
    hide AllBooks, Step, Enabled;
    if acts != [] {
      StepKeepsBooks(sys, acts[0]);
      StepUp(sys, acts[0]);
      RunKeepsBooks(Step(sys, acts[0]), acts[1..]);
    }
  }

  lemma InitialBooks(sys: Sys)
    requires Initial(sys)
    ensures AllBooks(sys)
  {
    forall i, t | i in sys.up ensures InFlight(sys.chan, i, t) == 0 {
    }
  }

  /** Outstanding-reply conservation, for any number of servers and any requests. After every run,
      a forwarded request waits for exactly the replies it can still get, at least one of them is
      on its way, and a parked create shares its name with a forwarded one. */
  lemma RepliesConserved(sys: Sys, acts: seq<Action>, i: int, k: int)
    requires Initial(sys) && Run(sys, acts) && i in sys.up
    requires i in After(sys, acts).servers && 0 <= k < |After(sys, acts).servers[i].pending|
    ensures var ps := After(sys, acts).servers[i].pending;
            var p := ps[k];
            var inFlight := InFlight(After(sys, acts).chan, i, Ticket(p.requestID, p.client, p.req));
            if p.sentCount == -1 then
              && inFlight == 0 && p.req.Create?
              && exists l :: 0 <= l < |ps| && ps[l].sentCount != -1 && IsNamed(ps[l], p.req.kind, p.req.name)
            else 0 <= p.noCount < p.sentCount && p.sentCount == p.noCount + inFlight
  {
    hide InFlight, Step, Enabled, Initial;
    InitialBooks(sys);
    RunKeepsBooks(sys, acts);
    var ps := After(sys, acts).servers[i].pending;
    assert ps[k].sentCount == -1 ==> Vouched(ps, ps[k]);
  }

  /** Nothing is forgotten: once no message is travelling, no server holds a pending request. */
  lemma NothingForgotten(sys: Sys, acts: seq<Action>, i: int)
    requires Initial(sys) && Run(sys, acts) && i in sys.up && i in After(sys, acts).servers
    requires forall a, b :: Chan(After(sys, acts).chan, a, b) == []
    ensures After(sys, acts).servers[i].pending == []
  {
    hide Step, Enabled, Initial, InFlight;
    var end := After(sys, acts);
    InitialBooks(sys);
    RunKeepsBooks(sys, acts);
    var ps := end.servers[i].pending;
    forall t ensures InFlight(end.chan, i, t) == 0 { NoMessages(end.chan, i, t); }
    NotAllParked(ps);
  }

  lemma NotAllParked(ps: seq<Pending>)
    ensures ps != [] && (forall k :: 0 <= k < |ps| ==> ps[k].sentCount == -1) ==> !AllVouched(ps)
  {
    if ps != [] && (forall k :: 0 <= k < |ps| ==> ps[k].sentCount == -1) { assert !Vouched(ps, ps[0]); }
  }

  lemma NoMessages(chan: Channels, i: int, t: Ticket)
    requires forall a, b :: Chan(chan, a, b) == []
    ensures InFlight(chan, i, t) == 0
  {
  }
}
