/** The bookkeeping of forwarded requests, for any number of servers: how many replies a pending
    request still waits for is exactly how many of its messages are still travelling. */
module Counting {
  import opened Wire
  import opened Protocol
  import opened Network
  import opened Sends
  import opened Emissions

  function TicketOf(p: Pending): Ticket { Ticket(p.requestID, p.client, p.req) }

  function AskCount(q: seq<Msg>, t: Ticket): nat {
    if q == [] then 0 else (if q[0].Ask? && OnMessage(q[0]) == t then 1 else 0) + AskCount(q[1..], t)
  }

  function TellCount(q: seq<Msg>, t: Ticket): nat {
    if q == [] then 0 else (if q[0].Tell? && OnMessage(q[0]) == t then 1 else 0) + TellCount(q[1..], t)
  }

  /** Requests from i to j and replies from j to i that carry the ticket. */
  function Between(chan: Channels, i: int, j: int, t: Ticket): nat {
    AskCount(Chan(chan, i, j), t) + TellCount(Chan(chan, j, i), t)
  }

  /** All messages travelling on behalf of server i's ticket. */
  function InFlight(chan: Channels, i: int, t: Ticket): nat {
    Between(chan, i, 0, t) + Between(chan, i, 1, t) + Between(chan, i, 2, t) + Between(chan, i, 3, t) + Between(chan, i, 4, t)
  }

  /** A forwarded request waits for as many replies as it has messages in flight; a parked one
      (sentCount -1) was never sent. */
  predicate Accounted(p: Pending, inFlight: nat) {
    if p.sentCount == -1 then p.noCount == 0 && inFlight == 0
    else 0 <= p.noCount < p.sentCount && p.sentCount == p.noCount + inFlight
  }

  ghost predicate Among(ps: seq<Pending>, p: Pending) {
    exists j :: 0 <= j < |ps| && TicketOf(ps[j]) == TicketOf(p)
  }

  /** Whatever operation by identifier is pending in qs was so in ps, or is one of the new ones. */
  ghost predicate Grown(ps: seq<Pending>, qs: seq<Pending>, more: seq<Pending>) {
    forall k :: 0 <= k < |qs| && !qs[k].req.Create? ==> Among(ps, qs[k]) || Among(more, qs[k])
  }

  ghost predicate Gone(ps: seq<Pending>, t: Ticket) {
    forall k :: 0 <= k < |ps| ==> TicketOf(ps[k]) != t
  }

  lemma GrownBy(ps: seq<Pending>, more: seq<Pending>)
    ensures Grown(ps, ps + more, more)
  {
    forall k | 0 <= k < |ps + more| ensures Among(ps, (ps + more)[k]) || Among(more, (ps + more)[k]) {
      if k < |ps| { assert TicketOf(ps[k]) == TicketOf((ps + more)[k]); }
      else { assert TicketOf(more[k - |ps|]) == TicketOf((ps + more)[k]); }
    }
  }

  lemma GrownPark(ps: seq<Pending>, p: Pending)
    requires p.req.Create?
    ensures Grown(ps, ps + [p], [])
  {
    GrownBy(ps, [p]);
    forall k | 0 <= k < |ps + [p]| && !(ps + [p])[k].req.Create? ensures Among(ps, (ps + [p])[k]) {
      assert TicketOf(ps[k]) == TicketOf((ps + [p])[k]);
    }
  }

  ghost predicate Vouched(ps: seq<Pending>, p: Pending) {
    p.req.Create? && exists l :: 0 <= l < |ps| && ps[l].sentCount != -1 && IsNamed(ps[l], p.req.kind, p.req.name)
  }

  /** Every parked create shares its name with a forwarded one. */
  ghost predicate AllVouched(ps: seq<Pending>) {
    forall k :: 0 <= k < |ps| && ps[k].sentCount == -1 ==> Vouched(ps, ps[k])
  }

  ghost predicate Tallied(ps: seq<Pending>, next: int, chan: Channels, i: int) {
    && 0 <= next && Numbered(ps, 0, next)
    && (forall t :: InFlight(chan, i, t) > 0 ==> t.requestID < next)
    && (forall k, t :: 0 <= k < |ps| && InFlight(chan, i, t) > 0 && t.requestID == ps[k].requestID ==> t == TicketOf(ps[k]))
    && (forall k :: 0 <= k < |ps| ==> Accounted(ps[k], InFlight(chan, i, TicketOf(ps[k]))))
  }

  ghost predicate Books(ps: seq<Pending>, next: int, chan: Channels, i: int) {
    Tallied(ps, next, chan, i) && AllVouched(ps)
  }

  // ---- counting messages ----

  lemma {:induction false} CountAppend(a: seq<Msg>, b: seq<Msg>, t: Ticket)
    ensures AskCount(a + b, t) == AskCount(a, t) + AskCount(b, t)
    ensures TellCount(a + b, t) == TellCount(a, t) + TellCount(b, t)
  {
    if a == [] {
      assert a + b == b;
    } else {
      assert (a + b)[0] == a[0] && (a + b)[1..] == a[1..] + b;
      CountAppend(a[1..], b, t);
    }
  }

  lemma {:induction false} CountAsks(ps: seq<Pending>, t: Ticket)
    ensures TellCount(AsksFor(ps), t) == 0
    ensures AskCount(AsksFor(ps), t) > 0 ==> exists k :: 0 <= k < |ps| && TicketOf(ps[k]) == t
  {
    if ps != [] {
      var rest := AsksFor(ps[1..]);
      assert ([AskFor(ps[0])] + rest)[1..] == rest;
      CountAsks(ps[1..], t);
      if AskCount(rest, t) > 0 {
        var k :| 0 <= k < |ps[1..]| && TicketOf(ps[1..][k]) == t;
        assert TicketOf(ps[k + 1]) == t;
      } else if OnMessage(AskFor(ps[0])) == t {
        assert TicketOf(ps[0]) == t;
      }
    }
  }

  lemma {:induction false} CountNumbered(ps: seq<Pending>, from: int, to: int, k: int)
    requires Numbered(ps, from, to) && 0 <= k < |ps|
    ensures AskCount(AsksFor(ps), TicketOf(ps[k])) == 1
  {
    var rest := AsksFor(ps[1..]);
    assert ([AskFor(ps[0])] + rest)[1..] == rest;
    if k == 0 {
      CountAsks(ps[1..], TicketOf(ps[0]));
    } else {
      CountNumbered(ps[1..], from, to, k - 1);
    }
  }

  // ---- what a step does to the messages in flight ----

  /** The actor's own outputs: at most one reply, to `from`, and the new requests to every peer. */
  ghost predicate Sent(out: seq<Out>, peers: seq<int>, more: seq<Pending>, from: int, reply: seq<Msg>) {
    && |reply| <= 1 && (forall r :: 0 <= r < |reply| ==> reply[r].Tell?)
    && forall d :: SentTo(out, d) == (if d == from then reply else []) + (if d in peers then AsksFor(more) else [])
  }

  /** A server other than the actor: its messages in flight do not change in number. */
  lemma BetweenOther(chan: Channels, me: int, out: seq<Out>, peers: seq<int>, more: seq<Pending>, from: int, reply: seq<Msg>, i: int, d: int, t: Ticket)
    requires Sent(out, peers, more, from, reply) && i != me
    ensures Between(Post(chan, me, out), i, d, t)
         == Between(chan, i, d, t) + if d == me && i == from then TellCount(reply, t) else 0
  {
    hide Post, SentTo;
    PostChannels(chan, me, out, i, d);
    PostChannels(chan, me, out, d, i);
    if d == me {
      var back := if i == from then reply else [];
      var asks := if i in peers then AsksFor(more) else [];
      CountAppend(Chan(chan, me, i), back + asks, t);
      CountAppend(back, asks, t);
      CountAsks(more, t);
    }
  }

  lemma BetweenSelf(chan: Channels, me: int, out: seq<Out>, peers: seq<int>, more: seq<Pending>, from: int, reply: seq<Msg>, d: int, t: Ticket)
    requires Sent(out, peers, more, from, reply) && me != d
    ensures Between(Post(chan, me, out), me, d, t)
         == Between(chan, me, d, t) + if d in peers then AskCount(AsksFor(more), t) else 0
  {
    hide Post, SentTo;
    PostChannels(chan, me, out, me, d);
    PostChannels(chan, me, out, d, me);
    var back := if d == from then reply else [];
    var asks := if d in peers then AsksFor(more) else [];
    CountAppend(Chan(chan, me, d), back + asks, t);
    CountAppend(back, asks, t);
    assert AskCount(back, t) == 0 by { if back != [] { assert back[1..] == []; } }
  }

  lemma BetweenNoSelf(chan: Channels, me: int, out: seq<Out>, peers: seq<int>, more: seq<Pending>, from: int, reply: seq<Msg>, t: Ticket)
    requires Sent(out, peers, more, from, reply) && me !in peers && me != from
    ensures Between(Post(chan, me, out), me, me, t) == Between(chan, me, me, t)
  {
    hide Post, SentTo;
    PostChannels(chan, me, out, me, me);
    assert SentTo(out, me) == [];
    assert Chan(chan, me, me) + [] == Chan(chan, me, me);
  }

  /** There are as many peers as servers the requests go to. */
  lemma PeersCounted(up: set<int>, me: int, n: nat)
    ensures var peers := Peers(up, me, 0);
            |peers| == Bit(0 in peers) + Bit(1 in peers) + Bit(2 in peers) + Bit(3 in peers) + Bit(4 in peers)
  {
    forall d ensures d in Peers(up, me, 0) <==> d in up && d != me && 0 <= d < SERVERS { PeersUp(up, me, 0, d); }
    PeersFrom(up, me, 4);
    PeersFrom(up, me, 3);
    PeersFrom(up, me, 2);
    PeersFrom(up, me, 1);
    PeersFrom(up, me, 0);
    assert |Peers(up, me, 5)| == 0;
  }

  lemma PeersFrom(up: set<int>, me: int, d: nat)
    requires d < SERVERS
    ensures |Peers(up, me, d)| == Bit(d in up && d != me) + |Peers(up, me, d + 1)|
  {
  }

  function Bit(b: bool): nat { if b then 1 else 0 }

  lemma InFlightOther(chan: Channels, me: int, out: seq<Out>, peers: seq<int>, more: seq<Pending>, from: int, reply: seq<Msg>, i: int, t: Ticket)
    requires Sent(out, peers, more, from, reply) && i != me && 0 <= me < SERVERS
    ensures InFlight(Post(chan, me, out), i, t) == InFlight(chan, i, t) + if i == from then TellCount(reply, t) else 0
  {
    hide Between, Post, Sent, TellCount;
    BetweenOther(chan, me, out, peers, more, from, reply, i, 0, t);
    BetweenOther(chan, me, out, peers, more, from, reply, i, 1, t);
    BetweenOther(chan, me, out, peers, more, from, reply, i, 2, t);
    BetweenOther(chan, me, out, peers, more, from, reply, i, 3, t);
    BetweenOther(chan, me, out, peers, more, from, reply, i, 4, t);
  }

  lemma BetweenEach(chan: Channels, me: int, out: seq<Out>, peers: seq<int>, more: seq<Pending>, from: int, reply: seq<Msg>, d: int, t: Ticket)
    requires Sent(out, peers, more, from, reply) && me !in peers && me != from
    ensures Between(Post(chan, me, out), me, d, t)
         == Between(chan, me, d, t) + Bit(d in peers) * AskCount(AsksFor(more), t)
  {
    hide Between, Post, Sent;
    if d == me {
      BetweenNoSelf(chan, me, out, peers, more, from, reply, t);
    } else {
      BetweenSelf(chan, me, out, peers, more, from, reply, d, t);
    }
  }

  lemma Distribute(a: int, b: int, c: int, d: int, e: int, x: int)
    ensures (a + b + c + d + e) * x == a * x + b * x + c * x + d * x + e * x
  {
  }

  lemma InFlightSelf(chan: Channels, up: set<int>, me: int, out: seq<Out>, more: seq<Pending>, from: int, reply: seq<Msg>, t: Ticket)
    requires Sent(out, Peers(up, me, 0), more, from, reply) && me != from
    ensures InFlight(Post(chan, me, out), me, t) == InFlight(chan, me, t) + |Peers(up, me, 0)| * AskCount(AsksFor(more), t)
  {
    hide Between, Post, Sent, AskCount, AsksFor, Bit, Peers;
    var peers := Peers(up, me, 0);
    PeersUp(up, me, 0, me);
    BetweenEach(chan, me, out, peers, more, from, reply, 0, t);
    BetweenEach(chan, me, out, peers, more, from, reply, 1, t);
    BetweenEach(chan, me, out, peers, more, from, reply, 2, t);
    BetweenEach(chan, me, out, peers, more, from, reply, 3, t);
    BetweenEach(chan, me, out, peers, more, from, reply, 4, t);
    PeersCounted(up, me, 0);
    Distribute(Bit(0 in peers), Bit(1 in peers), Bit(2 in peers), Bit(3 in peers), Bit(4 in peers), AskCount(AsksFor(more), t));
  }

  /** Reading a message takes it out of flight: a request for its sender, a reply for its reader. */
  lemma BetweenPop(chan: Channels, from: int, me: int, i: int, d: int, t: Ticket)
    requires Chan(chan, from, me) != [] && from != me
    ensures var m := Chan(chan, from, me)[0];
            var after := chan[(from, me) := Chan(chan, from, me)[1..]];
            Between(after, i, d, t) == Between(chan, i, d, t)
              - (if i == from && d == me && m.Ask? && OnMessage(m) == t then 1 else 0)
              - (if i == me && d == from && m.Tell? && OnMessage(m) == t then 1 else 0)
  {
  }

  lemma InFlightPop(chan: Channels, from: int, me: int, i: int, t: Ticket)
    requires Chan(chan, from, me) != [] && from != me && 0 <= from < SERVERS && 0 <= me < SERVERS
    ensures var m := Chan(chan, from, me)[0];
            var after := chan[(from, me) := Chan(chan, from, me)[1..]];
            InFlight(after, i, t) == InFlight(chan, i, t)
              - (if OnMessage(m) == t && i == (if m.Ask? then from else me) then 1 else 0)
  {
    hide Between;
    BetweenPop(chan, from, me, i, 0, t);
    BetweenPop(chan, from, me, i, 1, t);
    BetweenPop(chan, from, me, i, 2, t);
    BetweenPop(chan, from, me, i, 3, t);
    BetweenPop(chan, from, me, i, 4, t);
  }

  // ---- what keeps the books ----

  ghost predicate SameLoad(chan: Channels, after: Channels, i: int) {
    forall t :: InFlight(after, i, t) == InFlight(chan, i, t)
  }

  lemma BooksSameLoad(ps: seq<Pending>, next: int, chan: Channels, after: Channels, i: int)
    requires Books(ps, next, chan, i) && SameLoad(chan, after, i)
    ensures Books(ps, next, after, i)
  {
    hide InFlight, AllVouched;
  }

  lemma VouchedMore(ps: seq<Pending>, more: seq<Pending>)
    requires AllVouched(ps) && forall k :: 0 <= k < |more| && more[k].sentCount == -1 ==> Vouched(ps, more[k])
    ensures AllVouched(ps + more)
  {
    forall k | 0 <= k < |ps + more| && (ps + more)[k].sentCount == -1 ensures Vouched(ps + more, (ps + more)[k]) {
      var p := (ps + more)[k];
      assert Vouched(ps, p);
      var l :| 0 <= l < |ps| && ps[l].sentCount != -1 && IsNamed(ps[l], p.req.kind, p.req.name);
      assert (ps + more)[l] == ps[l];
    }
  }

  ghost predicate AddedLoad(chan: Channels, after: Channels, i: int, n: int, more: seq<Pending>) {
    forall t :: InFlight(after, i, t) == InFlight(chan, i, t) + n * AskCount(AsksFor(more), t)
  }

  /** The load of a ticket after a push: n for each new request, the old load for all else. */
  lemma LoadNew(chan: Channels, after: Channels, i: int, n: int, more: seq<Pending>, from: int, to: int, k: int)
    requires AddedLoad(chan, after, i, n, more) && Numbered(more, from, to) && 0 <= k < |more|
    ensures InFlight(after, i, TicketOf(more[k])) == InFlight(chan, i, TicketOf(more[k])) + n
  {
    hide InFlight, AskCount, AsksFor;
    CountNumbered(more, from, to, k);
  }

  lemma LoadOld(chan: Channels, after: Channels, i: int, n: int, more: seq<Pending>, t: Ticket)
    requires AddedLoad(chan, after, i, n, more) && forall k :: 0 <= k < |more| ==> TicketOf(more[k]) != t
    ensures InFlight(after, i, t) == InFlight(chan, i, t)
  {
    hide InFlight, AskCount, AsksFor;
    CountAsks(more, t);
  }

  /** Forwarding: the new requests and their messages balance. */
  lemma TalliedPush(ps: seq<Pending>, next: int, chan: Channels, i: int, more: seq<Pending>, to: int, after: Channels, n: int)
    requires Tallied(ps, next, chan, i) && next <= to && Numbered(more, next, to) && JustSent(more, n)
    requires AddedLoad(chan, after, i, n, more)
    ensures Tallied(ps + more, to, after, i)
  {
    hide InFlight, AskCount, AsksFor, AddedLoad;
    var all := ps + more;
    forall k | 0 <= k < |more|
      ensures InFlight(chan, i, TicketOf(more[k])) == 0 && InFlight(after, i, TicketOf(more[k])) == n
    {
      LoadNew(chan, after, i, n, more, next, to, k);
    }
    forall t | forall k :: 0 <= k < |more| ==> TicketOf(more[k]) != t
      ensures InFlight(after, i, t) == InFlight(chan, i, t)
    {
      LoadOld(chan, after, i, n, more, t);
    }
    forall t | InFlight(after, i, t) > 0
      ensures t.requestID < to && forall k :: 0 <= k < |all| && t.requestID == all[k].requestID ==> t == TicketOf(all[k])
    {
      PushOwner(ps, next, more, to, t);
    }
    forall k | 0 <= k < |all| ensures Accounted(all[k], InFlight(after, i, TicketOf(all[k]))) {
      if k < |ps| { assert all[k] == ps[k]; } else { assert all[k] == more[k - |ps|]; }
    }
  }

  /** A ticket is either one of the new ones, or none of the new numbers is its own. */
  lemma PushOwner(ps: seq<Pending>, next: int, more: seq<Pending>, to: int, t: Ticket)
    requires Numbered(ps, 0, next) && Numbered(more, next, to)
    ensures forall k :: 0 <= k < |more| && TicketOf(more[k]) == t ==> t.requestID < to
    ensures (exists k :: 0 <= k < |more| && TicketOf(more[k]) == t) ==>
              forall j :: 0 <= j < |ps + more| && (ps + more)[j].requestID == t.requestID ==> t == TicketOf((ps + more)[j])
  {
    forall k, j | 0 <= k < |more| && TicketOf(more[k]) == t && 0 <= j < |ps + more| && (ps + more)[j].requestID == t.requestID
      ensures t == TicketOf((ps + more)[j])
    {
      if j < |ps| { assert false; } else { assert j - |ps| == k; }
    }
  }

  lemma BooksPush(s: Server, chan: Channels, i: int, up: set<int>, e: Eff, more: seq<Pending>, after: Channels)
    requires Books(s.pending, s.nextID, chan, i) && s.me == i && Emits(s, up, e, more)
    requires AddedLoad(chan, after, i, |Peers(up, i, 0)|, more)
    ensures Books(e.s.pending, e.s.nextID, after, i)
  {
    hide InFlight, AddedLoad, Peers, AskedOf, AllVouched;
    TalliedPush(s.pending, s.nextID, chan, i, more, e.s.nextID, after, |Peers(up, i, 0)|);
    assert forall k :: 0 <= k < |more| ==> more[k].sentCount != -1;
    VouchedMore(s.pending, more);
  }

  /** Parking a create behind a pending one of the same name. */
  lemma BooksPark(s: Server, chan: Channels, i: int, c: Client, req: Request)
    requires Books(s.pending, s.nextID, chan, i)
    requires req.Create? && FindPendingNamed(s.pending, req.kind, req.name, 0) != -1
    ensures Books(s.pending + [Pending(c, req, -1, 0, s.nextID)], s.nextID + 1, chan, i)
  {
    hide InFlight;
    var p := Pending(c, req, -1, 0, s.nextID);
    var r := FindPendingNamed(s.pending, req.kind, req.name, 0);
    assert Vouched(s.pending, p) by {
      if s.pending[r].sentCount == -1 { assert Vouched(s.pending, s.pending[r]); }
    }
    VouchedMore(s.pending, [p]);
    assert InFlight(chan, i, TicketOf(p)) == 0;
  }

  lemma TalliedRemove(ps: seq<Pending>, next: int, chan: Channels, i: int, k: int)
    requires Tallied(ps, next, chan, i) && 0 <= k < |ps|
    ensures Tallied(RemoveAt(ps, k), next, chan, i)
  {
    hide InFlight;
  }

  /** Every parked create of another name is vouched for. */
  ghost predicate VouchedBut(ps: seq<Pending>, kind: Kind, name: string) {
    forall k :: 0 <= k < |ps| && ps[k].sentCount == -1 && !IsNamed(ps[k], kind, name) ==> Vouched(ps, ps[k])
  }

  lemma VouchedRemove(ps: seq<Pending>, k: int, kind: Kind, name: string)
    requires 0 <= k < |ps| && VouchedBut(ps, kind, name) && (ps[k].req.Create? ==> IsNamed(ps[k], kind, name))
    ensures VouchedBut(RemoveAt(ps, k), kind, name)
  {
    var rest := RemoveAt(ps, k);
    forall j | 0 <= j < |rest| && rest[j].sentCount == -1 && !IsNamed(rest[j], kind, name) ensures Vouched(rest, rest[j]) {
      var p := rest[j];
      assert p == ps[if j < k then j else j + 1];
      assert Vouched(ps, p);
      var l :| 0 <= l < |ps| && ps[l].sentCount != -1 && IsNamed(ps[l], p.req.kind, p.req.name);
      assert rest[if l < k then l else l - 1] == ps[l];
    }
  }

  lemma {:induction false} DropBooks(ps: seq<Pending>, next: int, chan: Channels, i: int, kind: Kind, name: string)
    requires Tallied(ps, next, chan, i) && VouchedBut(ps, kind, name)
    ensures Books(DropNamed(ps, kind, name), next, chan, i)
    decreases |ps|
  {
    hide Tallied;
    var k := FindPendingNamed(ps, kind, name, 0);
    if k != -1 {
      TalliedRemove(ps, next, chan, i, k);
      VouchedRemove(ps, k, kind, name);
      DropBooks(RemoveAt(ps, k), next, chan, i, kind, name);
    }
  }

  /** Finishing a forwarded request: with a create go all creates of its name. */
  function Finished(ps: seq<Pending>, k: int, req: Request): seq<Pending>
    requires 0 <= k < |ps|
  {
    if req.Create? then DropNamed(RemoveAt(ps, k), req.kind, req.name) else RemoveAt(ps, k)
  }

  lemma BooksFinish(ps: seq<Pending>, next: int, chan: Channels, i: int, k: int, req: Request)
    requires Books(ps, next, chan, i) && 0 <= k < |ps| && SameTarget(ps[k].req, req) && (req.Create? ==> ps[k].req.kind == req.kind)
    ensures Books(Finished(ps, k, req), next, chan, i)
  {
    hide Tallied, DropNamed, OpCode, Vouched;
    TalliedRemove(ps, next, chan, i, k);
    if req.Create? {
      VouchedRemove(ps, k, req.kind, req.name);
      DropBooks(RemoveAt(ps, k), next, chan, i, req.kind, req.name);
    } else {
      NotCreateKeepsVouched(ps, k);
    }
  }

  lemma NotCreateKeepsVouched(ps: seq<Pending>, k: int)
    requires 0 <= k < |ps| && AllVouched(ps) && !ps[k].req.Create?
    ensures AllVouched(RemoveAt(ps, k))
  {
    var rest := RemoveAt(ps, k);
    forall j | 0 <= j < |rest| && rest[j].sentCount == -1 ensures Vouched(rest, rest[j]) {
      var p := rest[j];
      assert p == ps[if j < k then j else j + 1];
      assert Vouched(ps, p);
      VouchedRemove(ps, k, if p.req.kind == LockKind then CVKind else LockKind, p.req.name);
    }
  }

  ghost predicate OneLess(chan: Channels, after: Channels, i: int, t: Ticket) {
    && InFlight(chan, i, t) > 0
    && forall u :: InFlight(after, i, u) == InFlight(chan, i, u) - if u == t then 1 else 0
  }

  /** A reply to nothing that is pending. */
  lemma BooksStray(ps: seq<Pending>, next: int, chan: Channels, after: Channels, i: int, t: Ticket)
    requires Books(ps, next, chan, i) && OneLess(chan, after, i, t)
    requires forall k :: 0 <= k < |ps| ==> TicketOf(ps[k]) != t
    ensures Books(ps, next, after, i)
  {
    hide InFlight, AllVouched;
  }

  /** A NO that is not the last one is counted. */
  lemma BooksCount(ps: seq<Pending>, next: int, chan: Channels, after: Channels, i: int, k: int)
    requires Books(ps, next, chan, i) && 0 <= k < |ps| && OneLess(chan, after, i, TicketOf(ps[k]))
    requires ps[k].noCount + 1 != ps[k].sentCount
    ensures Books(ps[k := ps[k].(noCount := ps[k].noCount + 1)], next, after, i)
  {
    hide InFlight, AllVouched, Numbered;
    var qs := ps[k := ps[k].(noCount := ps[k].noCount + 1)];
    assert forall j :: 0 <= j < |ps| ==> TicketOf(qs[j]) == TicketOf(ps[j]) && qs[j].sentCount == ps[j].sentCount;
    SameKeys(ps, qs, next);
    forall j | 0 <= j < |qs| ensures Accounted(qs[j], InFlight(after, i, TicketOf(qs[j]))) {
      if j != k { DistinctTickets(ps, next, j, k); }
    }
  }

  lemma DistinctTickets(ps: seq<Pending>, next: int, j: int, k: int)
    requires Numbered(ps, 0, next) && 0 <= j < |ps| && 0 <= k < |ps| && j != k
    ensures TicketOf(ps[j]) != TicketOf(ps[k])
  {
  }

  lemma SameKeys(ps: seq<Pending>, qs: seq<Pending>, next: int)
    requires |ps| == |qs| && forall j :: 0 <= j < |ps| ==> TicketOf(qs[j]) == TicketOf(ps[j]) && qs[j].sentCount == ps[j].sentCount
    requires Numbered(ps, 0, next) && AllVouched(ps)
    ensures Numbered(qs, 0, next) && AllVouched(qs)
  {
    assert forall j :: 0 <= j < |ps| ==> qs[j].requestID == TicketOf(qs[j]).requestID && ps[j].requestID == TicketOf(ps[j]).requestID;
    forall j | 0 <= j < |qs| && qs[j].sentCount == -1 ensures Vouched(qs, qs[j]) {
      var p := qs[j];
      assert TicketOf(qs[j]) == TicketOf(ps[j]) && Vouched(ps, ps[j]);
      var l :| 0 <= l < |ps| && ps[l].sentCount != -1 && IsNamed(ps[l], p.req.kind, p.req.name);
      assert TicketOf(qs[l]) == TicketOf(ps[l]) && IsNamed(qs[l], p.req.kind, p.req.name);
    }
  }
}
